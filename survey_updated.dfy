/** The updated survey page. Besides the original page's text fields and
    twelve scores it keeps a list of selected challenges and a flag for the
    free-text "その他" challenge; the memo sent to the analysis route is
    assembled from the mission, the vision, the challenges and the free
    text. The question table, the validator and the score array are the
    original page's. */
module SurveyUpdated {
  import opened Wrappers
  import opened Strings
  import AnalyzeRoute
  import SurveyOriginal

  /** The page's initial text fields, all empty. */
  function InitialFormData(): map<string, string>
  {
    map["company_name" := "", "respondent_name" := "", "respondent_email" := "", "industry" := "",
        "business_phase" := "", "revenue_scale" := "", "mission" := "", "vision_future" := "",
        "other_challenge" := ""]
  }

  /** The challenge that stands for the free-text answer. */
  const OtherChallenge: string := "その他"

  /** The ordinary challenge checkboxes, category by category. */
  const ChallengeOptions: seq<string> := [
    "認知・知名度不足", "価格競争からの脱却", "新規集客の低迷", "リピート率の向上",
    "強みの言語化・明確化", "競合との差別化", "ターゲット設定の曖昧さ",
    "採用ブランディング（人材獲得）", "社内の意識統一（理念浸透）", "事業承継・世代交代",
    "デザインの一貫性（ロゴ・Web等）", "情報発信・SNS運用"
  ]

  lemma OtherIsNotAnOption()
    ensures OtherChallenge !in ChallengeOptions
  {
  }

  // ---------------------------------------------------------------------------
  // The challenge list

  /** Each item occurs at most once. */
  ghost predicate NoDup(xs: seq<string>)
  {
    forall y :: multiset(xs)[y] <= 1
  }

  /** `xs.filter(c => c !== x)`. */
  function Without(xs: seq<string>, x: string): (r: seq<string>)
    ensures x !in r
    ensures forall y :: y in r <==> y in xs && y != x
    ensures multiset(r) == multiset(xs)[x := 0]
  {
    if |xs| == 0 then []
    else
      var init := xs[..|xs| - 1];
      var last := xs[|xs| - 1];
      assert xs == init + [last];
      var r := Without(init, x);
      if last == x then r else r + [last]
  }

  /** Filtering keeps the order of what it keeps: filtering a concatenation
      is concatenating the filtered pieces. */
  lemma {:induction false} WithoutAppend(a: seq<string>, b: seq<string>, x: string)
    ensures Without(a + b, x) == Without(a, x) + Without(b, x)
    decreases |b|
  {
    if |b| > 0 {
      var ab, b0 := a + b, b[..|b| - 1];
      assert ab[..|ab| - 1] == a + b0;
      assert ab[|ab| - 1] == b[|b| - 1];
      WithoutAppend(a, b0, x);
    } else {
      assert a + b == a;
    }
  }

  /** Filtering out an item that is not there keeps the list as it is. */
  lemma {:induction false} WithoutAbsent(xs: seq<string>, x: string)
    requires x !in xs
    ensures Without(xs, x) == xs
  {
    if |xs| > 0 {
      WithoutAbsent(xs[..|xs| - 1], x);
      assert xs[..|xs| - 1] + [xs[|xs| - 1]] == xs;
    }
  }

  /** An ordinary checkbox: every occurrence is removed when the challenge
      is selected, otherwise it is appended at the end. */
  function Toggle(xs: seq<string>, c: string): (r: seq<string>)
    ensures c !in xs ==> r == xs + [c]
    ensures c in xs ==> r == Without(xs, c)
    ensures forall y :: y in r <==> (if y == c then c !in xs else y in xs)
  {
    if c in xs then Without(xs, c) else xs + [c]
  }

  /** Toggling an unselected challenge twice gives the list back. */
  lemma ToggleTwice(xs: seq<string>, c: string)
    requires c !in xs
    ensures Toggle(Toggle(xs, c), c) == xs
  {
    var ys := xs + [c];
    assert ys[..|ys| - 1] == xs;
    WithoutAbsent(xs, c);
  }

  lemma AppendNew(xs: seq<string>, c: string)
    requires NoDup(xs) && c !in xs
    ensures NoDup(xs + [c])
  {
    assert multiset(xs + [c]) == multiset(xs) + multiset{c};
  }

  /** A list without duplicates stays without duplicates. */
  lemma ToggleKeepsNoDup(xs: seq<string>, c: string)
    requires NoDup(xs)
    ensures NoDup(Toggle(xs, c))
  {
    if c !in xs {
      AppendNew(xs, c);
    }
  }

  /** The challenge part of the form state. */
  datatype Challenges = Challenges(selected: seq<string>, showOther: bool, otherText: string)

  const NoChallenges: Challenges := Challenges([], false, "")

  /** What the page keeps true: "その他" is selected exactly when its
      free-text box is shown, no challenge is selected twice, and the free
      text is empty while its box is hidden. */
  ghost predicate Consistent(s: Challenges)
  {
    (OtherChallenge in s.selected <==> s.showOther)
    && NoDup(s.selected)
    && (!s.showOther ==> s.otherText == "")
  }

  /** `handleChallengeToggle` on the challenge part of the state. */
  function ToggleChallenge(s: Challenges, c: string): Challenges
  {
    if c == OtherChallenge then
      if s.showOther then Challenges(Without(s.selected, c), false, "")
      else Challenges(s.selected + [c], true, s.otherText)
    else Challenges(Toggle(s.selected, c), s.showOther, s.otherText)
  }

  /** Every toggle keeps the state consistent. */
  lemma ToggleChallengeKeepsConsistent(s: Challenges, c: string)
    requires Consistent(s)
    ensures Consistent(ToggleChallenge(s, c))
  {
    if c == OtherChallenge {
      if !s.showOther {
        AppendNew(s.selected, c);
      }
    } else {
      ToggleKeepsNoDup(s.selected, c);
    }
  }

  /** On a consistent state a toggle flips the toggled challenge's
      membership and no other; "その他" also flips the flag and, when
      switched off, clears the free text; an ordinary challenge touches
      neither. A challenge switched on goes to the end of the list, and
      one switched off is filtered out, the rest keeping their order. */
  lemma ToggleChallengeEffect(s: Challenges, c: string, y: string)
    requires Consistent(s)
    ensures var r := ToggleChallenge(s, c);
            && (y in r.selected <==> (if y == c then c !in s.selected else y in s.selected))
            && (c == OtherChallenge ==> r.showOther == !s.showOther && (s.showOther ==> r.otherText == ""))
            && (c != OtherChallenge ==> r.showOther == s.showOther && r.otherText == s.otherText)
            && (c !in s.selected ==> r.selected == s.selected + [c])
            && (c in s.selected ==> r.selected == Without(s.selected, c))
  {
  }

  /** Toggling an unselected challenge twice restores the state. For
      "その他" the free text is then empty, since its box was hidden. */
  lemma ToggleChallengeTwice(s: Challenges, c: string)
    requires Consistent(s) && c !in s.selected
    ensures ToggleChallenge(ToggleChallenge(s, c), c) == s
  {
    var ys := s.selected + [c];
    assert ys[..|ys| - 1] == s.selected;
    WithoutAbsent(s.selected, c);
  }

  /** The state after a series of checkbox clicks. */
  function ApplyToggles(s: Challenges, clicks: seq<string>): Challenges
  {
    if |clicks| == 0 then s
    else ToggleChallenge(ApplyToggles(s, clicks[..|clicks| - 1]), clicks[|clicks| - 1])
  }

  /** From the initial empty list and hidden box, every series of clicks
      leaves the state consistent. */
  lemma {:induction false} TogglesFromStartAreConsistent(clicks: seq<string>)
    ensures Consistent(ApplyToggles(NoChallenges, clicks))
  {
    if |clicks| > 0 {
      TogglesFromStartAreConsistent(clicks[..|clicks| - 1]);
      ToggleChallengeKeepsConsistent(ApplyToggles(NoChallenges, clicks[..|clicks| - 1]), clicks[|clicks| - 1]);
    }
  }

  // ---------------------------------------------------------------------------
  // The memo sent to the analysis route

  function MissionPart(mission: string): string
  {
    "【企業理念】\n" + AnalyzeRoute.OrElse(AnalyzeRoute.Text(mission), "未記入")
  }

  function VisionPart(vision: string): string
  {
    "\n\n【3〜5年後のビジョン】\n" + AnalyzeRoute.OrElse(AnalyzeRoute.Text(vision), "未記入")
  }

  function ChallengeList(challenges: seq<string>): string
  {
    AnalyzeRoute.OrElse(AnalyzeRoute.Text(Join(challenges, "、")), "未選択")
  }

  function ChallengePart(challenges: seq<string>): string
  {
    "\n\n【課題】\n" + ChallengeList(challenges)
  }

  function OtherLine(other: string): string
  {
    if other != "" then "\nその他: " + other else ""
  }

  /** The memo: mission, vision and challenges, each with its placeholder,
      then the free-text line when there is free text. */
  function ChallengeMemo(mission: string, vision: string, challenges: seq<string>, other: string): string
  {
    MissionPart(mission) + VisionPart(vision) + ChallengePart(challenges) + OtherLine(other)
  }

  /** The challenge list reads "未選択" when nothing is selected and is the
      "、"-joined selection otherwise. */
  lemma ChallengeListPlaceholder(challenges: seq<string>)
    requires forall k :: 0 <= k < |challenges| ==> challenges[k] != ""
    ensures challenges == [] ==> ChallengeList(challenges) == "未選択"
    ensures challenges != [] ==> ChallengeList(challenges) == Join(challenges, "、")
  {
    JoinEmpty(challenges, "、");
  }

  /** The memo holds the mission, vision and challenge sections in order;
      it ends with the free-text line exactly when there is free text, and
      with the challenge section otherwise. */
  lemma MemoSections(mission: string, vision: string, challenges: seq<string>, other: string)
    ensures var m := ChallengeMemo(mission, vision, challenges, other);
            && OccursAt(m, MissionPart(mission), 0)
            && OccursAt(m, VisionPart(vision), |MissionPart(mission)|)
            && OccursAt(m, ChallengePart(challenges), |MissionPart(mission)| + |VisionPart(vision)|)
            && (other != "" ==> EndsWith(m, "\nその他: " + other))
            && (other == "" ==> EndsWith(m, ChallengePart(challenges)))
  {
    var a, b, c, d := MissionPart(mission), VisionPart(vision), ChallengePart(challenges), OtherLine(other);
    PiecesInOrder(a, b, c, d);
    if other == "" {
      assert a + b + c + d == a + b + c;
    }
  }

  /** Where four pieces sit in their concatenation. */
  lemma PiecesInOrder(a: string, b: string, c: string, d: string)
    ensures var m := a + b + c + d;
            && OccursAt(m, a, 0) && OccursAt(m, b, |a|) && OccursAt(m, c, |a| + |b|)
            && EndsWith(m, d) && EndsWith(a + b + c, c)
  {
    var m := a + b + c + d;
    assert m[..|a|] == a;
    assert m[|a|..|a| + |b|] == b;
    assert m[|a| + |b|..|a| + |b| + |c|] == c;
    assert m[|m| - |d|..] == d;
    assert (a + b + c)[|a| + |b|..] == c;
  }

  /** The memo is never empty, so the route prints it instead of "記載なし". */
  lemma MemoNeverFallsBack(mission: string, vision: string, challenges: seq<string>, other: string)
    ensures AnalyzeRoute.OrElse(AnalyzeRoute.Text(ChallengeMemo(mission, vision, challenges, other)), "記載なし")
            == ChallengeMemo(mission, vision, challenges, other)
  {
    assert |ChallengeMemo(mission, vision, challenges, other)| >= |MissionPart(mission)| > 0;
  }

  /** On a consistent state the memo has a free-text line only when "その他"
      is among the selected challenges. */
  lemma OtherLineOnlyWhenChosen(mission: string, vision: string, s: Challenges)
    requires Consistent(s)
    ensures s.otherText != "" ==>
              OtherChallenge in s.selected
              && EndsWith(ChallengeMemo(mission, vision, s.selected, s.otherText), "\nその他: " + s.otherText)
  {
    MemoSections(mission, vision, s.selected, s.otherText);
  }

  /** The request body this page sends to the analysis route. */
  function AnalysisRequest(formData: map<string, string>, scores: map<string, int>, selected: seq<string>): (r: AnalyzeRoute.AnalyzeRequest)
    requires SurveyOriginal.HasAllQuestions(scores)
    ensures AnalyzeRoute.ScoresAccepted(r.scores)
    ensures r.memo.Text? && r.memo.s != ""
  {
    AnalyzeRoute.AnalyzeRequest(
      Some(SurveyOriginal.ScoreArray(scores)),
      AnalyzeRoute.Text(ChallengeMemo(
        SurveyOriginal.Field(formData, "mission"), SurveyOriginal.Field(formData, "vision_future"),
        selected, SurveyOriginal.Field(formData, "other_challenge"))),
      AnalyzeRoute.Text(SurveyOriginal.Field(formData, "business_phase")),
      AnalyzeRoute.Text(SurveyOriginal.Field(formData, "company_name")))
  }

  /** The submitted score array has the twelve scores in question order, so
      the route never answers 400. */
  lemma SubmittedRequestPassesRoute<J>(formData: map<string, string>, scores: map<string, int>, selected: seq<string>,
                                       callModel: string -> Result<AnalyzeRoute.ContentBlock, string>,
                                       parseJson: string -> Result<J, string>)
    requires SurveyOriginal.HasAllQuestions(scores)
    ensures var req := AnalysisRequest(formData, scores, selected);
            && |req.scores.value| == AnalyzeRoute.ScoreCount
            && (forall i :: 0 <= i < |SurveyOriginal.QuestionIds| ==>
                  req.scores.value[i] == scores[SurveyOriginal.QuestionIds[i]])
            && AnalyzeRoute.Post(Ok(req), callModel, parseJson).status != 400
  {
  }

  /** The prompt for the submitted request carries the assembled memo under
      its heading, never the "記載なし" placeholder. */
  lemma SubmittedMemoReachesPrompt(mission: string, vision: string, selected: seq<string>, other: string,
                                   businessPhase: AnalyzeRoute.JsText, companyName: AnalyzeRoute.JsText,
                                   scores: seq<int>)
    requires |scores| == AnalyzeRoute.ScoreCount
    ensures Contains(AnalyzeRoute.Prompt(companyName, businessPhase,
                                         AnalyzeRoute.Text(ChallengeMemo(mission, vision, selected, other)), scores),
                     AnalyzeRoute.MemoHeading + ChallengeMemo(mission, vision, selected, other))
  {
    var memo := ChallengeMemo(mission, vision, selected, other);
    MemoNeverFallsBack(mission, vision, selected, other);
    AnalyzeRoute.PromptSections(companyName, businessPhase, AnalyzeRoute.Text(memo), scores);
  }

  // ---------------------------------------------------------------------------
  // The page's form state

  class UpdatedSurveyForm {
    var formData: map<string, string>
    var selectedChallenges: seq<string>
    var showOtherChallenge: bool
    var scores: map<string, int>
    var agreedToPrivacy: bool

    function ChallengeState(): Challenges
      reads this
    {
      Challenges(selectedChallenges, showOtherChallenge, SurveyOriginal.Field(formData, "other_challenge"))
    }

    /** Every question keeps a score and the challenge state is consistent. */
    ghost predicate Valid()
      reads this
    {
      SurveyOriginal.HasAllQuestions(scores) && Consistent(ChallengeState())
    }

    constructor ()
      ensures Valid()
      ensures formData == InitialFormData()
      ensures selectedChallenges == [] && !showOtherChallenge
      ensures scores == SurveyOriginal.InitialScores()
      ensures !agreedToPrivacy
    {
      formData := InitialFormData();
      selectedChallenges := [];
      showOtherChallenge := false;
      scores := SurveyOriginal.InitialScores();
      agreedToPrivacy := false;
    }

    /** `handleInputChange`: only the named field changes. The free-text
        box, the only input named "other_challenge", is rendered only while
        "その他" is checked. */
    method HandleInputChange(name: string, value: string)
      requires Valid()
      requires name == "other_challenge" ==> showOtherChallenge
      modifies this
      ensures Valid()
      ensures formData == old(formData)[name := value]
      ensures forall f :: f in old(formData) && f != name ==> f in formData && formData[f] == old(formData)[f]
      ensures selectedChallenges == old(selectedChallenges) && showOtherChallenge == old(showOtherChallenge)
      ensures scores == old(scores) && agreedToPrivacy == old(agreedToPrivacy)
    {
      formData := formData[name := value];
    }

    /** `handleScoreChange`: only the question's score changes. */
    method HandleScoreChange(questionId: string, score: int)
      requires Valid()
      modifies this
      ensures Valid()
      ensures scores == old(scores)[questionId := score]
      ensures forall q :: q in old(scores) && q != questionId ==> q in scores && scores[q] == old(scores)[q]
      ensures formData == old(formData) && selectedChallenges == old(selectedChallenges)
      ensures showOtherChallenge == old(showOtherChallenge) && agreedToPrivacy == old(agreedToPrivacy)
      ensures SurveyOriginal.ScoresInRange(old(scores)) && score in SurveyOriginal.ScoreButtons ==>
                SurveyOriginal.ScoresInRange(scores)
    {
      scores := scores[questionId := score];
    }

    /** `handleChallengeToggle`: the challenge state moves as `ToggleChallenge`
        says; "その他" being switched off also clears the free text. */
    method HandleChallengeToggle(challenge: string)
      requires Valid()
      modifies this
      ensures Valid()
      ensures ChallengeState() == ToggleChallenge(old(ChallengeState()), challenge)
      ensures formData == if challenge == OtherChallenge && old(showOtherChallenge)
                          then old(formData)["other_challenge" := ""] else old(formData)
      ensures scores == old(scores) && agreedToPrivacy == old(agreedToPrivacy)
    {
      ToggleChallengeKeepsConsistent(ChallengeState(), challenge);
      if challenge == OtherChallenge {
        var wasShown := showOtherChallenge;
        showOtherChallenge := !showOtherChallenge;
        if wasShown {
          selectedChallenges := Without(selectedChallenges, OtherChallenge);
          formData := formData["other_challenge" := ""];
        } else {
          selectedChallenges := selectedChallenges + [OtherChallenge];
        }
      } else {
        if challenge in selectedChallenges {
          selectedChallenges := Without(selectedChallenges, challenge);
        } else {
          selectedChallenges := selectedChallenges + [challenge];
        }
      }
    }

    method SetAgreedToPrivacy(checked: bool)
      requires Valid()
      modifies this
      ensures Valid()
      ensures agreedToPrivacy == checked
      ensures formData == old(formData) && scores == old(scores)
      ensures selectedChallenges == old(selectedChallenges) && showOtherChallenge == old(showOtherChallenge)
    {
      agreedToPrivacy := checked;
    }

    /** `validateForm` on the current state: the original page's four
        checks in the same order. Passing means every question scores at
        least 1. */
    function Validate(): (r: SurveyOriginal.Check)
      reads this
      requires Valid()
      ensures r == SurveyOriginal.ValidateForm(formData, scores, agreedToPrivacy)
      ensures r == SurveyOriginal.Passed ==>
                forall i :: 0 <= i < |SurveyOriginal.QuestionIds| ==> scores[SurveyOriginal.QuestionIds[i]] >= 1
    {
      SurveyOriginal.ValidateForm(formData, scores, agreedToPrivacy)
    }

    /** The memo `handleSubmit` sends, from the current state. */
    function Memo(): (m: string)
      reads this
      requires Valid()
      ensures m != ""
      ensures showOtherChallenge || m == ChallengeMemo(SurveyOriginal.Field(formData, "mission"),
                SurveyOriginal.Field(formData, "vision_future"), selectedChallenges, "")
    {
      MemoNeverFallsBack(SurveyOriginal.Field(formData, "mission"), SurveyOriginal.Field(formData, "vision_future"),
                         selectedChallenges, SurveyOriginal.Field(formData, "other_challenge"));
      ChallengeMemo(SurveyOriginal.Field(formData, "mission"), SurveyOriginal.Field(formData, "vision_future"),
                    selectedChallenges, SurveyOriginal.Field(formData, "other_challenge"))
    }
  }
}
