/** The survey page: a form whose state is a map of text fields, a map of
    twelve scores and a privacy flag. Its handlers update one piece of that
    state; `validateForm` is an ordered chain of checks; on submit the twelve
    scores are sent to the analysis route in question order. The updated
    page shares the question table, the validator and the score array. */
module SurveyOriginal {
  import opened Wrappers
  import AnalyzeRoute
  import opened Strings

  /** The question ids, in display order and in the order they are submitted. */
  const QuestionIds: seq<string> := [
    "q1_market_understanding", "q2_competitive_analysis", "q3_self_analysis",
    "q4_value_proposition", "q5_uniqueness", "q6_product_service",
    "q7_communication", "q8_inner_branding", "q9_kpi_management",
    "q10_results", "q11_ip_protection", "q12_growth_intent"
  ]

  /** The labels the survey shows for the questions. */
  const QuestionLabels: seq<string> := [
    "市場理解", "競合分析", "自社分析", "価値提案", "独自性", "商品・サービス",
    "コミュニケーション", "インナーブランディング", "KPI運用", "成果実感", "知的保護", "今後の方向性"
  ]

  /** The values the score buttons offer. */
  const ScoreButtons: seq<int> := [1, 2, 3, 4, 5]


  const IdentityRequired: string := "企業名、回答者名、メールアドレスは必須です。"
  const PhaseRequired: string := "事業フェーズを選択してください。"
  const AnswersRequired: string := "すべての質問に回答してください。"
  const PrivacyRequired: string := "個人情報保護方針に同意してください。"

  /** The outcome of `validateForm`: pass, or the alert it shows. */
  datatype Check = Passed | Rejected(message: string)

  /** The survey labels are not the route's category names. */
  lemma LabelsDifferFromCategoryNames()
    ensures |QuestionLabels| == |AnalyzeRoute.CategoryNames| == |QuestionIds|
    ensures QuestionLabels[5] == "商品・サービス" && AnalyzeRoute.CategoryNames[5] == "製品・サービス"
    ensures QuestionLabels[8] == "KPI運用" && AnalyzeRoute.CategoryNames[8] == "KPI管理"
    ensures QuestionLabels != AnalyzeRoute.CategoryNames
  {
    assert QuestionLabels[5] != AnalyzeRoute.CategoryNames[5];
  }

  /** The form's initial text fields, all empty. */
  function InitialFormData(): map<string, string>
  {
    map["company_name" := "", "respondent_name" := "", "respondent_email" := "",
        "industry" := "", "business_phase" := "", "revenue_scale" := "", "memo" := ""]
  }

  /** The form's initial scores, written out key by key as both pages do:
      exactly the question ids, each at 0. */
  function InitialScores(): (r: map<string, int>)
    ensures forall q :: q in r <==> q in QuestionIds
    ensures forall q :: q in r ==> r[q] == 0
  {
    map["q1_market_understanding" := 0, "q2_competitive_analysis" := 0, "q3_self_analysis" := 0,
        "q4_value_proposition" := 0, "q5_uniqueness" := 0, "q6_product_service" := 0,
        "q7_communication" := 0, "q8_inner_branding" := 0, "q9_kpi_management" := 0,
        "q10_results" := 0, "q11_ip_protection" := 0, "q12_growth_intent" := 0]
  }

  /** `formData.name`: a field never set reads as empty. */
  function Field(formData: map<string, string>, name: string): string
  {
    if name in formData then formData[name] else ""
  }

  predicate IdentityGiven(formData: map<string, string>)
  {
    Field(formData, "company_name") != ""
    && Field(formData, "respondent_name") != ""
    && Field(formData, "respondent_email") != ""
  }

  predicate PhaseChosen(formData: map<string, string>)
  {
    Field(formData, "business_phase") != ""
  }

  /** `Object.values(scores).every(score => score > 0)`. */
  predicate AllAnswered(scores: map<string, int>)
  {
    forall q :: q in scores ==> scores[q] > 0
  }

  /** Every question has a score. */
  predicate HasAllQuestions(scores: map<string, int>)
  {
    forall i :: 0 <= i < |QuestionIds| ==> QuestionIds[i] in scores
  }

  /** Every score is one the form can hold: 0 before an answer, 1..5 after. */
  predicate ScoresInRange(scores: map<string, int>)
  {
    forall q :: q in scores ==> 0 <= scores[q] <= 5
  }

  /** `validateForm`: the identity fields, then the phase, then the scores,
      then the privacy agreement; the first check that fails decides the
      alert, and the form passes exactly when all four hold. */
  function ValidateForm(formData: map<string, string>, scores: map<string, int>, agreedToPrivacy: bool): (r: Check)
    ensures r == Passed <==>
              IdentityGiven(formData) && PhaseChosen(formData) && AllAnswered(scores) && agreedToPrivacy
    ensures r == Rejected(IdentityRequired) <==> !IdentityGiven(formData)
    ensures r == Rejected(PhaseRequired) <==> IdentityGiven(formData) && !PhaseChosen(formData)
    ensures r == Rejected(AnswersRequired) <==>
              IdentityGiven(formData) && PhaseChosen(formData) && !AllAnswered(scores)
    ensures r == Rejected(PrivacyRequired) <==>
              IdentityGiven(formData) && PhaseChosen(formData) && AllAnswered(scores) && !agreedToPrivacy
  {
    if !IdentityGiven(formData) then Rejected(IdentityRequired)
    else if !PhaseChosen(formData) then Rejected(PhaseRequired)
    else if !AllAnswered(scores) then Rejected(AnswersRequired)
    else if !agreedToPrivacy then Rejected(PrivacyRequired)
    else Passed
  }

  /** With the initial all-zero scores the form never passes, and once the
      identity fields and phase are filled it stops at the score check. */
  lemma InitialScoresFailValidation(formData: map<string, string>, agreedToPrivacy: bool)
    ensures ValidateForm(formData, InitialScores(), agreedToPrivacy) != Passed
    ensures IdentityGiven(formData) && PhaseChosen(formData) ==>
              ValidateForm(formData, InitialScores(), agreedToPrivacy) == Rejected(AnswersRequired)
  {
    assert QuestionIds[0] in InitialScores();
  }

  /** The scores after a series of `handleScoreChange(questionId, score)` calls. */
  function ApplyScores(scores: map<string, int>, clicks: seq<(string, int)>): map<string, int>
  {
    if |clicks| == 0 then scores
    else
      var last := clicks[|clicks| - 1];
      ApplyScores(scores, clicks[..|clicks| - 1])[last.0 := last.1]
  }

  /** Clicks the page can make: a question's button, offering 1..5. */
  predicate ButtonClicks(clicks: seq<(string, int)>)
  {
    forall k :: 0 <= k < |clicks| ==> clicks[k].0 in QuestionIds && clicks[k].1 in ScoreButtons
  }

  predicate Clicked(clicks: seq<(string, int)>, q: string)
  {
    exists k :: 0 <= k < |clicks| && clicks[k].0 == q
  }

  /** The scores have exactly the twelve questions as keys, every score is
      in 0..5, and a score is positive exactly when its question was clicked. */
  ghost predicate ReflectsClicks(scores: map<string, int>, clicks: seq<(string, int)>)
  {
    && (forall q :: q in scores <==> q in QuestionIds)
    && ScoresInRange(scores)
    && (forall q :: q in scores ==> (scores[q] > 0 <==> Clicked(clicks, q)))
  }

  /** One more button click keeps the scores reflecting the clicks. */
  lemma ClickStep(scores: map<string, int>, front: seq<(string, int)>, click: (string, int))
    requires ReflectsClicks(scores, front)
    requires click.0 in QuestionIds && 1 <= click.1 <= 5
    ensures ReflectsClicks(scores[click.0 := click.1], front + [click])
  {
    var clicks := front + [click];
    forall q ensures Clicked(clicks, q) <==> Clicked(front, q) || click.0 == q {
      if Clicked(front, q) {
        var k :| 0 <= k < |front| && front[k].0 == q;
        assert clicks[k].0 == q;
      }
      if Clicked(clicks, q) && click.0 != q {
        var k :| 0 <= k < |clicks| && clicks[k].0 == q;
        assert front[k].0 == q;
      }
      if click.0 == q {
        assert clicks[|front|].0 == q;
      }
    }
  }

  /** Starting from the initial scores, button clicks keep exactly the twelve
      questions as keys, keep every score in 0..5, and a question's score is
      positive exactly when one of its buttons was clicked. */
  lemma {:induction false} ClicksFromInitial(clicks: seq<(string, int)>)
    requires ButtonClicks(clicks)
    ensures ReflectsClicks(ApplyScores(InitialScores(), clicks), clicks)
  {
    if |clicks| > 0 {
      var front, last := clicks[..|clicks| - 1], clicks[|clicks| - 1];
      assert ButtonClicks(front) by {
        forall k | 0 <= k < |front| ensures front[k].0 in QuestionIds && front[k].1 in ScoreButtons {
          assert front[k] == clicks[k];
        }
      }
      ClicksFromInitial(front);
      assert last.1 in ScoreButtons;
      ClickStep(ApplyScores(InitialScores(), front), front, last);
      assert front + [last] == clicks;
    }
  }

  /** The page's validator passes the score check exactly when every
      question has been answered with one of the buttons. */
  lemma AnsweredIffEveryQuestionClicked(clicks: seq<(string, int)>)
    requires ButtonClicks(clicks)
    ensures AllAnswered(ApplyScores(InitialScores(), clicks))
            <==> forall i :: 0 <= i < |QuestionIds| ==> Clicked(clicks, QuestionIds[i])
  {
    ClicksFromInitial(clicks);
  }

  /** `scores: [data.q1_market_understanding, …, data.q12_growth_intent]`,
      written out key by key: the twelve scores in the order of `QuestionIds`. */
  function ScoreArray(scores: map<string, int>): (r: seq<int>)
    requires HasAllQuestions(scores)
    ensures |r| == |QuestionIds|
    ensures forall i :: 0 <= i < |r| ==> r[i] == scores[QuestionIds[i]]
  {
    assert QuestionIds[0] in scores && QuestionIds[1] in scores && QuestionIds[2] in scores;
    assert QuestionIds[3] in scores && QuestionIds[4] in scores && QuestionIds[5] in scores;
    assert QuestionIds[6] in scores && QuestionIds[7] in scores && QuestionIds[8] in scores;
    assert QuestionIds[9] in scores && QuestionIds[10] in scores && QuestionIds[11] in scores;
    [scores["q1_market_understanding"], scores["q2_competitive_analysis"], scores["q3_self_analysis"],
     scores["q4_value_proposition"], scores["q5_uniqueness"], scores["q6_product_service"],
     scores["q7_communication"], scores["q8_inner_branding"], scores["q9_kpi_management"],
     scores["q10_results"], scores["q11_ip_protection"], scores["q12_growth_intent"]]
  }

  /** The submitted array always passes the route's length check, and for a
      form that passed validation with scores from the buttons every entry is in 1..5. */
  lemma ScoreArrayFitsRoute(formData: map<string, string>, scores: map<string, int>, agreedToPrivacy: bool)
    requires HasAllQuestions(scores)
    ensures AnalyzeRoute.ScoresAccepted(Some(ScoreArray(scores)))
    ensures ValidateForm(formData, scores, agreedToPrivacy) == Passed && ScoresInRange(scores) ==>
              forall i :: 0 <= i < |QuestionIds| ==> 1 <= ScoreArray(scores)[i] <= 5
  {
  }

  /** The request body this page sends to the analysis route. */
  function AnalysisRequest(formData: map<string, string>, scores: map<string, int>): (r: AnalyzeRoute.AnalyzeRequest)
    requires HasAllQuestions(scores)
    ensures AnalyzeRoute.ScoresAccepted(r.scores)
    ensures forall i :: 0 <= i < |QuestionIds| ==> r.scores.value[i] == scores[QuestionIds[i]]
  {
    AnalyzeRoute.AnalyzeRequest(
      Some(ScoreArray(scores)),
      AnalyzeRoute.Text(Field(formData, "memo")),
      AnalyzeRoute.Text(Field(formData, "business_phase")),
      AnalyzeRoute.Text(Field(formData, "company_name")))
  }

  /** A validated form is never refused by the route, and its prompt names
      the real company and phase instead of the "未入力" placeholder. */
  lemma ValidatedFormReachesModel<J>(formData: map<string, string>, scores: map<string, int>, agreedToPrivacy: bool,
                                     callModel: string -> Result<AnalyzeRoute.ContentBlock, string>,
                                     parseJson: string -> Result<J, string>)
    requires HasAllQuestions(scores)
    requires ValidateForm(formData, scores, agreedToPrivacy) == Passed
    ensures AnalyzeRoute.Post(Ok(AnalysisRequest(formData, scores)), callModel, parseJson).status != 400
    ensures var req := AnalysisRequest(formData, scores);
            Contains(
              AnalyzeRoute.Prompt(req.companyName, req.businessPhase, req.memo, ScoreArray(scores)),
              AnalyzeRoute.CompanyLabel + Field(formData, "company_name") + "\n"
              + AnalyzeRoute.PhaseLabel + Field(formData, "business_phase"))
  {
    var req := AnalysisRequest(formData, scores);
    AnalyzeRoute.PromptSections(req.companyName, req.businessPhase, req.memo, ScoreArray(scores));
  }

  /** The page's form state. */
  class SurveyForm {
    var formData: map<string, string>
    var scores: map<string, int>
    var agreedToPrivacy: bool

    /** Every question keeps a score. */
    ghost predicate Valid()
      reads this
    {
      HasAllQuestions(scores)
    }

    constructor ()
      ensures Valid()
      ensures formData == InitialFormData()
      ensures scores == InitialScores()
      ensures !agreedToPrivacy
    {
      formData := InitialFormData();
      scores := InitialScores();
      agreedToPrivacy := false;
    }

    /** `handleInputChange`: the field the event names takes the event's
        value; every other field, and the rest of the state, is unchanged. */
    method HandleInputChange(name: string, value: string)
      requires Valid()
      modifies this
      ensures Valid()
      ensures formData == old(formData)[name := value]
      ensures forall f :: f in old(formData) && f != name ==> f in formData && formData[f] == old(formData)[f]
      ensures scores == old(scores) && agreedToPrivacy == old(agreedToPrivacy)
    {
      formData := formData[name := value];
    }

    /** `handleScoreChange`: only the question's score changes; a button
        value keeps every score in 0..5. */
    method HandleScoreChange(questionId: string, score: int)
      requires Valid()
      modifies this
      ensures Valid()
      ensures scores == old(scores)[questionId := score]
      ensures forall q :: q in old(scores) && q != questionId ==> q in scores && scores[q] == old(scores)[q]
      ensures formData == old(formData) && agreedToPrivacy == old(agreedToPrivacy)
      ensures ScoresInRange(old(scores)) && score in ScoreButtons ==> ScoresInRange(scores)
    {
      scores := scores[questionId := score];
    }

    /** The privacy checkbox. */
    method SetAgreedToPrivacy(checked: bool)
      requires Valid()
      modifies this
      ensures Valid()
      ensures agreedToPrivacy == checked
      ensures formData == old(formData) && scores == old(scores)
    {
      agreedToPrivacy := checked;
    }

    /** `validateForm` on the current state; passing means every question has a score of at least 1. */
    function Validate(): (r: Check)
      reads this
      requires Valid()
      ensures r == ValidateForm(formData, scores, agreedToPrivacy)
      ensures r == Passed ==> forall i :: 0 <= i < |QuestionIds| ==> scores[QuestionIds[i]] >= 1
    {
      ValidateForm(formData, scores, agreedToPrivacy)
    }
  }
}
