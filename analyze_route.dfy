/** The analysis route: it checks the score list, renders the prompt for the
    language model, takes the fenced JSON block out of the model's reply and
    maps every failure to an HTTP response. The model call and `JSON.parse`
    are parameters: the route's logic is what happens around them. */
module AnalyzeRoute {
  import opened Wrappers
  import opened Strings

  /** A request-body field as JavaScript reads it: absent, `null`, or a string. */
  datatype JsText = Undefined | Null | Text(s: string)

  /** `v || fallback`: the text when it is a non-empty string, the fallback otherwise. */
  function OrElse(v: JsText, fallback: string): (r: string)
    ensures v.Text? && v.s != "" ==> r == v.s
    ensures !(v.Text? && v.s != "") ==> r == fallback
    ensures fallback != "" ==> r != ""
  {
    if v.Text? && v.s != "" then v.s else fallback
  }

  /** `${v}` in a template string: no fallback, so absent and `null` print as words. */
  function Interpolate(v: JsText): (r: string)
    ensures v.Text? ==> r == v.s
    ensures v == Undefined ==> r == "undefined"
    ensures v == Null ==> r == "null"
    ensures r == "" <==> v == Text("")
  {
    match v
    case Undefined => "undefined"
    case Null => "null"
    case Text(s) => s
  }

  /** The route's own table of category names, in score order. It is not the
      survey's label table: entries 6, 9, 10, 11 and 12 are worded differently. */
  const CategoryNames: seq<string> := [
    "市場理解", "競合分析", "自社分析", "価値提案", "独自性", "製品・サービス",
    "コミュニケーション", "インナーブランディング", "KPI管理", "成果", "知財保護", "成長意欲"
  ]

  const ScoreCount := 12

  const ScoresRequired: string := "12項目のスコアが必要です"
  const MalformedReply: string := "AIのレスポンス形式が不正です"
  const AnalysisFailed: string := "AI分析に失敗しました"

  /** The score list passes the route's guard: present and exactly 12 long. */
  predicate ScoresAccepted(scores: Option<seq<int>>)
  {
    scores.Some? && |scores.value| == ScoreCount
  }

  // ---------------------------------------------------------------------------
  // Score block
  // ---------------------------------------------------------------------------

  /** One rendered line: `name: score点`. */
  function ScoreLine(name: string, score: int): string
  {
    name + ": " + IntToString(score) + "点"
  }

  /** The line for each score, in score order. */
  function ScoreLines(scores: seq<int>): seq<string>
    requires |scores| == ScoreCount
  {
    seq(|scores|, i requires 0 <= i < |scores| => ScoreLine(CategoryNames[i], scores[i]))
  }

  /** `scoresWithLabels`: the score lines joined by single newlines. */
  function ScoresWithLabels(scores: seq<int>): (r: string)
    requires |scores| == ScoreCount
    ensures StartsWith(r, ScoreLine(CategoryNames[0], scores[0]))
    ensures EndsWith(r, ScoreLine(CategoryNames[ScoreCount - 1], scores[ScoreCount - 1]))
  {
    Join(ScoreLines(scores), "\n")
  }

  /** The score block has one line per score, in input order, and line `i`
      names category `i` with score `i`: cutting it at newlines gives back
      exactly those lines (so there is no trailing newline either). */
  lemma ScoreBlockLines(scores: seq<int>)
    requires |scores| == ScoreCount
    ensures Split(ScoresWithLabels(scores), '\n') == ScoreLines(scores)
    ensures |Split(ScoresWithLabels(scores), '\n')| == ScoreCount
  {
    var lines := ScoreLines(scores);
    CategoryNamesSingleLine();
    forall k | 0 <= k < |lines| ensures '\n' !in lines[k] {
      ScoreLineSingleLine(CategoryNames[k], scores[k]);
    }
    SplitJoin(lines, '\n');
  }

  lemma CategoryNamesSingleLine()
    ensures forall k :: 0 <= k < |CategoryNames| ==> '\n' !in CategoryNames[k]
  {
  }

  /** A score line reads back as its parts: the name and ": ", the score
      written as `String(score)` (a minus sign exactly for a negative score,
      then the digits of its magnitude with no leading zero), and "点". */
  lemma ScoreLineReadsBack(name: string, score: int)
    ensures var line := ScoreLine(name, score);
            && StartsWith(line, name + ": ")
            && EndsWith(line, "点")
            && |line| >= |name| + 4
            && var written := line[|name| + 2..|line| - 1];
               var digits := if score < 0 then written[1..] else written;
               && (written[0] == '-' <==> score < 0)
               && |digits| >= 1
               && (forall k :: 0 <= k < |digits| ==> '0' <= digits[k] <= '9')
               && (|digits| > 1 ==> digits[0] != '0')
               && DecimalValue(digits) == Abs(score)
  {
    var line := ScoreLine(name, score);
    var written := IntToString(score);
    assert line == name + ": " + written + "点";
    assert line[..|name| + 2] == name + ": ";
    assert line[|name| + 2..|line| - 1] == written;
    IntToStringReadsBack(score);
  }

  lemma ScoreLineSingleLine(name: string, score: int)
    requires '\n' !in name
    ensures '\n' !in ScoreLine(name, score)
  {
    var digits := IntToString(score);
    assert ScoreLine(name, score) == name + ": " + digits + "点";
  }

  // ---------------------------------------------------------------------------
  // Average, as `(sum / 12).toFixed(1)`
  // ---------------------------------------------------------------------------

  function Sum(xs: seq<int>): int
  {
    if |xs| == 0 then 0 else Sum(xs[..|xs| - 1]) + xs[|xs| - 1]
  }

  function Abs(x: int): nat
  {
    if x < 0 then -x else x
  }

  /** The number of tenths `toFixed(1)` prints for `|sum| / 12`: the `n` that
      makes `n / 10 - |sum| / 12` closest to zero, the larger one on a tie.
      Scaled by 120, the distance is `12 n - 10 |sum|`. */
  function RoundedTenths(sum: int): (n: nat)
    ensures -6 < 12 * n - 10 * Abs(sum) <= 6
  {
    (5 * Abs(sum) + 3) / 6
  }

  /** No other number of tenths is closer, and on a tie `RoundedTenths` is the larger. */
  lemma RoundedTenthsNearest(sum: int, m: nat)
    ensures Abs(12 * RoundedTenths(sum) - 10 * Abs(sum)) <= Abs(12 * m - 10 * Abs(sum))
    ensures Abs(12 * RoundedTenths(sum) - 10 * Abs(sum)) == Abs(12 * m - 10 * Abs(sum))
            ==> m <= RoundedTenths(sum)
  {
    var n := RoundedTenths(sum);
    if m < n {
      assert 12 * m - 10 * Abs(sum) <= 12 * n - 10 * Abs(sum) - 12;
    } else if m > n {
      assert 12 * m - 10 * Abs(sum) >= 12 * n - 10 * Abs(sum) + 12;
    }
  }

  /** `toFixed(1)` of `sum / 12`: a minus sign for a negative value, the whole
      tenths, a point and one digit. A non-zero integer sum is at least 1/12
      away from zero, so it never prints as "-0.0". */
  function AverageText(sum: int): string
  {
    var n := RoundedTenths(sum);
    (if sum < 0 then "-" else "") + NatToString(n / 10) + "." + [DigitChar(n % 10)]
  }

  /** `n` tenths written as whole tenths (no leading zero), a point and one
      digit read back as `n`. */
  lemma TenthsReadBack(n: nat)
    ensures var u := NatToString(n / 10) + "." + [DigitChar(n % 10)];
            && |u| >= 3 && u[|u| - 2] == '.' && '0' <= u[|u| - 1] <= '9'
            && (forall k :: 0 <= k < |u| - 2 ==> '0' <= u[k] <= '9')
            && (|u| > 3 ==> u[0] != '0')
            && 10 * DecimalValue(u[..|u| - 2]) + (u[|u| - 1] as int - '0' as int) == n
  {
    var digits := NatToString(n / 10);
    var u := digits + "." + [DigitChar(n % 10)];
    assert |digits| == |u| - 2;
    assert u[..|u| - 2] == digits;
    DecimalRoundTrip(n / 10);
  }

  /** Reading the average text back gives its sign and exactly the rounded
      number of tenths; the whole part has no leading zero. */
  lemma AverageTextReadsBack(sum: int)
    ensures var t := AverageText(sum);
            var u := if sum < 0 then t[1..] else t;
            && |t| >= 3 && (t[0] == '-' <==> sum < 0)
            && |u| >= 3 && u[|u| - 2] == '.' && '0' <= u[|u| - 1] <= '9'
            && (forall k :: 0 <= k < |u| - 2 ==> '0' <= u[k] <= '9')
            && (|u| > 3 ==> u[0] != '0')
            && 10 * DecimalValue(u[..|u| - 2]) + (u[|u| - 1] as int - '0' as int) == RoundedTenths(sum)
            && (sum != 0 ==> RoundedTenths(sum) > 0)
  {
    var n := RoundedTenths(sum);
    var t := AverageText(sum);
    var u := NatToString(n / 10) + "." + [DigitChar(n % 10)];
    TenthsReadBack(n);
    if sum < 0 {
      assert t == "-" + u;
      assert t[1..] == u;
    } else {
      assert t == u;
      assert '0' <= u[0] <= '9';
    }
  }

  /** `avgScore` for a checked score list. */
  function AverageScore(scores: seq<int>): string
    requires |scores| == ScoreCount
  {
    AverageText(Sum(scores))
  }

  lemma {:induction false} SumOfConstant(n: nat, c: int)
    ensures Sum(seq(n, _ => c)) == n * c
  {
    if n > 0 {
      assert seq(n, _ => c)[..n - 1] == seq(n - 1, _ => c);
      SumOfConstant(n - 1, c);
    }
  }

  /** Twelve scores of 2 average to "2.0". */
  lemma AllTwosAverage()
    ensures AverageScore(seq(ScoreCount, _ => 2)) == "2.0"
  {
    SumOfConstant(ScoreCount, 2);
    assert NatToString(2) == "2";
  }

  // ---------------------------------------------------------------------------
  // Prompt
  // ---------------------------------------------------------------------------

  const CompanyLabel: string := "会社名: "
  const PhaseLabel: string := "ビジネスフェーズ: "
  const AverageLabel: string := "平均スコア: "
  const PhaseAdviceLabel: string := "10. **事業フェーズ別アドバイス**: "

  /** The opening and closing marks of the fenced block the prompt asks for
      and the reply extractor looks for. */
  const Opener: string := "```json\n"
  const Closer: string := "\n```"

  // The fixed text of the prompt, line by line.
  const Intro: string :=
    "あなたはブランディングの専門家です。以下の企業のブランドチェック診断結果を分析してください。\n" +
    "\n【企業情報】\n"

  const ScoresHeading: string :=
    "\n\n【診断スコア（5点満点）】\n"

  const MemoHeading: string :=
    "\n\n【経営者のメモ（課題・展望）】\n"

  const Instructions: string :=
    "\n\n---\n" +
    "\n以下の項目について、丁寧かつ具体的に分析してください。ですます調を使用し、配慮のある表現を心がけてください：\n" +
    "\n1. **総合評価**: 平均スコアと全体的な状況を4-5文で評価します。メモの内容も十分に考慮し、現状の強みと今後の可能性について触れてください。\n" +
    "\n2. **矛盾検知**: スコア間の矛盾、またはスコアとメモの矛盾を4-6個丁寧に指摘します。\n" +
    "   表現例：「〜は高評価である一方で、〜は低い点が気になります」「〜という認識がある一方で、〜の整理がまだ十分ではないように見受けられます」\n" +
    "\n3. **優先アクション（緊急度順）**: 最も優先度の高いアクションを4-5個提案します。「〜することをお勧めします」「〜に取り組まれることが効果的です」といった丁寧な表現を使ってください。\n" +
    "\n4. **改善が必要な領域**: スコアが3点以下の項目について、改善の余地と具体的な方向性を3-4個提示します。「〜の可能性があります」「〜する余地があります」といった柔らかい表現を使ってください。\n" +
    "\n5. **具体的な改善提案**: 実行可能な具体的アクションを6-8個提案します。「〜されることをお勧めします」「〜に注力されると良いでしょう」といった提案型の表現を使ってください。\n" +
    "\n6. **リスク分析**: 現状のまま進んだ場合に想定されるリスクを4-5個提示します。\n" +
    "   表現例：「〜のリスクが考えられます」「〜の可能性があります」といった配慮ある表現を使ってください。\n" +
    "\n7. **3ヶ月後のアクションプラン**: 今から3ヶ月で取り組むべき具体的なアクションを3-4個提案します。\n" +
    "\n8. **6ヶ月後のアクションプラン**: 3-6ヶ月の期間で取り組むべき具体的なアクションを3-4個提案します。\n" +
    "\n9. **1年後のアクションプラン**: 6ヶ月-1年の期間で取り組むべき具体的なアクションを3-4個提案します。\n" +
    "\n"

  const PhaseAdviceRest: string :=
    "フェーズに特化したアドバイスを3-4文で提供します。このフェーズならではの重要なポイントを、前向きかつ具体的に示してください。\n" +
    "\n重要な注意事項：\n" +
    "- メモの内容を丁寧に読み取り、経営者の想いや課題認識を尊重した分析を行うこと\n" +
    "- 矛盾点を指摘する際も、「〜の可能性があります」「〜と考えられます」といった配慮ある表現を使うこと\n" +
    "- 断定的な表現を避け、「〜することをお勧めします」「〜に取り組まれると良いでしょう」といった提案型の表現を使うこと\n" +
    "- すべての文章をですます調で統一すること\n" +
    "- ポジティブな面も認めながら、建設的な改善提案を行うこと\n" +
    "- 各項目で十分な量の分析を提供すること\n" +
    "\n必ず以下のJSON形式で出力してください：\n"

  const SchemaBody: string :=
    "{\n" +
    "  \"overallComment\": \"総合評価の文章\",\n" +
    "  \"contradictions\": [\"矛盾1\", \"矛盾2\", \"矛盾3\", \"矛盾4\"],\n" +
    "  \"priorityActions\": [\"アクション1\", \"アクション2\", \"アクション3\", \"アクション4\"],\n" +
    "  \"weaknesses\": [\"弱み1\", \"弱み2\", \"弱み3\"],\n" +
    "  \"recommendations\": [\"提案1\", \"提案2\", \"提案3\", \"提案4\", \"提案5\", \"提案6\"],\n" +
    "  \"risks\": [\"リスク1\", \"リスク2\", \"リスク3\", \"リスク4\"],\n" +
    "  \"actionPlan3Months\": [\"3ヶ月後アクション1\", \"3ヶ月後アクション2\", \"3ヶ月後アクション3\"],\n" +
    "  \"actionPlan6Months\": [\"6ヶ月後アクション1\", \"6ヶ月後アクション2\", \"6ヶ月後アクション3\"],\n" +
    "  \"actionPlan1Year\": [\"1年後アクション1\", \"1年後アクション2\", \"1年後アクション3\"],\n" +
    "  \"phaseAdvice\": \"事業フェーズ別アドバイスの文章\"\n" +
    "}"

  /** The example block that closes the prompt: the ten report keys inside a json fence. */
  function SchemaFence(): string
  {
    Opener + SchemaBody + Closer
  }

  /** The company section's two lines, each with the "未入力" placeholder. */
  function IdentityLines(companyName: JsText, businessPhase: JsText): string
  {
    CompanyLabel + OrElse(companyName, "未入力") + "\n" + PhaseLabel + OrElse(businessPhase, "未入力")
  }

  /** The score block followed by the average line. */
  function ScoreSection(scores: seq<int>): string
    requires |scores| == ScoreCount
  {
    ScoresWithLabels(scores) + "\n" + AverageLabel + AverageScore(scores) + "点"
  }

  /** The memo heading and the memo, with the "記載なし" placeholder. */
  function MemoSection(memo: JsText): string
  {
    MemoHeading + OrElse(memo, "記載なし")
  }

  /** Item 10 of the instructions, with the phase interpolated as it is. */
  function PhaseAdvice(businessPhase: JsText): string
  {
    PhaseAdviceLabel + Interpolate(businessPhase) + PhaseAdviceRest
  }

  /** The prompt sent to the model for a checked score list. */
  function Prompt(companyName: JsText, businessPhase: JsText, memo: JsText, scores: seq<int>): string
    requires |scores| == ScoreCount
  {
    Intro + IdentityLines(companyName, businessPhase)
    + ScoresHeading + ScoreSection(scores)
    + MemoSection(memo)
    + Instructions + PhaseAdvice(businessPhase)
    + SchemaFence()
  }

  /** The prompt's sections: company name and phase with the "未入力"
      placeholder, the score block followed by the average line, the memo
      with the "記載なし" placeholder, the phase-advice item with the phase
      interpolated as it is, and the closing schema fence. */
  lemma PromptSections(companyName: JsText, businessPhase: JsText, memo: JsText, scores: seq<int>)
    requires |scores| == ScoreCount
    ensures var p := Prompt(companyName, businessPhase, memo, scores);
            && Contains(p, CompanyLabel + OrElse(companyName, "未入力") + "\n" + PhaseLabel + OrElse(businessPhase, "未入力"))
            && Contains(p, ScoresWithLabels(scores) + "\n" + AverageLabel + AverageScore(scores) + "点")
            && Contains(p, MemoHeading + OrElse(memo, "記載なし"))
            && Contains(p, PhaseAdviceLabel + Interpolate(businessPhase) + PhaseAdviceRest)
            && EndsWith(p, SchemaFence())
  {
    SectionsInOrder(Intro, IdentityLines(companyName, businessPhase), ScoresHeading, ScoreSection(scores),
                    MemoSection(memo), Instructions, PhaseAdvice(businessPhase), SchemaFence());
  }

  /** Where the prompt's sections sit, for any text in its eight pieces. */
  lemma SectionsInOrder(x1: string, x2: string, x3: string, x4: string,
                        x5: string, x6: string, x7: string, x8: string)
    ensures var p := x1 + x2 + x3 + x4 + x5 + x6 + x7 + x8;
            Contains(p, x2) && Contains(p, x4) && Contains(p, x5) && Contains(p, x7) && EndsWith(p, x8)
  {
    var a2 := x1 + x2;
    var a3 := a2 + x3;
    var a4 := a3 + x4;
    var a5 := a4 + x5;
    var a6 := a5 + x6;
    var a7 := a6 + x7;
    ContainsSuffix(x1, x2);
    ContainsPrefix(a2, x3, x2);
    ContainsPrefix(a3, x4, x2);
    ContainsPrefix(a4, x5, x2);
    ContainsPrefix(a5, x6, x2);
    ContainsPrefix(a6, x7, x2);
    ContainsPrefix(a7, x8, x2);
    ContainsSuffix(a3, x4);
    ContainsPrefix(a4, x5, x4);
    ContainsPrefix(a5, x6, x4);
    ContainsPrefix(a6, x7, x4);
    ContainsPrefix(a7, x8, x4);
    ContainsSuffix(a4, x5);
    ContainsPrefix(a5, x6, x5);
    ContainsPrefix(a6, x7, x5);
    ContainsPrefix(a7, x8, x5);
    ContainsSuffix(a6, x7);
    ContainsPrefix(a7, x8, x7);
    assert (a7 + x8)[|a7|..] == x8;
  }

  /** An absent phase reads "未入力" on the phase line of the company section. */
  lemma AbsentPhaseLine(companyName: JsText, memo: JsText, scores: seq<int>)
    requires |scores| == ScoreCount
    ensures Contains(Prompt(companyName, Undefined, memo, scores),
                     CompanyLabel + OrElse(companyName, "未入力") + "\n" + PhaseLabel + "未入力")
  {
    PromptSections(companyName, Undefined, memo, scores);
    assert OrElse(Undefined, "未入力") == "未入力";
  }

  /** The phase-advice item has no placeholder: an absent phase is written
      there as "undefined". */
  lemma AbsentPhaseAdvice(companyName: JsText, memo: JsText, scores: seq<int>)
    requires |scores| == ScoreCount
    ensures Contains(Prompt(companyName, Undefined, memo, scores), PhaseAdviceLabel + "undefined" + PhaseAdviceRest)
  {
    PromptSections(companyName, Undefined, memo, scores);
    assert Interpolate(Undefined) == "undefined";
  }

  // ---------------------------------------------------------------------------
  // Reply extraction: /```json\n([\s\S]*?)\n```/
  // ---------------------------------------------------------------------------

  /** `s.indexOf(t, from)`: the first index at or after `from` where `t` occurs. */
  function IndexFrom(s: string, t: string, from: nat): (r: Option<nat>)
    ensures r.Some? ==> from <= r.value && OccursAt(s, t, r.value)
    ensures r.Some? ==> forall k :: from <= k < r.value ==> !OccursAt(s, t, k)
    ensures r.None? ==> forall k :: from <= k ==> !OccursAt(s, t, k)
    decreases |s| - from
  {
    if from + |t| > |s| then None
    else if OccursAt(s, t, from) then Some(from)
    else IndexFrom(s, t, from + 1)
  }

  /** A match of the regular expression: an opener at `i` and a closer at
      `j`, the closer starting no earlier than where the opener ends. */
  predicate FenceAt(s: string, i: int, j: int)
  {
    OccursAt(s, Opener, i) && i + |Opener| <= j && OccursAt(s, Closer, j)
  }

  /** The span the lazy regular expression matches: the leftmost start that
      has a closer, and for it the nearest closer. */
  function FirstFence(reply: string): (r: Option<(nat, nat)>)
    ensures r.None? ==> forall i, j :: !FenceAt(reply, i, j)
    ensures r.Some? ==> FenceAt(reply, r.value.0, r.value.1)
    ensures r.Some? ==> forall i, j :: FenceAt(reply, i, j) ==>
              r.value.0 < i || (r.value.0 == i && r.value.1 <= j)
  {
    match IndexFrom(reply, Opener, 0)
    case None => None
    case Some(i) =>
      match IndexFrom(reply, Closer, i + |Opener|)
      case None => None
      case Some(j) => Some((i, j))
  }

  /** `jsonMatch[1]`: the text between the first fence's marks, if any.
      It succeeds exactly when some opener is followed by a closer. */
  function ExtractFenced(reply: string): (r: Option<string>)
    ensures r.Some? <==> exists i, j :: FenceAt(reply, i, j)
    ensures r.Some? ==> exists i, j :: FenceAt(reply, i, j) && r.value == reply[i + |Opener|..j]
  {
    match FirstFence(reply)
    case None => None
    case Some((i, j)) => Some(reply[i + |Opener|..j])
  }

  /** The extracted text is the shortest possible: it never contains a closer. */
  lemma ExtractedHasNoCloser(reply: string)
    requires ExtractFenced(reply).Some?
    ensures !Contains(ExtractFenced(reply).value, Closer)
  {
    var (i, j) := FirstFence(reply).value;
    NoEarlierCloser(reply, i, j);
  }

  /** A fence with no nearer closer for its opener has no closer inside. */
  lemma NoEarlierCloser(reply: string, i: nat, j: nat)
    requires FenceAt(reply, i, j)
    requires forall j' :: FenceAt(reply, i, j') ==> j <= j'
    ensures !Contains(reply[i + |Opener|..j], Closer)
  {
    var m := i + |Opener|;
    var p := reply[m..j];
    forall k | 0 <= k && k + |Closer| <= |p| ensures !OccursAt(p, Closer, k) {
      assert !FenceAt(reply, i, m + k);
      var here, there := reply[m + k..m + k + |Closer|], p[k..k + |Closer|];
      forall r | 0 <= r < |Closer| ensures here[r] == there[r] {
        assert reply[m + k + r] == p[k + r];
      }
      assert here == there;
    }
  }

  /** A closer-free payload followed by a newline holds no closer start. */
  lemma NoCloserInside(s: string, m: nat, payload: string)
    requires m + |payload| < |s|
    requires s[m..m + |payload|] == payload
    requires s[m + |payload|] == '\n'
    requires !Contains(payload, Closer)
    ensures forall k :: m <= k < m + |payload| ==> !OccursAt(s, Closer, k)
  {
    var w := s[m..m + |payload|];
    forall k | m <= k < m + |payload| ensures !OccursAt(s, Closer, k) {
      var q := k - m;
      if q + |Closer| <= |payload| {
        assert !OccursAt(payload, Closer, q);
        var here, there := s[k..k + |Closer|], w[q..q + |Closer|];
        forall r | 0 <= r < |Closer| ensures here[r] == there[r] {
          assert s[k + r] == w[q + r];
        }
        assert here == there;
      } else if k + |Closer| <= |s| {
        assert s[k..k + |Closer|][m + |payload| - k] == '\n';
      }
    }
  }

  /** Where the pieces of a fenced reply sit: the opener right after the
      leading text, the payload next, then the closer. */
  lemma FencedLayout(before: string, payload: string, after: string)
    ensures var s := before + Opener + payload + Closer + after;
            var i0, j0 := |before|, |before| + |Opener| + |payload|;
            && FenceAt(s, i0, j0)
            && s[i0 + |Opener|..j0] == payload
            && forall k :: 0 <= k < i0 ==> s[k] == before[k]
  {
    var s1 := before + Opener;
    var s2 := s1 + payload;
    var s3 := s2 + Closer;
    var s := s3 + after;
    var i0, j0 := |before|, |s2|;
    assert s[..|s3|] == s3 && s3[..|s2|] == s2 && s2[..|s1|] == s1;
    assert s[i0..i0 + |Opener|] == s1[i0..] == Opener;
    assert s[i0 + |Opener|..j0] == s2[|s1|..] == payload;
    assert s[j0..j0 + |Closer|] == s3[j0..] == Closer;
    assert forall k :: 0 <= k < i0 ==> s[k] == s1[k] == before[k];
  }

  /** A fence whose opener has no backquote before it and whose body holds
      no closer is the one the regular expression matches. */
  lemma FirstFenceAt(s: string, i0: nat, j0: nat)
    requires FenceAt(s, i0, j0)
    requires forall k :: 0 <= k < i0 ==> s[k] != '`'
    requires !Contains(s[i0 + |Opener|..j0], Closer)
    ensures FirstFence(s) == Some((i0, j0))
  {
    var (i, j) := FirstFence(s).value;
    assert s[i] == s[i..i + |Opener|][0] == '`';
    assert i == i0;
    assert s[j0] == s[j0..j0 + |Closer|][0] == '\n';
    NoCloserInside(s, i0 + |Opener|, s[i0 + |Opener|..j0]);
  }

  /** Round trip: wrapping a closer-free payload in the fence, after text
      with no backquote, and before anything at all, extracts the payload. */
  lemma ExtractFencedRoundTrip(before: string, payload: string, after: string)
    requires '`' !in before
    requires !Contains(payload, Closer)
    ensures ExtractFenced(before + Opener + payload + Closer + after) == Some(payload)
  {
    var s := before + Opener + payload + Closer + after;
    FencedLayout(before, payload, after);
    FirstFenceAt(s, |before|, |before| + |Opener| + |payload|);
  }

  // ---------------------------------------------------------------------------
  // The handler
  // ---------------------------------------------------------------------------

  /** The fields of the request body the route destructures. */
  datatype AnalyzeRequest = AnalyzeRequest(
    scores: Option<seq<int>>, memo: JsText, businessPhase: JsText, companyName: JsText)

  /** The first content block of the model's message. */
  datatype ContentBlock = TextBlock(text: string) | OtherBlock

  datatype Payload<J> = Analysis(report: J) | ErrorOnly(error: string) | ErrorWithDetails(error: string, details: string)

  datatype Response<J> = Response(status: nat, payload: Payload<J>)

  /** The `try` block: the response it returns, or the message of the error
      it throws. `body` is the parsed request body or the parse error;
      `callModel` maps a prompt to the model's first content block or an
      error; `parseJson` is `JSON.parse`. */
  function Attempt<J>(body: Result<AnalyzeRequest, string>,
                      callModel: string -> Result<ContentBlock, string>,
                      parseJson: string -> Result<J, string>): Result<Response<J>, string>
  {
    match body
    case Err(e) => Err(e)
    case Ok(req) =>
      if !ScoresAccepted(req.scores) then Ok(Response(400, ErrorOnly(ScoresRequired)))
      else
        match callModel(Prompt(req.companyName, req.businessPhase, req.memo, req.scores.value))
        case Err(e) => Err(e)
        case Ok(block) =>
          var text := if block.TextBlock? then block.text else "";
          match ExtractFenced(text)
          case None => Err(MalformedReply)
          case Some(json) =>
            match parseJson(json)
            case Err(e) => Err(e)
            case Ok(report) => Ok(Response(200, Analysis(report)))
  }

  /** `POST`: every thrown error becomes a 500 carrying its message. */
  function Post<J>(body: Result<AnalyzeRequest, string>,
                   callModel: string -> Result<ContentBlock, string>,
                   parseJson: string -> Result<J, string>): (r: Response<J>)
    ensures r.status == 200 || r.status == 400 || r.status == 500
    ensures r.status == 400 <==> body.Ok? && !ScoresAccepted(body.value.scores)
    ensures r.status == 400 ==> r.payload == ErrorOnly(ScoresRequired)
    ensures r.status == 500 ==> r.payload.ErrorWithDetails? && r.payload.error == AnalysisFailed
    ensures r.status == 500 ==> Attempt(body, callModel, parseJson) == Err(r.payload.details)
    ensures r.status == 200 <==> r.payload.Analysis?
  {
    match Attempt(body, callModel, parseJson)
    case Ok(response) => response
    case Err(message) => Response(500, ErrorWithDetails(AnalysisFailed, message))
  }

  /** A rejected score list is answered before the model is called: the
      response does not depend on the model or on the JSON parser. */
  lemma RejectionCallsNothing<J>(req: AnalyzeRequest,
                                 model1: string -> Result<ContentBlock, string>,
                                 model2: string -> Result<ContentBlock, string>,
                                 parse1: string -> Result<J, string>,
                                 parse2: string -> Result<J, string>)
    requires !ScoresAccepted(req.scores)
    ensures Post(Ok(req), model1, parse1) == Post(Ok(req), model2, parse2)
                                         == Response(400, ErrorOnly(ScoresRequired))
  {
  }

  /** A reply with no fenced block fails the request with status 500 and
      "AIのレスポンス形式が不正です" as the details, whatever the parser would do. */
  lemma MissingFenceFails<J>(req: AnalyzeRequest,
                             callModel: string -> Result<ContentBlock, string>,
                             parseJson: string -> Result<J, string>)
    requires ScoresAccepted(req.scores)
    requires var reply := callModel(Prompt(req.companyName, req.businessPhase, req.memo, req.scores.value));
             reply.Ok? && (reply.value.OtherBlock? || ExtractFenced(reply.value.text).None?)
    ensures Post(Ok(req), callModel, parseJson) == Response(500, ErrorWithDetails(AnalysisFailed, MalformedReply))
  {
  }

  /** A 200 response carries exactly what `JSON.parse` made of the fenced
      block of the model's reply to this request's prompt. */
  lemma SuccessComesFromFence<J>(req: AnalyzeRequest,
                                 callModel: string -> Result<ContentBlock, string>,
                                 parseJson: string -> Result<J, string>)
    ensures Post(Ok(req), callModel, parseJson).status == 200 ==>
              && ScoresAccepted(req.scores)
              && var reply := callModel(Prompt(req.companyName, req.businessPhase, req.memo, req.scores.value));
                 && reply.Ok? && reply.value.TextBlock?
                 && ExtractFenced(reply.value.text).Some?
                 && parseJson(ExtractFenced(reply.value.text).value)
                    == Ok(Post(Ok(req), callModel, parseJson).payload.report)
  {
  }

  /** The converse of `SuccessComesFromFence`: a reply whose fenced block
      parses gives 200 with exactly that analysis. */
  lemma FencedReplySucceeds<J>(req: AnalyzeRequest,
                               callModel: string -> Result<ContentBlock, string>,
                               parseJson: string -> Result<J, string>,
                               text: string, json: string, report: J)
    ensures ScoresAccepted(req.scores)
            && callModel(Prompt(req.companyName, req.businessPhase, req.memo, req.scores.value)) == Ok(TextBlock(text))
            && ExtractFenced(text) == Some(json)
            && parseJson(json) == Ok(report)
            ==> Post(Ok(req), callModel, parseJson) == Response(200, Analysis(report))
  {
  }

  /** Every thrown error becomes a 500 with "AI分析に失敗しました" and the
      error's own message as details: an unreadable body, a failed model
      call, and a fenced block `JSON.parse` rejects. */
  lemma ErrorsBecomeDetails<J>(body: Result<AnalyzeRequest, string>,
                               callModel: string -> Result<ContentBlock, string>,
                               parseJson: string -> Result<J, string>)
    ensures body.Err? ==>
              Post(body, callModel, parseJson) == Response(500, ErrorWithDetails(AnalysisFailed, body.error))
    ensures body.Ok? && ScoresAccepted(body.value.scores) ==>
              var req := body.value;
              var reply := callModel(Prompt(req.companyName, req.businessPhase, req.memo, req.scores.value));
              && (reply.Err? ==>
                    Post(body, callModel, parseJson) == Response(500, ErrorWithDetails(AnalysisFailed, reply.error)))
              && (reply.Ok? && reply.value.TextBlock? && ExtractFenced(reply.value.text).Some?
                  && parseJson(ExtractFenced(reply.value.text).value).Err? ==>
                    Post(body, callModel, parseJson)
                    == Response(500, ErrorWithDetails(AnalysisFailed, parseJson(ExtractFenced(reply.value.text).value).error)))
  {
  }
}
