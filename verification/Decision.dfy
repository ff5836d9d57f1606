/** From the raw loan case through the three specialists to the synthesised decision. */
module Decision {
  import opened Common
  import opened Text
  import RiskBand

  datatype Specialist = Credit | Compliance | Operations

  const SPECIALISTS := [Credit, Compliance, Operations]

  lemma {:induction false} SpecialistListed(s: Specialist)
    ensures s in SPECIALISTS
  {
    match s
    case Credit => assert SPECIALISTS[0] == s;
    case Compliance => assert SPECIALISTS[1] == s;
    case Operations => assert SPECIALISTS[2] == s;
  }

  datatype FindingCode =
    | CreditRiskLow | CreditRiskMedium | CreditRiskHigh
    | ComplianceHardStop | ComplianceReview | ComplianceClear
    | OperationsComplete | OperationsMissingDocuments

  datatype ResultStatus = ResultPending | ResultRunning | ResultCompleted | ResultFailed | ResultSkipped

  datatype AgentResult = AgentResult(status: ResultStatus, confidence: real, findings: seq<FindingCode>)

  datatype DecisionStatus = Recommend | NeedsReview | Blocked

  datatype Condition = SupplyDocuments | OwnerReview | CreditReview | RerunSpecialists | RunMultiAgent

  datatype Conflict = LowRiskButHardStop | LowRiskButMissingDocuments

  datatype Action = Action(title: string, description: string)

  datatype FinalDecision = FinalDecision(
    status: DecisionStatus, conditions: seq<Condition>, conflicts: seq<Conflict>,
    confidence: real, requiresHumanApproval: bool, proposedAction: Option<Action>)

  const PARTIAL_ACTION := Action("Rà soát workflow có kết quả một phần",
    "Xác minh dữ liệu và specialist failure trước khi ra quyết định.")
  const REVIEW_ACTION := Action("Rà soát hồ sơ vay doanh nghiệp",
    "Xử lý các điều kiện được tổng hợp từ ba specialist agent.")
  const RECOMMEND_ACTION := Action("Phê duyệt đề xuất tín dụng có kiểm soát",
    "Approver xác minh kết quả demo trước khi tạo action ticket.")
  const BASELINE_ACTION := Action("Rà soát baseline single-agent",
    "Chạy multi-agent workflow trước khi cân nhắc action ticket.")

  // ---- The synthesizer ----

  type Results = map<Specialist, AgentResult>

  predicate Found(results: Results, who: Specialist, code: FindingCode) {
    who in results && code in results[who].findings
  }

  predicate SomeFailed(results: Results) {
    exists s :: s in results && results[s].status == ResultFailed
  }

  predicate SomeMissing(results: Results) {
    exists s :: s in SPECIALISTS && s !in results
  }

  function Least(a: real, b: real): real {
    if a <= b then a else b
  }

  /** The confidence of a specialist that completed. */
  function ConfidenceOf(results: Results, s: Specialist): seq<real> {
    if s in results && results[s].status == ResultCompleted then [results[s].confidence] else []
  }

  /** The confidences of the completed specialists, in a fixed order. */
  function Confidences(results: Results): seq<real> {
    ConfidenceOf(results, Credit) + ConfidenceOf(results, Compliance) + ConfidenceOf(results, Operations)
  }

  function Minimum(xs: seq<real>): real {
    if xs == [] then 0.0 else if |xs| == 1 then xs[0] else Least(xs[0], Minimum(xs[1..]))
  }

  function RawConfidence(results: Results): real {
    var base := Minimum(Confidences(results));
    if SomeFailed(results) || SomeMissing(results) then Least(base, 0.5) * 0.7 else base
  }

  /** Four decimal places, ties to the even neighbour. */
  function Round4(x: real): real {
    var f := (x * 10000.0).Floor;
    var rest := x * 10000.0 - f as real;
    (if rest < 0.5 || (rest == 0.5 && f % 2 == 0) then f else f + 1) as real / 10000.0
  }

  function ConditionsOf(results: Results): seq<Condition> {
    (if Found(results, Operations, OperationsMissingDocuments) then [SupplyDocuments] else [])
    + (if Found(results, Compliance, ComplianceReview) then [OwnerReview] else [])
    + (if Found(results, Credit, CreditRiskMedium) || Found(results, Credit, CreditRiskHigh)
       then [CreditReview] else [])
  }

  /** The decision, stated by cases; the method below builds it the way the service does. */
  function Decide(results: Results): FinalDecision {
    var hardStop := Found(results, Compliance, ComplianceHardStop);
    var incomplete := SomeFailed(results) || SomeMissing(results);
    var open := ConditionsOf(results);
    FinalDecision(
      if hardStop then Blocked else if incomplete || open != [] then NeedsReview else Recommend,
      open + (if !hardStop && incomplete then [RerunSpecialists] else []),
      (if hardStop && Found(results, Credit, CreditRiskLow) then [LowRiskButHardStop] else [])
      + (if Found(results, Operations, OperationsMissingDocuments) && Found(results, Credit, CreditRiskLow)
         then [LowRiskButMissingDocuments] else []),
      Round4(RawConfidence(results)),
      true,
      if hardStop then None
      else if incomplete then Some(PARTIAL_ACTION)
      else if open != [] then Some(REVIEW_ACTION)
      else Some(RECOMMEND_ACTION))
  }

  method ListConflicts(results: Results) returns (conflicts: seq<Conflict>)
    ensures conflicts == Decide(results).conflicts
  {
    conflicts := [];
    if Found(results, Compliance, ComplianceHardStop) && Found(results, Credit, CreditRiskLow) {
      conflicts := conflicts + [LowRiskButHardStop];
    }
    if Found(results, Operations, OperationsMissingDocuments) && Found(results, Credit, CreditRiskLow) {
      conflicts := conflicts + [LowRiskButMissingDocuments];
    }
  }

  method ListConditions(results: Results) returns (conditions: seq<Condition>)
    ensures conditions == ConditionsOf(results)
  {
    conditions := [];
    if Found(results, Operations, OperationsMissingDocuments) { conditions := conditions + [SupplyDocuments]; }
    if Found(results, Compliance, ComplianceReview) { conditions := conditions + [OwnerReview]; }
    if Found(results, Credit, CreditRiskMedium) || Found(results, Credit, CreditRiskHigh) {
      conditions := conditions + [CreditReview];
    }
  }

  method Synthesize(results: Results) returns (d: FinalDecision)
    ensures d == Decide(results)
  {
    var conflicts := ListConflicts(results);
    var conditions := ListConditions(results);
    var status, action;
    if Found(results, Compliance, ComplianceHardStop) {
      status, action := Blocked, None;
    } else if SomeFailed(results) || SomeMissing(results) {
      status := NeedsReview;
      conditions := conditions + [RerunSpecialists];
      action := Some(PARTIAL_ACTION);
    } else if conditions != [] {
      status, action := NeedsReview, Some(REVIEW_ACTION);
    } else {
      status, action := Recommend, Some(RECOMMEND_ACTION);
    }
    var base := Minimum(Confidences(results));
    if SomeFailed(results) || SomeMissing(results) {
      base := Least(base, 0.5) * 0.7;
    }
    d := FinalDecision(status, conditions, conflicts, Round4(base), true, action);
  }

  // ---- The specialists ----

  datatype LoanCase = LoanCase(
    companyName: string, registrationNumber: string, requestedAmount: real,
    financials: RiskBand.Financials, submittedDocuments: seq<string>)

  datatype Screening = Clear | Review | HardStop

  function Screen(companyName: string, registrationNumber: string): Screening {
    var name, registration := Lower(companyName), Upper(registrationNumber);
    if Contains(registration, "DEMO-BLOCK") || Contains(name, "demo blocked") then HardStop
    else if Contains(registration, "DEMO-REVIEW") || Contains(name, "demo review") then Review
    else Clear
  }

  /** What an ASCII letter is apart from its case. */
  predicate SameLetter(a: char, b: char) {
    || a == b
    || ('A' <= a <= 'Z' && b == a - 'A' + 'a')
    || ('a' <= a <= 'z' && b == a - 'a' + 'A')
  }

  /** The text holds this word from `i` on, in any mixture of upper and lower case. */
  predicate HoldsAt(s: string, i: nat, word: string) {
    i + |word| <= |s| && forall k :: 0 <= k < |word| ==> SameLetter(s[i + k], word[k])
  }

  predicate Holds(s: string, word: string) {
    exists i :: 0 <= i <= |s| && HoldsAt(s, i, word)
  }

  lemma {:induction false} LowerHolds(s: string, word: string)
    requires Lower(word) == word
    ensures Contains(Lower(s), word) <==> Holds(s, word)
  {
    forall i: nat | i <= |s| ensures StartsAt(Lower(s), i, word) <==> HoldsAt(s, i, word) {
      if i + |word| <= |s| {
        var t := Lower(s)[i..i + |word|];
        assert forall k :: 0 <= k < |word| ==> t[k] == Lower(s)[i + k] && word[k] == Lower(word)[k];
      }
    }
  }

  lemma {:induction false} UpperHolds(s: string, word: string)
    requires Upper(word) == word
    ensures Contains(Upper(s), word) <==> Holds(s, word)
  {
    forall i: nat | i <= |s| ensures StartsAt(Upper(s), i, word) <==> HoldsAt(s, i, word) {
      if i + |word| <= |s| {
        var t := Upper(s)[i..i + |word|];
        assert forall k :: 0 <= k < |word| ==> t[k] == Upper(s)[i + k] && word[k] == Upper(word)[k];
      }
    }
  }

  lemma {:induction false} MarkersAreCased()
    ensures Upper("DEMO-BLOCK") == "DEMO-BLOCK" && Upper("DEMO-REVIEW") == "DEMO-REVIEW"
    ensures Lower("demo blocked") == "demo blocked" && Lower("demo review") == "demo review"
  {
  }

  /** A hard stop or a review is found by its markers in whatever case; a hard stop comes first. */
  lemma {:induction false} ScreenedByMarkers(name: string, registration: string)
    ensures Screen(name, registration) == HardStop <==>
      Holds(registration, "DEMO-BLOCK") || Holds(name, "demo blocked")
    ensures Screen(name, registration) == Clear <==>
      && !Holds(registration, "DEMO-BLOCK") && !Holds(name, "demo blocked")
      && !Holds(registration, "DEMO-REVIEW") && !Holds(name, "demo review")
  {
    MarkersAreCased();
    UpperHolds(registration, "DEMO-BLOCK");
    UpperHolds(registration, "DEMO-REVIEW");
    LowerHolds(name, "demo blocked");
    LowerHolds(name, "demo review");
  }

  const REQUIRED_DOCUMENTS := [
    "business registration certificate", "financial statements", "tax returns",
    "bank statements", "beneficial ownership declaration"]

  function Respace(s: string): (r: string)
    ensures |r| == |s|
  {
    seq(|s|, i requires 0 <= i < |s| => if s[i] == '_' || s[i] == '-' then ' ' else s[i])
  }

  function Normalize(s: string): string {
    Join(Words("", Respace(Lower(s))))
  }

  predicate Submitted(required: string, documents: seq<string>) {
    exists i :: 0 <= i < |documents| && Normalize(documents[i]) == Normalize(required)
  }

  predicate ChecklistComplete(documents: seq<string>) {
    forall r :: r in REQUIRED_DOCUMENTS ==> Submitted(r, documents)
  }

  /** All five documents are asked for, each by itself. */
  lemma {:induction false} ChecklistExactly(documents: seq<string>)
    ensures ChecklistComplete(documents) <==>
      && Submitted("business registration certificate", documents) && Submitted("financial statements", documents)
      && Submitted("tax returns", documents) && Submitted("bank statements", documents)
      && Submitted("beneficial ownership declaration", documents)
  {
    var required := REQUIRED_DOCUMENTS;
    assert required[0] in required && required[1] in required && required[2] in required;
    assert required[3] in required && required[4] in required;
  }

  /** Normal forms are fixed: normalising twice is normalising once. */
  lemma {:induction false} NormalizeIdempotent(s: string)
    ensures Normalize(Normalize(s)) == Normalize(s)
  {
    var t := Respace(Lower(s));
    var words := Words("", t);
    WordsAreWords("", t);
    WordsKeepChars("", t, words);
    JoinIsPlain(words);
    var n := Join(words);
    assert Lower(n) == n && Respace(n) == n;
    WordsOfJoin(words);
  }

  predicate Plain(w: string) {
    forall i :: 0 <= i < |w| ==> !('A' <= w[i] <= 'Z') && w[i] != '_' && w[i] != '-'
  }

  lemma {:induction false} WordsKeepChars(word: string, s: string, words: seq<string>)
    requires Plain(word) && Plain(s) && words == Words(word, s)
    ensures forall i :: 0 <= i < |words| ==> Plain(words[i])
    decreases s
  {
    if s != "" {
      if IsSpace(s[0]) {
        WordsKeepChars("", s[1..], Words("", s[1..]));
      } else {
        WordsKeepChars(word + [s[0]], s[1..], words);
      }
    }
  }

  lemma {:induction false} JoinIsPlain(words: seq<string>)
    requires forall i :: 0 <= i < |words| ==> Plain(words[i])
    ensures Plain(Join(words))
  {
    if |words| > 1 { JoinIsPlain(words[1..]); }
  }

  /** How one specialist call ended: it answered, with or without citations, or it raised. */
  datatype Call = Answered(cited: bool) | Raised

  function BandCode(band: RiskBand.Band): FindingCode {
    match band case Low => CreditRiskLow case Medium => CreditRiskMedium case High => CreditRiskHigh
  }

  function RunSpecialist(who: Specialist, c: LoanCase, call: Call): AgentResult {
    if call.Raised? then AgentResult(ResultFailed, 0.0, [])
    else match who
      case Credit =>
        AgentResult(ResultCompleted, if call.cited then 0.88 else 0.68,
          [BandCode(RiskBand.CalculateMetrics(c.financials, c.requestedAmount).riskBand)])
      case Compliance =>
        AgentResult(ResultCompleted, if call.cited then 0.94 else 0.72,
          [match Screen(c.companyName, c.registrationNumber)
           case HardStop => ComplianceHardStop case Review => ComplianceReview case Clear => ComplianceClear])
      case Operations =>
        AgentResult(ResultCompleted, if call.cited then 0.96 else 0.75,
          [if ChecklistComplete(c.submittedDocuments) then OperationsComplete else OperationsMissingDocuments])
  }

  // ---- The workflow ----

  datatype Workflow = Workflow(results: Results, decision: FinalDecision, partial: bool)

  function AllResults(c: LoanCase, calls: Specialist -> Call): Results {
    map[Credit := RunSpecialist(Credit, c, calls(Credit)),
        Compliance := RunSpecialist(Compliance, c, calls(Compliance)),
        Operations := RunSpecialist(Operations, c, calls(Operations))]
  }

  /** The graph visits the specialists one after another, copying the state at each node. */
  method RunGraph(c: LoanCase, calls: Specialist -> Call) returns (w: Workflow)
    ensures w.results == AllResults(c, calls)
    ensures w.decision == Decide(w.results)
    ensures w.partial <==> SomeFailed(w.results)
  {
    var results: Results := map[];
    var partial := false;
    for i := 0 to |SPECIALISTS|
      invariant forall s :: s in results <==> s in SPECIALISTS[..i]
      invariant forall s :: s in results ==> results[s] == RunSpecialist(s, c, calls(s))
      invariant partial <==> SomeFailed(results)
    {
      var who := SPECIALISTS[i];
      var execution := RunSpecialist(who, c, calls(who));
      assert SomeFailed(results[who := execution]) <==> partial || execution.status == ResultFailed by {
        assert who !in results;
        if SomeFailed(results) {
          var s :| s in results && results[s].status == ResultFailed;
          assert results[who := execution][s].status == ResultFailed;
        }
        assert results[who := execution][who] == execution;
      }
      results := results[who := execution];
      partial := partial || execution.status == ResultFailed;
    }
    assert SPECIALISTS[..|SPECIALISTS|] == SPECIALISTS;
    forall s: Specialist ensures s in results { SpecialistListed(s); }
    assert results == AllResults(c, calls);
    var decision := Synthesize(results);
    w := Workflow(results, decision, partial);
  }

  /** The baseline calls no tool and always asks for review. */
  function SingleAgentBaseline(): FinalDecision {
    FinalDecision(NeedsReview, [RunMultiAgent], [], 0.4, true, Some(BASELINE_ACTION))
  }

  // ---- Characterisation of the multi-agent decision ----

  /** The unrounded figures of a low credit risk. */
  predicate LowBand(f: RiskBand.Financials)
    requires RiskBand.Valid(f)
  {
    && f.ebitda > 0.0
    && f.currentAssets / f.currentLiabilities >= 0.795
    && f.totalDebt / f.ebitda < 4.005
    && f.totalDebt / f.equity < 3.005
  }

  /** RECOMMEND, BLOCKED and partial, each exactly in terms of the raw case and of who answered. */
  lemma {:induction false} DecisionFromCase(c: LoanCase, calls: Specialist -> Call)
    requires RiskBand.Valid(c.financials)
    ensures Decide(AllResults(c, calls)).status == Recommend <==>
        && calls(Credit).Answered? && calls(Compliance).Answered? && calls(Operations).Answered?
        && LowBand(c.financials)
        && Screen(c.companyName, c.registrationNumber) == Clear
        && ChecklistComplete(c.submittedDocuments)
    ensures Decide(AllResults(c, calls)).status == Blocked <==>
      calls(Compliance).Answered? && Screen(c.companyName, c.registrationNumber) == HardStop
    ensures SomeFailed(AllResults(c, calls))
      <==> calls(Credit).Raised? || calls(Compliance).Raised? || calls(Operations).Raised?
  {
    RiskBand.ExactThresholds(c.financials, c.requestedAmount);
    var results := AllResults(c, calls);
    assert results[Credit] == RunSpecialist(Credit, c, calls(Credit));
    assert results[Compliance] == RunSpecialist(Compliance, c, calls(Compliance));
    assert results[Operations] == RunSpecialist(Operations, c, calls(Operations));
    assert !SomeMissing(results);
  }

  /** A proposed action is withheld exactly for a hard stop, whatever the results are. */
  lemma {:induction false} NoActionExactlyOnHardStop(results: Results)
    ensures Decide(results).proposedAction.None? <==> Found(results, Compliance, ComplianceHardStop)
    ensures Decide(results).proposedAction.None? <==> Decide(results).status == Blocked
    ensures Decide(results).requiresHumanApproval
  {
  }

  /** Somebody failed or is missing. */
  predicate Incomplete(results: Results) {
    SomeFailed(results) || SomeMissing(results)
  }

  /**
   What goes with each status: the credit proposal only with a recommendation, which has no condition
   and no conflict; a review always says why; a rerun is asked for exactly when something is missing.
   */
  lemma {:induction false} StatusDecidesTheRest(results: Results)
    ensures var d := Decide(results);
      && (d.proposedAction == Some(RECOMMEND_ACTION) <==> d.status == Recommend)
      && (d.proposedAction == Some(PARTIAL_ACTION) <==> d.status == NeedsReview && Incomplete(results))
      && (d.proposedAction == Some(REVIEW_ACTION) <==> d.status == NeedsReview && !Incomplete(results))
      && (d.status == Recommend ==> d.conditions == [] && d.conflicts == [] && !Incomplete(results))
      && (d.status == NeedsReview ==> d.conditions != [])
      && (RerunSpecialists in d.conditions <==> d.proposedAction == Some(PARTIAL_ACTION))
  {
    assert RECOMMEND_ACTION.title[0] == 'P' && REVIEW_ACTION.title[0] == 'R' && PARTIAL_ACTION.title[0] == 'R';
    assert REVIEW_ACTION.title[8] == 'h' && PARTIAL_ACTION.title[8] == 'w';
  }

  /** What the specialists find, in terms of the raw case and of who answered. */
  lemma {:induction false} FindingsFromCase(c: LoanCase, calls: Specialist -> Call)
    requires RiskBand.Valid(c.financials)
    ensures var results := AllResults(c, calls);
      var screening := Screen(c.companyName, c.registrationNumber);
      && (Found(results, Credit, CreditRiskLow) <==> calls(Credit).Answered? && LowBand(c.financials))
      && (Found(results, Credit, CreditRiskMedium) || Found(results, Credit, CreditRiskHigh) <==>
          calls(Credit).Answered? && !LowBand(c.financials))
      && (Found(results, Compliance, ComplianceHardStop) <==> calls(Compliance).Answered? && screening == HardStop)
      && (Found(results, Compliance, ComplianceReview) <==> calls(Compliance).Answered? && screening == Review)
      && (Found(results, Operations, OperationsMissingDocuments) <==>
          calls(Operations).Answered? && !ChecklistComplete(c.submittedDocuments))
  {
    RiskBand.ExactThresholds(c.financials, c.requestedAmount);
    var results := AllResults(c, calls);
    assert results[Credit] == RunSpecialist(Credit, c, calls(Credit));
    assert results[Compliance] == RunSpecialist(Compliance, c, calls(Compliance));
    assert results[Operations] == RunSpecialist(Operations, c, calls(Operations));
  }

  lemma {:induction false} OpenConditions(results: Results)
    ensures var open := ConditionsOf(results);
      && (SupplyDocuments in open <==> Found(results, Operations, OperationsMissingDocuments))
      && (OwnerReview in open <==> Found(results, Compliance, ComplianceReview))
      && (CreditReview in open <==> Found(results, Credit, CreditRiskMedium) || Found(results, Credit, CreditRiskHigh))
      && RerunSpecialists !in open && RunMultiAgent !in open
  {
  }

  lemma {:induction false} ConditionsFromFindings(results: Results)
    ensures var d := Decide(results);
      && (SupplyDocuments in d.conditions <==> Found(results, Operations, OperationsMissingDocuments))
      && (OwnerReview in d.conditions <==> Found(results, Compliance, ComplianceReview))
      && (CreditReview in d.conditions <==>
          Found(results, Credit, CreditRiskMedium) || Found(results, Credit, CreditRiskHigh))
      && (RerunSpecialists in d.conditions <==>
          Incomplete(results) && !Found(results, Compliance, ComplianceHardStop))
      && RunMultiAgent !in d.conditions
  {
    OpenConditions(results);
    var open, d := ConditionsOf(results), Decide(results);
    assert d.conditions == open || d.conditions == open + [RerunSpecialists];
  }

  lemma {:induction false} ConflictsFromFindings(results: Results)
    ensures var conflicts, low := Decide(results).conflicts, Found(results, Credit, CreditRiskLow);
      && (LowRiskButHardStop in conflicts <==> low && Found(results, Compliance, ComplianceHardStop))
      && (LowRiskButMissingDocuments in conflicts <==> low && Found(results, Operations, OperationsMissingDocuments))
  {
  }

  /** Every condition and every conflict, exactly in terms of the raw case and of who answered. */
  lemma {:induction false} ConditionsFromCase(c: LoanCase, calls: Specialist -> Call)
    requires RiskBand.Valid(c.financials)
    ensures var d := Decide(AllResults(c, calls));
      var screening := Screen(c.companyName, c.registrationNumber);
      var documents := ChecklistComplete(c.submittedDocuments);
      && (SupplyDocuments in d.conditions <==> calls(Operations).Answered? && !documents)
      && (OwnerReview in d.conditions <==> calls(Compliance).Answered? && screening == Review)
      && (CreditReview in d.conditions <==> calls(Credit).Answered? && !LowBand(c.financials))
      && (RerunSpecialists in d.conditions <==>
          && (calls(Credit).Raised? || calls(Compliance).Raised? || calls(Operations).Raised?)
          && !(calls(Compliance).Answered? && screening == HardStop))
      && RunMultiAgent !in d.conditions
      && (LowRiskButHardStop in d.conflicts <==>
          calls(Credit).Answered? && LowBand(c.financials) && calls(Compliance).Answered? && screening == HardStop)
      && (LowRiskButMissingDocuments in d.conflicts <==>
          calls(Credit).Answered? && LowBand(c.financials) && calls(Operations).Answered? && !documents)
  {
    FindingsFromCase(c, calls);
    ConditionsFromFindings(AllResults(c, calls));
    ConflictsFromFindings(AllResults(c, calls));
    DecisionFromCase(c, calls);
    assert !SomeMissing(AllResults(c, calls));
  }

  /** No condition is listed twice, whatever the results are. */
  lemma {:induction false} ConditionsAreDistinct(results: Results)
    ensures var conditions := Decide(results).conditions;
      forall i, j :: 0 <= i < j < |conditions| ==> conditions[i] != conditions[j]
  {
  }

  // ---- Confidence ----

  /** Rounding gives the nearest multiple of a ten-thousandth, and an even one between two. */
  lemma {:induction false} Round4IsNearest(x: real, n: int)
    ensures (Round4(x) * 10000.0).Floor as real == Round4(x) * 10000.0
    ensures Distance(x, Round4(x)) <= Distance(x, n as real / 10000.0)
    ensures Distance(x, Round4(x)) == Distance(x, n as real / 10000.0) && Round4(x) != n as real / 10000.0 ==>
      n % 2 != 0
  {
    var f := (x * 10000.0).Floor;
    var k := if x * 10000.0 - f as real < 0.5 || (x * 10000.0 - f as real == 0.5 && f % 2 == 0) then f else f + 1;
    assert Round4(x) == k as real / 10000.0;
    if n < k {
      assert n as real <= k as real - 1.0;
    } else if n > k {
      assert n as real >= k as real + 1.0;
    }
  }

  lemma {:induction false} Round4Monotone(x: real, y: real)
    requires x <= y
    ensures Round4(x) <= Round4(y)
  {
    var f, g := (x * 10000.0).Floor, (y * 10000.0).Floor;
    assert f <= g;
  }

  lemma {:induction false} MinimumIsLeast(xs: seq<real>)
    ensures xs != [] ==> Minimum(xs) in xs
    ensures forall i :: 0 <= i < |xs| ==> Minimum(xs) <= xs[i]
  {
    if |xs| > 1 {
      MinimumIsLeast(xs[1..]);
      assert forall i :: 1 <= i < |xs| ==> xs[i] == xs[1..][i - 1];
    }
  }

  predicate FullSet(results: Results) {
    !SomeFailed(results) && !SomeMissing(results)
      && forall s :: s in results ==> results[s].status == ResultCompleted
  }

  /** Some specialists of `full` failed or vanished; the others are as before. */
  predicate Degraded(full: Results, less: Results) {
    && less != full
    && forall s :: s in less ==> s in full && (less[s] == full[s] || less[s].status == ResultFailed)
  }

  lemma {:induction false} NothingLost(full: Results, less: Results)
    requires !SomeFailed(less) && !SomeMissing(less)
    requires forall s :: s in less ==> s in full && (less[s] == full[s] || less[s].status == ResultFailed)
    ensures less == full
  {
    forall s: Specialist ensures s in less && s in full && less[s] == full[s] { SpecialistListed(s); }
  }

  /** Losing specialists from a full set never raises the confidence, if nobody was below 0.35. */
  lemma {:induction false} LosingSpecialistsNeverRaisesConfidence(full: Results, less: Results)
    requires FullSet(full) && Degraded(full, less)
    requires forall s :: s in full ==> full[s].confidence >= 0.35
    ensures Decide(less).confidence <= Decide(full).confidence
    ensures Decide(less).confidence <= 0.35
  {
    if !SomeFailed(less) && !SomeMissing(less) {
      NothingLost(full, less);
    }
    forall s: Specialist ensures s in full { SpecialistListed(s); }
    assert Confidences(full) == [full[Credit].confidence, full[Compliance].confidence, full[Operations].confidence];
    MinimumIsLeast(Confidences(full));
    assert RawConfidence(less) <= 0.35 <= RawConfidence(full);
    Round4Monotone(RawConfidence(less), 0.35);
    Round4Monotone(0.35, RawConfidence(full));
    assert Round4(0.35) == 0.35;
  }

  /** `results` with specialist `s` turned into a failure. */
  function FailOne(results: Results, s: Specialist): Results {
    results[s := AgentResult(ResultFailed, 0.0, [])]
  }

  /** The completed confidences of the other two specialists. */
  function OtherConfidences(results: Results, s: Specialist): seq<real> {
    Confidences(results - {s})
  }

  /** The confidence of a partial set whose least completed confidence is `x`. */
  function PartialConfidence(x: real): real {
    Round4(Least(x, 0.5) * 0.7)
  }

  /** A completed specialist whose results are part of a partial set with sound confidences. */
  predicate MayFail(results: Results, s: Specialist) {
    && (SomeFailed(results) || SomeMissing(results))
    && s in results && results[s].status == ResultCompleted
    && forall t :: t in results ==> 0.0 <= results[t].confidence <= 1.0
  }

  /** The unrounded confidences before and after the failure. */
  lemma {:induction false} RawOfPartial(results: Results, s: Specialist)
    requires MayFail(results, s)
    ensures var own, others := results[s].confidence, OtherConfidences(results, s);
      && RawConfidence(results) == Least(if others == [] then own else Least(own, Minimum(others)), 0.5) * 0.7
      && RawConfidence(FailOne(results, s)) == Least(Minimum(others), 0.5) * 0.7
      && (others == [] ==> Minimum(others) == 0.0)
      && 0.0 <= own
  {
    var failed := FailOne(results, s);
    assert failed[s].status == ResultFailed;
    assert SomeFailed(failed);
    assert Confidences(failed) == OtherConfidences(results, s);
    MinimumWithout(results, s);
  }

  lemma {:induction false} RoundingRaises(own: real, least: real)
    ensures Round4(Least(least, 0.5) * 0.7) > Round4(Least(Least(own, least), 0.5) * 0.7)
      <==> PartialConfidence(own) < PartialConfidence(least)
  {
    if own >= least { Round4Monotone(Least(least, 0.5) * 0.7, Least(own, 0.5) * 0.7); }
  }

  lemma {:induction false} RoundedRaises(results: Results, s: Specialist)
    requires MayFail(results, s)
    ensures Round4(RawConfidence(FailOne(results, s))) > Round4(RawConfidence(results)) <==>
      && OtherConfidences(results, s) != []
      && PartialConfidence(results[s].confidence) < PartialConfidence(Minimum(OtherConfidences(results, s)))
  {
    RawOfPartial(results, s);
    var own, others := results[s].confidence, OtherConfidences(results, s);
    if others == [] {
      Round4Monotone(RawConfidence(FailOne(results, s)), RawConfidence(results));
    } else {
      RoundingRaises(own, Minimum(others));
    }
  }

  /**
   From a set that is already partial a further failure may raise the returned confidence: exactly
   when another specialist completed, and the rounded confidence that the failing one allows is below
   the one that the least of the others allows.
   */
  lemma {:induction false} FurtherFailureRaisesExactlyWhen(results: Results, s: Specialist)
    requires MayFail(results, s)
    ensures Decide(FailOne(results, s)).confidence > Decide(results).confidence <==>
      && OtherConfidences(results, s) != []
      && PartialConfidence(results[s].confidence) < PartialConfidence(Minimum(OtherConfidences(results, s)))
  {
    RoundedRaises(results, s);
    assert Decide(results).confidence == Round4(RawConfidence(results));
  }

  /** An input of the synthesizer on which it happens: confidences 0.3 and 0.9, the third result missing. */
  lemma {:induction false} FurtherFailureRaises()
    ensures var results: Results :=
        map[Credit := AgentResult(ResultCompleted, 0.3, []), Compliance := AgentResult(ResultCompleted, 0.9, [])];
      Decide(results).confidence == 0.21 && Decide(FailOne(results, Credit)).confidence == 0.35
  {
    var results: Results :=
      map[Credit := AgentResult(ResultCompleted, 0.3, []), Compliance := AgentResult(ResultCompleted, 0.9, [])];
    var failed := FailOne(results, Credit);
    assert Operations in SPECIALISTS && Operations !in results && Operations !in failed;
    assert Confidences(results) == [0.3] + [0.9] + [] && Confidences(failed) == [] + [0.9] + [];
    assert [0.3, 0.9][1..] == [0.9];
    assert Round4(0.21) == 0.21 && Round4(0.35) == 0.35;
  }

  /** Some specialists that answered in `calls` raise in `less`; the others end as before. */
  ghost predicate Fewer(calls: Specialist -> Call, less: Specialist -> Call) {
    forall s :: less(s) == calls(s) || less(s).Raised?
  }

  lemma {:induction false} ConfidenceOfRun(c: LoanCase, calls: Specialist -> Call)
    ensures var raw := RawConfidence(AllResults(c, calls));
      if calls(Credit).Raised? && calls(Compliance).Raised? && calls(Operations).Raised? then raw == 0.0
      else if calls(Credit).Raised? || calls(Compliance).Raised? || calls(Operations).Raised? then raw == 0.35
      else raw >= 0.68
  {
    var results := AllResults(c, calls);
    assert results[Credit] == RunSpecialist(Credit, c, calls(Credit));
    assert results[Compliance] == RunSpecialist(Compliance, c, calls(Compliance));
    assert results[Operations] == RunSpecialist(Operations, c, calls(Operations));
    assert !SomeMissing(results);
    MinimumIsLeast(Confidences(results));
    assert forall i :: 0 <= i < |Confidences(results)| ==> Confidences(results)[i] >= 0.68;
  }

  predicate Cited(call: Call) {
    call == Answered(true)
  }

  /** The confidence the workflow returns, exactly in terms of who answered and who cited something. */
  lemma {:induction false} ConfidenceFromCalls(c: LoanCase, calls: Specialist -> Call)
    ensures Decide(AllResults(c, calls)).confidence ==
      if calls(Credit).Raised? && calls(Compliance).Raised? && calls(Operations).Raised? then 0.0
      else if calls(Credit).Raised? || calls(Compliance).Raised? || calls(Operations).Raised? then 0.35
      else if !Cited(calls(Credit)) then 0.68
      else if !Cited(calls(Compliance)) then 0.72
      else if !Cited(calls(Operations)) then 0.75
      else 0.88
  {
    ConfidenceOfRun(c, calls);
    if calls(Credit).Answered? && calls(Compliance).Answered? && calls(Operations).Answered? {
      var results := AllResults(c, calls);
      assert results[Credit] == RunSpecialist(Credit, c, calls(Credit));
      assert results[Compliance] == RunSpecialist(Compliance, c, calls(Compliance));
      assert results[Operations] == RunSpecialist(Operations, c, calls(Operations));
      assert !SomeMissing(results);
      assert Confidences(results) ==
        [results[Credit].confidence, results[Compliance].confidence, results[Operations].confidence];
      LeastOfThree(results[Credit].confidence, results[Compliance].confidence, results[Operations].confidence);
    }
    assert Round4(0.0) == 0.0 && Round4(0.35) == 0.35 && Round4(0.68) == 0.68;
    assert Round4(0.72) == 0.72 && Round4(0.75) == 0.75 && Round4(0.88) == 0.88;
  }

  lemma {:induction false} LeastOfThree(a: real, b: real, c: real)
    ensures Minimum([a, b, c]) == Least(a, Least(b, c))
  {
    assert [a, b, c][1..] == [b, c] && [b, c][1..] == [c];
    assert Minimum([c]) == c && Minimum([b, c]) == Least(b, c);
  }

  /** Through the workflow it cannot happen: the fewer specialists answer, the lower the confidence. */
  lemma {:induction false} WorkflowNeverRaisesConfidence(
      c: LoanCase, calls: Specialist -> Call, less: Specialist -> Call)
    requires Fewer(calls, less)
    ensures Decide(AllResults(c, less)).confidence <= Decide(AllResults(c, calls)).confidence
  {
    ConfidenceOfRun(c, calls);
    ConfidenceOfRun(c, less);
    assert forall s :: less(s) == calls(s) || less(s).Raised?;
    if less(Credit) == calls(Credit) && less(Compliance) == calls(Compliance) && less(Operations) == calls(Operations) {
      assert AllResults(c, less) == AllResults(c, calls);
    } else {
      Round4Monotone(RawConfidence(AllResults(c, less)), RawConfidence(AllResults(c, calls)));
    }
  }

  lemma {:induction false} MinimumInsert(a: seq<real>, x: real, b: seq<real>)
    ensures Minimum(a + [x] + b) == if a + b == [] then x else Least(x, Minimum(a + b))
  {
    if a == [] {
      assert a + [x] + b == [x] + b && a + b == b;
      assert ([x] + b)[1..] == b;
    } else {
      MinimumInsert(a[1..], x, b);
      assert (a + [x] + b)[1..] == a[1..] + [x] + b;
      assert (a + b)[1..] == a[1..] + b;
    }
  }

  lemma {:induction false} MinimumWithout(results: Results, s: Specialist)
    requires s in results && results[s].status == ResultCompleted
    ensures var others := OtherConfidences(results, s);
      Minimum(Confidences(results)) ==
        if others == [] then results[s].confidence else Least(results[s].confidence, Minimum(others))
  {
    var a, b, c := ConfidenceOf(results, Credit), ConfidenceOf(results, Compliance), ConfidenceOf(results, Operations);
    var x := results[s].confidence;
    assert Confidences(results) == a + b + c;
    match s
    case Credit =>
      assert OtherConfidences(results, s) == [] + (b + c) && a + b + c == [] + [x] + (b + c);
      MinimumInsert([], x, b + c);
    case Compliance =>
      assert OtherConfidences(results, s) == a + c;
      MinimumInsert(a, x, c);
    case Operations =>
      assert OtherConfidences(results, s) == (a + b) + [] && a + b + c == (a + b) + [x] + [];
      MinimumInsert(a + b, x, []);
  }
}
