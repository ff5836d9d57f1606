/**
 Assessment of product packages for one customer: which criteria hold, which of them block, and
 the order in which the packages are shown.
 */
module Policy {
  import opened Common
  import opened Sorting

  datatype CatalogRow = CatalogRow(
    product: string, package: string, tier: Option<string>,
    minBalance: Option<real>, ageMin: Option<int>, ageMax: Option<int>)

  /** What is known of the customer; `None` is missing data. */
  datatype Position = Position(
    age: Option<int>, balance: Option<real>, cicGroup: Option<int>, dti: Option<real>, hasOverdue: bool)

  datatype Holding = Holding(product: string, tier: Option<string>)

  datatype Relationship = Relationship(held: seq<Holding>, suppressed: seq<string>)

  /** Tags of the customer and the month's multiplier per product. */
  datatype Extras = Extras(tags: set<string>, kpi: map<string, real>)

  datatype Criterion = Criterion(code: string, passed: bool, blocking: bool)

  datatype Assessment = Assessment(
    product: string, package: string, tier: Option<string>,
    eligible: bool, criteria: seq<Criterion>, multiplier: real, blockedBy: seq<string>)

  const CIC_BLOCK_FROM := 2
  const DTI_MAX := 0.6
  const INSURANCE_ELSEWHERE := 0.5

  // ---- What each rule asks ----

  predicate AgeFits(row: CatalogRow, p: Position) {
    row.ageMin.Some? || row.ageMax.Some? ==>
      && p.age.Some?
      && (if row.ageMin.Some? then row.ageMin.value else 0) <= p.age.value
      && p.age.value <= (if row.ageMax.Some? then row.ageMax.value else 200)
  }

  predicate BalanceSuffices(row: CatalogRow, p: Position) {
    row.minBalance.Some? ==> p.balance.Some? && p.balance.value >= row.minBalance.value
  }

  predicate IsCredit(product: string) {
    product == "vay" || product == "the"
  }

  predicate DebtAcceptable(row: CatalogRow, p: Position) {
    && (IsCredit(row.product) ==>
        && p.cicGroup.Some? && p.cicGroup.value < CIC_BLOCK_FROM
        && p.dti.Some? && p.dti.value <= DTI_MAX)
    && (row.product == "dautu" ==> !p.hasOverdue)
  }

  function HeldKey(product: string, tier: Option<string>): string {
    product + "::" + if tier.Some? then tier.value else ""
  }

  predicate HoldsSameTier(row: CatalogRow, held: seq<Holding>) {
    exists i :: 0 <= i < |held| && HeldKey(held[i].product, held[i].tier) == HeldKey(row.product, row.tier)
  }

  /** The package suits the customer: every blocking rule is met. */
  predicate Suits(row: CatalogRow, p: Position, r: Relationship) {
    && AgeFits(row, p) && BalanceSuffices(row, p) && DebtAcceptable(row, p)
    && !HoldsSameTier(row, r.held) && row.product !in r.suppressed
  }

  // ---- The assessment as it is computed ----

  function When(condition: bool, c: Criterion): seq<Criterion> {
    if condition then [c] else []
  }

  predicate InsuredElsewhere(row: CatalogRow, x: Extras) {
    row.product == "baohiem" && "tag_dong_phi_bh" in x.tags
  }

  predicate KpiApplies(row: CatalogRow, x: Extras) {
    row.product in x.kpi && x.kpi[row.product] != 1.0
  }

  /** The catalog's own limits. */
  function CatalogCriteria(row: CatalogRow, p: Position): seq<Criterion> {
    When(row.ageMin.Some? || row.ageMax.Some?, Criterion("R10", AgeFits(row, p), true))
    + When(row.minBalance.Some?, Criterion("R9", BalanceSuffices(row, p), true))
  }

  function DebtCriteria(row: CatalogRow, p: Position): seq<Criterion> {
    When(IsCredit(row.product), Criterion("R1", p.cicGroup.Some? && p.cicGroup.value < CIC_BLOCK_FROM, true))
    + When(row.product == "dautu", Criterion("R2", !p.hasOverdue, true))
    + When(IsCredit(row.product), Criterion("R3", p.dti.Some? && p.dti.value <= DTI_MAX, true))
  }

  function RelationshipCriteria(row: CatalogRow, r: Relationship): seq<Criterion> {
    [Criterion("R4", !HoldsSameTier(row, r.held), true)] + [Criterion("R5", row.product !in r.suppressed, true)]
  }

  /** Criteria that only change the multiplier. */
  function MultiplierCriteria(row: CatalogRow, x: Extras): seq<Criterion> {
    When(InsuredElsewhere(row, x), Criterion("R11", false, false))
    + When(KpiApplies(row, x), Criterion("R12", KpiApplies(row, x) && x.kpi[row.product] > 1.0, false))
  }

  /** The criteria in the order in which they are listed. */
  function Criteria(row: CatalogRow, p: Position, r: Relationship, x: Extras): seq<Criterion> {
    CatalogCriteria(row, p) + DebtCriteria(row, p) + RelationshipCriteria(row, r) + MultiplierCriteria(row, x)
  }

  predicate Blocks(c: Criterion) {
    c.blocking && !c.passed
  }

  function Codes(cs: seq<Criterion>): seq<string> {
    seq(|cs|, i requires 0 <= i < |cs| => cs[i].code)
  }

  function Multiplier(row: CatalogRow, x: Extras): real {
    (if InsuredElsewhere(row, x) then INSURANCE_ELSEWHERE else 1.0)
      * (if KpiApplies(row, x) then x.kpi[row.product] else 1.0)
  }

  /** The integer nearest to `x`, ties away from zero. */
  function Nearest(x: real): int {
    if x < 0.0 then -(-x + 0.5).Floor else (x + 0.5).Floor
  }

  /** `toFixed(3)`. */
  function Thousandths(x: real): real {
    Nearest(1000.0 * x) as real / 1000.0
  }

  lemma {:induction false} NearestIsNearest(x: real, n: int)
    ensures Distance(x, Nearest(x) as real) <= Distance(x, n as real)
    ensures n != Nearest(x) && Distance(x, Nearest(x) as real) == Distance(x, n as real) ==>
      Distance(0.0, n as real) < Distance(0.0, Nearest(x) as real)
  {
    var k := Nearest(x);
    if n < k {
      assert n as real <= k as real - 1.0;
    } else if n > k {
      assert n as real >= k as real + 1.0;
    }
  }

  function Assess(row: CatalogRow, p: Position, r: Relationship, x: Extras): Assessment {
    var criteria := Criteria(row, p, r, x);
    var blockedBy := Codes(Filter(criteria, Blocks));
    Assessment(row.product, row.package, row.tier, blockedBy == [], criteria,
      Thousandths(Multiplier(row, x)), blockedBy)
  }

  /** `evaluatePackage`: criteria are pushed one after the other, and multipliers multiplied. */
  method EvaluatePackage(row: CatalogRow, p: Position, r: Relationship, x: Extras) returns (a: Assessment)
    ensures a == Assess(row, p, r, x)
    ensures a.eligible <==> Suits(row, p, r)
  {
    var criteria := PushCatalog(row, p);
    criteria := PushDebt(row, p, criteria);
    criteria := PushRelationship(row, r, criteria);
    var multiplier: real;
    criteria, multiplier := PushMultipliers(row, x, criteria);
    assert criteria == Criteria(row, p, r, x);
    var blockedBy := Codes(Filter(criteria, Blocks));
    EligibleExactly(row, p, r, x);
    a := Assessment(row.product, row.package, row.tier, |blockedBy| == 0, criteria, Thousandths(multiplier), blockedBy);
  }

  method PushCatalog(row: CatalogRow, p: Position) returns (criteria: seq<Criterion>)
    ensures criteria == CatalogCriteria(row, p)
  {
    criteria := [];
    if row.ageMin.Some? || row.ageMax.Some? {
      var lo := if row.ageMin.Some? then row.ageMin.value else 0;
      var hi := if row.ageMax.Some? then row.ageMax.value else 200;
      criteria := criteria + [Criterion("R10", p.age.Some? && p.age.value >= lo && p.age.value <= hi, true)];
    }
    if row.minBalance.Some? {
      criteria := criteria + [Criterion("R9", p.balance.Some? && p.balance.value >= row.minBalance.value, true)];
    }
  }

  method PushDebt(row: CatalogRow, p: Position, before: seq<Criterion>) returns (criteria: seq<Criterion>)
    ensures criteria == before + DebtCriteria(row, p)
  {
    criteria := before;
    if row.product in ["vay", "the"] {
      criteria := criteria + [Criterion("R1", p.cicGroup.Some? && p.cicGroup.value < CIC_BLOCK_FROM, true)];
    }
    if row.product in ["dautu"] {
      criteria := criteria + [Criterion("R2", !p.hasOverdue, true)];
    }
    if row.product in ["vay", "the"] {
      criteria := criteria + [Criterion("R3", p.dti.Some? && p.dti.value <= DTI_MAX, true)];
    }
  }

  method PushRelationship(row: CatalogRow, r: Relationship, before: seq<Criterion>) returns (criteria: seq<Criterion>)
    ensures criteria == before + RelationshipCriteria(row, r)
  {
    var heldPairs := set i | 0 <= i < |r.held| :: HeldKey(r.held[i].product, r.held[i].tier);
    var sameTierHeld := HeldKey(row.product, row.tier) in heldPairs;
    criteria := before + [Criterion("R4", !sameTierHeld, true)];
    var isSuppressed := row.product in r.suppressed;
    criteria := criteria + [Criterion("R5", !isSuppressed, true)];
  }

  method PushMultipliers(row: CatalogRow, x: Extras, before: seq<Criterion>)
    returns (criteria: seq<Criterion>, multiplier: real)
    ensures criteria == before + MultiplierCriteria(row, x) && multiplier == Multiplier(row, x)
  {
    criteria, multiplier := before, 1.0;
    if row.product == "baohiem" && "tag_dong_phi_bh" in x.tags {
      multiplier := multiplier * INSURANCE_ELSEWHERE;
      criteria := criteria + [Criterion("R11", false, false)];
    }
    if row.product in x.kpi && x.kpi[row.product] != 1.0 {
      multiplier := multiplier * x.kpi[row.product];
      criteria := criteria + [Criterion("R12", x.kpi[row.product] > 1.0, false)];
    }
  }

  /** Somebody exactly at a limit meets it, and nobody beyond it does. */
  lemma {:induction false} LimitsAreInclusive(row: CatalogRow, p: Position, low: int, high: int, least: real)
    requires 0 <= low <= high <= 200
    ensures var limited := row.(ageMin := Some(low), ageMax := Some(high), minBalance := Some(least));
      && AgeFits(limited, p.(age := Some(low))) && AgeFits(limited, p.(age := Some(high)))
      && !AgeFits(limited, p.(age := Some(low - 1))) && !AgeFits(limited, p.(age := Some(high + 1)))
      && BalanceSuffices(limited, p.(balance := Some(least)))
      && forall b :: b < least ==> !BalanceSuffices(limited, p.(balance := Some(b)))
  {
  }

  // ---- What the assessment says, read from the customer ----

  /** The codes of the rules that the customer fails, in the order in which the rules are asked. */
  function FailedRules(row: CatalogRow, p: Position, r: Relationship): seq<string> {
    ((if AgeFits(row, p) then [] else ["R10"]) + (if BalanceSuffices(row, p) then [] else ["R9"]))
    + ((if IsCredit(row.product) && !(p.cicGroup.Some? && p.cicGroup.value < 2) then ["R1"] else [])
       + (if row.product == "dautu" && p.hasOverdue then ["R2"] else [])
       + (if IsCredit(row.product) && !(p.dti.Some? && p.dti.value <= 0.6) then ["R3"] else []))
    + ((if HoldsSameTier(row, r.held) then ["R4"] else []) + (if row.product in r.suppressed then ["R5"] else []))
  }

  /** The codes of the rules that the customer meets; a premium month counts as one. */
  function MetRules(row: CatalogRow, p: Position, r: Relationship, x: Extras): seq<string> {
    ((if (row.ageMin.Some? || row.ageMax.Some?) && AgeFits(row, p) then ["R10"] else [])
     + (if row.minBalance.Some? && BalanceSuffices(row, p) then ["R9"] else []))
    + ((if IsCredit(row.product) && p.cicGroup.Some? && p.cicGroup.value < 2 then ["R1"] else [])
       + (if row.product == "dautu" && !p.hasOverdue then ["R2"] else [])
       + (if IsCredit(row.product) && p.dti.Some? && p.dti.value <= 0.6 then ["R3"] else []))
    + ((if HoldsSameTier(row, r.held) then [] else ["R4"]) + (if row.product in r.suppressed then [] else ["R5"]))
    + (if row.product in x.kpi && x.kpi[row.product] > 1.0 then ["R12"] else [])
  }

  function CodesWith(cs: seq<Criterion>, keep: Criterion -> bool): seq<string> {
    Codes(Filter(cs, keep))
  }

  predicate Passed(c: Criterion) {
    c.passed
  }

  lemma {:induction false} CodesConcat(a: seq<Criterion>, b: seq<Criterion>, keep: Criterion -> bool)
    ensures CodesWith(a + b, keep) == CodesWith(a, keep) + CodesWith(b, keep)
  {
    FilterConcat(a, b, keep);
  }

  lemma {:induction false} CodesWhen(condition: bool, c: Criterion, keep: Criterion -> bool)
    ensures CodesWith(When(condition, c), keep) == if condition && keep(c) then [c.code] else []
  {
    if condition && keep(c) {
      assert Filter([c], keep) == [c] && Codes([c]) == [c.code];
    } else {
      assert Filter(When(condition, c), keep) == [];
    }
  }

  lemma {:induction false} CatalogCodes(row: CatalogRow, p: Position, keep: Criterion -> bool)
    ensures var r10, r9 := Criterion("R10", AgeFits(row, p), true), Criterion("R9", BalanceSuffices(row, p), true);
      CodesWith(CatalogCriteria(row, p), keep) ==
        (if (row.ageMin.Some? || row.ageMax.Some?) && keep(r10) then ["R10"] else [])
        + (if row.minBalance.Some? && keep(r9) then ["R9"] else [])
  {
    var r10, r9 := Criterion("R10", AgeFits(row, p), true), Criterion("R9", BalanceSuffices(row, p), true);
    CodesConcat(When(row.ageMin.Some? || row.ageMax.Some?, r10), When(row.minBalance.Some?, r9), keep);
    CodesWhen(row.ageMin.Some? || row.ageMax.Some?, r10, keep);
    CodesWhen(row.minBalance.Some?, r9, keep);
  }

  lemma {:induction false} DebtCodes(row: CatalogRow, p: Position, keep: Criterion -> bool)
    ensures var r1 := Criterion("R1", p.cicGroup.Some? && p.cicGroup.value < 2, true);
      var r2, r3 := Criterion("R2", !p.hasOverdue, true), Criterion("R3", p.dti.Some? && p.dti.value <= 0.6, true);
      CodesWith(DebtCriteria(row, p), keep) ==
        (if IsCredit(row.product) && keep(r1) then ["R1"] else [])
        + (if row.product == "dautu" && keep(r2) then ["R2"] else [])
        + (if IsCredit(row.product) && keep(r3) then ["R3"] else [])
  {
    var r1 := Criterion("R1", p.cicGroup.Some? && p.cicGroup.value < 2, true);
    var r2, r3 := Criterion("R2", !p.hasOverdue, true), Criterion("R3", p.dti.Some? && p.dti.value <= 0.6, true);
    ThreeCodes(IsCredit(row.product), r1, row.product == "dautu", r2, r3, keep);
  }

  lemma {:induction false} ThreeCodes(
      credit: bool, r1: Criterion, investment: bool, r2: Criterion, r3: Criterion, keep: Criterion -> bool)
    ensures CodesWith(When(credit, r1) + When(investment, r2) + When(credit, r3), keep) ==
      (if credit && keep(r1) then [r1.code] else []) + (if investment && keep(r2) then [r2.code] else [])
      + (if credit && keep(r3) then [r3.code] else [])
  {
    CodesConcat(When(credit, r1) + When(investment, r2), When(credit, r3), keep);
    CodesConcat(When(credit, r1), When(investment, r2), keep);
    CodesWhen(credit, r1, keep);
    CodesWhen(investment, r2, keep);
    CodesWhen(credit, r3, keep);
  }

  lemma {:induction false} RelationshipCodes(row: CatalogRow, r: Relationship, keep: Criterion -> bool)
    ensures var r4 := Criterion("R4", !HoldsSameTier(row, r.held), true);
      var r5 := Criterion("R5", row.product !in r.suppressed, true);
      CodesWith(RelationshipCriteria(row, r), keep) ==
        (if keep(r4) then ["R4"] else []) + (if keep(r5) then ["R5"] else [])
  {
    var r4 := Criterion("R4", !HoldsSameTier(row, r.held), true);
    var r5 := Criterion("R5", row.product !in r.suppressed, true);
    assert When(true, r4) == [r4] && When(true, r5) == [r5];
    CodesConcat([r4], [r5], keep);
    CodesWhen(true, r4, keep);
    CodesWhen(true, r5, keep);
  }

  lemma {:induction false} MultiplierCodes(row: CatalogRow, x: Extras)
    ensures CodesWith(MultiplierCriteria(row, x), Blocks) == []
    ensures CodesWith(MultiplierCriteria(row, x), Passed) ==
      if row.product in x.kpi && x.kpi[row.product] > 1.0 then ["R12"] else []
  {
    var r11 := Criterion("R11", false, false);
    var r12 := Criterion("R12", KpiApplies(row, x) && x.kpi[row.product] > 1.0, false);
    CodesConcat(When(InsuredElsewhere(row, x), r11), When(KpiApplies(row, x), r12), Blocks);
    CodesConcat(When(InsuredElsewhere(row, x), r11), When(KpiApplies(row, x), r12), Passed);
    CodesWhen(InsuredElsewhere(row, x), r11, Blocks);
    CodesWhen(InsuredElsewhere(row, x), r11, Passed);
    CodesWhen(KpiApplies(row, x), r12, Blocks);
    CodesWhen(KpiApplies(row, x), r12, Passed);
  }

  lemma {:induction false} CriteriaCodes(
      row: CatalogRow, p: Position, r: Relationship, x: Extras, keep: Criterion -> bool)
    ensures CodesWith(Criteria(row, p, r, x), keep) ==
      CodesWith(CatalogCriteria(row, p), keep) + CodesWith(DebtCriteria(row, p), keep)
      + CodesWith(RelationshipCriteria(row, r), keep) + CodesWith(MultiplierCriteria(row, x), keep)
  {
    var a, b, c, d :=
      CatalogCriteria(row, p), DebtCriteria(row, p), RelationshipCriteria(row, r), MultiplierCriteria(row, x);
    CodesConcat(a + b + c, d, keep);
    CodesConcat(a + b, c, keep);
    CodesConcat(a, b, keep);
  }

  lemma {:induction false} FailedExactly(row: CatalogRow, p: Position, r: Relationship, x: Extras)
    ensures CodesWith(Criteria(row, p, r, x), Blocks) == FailedRules(row, p, r)
  {
    CriteriaCodes(row, p, r, x, Blocks);
    CatalogCodes(row, p, Blocks);
    DebtCodes(row, p, Blocks);
    RelationshipCodes(row, r, Blocks);
    MultiplierCodes(row, x);
  }

  lemma {:induction false} MetExactly(row: CatalogRow, p: Position, r: Relationship, x: Extras)
    ensures CodesWith(Criteria(row, p, r, x), Passed) == MetRules(row, p, r, x)
  {
    CriteriaCodes(row, p, r, x, Passed);
    CatalogCodes(row, p, Passed);
    DebtCodes(row, p, Passed);
    RelationshipCodes(row, r, Passed);
    MultiplierCodes(row, x);
  }

  /** Exactly the failed rules block a package, in order; exactly the met ones count for the ranking. */
  lemma {:induction false} RulesExactly(row: CatalogRow, p: Position, r: Relationship, x: Extras)
    ensures Assess(row, p, r, x).blockedBy == FailedRules(row, p, r)
    ensures CodesWith(Assess(row, p, r, x).criteria, Passed) == MetRules(row, p, r, x)
    ensures Met(Assess(row, p, r, x)) == |MetRules(row, p, r, x)|
  {
    FailedExactly(row, p, r, x);
    MetExactly(row, p, r, x);
    PassCountIsMet(Assess(row, p, r, x));
  }

  /** A package is eligible exactly when it suits the customer: tags and KPI multipliers never decide. */
  lemma {:induction false} EligibleExactly(row: CatalogRow, p: Position, r: Relationship, x: Extras)
    ensures Assess(row, p, r, x).eligible <==> Suits(row, p, r)
  {
    FailedExactly(row, p, r, x);
  }

  /** What the month pays for the product, 1 without an entry, and half of it for insurance paid elsewhere. */
  function ExactMultiplier(row: CatalogRow, x: Extras): real {
    var month := if row.product in x.kpi then x.kpi[row.product] else 1.0;
    if row.product == "baohiem" && "tag_dong_phi_bh" in x.tags then month / 2.0 else month
  }

  /** The shown multiplier is the exact one to the nearest thousandth. */
  lemma {:induction false} MultiplierExactly(row: CatalogRow, p: Position, r: Relationship, x: Extras, n: int)
    ensures var exact := 1000.0 * ExactMultiplier(row, x);
      Distance(exact, 1000.0 * Assess(row, p, r, x).multiplier) <= Distance(exact, n as real)
  {
    assert Multiplier(row, x) == ExactMultiplier(row, x);
    NearestIsNearest(1000.0 * Multiplier(row, x), n);
  }

  // ---- The ranking ----

  function PassCount(a: Assessment): nat {
    |Filter(a.criteria, Passed)|
  }

  function MetIn(criteria: seq<Criterion>): set<nat> {
    set i: nat | i < |criteria| && criteria[i].passed
  }

  /** How many criteria are met. */
  function Met(a: Assessment): nat {
    |MetIn(a.criteria)|
  }

  lemma {:induction false} PassedAreMet(criteria: seq<Criterion>)
    ensures |Filter(criteria, Passed)| == |MetIn(criteria)|
  {
    if criteria != [] {
      var n := |criteria| - 1;
      PassedAreMet(criteria[..n]);
      FilterConcat(criteria[..n], [criteria[n]], Passed);
      assert criteria == criteria[..n] + [criteria[n]];
      MetInNext(criteria);
    }
  }

  lemma {:induction false} MetInNext(criteria: seq<Criterion>)
    requires criteria != []
    ensures var n := |criteria| - 1;
      |MetIn(criteria)| == |MetIn(criteria[..n])| + if criteria[n].passed then 1 else 0
  {
    var n := |criteria| - 1;
    assert MetIn(criteria) == MetIn(criteria[..n]) + if criteria[n].passed then {n} else {};
  }

  lemma {:induction false} PassCountIsMet(a: Assessment)
    ensures PassCount(a) == Met(a)
  {
    PassedAreMet(a.criteria);
  }

  /** Eligible packages first, then by the number of criteria met. */
  predicate NotBehind(a: Assessment, b: Assessment) {
    (a.eligible && !b.eligible) || (a.eligible == b.eligible && PassCount(a) >= PassCount(b))
  }

  function AssessAll(catalog: seq<CatalogRow>, p: Position, r: Relationship, x: Extras): seq<Assessment> {
    Map((row: CatalogRow) => Assess(row, p, r, x), catalog)
  }

  lemma {:induction false} AssessNext(catalog: seq<CatalogRow>, i: nat, p: Position, r: Relationship, x: Extras)
    requires i < |catalog|
    ensures AssessAll(catalog[..i + 1], p, r, x) == AssessAll(catalog[..i], p, r, x) + [Assess(catalog[i], p, r, x)]
  {
    assert catalog[..i + 1][..i] == catalog[..i];
  }

  function Evaluate(catalog: seq<CatalogRow>, p: Position, r: Relationship, x: Extras): seq<Assessment> {
    Sort(AssessAll(catalog, p, r, x), NotBehind)
  }

  method EvaluateCatalog(catalog: seq<CatalogRow>, p: Position, r: Relationship, x: Extras)
    returns (ranked: seq<Assessment>)
    ensures ranked == Evaluate(catalog, p, r, x)
  {
    var assessed: seq<Assessment> := [];
    for i := 0 to |catalog|
      invariant assessed == AssessAll(catalog[..i], p, r, x)
    {
      var a := EvaluatePackage(catalog[i], p, r, x);
      AssessNext(catalog, i, p, r, x);
      assessed := assessed + [a];
    }
    assert catalog[..|catalog|] == catalog;
    ranked := Sort(assessed, NotBehind);
  }

  lemma {:induction false} NotBehindIsTotal()
    ensures TotalPreorder(NotBehind)
  {
  }

  /** The two assessments compare equal in the ranking. */
  predicate SameRank(a: Assessment, b: Assessment) {
    a.eligible == b.eligible && Met(a) == Met(b)
  }

  /** Eligible packages come first, and within each group those that meet more criteria. */
  predicate WellRanked(ranked: seq<Assessment>) {
    && (forall i, j :: 0 <= i < j < |ranked| && ranked[j].eligible ==> ranked[i].eligible)
    && (forall i, j :: 0 <= i < j < |ranked| && ranked[i].eligible == ranked[j].eligible ==>
          Met(ranked[i]) >= Met(ranked[j]))
  }

  lemma {:induction false} SortedIsWellRanked(ranked: seq<Assessment>)
    requires Sorted(ranked, NotBehind)
    ensures WellRanked(ranked)
  {
    forall i, j | 0 <= i < j < |ranked|
      ensures ranked[j].eligible ==> ranked[i].eligible
      ensures ranked[i].eligible == ranked[j].eligible ==> Met(ranked[i]) >= Met(ranked[j])
    {
      assert NotBehind(ranked[i], ranked[j]);
      PassCountIsMet(ranked[i]);
      PassCountIsMet(ranked[j]);
    }
  }

  /**
   The ranking is a permutation of the assessed catalog: eligible packages first, each group by the
   number of criteria met, and packages that tie in catalog order.
   */
  lemma {:induction false} RankingIsFair(
      catalog: seq<CatalogRow>, p: Position, r: Relationship, x: Extras, tied: Assessment)
    ensures multiset(Evaluate(catalog, p, r, x)) == multiset(AssessAll(catalog, p, r, x))
    ensures WellRanked(Evaluate(catalog, p, r, x))
    ensures Filter(Evaluate(catalog, p, r, x), a => SameRank(tied, a))
      == Filter(AssessAll(catalog, p, r, x), a => SameRank(tied, a))
  {
    RankingOf(AssessAll(catalog, p, r, x), tied);
  }

  lemma {:induction false} RankingOf(assessed: seq<Assessment>, tied: Assessment)
    ensures var ranked := Sort(assessed, NotBehind);
      multiset(ranked) == multiset(assessed) && WellRanked(ranked)
      && Filter(ranked, a => SameRank(tied, a)) == Filter(assessed, a => SameRank(tied, a))
  {
    var ranked := Sort(assessed, NotBehind);
    NotBehindIsTotal();
    SortSorts(assessed, NotBehind);
    SortedIsWellRanked(ranked);
    SortStable(assessed, NotBehind, tied);
    SameFilter(ranked, tied);
    SameFilter(assessed, tied);
  }

  lemma {:induction false} SameFilter(s: seq<Assessment>, tied: Assessment)
    ensures Filter(s, y => Tied(tied, y, NotBehind)) == Filter(s, a => SameRank(tied, a))
  {
    if s != [] {
      PassCountIsMet(s[0]);
      PassCountIsMet(tied);
      SameFilter(s[1..], tied);
    }
  }

  // ---- Missing data is never favourable ----

  predicate Forgets<T(==)>(known: Option<T>, less: Option<T>) {
    less == known || less == None
  }

  /** At most as much is known, and nothing better. */
  predicate NoBetter(p: Position, q: Position) {
    && Forgets(p.age, q.age) && Forgets(p.balance, q.balance) && Forgets(p.cicGroup, q.cicGroup)
      && Forgets(p.dti, q.dti)
    && (p.hasOverdue ==> q.hasOverdue)
  }

  /** At least as many products held and suppressed. */
  predicate NoFreer(r: Relationship, s: Relationship) {
    && (forall h :: h in r.held ==> h in s.held)
    && (forall n :: n in r.suppressed ==> n in s.suppressed)
  }

  lemma {:induction false} SuitsOnlyIfBefore(
      row: CatalogRow, p: Position, q: Position, r: Relationship, s: Relationship)
    requires NoBetter(p, q) && NoFreer(r, s)
    ensures Suits(row, q, s) ==> Suits(row, p, r)
  {
    if HoldsSameTier(row, r.held) {
      var i :| 0 <= i < |r.held| && HeldKey(r.held[i].product, r.held[i].tier) == HeldKey(row.product, row.tier);
      assert r.held[i] in s.held;
      var j :| 0 <= j < |s.held| && s.held[j] == r.held[i];
      assert HoldsSameTier(row, s.held);
    }
  }

  /** The same package is eligible in the other ranking. */
  predicate StillEligible(a: Assessment, ranked: seq<Assessment>) {
    exists i :: 0 <= i < |ranked| && ranked[i].eligible
      && ranked[i].product == a.product && ranked[i].package == a.package && ranked[i].tier == a.tier
  }

  /**
   Replacing any known age, balance, CIC group or DTI by null, or adding a held product or a
   suppression, never makes an ineligible package eligible, whatever the tags and multipliers are.
   */
  lemma {:induction false} MissingDataIsNeverFavourable(
      catalog: seq<CatalogRow>, p: Position, q: Position, r: Relationship, s: Relationship, x: Extras, y: Extras)
    requires NoBetter(p, q) && NoFreer(r, s)
    ensures forall a :: a in Evaluate(catalog, q, s, y) && a.eligible ==> StillEligible(a, Evaluate(catalog, p, r, x))
  {
    var before, after := AssessAll(catalog, p, r, x), AssessAll(catalog, q, s, y);
    NotBehindIsTotal();
    SortMembers(before, NotBehind);
    SortMembers(after, NotBehind);
    forall a | a in Evaluate(catalog, q, s, y) && a.eligible
      ensures StillEligible(a, Evaluate(catalog, p, r, x))
    {
      var i :| 0 <= i < |after| && after[i] == a;
      EligibleExactly(catalog[i], q, s, y);
      SuitsOnlyIfBefore(catalog[i], p, q, r, s);
      EligibleExactly(catalog[i], p, r, x);
      assert before[i] in before && before[i] in Evaluate(catalog, p, r, x);
    }
  }

  /** Product names hold no colon, so the joined key says exactly "same product and same tier". */
  lemma {:induction false} HeldKeyExact(row: CatalogRow, h: Holding)
    requires ':' !in row.product && ':' !in h.product
    ensures HeldKey(h.product, h.tier) == HeldKey(row.product, row.tier) <==>
      h.product == row.product
      && (if h.tier.Some? then h.tier.value else "") == (if row.tier.Some? then row.tier.value else "")
  {
    var a, b := HeldKey(h.product, h.tier), HeldKey(row.product, row.tier);
    if a == b {
      assert a[|h.product|] == ':' && b[|row.product|] == ':';
      assert |h.product| == |row.product|;
      assert h.product == a[..|h.product|] && row.product == b[..|row.product|];
      assert a[|h.product| + 2..] == if h.tier.Some? then h.tier.value else "";
      assert b[|row.product| + 2..] == if row.tier.Some? then row.tier.value else "";
    }
  }
}
