/**
 The next-best-action pipeline: every customer goes through every stage, each stage is tried at
 most twice, and the drafts of a run are committed together or not at all.
 */
module NbaPipeline {
  import opened Common

  datatype Customer = Customer(customerId: int, metrics: map<string, Option<real>>, tags: seq<string>)

  datatype Draft = Draft(customerId: int, product: string, snapshotHash: string)

  datatype Stored = Stored(draft: Draft, runId: string, version: nat)

  datatype Output = Output(customer: Customer, recommendation: Option<Draft>, skipped: bool, reason: Option<string>)

  datatype StageStatus = Completed | Skipped | Failed

  datatype StageEvent = StageEvent(
    stage: string, status: StageStatus, attempt: nat, customerId: int, reason: Option<string>)

  /** The n-th execution in a run either yields an output or raises, whatever the environment decides. */
  datatype Stage = Stage(name: string, execute: (nat, Customer) -> Option<Output>, failure: (nat, Customer) -> string)

  datatype RunStatus = Running | Finished | Broken

  datatype RunResult = RunResult(
    runId: string, status: RunStatus, stages: seq<StageEvent>, recommendationCount: nat, errorCode: Option<string>)

  // ---- One stage for one customer ----

  /** What one stage did with one input: the events it logged, and its output unless both attempts failed. */
  datatype Cell = Cell(input: Customer, events: seq<StageEvent>, output: Option<Output>)

  function Success(stage: Stage, input: Customer, attempt: nat, output: Output): StageEvent {
    StageEvent(stage.name, if output.skipped then Skipped else Completed, attempt, input.customerId, output.reason)
  }

  function Failure(stage: Stage, input: Customer, attempt: nat, n: nat): StageEvent {
    StageEvent(stage.name, Failed, attempt, input.customerId, Some(stage.failure(n, input)))
  }

  function RunCell(stage: Stage, input: Customer, n: nat): Cell {
    var first := stage.execute(n, input);
    if first.Some? then Cell(input, [Success(stage, input, 1, first.value)], first)
    else
      var second := stage.execute(n + 1, input);
      if second.Some? then
        Cell(input, [Failure(stage, input, 1, n), Success(stage, input, 2, second.value)], second)
      else
        Cell(input, [Failure(stage, input, 1, n), Failure(stage, input, 2, n + 1)], None)
  }

  // ---- All stages for one customer, all customers ----

  /** How one stage is run for one customer, after n earlier executions; `RunCell` is the real one. */
  type Runner = (Stage, Customer, nat) -> Cell

  /** Each stage sees the output of the one before; a stage that fails twice ends the row. */
  function RunRow(run: Runner, stages: seq<Stage>, input: Customer, n: nat): seq<Cell>
    decreases stages
  {
    if stages == [] then []
    else
      var cell := run(stages[0], input, n);
      [cell] + if cell.output.None? then [] else RunRow(run, stages[1..], cell.output.value.customer, n + |cell.events|)
  }

  function RowEvents(row: seq<Cell>): seq<StageEvent> {
    if row == [] then [] else row[0].events + RowEvents(row[1..])
  }

  predicate RowFailed(row: seq<Cell>) {
    row != [] && row[|row| - 1].output.None?
  }

  function RunRows(run: Runner, stages: seq<Stage>, customers: seq<Customer>, n: nat): seq<seq<Cell>>
    decreases customers
  {
    if customers == [] then []
    else
      var row := RunRow(run, stages, customers[0], n);
      [row] + if RowFailed(row) then [] else RunRows(run, stages, customers[1..], n + |RowEvents(row)|)
  }

  function AllEvents(rows: seq<seq<Cell>>): seq<StageEvent> {
    if rows == [] then [] else RowEvents(rows[0]) + AllEvents(rows[1..])
  }

  predicate AnyFailed(rows: seq<seq<Cell>>) {
    rows != [] && RowFailed(rows[|rows| - 1])
  }

  function CellDrafts(cell: Cell): seq<Draft> {
    if cell.output.Some? && cell.output.value.recommendation.Some? then [cell.output.value.recommendation.value] else []
  }

  function RowDrafts(row: seq<Cell>): seq<Draft> {
    if row == [] then [] else CellDrafts(row[0]) + RowDrafts(row[1..])
  }

  /** Drafts in the order of customers, and of stages within a customer. */
  function AllDrafts(rows: seq<seq<Cell>>): seq<Draft> {
    if rows == [] then [] else RowDrafts(rows[0]) + AllDrafts(rows[1..])
  }

  // ---- The repository ----

  function CountFor(recs: seq<Stored>, customerId: int): nat {
    if recs == [] then 0
    else CountFor(recs[..|recs| - 1], customerId) + if recs[|recs| - 1].draft.customerId == customerId then 1 else 0
  }

  /** Versions are counted against what was stored before the batch. */
  function Batch(recs: seq<Stored>, drafts: seq<Draft>, runId: string): seq<Stored> {
    seq(|drafts|, i requires 0 <= i < |drafts| => Stored(drafts[i], runId, CountFor(recs, drafts[i].customerId) + 1))
  }

  /** The requested customers that exist, in the order of the request. */
  function Present(ids: seq<int>, customers: map<int, Customer>): seq<Customer> {
    if ids == [] then []
    else
      var init := Present(ids[..|ids| - 1], customers);
      if ids[|ids| - 1] in customers then init + [customers[ids[|ids| - 1]]] else init
  }

  /** All customers by ascending id. */
  predicate EveryoneAscending(customers: map<int, Customer>, found: seq<Customer>) {
    && (forall i, j :: 0 <= i < j < |found| ==> found[i].customerId < found[j].customerId)
    && (forall i :: 0 <= i < |found| ==> found[i].customerId in customers && customers[found[i].customerId] == found[i])
    && (forall k :: k in customers ==> customers[k] in found)
  }

  predicate Loaded(ids: seq<int>, customers: map<int, Customer>, found: seq<Customer>) {
    if ids == [] then EveryoneAscending(customers, found) else found == Present(ids, customers)
  }

  predicate KeyedById(customers: map<int, Customer>) {
    forall k :: k in customers ==> customers[k].customerId == k
  }

  lemma {:induction false} HasLeast(s: set<int>)
    ensures s == {} || exists least :: least in s && forall k :: k in s ==> least <= k
    decreases |s|
  {
    if x :| x in s {
      var t := s - {x};
      assert forall k :: k in s ==> k == x || k in t;
      HasLeast(t);
      if y :| y in t && forall k :: k in t ==> y <= k {
        var least := if x <= y then x else y;
        assert least in s && forall k :: k in s ==> least <= k;
      } else {
        assert x in s && forall k :: k in s ==> x <= k;
      }
    } else {
      assert forall x :: x in s ==> x in {};
      assert s == {};
    }
  }

  function Updated(customers: map<int, Customer>, more: seq<Customer>): map<int, Customer> {
    if more == [] then customers
    else
      var last := more[|more| - 1];
      Updated(customers, more[..|more| - 1])[last.customerId := last]
  }

  /** The last snapshot given for a customer is the one that is kept. */
  lemma {:induction false} LatestSnapshotWins(customers: map<int, Customer>, more: seq<Customer>, i: nat)
    requires i < |more| && forall j :: i < j < |more| ==> more[j].customerId != more[i].customerId
    ensures more[i].customerId in Updated(customers, more)
    ensures Updated(customers, more)[more[i].customerId] == more[i]
  {
    var n := |more| - 1;
    if i < n {
      assert more[n].customerId != more[i].customerId;
      LatestSnapshotWins(customers, more[..n], i);
    }
  }

  class InMemoryNbaRepository {
    var customers: map<int, Customer>
    var runs: map<string, RunResult>
    var recommendations: seq<Stored>

    predicate Valid()
      reads this
    {
      KeyedById(customers)
    }

    constructor ()
      ensures Valid() && customers == map[] && runs == map[] && recommendations == []
    {
      customers := map[];
      runs := map[];
      recommendations := [];
    }

    /** Later snapshots of a customer replace earlier ones. */
    method AddCustomers(more: seq<Customer>)
      requires Valid()
      modifies `customers
      ensures Valid() && customers == Updated(old(customers), more)
    {
      for n := 0 to |more|
        invariant Valid() && customers == Updated(old(customers), more[..n])
      {
        assert more[..n + 1][..n] == more[..n];
        customers := customers[more[n].customerId := more[n]];
      }
      assert more[..|more|] == more;
    }

    method LoadCustomers(ids: seq<int>) returns (found: seq<Customer>)
      requires Valid()
      ensures Loaded(ids, customers, found)
    {
      found := [];
      if ids == [] {
        var rest := customers.Keys;
        while rest != {}
          invariant rest <= customers.Keys
          invariant forall i, j :: 0 <= i < j < |found| ==> found[i].customerId < found[j].customerId
          invariant forall i, k :: 0 <= i < |found| && k in rest ==> found[i].customerId < k
          invariant forall i :: 0 <= i < |found| ==>
            found[i].customerId in customers && customers[found[i].customerId] == found[i]
          invariant forall k :: k in customers ==> k in rest || customers[k] in found
          decreases |rest|
        {
          HasLeast(rest);
          var least :| least in rest && forall k :: k in rest ==> least <= k;
          found := found + [customers[least]];
          rest := rest - {least};
        }
      } else {
        for i := 0 to |ids|
          invariant found == Present(ids[..i], customers)
        {
          assert ids[..i + 1][..i] == ids[..i];
          if ids[i] in customers { found := found + [customers[ids[i]]]; }
        }
        assert ids[..|ids|] == ids;
      }
    }

    method SaveRun(run: RunResult)
      modifies `runs
      ensures runs == old(runs)[run.runId := run]
    {
      runs := runs[run.runId := run];
    }

    /** Everything is stored together; when a draft is not `accepted` the commit raises before that. */
    method CommitSuccess(run: RunResult, drafts: seq<Draft>, accepted: bool) returns (ok: bool, stored: seq<Stored>)
      modifies `runs, `recommendations
      ensures ok == accepted
      ensures ok ==>
        && stored == Batch(old(recommendations), drafts, run.runId)
        && recommendations == old(recommendations) + stored
        && runs == old(runs)[run.runId := run]
      ensures !ok ==> recommendations == old(recommendations) && runs == old(runs)
    {
      ok, stored := accepted, [];
      if !accepted { return; }
      for i := 0 to |drafts|
        invariant stored == Batch(recommendations, drafts[..i], run.runId)
        invariant recommendations == old(recommendations) && runs == old(runs)
      {
        var version := CountFor(recommendations, drafts[i].customerId) + 1;
        stored := stored + [Stored(drafts[i], run.runId, version)];
        assert drafts[..i + 1] == drafts[..i] + [drafts[i]];
      }
      assert drafts[..|drafts|] == drafts;
      recommendations := recommendations + stored;
      runs := runs[run.runId := run];
    }

    /** What `get_run` answers. */
    function Lookup(runId: string): Option<RunResult>
      reads this
    {
      if runId in runs then Some(runs[runId]) else None
    }
  }

  // ---- The orchestrator ----

  datatype Request = Request(runId: string, customerIds: seq<int>)

  /** Every requested customer exists. */
  predicate NoneMissing(ids: seq<int>, customers: map<int, Customer>) {
    forall i :: 0 <= i < |ids| ==> ids[i] in customers
  }

  /**
   The result of a run over the customers that were found.  A run whose commit raises is failed, but
   keeps the number of its drafts.
   */
  function Outcome(
      request: Request, stages: seq<Stage>, found: seq<Customer>, missing: bool, accepted: bool): RunResult
  {
    var rows := if missing then [] else RunRows(RunCell, stages, found, 0);
    if missing || AnyFailed(rows) then RunResult(request.runId, Broken, AllEvents(rows), 0, Some("stage_failed"))
    else if !accepted then
      RunResult(request.runId, Broken, AllEvents(rows), |AllDrafts(rows)|, Some("stage_failed"))
    else RunResult(request.runId, Finished, AllEvents(rows), |AllDrafts(rows)|, None)
  }

  // ---- What the loops have computed so far ----

  datatype Progress = Progress(events: seq<StageEvent>, drafts: seq<Draft>, failed: bool)

  /** The stages of one customer, in the order in which the inner loops go through them. */
  function StagesProgress(run: Runner, stages: seq<Stage>, input: Customer, p: Progress): Progress
    decreases stages
  {
    if stages == [] then p
    else
      var cell := run(stages[0], input, |p.events|);
      var q := Progress(p.events + cell.events, p.drafts + CellDrafts(cell), cell.output.None?);
      if q.failed then q else StagesProgress(run, stages[1..], cell.output.value.customer, q)
  }

  function CustomersProgress(run: Runner, stages: seq<Stage>, customers: seq<Customer>, p: Progress): Progress
    decreases customers
  {
    if customers == [] then p
    else
      var q := StagesProgress(run, stages, customers[0], p);
      if q.failed then q else CustomersProgress(run, stages, customers[1..], q)
  }

  lemma {:induction false} StagesStep(run: Runner, stages: seq<Stage>, input: Customer, p: Progress)
    requires stages != []
    ensures var cell := run(stages[0], input, |p.events|);
      StagesProgress(run, stages, input, p) ==
        if cell.output.None? then Progress(p.events + cell.events, p.drafts, true)
        else StagesProgress(run, stages[1..], cell.output.value.customer,
          Progress(p.events + cell.events, p.drafts + CellDrafts(cell), false))
  {
    assert p.drafts + [] == p.drafts;
  }

  function AfterRow(row: seq<Cell>, p: Progress): Progress {
    Progress(p.events + RowEvents(row), p.drafts + RowDrafts(row), RowFailed(row))
  }

  function AfterRows(rows: seq<seq<Cell>>, p: Progress): Progress {
    Progress(p.events + AllEvents(rows), p.drafts + AllDrafts(rows), AnyFailed(rows))
  }

  predicate Produced(rows: seq<seq<Cell>>, events: seq<StageEvent>, drafts: seq<Draft>, ok: bool) {
    events == AllEvents(rows) && drafts == AllDrafts(rows) && ok == !AnyFailed(rows)
  }

  lemma {:induction false} AfterNothing(p: Progress)
    requires !p.failed
    ensures AfterRow([], p) == p && AfterRows([], p) == p
  {
    assert p.events + [] == p.events && p.drafts + [] == p.drafts;
  }

  lemma {:induction false} RowCons(cell: Cell, rest: seq<Cell>, p: Progress)
    ensures var q := Progress(p.events + cell.events, p.drafts + CellDrafts(cell), cell.output.None?);
      AfterRow([cell] + rest, p) == if rest == [] then q else AfterRow(rest, q)
  {
    var row := [cell] + rest;
    assert row[1..] == rest;
    assert (p.events + cell.events) + RowEvents(rest) == p.events + (cell.events + RowEvents(rest));
    assert (p.drafts + CellDrafts(cell)) + RowDrafts(rest) == p.drafts + (CellDrafts(cell) + RowDrafts(rest));
  }

  lemma {:induction false} StagesProgressIs(run: Runner, stages: seq<Stage>, input: Customer, p: Progress)
    requires !p.failed
    ensures StagesProgress(run, stages, input, p) == AfterRow(RunRow(run, stages, input, |p.events|), p)
    decreases stages
  {
    if stages == [] {
      AfterNothing(p);
    } else {
      var cell := run(stages[0], input, |p.events|);
      var q := Progress(p.events + cell.events, p.drafts + CellDrafts(cell), cell.output.None?);
      if q.failed {
        RowCons(cell, [], p);
      } else {
        var rest := RunRow(run, stages[1..], cell.output.value.customer, |q.events|);
        StagesProgressIs(run, stages[1..], cell.output.value.customer, q);
        RowCons(cell, rest, p);
        AfterNothing(q);
      }
    }
  }

  lemma {:induction false} RowsCons(row: seq<Cell>, rest: seq<seq<Cell>>, p: Progress)
    ensures var q := AfterRow(row, p);
      AfterRows([row] + rest, p) == if rest == [] then q else AfterRows(rest, q)
  {
    var rows := [row] + rest;
    assert rows[1..] == rest;
    assert (p.events + RowEvents(row)) + AllEvents(rest) == p.events + (RowEvents(row) + AllEvents(rest));
    assert (p.drafts + RowDrafts(row)) + AllDrafts(rest) == p.drafts + (RowDrafts(row) + AllDrafts(rest));
  }

  lemma {:induction false} RowsProgressIs(run: Runner, stages: seq<Stage>, customers: seq<Customer>, p: Progress)
    requires !p.failed
    ensures CustomersProgress(run, stages, customers, p) == AfterRows(RunRows(run, stages, customers, |p.events|), p)
    decreases customers
  {
    if customers == [] {
      AfterNothing(p);
    } else {
      var rows, row := RunRows(run, stages, customers, |p.events|), RunRow(run, stages, customers[0], |p.events|);
      var q := AfterRow(row, p);
      StagesProgressIs(run, stages, customers[0], p);
      if q.failed {
        assert rows == [row] + [];
        RowsCons(row, [], p);
      } else {
        var rest := RunRows(run, stages, customers[1..], |q.events|);
        assert rows == [row] + rest;
        RowsProgressIs(run, stages, customers[1..], q);
        RowsCons(row, rest, p);
        AfterNothing(q);
      }
    }
  }

  lemma {:induction false} CustomersProgressIs(run: Runner, stages: seq<Stage>, customers: seq<Customer>)
    ensures var p := CustomersProgress(run, stages, customers, Progress([], [], false));
      Produced(RunRows(run, stages, customers, 0), p.events, p.drafts, !p.failed)
  {
    var rows := RunRows(run, stages, customers, 0);
    RowsProgressIs(run, stages, customers, Progress([], [], false));
    assert [] + AllEvents(rows) == AllEvents(rows) && [] + AllDrafts(rows) == AllDrafts(rows);
  }

  function FoundIds(found: seq<Customer>): set<int> {
    set c | c in found :: c.customerId
  }

  /** The set difference of the service is empty exactly when every requested id is known. */
  lemma {:induction false} MissingExactly(ids: seq<int>, customers: map<int, Customer>, found: seq<Customer>)
    requires KeyedById(customers) && Loaded(ids, customers, found)
    ensures (forall i :: 0 <= i < |ids| ==> ids[i] in FoundIds(found)) <==> NoneMissing(ids, customers)
  {
    forall i | 0 <= i < |ids| ensures ids[i] in customers <==> ids[i] in FoundIds(found) {
      PresentMembers(ids, customers, ids[i]);
      if ids[i] in customers { assert customers[ids[i]].customerId in FoundIds(found); }
    }
  }

  lemma {:induction false} PresentMembers(ids: seq<int>, customers: map<int, Customer>, id: int)
    requires KeyedById(customers)
    ensures id in ids && id in customers ==> customers[id] in Present(ids, customers)
    ensures forall i :: 0 <= i < |Present(ids, customers)| ==> Present(ids, customers)[i].customerId in customers
  {
    if ids != [] {
      PresentMembers(ids[..|ids| - 1], customers, id);
      assert id in ids ==> id in ids[..|ids| - 1] || id == ids[|ids| - 1];
    }
  }

  // ---- What is recommended, and when a run is finished ----

  predicate Recommends(cell: Cell) {
    cell.output.Some? && cell.output.value.recommendation.Some?
  }

  /** The cells of a run, customer by customer, and stage by stage within a customer. */
  function AllCells(rows: seq<seq<Cell>>): seq<Cell> {
    if rows == [] then [] else rows[0] + AllCells(rows[1..])
  }

  /** The drafts are the recommendations of the cells that have one, each once and in their order. */
  predicate Recommended(cells: seq<Cell>, drafts: seq<Draft>) {
    var hits := Filter(cells, Recommends);
    && |drafts| == |hits|
    && forall i :: 0 <= i < |hits| ==>
        hits[i].output.Some? && hits[i].output.value.recommendation == Some(drafts[i])
  }

  lemma {:induction false} RecommendedConcat(a: seq<Cell>, b: seq<Cell>, c: seq<Draft>, d: seq<Draft>)
    requires Recommended(a, c) && Recommended(b, d)
    ensures Recommended(a + b, c + d)
  {
    FilterConcat(a, b, Recommends);
  }

  lemma {:induction false} CellRecommended(cell: Cell)
    ensures Recommended([cell], CellDrafts(cell))
  {
    assert [cell][1..] == [] && Filter([cell][1..], Recommends) == [];
  }

  lemma {:induction false} RowRecommended(row: seq<Cell>)
    ensures Recommended(row, RowDrafts(row))
  {
    if row != [] {
      RowRecommended(row[1..]);
      CellRecommended(row[0]);
      RecommendedConcat([row[0]], row[1..], CellDrafts(row[0]), RowDrafts(row[1..]));
      assert row == [row[0]] + row[1..];
    }
  }

  /** What is collected is what the stages recommended: nothing else, nothing twice, and in order. */
  lemma {:induction false} DraftsAreRecommended(rows: seq<seq<Cell>>)
    ensures Recommended(AllCells(rows), AllDrafts(rows))
  {
    if rows != [] {
      RowRecommended(rows[0]);
      DraftsAreRecommended(rows[1..]);
      RecommendedConcat(rows[0], AllCells(rows[1..]), RowDrafts(rows[0]), AllDrafts(rows[1..]));
    }
  }

  predicate RecommendsDraft(cell: Cell, d: Draft) {
    cell.output.Some? && cell.output.value.recommendation == Some(d)
  }

  /** A draft is collected exactly if some stage recommended it for some customer. */
  lemma {:induction false} DraftMembers(rows: seq<seq<Cell>>, d: Draft)
    ensures d in AllDrafts(rows) <==>
      exists c, k :: 0 <= c < |rows| && 0 <= k < |rows[c]| && RecommendsDraft(rows[c][k], d)
  {
    var cells, drafts := AllCells(rows), AllDrafts(rows);
    var hits := Filter(cells, Recommends);
    DraftsAreRecommended(rows);
    if d in drafts {
      var i :| 0 <= i < |drafts| && drafts[i] == d;
      assert hits[i] in cells && RecommendsDraft(hits[i], d);
      CellMembers(rows, hits[i]);
    }
    if c, k :| 0 <= c < |rows| && 0 <= k < |rows[c]| && RecommendsDraft(rows[c][k], d) {
      CellMembers(rows, rows[c][k]);
      assert rows[c][k] in hits;
      var i :| 0 <= i < |hits| && hits[i] == rows[c][k];
      assert drafts[i] == d;
    }
  }

  lemma {:induction false} CellMembers(rows: seq<seq<Cell>>, cell: Cell)
    ensures cell in AllCells(rows) <==> exists c, k :: 0 <= c < |rows| && 0 <= k < |rows[c]| && rows[c][k] == cell
  {
    if rows != [] {
      CellMembers(rows[1..], cell);
      assert forall c :: 0 <= c < |rows[1..]| ==> rows[1..][c] == rows[c + 1];
      if k :| 0 <= k < |rows[0]| && rows[0][k] == cell { assert cell in AllCells(rows); }
      if c, k :| 0 <= c < |rows[1..]| && 0 <= k < |rows[1..][c]| && rows[1..][c][k] == cell {
        assert rows[c + 1][k] == cell;
      }
    }
  }

  /** No stage failed twice for any customer. */
  predicate EveryStageSucceeded(rows: seq<seq<Cell>>) {
    forall c :: 0 <= c < |rows| ==> RowSucceeded(rows[c])
  }

  predicate RowSucceeded(row: seq<Cell>) {
    forall k :: 0 <= k < |row| ==> row[k].output.Some?
  }

  /** These recommendations of these cells, in order, each with the version after those stored before. */
  predicate Appends(before: seq<Stored>, after: seq<Stored>, cells: seq<Cell>, runId: string) {
    var hits := Filter(cells, Recommends);
    && |after| == |before| + |hits| && before <= after
    && forall i :: 0 <= i < |hits| ==>
        var s := after[|before| + i];
        && hits[i].output.Some? && hits[i].output.value.recommendation == Some(s.draft)
        && s.runId == runId && s.version == CountFor(before, s.draft.customerId) + 1
  }

  lemma {:induction false} BatchAppends(before: seq<Stored>, drafts: seq<Draft>, cells: seq<Cell>, runId: string)
    requires Recommended(cells, drafts)
    ensures Appends(before, before + Batch(before, drafts, runId), cells, runId)
  {
    var batch := Batch(before, drafts, runId);
    assert forall i :: 0 <= i < |batch| ==> (before + batch)[|before| + i] == batch[i];
  }

  // ---- The orchestrator as it is written ----

  /** The drafts a run commits: none when it failed or its commit raised. */
  function Committed(stages: seq<Stage>, found: seq<Customer>, missing: bool, accepted: bool): seq<Draft> {
    var rows := if missing then [] else RunRows(RunCell, stages, found, 0);
    if missing || AnyFailed(rows) || !accepted then [] else AllDrafts(rows)
  }

  class NbaOrchestrator {
    const repository: InMemoryNbaRepository
    const stages: seq<Stage>

    constructor (repository: InMemoryNbaRepository, stages: seq<Stage>)
      ensures this.repository == repository && this.stages == stages
    {
      this.repository := repository;
      this.stages := stages;
    }

    /** One stage with its two attempts: appends the stage's events, answers its output or None when both failed. */
    method RunStage(stage: Stage, customer: Customer, log: seq<StageEvent>)
      returns (events: seq<StageEvent>, output: Option<Output>)
      ensures events == log + RunCell(stage, customer, |log|).events && output == RunCell(stage, customer, |log|).output
    {
      events := log;
      output := None;
      var attempt := 1;
      while attempt <= 2
        invariant 1 <= attempt <= 3
        invariant output.None?
        invariant attempt == 1 ==> events == log
        invariant attempt >= 2 ==> stage.execute(|log|, customer).None?
        invariant attempt == 2 ==> events == log + [Failure(stage, customer, 1, |log|)]
        invariant attempt == 3 ==> stage.execute(|log| + 1, customer).None?
        invariant attempt == 3 ==>
          events == log + [Failure(stage, customer, 1, |log|), Failure(stage, customer, 2, |log| + 1)]
      {
        output := stage.execute(|events|, customer);
        if output.Some? {
          events := events + [Success(stage, customer, attempt, output.value)];
          return;
        }
        events := events + [Failure(stage, customer, attempt, |events|)];
        attempt := attempt + 1;
      }
    }

    /** All stages for one customer; false when a stage failed twice. */
    method RunCustomer(customer: Customer, log: seq<StageEvent>, before: seq<Draft>)
      returns (events: seq<StageEvent>, drafts: seq<Draft>, ok: bool)
      ensures Progress(events, drafts, !ok) == StagesProgress(RunCell, stages, customer, Progress(log, before, false))
    {
      events, drafts, ok := log, before, true;
      var current := customer;
      assert stages[0..] == stages;
      var i := 0;
      while i < |stages|
        invariant 0 <= i <= |stages| && ok
        invariant StagesProgress(RunCell, stages, customer, Progress(log, before, false))
          == StagesProgress(RunCell, stages[i..], current, Progress(events, drafts, false))
      {
        assert stages[i..][0] == stages[i] && stages[i..][1..] == stages[i + 1..];
        var more, output := RunStage(stages[i], current, events);
        StagesStep(RunCell, stages[i..], current, Progress(events, drafts, false));
        assert drafts + [] == drafts;
        events := more;
        if output.None? {
          ok := false;
          return;
        }
        if output.value.recommendation.Some? { drafts := drafts + [output.value.recommendation.value]; }
        current := output.value.customer;
        i := i + 1;
      }
    }

    /** All customers in order; false when the run stopped at a stage that failed twice. */
    method RunCustomers(customers: seq<Customer>)
      returns (events: seq<StageEvent>, drafts: seq<Draft>, ok: bool)
      ensures Produced(RunRows(RunCell, stages, customers, 0), events, drafts, ok)
    {
      events, drafts, ok := [], [], true;
      CustomersProgressIs(RunCell, stages, customers);
      assert customers[0..] == customers;
      var i := 0;
      while i < |customers|
        invariant 0 <= i <= |customers| && ok
        invariant CustomersProgress(RunCell, stages, customers, Progress([], [], false))
          == CustomersProgress(RunCell, stages, customers[i..], Progress(events, drafts, false))
      {
        assert customers[i..][0] == customers[i] && customers[i..][1..] == customers[i + 1..];
        events, drafts, ok := RunCustomer(customers[i], events, drafts);
        if !ok { return; }
        i := i + 1;
      }
    }

    /** `run`: the three loops, then the commit, which may be `accepted` or raise, or the record of the failure. */
    method Run(request: Request, accepted: bool) returns (result: RunResult, ghost found: seq<Customer>)
      requires repository.Valid()
      modifies repository`runs, repository`recommendations
      ensures Loaded(request.customerIds, repository.customers, found)
      ensures result
        == Outcome(request, stages, found, !NoneMissing(request.customerIds, repository.customers), accepted)
      ensures repository.runs == old(repository.runs)[request.runId := result]
      ensures repository.Lookup(request.runId) == Some(result)
      ensures var rows := RunRows(RunCell, stages, found, 0);
        result.status == Finished <==>
          accepted && NoneMissing(request.customerIds, repository.customers) && EveryStageSucceeded(rows)
      ensures result.status == Finished ==>
        Appends(old(repository.recommendations), repository.recommendations,
          AllCells(RunRows(RunCell, stages, found, 0)), request.runId)
      ensures result.status != Finished ==>
        result.status == Broken && repository.recommendations == old(repository.recommendations)
    {
      result, found := RunAndStore(request, accepted);
      RunAppends(old(repository.recommendations), request, stages, found,
        !NoneMissing(request.customerIds, repository.customers), accepted);
    }

    method RunAndStore(request: Request, accepted: bool) returns (result: RunResult, ghost found: seq<Customer>)
      requires repository.Valid()
      modifies repository`runs, repository`recommendations
      ensures Loaded(request.customerIds, repository.customers, found)
      ensures result
        == Outcome(request, stages, found, !NoneMissing(request.customerIds, repository.customers), accepted)
      ensures repository.runs == old(repository.runs)[request.runId := result]
      ensures repository.recommendations == old(repository.recommendations)
        + Batch(old(repository.recommendations),
                Committed(stages, found, !NoneMissing(request.customerIds, repository.customers), accepted),
                request.runId)
    {
      repository.SaveRun(RunResult(request.runId, Running, [], 0, None));
      var customers, missing := Find(request);
      found := customers;
      var drafts: seq<Draft>;
      result, drafts := RunAll(request, customers, missing);
      result := Conclude(result, drafts, accepted);
    }

    /** The requested customers, and whether one of them is missing. */
    method Find(request: Request) returns (customers: seq<Customer>, missing: bool)
      requires repository.Valid()
      ensures Loaded(request.customerIds, repository.customers, customers)
      ensures missing == !NoneMissing(request.customerIds, repository.customers)
    {
      customers := repository.LoadCustomers(request.customerIds);
      MissingExactly(request.customerIds, repository.customers, customers);
      var foundIds := FoundIds(customers);
      missing := !(forall i :: 0 <= i < |request.customerIds| ==> request.customerIds[i] in foundIds);
    }

    /** The loops, unless a requested customer is missing, and the result they give. */
    method RunAll(request: Request, customers: seq<Customer>, missing: bool)
      returns (result: RunResult, drafts: seq<Draft>)
      ensures result == Outcome(request, stages, customers, missing, true)
      ensures drafts == Committed(stages, customers, missing, true)
      ensures result.status != Finished ==> drafts == []
    {
      var events: seq<StageEvent>, ok := [], false;
      drafts := [];
      if !missing {
        events, drafts, ok := RunCustomers(customers);
      }
      if ok {
        result := RunResult(request.runId, Finished, events, |drafts|, None);
      } else {
        result := RunResult(request.runId, Broken, events, 0, Some("stage_failed"));
        drafts := [];
      }
    }

    /** The commit of a finished run, or the record of one that failed there or before. */
    method Conclude(run: RunResult, drafts: seq<Draft>, accepted: bool) returns (result: RunResult)
      requires run.status != Finished ==> drafts == []
      modifies repository`runs, repository`recommendations
      ensures result == if run.status == Finished && !accepted
        then run.(status := Broken, errorCode := Some("stage_failed")) else run
      ensures repository.runs == old(repository.runs)[run.runId := result]
      ensures repository.recommendations == old(repository.recommendations)
        + Batch(old(repository.recommendations), if accepted then drafts else [], run.runId)
    {
      result := run;
      if result.status == Finished {
        var ok, _ := repository.CommitSuccess(result, drafts, accepted);
        if ok { return; }
        result := result.(status := Broken, errorCode := Some("stage_failed"));
      }
      repository.SaveRun(result);
      assert Batch(repository.recommendations, [], run.runId) == [];
    }
  }

  // ---- The trace of a run ----

  predicate SameStage(a: StageEvent, b: StageEvent) {
    a.stage == b.stage && a.customerId == b.customerId
  }

  predicate FirstFailure(e: StageEvent) {
    e.status == Failed && e.attempt == 1
  }

  /** Event i of a trace: a first failure is followed by the second attempt, a second failure ends the trace. */
  predicate FitsAt(es: seq<StageEvent>, i: nat)
    requires i < |es|
  {
    && es[i].attempt in {1, 2}
    && (FirstFailure(es[i]) ==> i + 1 < |es| && es[i + 1].attempt == 2 && SameStage(es[i], es[i + 1]))
    && (es[i].attempt == 2 ==> i > 0 && FirstFailure(es[i - 1]) && SameStage(es[i - 1], es[i]))
    && (es[i].status == Failed && es[i].attempt == 2 ==> i == |es| - 1)
  }

  predicate WellRetried(es: seq<StageEvent>) {
    forall i :: 0 <= i < |es| ==> FitsAt(es, i)
  }

  predicate EndsInFailure(es: seq<StageEvent>) {
    es != [] && es[|es| - 1].status == Failed
  }

  lemma {:induction false} RetriedConcat(a: seq<StageEvent>, b: seq<StageEvent>)
    requires WellRetried(a) && WellRetried(b) && !EndsInFailure(a)
    ensures WellRetried(a + b)
    ensures b != [] ==> (EndsInFailure(a + b) <==> EndsInFailure(b))
  {
    var es := a + b;
    forall i | 0 <= i < |es| ensures FitsAt(es, i) {
      if i < |a| {
        assert FitsAt(a, i);
      } else {
        assert FitsAt(b, i - |a|);
        assert es[i] == b[i - |a|] && (i > |a| ==> es[i - 1] == b[i - |a| - 1]);
      }
    }
  }

  predicate Succeeded(e: StageEvent) {
    e.status != Failed
  }

  function Names(es: seq<StageEvent>): seq<string> {
    seq(|es|, i requires 0 <= i < |es| => es[i].stage)
  }

  function StageNames(stages: seq<Stage>): seq<string> {
    seq(|stages|, i requires 0 <= i < |stages| => stages[i].name)
  }

  /** The stages that succeeded, in the order of the trace. */
  function Done(es: seq<StageEvent>): seq<string> {
    Names(Filter(es, Succeeded))
  }

  lemma {:induction false} DoneConcat(a: seq<StageEvent>, b: seq<StageEvent>)
    ensures Done(a + b) == Done(a) + Done(b)
  {
    FilterConcat(a, b, Succeeded);
  }

  function Repeat(names: seq<string>, n: nat): seq<string> {
    if n == 0 then [] else names + Repeat(names, n - 1)
  }

  lemma {:induction false} DoneOne(e: StageEvent)
    ensures Done([e]) == if e.status == Failed then [] else [e.stage]
  {
    var rest := [e][1..];
    assert rest == [] && Filter(rest, Succeeded) == [];
    assert Filter([e], Succeeded) == if e.status == Failed then [] else [e] + [];
  }

  /**
   A trace over a list of stage names.  One that did not fail has a success for every name, in
   order; one that failed is such a trace cut short, and its last event is a second failure.
   Every event stands for one execution, and no name is executed more than twice.
   */
  predicate Trace(es: seq<StageEvent>, names: seq<string>, failed: bool) {
    && WellRetried(es)
    && |es| <= 2 * |names|
    && (failed <==> EndsInFailure(es))
    && (if failed then Done(es) < names else Done(es) == names)
  }

  lemma {:induction false} TraceConcat(
      a: seq<StageEvent>, b: seq<StageEvent>, an: seq<string>, bn: seq<string>, failed: bool)
    requires Trace(a, an, false) && Trace(b, bn, failed)
    ensures Trace(a + b, an + bn, failed)
  {
    RetriedConcat(a, b);
    DoneConcat(a, b);
    if b == [] { assert a + b == a; }
  }

  lemma {:induction false} CutShort(es: seq<StageEvent>, names: seq<string>, more: seq<string>)
    requires Trace(es, names, true)
    ensures Trace(es, names + more, true)
  {
  }

  lemma {:induction false} CellTrace(stage: Stage, input: Customer, n: nat)
    ensures var cell := RunCell(stage, input, n);
      Trace(cell.events, [stage.name], cell.output.None?)
  {
    var cell := RunCell(stage, input, n);
    DoneOne(cell.events[0]);
    if |cell.events| == 2 {
      assert cell.events == [cell.events[0]] + [cell.events[1]];
      DoneConcat([cell.events[0]], [cell.events[1]]);
      DoneOne(cell.events[1]);
    } else {
      assert cell.events == [cell.events[0]];
    }
  }

  /** A cell and the rest of its row, if there is one. */
  lemma {:induction false} CellThenRow(
      cell: Cell, rest: seq<Cell>, row: seq<Cell>, name: string, names: seq<string>, all: seq<string>)
    requires row == [cell] + rest && all == [name] + names
    requires Trace(cell.events, [name], cell.output.None?)
    requires if cell.output.Some? then RowFits(rest, names) else rest == []
    ensures RowFits(row, all)
  {
    RowOf(cell, rest);
    if cell.output.Some? {
      TraceConcat(cell.events, RowEvents(rest), [name], names, RowFailed(rest));
    } else {
      CutShort(cell.events, [name], names);
    }
  }

  /** Every cell of the runner is the trace of its stage. */
  ghost predicate Traces(run: Runner) {
    forall stage, input, n :: CellFits(stage, run(stage, input, n))
  }

  predicate CellFits(stage: Stage, cell: Cell) {
    Trace(cell.events, [stage.name], cell.output.None?)
  }

  lemma {:induction false} RunCellTraces()
    ensures Traces(RunCell)
  {
    forall stage, input, n ensures CellFits(stage, RunCell(stage, input, n)) {
      CellTrace(stage, input, n);
    }
  }

  predicate RowFits(row: seq<Cell>, names: seq<string>) {
    Trace(RowEvents(row), names, RowFailed(row))
  }

  lemma {:induction false} NamesUnfold(stages: seq<Stage>)
    requires stages != []
    ensures StageNames(stages) == [stages[0].name] + StageNames(stages[1..])
  {
  }

  lemma {:induction false} RowTrace(run: Runner, stages: seq<Stage>, input: Customer, n: nat)
    requires Traces(run)
    ensures RowFits(RunRow(run, stages, input, n), StageNames(stages))
    decreases stages
  {
    var row := RunRow(run, stages, input, n);
    if stages == [] {
      NothingFits(row, StageNames(stages));
    } else {
      var cell, names := run(stages[0], input, n), StageNames(stages[1..]);
      NamesUnfold(stages);
      assert CellFits(stages[0], cell);
      if cell.output.None? {
        assert row == [cell] + [];
        CellThenRow(cell, [], row, stages[0].name, names, StageNames(stages));
      } else {
        var rest := RunRow(run, stages[1..], cell.output.value.customer, n + |cell.events|);
        assert row == [cell] + rest;
        RowTrace(run, stages[1..], cell.output.value.customer, n + |cell.events|);
        CellThenRow(cell, rest, row, stages[0].name, names, StageNames(stages));
      }
    }
  }

  lemma {:induction false} NothingFits(row: seq<Cell>, names: seq<string>)
    requires row == [] && names == []
    ensures RowFits(row, names)
  {
  }

  lemma {:induction false} RowOf(cell: Cell, rest: seq<Cell>)
    ensures var row := [cell] + rest;
      && RowEvents(row) == cell.events + RowEvents(rest)
      && (rest == [] ==> RowEvents(row) == cell.events)
      && (RowFailed(row) <==> if rest == [] then cell.output.None? else RowFailed(rest))
  {
    assert ([cell] + rest)[1..] == rest && cell.events + [] == cell.events;
  }

  lemma {:induction false} RowsOf(row: seq<Cell>, rest: seq<seq<Cell>>)
    ensures var rows := [row] + rest;
      && AllEvents(rows) == RowEvents(row) + AllEvents(rest)
      && (rest == [] ==> AllEvents(rows) == RowEvents(row))
      && (AnyFailed(rows) <==> if rest == [] then RowFailed(row) else AnyFailed(rest))
  {
    assert ([row] + rest)[1..] == rest && RowEvents(row) + [] == RowEvents(row);
  }

  /** The events of the rows form a trace. */
  predicate RowsFit(rows: seq<seq<Cell>>, names: seq<string>) {
    Trace(AllEvents(rows), names, AnyFailed(rows))
  }

  lemma {:induction false} FailedRow(row: seq<Cell>, names: seq<string>, others: seq<string>)
    requires RowFits(row, names) && RowFailed(row)
    ensures RowsFit([row], names + others)
  {
    RowsOf(row, []);
    assert [row] + [] == [row];
    CutShort(RowEvents(row), names, others);
  }

  lemma {:induction false} RowThenRows(row: seq<Cell>, rest: seq<seq<Cell>>, names: seq<string>, others: seq<string>)
    requires RowFits(row, names) && !RowFailed(row) && RowsFit(rest, others)
    ensures RowsFit([row] + rest, names + others)
  {
    RowsOf(row, rest);
    TraceConcat(RowEvents(row), AllEvents(rest), names, others, AnyFailed(rest));
  }

  predicate OnlyLastFails(rows: seq<seq<Cell>>) {
    forall c :: 0 <= c < |rows| - 1 ==> !RowFailed(rows[c])
  }

  /** Every row fits, only the last may have failed, and if it did not there is one for every customer. */
  predicate RowsInOrder(rows: seq<seq<Cell>>, names: seq<string>, count: nat) {
    && (forall c :: 0 <= c < |rows| ==> RowFits(rows[c], names))
    && OnlyLastFails(rows)
    && (if AnyFailed(rows) then |rows| <= count else |rows| == count)
  }

  lemma {:induction false} LaterRowsInOrder(rows: seq<seq<Cell>>, names: seq<string>, count: nat)
    requires rows != [] && RowsInOrder(rows, names, count) && !RowFailed(rows[0])
    ensures count > 0 && RowsInOrder(rows[1..], names, count - 1)
  {
    var rest := rows[1..];
    assert forall c :: 0 <= c < |rest| ==> rest[c] == rows[c + 1];
  }

  lemma {:induction false} RowsTrace(rows: seq<seq<Cell>>, names: seq<string>, count: nat)
    requires RowsInOrder(rows, names, count)
    ensures RowsFit(rows, Repeat(names, count))
    decreases rows
  {
    if rows != [] {
      if RowFailed(rows[0]) {
        assert rows == [rows[0]];
        FailedRow(rows[0], names, Repeat(names, count - 1));
      } else {
        assert rows == [rows[0]] + rows[1..];
        LaterRowsInOrder(rows, names, count);
        RowsTrace(rows[1..], names, count - 1);
        RowThenRows(rows[0], rows[1..], names, Repeat(names, count - 1));
      }
    }
  }

  lemma {:induction false} RepeatLength(names: seq<string>, n: nat)
    ensures |Repeat(names, n)| == n * |names|
  {
    if n > 0 {
      RepeatLength(names, n - 1);
      assert n * |names| == |names| + (n - 1) * |names|;
    }
  }

  // ---- What each stage sees ----

  /** Cell `s` of a row is stage `s` run on the previous stage's output, after all earlier executions. */
  predicate SeesPrevious(run: Runner, stages: seq<Stage>, customer: Customer, row: seq<Cell>, s: nat, n: nat)
    requires s < |row| <= |stages|
  {
    && (s > 0 ==> row[s - 1].output.Some?)
    && var input := if s == 0 then customer else row[s - 1].output.value.customer;
      row[s] == run(stages[s], input, n + |RowEvents(row[..s])|)
  }

  lemma {:induction false} LaterStage(
      run: Runner, stages: seq<Stage>, customer: Customer, cell: Cell, rest: seq<Cell>, s: nat, n: nat)
    requires 0 < s <= |rest| < |stages| && cell.output.Some?
    requires SeesPrevious(run, stages[1..], cell.output.value.customer, rest, s - 1, n + |cell.events|)
    ensures SeesPrevious(run, stages, customer, [cell] + rest, s, n)
  {
    assert ([cell] + rest)[..s] == [cell] + rest[..s - 1];
    RowOf(cell, rest[..s - 1]);
  }

  lemma {:induction false} StagesSeePrevious(run: Runner, stages: seq<Stage>, customer: Customer, n: nat)
    ensures var row := RunRow(run, stages, customer, n);
      |row| <= |stages| && forall s :: 0 <= s < |row| ==> SeesPrevious(run, stages, customer, row, s, n)
    decreases stages
  {
    if stages != [] {
      var row, cell := RunRow(run, stages, customer, n), run(stages[0], customer, n);
      var rest :=
        if cell.output.None? then [] else RunRow(run, stages[1..], cell.output.value.customer, n + |cell.events|);
      assert row == [cell] + rest;
      if cell.output.Some? { StagesSeePrevious(run, stages[1..], cell.output.value.customer, n + |cell.events|); }
      forall s | 0 <= s < |row| ensures SeesPrevious(run, stages, customer, row, s, n) {
        if s > 0 { LaterStage(run, stages, customer, cell, rest, s, n); }
      }
    }
  }

  /** Row `c` of a run is customer `c` from its own snapshot, after everything executed for those before it. */
  predicate StartsFromCustomer(
      run: Runner, stages: seq<Stage>, customers: seq<Customer>, rows: seq<seq<Cell>>, c: nat, n: nat)
    requires c < |rows| <= |customers|
  {
    rows[c] == RunRow(run, stages, customers[c], n + |AllEvents(rows[..c])|)
  }

  lemma {:induction false} LaterCustomer(
      run: Runner, stages: seq<Stage>, customers: seq<Customer>, row: seq<Cell>, rest: seq<seq<Cell>>, c: nat, n: nat)
    requires 0 < c <= |rest| < |customers|
    requires StartsFromCustomer(run, stages, customers[1..], rest, c - 1, n + |RowEvents(row)|)
    ensures StartsFromCustomer(run, stages, customers, [row] + rest, c, n)
  {
    assert ([row] + rest)[..c] == [row] + rest[..c - 1];
    RowsOf(row, rest[..c - 1]);
  }

  lemma {:induction false} FirstCustomer(
      run: Runner, stages: seq<Stage>, customers: seq<Customer>, row: seq<Cell>, rest: seq<seq<Cell>>, n: nat)
    requires |rest| < |customers| && row == RunRow(run, stages, customers[0], n)
    ensures StartsFromCustomer(run, stages, customers, [row] + rest, 0, n)
  {
    assert ([row] + rest)[..0] == [];
  }

  predicate AllStart(run: Runner, stages: seq<Stage>, customers: seq<Customer>, rows: seq<seq<Cell>>, n: nat) {
    |rows| <= |customers| && forall c :: 0 <= c < |rows| ==> StartsFromCustomer(run, stages, customers, rows, c, n)
  }

  lemma {:induction false} OneMoreCustomer(
      run: Runner, stages: seq<Stage>, customers: seq<Customer>, row: seq<Cell>, rest: seq<seq<Cell>>, n: nat)
    requires customers != [] && row == RunRow(run, stages, customers[0], n)
    requires AllStart(run, stages, customers[1..], rest, n + |RowEvents(row)|)
    ensures AllStart(run, stages, customers, [row] + rest, n)
  {
    FirstCustomer(run, stages, customers, row, rest, n);
    forall c | 0 <= c < |[row] + rest| ensures StartsFromCustomer(run, stages, customers, [row] + rest, c, n) {
      if c > 0 { LaterCustomer(run, stages, customers, row, rest, c, n); }
    }
  }

  lemma {:induction false} CustomersInOrder(run: Runner, stages: seq<Stage>, customers: seq<Customer>, n: nat)
    ensures AllStart(run, stages, customers, RunRows(run, stages, customers, n), n)
    decreases customers
  {
    if customers != [] {
      var rows, row := RunRows(run, stages, customers, n), RunRow(run, stages, customers[0], n);
      var m := n + |RowEvents(row)|;
      var rest := if RowFailed(row) then [] else RunRows(run, stages, customers[1..], m);
      if !RowFailed(row) { CustomersInOrder(run, stages, customers[1..], m); }
      assert rows == [row] + rest;
      OneMoreCustomer(run, stages, customers, row, rest, n);
    }
  }

  /** Unless it failed, a run has a row for every customer. */
  predicate Serves(rows: seq<seq<Cell>>, customers: seq<Customer>) {
    AnyFailed(rows) || |rows| == |customers|
  }

  lemma {:induction false} StopsServing(row: seq<Cell>, customers: seq<Customer>)
    requires RowFailed(row)
    ensures Serves([row], customers)
  {
  }

  lemma {:induction false} ServesOneMore(row: seq<Cell>, rest: seq<seq<Cell>>, customers: seq<Customer>)
    requires customers != [] && !RowFailed(row) && Serves(rest, customers[1..])
    ensures Serves([row] + rest, customers)
  {
    RowsOf(row, rest);
  }

  lemma {:induction false} EveryoneIsServed(run: Runner, stages: seq<Stage>, customers: seq<Customer>, n: nat)
    ensures Serves(RunRows(run, stages, customers, n), customers)
    decreases customers
  {
    if customers != [] {
      var row := RunRow(run, stages, customers[0], n);
      var m := n + |RowEvents(row)|;
      if RowFailed(row) {
        StopsServing(row, customers);
        assert RunRows(run, stages, customers, n) == [row];
      } else {
        EveryoneIsServed(run, stages, customers[1..], m);
        ServesOneMore(row, RunRows(run, stages, customers[1..], m), customers);
      }
    }
  }

  lemma {:induction false} NoneFailsBefore(row: seq<Cell>, rest: seq<seq<Cell>>)
    requires !RowFailed(row) && OnlyLastFails(rest)
    ensures OnlyLastFails([row] + rest)
  {
  }

  lemma {:induction false} FailureIsLast(run: Runner, stages: seq<Stage>, customers: seq<Customer>, n: nat)
    ensures OnlyLastFails(RunRows(run, stages, customers, n))
    decreases customers
  {
    if customers != [] {
      var row := RunRow(run, stages, customers[0], n);
      if !RowFailed(row) {
        var m := n + |RowEvents(row)|;
        FailureIsLast(run, stages, customers[1..], m);
        NoneFailsBefore(row, RunRows(run, stages, customers[1..], m));
      }
    }
  }

  lemma {:induction false} RunRowsInOrder(stages: seq<Stage>, customers: seq<Customer>)
    ensures RowsInOrder(RunRows(RunCell, stages, customers, 0), StageNames(stages), |customers|)
  {
    var rows := RunRows(RunCell, stages, customers, 0);
    RunCellTraces();
    FailureIsLast(RunCell, stages, customers, 0);
    EveryoneIsServed(RunCell, stages, customers, 0);
    CustomersInOrder(RunCell, stages, customers, 0);
    forall c | 0 <= c < |rows| ensures RowFits(rows[c], StageNames(stages)) {
      assert StartsFromCustomer(RunCell, stages, customers, rows, c, 0);
      RowTrace(RunCell, stages, customers[c], |AllEvents(rows[..c])|);
    }
  }

  /**
   The trace of a run: customer by customer and stage by stage in order, one success each,
   preceded by at most one first failure; a run failed by a stage is such a trace cut short at a
   second failure; and at most 2 * customers * stages executions are made.
   */
  lemma {:induction false} RunTrace(stages: seq<Stage>, customers: seq<Customer>)
    ensures var rows := RunRows(RunCell, stages, customers, 0);
      && Trace(AllEvents(rows), Repeat(StageNames(stages), |customers|), AnyFailed(rows))
      && |AllEvents(rows)| <= 2 * (|customers| * |stages|)
  {
    RunRowsInOrder(stages, customers);
    RowsTrace(RunRows(RunCell, stages, customers, 0), StageNames(stages), |customers|);
    RepeatLength(StageNames(stages), |customers|);
  }

  /** Every cell but the last of a row has an output. */
  predicate GoesOn(row: seq<Cell>) {
    forall k :: 0 <= k < |row| - 1 ==> row[k].output.Some?
  }

  lemma {:induction false} RowGoesOn(run: Runner, stages: seq<Stage>, customer: Customer, n: nat)
    ensures GoesOn(RunRow(run, stages, customer, n))
  {
    var row := RunRow(run, stages, customer, n);
    StagesSeePrevious(run, stages, customer, n);
    forall k | 0 <= k < |row| - 1 ensures row[k].output.Some? {
      assert SeesPrevious(run, stages, customer, row, k + 1, n);
    }
  }

  lemma {:induction false} RowsGoOn(run: Runner, stages: seq<Stage>, customers: seq<Customer>, n: nat)
    ensures forall c :: 0 <= c < |RunRows(run, stages, customers, n)| ==> GoesOn(RunRows(run, stages, customers, n)[c])
    decreases customers
  {
    if customers != [] {
      var row := RunRow(run, stages, customers[0], n);
      RowGoesOn(run, stages, customers[0], n);
      if !RowFailed(row) { RowsGoOn(run, stages, customers[1..], n + |RowEvents(row)|); }
    }
  }

  lemma {:induction false} RowsSucceed(rows: seq<seq<Cell>>)
    requires OnlyLastFails(rows) && forall c :: 0 <= c < |rows| ==> GoesOn(rows[c])
    ensures EveryStageSucceeded(rows) <==> !AnyFailed(rows)
  {
    forall c | 0 <= c < |rows| ensures RowSucceeded(rows[c]) <==> !RowFailed(rows[c]) {
      assert GoesOn(rows[c]);
    }
    if AnyFailed(rows) { assert !RowSucceeded(rows[|rows| - 1]); }
  }

  lemma {:induction false} SucceededExactly(run: Runner, stages: seq<Stage>, customers: seq<Customer>, n: nat)
    ensures var rows := RunRows(run, stages, customers, n);
      EveryStageSucceeded(rows) <==> !AnyFailed(rows)
  {
    FailureIsLast(run, stages, customers, n);
    RowsGoOn(run, stages, customers, n);
    RowsSucceed(RunRows(run, stages, customers, n));
  }

  /**
   A run is finished exactly if every requested customer exists, no stage failed twice for any of
   them, and the commit went through; otherwise it is failed, with its code.  Its recommendations are
   counted if all stages succeeded, and committed if it is finished.
   */
  lemma {:induction false} RunExactly(
      request: Request, stages: seq<Stage>, found: seq<Customer>, missing: bool, accepted: bool)
    ensures var rows := RunRows(RunCell, stages, found, 0);
      var r, drafts := Outcome(request, stages, found, missing, accepted), Committed(stages, found, missing, accepted);
      && (r.status == Finished <==> accepted && !missing && EveryStageSucceeded(rows))
      && (r.status != Finished ==> r.status == Broken && drafts == [])
      && r.runId == request.runId && r.errorCode == (if r.status == Finished then None else Some("stage_failed"))
      && (r.status == Finished ==> Recommended(AllCells(rows), drafts))
      && r.recommendationCount ==
        if missing || !EveryStageSucceeded(rows) then 0 else |Filter(AllCells(rows), Recommends)|
  {
    var rows := RunRows(RunCell, stages, found, 0);
    SucceededExactly(RunCell, stages, found, 0);
    DraftsAreRecommended(rows);
  }

  /** What a run leaves in the list of recommendations. */
  lemma {:induction false} RunAppends(
      before: seq<Stored>, request: Request, stages: seq<Stage>, found: seq<Customer>, missing: bool, accepted: bool)
    ensures var rows := RunRows(RunCell, stages, found, 0);
      var status := Outcome(request, stages, found, missing, accepted).status;
      var after := before + Batch(before, Committed(stages, found, missing, accepted), request.runId);
      && (status == Finished <==> accepted && !missing && EveryStageSucceeded(rows))
      && (status == Finished ==> Appends(before, after, AllCells(rows), request.runId))
      && (status != Finished ==> status == Broken && after == before)
  {
    var rows, drafts := RunRows(RunCell, stages, found, 0), Committed(stages, found, missing, accepted);
    RunExactly(request, stages, found, missing, accepted);
    if Outcome(request, stages, found, missing, accepted).status == Finished {
      BatchAppends(before, drafts, AllCells(rows), request.runId);
    } else {
      assert before + Batch(before, [], request.runId) == before;
    }
  }

  // ---- What one stage logs ----

  /** Failures come first, each under its own attempt and with its reason. */
  predicate LogsFailure(stage: Stage, input: Customer, n: nat, cell: Cell, i: nat)
    requires i < |cell.events|
  {
    cell.events[i] == StageEvent(stage.name, Failed, i + 1, input.customerId, Some(stage.failure(n + i, input)))
  }

  /** The first of two executions that yields an output is logged as completed or skipped, and ends the stage. */
  lemma {:induction false} CellLogs(stage: Stage, input: Customer, n: nat)
    ensures var cell := RunCell(stage, input, n); var last := |cell.events| - 1;
      && 0 <= last <= 1 && cell.input == input
      && (forall i :: 0 <= i < last ==> stage.execute(n + i, input).None? && LogsFailure(stage, input, n, cell, i))
      && cell.output == stage.execute(n + last, input)
      && match cell.output
        case None => last == 1 && LogsFailure(stage, input, n, cell, last)
        case Some(output) =>
          var status := if output.skipped then Skipped else Completed;
          cell.events[last] == StageEvent(stage.name, status, last + 1, input.customerId, output.reason)
  {
  }

  // ---- Versions ----

  /** Recommendation `i` carries the next version of its customer. */
  predicate NumberedAt(recs: seq<Stored>, i: nat)
    requires i < |recs|
  {
    recs[i].version == CountFor(recs[..i], recs[i].draft.customerId) + 1
  }

  predicate VersionsCount(recs: seq<Stored>) {
    forall i :: 0 <= i < |recs| ==> NumberedAt(recs, i)
  }

  /** At most one draft per customer. */
  predicate OnePerCustomer(drafts: seq<Draft>) {
    forall i, j :: 0 <= i < j < |drafts| ==> drafts[i].customerId != drafts[j].customerId
  }

  lemma {:induction false} CountConcat(a: seq<Stored>, b: seq<Stored>, id: int)
    ensures CountFor(a + b, id) == CountFor(a, id) + CountFor(b, id)
  {
    if b == [] {
      assert a + b == a;
    } else {
      assert (a + b)[..|a + b| - 1] == a + b[..|b| - 1];
      CountConcat(a, b[..|b| - 1], id);
    }
  }

  lemma {:induction false} CountZero(recs: seq<Stored>, id: int)
    ensures CountFor(recs, id) == 0 <==> forall i :: 0 <= i < |recs| ==> recs[i].draft.customerId != id
  {
    if recs != [] {
      var n := |recs| - 1;
      CountZero(recs[..n], id);
      assert forall i :: 0 <= i < n ==> recs[..n][i] == recs[i];
    }
  }

  /** The version given in a batch is the right one exactly when the customer has no earlier draft in it. */
  lemma {:induction false} BatchVersion(recs: seq<Stored>, drafts: seq<Draft>, runId: string, i: nat)
    requires i < |drafts|
    ensures NumberedAt(recs + Batch(recs, drafts, runId), |recs| + i)
      <==> forall j :: 0 <= j < i ==> drafts[j].customerId != drafts[i].customerId
  {
    var batch := Batch(recs, drafts, runId);
    assert (recs + batch)[..|recs| + i] == recs + batch[..i];
    CountConcat(recs, batch[..i], drafts[i].customerId);
    CountZero(batch[..i], drafts[i].customerId);
    assert forall j :: 0 <= j < i ==> batch[..i][j].draft == drafts[j];
  }

  /** Appending a batch keeps the numbering exactly when no customer occurs twice in it. */
  lemma {:induction false} CommitKeepsVersions(recs: seq<Stored>, drafts: seq<Draft>, runId: string)
    requires VersionsCount(recs)
    ensures VersionsCount(recs + Batch(recs, drafts, runId)) <==> OnePerCustomer(drafts)
  {
    var all := recs + Batch(recs, drafts, runId);
    forall i | 0 <= i < |recs| ensures NumberedAt(all, i) {
      assert NumberedAt(recs, i);
      assert all[..i] == recs[..i];
    }
    forall i | 0 <= i < |drafts|
      ensures NumberedAt(all, |recs| + i) <==> forall j :: 0 <= j < i ==> drafts[j].customerId != drafts[i].customerId
    {
      BatchVersion(recs, drafts, runId, i);
    }
    if VersionsCount(all) {
      forall i, j | 0 <= i < j < |drafts| ensures drafts[i].customerId != drafts[j].customerId {
        assert NumberedAt(all, |recs| + j);
      }
    }
    if OnePerCustomer(drafts) {
      forall k | 0 <= k < |all| ensures NumberedAt(all, k) {
        if k >= |recs| { assert NumberedAt(all, |recs| + (k - |recs|)); }
      }
    }
  }

  datatype Commit = Commit(drafts: seq<Draft>, runId: string)

  function History(commits: seq<Commit>): seq<Stored> {
    if commits == [] then []
    else
      var recs := History(commits[..|commits| - 1]);
      recs + Batch(recs, commits[|commits| - 1].drafts, commits[|commits| - 1].runId)
  }

  lemma {:induction false} VersionsOfPrefix(recs: seq<Stored>, more: seq<Stored>)
    requires VersionsCount(recs + more)
    ensures VersionsCount(recs)
  {
    forall i | 0 <= i < |recs| ensures NumberedAt(recs, i) {
      assert NumberedAt(recs + more, i);
      assert (recs + more)[..i] == recs[..i] && (recs + more)[i] == recs[i];
    }
  }

  /**
   Over any number of commits, every customer's versions read 1, 2, 3, ... in the order of
   storing, exactly when no commit holds two drafts for the same customer.
   */
  lemma {:induction false} VersionsExactly(commits: seq<Commit>)
    ensures VersionsCount(History(commits)) <==> forall i :: 0 <= i < |commits| ==> OnePerCustomer(commits[i].drafts)
  {
    if commits != [] {
      var n := |commits| - 1;
      var recs, last := History(commits[..n]), commits[n];
      VersionsExactly(commits[..n]);
      assert forall i :: 0 <= i < n ==> commits[..n][i] == commits[i];
      if VersionsCount(recs) { CommitKeepsVersions(recs, last.drafts, last.runId); }
      if VersionsCount(History(commits)) { VersionsOfPrefix(recs, Batch(recs, last.drafts, last.runId)); }
    }
  }

  /** An input on which they do not: two drafts for one customer in one commit both get version 1. */
  lemma {:induction false} TwinDraftsShareVersion(d: Draft, runId: string)
    ensures var recs := History([Commit([d, d], runId)]);
      && |recs| == 2 && recs[0].version == 1 && recs[1].version == 1
      && !VersionsCount(recs)
  {
    var commits := [Commit([d, d], runId)];
    assert commits[..0] == [];
    assert History(commits) == Batch([], [d, d], runId);
    VersionsExactly(commits);
    assert commits[0].drafts[0].customerId == commits[0].drafts[1].customerId;
  }
}
