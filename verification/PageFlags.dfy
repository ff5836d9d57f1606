/**
 What the run page says beside its timeline (loading, error, error of the stream and connection)
 over every sequence of calls and answers.
 */
module PageFlags {
  import opened Common
  import opened StreamClient
  import opened Timeline

  type Test = (Facade, Action) -> bool

  /** Call `i` set something, and none after it took it back. */
  predicate SetAt(actions: seq<Action>, i: nat, sets: Test, clears: Test) {
    && i < |actions| && sets(Exec(actions[..i]), actions[i])
    && forall j :: i < j < |actions| ==> !clears(Exec(actions[..j]), actions[j])
  }

  predicate SetSince(actions: seq<Action>, sets: Test, clears: Test) {
    exists i: nat :: i < |actions| && SetAt(actions, i, sets, clears)
  }

  lemma {:induction false} SetSinceNext(before: seq<Action>, a: Action, sets: Test, clears: Test)
    ensures SetSince(before + [a], sets, clears) <==>
      sets(Exec(before), a) || (SetSince(before, sets, clears) && !clears(Exec(before), a))
  {
    var all, n := before + [a], |before|;
    assert all[n] == a && all[..n] == before;
    forall i: nat | i < n ensures all[i] == before[i] && all[..i] == before[..i] {}
    forall i: nat | i < n
      ensures SetAt(all, i, sets, clears) <==> SetAt(before, i, sets, clears) && !clears(Exec(before), a)
    {
    }
    if sets(Exec(before), a) { assert SetAt(all, n, sets, clears); }
    if i: nat :| i < n && SetAt(before, i, sets, clears) && !clears(Exec(before), a) {
      assert SetAt(all, i, sets, clears);
    }
  }

  /** A flag that every call sets, clears or keeps. */
  ghost predicate Follows(flag: Facade -> bool, sets: Test, clears: Test) {
    && !flag(NEW_FACADE)
    && forall f, a :: flag(Apply(f, a)) <==> sets(f, a) || (flag(f) && !clears(f, a))
  }

  lemma {:induction false} FlagIsSet(actions: seq<Action>, flag: Facade -> bool, sets: Test, clears: Test)
    requires Follows(flag, sets, clears)
    ensures flag(Exec(actions)) <==> SetSince(actions, sets, clears)
  {
    if actions != [] {
      var n := |actions| - 1;
      FlagIsSet(actions[..n], flag, sets, clears);
      SetSinceNext(actions[..n], actions[n], sets, clears);
      assert actions == actions[..n] + [actions[n]];
    }
  }

  // ---- What sets and clears each flag ----

  predicate Starts(f: Facade, a: Action) {
    a.StartLoad?
  }

  /** The answer to the latest load of a page still open. */
  predicate Answers(f: Facade, a: Action) {
    a.LoadAnswer? && a.generation == f.loadGeneration && !f.destroyed
  }

  predicate Fails(f: Facade, a: Action) {
    (Answers(f, a) && a.answer.None?) || (a.ReloadAnswer? && a.answer.None? && !f.destroyed)
  }

  predicate Recovers(f: Facade, a: Action) {
    a.StartLoad? || (a.ReloadAnswer? && a.answer.Some? && !f.destroyed)
  }

  /** The live stream reports an error. */
  predicate Reports(f: Facade, a: Action) {
    a.StreamBroke? && f.stream == Some(a.generation) && !f.destroyed
  }

  predicate ReportsThis(f: Facade, a: Action, error: StreamError) {
    Reports(f, a) && a.error == error
  }

  /** The live stream announces a state. */
  predicate Announces(f: Facade, a: Action) {
    a.Connection? && f.stream == Some(a.generation) && !f.destroyed
  }

  predicate AnnouncesThis(f: Facade, a: Action, state: ConnectionState) {
    Announces(f, a) && a.state == state
  }

  /** Another load, another error, or a connection again after an error that can be retried. */
  predicate Heals(f: Facade, a: Action, error: StreamError) {
    || a.StartLoad?
    || (Reports(f, a) && a.error != error)
    || (AnnouncesThis(f, a, Online) && error.retryable)
  }

  /** Another load, a page closed, or a snapshot that finishes the run shown. */
  predicate Ends(f: Facade, a: Action) {
    || a.StartLoad?
    || (a.Leave? && !f.destroyed)
    || (Applies(f, a).Some? && Applies(f, a).value.status == Finished && !Outdated(f, Applies(f, a).value))
  }

  predicate Moves(f: Facade, a: Action, state: ConnectionState) {
    Ends(f, a) || (Announces(f, a) && a.state != state)
  }

  /** The page is loading exactly while the latest load has not been answered. */
  lemma {:induction false} LoadingExactly(actions: seq<Action>)
    ensures Exec(actions).loading <==> SetSince(actions, Starts, Answers)
  {
    FlagIsSet(actions, (f: Facade) => f.loading, Starts, Answers);
  }

  /** It shows an error exactly if an answer failed and neither a load nor a successful reload came since. */
  lemma {:induction false} FailedExactly(actions: seq<Action>)
    ensures Exec(actions).failed <==> SetSince(actions, Fails, Recovers)
  {
    FlagIsSet(actions, (f: Facade) => f.failed, Fails, Recovers);
  }

  lemma {:induction false} StreamErrorMoves(f: Facade, a: Action, error: StreamError)
    ensures Apply(f, a).streamError == Some(error) <==>
      ReportsThis(f, a, error) || (f.streamError == Some(error) && !Heals(f, a, error))
  {
  }

  /** It shows an error of the stream exactly if the live stream reported it and nothing healed it since. */
  lemma {:induction false} StreamErrorExactly(actions: seq<Action>, error: StreamError)
    ensures Exec(actions).streamError == Some(error) <==>
      SetSince(actions, (f, a) => ReportsThis(f, a, error), (f, a) => Heals(f, a, error))
  {
    var shown, sets, clears: Test :=
      (f: Facade) => f.streamError == Some(error), (f, a) => ReportsThis(f, a, error), (f, a) => Heals(f, a, error);
    forall f, a ensures shown(Apply(f, a)) <==> sets(f, a) || (shown(f) && !clears(f, a)) {
      StreamErrorMoves(f, a, error);
    }
    FlagIsSet(actions, shown, sets, clears);
  }

  lemma {:induction false} ConnectionMoves(f: Facade, a: Action, state: ConnectionState)
    requires state != Closed
    ensures Apply(f, a).connection == state <==>
      AnnouncesThis(f, a, state) || (f.connection == state && !Moves(f, a, state))
  {
    if Applies(f, a).Some? { SnapshotMoves(f, Applies(f, a).value); }
  }

  lemma {:induction false} SnapshotMoves(f: Facade, s: RunDetail)
    ensures ApplySnapshot(f, s).connection == if s.status == Finished && !Outdated(f, s) then Closed else f.connection
  {
  }

  /** It shows a connection exactly if the live stream announced it last and the stream has not ended since. */
  lemma {:induction false} ConnectionExactly(actions: seq<Action>, state: ConnectionState)
    requires state != Closed
    ensures Exec(actions).connection == state <==>
      SetSince(actions, (f, a) => AnnouncesThis(f, a, state), (f, a) => Moves(f, a, state))
  {
    var shown, sets, clears: Test :=
      (f: Facade) => f.connection == state, (f, a) => AnnouncesThis(f, a, state), (f, a) => Moves(f, a, state);
    forall f, a ensures shown(Apply(f, a)) <==> sets(f, a) || (shown(f) && !clears(f, a)) {
      ConnectionMoves(f, a, state);
    }
    FlagIsSet(actions, shown, sets, clears);
  }
}
