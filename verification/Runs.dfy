/** Whole runs: the invariants hold in every reachable state, and runs compose. */
module Runs {
  import opened System
  import opened Ownership
  import opened Scheduling
  import opened Wakeups
  import opened LoopDiscipline
  import opened Histories
  import opened Agreement
  import opened SettledPicks
  import opened StepLaws

  ghost predicate Inv(s: State) {
    && Owned(s) && WorkScheduled(s) && SleepersServed(s) && LoopOk(s) && StreamsOk(s) && SettledOk(s)
    && WritersClosed(s)
  }

  /** Some run from the start of the program leads to `s`. */
  ghost predicate Reachable(s: State) {
    exists start: nat, run: seq<Event> :: Exec(Init(start), run) == Running(s)
  }

  lemma InitInv(start: nat)
    ensures Inv(Init(start)) && Agrees(Init(start))
  {
  }

  lemma StepInv(s: State, e: Event)
    requires Inv(s) && Enabled(s, e) && Next(s, e).Running?
    ensures Inv(Next(s, e).state)
  {
    hide Owned, WorkScheduled, SleepersServed, LoopOk, StreamsOk, SettledOk, WritersClosed, Next, Enabled;
    OwnedPreserved(s, e);
    WorkScheduledPreserved(s, e);
    SleepersServedPreserved(s, e);
    LoopOkPreserved(s, e);
    StreamsOkPreserved(s, e);
    SettledOkPreserved(s, e);
    WritersClosedPreserved(s, e);
  }

  lemma {:induction false} RunInv(s: State, run: seq<Event>)
    requires Inv(s) && Exec(s, run).Running?
    ensures Inv(Exec(s, run).state) && Grown(s, Exec(s, run).state)
  {
    hide Owned, WorkScheduled, SleepersServed, LoopOk, StreamsOk, SettledOk, WritersClosed, Next, Enabled, StaysEnded;
    if run == [] {
      SameStreamsGrow(s, s);
    } else {
      var before := run[..|run| - 1];
      RunInv(s, before);
      var t := Exec(s, before).state;
      StepInv(t, run[|run| - 1]);
      StreamsOkPreserved(t, run[|run| - 1]);
      GrownTransitive(s, t, Exec(s, run).state);
    }
  }

  lemma GrownTransitive(s: State, t: State, u: State)
    requires Grown(s, t) && Grown(t, u)
    ensures Grown(s, u)
  {
    hide Ended;
  }

  lemma ReachableInv(s: State)
    requires Reachable(s)
    ensures Inv(s)
  {
    hide Inv;
    var start: nat, run: seq<Event> :| Exec(Init(start), run) == Running(s);
    InitInv(start);
    RunInv(Init(start), run);
  }

  lemma {:induction false} ExecComposes(s: State, a: seq<Event>, b: seq<Event>)
    ensures Exec(s, a + b) == if Exec(s, a).Running? then Exec(Exec(s, a).state, b) else Exec(s, a)
  {
    hide Next, Enabled;
    if b == [] {
      assert a + b == a;
    } else {
      var b0 := b[..|b| - 1];
      ExecComposes(s, a, b0);
      assert (a + b)[..|a + b| - 1] == a + b0;
    }
  }

  /** A run that starts with `e`. */
  lemma ExecStep(s: State, e: Event, run: seq<Event>)
    requires Enabled(s, e) && Next(s, e).Running?
    ensures Exec(s, [e] + run) == Exec(Next(s, e).state, run)
  {
    hide Next, Enabled;
    ExecComposes(s, [e], run);
    assert [e][..0] == [];
    assert Exec(s, [e]) == Next(s, e);
  }

  lemma ExecLast(s: State, e: Event)
    requires Enabled(s, e)
    ensures Exec(s, [e]) == Next(s, e)
  {
    hide Next, Enabled;
    assert [e][..0] == [];
  }

  /** The `i`th step of the run removes a connection under a pending update. */
  ghost predicate StaleAt(s: State, run: seq<Event>, i: nat) {
    && i < |run|
    && Exec(s, run[..i]).Running?
    && StaleRemoval(Exec(s, run[..i]).state, run[i])
  }

  /** Without such a step the run never panics, and the queue only names connections that exist. */
  lemma {:induction false} RunsWithoutStaleRemoval(s: State, run: seq<Event>)
    requires Inv(s) && Agrees(s)
    requires forall i: nat :: !StaleAt(s, run, i)
    ensures !Exec(s, run).Panicked?
    ensures Exec(s, run).Running? ==> Agrees(Exec(s, run).state)
  {
    hide Inv, Agrees, Next, Enabled, StaleRemoval;
    if run != [] {
      var n := |run| - 1;
      var before := run[..n];
      forall i: nat
        ensures !StaleAt(s, before, i)
      {
        if i < n {
          assert before[..i] == run[..i];
          assert !StaleAt(s, run, i);
        }
      }
      RunsWithoutStaleRemoval(s, before);
      if Exec(s, before).Running? && Enabled(Exec(s, before).state, run[n]) {
        RunInv(s, before);
        InvParts(Exec(s, before).state);
        assert !StaleAt(s, run, n);
        AgreementExact(Exec(s, before).state, run[n]);
      }
    }
  }

  lemma InvParts(s: State)
    requires Inv(s)
    ensures Owned(s) && WorkScheduled(s) && SleepersServed(s) && LoopOk(s) && StreamsOk(s) && SettledOk(s)
    ensures WritersClosed(s)
  {
  }
}
