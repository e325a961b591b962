/** Where the deadlines in the queue come from: each is the last that was asked for, and was asked for by the engine
    or by a writer. */
module Deadlines {
  import opened Prelude
  import opened Addresses
  import opened ConnectionSpec
  import opened ConnectionLaws
  import opened System
  import opened LoopDiscipline
  import opened Histories
  import opened StepLaws
  import opened Runs

  /** The state before the `i`th step of a run, if the run gets there. */
  ghost predicate Before(s: State, run: seq<Event>, i: nat, t: State) {
    i < |run| && Exec(s, run[..i]) == Running(t) && Enabled(t, run[i])
  }

  ghost predicate AskedAt(s: State, run: seq<Event>, i: nat, k: Handle, deadline: nat) {
    exists t: State :: Before(s, run, i, t) && AskedBy(t, run[i], k) == Some(deadline)
  }

  /** The `i`th step asked for the deadline, and none since has asked for another. */
  ghost predicate LastAsked(s: State, run: seq<Event>, i: nat, k: Handle, deadline: nat) {
    AskedAt(s, run, i, k, deadline) && forall j: nat, d: nat :: i < j ==> !AskedAt(s, run, j, k, d)
  }

  lemma PrefixAsks(s: State, run: seq<Event>, i: nat, k: Handle, deadline: nat)
    requires run != [] && i < |run| - 1
    ensures AskedAt(s, run, i, k, deadline) <==> AskedAt(s, run[..|run| - 1], i, k, deadline)
  {
    hide Exec, AskedBy, Enabled;
    var before := run[..|run| - 1];
    assert before[..i] == run[..i] && before[i] == run[i];
    assert forall t: State :: Before(s, run, i, t) <==> Before(s, before, i, t);
  }

  lemma LastStepAsks(s: State, run: seq<Event>, t: State, k: Handle, deadline: nat)
    requires run != [] && Exec(s, run[..|run| - 1]) == Running(t) && Enabled(t, run[|run| - 1])
    ensures AskedAt(s, run, |run| - 1, k, deadline) <==> AskedBy(t, run[|run| - 1], k) == Some(deadline)
  {
    hide Exec, AskedBy, Enabled;
    assert Before(s, run, |run| - 1, t);
  }

  lemma NobodyAsksBeyond(s: State, run: seq<Event>, j: nat, k: Handle, d: nat)
    requires |run| <= j
    ensures !AskedAt(s, run, j, k, d)
  {
  }

  /** Every queued deadline is the last that a step of the run asked for. */
  lemma {:induction false} QueueHoldsLastAsked(start: nat, run: seq<Event>, k: Handle) returns (i: nat)
    requires Exec(Init(start), run).Running? && k in Exec(Init(start), run).state.queue
    ensures LastAsked(Init(start), run, i, k, Exec(Init(start), run).state.queue[k])
  {
    hide Next, Enabled, AskedBy, LoopOk, AskedAt, Inv;
    var s, n := Init(start), |run| - 1;
    assert run != [];
    var t := Exec(s, run[..n]).state;
    var d := Exec(s, run).state.queue[k];
    InitInv(start);
    RunInv(s, run[..n]);
    assert LoopOk(t) by { InvParts(t); }
    DeadlineExactly(t, run[n], k);
    if AskedBy(t, run[n], k).Some? {
      i := n;
      LastStepAsks(s, run, t, k, d);
    } else {
      i := QueueHoldsLastAsked(start, run[..n], k);
      LastAskedSurvives(s, run, t, i, k, d);
    }
    forall j: nat, d': nat | i < j
      ensures !AskedAt(s, run, j, k, d')
    {
      if n < j { NobodyAsksBeyond(s, run, j, k, d'); }
    }
  }

  /** A step that asks for nothing leaves the last request the last. */
  lemma LastAskedSurvives(s: State, run: seq<Event>, t: State, i: nat, k: Handle, deadline: nat)
    requires run != [] && Exec(s, run[..|run| - 1]) == Running(t) && Enabled(t, run[|run| - 1])
    requires AskedBy(t, run[|run| - 1], k).None?
    requires LastAsked(s, run[..|run| - 1], i, k, deadline)
    ensures LastAsked(s, run, i, k, deadline)
  {
    hide Exec, AskedBy, Enabled;
    var before := run[..|run| - 1];
    assert i < |run| - 1 by { if |run| - 1 <= i { NobodyAsksBeyond(s, before, i, k, deadline); } }
    PrefixAsks(s, run, i, k, deadline);
    forall j: nat, d: nat | i < j
      ensures !AskedAt(s, run, j, k, d)
    {
      if j < |run| - 1 {
        PrefixAsks(s, run, j, k, d);
      } else if j == |run| - 1 {
        LastStepAsks(s, run, t, k, d);
      } else {
        NobodyAsksBeyond(s, run, j, k, d);
      }
    }
  }

  /** The handle was picked by the `j`th step, with the deadline that was last asked for before. */
  ghost predicate PickedAt(s: State, run: seq<Event>, j: nat, i: nat, k: Handle, deadline: nat) {
    i < j < |run| && run[j] == Expire(k) && LastAsked(s, run[..j], i, k, deadline)
  }

  /** So every picked deadline was asked for, and was the last asked for when its handle was picked. */
  lemma {:induction false} PickHoldsLastAsked(start: nat, run: seq<Event>) returns (j: nat, i: nat)
    requires Exec(Init(start), run).Running? && Exec(Init(start), run).state.io.nextPoll.Some?
    ensures var picked := Exec(Init(start), run).state.io.nextPoll.value;
            PickedAt(Init(start), run, j, i, picked.handle, picked.deadline)
  {
    hide Next, Enabled, LastAsked, Inv, LoopOk;
    var s, n := Init(start), |run| - 1;
    assert run != [];
    var t := Exec(s, run[..n]).state;
    var picked := Exec(s, run).state.io.nextPoll.value;
    PickComesFromQueue(t, run[n]);
    if run[n].Expire? {
      j := n;
      i := QueueHoldsLastAsked(start, run[..n], picked.handle);
      assert i < n by { LastAskedIsInRun(s, run[..n], i, picked.handle, picked.deadline); }
    } else {
      j, i := PickHoldsLastAsked(start, run[..n]);
      assert run[..n][..j] == run[..j];
    }
  }

  lemma LastAskedIsInRun(s: State, run: seq<Event>, i: nat, k: Handle, deadline: nat)
    requires LastAsked(s, run, i, k, deadline)
    ensures i < |run|
  {
    hide Exec, AskedBy, Enabled;
  }

  lemma PickComesFromQueue(s: State, e: Event)
    requires Enabled(s, e) && Next(s, e).Running? && Next(s, e).state.io.nextPoll.Some?
    ensures var picked := Next(s, e).state.io.nextPoll.value;
            if e.Expire? then picked.handle == e.h && e.h in s.queue && picked.deadline == s.queue[e.h]
            else s.io.nextPoll == Some(picked)
  {
    hide NextHead, NextProcess, NextHandleClose, NextHandleUpdate, NextSelectRead, DispatchConnection, ProcessConnection,
      CreateStream, RouteOf, Acceptable, QueueSend;
    if ByApplication(e) {
      hide Next, Enabled;
      ApplicationFrame(s, e);
    } else {
      match e
      case Head(emission, after) =>
        HeadCases(s, emission, after);
        if DispatchTarget(s.io).Some? { DispatchFrame(TakePoll(s), DispatchTarget(s.io).value, emission, after); }
      case SelectRead(frame, id, listens, delivered) =>
        SelectReadCases(s, frame, id, listens, delivered);
        var route := RouteOf(s.pool.Keys, frame);
        if route.New? { CreateFrame(s, id, route.h, delivered); }
      case Process(text, reply, after) =>
        ProcessCases(s, text, reply, after);
        if Acceptable(s) { ProcessFrame(s, s.io.phase.h, text, after); }
      case HandleClose(after) => HandleCloseCases(s, after);
      case HandleUpdate => HandleUpdateCases(s);
      case Expire(_) =>
      case _ => QuietCases(s, e);
    }
  }

  // ---- Updates ----

  /** The step sends the update: a writer wrote or closed while polling was not active, and the update carries the
      first time at which its socket then wants to be dispatched. */
  predicate SentBy(s: State, e: Event, m: PollUpdate) {
    && (e.WriteStream? || e.CloseStream?) && Enabled(s, e)
    && m.0 == s.streams[e.id].handle && !s.streams[e.id].shared.pollingActive && IsFirst(e.after, m.1)
  }

  ghost predicate SentAt(s: State, run: seq<Event>, i: nat, m: PollUpdate) {
    exists t: State :: Before(s, run, i, t) && SentBy(t, run[i], m)
  }

  lemma WriterSends(s: State, e: Event)
    requires (e.WriteStream? || e.CloseStream?) && Enabled(s, e) && s.streams[e.id].shared.tcp.Valid()
    ensures Next(s, e).Running?
    ensures var p, p' := PendingUpdates(s), PendingUpdates(Next(s, e).state);
            if s.streams[e.id].shared.pollingActive then p' == p
            else p' != [] && p' == p + [p'[|p'| - 1]] && SentBy(s, e, p'[|p'| - 1])
  {
    hide PendingUpdates, Enabled, NextWrite, NextClose;
    if e.WriteStream? {
      WriteSends(s, e);
    } else {
      CloseSends(s, e);
    }
  }

  lemma WriteSends(s: State, e: Event)
    requires e.WriteStream? && Enabled(s, e) && s.streams[e.id].shared.tcp.Valid()
    ensures Next(s, e).Running?
    ensures var p, p' := PendingUpdates(s), PendingUpdates(Next(s, e).state);
            if s.streams[e.id].shared.pollingActive then p' == p
            else p' != [] && p' == p + [p'[|p'| - 1]] && SentBy(s, e, p'[|p'| - 1])
  {
    WriteIsPending(s, e.id, e.data, e.after);
    WriteLaw(s.streams[e.id].shared, e.data, e.after);
    hide PendingUpdates, PollWrite, NextWrite;
  }

  lemma CloseSends(s: State, e: Event)
    requires e.CloseStream? && Enabled(s, e)
    ensures Next(s, e).Running?
    ensures var p, p' := PendingUpdates(s), PendingUpdates(Next(s, e).state);
            if s.streams[e.id].shared.pollingActive then p' == p
            else p' != [] && p' == p + [p'[|p'| - 1]] && SentBy(s, e, p'[|p'| - 1])
  {
    CloseIsPending(s, e.id, e.after);
    CloseLaw(s.streams[e.id].shared, e.after);
    hide PendingUpdates, PollClose, NextClose;
  }

  lemma NobodyElseSends(s: State, e: Event, m: PollUpdate)
    requires Enabled(s, e) && Next(s, e).Running? && !e.WriteStream? && !e.CloseStream?
    requires m in PendingUpdates(Next(s, e).state)
    ensures m in PendingUpdates(s)
  {
    hide NextHead, NextProcess, NextHandleClose, NextHandleUpdate, NextSelectRead, DispatchConnection, ProcessConnection,
      CreateStream, RouteOf, Acceptable, QueueSend, NextRead, NextDrop;
    match e
    case ReadStream(id, len, taken, after) => ReadExactly(s, id, len, taken, after);
    case DropReader(id) => DropExactly(s, id, Read);
    case DropWriter(id) => DropExactly(s, id, Write);
    case Head(emission, after) =>
      HeadCases(s, emission, after);
      if DispatchTarget(s.io).Some? { DispatchFrame(TakePoll(s), DispatchTarget(s.io).value, emission, after); }
    case SelectRead(frame, id, listens, delivered) =>
      SelectReadCases(s, frame, id, listens, delivered);
      var route := RouteOf(s.pool.Keys, frame);
      if route.New? { CreateFrame(s, id, route.h, delivered); }
    case Process(text, reply, after) =>
      ProcessCases(s, text, reply, after);
      if Acceptable(s) { ProcessFrame(s, s.io.phase.h, text, after); }
    case HandleClose(after) => HandleCloseCases(s, after);
    case HandleUpdate => HandleUpdateCases(s);
    case _ =>
      if Quiet(e) { QuietCases(s, e); }
  }

  /** Every update that is pending was sent by a writer in some step of the run, and carries what its socket wanted. */
  lemma {:induction false} UpdatesWereSent(start: nat, run: seq<Event>, m: PollUpdate) returns (i: nat)
    requires Exec(Init(start), run).Running? && m in PendingUpdates(Exec(Init(start), run).state)
    ensures SentAt(Init(start), run, i, m)
  {
    hide Next, Enabled, SentBy, Inv, PendingUpdates;
    var s, n := Init(start), |run| - 1;
    if run == [] {
      NothingPending(start);
      assert false;
    } else {
      var t, e := Exec(s, run[..n]).state, run[n];
      if m in PendingUpdates(t) {
        i := UpdatesWereSent(start, run[..n], m);
        assert run[..n][..i] == run[..i];
        assert forall u: State :: Before(s, run, i, u) <==> Before(s, run[..n], i, u);
      } else {
        i := n;
        if !e.WriteStream? && !e.CloseStream? {
          NobodyElseSends(t, e, m);
        } else {
          InitInv(start);
          RunInv(s, run[..n]);
          WriterIsValid(t, e);
          WriterSends(t, e);
          assert Before(s, run, n, t);
        }
      }
    }
  }

  lemma NothingPending(start: nat)
    ensures PendingUpdates(Init(start)) == []
  {
  }

  lemma WriterIsValid(s: State, e: Event)
    requires Inv(s) && (e.WriteStream? || e.CloseStream?) && Enabled(s, e)
    ensures e.id in s.streams && s.streams[e.id].shared.tcp.Valid()
  {
    InvParts(s);
    hide Inv;
    SocketIsValid(s, e.id);
  }
}
