/** The program around its loop: the loop can end, by an error of the device or by its panic, and the application
    lives on with its streams. Then nobody receives what the halves send, and sending panics. */
module Lifetime {
  import opened Prelude
  import opened Tcp
  import opened ConnectionSpec
  import opened System
  import opened Ownership
  import opened LoopDiscipline
  import opened Runs

  datatype Ending = DeviceError | LoopPanicked(why: Panic)

  /** While the loop serves there is a state of the machine; afterwards only the streams are left. */
  datatype World = Serving(state: State) | Orphaned(streams: map<Id, Stream>, why: Ending)

  /** A step of the machine, or the failure of the write or the read that the loop waits for. */
  datatype WorldEvent = Step(e: Event) | WriteFails | ReadFails

  /** `ChannelClosed` is the `unwrap` on a send in an application's task. */
  datatype WorldOutcome = Goes(world: World) | ChannelClosed | Impossible

  /** The streams of an ended loop, as a state in which the application's steps can be taken. */
  function Remains(streams: map<Id, Stream>): State {
    Init(0).(streams := streams)
  }

  predicate Possible(w: World, we: WorldEvent) {
    match w
    case Orphaned(streams, _) => we.Step? && ByApplication(we.e) && Enabled(Remains(streams), we.e)
    case Serving(s) =>
      match we
      case Step(e) => Enabled(s, e)
      case WriteFails => s.io.phase == Waiting(Start) && s.io.slotA.Some?
      case ReadFails => s.io.phase == Waiting(Start) && s.io.slotB
  }

  /** The step of a half that sends a message to the loop. */
  predicate Sends(streams: map<Id, Stream>, e: Event)
    requires ByApplication(e) && e.id in streams
  {
    match e
    case ReadStream(_, _, _, _) => false
    case WriteStream(id, data, after) => PollWrite(streams[id].shared, data, after).update.Some?
    case CloseStream(id, after) => PollClose(streams[id].shared, after).update.Some?
    case _ => true
  }

  function WorldNext(w: World, we: WorldEvent): WorldOutcome
    requires Possible(w, we)
  {
    match w
    case Orphaned(streams, why) =>
      if Sends(streams, we.e) then ChannelClosed
      else
        var r := Next(Remains(streams), we.e);
        if r.Running? then Goes(Orphaned(r.state.streams, why)) else Impossible
    case Serving(s) =>
      match we
      case Step(e) =>
        var r := Next(s, e);
        (match r
         case Running(s') => Goes(Serving(s'))
         case Panicked(why) => Goes(Orphaned(s.streams, LoopPanicked(why)))
         case Refused => Impossible)
      case _ => Goes(Orphaned(s.streams, DeviceError))
  }

  function WorldExec(w: World, run: seq<WorldEvent>): WorldOutcome {
    if run == [] then Goes(w)
    else
      var before := WorldExec(w, run[..|run| - 1]);
      var we := run[|run| - 1];
      if !before.Goes? then before
      else if Possible(before.world, we) then WorldNext(before.world, we)
      else Impossible
  }

  ghost predicate WorldReachable(w: World) {
    exists start: nat, run: seq<WorldEvent> :: WorldExec(Serving(Init(start)), run) == Goes(w)
  }

  // ---- While the loop serves ----

  function Lifted(run: seq<Event>): seq<WorldEvent> {
    seq(|run|, i requires 0 <= i < |run| => Step(run[i]))
  }

  lemma {:induction false} LiftedRun(s: State, run: seq<Event>)
    requires Exec(s, run).Running?
    ensures WorldExec(Serving(s), Lifted(run)) == Goes(Serving(Exec(s, run).state))
  {
    hide Next, Enabled;
    if run != [] {
      var before := run[..|run| - 1];
      LiftedRun(s, before);
      assert Lifted(run)[..|run| - 1] == Lifted(before);
    }
  }

  /** What a world run says about the machine: it served until it ended. */
  lemma {:induction false} WorldRun(start: nat, run: seq<WorldEvent>)
    requires WorldExec(Serving(Init(start)), run).Goes?
    ensures match WorldExec(Serving(Init(start)), run).world
            case Serving(s) => Reachable(s)
            case Orphaned(_, why) => why == DeviceError || why == LoopPanicked(DispatchAfterDrop)
  {
    hide Next, Enabled, Reachable;
    if run == [] {
      StartIsReachable(start);
    } else {
      var n := |run| - 1;
      WorldRun(start, run[..n]);
      var w, we := WorldExec(Serving(Init(start)), run[..n]).world, run[n];
      if w.Serving? && we.Step? {
        ServingStep(w.state, we.e);
      }
    }
  }

  lemma StartIsReachable(start: nat)
    ensures Reachable(Init(start))
  {
    assert Exec(Init(start), []) == Running(Init(start));
  }

  lemma ServingStep(s: State, e: Event)
    requires Reachable(s) && Enabled(s, e)
    ensures Next(s, e).Running? ==> Reachable(Next(s, e).state)
    ensures !Next(s, e).Running? ==> Next(s, e) == Panicked(DispatchAfterDrop)
  {
    assert Owned(s) && LoopOk(s) by { ReachableInv(s); }
    hide Next, Enabled, Owned, LoopOk;
    LoopOkPreserved(s, e);
    var start: nat, run: seq<Event> :| Exec(Init(start), run) == Running(s);
    assert (run + [e])[..|run + [e]| - 1] == run;
    assert Exec(Init(start), run + [e]) == Next(s, e);
  }

  /** The worlds in which the loop serves are the reachable states of the machine, so what holds of those holds for
      as long as the loop serves. */
  lemma ServingExactly(s: State)
    ensures WorldReachable(Serving(s)) <==> Reachable(s)
  {
    hide WorldExec, Exec;
    if WorldReachable(Serving(s)) {
      var start: nat, run: seq<WorldEvent> :| WorldExec(Serving(Init(start)), run) == Goes(Serving(s));
      WorldRun(start, run);
    }
    if Reachable(s) {
      var start: nat, run: seq<Event> :| Exec(Init(start), run) == Running(s);
      LiftedRun(Init(start), run);
      assert WorldExec(Serving(Init(start)), Lifted(run)) == Goes(Serving(s));
    }
  }

  // ---- When it has ended ----

  /** The loop ends by an error of the device or by the panic of its dispatch, never by another panic. */
  lemma Endings(streams: map<Id, Stream>, why: Ending)
    requires WorldReachable(Orphaned(streams, why))
    ensures why == DeviceError || why == LoopPanicked(DispatchAfterDrop)
  {
    hide WorldExec;
    var start: nat, run: seq<WorldEvent> :| WorldExec(Serving(Init(start)), run) == Goes(Orphaned(streams, why));
    WorldRun(start, run);
  }

  /** A half's step panics if and only if the loop has ended and the step sends: dropping a half always does,
      writing and closing do unless polling is active, reading never does. */
  lemma SendPanicsExactly(w: World, e: Event)
    requires WorldReachable(w) && ByApplication(e) && Possible(w, Step(e))
    ensures WorldNext(w, Step(e)) == ChannelClosed <==>
              w.Orphaned? &&
              (e.DropReader? || e.DropWriter? ||
               ((e.WriteStream? || e.CloseStream?) && !w.streams[e.id].shared.pollingActive))
    ensures WorldNext(w, Step(e)) != ChannelClosed ==> WorldNext(w, Step(e)).Goes?
  {
    hide WorldReachable;
    if w.Serving? {
      ServingExactly(w.state);
      ServingStep(w.state, e);
    }
  }

  /** What the loop alone could change about a stream. */
  predicate Abandoned(st: Stream, st': Stream) {
    && st'.shared.pollingActive == st.shared.pollingActive
    && st'.shared.reader.woken == st.shared.reader.woken && st'.shared.writer.woken == st.shared.writer.woken
    && st'.accepted == st.accepted && |st'.shared.tcp.tx| >= |st.shared.tcp.tx|
    && (st.shared.reader.slot.Some? ==> st'.shared.reader.slot.Some?)
    && (st.shared.writer.slot.Some? ==> st'.shared.writer.slot.Some?)
  }

  lemma AbandonedRead(st: Stream, len: nat, taken: nat, after: Socket)
    requires taken <= |st.shared.tcp.rx|
    requires if st.shared.tcp.CanRecv() then RecvContract(st.shared.tcp, taken, after) else after == st.shared.tcp
    ensures var r := PollRead(st.shared, st.eofReached, len, taken, after).shared;
            && r.pollingActive == st.shared.pollingActive && r.writer == st.shared.writer
            && r.reader.woken == st.shared.reader.woken && r.tcp.tx == st.shared.tcp.tx
            && (st.shared.reader.slot.Some? ==> r.reader.slot.Some?)
  {
  }

  lemma AbandonedWrite(c: Shared, data: seq<u8>, after: Socket)
    requires if c.tcp.CanSend() then SendContract(c.tcp, data, after) else after == c.tcp
    ensures var r := PollWrite(c, data, after).shared;
            && r.pollingActive == c.pollingActive && r.reader == c.reader
            && r.writer.woken == c.writer.woken && |r.tcp.tx| >= |c.tcp.tx|
            && (c.writer.slot.Some? ==> r.writer.slot.Some?)
  {
  }

  lemma AbandonedOwnStep(streams: map<Id, Stream>, e: Event)
    requires ByApplication(e) && Enabled(Remains(streams), e)
    ensures Next(Remains(streams), e).Running? && e.id in Next(Remains(streams), e).state.streams
    ensures Abandoned(streams[e.id], Next(Remains(streams), e).state.streams[e.id])
  {
    hide PollRead, PollWrite;
    match e
    case ReadStream(id, len, taken, after) => AbandonedRead(streams[id], len, taken, after);
    case WriteStream(id, data, after) => AbandonedWrite(streams[id].shared, data, after);
    case _ =>
  }

  lemma AbandonedStep(streams: map<Id, Stream>, e: Event)
    requires ByApplication(e) && Enabled(Remains(streams), e)
    ensures var r := Next(Remains(streams), e);
            && r.Running? && r.state.streams.Keys == streams.Keys
            && forall id :: id in streams ==> Abandoned(streams[id], r.state.streams[id])
  {
    hide Next, Enabled;
    ApplicationFrame(Remains(streams), e);
    AbandonedOwnStep(streams, e);
  }

  /** Once the loop has ended nothing is ever received or sent, and nobody who sleeps is ever woken. */
  lemma {:induction false} OrphansAreAbandoned(streams: map<Id, Stream>, why: Ending, run: seq<WorldEvent>)
    requires WorldExec(Orphaned(streams, why), run).Goes?
    ensures var w := WorldExec(Orphaned(streams, why), run).world;
            && w.Orphaned? && w.why == why && w.streams.Keys == streams.Keys
            && forall id :: id in streams ==> Abandoned(streams[id], w.streams[id])
  {
    hide Next, Enabled, Sends;
    if run != [] {
      var n := |run| - 1;
      OrphansAreAbandoned(streams, why, run[..n]);
      var w := WorldExec(Orphaned(streams, why), run[..n]).world;
      AbandonedStep(w.streams, run[n].e);
    }
  }

  /** A device error can end the loop whenever it waits, and every live half that is dropped afterwards panics. */
  lemma DeviceErrorOrphans(s: State)
    requires Reachable(s) && s.io.phase == Waiting(Start)
    ensures Possible(Serving(s), ReadFails) && WorldNext(Serving(s), ReadFails) == Goes(Orphaned(s.streams, DeviceError))
    ensures forall id :: id in s.streams && s.streams[id].writerLive ==>
              Possible(Orphaned(s.streams, DeviceError), Step(DropWriter(id))) &&
              WorldNext(Orphaned(s.streams, DeviceError), Step(DropWriter(id))) == ChannelClosed
  {
    assert s.io.slotB by { ReachableInv(s); }
    hide Reachable;
  }
}
