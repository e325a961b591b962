/** A step concerns one connection at most, and every other connection is exactly as it was. */
module NonInterference {
  import opened Prelude
  import opened Addresses
  import opened Tcp
  import opened ConnectionSpec
  import opened System
  import opened Ownership
  import opened Scheduling

  /** The handle a step is about. */
  function Subject(s: State, e: Event): Option<Handle>
    requires Enabled(s, e)
  {
    match e
    case ReadStream(id, _, _, _) => Some(s.streams[id].handle)
    case WriteStream(id, _, _) => Some(s.streams[id].handle)
    case CloseStream(id, _) => Some(s.streams[id].handle)
    case DropReader(id) => Some(s.streams[id].handle)
    case DropWriter(id) => Some(s.streams[id].handle)
    case Head(_, _) => DispatchTarget(s.io)
    case SelectRead(frame, _, _, _) =>
      var route := RouteOf(s.pool.Keys, frame); if route.New? then Some(route.h) else None
    case Process(_, _, _) => Some(s.io.phase.h)
    case HandleClose(_) => Some(s.io.phase.close.0)
    case HandleUpdate => Some(s.io.phase.update.0)
    case Expire(h) => Some(h)
    case _ => None
  }

  /** Pool entry, socket, wakers, history and deadline of `k` are the same in both states. */
  predicate Same(s: State, s': State, k: Handle) {
    && Known(s, k) && Known(s', k)
    && s'.pool[k] == s.pool[k]
    && s'.streams[s.pool[k].id] == s.streams[s.pool[k].id]
    && SameDeadline(s.queue, s'.queue, k)
  }

  predicate SameDeadline(q: Queue, q': Queue, k: Handle) {
    (k in q' <==> k in q) && (k in q ==> q'[k] == q[k])
  }

  ghost predicate OnlyTouches(s: State, s': State, h: Handle) {
    forall k :: k in s.pool && k != h ==> Same(s, s', k)
  }

  lemma TouchesOne(s: State, s': State, h: Handle)
    requires Owned(s) && Known(s, h) && s.pool[h].id in s'.streams
    requires s'.streams == s.streams[s.pool[h].id := s'.streams[s.pool[h].id]]
    requires forall k :: k in s.pool && k != h ==> k in s'.pool && s'.pool[k] == s.pool[k]
    requires forall k :: k in s.pool && k != h ==> SameDeadline(s.queue, s'.queue, k)
    ensures OnlyTouches(s, s', h)
  {
    hide TokensConserved, HalvesArePooled, SocketsValid, SameDeadline;
    forall k | k in s.pool && k != h
      ensures Same(s, s', k)
    {
      assert s.streams[s.pool[k].id].handle == k;
    }
  }

  lemma ApplicationTouchesOne(s: State, s': State, id: Id)
    requires Owned(s) && id in s.streams && (s.streams[id].readerLive || s.streams[id].writerLive)
    requires id in s'.streams && s'.streams == s.streams[id := s'.streams[id]]
    requires s'.pool == s.pool && s'.queue == s.queue
    ensures OnlyTouches(s, s', s.streams[id].handle)
  {
    hide Owned;
    LiveIsPooled(s, id);
    TouchesOne(s, s', s.streams[id].handle);
  }

  lemma HeadTouchesOne(s: State, h: Handle, emission: Emission<Packet>, after: Socket)
    requires Owned(s) && Known(s, h)
    ensures OnlyTouches(s, DispatchConnection(TakePoll(s), h, emission, after), h)
  {
    hide Owned, AfterDispatch, EndsAtDispatch;
    TouchesOne(s, DispatchConnection(TakePoll(s), h, emission, after), h);
  }

  lemma ProcessTouchesOne(s: State, h: Handle, text: seq<u8>, after: Socket)
    requires Owned(s) && Known(s, h)
    ensures OnlyTouches(s, ProcessConnection(s, h, text, after), h)
  {
    hide Owned, AfterProcess;
    TouchesOne(s, ProcessConnection(s, h, text, after), h);
  }

  lemma HandleCloseTouchesOne(s: State, after: Socket)
    requires Owned(s) && s.io.phase.HandlingClose? && NextHandleClose(s, after).Running?
    ensures OnlyTouches(s, NextHandleClose(s, after).state, s.io.phase.close.0)
  {
    hide Owned, AfterDropHalf;
    TouchesOne(s, NextHandleClose(s, after).state, s.io.phase.close.0);
  }

  lemma CreateTouchesNone(s: State, id: Id, h: Handle, delivered: bool)
    requires Owned(s) && id !in s.streams && h !in s.pool && h.local.WellFormed()
    ensures OnlyTouches(s, CreateStream(s, id, h, delivered), h)
  {
    hide TokensConserved, HalvesArePooled, SocketsValid;
  }

  lemma QueueTouchesOne(s: State, s': State, h: Handle)
    requires Owned(s) && s'.streams == s.streams && s'.pool == s.pool
    requires forall k :: k != h ==> SameDeadline(s.queue, s'.queue, k)
    ensures OnlyTouches(s, s', h)
  {
    hide TokensConserved, HalvesArePooled, SocketsValid;
  }

  lemma SameConnectionsTouch(s: State, t: State, s': State, h: Handle)
    requires OnlyTouches(s, t, h) && SameConnections(t, s')
    ensures OnlyTouches(s, s', h)
  {
    forall k | k in s.pool && k != h
      ensures Same(s, s', k)
    {
      assert Same(s, t, k);
    }
  }

  lemma QuietTouchesNone(s: State, s': State, k: Handle)
    requires Owned(s) && SameConnections(s, s') && k in s.pool
    ensures Same(s, s', k)
  {
    hide TokensConserved, HalvesArePooled, SocketsValid;
  }

  /** Whatever a step does, a pooled connection it is not about keeps its entry, socket, wakers, history and
      deadline. */
  lemma StepsTouchTheirSubject(s: State, e: Event, k: Handle)
    requires Owned(s) && Enabled(s, e) && Next(s, e).Running?
    requires k in s.pool && Subject(s, e) != Some(k)
    ensures Same(s, Next(s, e).state, k)
  {
    hide Owned, Same, NextHead, NextProcess, NextSelectRead, NextHandleClose, NextHandleUpdate, CreateStream, RouteOf, DispatchConnection,
      ProcessConnection, Acceptable, NextRead, NextWrite, NextClose, NextDrop;
    var s' := Next(s, e).state;
    if ByApplication(e) {
      hide Next, Enabled;
      ApplicationFrame(s, e);
      SubjectIsLive(s, e);
      ApplicationTouchesOne(s, s', e.id);
    } else {
      match e
      case Head(emission, after) =>
        HeadCases(s, emission, after);
        var target := DispatchTarget(s.io);
        if target.Some? {
          HeadTouchesOne(s, target.value, emission, after);
          SameConnectionsTouch(s, DispatchConnection(TakePoll(s), target.value, emission, after), s', target.value);
        } else {
          QuietTouchesNone(s, s', k);
        }
      case SelectRead(frame, id, listens, delivered) =>
        SelectReadCases(s, frame, id, listens, delivered);
        var route := RouteOf(s.pool.Keys, frame);
        if route.New? && listens {
          CreateTouchesNone(s, id, route.h, delivered);
          SameConnectionsTouch(s, CreateStream(s, id, route.h, delivered), s', route.h);
        } else {
          QuietTouchesNone(s, s', k);
        }
      case Process(text, reply, after) =>
        ProcessCases(s, text, reply, after);
        if Acceptable(s) {
          ProcessTouchesOne(s, s.io.phase.h, text, after);
          SameConnectionsTouch(s, ProcessConnection(s, s.io.phase.h, text, after), s', s.io.phase.h);
        } else {
          QuietTouchesNone(s, s', k);
        }
      case HandleClose(after) => HandleCloseTouchesOne(s, after);
      case HandleUpdate =>
        HandleUpdateCases(s);
        QueueTouchesOne(s, s', s.io.phase.update.0);
      case Expire(h) => QueueTouchesOne(s, s', h);
      case _ =>
        QuietCases(s, e);
        QuietTouchesNone(s, s', k);
    }
  }

  lemma SubjectIsLive(s: State, e: Event)
    requires ByApplication(e) && Enabled(s, e)
    ensures e.id in s.streams && (s.streams[e.id].readerLive || s.streams[e.id].writerLive)
    ensures Subject(s, e) == Some(s.streams[e.id].handle)
  {
  }
}
