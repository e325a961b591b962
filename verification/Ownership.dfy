/** Who owns a connection: every half of every pooled connection is held by the application, announced
    dropped in the close channel, or marked dropped in the pool, and by exactly one of them. */
module Ownership {
  import opened Prelude
  import opened Addresses
  import opened Tcp
  import opened ConnectionSpec
  import opened System

  /** How often the half shows up among the live halves, the pending messages and the flags of its handle. */
  ghost function Tokens(s: State, h: Handle, half: Half): nat {
    multiset(PendingCloses(s))[(h, half)] +
    if !Known(s, h) then 0
    else (if s.streams[s.pool[h].id].Live(half) then 1 else 0) + (if s.pool[h].flags.Dropped(half) then 1 else 0)
  }

  /** A live half belongs to the connection that the pool holds under its handle. */
  ghost predicate HalvesArePooled(s: State) {
    forall id :: id in s.streams && (s.streams[id].readerLive || s.streams[id].writerLive) ==>
      s.streams[id].handle in s.pool && s.pool[s.streams[id].handle].id == id
  }

  ghost predicate PoolIsSound(s: State) {
    forall h :: h in s.pool ==> s.pool[h].id in s.streams && s.streams[s.pool[h].id].handle == h
  }

  ghost predicate TokensConserved(s: State) {
    forall h: Handle, half: Half :: Tokens(s, h, half) == if h in s.pool then 1 else 0
  }

  ghost predicate SocketsValid(s: State) {
    forall id :: id in s.streams ==> s.streams[id].shared.tcp.Valid()
  }

  ghost predicate Owned(s: State) {
    HalvesArePooled(s) && PoolIsSound(s) && TokensConserved(s) && SocketsValid(s)
  }

  lemma InitOwned(start: nat)
    ensures Owned(Init(start))
  {
  }

  lemma SentCount<T>(log: seq<T>, x: T, y: T)
    ensures multiset(log + [x])[y] == multiset(log)[y] + if x == y then 1 else 0
  {
  }

  lemma PoppedCount<T>(log: seq<T>, y: T)
    requires log != []
    ensures multiset(log)[y] == multiset(log[1..])[y] + if log[0] == y then 1 else 0
  {
    assert log == [log[0]] + log[1..];
    assert multiset([log[0]] + log[1..]) == multiset([log[0]]) + multiset(log[1..]);
  }

  /** Nobody gained or lost a half between the two states. */
  ghost predicate SameHalves(s: State, s': State) {
    && PendingCloses(s') == PendingCloses(s)
    && s'.streams.Keys == s.streams.Keys
    && (forall id :: id in s.streams ==>
          && s'.streams[id].handle == s.streams[id].handle
          && s'.streams[id].readerLive == s.streams[id].readerLive
          && s'.streams[id].writerLive == s.streams[id].writerLive)
  }

  lemma SameHalvesOwned(s: State, s': State)
    requires Owned(s) && SameHalves(s, s') && s'.pool == s.pool && SocketsValid(s')
    ensures Owned(s')
  {
    forall h: Handle, half: Half
      ensures Tokens(s', h, half) == Tokens(s, h, half)
    {
      assert Known(s', h) == Known(s, h);
    }
  }

  /** One stream changed what it shares with the loop and nothing else. */
  lemma TouchOwned(s: State, s': State, id: Id)
    requires Owned(s) && id in s.streams && id in s'.streams
    requires s'.streams == s.streams[id := s'.streams[id]] && s'.pool == s.pool && PendingCloses(s') == PendingCloses(s)
    requires s'.streams[id].handle == s.streams[id].handle
    requires s'.streams[id].readerLive == s.streams[id].readerLive
    requires s'.streams[id].writerLive == s.streams[id].writerLive
    requires s'.streams[id].shared.tcp.Valid() || s'.streams[id].shared.tcp == s.streams[id].shared.tcp
    ensures Owned(s')
  {
    hide HalvesArePooled, PoolIsSound, TokensConserved;
    SameHalvesOwned(s, s');
  }

  lemma ReadOwned(s: State, id: Id, len: nat, taken: nat, after: Socket)
    requires Owned(s) && ReadEnabled(s, id, len, taken, after)
    ensures Owned(NextRead(s, id, len, taken, after))
  {
    hide HalvesArePooled, PoolIsSound, TokensConserved;
    TouchOwned(s, NextRead(s, id, len, taken, after), id);
  }

  lemma WriteOwned(s: State, id: Id, data: seq<u8>, after: Socket)
    requires Owned(s) && WriteEnabled(s, id, data, after)
    ensures Owned(NextWrite(s, id, data, after))
  {
    hide Owned;
    TouchOwned(s, NextWrite(s, id, data, after), id);
  }

  lemma CloseOwned(s: State, id: Id, after: Socket)
    requires Owned(s) && CloseEnabled(s, id, after)
    ensures Owned(NextClose(s, id, after))
  {
    hide Owned;
    TouchOwned(s, NextClose(s, id, after), id);
  }

  /** The half that is dropped gives its token to the message, and every other token stays where it is. */
  lemma DropKeepsToken(s: State, id: Id, half: Half, h: Handle, w: Half)
    requires DropEnabled(s, id, half)
    requires Known(s, s.streams[id].handle) && s.pool[s.streams[id].handle].id == id
    requires h in s.pool && h != s.streams[id].handle ==> s.pool[h].id != id
    ensures Tokens(NextDrop(s, id, half), h, w) == Tokens(s, h, w)
  {
    var k, pending := s.streams[id].handle, PendingCloses(s);
    DropIsPending(s, id, half);
    SentCount(pending, (k, half), (h, w));
    hide PendingCloses;
    assert Known(NextDrop(s, id, half), h) == Known(s, h);
    if h == k {
      assert s.streams[id].Live(half) && !NextDrop(s, id, half).streams[id].Live(half);
    }
  }

  lemma DropKeepsTokens(s: State, id: Id, half: Half)
    requires HalvesArePooled(s) && PoolIsSound(s) && TokensConserved(s) && DropEnabled(s, id, half)
    ensures TokensConserved(NextDrop(s, id, half))
  {
    hide Tokens;
    forall h: Handle, w: Half
      ensures Tokens(NextDrop(s, id, half), h, w) == if h in s.pool then 1 else 0
    {
      DropKeepsToken(s, id, half, h, w);
    }
  }

  lemma DropOwned(s: State, id: Id, half: Half)
    requires Owned(s) && DropEnabled(s, id, half)
    ensures Owned(NextDrop(s, id, half))
  {
    hide TokensConserved;
    DropKeepsTokens(s, id, half);
  }

  /** A connection is only removed when nothing of it is left anywhere. */
  lemma RemovalOwned(s: State, s': State, h: Handle)
    requires Owned(s) && h in s.pool && s.pool[h].flags.Both()
    requires s'.streams == s.streams && PendingCloses(s') == PendingCloses(s) && s'.pool == s.pool - {h}
    ensures Owned(s')
  {
    assert Tokens(s, h, Read) == 1 && Tokens(s, h, Write) == 1;
    forall k: Handle, half: Half
      ensures Tokens(s', k, half) == if k in s'.pool then 1 else 0
    {
      assert Tokens(s, k, half) == if k in s.pool then 1 else 0;
    }
  }

  lemma DispatchOwned(s: State, h: Handle, emission: Emission<Packet>, after: Socket)
    requires Owned(s) && Known(s, h) && after.Valid()
    ensures Owned(DispatchConnection(s, h, emission, after))
  {
    hide HalvesArePooled, PoolIsSound, TokensConserved;
    var s' := DispatchConnection(s, h, emission, after);
    var s1 := s.(streams := s'.streams);
    TouchOwned(s, s1, s.pool[h].id);
    if EndsAtDispatch(s.pool[h].flags, after, emission) {
      RemovalOwned(s1, s', h);
    } else {
      SameTokensOwned(s1, s');
    }
  }

  lemma SameTokensOwned(s: State, s': State)
    requires Owned(s)
    requires s'.streams == s.streams && s'.pool == s.pool && PendingCloses(s') == PendingCloses(s)
    ensures Owned(s')
  {
    hide HalvesArePooled, PoolIsSound, TokensConserved;
    SameHalvesOwned(s, s');
  }

  lemma HeadOwned(s: State, emission: Emission<Packet>, after: Socket)
    requires Owned(s) && HeadEnabled(s, emission, after)
    ensures NextHead(s, emission, after).Running? ==> Owned(NextHead(s, emission, after).state)
  {
    hide Owned, NextHead, DispatchConnection;
    HeadCases(s, emission, after);
    var r := NextHead(s, emission, after);
    var target := DispatchTarget(s.io);
    if r.Running? {
      if target.Some? {
        SameTokensOwned(s, TakePoll(s));
        DispatchOwned(TakePoll(s), target.value, emission, after);
        SameTokensOwned(DispatchConnection(TakePoll(s), target.value, emission, after), r.state);
      } else {
        SameTokensOwned(s, r.state);
      }
    }
  }

  lemma CreateLive(s: State, s': State, id: Id, h: Handle)
    requires Owned(s) && id !in s.streams && h !in s.pool
    requires h.local.WellFormed() && PendingCloses(s') == PendingCloses(s)
    requires s'.streams == s.streams[id := NewStream(h, true)]
    requires s'.pool == s.pool[h := Entry(id, Flags(false, false))]
    ensures Owned(s')
  {
    forall k: Handle, half: Half
      ensures Tokens(s', k, half) == if k in s'.pool then 1 else 0
    {
      assert Tokens(s, k, half) == if k in s.pool then 1 else 0;
    }
  }

  lemma CreateOwned(s: State, id: Id, h: Handle, delivered: bool)
    requires Owned(s) && id !in s.streams && h !in s.pool && h.local.WellFormed()
    ensures Owned(CreateStream(s, id, h, delivered))
  {
    hide Owned;
    var s' := CreateStream(s, id, h, delivered);
    var live := s.(streams := s.streams[id := NewStream(h, true)], pool := s'.pool);
    CreateLive(s, live, id, h);
    if delivered {
      assert s' == live;
    } else {
      var half := NextDrop(live, id, Write);
      DropOwned(live, id, Write);
      DropOwned(half, id, Read);
      assert NextDrop(half, id, Read).streams == s'.streams;
      SameTokensOwned(NextDrop(half, id, Read), s');
    }
  }

  lemma SelectReadOwned(s: State, frame: Frame, id: Id, listens: bool, delivered: bool)
    requires Owned(s) && SelectReadEnabled(s, frame, id)
    ensures Owned(NextSelectRead(s, frame, id, listens, delivered))
  {
    hide Owned, NextSelectRead, CreateStream, RouteOf;
    SelectReadCases(s, frame, id, listens, delivered);
    var s' := NextSelectRead(s, frame, id, listens, delivered);
    var route := RouteOf(s.pool.Keys, frame);
    if route.New? && listens {
      CreateOwned(s, id, route.h, delivered);
      SameTokensOwned(CreateStream(s, id, route.h, delivered), s');
    } else {
      SameTokensOwned(s, s');
    }
  }

  lemma ProcessConnectionOwned(s: State, h: Handle, text: seq<u8>, after: Socket)
    requires Owned(s) && Known(s, h) && after.Valid()
    ensures Owned(ProcessConnection(s, h, text, after))
  {
    hide HalvesArePooled, PoolIsSound, TokensConserved;
    var s' := ProcessConnection(s, h, text, after);
    TouchOwned(s, s', s.pool[h].id);
  }

  lemma ProcessOwned(s: State, text: seq<u8>, reply: Option<Packet>, after: Socket)
    requires Owned(s) && ProcessEnabled(s, text, reply, after)
    ensures NextProcess(s, text, reply, after).Running? ==> Owned(NextProcess(s, text, reply, after).state)
  {
    hide Owned, NextProcess, ProcessConnection, Acceptable;
    ProcessCases(s, text, reply, after);
    var r := NextProcess(s, text, reply, after);
    if r.Running? {
      if Acceptable(s) {
        ProcessConnectionOwned(s, s.io.phase.h, text, after);
        SameTokensOwned(ProcessConnection(s, s.io.phase.h, text, after), r.state);
      } else {
        SameTokensOwned(s, r.state);
      }
    }
  }

  /** A close message is the one token of a pooled half, so handling it moves the token to the flag. */
  lemma MarkOwned(s: State, s': State, m: CloseMessage)
    requires Owned(s) && PendingCloses(s) != [] && m == PendingCloses(s)[0] && PendingCloses(s') == PendingCloses(s)[1..]
    requires Known(s, m.0)
    requires s'.streams == s.streams
    requires s'.pool == s.pool[m.0 := s.pool[m.0].(flags := s.pool[m.0].flags.Mark(m.1))]
    ensures Owned(s')
  {
    PoppedCount(PendingCloses(s), m);
    assert Tokens(s, m.0, m.1) == 1;
    forall h: Handle, half: Half
      ensures Tokens(s', h, half) == if h in s'.pool then 1 else 0
    {
      assert Tokens(s, h, half) == if h in s.pool then 1 else 0;
      PoppedCount(PendingCloses(s), (h, half));
    }
  }

  lemma CloseMessageIsForPooledHandle(s: State)
    requires Owned(s) && PendingCloses(s) != []
    ensures Known(s, PendingCloses(s)[0].0)
  {
    var m := PendingCloses(s)[0];
    PoppedCount(PendingCloses(s), m);
    assert Tokens(s, m.0, m.1) == if m.0 in s.pool then 1 else 0;
  }

  /** The `expect` on a close message cannot fail: with slot c empty there is no other way to panic. */
  lemma HandleCloseOwned(s: State, after: Socket)
    requires Owned(s) && HandleCloseEnabled(s, after)
    ensures NextHandleClose(s, after).Running? <==> !s.io.slotC
    ensures NextHandleClose(s, after).Running? ==> Owned(NextHandleClose(s, after).state)
  {
    hide HalvesArePooled, PoolIsSound, TokensConserved;
    CloseMessageIsForPooledHandle(s);
    if !s.io.slotC {
      HandleCloseCases(s, after);
      var s' := NextHandleClose(s, after).state;
      var s1 := s.(streams := s'.streams);
      TouchOwned(s, s1, s.pool[s.io.phase.close.0].id);
      MarkOwned(s1, s', s.io.phase.close);
    }
  }

  lemma OwnedPreserved(s: State, e: Event)
    requires Owned(s) && Enabled(s, e)
    ensures Next(s, e).Running? ==> Owned(Next(s, e).state)
  {
    hide Owned, NextRead, NextWrite, NextClose, NextDrop, NextSelectRead, NextHead, NextProcess, NextHandleClose,
      NextHandleUpdate;
    match e
    case ReadStream(id, len, taken, after) => ReadOwned(s, id, len, taken, after);
    case WriteStream(id, data, after) => WriteOwned(s, id, data, after);
    case CloseStream(id, after) => CloseOwned(s, id, after);
    case DropReader(id) => DropOwned(s, id, Read);
    case DropWriter(id) => DropOwned(s, id, Write);
    case Head(emission, after) => HeadOwned(s, emission, after);
    case SelectRead(frame, id, listens, delivered) => SelectReadOwned(s, frame, id, listens, delivered);
    case Process(text, reply, after) => ProcessOwned(s, text, reply, after);
    case HandleClose(after) => HandleCloseOwned(s, after);
    case HandleUpdate =>
      if NextHandleUpdate(s).Running? {
        HandleUpdateCases(s);
        SameTokensOwned(s, NextHandleUpdate(s).state);
      }
    case Expire(h) => SameTokensOwned(s, NextExpire(s, h));
    case _ =>
      QuietCases(s, e);
      if Next(s, e).Running? { SameTokensOwned(s, Next(s, e).state); }
  }

  /** The application's halves under a handle, counted over every stream ever made. */
  ghost function LiveHalves(s: State, h: Handle, half: Half): set<Id> {
    set id | id in s.streams && s.streams[id].handle == h && s.streams[id].Live(half)
  }

  /** Half-close token conservation: live halves, pending messages and the flag add up to one for a pooled
      handle and to zero for any other, however often the handle has been used. */
  lemma HalfCloseTokens(s: State, h: Handle, half: Half)
    requires Owned(s)
    ensures |LiveHalves(s, h, half)| + multiset(PendingCloses(s))[(h, half)] +
            (if h in s.pool && s.pool[h].flags.Dropped(half) then 1 else 0)
            == if h in s.pool then 1 else 0
  {
    assert Tokens(s, h, half) == if h in s.pool then 1 else 0;
    if h in s.pool && s.streams[s.pool[h].id].Live(half) {
      assert LiveHalves(s, h, half) == {s.pool[h].id};
    } else {
      assert LiveHalves(s, h, half) == {};
    }
  }
}
