/** The two halves of a stream, as the objects the application calls. Both refer to the socket behind its
    lock; each has a waker slot that the loop's connection object also refers to. */
module StreamHalves {
  import opened Prelude
  import opened Addresses
  import opened Tcp
  import opened ConnectionSpec

  /** The socket and the flag behind the lock. A poll that finds the lock taken is not a step of this model. */
  class Inner {
    var tcp: Socket
    var pollingActive: bool

    constructor (tcp: Socket)
      ensures this.tcp == tcp && !pollingActive
    {
      this.tcp := tcp;
      pollingActive := false;
    }
  }

  class SharedState {
    var waker: Option<Registration>
    var woken: nat

    ghost function View(): Waker
      reads this
    {
      Waker(waker, woken)
    }

    constructor ()
      ensures View() == NO_WAKER
    {
      waker, woken := None, 0;
    }

    method WakeOnce()
      modifies this
      ensures View() == old(View()).WakeOnce()
    {
      if waker.Some? {
        waker := None;
        woken := woken + 1;
      }
    }
  }

  /** An unbounded channel: messages sent and not yet received. */
  class Channel<T> {
    var waiting: seq<T>

    constructor ()
      ensures waiting == []
    {
      waiting := [];
    }

    method Send(m: T)
      modifies this
      ensures waiting == old(waiting) + [m]
    {
      waiting := waiting + [m];
    }

    method Receive() returns (m: T)
      requires waiting != []
      modifies this
      ensures [m] + waiting == old(waiting)
    {
      m := waiting[0];
      waiting := waiting[1..];
    }
  }

  /** Announces the end of one half. */
  class HalfCloseSender {
    const socket: Handle
    const rw: Half
    const sender: Channel<(Handle, Half)>

    constructor (socket: Handle, rw: Half, sender: Channel<(Handle, Half)>)
      ensures this.socket == socket && this.rw == rw && this.sender == sender
    {
      this.socket, this.rw, this.sender := socket, rw, sender;
    }

    method Notify()
      modifies sender
      ensures sender.waiting == old(sender.waiting) + [(socket, rw)]
    {
      sender.Send((socket, rw));
    }
  }

  class ReadHalf {
    const mutex: Inner
    const sharedState: SharedState
    const shutdownNotifier: HalfCloseSender
    var eofReached: bool

    constructor (mutex: Inner, shutdownNotifier: HalfCloseSender)
      ensures this.mutex == mutex && this.shutdownNotifier == shutdownNotifier && !eofReached
      ensures fresh(sharedState) && sharedState.View() == NO_WAKER
    {
      this.mutex, this.shutdownNotifier, eofReached := mutex, shutdownNotifier, false;
      sharedState := new SharedState();
    }

    /** The shared state as this half sees it; the writer's waker is out of its sight. */
    ghost function View(): Shared
      reads mutex, sharedState
    {
      Shared(mutex.tcp, mutex.pollingActive, sharedState.View(), NO_WAKER)
    }

    /** `recv_slice` takes `taken` of the waiting bytes and leaves the socket as `after`. */
    method PollReadInner(len: nat, taken: nat, after: Socket) returns (r: ReadResult)
      requires taken <= |mutex.tcp.rx|
      modifies this, mutex, sharedState
      ensures View() == PollRead(old(View()), old(eofReached), len, taken, after).shared
      ensures eofReached == PollRead(old(View()), old(eofReached), len, taken, after).eofReached
      ensures r == PollRead(old(View()), old(eofReached), len, taken, after).result
    {
      if mutex.tcp.CanRecv() {
        var bytes := mutex.tcp.rx[..taken];
        mutex.tcp := after;
        if taken > 0 {
          return Bytes(bytes);
        }
      }
      if mutex.tcp.MayRecv() || mutex.tcp.state == SynReceived {
        sharedState.waker := Some(Registration(len));
        return ReadPending;
      }
      if eofReached {
        return ReadAborted;
      }
      eofReached := true;
      return EndOfStream;
    }

    /** What dropping the half does. */
    method Drop()
      modifies shutdownNotifier.sender
      ensures shutdownNotifier.sender.waiting ==
              old(shutdownNotifier.sender.waiting) + [(shutdownNotifier.socket, shutdownNotifier.rw)]
    {
      shutdownNotifier.Notify();
    }
  }

  class WriteHalf {
    const mutex: Inner
    const sharedState: SharedState
    const handle: Handle
    const notifier: Channel<(Handle, PollAt)>
    const shutdownNotifier: HalfCloseSender

    constructor (mutex: Inner, notifier: Channel<(Handle, PollAt)>, handle: Handle, shutdownNotifier: HalfCloseSender)
      ensures this.mutex == mutex && this.notifier == notifier && this.handle == handle
      ensures this.shutdownNotifier == shutdownNotifier
      ensures fresh(sharedState) && sharedState.View() == NO_WAKER
    {
      this.mutex, this.notifier, this.handle := mutex, notifier, handle;
      this.shutdownNotifier := shutdownNotifier;
      sharedState := new SharedState();
    }

    ghost function View(): Shared
      reads mutex, sharedState
    {
      Shared(mutex.tcp, mutex.pollingActive, NO_WAKER, sharedState.View())
    }

    /** The messages a step adds to the update channel. */
    ghost function Updates(update: Option<PollAt>): seq<(Handle, PollAt)> {
      if update.None? then [] else [(handle, update.value)]
    }

    /** `send_slice` leaves the socket as `after`. */
    method PollWriteInner(data: seq<u8>, after: Socket) returns (r: WriteResult)
      modifies mutex, sharedState, notifier
      ensures var step := PollWrite(old(View()), data, after);
              && View() == step.shared && r == step.result
              && notifier.waiting == old(notifier.waiting) + Updates(step.update)
    {
      var inactive := !mutex.pollingActive;
      var n := 0;
      if mutex.tcp.CanSend() {
        n := Sendable(mutex.tcp, data);
        mutex.tcp := after;
      }
      if inactive {
        notifier.Send((handle, mutex.tcp.PollAt()));
      }
      if n > 0 {
        return Written(n);
      }
      if !mutex.tcp.MaySend() {
        return WriteAborted;
      }
      sharedState.waker := Some(Registration(|data|));
      return WritePending;
    }

    /** `close` leaves the socket as `after`. */
    method PollCloseInner(after: Socket)
      modifies mutex, notifier
      ensures var step := PollClose(old(View()), after);
              View() == step.shared && notifier.waiting == old(notifier.waiting) + Updates(step.update)
    {
      mutex.tcp := after;
      if !mutex.pollingActive {
        notifier.Send((handle, mutex.tcp.PollAt()));
      }
    }

    method Drop()
      modifies shutdownNotifier.sender
      ensures shutdownNotifier.sender.waiting ==
              old(shutdownNotifier.sender.waiting) + [(shutdownNotifier.socket, shutdownNotifier.rw)]
    {
      shutdownNotifier.Notify();
    }
  }
}
