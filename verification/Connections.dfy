/** The loop's side of one connection, as the object the pool keeps. */
module Connections {
  import opened Prelude
  import opened Addresses
  import opened Tcp
  import opened Acceptability
  import opened ConnectionSpec
  import opened PollQueue
  import opened StreamHalves

  class Connection {
    const handle: Handle
    const socket: Inner
    const readReadiness: SharedState
    const writeReadiness: SharedState
    var readerDropped: bool
    var writerDropped: bool

    ghost predicate Valid() {
      readReadiness != writeReadiness
    }

    /** The two connections have no object in common. */
    ghost predicate Apart(that: Connection) {
      && this != that && socket != that.socket
      && readReadiness != that.readReadiness && readReadiness != that.writeReadiness
      && writeReadiness != that.readReadiness && writeReadiness != that.writeReadiness
    }

    ghost function View(): Shared
      reads socket, readReadiness, writeReadiness
    {
      Shared(socket.tcp, socket.pollingActive, readReadiness.View(), writeReadiness.View())
    }

    ghost function FlagsView(): Flags
      reads this
    {
      Flags(readerDropped, writerDropped)
    }

    constructor (socket: Inner, handle: Handle, readReadiness: SharedState, writeReadiness: SharedState)
      requires readReadiness != writeReadiness
      ensures Valid() && this.handle == handle && this.socket == socket
      ensures this.readReadiness == readReadiness && this.writeReadiness == writeReadiness
      ensures FlagsView() == Flags(false, false)
    {
      this.handle, this.socket := handle, socket;
      this.readReadiness, this.writeReadiness := readReadiness, writeReadiness;
      readerDropped, writerDropped := false, false;
    }

    method WakeReader()
      requires Valid()
      modifies readReadiness
      ensures View() == ConnectionSpec.WakeReader(old(View()), FlagsView())
    {
      if !readerDropped {
        readReadiness.WakeOnce();
      }
    }

    method WakeWriter()
      requires Valid()
      modifies writeReadiness
      ensures View() == ConnectionSpec.WakeWriter(old(View()), FlagsView())
    {
      if !writerDropped {
        writeReadiness.WakeOnce();
      }
    }

    method WakeToClose()
      requires Valid()
      modifies readReadiness, writeReadiness
      ensures View() == ConnectionSpec.WakeToClose(old(View()), FlagsView())
    {
      if !socket.tcp.MayRecv() {
        WakeReader();
      }
      if !socket.tcp.MaySend() {
        WakeWriter();
      }
    }

    function BothDropped(): bool
      reads this
    {
      writerDropped && readerDropped
    }

    /** The engine's `process` leaves the socket as `after` and gives `reply`. */
    method Process<P>(seg: Segment, after: Socket, reply: Result<Option<P>>, queue: DispatchQueue)
      returns (r: Result<Option<P>>)
      requires Valid() && queue.Valid()
      modifies socket, readReadiness, writeReadiness, queue.delayed, queue.delayed.queue
      ensures queue.Valid()
      ensures old(CheckAcceptability(socket.tcp, seg)).Err? ==>
        r == Err(Dropped) && View() == old(View()) && queue.View() == old(queue.View())
      ensures old(CheckAcceptability(socket.tcp, seg)).Ok? ==>
        && r == reply
        && View() == AfterProcess(old(View()), FlagsView(), after)
        && queue.View() == QueueAfterProcess(queue.clock, FlagsView(), old(queue.View()), handle, after.PollAt())
    {
      var check := CheckAcceptability(socket.tcp, seg);
      if check.Err? {
        return Err(check.error);
      }
      socket.tcp := after;
      if socket.tcp.CanRecv() {
        WakeReader();
      }
      WakeToClose();
      var pollAt := socket.tcp.PollAt();
      if BothDropped() && pollAt == Ingress {
        var queued := queue.Contains(handle);
        if !queued {
          pollAt := Now;
        }
      }
      queue.Send(handle, pollAt);
      return reply;
    }

    /** The engine's `dispatch` leaves the socket as `after`; the result says whether to drop the connection. The
        buffer must be empty: the source asserts so. */
    method Dispatch<P>(buf: seq<P>, after: Socket, emission: Emission<P>, queue: DispatchQueue) returns (drop: bool)
      requires Valid() && queue.Valid() && buf == []
      modifies socket, readReadiness, writeReadiness, queue.delayed, queue.delayed.queue
      ensures queue.Valid()
      ensures drop == EndsAtDispatch(FlagsView(), after, emission)
      ensures View() == AfterDispatch(old(View()), FlagsView(), after, emission)
      ensures queue.View() == QueueAfterDispatch(queue.clock, FlagsView(), old(queue.View()), handle, after, emission)
    {
      socket.tcp := after;
      WakeToClose();
      if socket.tcp.CanSend() {
        WakeWriter();
      }
      var pollAt := socket.tcp.PollAt();
      if BothDropped() {
        if !socket.tcp.remote.IsSpecified() {
          return true;
        }
        if emission.NothingToSend? {
          return true;
        }
        if pollAt == Ingress {
          return true;
        }
      }
      socket.pollingActive := pollAt == Now;
      queue.Send(handle, pollAt);
      return false;
    }

    /** `close` leaves the socket as `after`. */
    method DropHalf(rw: Half, after: Socket, queue: DispatchQueue)
      requires Valid() && queue.Valid()
      modifies this, socket, queue.delayed, queue.delayed.queue
      ensures queue.Valid()
      ensures FlagsView() == old(FlagsView()).Mark(rw)
      ensures View() == AfterDropHalf(old(View()), FlagsView(), after)
      ensures queue.View() == QueueAfterDropHalf(queue.clock, FlagsView(), old(queue.View()), handle, after)
    {
      match rw {
        case Read => readerDropped := true;
        case Write => writerDropped := true;
      }
      if !writerDropped {
        return;
      }
      socket.tcp := after;
      var pollAt := socket.tcp.PollAt();
      if BothDropped() && pollAt == Ingress {
        pollAt := Now;
      }
      queue.Send(handle, pollAt);
    }
  }
}
