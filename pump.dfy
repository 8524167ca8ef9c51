/** The I/O pump of the socket transport (comm_loop in vchan/socket.c) as
    specification functions. One iteration is: compute the interest set under
    the mutex; wait in poll (while the API thread may use the rings and raise
    the shutdown flag); then, under the mutex again, service the wakeup: read
    into the read ring, write from the write ring, send one notification byte
    if anything moved, and apply the shutdown-drain rule. */
module Pump {
  import opened Sys
  import opened Rings

  /** The part of the control block the pump reads and writes. */
  datatype PumpState = PumpState(readRing: Ring, writeRing: Ring, shutdown: bool) {
    predicate Valid() {
      readRing.Valid() && writeRing.Valid()
    }
  }

  /** Readiness bits for the data socket (POLLIN, POLLOUT) and for the read
      end of the user-event pipe (POLLIN); used both for the interest set and
      for the revents poll reports. */
  datatype Events = Events(socketIn: bool, socketOut: bool, userEventIn: bool)

  /** Outcome of read(2) on the socket. Received(data): the socket has data
      queued and read returns the first min(|data|, size) bytes of it, so
      Received([]) is the zero-length read of a peer that closed. */
  datatype ReadResult = Received(data: seq<byte>) | ReadFailed(errno: Errno)

  /** Outcome of write(2) on the socket: Wrote(room) accepts min(room, size)
      bytes. */
  datatype WriteResult = Wrote(room: nat) | WriteFailed(errno: Errno)

  datatype Failure = PollError | ReadError | WriteError | NotifyError

  /** Running: the loop goes on (for a whole run: the inputs ran out while the
      pump was still running). Finished: done was set. Fatal: the pump
      returned on an unexpected error. */
  datatype Exit = Running | Finished | Fatal(cause: Failure)

  /** What one wakeup delivers: the revents, and the outcomes of the read, the
      write and the notification write, should they be attempted. */
  datatype Wakeup = Wakeup(revents: Events, read: ReadResult, write: WriteResult, notifyOk: bool)

  /** What the API thread does while the pump waits in poll: the consumer
      takes up to consume bytes from the read ring, the producer stores as
      much of produce as fits in the write ring, and the shutdown flag may be
      raised (it is never cleared). */
  datatype ApiStep = ApiStep(consume: nat, produce: seq<byte>, raiseShutdown: bool)

  /** Everything one iteration of comm_loop depends on. wakeup.revents is the
      readiness of the two descriptors when poll returns; poll reports only
      the part of it that the interest set asked for (PollReports). */
  datatype PumpInput = PumpInput(api: ApiStep, pollError: Option<Errno>, wakeup: Wakeup)

  datatype ApiEffect = ApiEffect(state: PumpState, consumed: seq<byte>, produced: seq<byte>)

  /** The effect of the read or the write part of an iteration. */
  datatype Phase = Phase(ring: Ring, moved: seq<byte>, ended: bool, failed: bool)

  datatype Serviced = Serviced(
    state: PumpState,
    exit: Exit,
    received: seq<byte>,
    sent: seq<byte>,
    notified: bool,
    peerEnded: bool)

  /** The observable result of a run of the pump over a sequence of inputs:
      the final state, how it ended, the byte streams in each direction, and
      the number of notification bytes written to the socket-event pipe. */
  datatype RunResult = RunResult(
    state: PumpState,
    exit: Exit,
    received: seq<byte>,
    sent: seq<byte>,
    consumed: seq<byte>,
    produced: seq<byte>,
    notifications: nat,
    iterations: nat,
    peerEnded: bool)

  /** The interest set: read interest iff the read ring has room, write
      interest iff the write ring holds bytes, the user-event pipe always. */
  function InterestOf(s: PumpState): (i: Events)
    requires s.Valid()
    ensures i.socketIn <==> |s.readRing.bytes| < s.readRing.capacity
    ensures i.socketOut <==> s.writeRing.bytes != []
    ensures i.userEventIn
  {
    Events(s.readRing.Available() > 0, s.writeRing.Filled() > 0, true)
  }

  /** What poll reports for a descriptor: a readiness bit only when the
      interest set asked for it. */
  function PollReports(interest: Events, ready: Events): (r: Events)
    ensures r.socketIn <==> interest.socketIn && ready.socketIn
    ensures r.socketOut <==> interest.socketOut && ready.socketOut
    ensures r.userEventIn <==> interest.userEventIn && ready.userEventIn
  {
    Events(interest.socketIn && ready.socketIn, interest.socketOut && ready.socketOut,
           interest.userEventIn && ready.userEventIn)
  }

  /** The wakeup the second critical section sees, for an iteration whose
      interest set was computed from s. */
  function Polled(s: PumpState, input: PumpInput): Wakeup
    requires s.Valid()
  {
    input.wakeup.(revents := PollReports(InterestOf(s), input.wakeup.revents))
  }

  /** A poll failure ends the pump unless it is EINTR. */
  predicate PollFails(e: Option<Errno>) {
    e.Some? && e.value != EINTR
  }

  /** The API thread's use of the rings, under the mutex. */
  function ApplyApi(s: PumpState, a: ApiStep): (e: ApiEffect)
    requires s.Valid()
    ensures e.state.Valid()
    ensures e.state.readRing.capacity == s.readRing.capacity
    ensures e.state.writeRing.capacity == s.writeRing.capacity
    ensures s.readRing.bytes == e.consumed + e.state.readRing.bytes
    ensures e.state.writeRing.bytes == s.writeRing.bytes + e.produced
    ensures e.state.shutdown == (s.shutdown || a.raiseShutdown)
  {
    var taken := Min(a.consume, s.readRing.Filled());
    var put := a.produce[..Min(|a.produce|, s.writeRing.Available())];
    ApiEffect(
      PumpState(s.readRing.AdvanceHead(taken), s.writeRing.AdvanceTail(put), s.shutdown || a.raiseShutdown),
      s.readRing.Head(taken),
      put)
  }

  /** A read is attempted when poll reported the socket readable and the
      read ring still has room when it is re-examined under the mutex. */
  predicate ReadAttempted(ring: Ring, revents: Events)
    requires ring.Valid()
  {
    revents.socketIn && ring.Available() > 0
  }

  /** A write is attempted when poll reported the socket writable and the
      write ring still holds bytes. */
  predicate WriteAttempted(ring: Ring, revents: Events) {
    revents.socketOut && ring.Filled() > 0
  }

  /** A clean close (zero-length read) or a reset by the peer. */
  predicate PeerClosedRead(res: ReadResult) {
    res == Received([]) || res == ReadFailed(ECONNRESET)
  }

  /** A read error that is neither "would block" nor a reset. */
  predicate ReadErrorFatal(res: ReadResult) {
    res.ReadFailed? && !WouldBlock(res.errno) && res.errno != ECONNRESET
  }

  /** A write error that is neither "would block" nor a broken pipe. */
  predicate WriteErrorFatal(res: WriteResult) {
    res.WriteFailed? && !WouldBlock(res.errno) && res.errno != EPIPE
  }

  /** The read part of an iteration. */
  function ReadPhase(ring: Ring, revents: Events, res: ReadResult): (p: Phase)
    requires ring.Valid()
    ensures p.ring.Valid() && p.ring.capacity == ring.capacity
    ensures p.ring.bytes == ring.bytes + p.moved
    ensures ReadAttempted(ring, revents) && res.Received? ==>
              p.moved == res.data[..Min(|res.data|, ring.Available())]
    ensures p.moved != [] ==> ReadAttempted(ring, revents) && res.Received?
    ensures p.ended <==> ReadAttempted(ring, revents) && PeerClosedRead(res)
    ensures p.failed <==> ReadAttempted(ring, revents) && ReadErrorFatal(res)
    ensures p.ended || p.failed ==> p.moved == []
    ensures !ReadAttempted(ring, revents) || (res.ReadFailed? && WouldBlock(res.errno)) ==>
              p == Phase(ring, [], false, false)
  {
    if ReadAttempted(ring, revents) then
      match res
      case Received(data) =>
        var count := Min(|data|, ring.Available());
        if count == 0 then Phase(ring, [], true, false)
        else Phase(ring.AdvanceTail(data[..count]), data[..count], false, false)
      case ReadFailed(e) =>
        if WouldBlock(e) then Phase(ring, [], false, false)
        else if e == ECONNRESET then Phase(ring, [], true, false)
        else Phase(ring, [], false, true)
    else
      Phase(ring, [], false, false)
  }

  /** The write part of an iteration. */
  function WritePhase(ring: Ring, revents: Events, res: WriteResult): (p: Phase)
    requires ring.Valid()
    ensures p.ring.Valid() && p.ring.capacity == ring.capacity
    ensures ring.bytes == p.moved + p.ring.bytes
    ensures WriteAttempted(ring, revents) && res.Wrote? ==> |p.moved| == Min(res.room, ring.Filled())
    ensures p.moved != [] ==> WriteAttempted(ring, revents) && res.Wrote?
    ensures p.ended <==> WriteAttempted(ring, revents) && res == WriteFailed(EPIPE)
    ensures p.failed <==> WriteAttempted(ring, revents) && WriteErrorFatal(res)
    ensures p.ended || p.failed ==> p.moved == []
    ensures !WriteAttempted(ring, revents) || (res.WriteFailed? && WouldBlock(res.errno)) ==>
              p == Phase(ring, [], false, false)
  {
    if WriteAttempted(ring, revents) then
      match res
      case Wrote(room) =>
        var count := Min(room, ring.Filled());
        Phase(ring.AdvanceHead(count), ring.Head(count), false, false)
      case WriteFailed(e) =>
        if WouldBlock(e) then Phase(ring, [], false, false)
        else if e == EPIPE then Phase(ring, [], true, false)
        else Phase(ring, [], false, true)
    else
      Phase(ring, [], false, false)
  }

  /** The read of an iteration ends it fatally. */
  predicate ReadFatal(s: PumpState, w: Wakeup)
    requires s.Valid()
  {
    ReadAttempted(s.readRing, w.revents) && ReadErrorFatal(w.read)
  }

  /** The write of an iteration ends it fatally (the write is reached only
      when the read did not). */
  predicate WriteFatal(s: PumpState, w: Wakeup)
    requires s.Valid()
  {
    !ReadFatal(s, w) && WriteAttempted(s.writeRing, w.revents) && WriteErrorFatal(w.write)
  }

  /** The part of an iteration that runs under the mutex after poll returns,
      starting from the state s whose shutdown flag is the snapshot. */
  function Service(s: PumpState, w: Wakeup): (r: Serviced)
    requires s.Valid()
    ensures r.state.Valid()
    ensures r.state.readRing.capacity == s.readRing.capacity
    ensures r.state.writeRing.capacity == s.writeRing.capacity
    ensures r.state.shutdown == s.shutdown
    // bytes read are appended to the read ring, bytes written leave the write ring oldest first
    ensures r.state.readRing.bytes == s.readRing.bytes + r.received
    ensures s.writeRing.bytes == r.sent + r.state.writeRing.bytes
    ensures ReadAttempted(s.readRing, w.revents) && w.read.Received? ==>
              r.received == w.read.data[..Min(|w.read.data|, s.readRing.Available())]
    ensures !ReadFatal(s, w) && WriteAttempted(s.writeRing, w.revents) && w.write.Wrote? && !WriteFatal(s, w) ==>
              |r.sent| == Min(w.write.room, s.writeRing.Filled())
    // bytes move only through a read or a write that was attempted and returned a count
    ensures r.received != [] ==> ReadAttempted(s.readRing, w.revents) && w.read.Received?
    ensures r.sent != [] ==> !ReadFatal(s, w) && WriteAttempted(s.writeRing, w.revents) && w.write.Wrote?
    // error classification
    ensures r.exit != Fatal(PollError)
    ensures r.exit == Fatal(ReadError) <==> ReadFatal(s, w)
    ensures r.exit == Fatal(ReadError) ==> r.state == s && r.received == [] && r.sent == []
    ensures r.exit == Fatal(WriteError) <==> WriteFatal(s, w)
    ensures r.exit == Fatal(WriteError) ==> r.sent == [] && r.state.writeRing == s.writeRing
    ensures r.peerEnded <==>
              (ReadAttempted(s.readRing, w.revents) && PeerClosedRead(w.read)) ||
              (!ReadFatal(s, w) && WriteAttempted(s.writeRing, w.revents) && w.write == WriteFailed(EPIPE))
    // one notification byte iff bytes moved, and its failure is fatal
    ensures r.notified <==> !r.exit.Fatal? && (r.received != [] || r.sent != [])
    ensures r.exit == Fatal(NotifyError) ==> !w.notifyOk && (r.received != [] || r.sent != [])
    ensures (r.received != [] || r.sent != []) && !w.notifyOk ==> r.exit.Fatal?
    // the pump finishes when the peer ended the stream, or on shutdown once the write ring is empty
    ensures !r.exit.Fatal? ==>
              (r.exit == Finished <==> r.peerEnded || (s.shutdown && r.state.writeRing.bytes == []))
  {
    var rd := ReadPhase(s.readRing, w.revents, w.read);
    if rd.failed then
      Serviced(s, Fatal(ReadError), [], [], false, false)
    else
      var wr := WritePhase(s.writeRing, w.revents, w.write);
      if wr.failed then
        Serviced(PumpState(rd.ring, s.writeRing, s.shutdown), Fatal(WriteError), rd.moved, [], false, rd.ended)
      else
        var after := PumpState(rd.ring, wr.ring, s.shutdown);
        var progress := rd.moved != [] || wr.moved != [];
        var ended := rd.ended || wr.ended;
        if progress && !w.notifyOk then
          Serviced(after, Fatal(NotifyError), rd.moved, wr.moved, false, ended)
        else
          var done := ended || (s.shutdown && wr.ring.Filled() == 0);
          Serviced(after, if done then Finished else Running, rd.moved, wr.moved, progress, ended)
  }

  /** A run of comm_loop over a sequence of inputs, one per iteration: the
      interest set is computed, the API thread acts while poll waits, and the
      wakeup is serviced. A run stops at the first iteration that sets done
      or fails; one whose inputs run out first ends Running. */
  function Run(s: PumpState, inputs: seq<PumpInput>): (r: RunResult)
    requires s.Valid()
    ensures r.state.Valid()
    ensures r.state.readRing.capacity == s.readRing.capacity
    ensures r.state.writeRing.capacity == s.writeRing.capacity
    ensures r.iterations <= |inputs|
    ensures r.exit == Running ==> r.iterations == |inputs|
    decreases |inputs|
  {
    if inputs == [] then
      RunResult(s, Running, [], [], [], [], 0, 0, false)
    else
      var a := ApplyApi(s, inputs[0].api);
      if PollFails(inputs[0].pollError) then
        RunResult(a.state, Fatal(PollError), [], [], a.consumed, a.produced, 0, 1, false)
      else
        var v := Service(a.state, Polled(s, inputs[0]));
        var n := if v.notified then 1 else 0;
        if v.exit != Running then
          RunResult(v.state, v.exit, v.received, v.sent, a.consumed, a.produced, n, 1, v.peerEnded)
        else
          var rest := Run(v.state, inputs[1..]);
          RunResult(
            rest.state, rest.exit,
            v.received + rest.received, v.sent + rest.sent,
            a.consumed + rest.consumed, a.produced + rest.produced,
            n + rest.notifications, 1 + rest.iterations, rest.peerEnded)
  }

  /** Inbound FIFO: the bytes in the read ring at the start followed by every
      byte read from the socket are exactly the bytes the consumer took
      followed by what is left in the ring; nothing is lost or reordered. */
  lemma {:induction false} RunReadFifo(s: PumpState, inputs: seq<PumpInput>)
    requires s.Valid()
    ensures var r := Run(s, inputs);
      s.readRing.bytes + r.received == r.consumed + r.state.readRing.bytes
    decreases |inputs|
  {
    if inputs != [] {
      var a := ApplyApi(s, inputs[0].api);
      if !PollFails(inputs[0].pollError) {
        var v := Service(a.state, Polled(s, inputs[0]));
        if v.exit == Running {
          var rest := Run(v.state, inputs[1..]);
          RunReadFifo(v.state, inputs[1..]);
          InboundChain(s.readRing.bytes, a.consumed, a.state.readRing.bytes, v.received,
                       v.state.readRing.bytes, rest.received, rest.consumed, rest.state.readRing.bytes);
        } else {
          assert s.readRing.bytes + v.received == a.consumed + (a.state.readRing.bytes + v.received);
        }
      }
    }
  }

  /** Outbound FIFO: the bytes in the write ring at the start followed by
      every byte the producer stored are exactly the bytes written to the
      socket, in order, followed by what is still in the ring. */
  lemma {:induction false} RunWriteFifo(s: PumpState, inputs: seq<PumpInput>)
    requires s.Valid()
    ensures var r := Run(s, inputs);
      s.writeRing.bytes + r.produced == r.sent + r.state.writeRing.bytes
    decreases |inputs|
  {
    if inputs != [] {
      var a := ApplyApi(s, inputs[0].api);
      if !PollFails(inputs[0].pollError) {
        var v := Service(a.state, Polled(s, inputs[0]));
        if v.exit == Running {
          var rest := Run(v.state, inputs[1..]);
          RunWriteFifo(v.state, inputs[1..]);
          OutboundChain(s.writeRing.bytes, a.produced, v.sent, v.state.writeRing.bytes,
                        rest.produced, rest.sent, rest.state.writeRing.bytes);
        }
      }
    }
  }

  /** Sequence bookkeeping for RunReadFifo: ring0 = taken + ring1,
      ring1 + got = ring2 and ring2 + got' = taken' + ring3 chain up. */
  lemma InboundChain(ring0: seq<byte>, taken: seq<byte>, ring1: seq<byte>, got: seq<byte>,
                     ring2: seq<byte>, got': seq<byte>, taken': seq<byte>, ring3: seq<byte>)
    requires ring0 == taken + ring1 && ring2 == ring1 + got && ring2 + got' == taken' + ring3
    ensures ring0 + (got + got') == (taken + taken') + ring3
  {
    calc {
      ring0 + (got + got');
      taken + ((ring1 + got) + got');
      taken + (taken' + ring3);
    }
  }

  /** Sequence bookkeeping for RunWriteFifo. */
  lemma OutboundChain(ring0: seq<byte>, put: seq<byte>, sent: seq<byte>, ring1: seq<byte>,
                      put': seq<byte>, sent': seq<byte>, ring2: seq<byte>)
    requires ring0 + put == sent + ring1 && ring1 + put' == sent' + ring2
    ensures ring0 + (put + put') == (sent + sent') + ring2
  {
    calc {
      ring0 + (put + put');
      (ring0 + put) + put';
      sent + (ring1 + put');
      sent + (sent' + ring2);
    }
  }

  /** Shutdown drain: a run that finishes without the peer ending the stream
      finishes because shutdown was requested and only once the write ring is
      empty. */
  lemma {:induction false} RunFinishedDrained(s: PumpState, inputs: seq<PumpInput>)
    requires s.Valid()
    ensures var r := Run(s, inputs);
      r.exit == Finished && !r.peerEnded ==> r.state.shutdown && r.state.writeRing.bytes == []
    decreases |inputs|
  {
    if inputs != [] {
      var a := ApplyApi(s, inputs[0].api);
      if !PollFails(inputs[0].pollError) {
        var v := Service(a.state, Polled(s, inputs[0]));
        if v.exit == Running {
          RunFinishedDrained(v.state, inputs[1..]);
        }
      }
    }
  }

  /** The shutdown flag, once set, stays set for the rest of the run. */
  lemma {:induction false} RunShutdownSticky(s: PumpState, inputs: seq<PumpInput>)
    requires s.Valid()
    ensures s.shutdown ==> Run(s, inputs).state.shutdown
    decreases |inputs|
  {
    if inputs != [] {
      var a := ApplyApi(s, inputs[0].api);
      if !PollFails(inputs[0].pollError) {
        var v := Service(a.state, Polled(s, inputs[0]));
        if v.exit == Running {
          RunShutdownSticky(v.state, inputs[1..]);
        }
      }
    }
  }

  /** At most one notification byte per iteration, and only for
      iterations that moved bytes: so never more notifications than
      iterations, nor than bytes moved. */
  lemma {:induction false} RunNotificationBound(s: PumpState, inputs: seq<PumpInput>)
    requires s.Valid()
    ensures var r := Run(s, inputs);
      r.notifications <= r.iterations && r.notifications <= |r.received| + |r.sent|
    decreases |inputs|
  {
    if inputs != [] {
      var a := ApplyApi(s, inputs[0].api);
      if !PollFails(inputs[0].pollError) {
        var v := Service(a.state, Polled(s, inputs[0]));
        if v.exit == Running {
          RunNotificationBound(v.state, inputs[1..]);
        }
      }
    }
  }

  /** With shutdown requested, a peer that takes everything the write ring
      holds and a notification that goes through, the iteration sends the
      whole write ring in order and finishes, whatever the read side did
      (inbound data is never waited for). */
  lemma DrainCompletes(s: PumpState, w: Wakeup)
    requires s.Valid() && s.shutdown
    requires w.revents.socketOut && w.write.Wrote? && w.write.room >= s.writeRing.Filled()
    requires !ReadFatal(s, w) && w.notifyOk
    ensures Service(s, w).exit == Finished
    ensures Service(s, w).sent == s.writeRing.bytes
  {
  }

  /** A zero-length read (clean close) and a reset by the peer end the
      iteration in exactly the same way. */
  lemma ZeroReadLikeReset(s: PumpState, w: Wakeup)
    requires s.Valid() && ReadAttempted(s.readRing, w.revents)
    ensures Service(s, w.(read := Received([]))) == Service(s, w.(read := ReadFailed(ECONNRESET)))
    ensures Service(s, w.(read := Received([]))).peerEnded
  {
  }

  /** The interest set decides what an iteration may do: with the read ring
      full when the interest set is computed, nothing is read in that
      iteration, even if the consumer makes room while poll waits; with the
      write ring empty, nothing is written, even if the producer stores
      bytes meanwhile. */
  lemma IterationFollowsInterest(s: PumpState, input: PumpInput)
    requires s.Valid()
    ensures |s.readRing.bytes| == s.readRing.capacity ==> Run(s, [input]).received == []
    ensures s.writeRing.bytes == [] ==> Run(s, [input]).sent == []
  {
  }
}
