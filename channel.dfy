/** The channel control block and the worker-thread code of the socket
    transport (vchan/socket.c) that updates it: change_state, the pump loop
    comm_loop split into its two critical sections, run_server and the
    client worker. Each method is proved against the specification functions
    of the modules Pump and Acceptor. The mutex is not modelled: each method
    body that the source runs under the mutex is one atomic step, and the
    API thread acts only between them (ApiActs). */
module Channel {
  import opened Sys
  import opened Rings
  import opened Pump
  import opened Acceptor

  datatype ChannelState = Connecting | Connected | Disconnected

  /** How run_server ended: before the pump ran, with the reason, or after
      the pump, with how the pump ended. */
  datatype ServerOutcome = NotServed(establishment: Establishment) | Served(pumpExit: Exit)

  class ControlBlock {
    var state: ChannelState
    var shutdown: bool
    var readRing: Ring
    var writeRing: Ring
    /** The number of notification bytes written to the socket-event pipe. */
    var eventsSignalled: nat
    /** Every value stored in state, in order. */
    ghost var stateLog: seq<ChannelState>

    /** The fields the pump works on. */
    function Snapshot(): PumpState
      reads this
    {
      PumpState(readRing, writeRing, shutdown)
    }

    ghost predicate Valid()
      reads this
    {
      Snapshot().Valid()
    }

    constructor (readCapacity: nat, writeCapacity: nat)
      ensures Valid()
      ensures state == Connecting && stateLog == [Connecting] && !shutdown && eventsSignalled == 0
      ensures readRing == Ring(readCapacity, []) && writeRing == Ring(writeCapacity, [])
    {
      state := Connecting;
      stateLog := [Connecting];
      shutdown := false;
      readRing := Ring(readCapacity, []);
      writeRing := Ring(writeCapacity, []);
      eventsSignalled := 0;
    }

    /** change_state: the new state is stored whether or not the notification
        byte could be written. */
    method ChangeState(newState: ChannelState, notifyOk: bool)
      modifies this
      ensures state == newState && stateLog == old(stateLog) + [newState]
      ensures eventsSignalled == old(eventsSignalled) + (if notifyOk then 1 else 0)
      ensures Snapshot() == old(Snapshot())
    {
      state := newState;
      stateLog := stateLog + [newState];
      if notifyOk {
        eventsSignalled := eventsSignalled + 1;
      }
    }

    /** The first critical section of a pump iteration: the interest set. */
    method PollInterest() returns (interest: Events)
      requires Valid()
      ensures interest.socketIn <==> readRing.Available() > 0
      ensures interest.socketOut <==> writeRing.Filled() > 0
      ensures interest.userEventIn
      ensures interest == InterestOf(Snapshot())
    {
      interest := Events(false, false, true);
      if readRing.Available() > 0 {
        interest := interest.(socketIn := true);
      }
      if writeRing.Filled() > 0 {
        interest := interest.(socketOut := true);
      }
    }

    /** The API thread's critical section between two of the pump's (not part
        of the transport: it stands for the library's read and write calls and
        for the shutdown request). */
    method ApiActs(a: ApiStep)
      requires Valid()
      modifies this
      ensures Valid()
      ensures Snapshot() == ApplyApi(old(Snapshot()), a).state
      ensures state == old(state) && stateLog == old(stateLog) && eventsSignalled == old(eventsSignalled)
    {
      var e := ApplyApi(Snapshot(), a);
      readRing, writeRing, shutdown := e.state.readRing, e.state.writeRing, e.state.shutdown;
    }

    /** The read block of the second critical section: read from the socket
        into the tail of the read ring. */
    method ReadIntoRing(w: Wakeup) returns (moved: bool, ended: bool, failed: bool)
      requires Valid()
      modifies this
      ensures Valid()
      ensures var p := ReadPhase(old(readRing), w.revents, w.read);
        readRing == p.ring && moved == (p.moved != []) && ended == p.ended && failed == p.failed
      ensures writeRing == old(writeRing) && shutdown == old(shutdown)
      ensures state == old(state) && stateLog == old(stateLog) && eventsSignalled == old(eventsSignalled)
    {
      moved, ended, failed := false, false, false;
      if w.revents.socketIn {
        var size := readRing.Available();
        if size > 0 {
          match w.read {
            case Received(data) =>
              var count := Min(|data|, size);
              if count == 0 {
                ended := true;
              } else {
                moved := true;
              }
              readRing := readRing.AdvanceTail(data[..count]);
            case ReadFailed(e) =>
              if WouldBlock(e) {
              } else if e == ECONNRESET {
                ended := true;
              } else {
                failed := true;
              }
          }
        }
      }
    }

    /** The write block of the second critical section: write from the head
        of the write ring to the socket. */
    method WriteFromRing(w: Wakeup) returns (moved: bool, ended: bool, failed: bool)
      requires Valid()
      modifies this
      ensures Valid()
      ensures var p := WritePhase(old(writeRing), w.revents, w.write);
        writeRing == p.ring && moved == (p.moved != []) && ended == p.ended && failed == p.failed
      ensures readRing == old(readRing) && shutdown == old(shutdown)
      ensures state == old(state) && stateLog == old(stateLog) && eventsSignalled == old(eventsSignalled)
    {
      moved, ended, failed := false, false, false;
      if w.revents.socketOut {
        var size := writeRing.Filled();
        if size > 0 {
          match w.write {
            case Wrote(room) =>
              var count := Min(room, size);
              if count > 0 {
                moved := true;
              }
              writeRing := writeRing.AdvanceHead(count);
            case WriteFailed(e) =>
              if WouldBlock(e) {
              } else if e == EPIPE {
                ended := true;
              } else {
                failed := true;
              }
          }
        }
      }
    }

    /** The second critical section of a pump iteration, after poll returned:
        snapshot the shutdown flag, read, write, notify, apply the drain rule.
        Draining the user-event pipe has no effect on the model. */
    method ServiceWakeup(w: Wakeup) returns (exit: Exit)
      requires Valid()
      modifies this
      ensures Valid()
      ensures var r := Service(old(Snapshot()), w);
        Snapshot() == r.state && exit == r.exit &&
        eventsSignalled == old(eventsSignalled) + (if r.notified then 1 else 0)
      ensures state == old(state) && stateLog == old(stateLog)
    {
      var shutdownSeen := shutdown;
      var readMoved, readEnded, readFailed := ReadIntoRing(w);
      if readFailed {
        return Fatal(ReadError);
      }
      var wroteMoved, writeEnded, writeFailed := WriteFromRing(w);
      if writeFailed {
        return Fatal(WriteError);
      }
      if readMoved || wroteMoved {
        if !w.notifyOk {
          return Fatal(NotifyError);
        }
        eventsSignalled := eventsSignalled + 1;
      }
      var done := readEnded || writeEnded;
      // when shutting down, finish only once the write ring is flushed
      if shutdownSeen && writeRing.Filled() == 0 {
        done := true;
      }
      exit := if done then Finished else Running;
    }

    /** comm_loop over one input per iteration. It ends Running when the
        inputs run out before done is set (the real loop would go on). */
    method CommLoop(inputs: seq<PumpInput>) returns (exit: Exit)
      requires Valid()
      modifies this
      ensures Valid()
      ensures var r := Run(old(Snapshot()), inputs);
        Snapshot() == r.state && exit == r.exit && eventsSignalled == old(eventsSignalled) + r.notifications
      ensures state == old(state) && stateLog == old(stateLog)
    {
      ghost var s0 := Snapshot();
      ghost var total := Run(s0, inputs);
      var i := 0;
      var done := false;
      exit := Running;
      while !done && i < |inputs|
        invariant 0 <= i <= |inputs|
        invariant Valid()
        invariant state == old(state) && stateLog == old(stateLog)
        invariant !done ==>
          exit == Running &&
          Run(Snapshot(), inputs[i..]).state == total.state &&
          Run(Snapshot(), inputs[i..]).exit == total.exit &&
          eventsSignalled + Run(Snapshot(), inputs[i..]).notifications == old(eventsSignalled) + total.notifications
        invariant done ==>
          Snapshot() == total.state && exit == total.exit &&
          eventsSignalled == old(eventsSignalled) + total.notifications
        decreases |inputs| - i
      {
        assert inputs[i..][0] == inputs[i] && inputs[i..][1..] == inputs[i + 1..];
        var interest := PollInterest();
        var input := inputs[i];
        ApiActs(input.api);
        if PollFails(input.pollError) {
          exit := Fatal(PollError);
          done := true;
        } else {
          var e := ServiceWakeup(input.wakeup.(revents := PollReports(interest, input.wakeup.revents)));
          if e != Running {
            exit := e;
            done := true;
          }
        }
        i := i + 1;
      }
    }

    /** run_server: wait for a peer while watching the shutdown flag, accept
        it, make it non-blocking, then CONNECTED, the pump, DISCONNECTED. The
        pump's end, fatal or not, is always followed by DISCONNECTED; every
        exit before the pump leaves the state and the rings untouched. */
    method RunServer(
      polls: seq<AcceptorPoll>, accepts: seq<AcceptResult>, nonBlockOk: bool,
      connectedNotifyOk: bool, inputs: seq<PumpInput>, disconnectedNotifyOk: bool)
      returns (outcome: ServerOutcome)
      requires Valid()
      modifies this
      ensures Valid()
      ensures var e := Establish(old(shutdown), polls, accepts, nonBlockOk);
        if e.PeerConnected? then
          var r := Run(PumpState(old(readRing), old(writeRing), e.shutdown), inputs);
          && outcome == Served(r.exit)
          && Snapshot() == r.state
          && state == Disconnected
          && stateLog == old(stateLog) + [Connected, Disconnected]
          && eventsSignalled ==
               old(eventsSignalled) + (if connectedNotifyOk then 1 else 0) + r.notifications
               + (if disconnectedNotifyOk then 1 else 0)
        else
          && outcome == NotServed(e)
          && state == old(state) && stateLog == old(stateLog)
          && readRing == old(readRing) && writeRing == old(writeRing) && shutdown == e.shutdown
          && eventsSignalled == old(eventsSignalled)
    {
      ghost var waited := Wait(shutdown, polls);
      var connected := false;
      var i := 0;
      while !connected && i < |polls|
        invariant 0 <= i <= |polls|
        invariant Valid()
        invariant state == old(state) && stateLog == old(stateLog) && eventsSignalled == old(eventsSignalled)
        invariant readRing == old(readRing) && writeRing == old(writeRing)
        invariant !connected ==> Waited(Wait(shutdown, polls[i..]).kind, Wait(shutdown, polls[i..]).polls + i,
                                        Wait(shutdown, polls[i..]).shutdown) == waited
        invariant connected ==> waited == Waited(Readable, i, shutdown) && !shutdown
        decreases |polls| - i
      {
        assert polls[i..][0] == polls[i] && polls[i..][1..] == polls[i + 1..];
        var p := polls[i];
        if p.raiseShutdown {
          // not the worker's own write: this is the API thread's shutdown
          // request, taking effect while poll waits
          shutdown := true;
        }
        if PollFatal(p) {
          return NotServed(ListenPollError(shutdown, 0));
        }
        var done := shutdown;
        if done {
          return NotServed(ShutdownRequested(shutdown, 0));
        }
        connected := p.listenReadable;
        i := i + 1;
      }
      if !connected {
        assert polls[i..] == [];
        return NotServed(WaitingForPeer(shutdown, 0));
      }

      ghost var accepting := AcceptLoop(accepts);
      var accepted := false;
      var j := 0;
      while !accepted && j < |accepts|
        invariant 0 <= j <= |accepts|
        invariant !accepted ==> Accepting(AcceptLoop(accepts[j..]).kind, AcceptLoop(accepts[j..]).calls + j) == accepting
        invariant accepted ==> accepting == Accepting(AcceptedPeer, j)
        decreases |accepts| - j
      {
        assert accepts[j..][0] == accepts[j] && accepts[j..][1..] == accepts[j + 1..];
        match accepts[j] {
          case AcceptOk =>
            accepted := true;
          case AcceptFailed(e) =>
            if e != EINTR {
              return NotServed(AcceptError(shutdown, j + 1));
            }
        }
        j := j + 1;
      }
      if !accepted {
        assert accepts[j..] == [];
        return NotServed(AcceptInterrupted(shutdown, j));
      }
      if !nonBlockOk {
        return NotServed(NonBlockError(shutdown, j));
      }

      ChangeState(Connected, connectedNotifyOk);
      var pumpExit := CommLoop(inputs);
      ChangeState(Disconnected, disconnectedNotifyOk);
      // a failure to close the accepted socket is only logged
      outcome := Served(pumpExit);
    }

    /** libvchan__client: the pump over the connected socket, then
        DISCONNECTED, the only state change on the client path. */
    method ClientWorker(inputs: seq<PumpInput>, disconnectedNotifyOk: bool) returns (pumpExit: Exit)
      requires Valid()
      modifies this
      ensures Valid()
      ensures var r := Run(old(Snapshot()), inputs);
        && pumpExit == r.exit
        && Snapshot() == r.state
        && state == Disconnected
        && stateLog == old(stateLog) + [Disconnected]
        && eventsSignalled == old(eventsSignalled) + r.notifications + (if disconnectedNotifyOk then 1 else 0)
    {
      pumpExit := CommLoop(inputs);
      ChangeState(Disconnected, disconnectedNotifyOk);
    }
  }
}
