/** The acceptor of the server role (run_server in vchan/socket.c, up to the
    hand-over to the pump) as specification functions: a loop of bounded
    polls on the listening socket that checks the shutdown flag after every
    poll, then a loop of accept calls retried on EINTR, then switching the
    accepted socket to non-blocking mode. */
module Acceptor {
  import opened Sys

  /** One bounded poll of the listening socket: its error (None when poll did
      not fail), whether it reported the socket readable, and whether the API
      thread raised the shutdown flag while it waited. */
  datatype AcceptorPoll = AcceptorPoll(error: Option<Errno>, listenReadable: bool, raiseShutdown: bool)

  datatype AcceptResult = AcceptOk | AcceptFailed(errno: Errno)

  /** How the poll loop ended: a peer is waiting to be accepted, poll failed,
      shutdown was seen, or (in the model only) the polls ran out. */
  datatype WaitKind = Readable | WaitPollError | WaitShutdown | WaitExhausted

  /** polls: how many polls the loop made; shutdown: the flag afterwards. */
  datatype Waited = Waited(kind: WaitKind, polls: nat, shutdown: bool)

  /** How the accept loop ended: a connection, a hard error, or (in the model
      only) the accept outcomes ran out, every one of them EINTR. */
  datatype AcceptKind = AcceptedPeer | AcceptFailure | AcceptExhausted

  /** calls: how many times accept was called. */
  datatype Accepting = Accepting(kind: AcceptKind, calls: nat)

  /** The outcome of connection establishment on the server side. */
  datatype Establishment =
    | PeerConnected(shutdown: bool, acceptCalls: nat)
    | ListenPollError(shutdown: bool, acceptCalls: nat)
    | ShutdownRequested(shutdown: bool, acceptCalls: nat)
    | AcceptError(shutdown: bool, acceptCalls: nat)
    | NonBlockError(shutdown: bool, acceptCalls: nat)
    | WaitingForPeer(shutdown: bool, acceptCalls: nat)
    | AcceptInterrupted(shutdown: bool, acceptCalls: nat)

  /** A poll error other than EINTR ends the acceptor. */
  predicate PollFatal(p: AcceptorPoll) {
    p.error.Some? && p.error.value != EINTR
  }

  /** A poll after which the loop goes round again: no fatal error, the flag
      still clear, the listening socket not readable. */
  predicate Continues(p: AcceptorPoll) {
    !PollFatal(p) && !p.raiseShutdown && !p.listenReadable
  }

  /** The poll loop of run_server, from the shutdown flag's current value. */
  function Wait(shutdown: bool, polls: seq<AcceptorPoll>): (r: Waited)
    ensures r.polls <= |polls|
    decreases |polls|
  {
    if polls == [] then
      Waited(WaitExhausted, 0, shutdown)
    else
      var p := polls[0];
      var flag := shutdown || p.raiseShutdown;
      if PollFatal(p) then Waited(WaitPollError, 1, flag)
      else if flag then Waited(WaitShutdown, 1, flag)
      else if p.listenReadable then Waited(Readable, 1, flag)
      else
        var rest := Wait(flag, polls[1..]);
        Waited(rest.kind, rest.polls + 1, rest.shutdown)
  }

  /** Every poll before the last one went round again; the last one decides:
      a fatal error, else shutdown (even when the socket is readable), else
      readiness. Shutdown is checked after every poll and before readiness. */
  lemma {:induction false} WaitCharacterized(shutdown: bool, polls: seq<AcceptorPoll>)
    ensures var r := Wait(shutdown, polls);
      && (forall j :: 0 <= j < r.polls - 1 ==> Continues(polls[j]))
      && (r.polls > 1 ==> !shutdown)
      && (r.polls == 0 ==> r.kind == WaitExhausted && polls == [] && r.shutdown == shutdown)
      && (r.polls > 0 ==> r.shutdown == (shutdown || polls[r.polls - 1].raiseShutdown))
      && (r.kind == WaitPollError <==> r.polls > 0 && PollFatal(polls[r.polls - 1]))
      && (r.kind == WaitShutdown ==> r.polls > 0 && !PollFatal(polls[r.polls - 1]) && r.shutdown)
      && (r.kind == Readable ==>
            r.polls > 0 && !PollFatal(polls[r.polls - 1]) && !r.shutdown && polls[r.polls - 1].listenReadable)
      && (r.kind == WaitExhausted ==>
            r.polls == |polls| && (r.polls > 0 ==> !r.shutdown && Continues(polls[r.polls - 1])))
    decreases |polls|
  {
    if polls != [] {
      var p := polls[0];
      var flag := shutdown || p.raiseShutdown;
      if !PollFatal(p) && !flag && !p.listenReadable {
        var rest := Wait(flag, polls[1..]);
        WaitCharacterized(flag, polls[1..]);
        assert forall j :: 0 <= j < rest.polls ==> polls[1..][j] == polls[j + 1];
        if rest.polls == 0 {
          assert polls[1..] == [];
        }
      }
    }
  }

  /** Cancellation before a connection: if the flag is raised, before or
      during some poll that does not fail, and no earlier poll failed or found
      a peer, the acceptor stops on shutdown by then without accepting. */
  lemma {:induction false} CancelBeforePeer(shutdown: bool, polls: seq<AcceptorPoll>, k: nat)
    requires k < |polls|
    requires forall j :: 0 <= j < k ==> !PollFatal(polls[j]) && !polls[j].listenReadable
    requires !PollFatal(polls[k])
    requires shutdown || polls[k].raiseShutdown
    ensures Wait(shutdown, polls).kind == WaitShutdown
    ensures Wait(shutdown, polls).polls <= k + 1
    decreases k
  {
    var p := polls[0];
    if k > 0 && !(shutdown || p.raiseShutdown) {
      assert forall j :: 0 <= j < k - 1 ==> polls[1..][j] == polls[j + 1];
      CancelBeforePeer(false, polls[1..], k - 1);
    }
  }

  /** The accept loop of run_server: accept is retried only on EINTR. */
  function AcceptLoop(accepts: seq<AcceptResult>): (r: Accepting)
    ensures r.calls <= |accepts|
    decreases |accepts|
  {
    if accepts == [] then Accepting(AcceptExhausted, 0)
    else
      match accepts[0]
      case AcceptOk => Accepting(AcceptedPeer, 1)
      case AcceptFailed(e) =>
        if e != EINTR then Accepting(AcceptFailure, 1)
        else
          var rest := AcceptLoop(accepts[1..]);
          Accepting(rest.kind, rest.calls + 1)
  }

  /** Every accept call before the last failed with EINTR; the last one is
      the connection, or the error that ended the loop. */
  lemma {:induction false} AcceptCharacterized(accepts: seq<AcceptResult>)
    ensures var r := AcceptLoop(accepts);
      && (forall j :: 0 <= j < r.calls - 1 ==> accepts[j] == AcceptFailed(EINTR))
      && (r.kind == AcceptedPeer <==> r.calls > 0 && accepts[r.calls - 1] == AcceptOk)
      && (r.kind == AcceptFailure <==>
            r.calls > 0 && accepts[r.calls - 1].AcceptFailed? && accepts[r.calls - 1].errno != EINTR)
      && (r.kind == AcceptExhausted ==>
            r.calls == |accepts| && forall j :: 0 <= j < |accepts| ==> accepts[j] == AcceptFailed(EINTR))
    decreases |accepts|
  {
    if accepts != [] && accepts[0] == AcceptFailed(EINTR) {
      var rest := AcceptLoop(accepts[1..]);
      AcceptCharacterized(accepts[1..]);
      assert forall j :: 0 <= j < |accepts| - 1 ==> accepts[1..][j] == accepts[j + 1];
    }
  }

  /** Connection establishment of run_server: the poll loop, the accept
      loop, then the switch to non-blocking mode. accept is called only after
      a poll that found the listening socket readable with the flag clear. */
  function Establish(shutdown: bool, polls: seq<AcceptorPoll>, accepts: seq<AcceptResult>, nonBlockOk: bool)
    : (e: Establishment)
    ensures e.shutdown == Wait(shutdown, polls).shutdown
    ensures Wait(shutdown, polls).kind != Readable ==> e.acceptCalls == 0
    ensures Wait(shutdown, polls).kind == Readable ==> e.acceptCalls == AcceptLoop(accepts).calls
    ensures e.acceptCalls <= |accepts|
    // a connection exactly when a peer is ready, accepted, and made non-blocking
    ensures e.PeerConnected? <==>
              Wait(shutdown, polls).kind == Readable && AcceptLoop(accepts).kind == AcceptedPeer && nonBlockOk
    // each way of failing before the pump gives its own outcome
    ensures Wait(shutdown, polls).kind == WaitPollError ==> e.ListenPollError?
    ensures Wait(shutdown, polls).kind == WaitShutdown ==> e.ShutdownRequested?
    ensures Wait(shutdown, polls).kind == WaitExhausted ==> e.WaitingForPeer?
    ensures Wait(shutdown, polls).kind == Readable && AcceptLoop(accepts).kind == AcceptFailure ==> e.AcceptError?
    ensures Wait(shutdown, polls).kind == Readable && AcceptLoop(accepts).kind == AcceptExhausted ==>
              e.AcceptInterrupted?
    ensures Wait(shutdown, polls).kind == Readable && AcceptLoop(accepts).kind == AcceptedPeer && !nonBlockOk ==>
              e.NonBlockError?
  {
    var w := Wait(shutdown, polls);
    match w.kind
    case WaitPollError => ListenPollError(w.shutdown, 0)
    case WaitShutdown => ShutdownRequested(w.shutdown, 0)
    case WaitExhausted => WaitingForPeer(w.shutdown, 0)
    case Readable =>
      var a := AcceptLoop(accepts);
      match a.kind
      case AcceptFailure => AcceptError(w.shutdown, a.calls)
      case AcceptExhausted => AcceptInterrupted(w.shutdown, a.calls)
      case AcceptedPeer =>
        if nonBlockOk then PeerConnected(w.shutdown, a.calls) else NonBlockError(w.shutdown, a.calls)
  }
}
