/** The client side of connection establishment (libvchan__connect in
    vchan/socket.c): open a stream socket, call connect until it succeeds,
    sleeping and retrying while the endpoint refuses or does not exist yet,
    then switch the socket to non-blocking mode. */
module Connect {
  import opened Sys

  datatype ConnectAttempt = ConnectOk | ConnectFailed(errno: Errno)

  /** ConnectedAfter(retries): success after sleeping and retrying retries
      times. ConnectError: -1 was returned. StillRefused (model only): every
      given attempt was refused, so the real loop would still be retrying. */
  datatype ConnectOutcome = ConnectedAfter(retries: nat) | ConnectError | StillRefused

  /** The failures connect is retried on. */
  predicate Retryable(a: ConnectAttempt) {
    a.ConnectFailed? && (a.errno == ECONNREFUSED || a.errno == ENOENT)
  }

  /** The index of the first attempt that is not a retryable failure, or the
      number of attempts when all are retryable. */
  function FirstDecisive(attempts: seq<ConnectAttempt>): (k: nat)
    ensures k <= |attempts|
    ensures forall j :: 0 <= j < k ==> Retryable(attempts[j])
    ensures k < |attempts| ==> !Retryable(attempts[k])
    decreases |attempts|
  {
    if attempts == [] || !Retryable(attempts[0]) then 0
    else 1 + FirstDecisive(attempts[1..])
  }

  /** libvchan__connect over the outcomes of socket(), of the successive
      connect calls and of fcntl(). */
  method Connect(socketOk: bool, attempts: seq<ConnectAttempt>, nonBlockOk: bool) returns (r: ConnectOutcome)
    ensures !socketOk ==> r == ConnectError
    ensures r.ConnectedAfter? ==>
              socketOk && nonBlockOk && r.retries < |attempts| && attempts[r.retries] == ConnectOk &&
              forall j :: 0 <= j < r.retries ==> Retryable(attempts[j])
    ensures r == StillRefused ==>
              socketOk && forall j :: 0 <= j < |attempts| ==> Retryable(attempts[j])
    ensures r == ConnectError ==>
              !socketOk ||
              (var k := FirstDecisive(attempts);
               k < |attempts| && (attempts[k].ConnectFailed? || !nonBlockOk))
  {
    if !socketOk {
      return ConnectError;
    }
    var i := 0;
    while i < |attempts| && attempts[i].ConnectFailed?
      invariant 0 <= i <= |attempts|
      invariant forall j :: 0 <= j < i ==> Retryable(attempts[j])
    {
      if !Retryable(attempts[i]) {
        assert FirstDecisive(attempts) == i;
        return ConnectError;
      }
      // nanosleep before the next attempt; timing is not modelled
      i := i + 1;
    }
    if i == |attempts| {
      return StillRefused;
    }
    if !nonBlockOk {
      assert FirstDecisive(attempts) == i;
      return ConnectError;
    }
    r := ConnectedAfter(i);
  }

  /** A client that starts before the server listens: n refusals (or
      missing endpoints) followed by a success, followed by anything, give a
      connection after n retries when the socket calls succeed. */
  lemma RetryUntilListening(n: nat, refusals: seq<Errno>, rest: seq<ConnectAttempt>)
    requires |refusals| == n
    requires forall j :: 0 <= j < n ==> refusals[j] == ECONNREFUSED || refusals[j] == ENOENT
    ensures var attempts := seq(n, j requires 0 <= j < n => ConnectFailed(refusals[j])) + [ConnectOk] + rest;
      FirstDecisive(attempts) == n && attempts[n] == ConnectOk
  {
  }
}
