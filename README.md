# Socket transport for vchan: a Dafny model

This project models the local-socket backend of the vchan channel
(`vchan/socket.c`). A vchan channel carries a byte stream in both directions.
This backend carries it over a Unix-domain stream socket. A worker thread moves
bytes between the socket and two bounded ring buffers, `read_ring` and
`write_ring`, which the application's API thread uses. The model covers:

- the **I/O pump** `comm_loop`. It has two critical sections per iteration.
  The first computes the poll interest set. The second services the wakeup:
  the read into `read_ring`, the write from `write_ring`, the single
  notification byte, and the shutdown-drain rule. The model states both one
  iteration and a whole run over a sequence of inputs;
- the **acceptor** `run_server`. It polls the listening socket and checks the
  shutdown flag after every poll. It then accepts, retrying only on EINTR,
  switches the socket to non-blocking mode, and runs
  CONNECTED → pump → DISCONNECTED;
- the **client connect retry** of `libvchan__connect`;
- **`change_state`**, and the order in which the client worker calls it.

Every system call (`poll`, `read`, `write`, `accept`, `connect`, `fcntl`,
`socket`, the notification writes) is an input of the model. Each is given as
an abstract outcome: a count, the bytes delivered, or an errno.

- `read(2)` is given as `Received(data)`: the bytes queued on the socket. The
  read returns the first `min(|data|, size)` of them, so it never returns more
  than was asked for, and `Received([])` is the zero-length read of a peer
  that closed.
- `write(2)` is given as `Wrote(room)`: the socket accepts
  `min(room, size)` bytes.

Modules, one per component:

- `Sys` (sys.dfy) holds bytes, errno values and `Option`.
- `Rings` (rings.dfy) holds a ring buffer as a bounded FIFO: a capacity plus
  the bytes it holds, oldest first. `Available() + Filled() == capacity`
  follows from the definition, and `Valid()` (at most `capacity` bytes) is
  preserved by every operation.
- `Pump` (pump.dfy) holds the specification functions of the pump and the
  lemmas about whole runs.
- `Acceptor` (acceptor.dfy) holds the specification functions of the two
  loops of `run_server`.
- `Connect` (connect.dfy) holds `libvchan__connect` as a method with its loop.
- `Channel` (channel.dfy) holds the control block as a class
  `ControlBlock`. Its fields are `state`, `shutdown`, the two rings, a count
  of notification bytes written to the socket-event pipe, and a ghost log of
  the stored states. Its methods mirror the source's imperative code and are
  proved against the functions of `Pump` and `Acceptor`.

The mutex is represented by atomicity: each critical section of the source is
one method. The API thread (the library's read and write calls and the
shutdown request) is not in this file. It is represented by
`ControlBlock.ApiActs` and its function `Pump.ApplyApi`, which run while the
pump waits in `poll`. In one such step the consumer takes up to `consume`
bytes from `read_ring`, the producer stores as much of `produce` as fits into
`write_ring`, and the shutdown flag may be raised. The flag is never cleared.
The readiness of the descriptors when poll returns is an input too. Poll
reports only the bits the interest set asked for (`Pump.PollReports`). So
when the API thread makes room in a full `read_ring`, or stores bytes into an
empty `write_ring`, while poll waits, the socket is not polled for that
direction until the next iteration. The re-examination of the ring sizes at
lines 210-211 and 235-236 is modelled as written.

Two facts about the code that the model keeps:

- `run_server` (line 171) and `libvchan__client` (line 96) call
  `change_state(…DISCONNECTED)` after `comm_loop` returns, even when it
  returned on a fatal error.
- The client's retry sleep at line 109 is `CONNECT_DELAY_MS * 1000`
  nanoseconds, which is 100 µs. The acceptor's poll at line 143 waits
  `CONNECT_DELAY_MS` milliseconds, which is 100 ms. Timing is not modelled.

## Model

| member | source | states |
|---|---|---|
| `Pump.InterestOf` | vchan/socket.c:186-192 | read interest iff `read_ring` has room; write interest iff `write_ring` holds bytes; the user-event pipe always has read interest |
| `Channel.ControlBlock.PollInterest` | vchan/socket.c:186-192 | the first critical section computes exactly that interest set from the control block's rings and changes nothing |
| `Pump.ReadPhase` | vchan/socket.c:208-231 | the read is attempted only if the socket is readable and the ring has room; the ring gains exactly the bytes read, at its tail, never more than it has room for; 0 bytes or ECONNRESET ends the stream; EAGAIN/EWOULDBLOCK changes nothing; any other error is fatal; error and end cases move nothing |
| `Pump.WritePhase` | vchan/socket.c:233-254 | the write is attempted only if the socket is writable and the ring holds bytes; exactly `min(room, filled)` of the oldest bytes leave the ring, in order; EPIPE ends the stream; EAGAIN/EWOULDBLOCK changes nothing; any other error is fatal |
| `Pump.Service` | vchan/socket.c:199-270 | one iteration after poll: rings stay within capacity; read bytes are appended to `read_ring` and written bytes are its oldest; bytes enter `read_ring` only from a read that was attempted and returned data, and leave `write_ring` only through a write that was attempted and returned a count, so would-block, a 0-byte read, ECONNRESET and EPIPE move nothing; exact fatal conditions for read and write errors; a notification byte iff bytes moved and nothing failed; a failed notification is fatal, even where the drain rule would have finished; the pump finishes iff the peer ended the stream, or shutdown was seen and `write_ring` is empty after the write |
| `Channel.ControlBlock.ServiceWakeup` | vchan/socket.c:199-270 | the imperative critical section leaves the rings, the flag and the notification count exactly as `Pump.Service` says, and does not touch the state |
| `Channel.ControlBlock.ReadIntoRing` | vchan/socket.c:208-231 | the in-place read block leaves `read_ring` exactly as `Pump.ReadPhase` says and reports whether bytes moved, the stream ended or the read failed fatally; nothing else changes |
| `Channel.ControlBlock.WriteFromRing` | vchan/socket.c:233-254 | the in-place write block leaves `write_ring` exactly as `Pump.WritePhase` says and reports whether bytes moved, the stream ended or the write failed fatally; nothing else changes |
| `Pump.ZeroReadLikeReset` | vchan/socket.c:214-222 | a zero-length read and ECONNRESET have the same effect on an iteration, and both count as the peer ending the stream |
| `Pump.DrainCompletes` | vchan/socket.c:233-268 | with shutdown set, a peer that takes the whole `write_ring` and a notification that goes through, the iteration sends the entire ring in order and finishes, whatever inbound data remains |
| `Pump.Run` | vchan/socket.c:178-272 | over any sequence of iterations both rings stay within their capacities, which never change; a run that has not ended has used every input |
| `Pump.PollReports` | vchan/socket.c:187-194 | poll reports a readiness bit of a descriptor exactly when it is ready and the interest set asked for it |
| `Pump.IterationFollowsInterest` | vchan/socket.c:186-213 | an iteration that starts with `read_ring` full reads nothing, and one that starts with `write_ring` empty writes nothing, whatever the API thread does while poll waits |
| `Channel.ControlBlock.CommLoop` | vchan/socket.c:178-272 | the pump loop, which services each wakeup as poll reports it for the interest set `PollInterest` computed, ends with the rings, flag, exit and notification count of `Pump.Run`; a poll error other than EINTR ends it; the state is untouched |
| `Pump.RunReadFifo` | vchan/socket.c:208-231 | inbound FIFO over a run: the initial `read_ring` contents followed by all bytes read from the socket equal the bytes the consumer took followed by what remains |
| `Pump.RunWriteFifo` | vchan/socket.c:233-254 | outbound FIFO over a run: the initial `write_ring` contents followed by all bytes produced equal the bytes written to the socket, in order, followed by what remains |
| `Pump.RunFinishedDrained` | vchan/socket.c:265-268 | a run that finishes without the peer ending the stream finishes with shutdown set and `write_ring` empty |
| `Pump.RunShutdownSticky` | vchan/socket.c:199-200 | once the shutdown flag is set it is still set at the end of the run |
| `Pump.RunNotificationBound` | vchan/socket.c:206-263 | over a whole run, the notification bytes are at most the number of iterations and at most the number of bytes moved |
| `Acceptor.Wait` | vchan/socket.c:142-153 | the poll loop makes at most as many polls as are given; `Acceptor.WaitCharacterized` states which poll ends it and why |
| `Acceptor.WaitCharacterized` | vchan/socket.c:142-153 | every poll before the deciding one had no fatal error, a clear flag and no readable socket; the deciding poll has a fatal error (not EINTR), else shutdown, even when readable, else readiness with the flag clear |
| `Acceptor.CancelBeforePeer` | vchan/socket.c:147-151 | a shutdown raised before or during a non-failing poll, with no earlier peer or poll failure, stops the acceptor on shutdown by that poll |
| `Acceptor.AcceptLoop` | vchan/socket.c:155-162 | the accept loop makes at most as many calls as are given; `Acceptor.AcceptCharacterized` states which call ends it and why |
| `Acceptor.AcceptCharacterized` | vchan/socket.c:155-162 | every accept call before the last failed with EINTR; the loop ends with a connection iff the last call succeeded, and with an error iff the last call failed with something other than EINTR |
| `Acceptor.Establish` | vchan/socket.c:142-167 | accept is never called unless a poll found the listening socket readable with the flag clear, and then as often as the accept loop calls it; a connection exactly when a poll found a peer with the flag clear, accept succeeded and the non-blocking switch succeeded; a fatal poll error, shutdown, a fatal accept error and an fcntl failure each give their own outcome |
| `Channel.ControlBlock.RunServer` | vchan/socket.c:135-176 | if a peer was connected: state log gains exactly CONNECTED then DISCONNECTED, whatever way the pump ended, and the rings and notifications are those of the pump run; on every earlier exit (poll error, shutdown, accept error, fcntl failure) the state, the rings and the notifications are unchanged |
| `Channel.ControlBlock.ChangeState` | vchan/socket.c:274-281 | the new state is stored and logged whether or not the notification byte is written; one byte is counted only when the write succeeds |
| `Channel.ControlBlock.ClientWorker` | vchan/socket.c:86-98 | the client path runs the pump and then sets only DISCONNECTED |
| `Connect.FirstDecisive` | vchan/socket.c:117-124 | the first attempt that is not an ECONNREFUSED/ENOENT failure: all attempts before it are retryable and it is not |
| `Connect.Connect` | vchan/socket.c:100-133 | -1 if the socket cannot be created; success after k retries iff attempt k succeeds, every earlier attempt was ECONNREFUSED or ENOENT, and fcntl succeeds; -1 on the first other connect error or on an fcntl failure |
| `Connect.RetryUntilListening` | vchan/socket.c:117-124 | n refusals followed by a success connect after exactly n retries, whatever follows |

## Left out

- `libvchan__listen` (vchan/socket.c:41-71) is setup plumbing. Each step either succeeds or returns -1. It is not modelled.
- `libvchan__server` (vchan/socket.c:73-84) only masks signals and calls `run_server`. `Channel.ControlBlock.RunServer` models the call, and the mask is outside the model.
- `pthread_sigmask` in both worker entry points is OS-specific and outside the model.
- Threads and the mutex are replaced by atomic critical sections. The API thread acts once per pump iteration, while `poll` waits, after the interest set is computed. In the source, an action the API thread takes between the unlock at line 270 and the next lock at line 186 already counts for that iteration's interest set; in the model it is folded into the next API step and so counts from the following iteration. For example, bytes stored into an empty `write_ring` in that gap are written one iteration later in the model (`Pump.IterationFollowsInterest`). Since readiness is a free input, such a source run matches a model run with an extra iteration that moves nothing, so only the iteration count differs; this correspondence is argued here, not proved. The API's own read and write calls are not part of this model, so their "take up to n / store what fits" behaviour is an assumption.
- The POLLHUP and POLLERR bits of poll's revents are not modelled, because the source never tests them.
- `libvchan__drain_pipe` and the contents of both pipes are not part of this model. Draining the user-event pipe (lines 202-204) has no effect on the model's state.
- File descriptors are not modelled: closing the accepted socket (lines 173-175, where a failure is only logged) and closing on error paths. The accepted socket is not closed when fcntl fails at line 164.
- Timing is not modelled: `nanosleep` at line 123 and the poll timeouts. Error logging through `perror` is not modelled either.
- Loops run over finite input sequences. When the inputs run out the model reports that the loop was still going: `Running`, `WaitingForPeer`, `AcceptInterrupted`, `StillRefused`. The real loop would block or retry forever.
- The ring-buffer implementation (head/tail index arithmetic in `libvchan_private.h`) is not part of this model. A ring is an abstract bounded FIFO.
- Building the socket address (`strncpy` into `sun_path`) is not modelled.
