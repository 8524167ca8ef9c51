/** Vocabulary shared by the whole model of the socket transport: bytes, the
    errno values the transport tells apart, and a small Option type. Every
    system call of the transport is an input of the model; nothing here
    performs I/O. */
module Sys {

  newtype byte = x: int | 0 <= x < 256

  datatype Option<+T> = None | Some(value: T)

  /** The errno values the transport compares against; any other value is
      OtherErrno. */
  datatype Errno =
    | EINTR
    | EAGAIN
    | EWOULDBLOCK
    | ECONNRESET
    | EPIPE
    | ECONNREFUSED
    | ENOENT
    | OtherErrno(code: nat)

  /** "Would block": the transport treats EAGAIN and EWOULDBLOCK alike. */
  predicate WouldBlock(e: Errno) {
    e == EAGAIN || e == EWOULDBLOCK
  }

  function Min(a: nat, b: nat): (m: nat)
    ensures m <= a && m <= b && (m == a || m == b)
  {
    if a <= b then a else b
  }
}
