/** The operating system as the library sees it: every answer the kernel may give is an argument
    of the model, so a statement proved for all arguments holds for every behaviour of the kernel. */
module Kernel {

  newtype Byte = b: int | 0 <= b < 256

  type Bytes = seq<Byte>

  datatype Option<+T> = None | Some(value: T)

  function Min(a: int, b: int): int { if a <= b then a else b }

  /** The `errno` values that the write path tells apart. */
  datatype Errno = EWOULDBLOCK | EPIPE | ECONNRESET | EOTHER

  /** What `write(2)` would do on an open write side. */
  datatype WriteChoice = Accept(n: nat) | Refuse(e: Errno)

  /** What `write(2)` returned: a byte count, or -1 with an `errno`. */
  datatype WriteResult = Wrote(n: nat) | Failed(e: Errno)

  /** `write(fd, p, len)`: after `shutdown(fd, SHUT_WR)` only EPIPE is possible, before it a count
      between 0 and `len` or any failure. */
  function Write(shut: bool, len: nat, w: WriteChoice): (r: WriteResult)
    ensures r.Wrote? ==> !shut && r.n <= len
  {
    if shut then Failed(EPIPE)
    else match w
      case Accept(n) => Wrote(Min(n, len))
      case Refuse(e) => Failed(e)
  }

  /** What a `readv(2)` finds on the socket: data, the end of the stream, or an error. */
  datatype Arrival = Data(bytes: Bytes) | EndOfStream | ReadError

  /** An epoll interest mask. The library only ever toggles the whole read mask
      (EPOLLIN | EPOLLPRI) and the write mask (EPOLLOUT). */
  datatype Interest = Interest(reading: bool, writing: bool)

  const NO_EVENTS := Interest(false, false)

  /** The events epoll reports for one descriptor. EPOLLERR and EPOLLHUP need no interest. */
  datatype Revents = Revents(epollin: bool, epollpri: bool, epollout: bool, epollerr: bool, epollhup: bool)
}
