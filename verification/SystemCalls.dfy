/** What the kernel may answer. Every theorem quantifies over these answers. */
module SystemCalls {
  import opened Layouts

  datatype Errno = EWOULDBLOCK | EPIPE | ECONNRESET | OtherErrno

  /** readv: -1 with errno, or the bytes delivered (none at end of stream). */
  datatype ReadOutcome = ReadFailed(errno: Errno) | ReadBytes(bytes: seq<byte>)

  /** write: -1 with errno, or how many leading bytes were taken. */
  datatype WriteOutcome = WriteFailed(errno: Errno) | Wrote(count: nat)

  predicate Allows(outcome: WriteOutcome, len: nat) {
    outcome.Wrote? ==> outcome.count <= len
  }
}
