/** The byte buffer of Buffer.h and Buffer.cc as a value: which bytes are readable,
    where they start and how long the underlying vector is. Class `Buffer` is proved
    against these functions; the properties of whole runs are proved here. */
module Layouts {

  newtype byte = i: int | 0 <= i < 256

  const CHEAP_PREPEND: nat := 8
  const INITIAL_SIZE: nat := 1024
  const EXTRA_SIZE: nat := 65536

  datatype Layout = Layout(contents: seq<byte>, reader: nat, size: nat) {

    ghost predicate Valid() {
      && CHEAP_PREPEND <= reader
      && reader + |contents| <= size
      && (contents == [] ==> reader == CHEAP_PREPEND)
    }

    function Writer(): nat { reader + |contents| }

    function Readable(): nat { |contents| }

    function Writable(): int { size - Writer() }

    /** The most bytes that readv can deliver under the chosen iovec array. */
    function ReadCapacity(): int {
      if Writable() < EXTRA_SIZE then Writable() + EXTRA_SIZE else Writable()
    }
  }

  function Fresh(initialSize: nat): Layout {
    Layout([], CHEAP_PREPEND, CHEAP_PREPEND + initialSize)
  }

  /** Room for `len` more bytes: the vector grows, or the readable bytes move to the front. */
  function EnsureWritable(b: Layout, len: nat): Layout {
    if b.Writable() >= len then b
    else if b.Writable() + b.reader < len + CHEAP_PREPEND then b.(size := b.Writer() + len)
    else b.(reader := CHEAP_PREPEND)
  }

  function Append(b: Layout, data: seq<byte>): Layout {
    var room := EnsureWritable(b, |data|);
    room.(contents := room.contents + data)
  }

  function RetrieveAll(b: Layout): Layout {
    b.(contents := [], reader := CHEAP_PREPEND)
  }

  function Retrieve(b: Layout, len: nat): Layout {
    if len < b.Readable() then b.(contents := b.contents[len..], reader := b.reader + len)
    else RetrieveAll(b)
  }

  /** readv delivered `bytes`: the tail of the vector is filled first, the spill is appended. */
  function ReadFd(b: Layout, bytes: seq<byte>): Layout
    requires b.Writable() >= 0
  {
    if |bytes| < b.Writable() then b.(contents := b.contents + bytes)
    else Append(b.(contents := b.contents + bytes[..b.Writable()]), bytes[b.Writable()..])
  }

  // ----- One operation

  /** Appending keeps the invariant, adds exactly `data` at the end, and never shrinks the vector. */
  lemma AppendIsConcatenation(b: Layout, data: seq<byte>)
    requires b.Valid()
    ensures Append(b, data).Valid()
    ensures Append(b, data).contents == b.contents + data
    ensures Append(b, data).size >= b.size
  {
  }

  /** Compaction is entered only when there is a gap in front of the readable bytes, and then the
      bytes fit behind the header; growth leaves the readable bytes where they are. */
  lemma RoomIsMadeOnceAndFits(b: Layout, len: nat)
    requires b.Valid()
    ensures var r := EnsureWritable(b, len);
      && r.contents == b.contents
      && r.Valid()
      && r.Writable() >= len
      && (b.Writable() >= len ==> r == b)
      && (r.reader != b.reader ==> b.reader > CHEAP_PREPEND && r.size == b.size)
      && (r.size != b.size ==> r.reader == b.reader && r.Writable() == len)
      && (r.size != b.size <==> b.Writable() < len && |b.contents| + len + CHEAP_PREPEND > b.size)
  {
  }

  /** A new buffer has room for exactly its initial size behind the header. */
  lemma FreshHolds(n: nat)
    ensures Fresh(n).Valid() && Fresh(n).contents == [] && Fresh(n).Writable() == n
    ensures Fresh(INITIAL_SIZE).size == 1032
  {
  }

  /** A read always has room for 64K at least, so a full vector is never taken for the end of the
      stream; with less than that free, tail and spill are used together. */
  lemma ReadAlwaysHasRoom(b: Layout)
    requires b.Valid()
    ensures b.ReadCapacity() >= 65536
    ensures b.ReadCapacity() == b.Writable() || b.ReadCapacity() == b.Writable() + 65536
    ensures b.ReadCapacity() == b.Writable() <==> b.Writable() >= 65536
  {
  }

  lemma RetrieveDropsAPrefix(b: Layout, len: nat)
    requires b.Valid()
    ensures Retrieve(b, len).Valid()
    ensures Retrieve(b, len).contents == if len <= |b.contents| then b.contents[len..] else []
    ensures Retrieve(b, len).size == b.size
    ensures len < |b.contents| ==> Retrieve(b, len).reader == b.reader + len
  {
  }

  /** The scatter read with its spill buffer is an append of the bytes read: same readable bytes
      and the same indices and vector size, whatever number of bytes the kernel delivers. */
  lemma ScatterReadIsAppend(b: Layout, bytes: seq<byte>)
    requires b.Valid()
    ensures ReadFd(b, bytes) == Append(b, bytes)
  {
    if |bytes| >= b.Writable() {
      var w := b.Writable();
      assert bytes[..w] + bytes[w..] == bytes;
      assert (b.contents + bytes[..w]) + bytes[w..] == b.contents + bytes;
    }
  }

  // ----- Whole runs

  datatype Op =
    | OpAppend(data: seq<byte>)
    | OpRetrieve(len: nat)
    | OpRetrieveAll
    | OpRead(bytes: seq<byte>)

  function Apply(b: Layout, op: Op): Layout
    requires b.Writable() >= 0
  {
    match op
    case OpAppend(data) => Append(b, data)
    case OpRetrieve(len) => Retrieve(b, len)
    case OpRetrieveAll => RetrieveAll(b)
    case OpRead(bytes) => ReadFd(b, bytes)
  }

  /** The bytes an operation puts into the buffer. */
  function Inserted(op: Op): seq<byte> {
    match op
    case OpAppend(data) => data
    case OpRead(bytes) => bytes
    case _ => []
  }

  /** The bytes an operation takes out of the buffer: those in front. */
  function Removed(b: Layout, op: Op): seq<byte> {
    match op
    case OpRetrieve(len) => if len < |b.contents| then b.contents[..len] else b.contents
    case OpRetrieveAll => b.contents
    case _ => []
  }

  /** Each operation keeps the invariant and behaves as a queue: in at the back, out at the front. */
  lemma ApplyKeepsValid(b: Layout, op: Op)
    requires b.Valid()
    ensures Apply(b, op).Valid()
    ensures Apply(b, op).size >= b.size
    ensures b.contents + Inserted(op) == Removed(b, op) + Apply(b, op).contents
  {
    match op
    case OpAppend(data) =>
    case OpRetrieve(len) =>
    case OpRetrieveAll =>
    case OpRead(bytes) => ScatterReadIsAppend(b, bytes);
  }

  /** A run from `b`. A read may deliver any bytes, so every kernel answer is covered. */
  ghost function Run(b: Layout, ops: seq<Op>): Layout
    requires b.Valid()
    decreases ops
  {
    if ops == [] then b else ApplyKeepsValid(b, ops[0]); Run(Apply(b, ops[0]), ops[1..])
  }

  ghost function AllInserted(ops: seq<Op>): seq<byte> {
    if ops == [] then [] else Inserted(ops[0]) + AllInserted(ops[1..])
  }

  ghost function AllRemoved(b: Layout, ops: seq<Op>): seq<byte>
    requires b.Valid()
    decreases ops
  {
    if ops == [] then []
    else ApplyKeepsValid(b, ops[0]); Removed(b, ops[0]) + AllRemoved(Apply(b, ops[0]), ops[1..])
  }

  /** The most readable bytes at the start or after any operation of the run. */
  ghost function Peak(b: Layout, ops: seq<Op>): nat
    requires b.Valid()
    decreases ops
  {
    if ops == [] then |b.contents|
    else
      ApplyKeepsValid(b, ops[0]);
      var rest := Peak(Apply(b, ops[0]), ops[1..]);
      if rest > |b.contents| then rest else |b.contents|
  }

  /** Validity is never lost and the vector never shrinks, over any run. */
  lemma {:induction false} EveryRunStaysValid(b: Layout, ops: seq<Op>)
    requires b.Valid()
    ensures Run(b, ops).Valid()
    ensures Run(b, ops).size >= b.size
    decreases ops
  {
    if ops != [] {
      ApplyKeepsValid(b, ops[0]);
      EveryRunStaysValid(Apply(b, ops[0]), ops[1..]);
    }
  }

  lemma QueueStep(have: seq<byte>, input: seq<byte>, output: seq<byte>, left: seq<byte>,
                  inputs: seq<byte>, outputs: seq<byte>, end: seq<byte>)
    requires have + input == output + left
    requires left + inputs == outputs + end
    ensures have + (input + inputs) == (output + outputs) + end
  {
    assert have + (input + inputs) == (have + input) + inputs;
    assert (output + left) + inputs == output + (left + inputs);
    assert output + (outputs + end) == (output + outputs) + end;
  }

  /** The buffer is a FIFO byte queue over any mix of operations: what went in, in order, is what
      came out, in order, followed by what is still readable. */
  lemma {:induction false} RunIsAByteQueue(b: Layout, ops: seq<Op>)
    requires b.Valid()
    ensures b.contents + AllInserted(ops) == AllRemoved(b, ops) + Run(b, ops).contents
    decreases ops
  {
    if ops == [] {
      assert b.contents + [] == [] + b.contents;
    } else {
      var next := Apply(b, ops[0]);
      ApplyKeepsValid(b, ops[0]);
      RunIsAByteQueue(next, ops[1..]);
      QueueStep(b.contents, Inserted(ops[0]), Removed(b, ops[0]), next.contents,
                AllInserted(ops[1..]), AllRemoved(next, ops[1..]), Run(next, ops[1..]).contents);
    }
  }

  lemma PeakCoversStart(b: Layout, ops: seq<Op>)
    requires b.Valid()
    ensures Peak(b, ops) >= |b.contents|
  {
  }

  function Max(a: int, b: int): int { if a > b then a else b }

  /** The largest size that growing for a backlog of `peak` can lead to. */
  function GrownBound(peak: nat): int {
    Max(peak + CHEAP_PREPEND, 2 * peak + CHEAP_PREPEND - 2)
  }

  /** One operation grows the vector exactly when the new contents and the header do not fit. */
  lemma ApplyGrowsIff(b: Layout, op: Op)
    requires b.Valid()
    ensures var d := Apply(b, op);
      && (d.size == b.size <==> |d.contents| + CHEAP_PREPEND <= b.size)
      && (d.size > b.size ==> d.size <= GrownBound(|d.contents|))
  {
    if op.OpRead? {
      ScatterReadIsAppend(b, op.bytes);
    }
  }

  /** Over any run the vector keeps its size if and only if the largest backlog and the header fit
      into it: it never grows for want of compaction. */
  lemma {:induction false} GrowsIff(b: Layout, ops: seq<Op>)
    requires b.Valid()
    ensures Run(b, ops).size == b.size <==> Peak(b, ops) + CHEAP_PREPEND <= b.size
    decreases ops
  {
    if ops != [] {
      var next := Apply(b, ops[0]);
      ApplyKeepsValid(b, ops[0]);
      ApplyGrowsIff(b, ops[0]);
      GrowsIff(next, ops[1..]);
      PeakCoversStart(next, ops[1..]);
      EveryRunStaysValid(next, ops[1..]);
    }
  }

  /** `start` is the vector's first size, `peak` the most readable bytes: while those fit there is no
      growth, and otherwise at most to about twice their number. */
  function SizeBound(start: nat, peak: nat): int {
    if peak + CHEAP_PREPEND <= start then start else GrownBound(peak)
  }

  lemma BoundsCompose(start: nat, step: nat, early: nat, late: nat, size: int)
    requires early <= late
    requires if early + CHEAP_PREPEND <= start then step == start else step <= GrownBound(early)
    requires size <= SizeBound(step, late)
    ensures size <= SizeBound(start, late)
  {
  }

  /** Memory stays proportional to the largest backlog, over any run. */
  lemma {:induction false} MemoryBound(b: Layout, ops: seq<Op>)
    requires b.Valid()
    ensures Run(b, ops).size <= SizeBound(b.size, Peak(b, ops))
    decreases ops
  {
    if ops != [] {
      var next := Apply(b, ops[0]);
      ApplyKeepsValid(b, ops[0]);
      ApplyGrowsIff(b, ops[0]);
      MemoryBound(next, ops[1..]);
      PeakCoversStart(next, ops[1..]);
      BoundsCompose(b.size, next.size, |next.contents|, Peak(next, ops[1..]), Run(b, ops).size);
    }
  }

  lemma OneAppend(b: Layout, data: seq<byte>)
    requires b.Valid()
    ensures Run(b, [OpAppend(data)]) == Append(b, data)
    ensures Peak(b, [OpAppend(data)]) == |b.contents + data|
  {
    var d := Append(b, data);
    ApplyKeepsValid(b, OpAppend(data));
    assert [OpAppend(data)][1..] == [];
    assert Run(d, []) == d && Peak(d, []) == |d.contents|;
  }

  /** Growing past an almost empty buffer: append, retrieve all but one byte, append again. */
  lemma GrowthRun(n: nat, peak: nat, data: seq<byte>)
    requires n < peak && peak >= 2 && |data| == peak - 1
    ensures Fresh(n).Valid()
    ensures var ops := [OpAppend(data), OpRetrieve(peak - 2), OpAppend(data)];
      Peak(Fresh(n), ops) == peak && Run(Fresh(n), ops).size == 2 * peak + 6
  {
    var start := Fresh(n);
    var ops := [OpAppend(data), OpRetrieve(peak - 2), OpAppend(data)];
    var one := Append(start, data);
    assert one == Layout(data, 8, peak + 7);
    var two := Retrieve(one, peak - 2);
    assert two == Layout(data[peak - 2..], peak + 6, peak + 7);
    OneAppend(two, data);
    assert ops[1..] == [OpRetrieve(peak - 2), OpAppend(data)];
    assert ops[1..][1..] == [OpAppend(data)];
    assert Run(one, ops[1..]) == Run(two, [OpAppend(data)]);
    assert Peak(one, ops[1..]) == peak;
  }

  /** The bound cannot be improved: a buffer of any initial size has, for every largest backlog, a
      run that reaches it exactly. */
  lemma MemoryBoundIsReached(n: nat, peak: nat)
    ensures Fresh(n).Valid()
    ensures exists ops :: Peak(Fresh(n), ops) == peak
                          && Run(Fresh(n), ops).size == SizeBound(Fresh(n).size, peak)
  {
    if n < peak && peak >= 2 {
      GrowthRun(n, peak, seq(peak - 1, _ => 0));
    } else {
      OneAppend(Fresh(n), seq(peak, _ => 0));
    }
  }
}
