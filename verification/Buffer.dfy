/** Buffer.h and Buffer.cpp: a byte vector with a read and a write cursor. */
module Buffers {
  import opened Common

  const CHEAP_PREPEND: nat := 8
  const INITIAL_SIZE: nat := 1024
  const EXTRA_SIZE: nat := 65536

  /** The whole value of a buffer, stale bytes included. */
  datatype Vec = Vec(data: seq<byte>, reader: nat, writer: nat) {
    ghost predicate Valid() {
      CHEAP_PREPEND <= reader <= writer <= |data|
    }

    ghost function Readable(): nat
      requires Valid()
    {
      writer - reader
    }

    ghost function Writeable(): nat
      requires Valid()
    {
      |data| - writer
    }

    ghost function Contents(): seq<byte>
      requires Valid()
    {
      data[reader..writer]
    }
  }

  ghost function Fresh(initialSize: nat): (v: Vec)
    ensures v.Valid() && v.Contents() == []
  {
    Vec(Zeros(CHEAP_PREPEND + initialSize), CHEAP_PREPEND, CHEAP_PREPEND)
  }

  /** `std::vector::resize`: may shrink or grow, new cells are zero. */
  ghost function Resize(data: seq<byte>, n: nat): seq<byte> {
    if n <= |data| then data[..n] else data + Zeros(n - |data|)
  }

  /** `data` with `bytes` stored from position `at` on. */
  ghost function Store(data: seq<byte>, at: nat, bytes: seq<byte>): (r: seq<byte>)
    requires at + |bytes| <= |data|
    ensures |r| == |data|
  {
    data[..at] + bytes + data[at + |bytes|..]
  }

  lemma StoreExtends(data: seq<byte>, lo: nat, at: nat, bytes: seq<byte>)
    requires lo <= at && at + |bytes| <= |data|
    ensures Store(data, at, bytes)[lo..at + |bytes|] == data[lo..at] + bytes
    ensures Store(data, at, bytes)[lo..at] == data[lo..at]
  {
  }

  /** One step of a left move whose source and target overlap: the next source byte has not been overwritten. */
  lemma StoreOneMore(data: seq<byte>, to: nat, from: nat, i: nat)
    requires to <= from && from + i < |data|
    ensures var moved := Store(data, to, data[from..from + i]);
            && moved[from + i] == data[from + i]
            && Store(data, to, data[from..from + i + 1]) == moved[to + i := moved[from + i]]
  {
  }

  lemma StoreNothing(data: seq<byte>, at: nat)
    requires at <= |data|
    ensures Store(data, at, []) == data
  {
  }

  lemma PrefixOfSlice(data: seq<byte>, lo: nat, hi: nat, len: nat)
    requires lo <= hi <= |data| && len <= hi - lo
    ensures data[lo..hi][..len] == data[lo..lo + len]
  {
  }

  ghost function MakeSpace(v: Vec, len: nat): Vec
    requires v.Valid()
  {
    if v.Writeable() + v.reader < len + CHEAP_PREPEND then
      v.(data := Resize(v.data, v.writer + len))
    else
      Vec(Store(v.data, CHEAP_PREPEND, v.Contents()), CHEAP_PREPEND, CHEAP_PREPEND + v.Readable())
  }

  /** The test in front of `makespace`: the file compares the write cursor, the name promises room. */
  ghost predicate NeedsSpace(form: Form, v: Vec, len: nat)
    requires v.Valid()
  {
    match form
    case AsWritten => v.writer < len
    case AsIntended => v.Writeable() < len
  }

  ghost function EnsureWriteable(form: Form, v: Vec, len: nat): Vec
    requires v.Valid()
  {
    if NeedsSpace(form, v, len) then MakeSpace(v, len) else v
  }

  /** Compaction and growth both keep the contents and leave room for `len`; the resize never shrinks. */
  lemma MakeSpaceFacts(v: Vec, len: nat)
    requires v.Valid()
    ensures var m := MakeSpace(v, len);
            m.Valid() && m.Contents() == v.Contents() && m.Writeable() >= len && |m.data| >= |v.data|
  {
    if v.Writeable() + v.reader < len + CHEAP_PREPEND {
      assert v.writer + len > |v.data|;
    }
  }

  lemma EnsureWriteableFacts(form: Form, v: Vec, len: nat)
    requires v.Valid()
    ensures var e := EnsureWriteable(form, v, len);
            && e.Valid() && e.Contents() == v.Contents() && |e.data| >= |v.data|
            && (e.Writeable() >= len <==> form.AsIntended? || len > v.writer || len <= v.Writeable())
  {
    MakeSpaceFacts(v, len);
  }

  /** `None` stands for a copy that would run past the end of the vector. */
  ghost function Append(form: Form, v: Vec, bytes: seq<byte>): Option<Vec>
    requires v.Valid()
  {
    EnsureWriteableFacts(form, v, |bytes|);
    var e := EnsureWriteable(form, v, |bytes|);
    if |bytes| <= e.Writeable() then
      Some(Vec(Store(e.data, e.writer, bytes), e.reader, e.writer + |bytes|))
    else
      None
  }

  ghost function Retrieve(v: Vec, len: nat): Vec
    requires v.Valid()
  {
    if len < v.Readable() then v.(reader := v.reader + len) else Vec(v.data, CHEAP_PREPEND, CHEAP_PREPEND)
  }

  /** Length given to the first block of the scatter read. */
  ghost function FirstBlock(form: Form, v: Vec): nat
    requires v.Valid()
  {
    match form
    case AsWritten => v.writer
    case AsIntended => v.Writeable()
  }

  /** What `readv` may deliver at most. */
  ghost function Capacity(form: Form, v: Vec): nat
    requires v.Valid()
  {
    FirstBlock(form, v) + if v.Writeable() < EXTRA_SIZE then EXTRA_SIZE else 0
  }

  /** The side buffer after `readv`: what did not fit the first block, then its old zeros. */
  function Extra(got: seq<byte>, first: nat): (r: seq<byte>)
    requires first <= |got| <= first + EXTRA_SIZE
    ensures |r| == EXTRA_SIZE
  {
    got[first..] + Zeros(EXTRA_SIZE - (|got| - first))
  }

  /** `readFd` when `readv` delivers the bytes `got`; `None` when a block or a copy leaves the vector. */
  ghost function ReadFd(form: Form, v: Vec, got: seq<byte>): Option<Vec>
    requires v.Valid() && |got| <= Capacity(form, v)
  {
    var first := Min(|got|, FirstBlock(form, v));
    if first > v.Writeable() then
      None
    else
      var filled := v.(data := Store(v.data, v.writer, got[..first]));
      if |got| <= v.Writeable() then
        Some(filled.(writer := v.writer + |got|))
      else
        Append(form, filled.(writer := |v.data|), Extra(got, first)[..|got| - v.Writeable()])
  }

  lemma ReadFdCases(form: Form, v: Vec, got: seq<byte>)
    requires v.Valid() && |got| <= Capacity(form, v)
    ensures var first := Min(|got|, FirstBlock(form, v));
            if first > v.Writeable() then ReadFd(form, v, got) == None else
              var data := Store(v.data, v.writer, got[..first]);
              if |got| <= v.Writeable() then ReadFd(form, v, got) == Some(Vec(data, v.reader, v.writer + |got|))
              else |got| <= first + EXTRA_SIZE
                   && ReadFd(form, v, got)
                        == Append(form, Vec(data, v.reader, |data|), Extra(got, first)[..|got| - v.Writeable()])
  {
    hide Append;
  }

  // ---------------------------------------------------------------- makespace

  /** The vector grows exactly when it cannot hold prefix, contents and new bytes together, and then by
      no more than the write cursor requires. */
  lemma MakeSpaceSize(v: Vec, len: nat)
    requires v.Valid()
    ensures var m := MakeSpace(v, len);
            && (|m.data| > |v.data| <==> |v.data| < v.Readable() + len + CHEAP_PREPEND)
            && (|m.data| == |v.data| || (|m.data| == v.writer + len && |m.data| <= v.Readable() + 2 * len + 7))
  {
  }

  // ------------------------------------------------------------------ append

  /** An append is sound exactly when the guard that stands in the file lets `makespace` run or there
      was room anyway; a sound append is concatenation. The intended guard is always sound. */
  lemma AppendRefines(form: Form, v: Vec, bytes: seq<byte>)
    requires v.Valid()
    ensures Append(form, v, bytes).Some? <==>
              form.AsIntended? || |bytes| > v.writer || |bytes| <= v.Writeable()
    ensures var r := Append(form, v, bytes);
            r.Some? ==> r.value.Valid() && r.value.Contents() == v.Contents() + bytes
  {
    EnsureWriteableFacts(form, v, |bytes|);
    var e := EnsureWriteable(form, v, |bytes|);
    if |bytes| <= e.Writeable() {
      StoreExtends(e.data, e.reader, e.writer, bytes);
    }
  }

  /** Ten bytes after a first kilobyte: the written guard sees a large write cursor and skips `makespace`. */
  lemma AppendOverrunsAsWritten(first: seq<byte>, more: seq<byte>)
    requires |first| == 1024 && |more| == 10
    ensures var v := Append(AsWritten, Fresh(INITIAL_SIZE), first);
            && v.Some? && v.value.Valid()
            && Append(AsWritten, v.value, more) == None
            && Append(AsIntended, v.value, more).Some?
  {
    AppendRefines(AsWritten, Fresh(INITIAL_SIZE), first);
    var v := Append(AsWritten, Fresh(INITIAL_SIZE), first).value;
    MakeSpaceFacts(Fresh(INITIAL_SIZE), |first|);
    AppendRefines(AsWritten, v, more);
    AppendRefines(AsIntended, v, more);
  }

  lemma RetrieveDropsPrefix(v: Vec, len: nat)
    requires v.Valid()
    ensures Retrieve(v, len).Valid()
    ensures Retrieve(v, len).Contents() == v.Contents()[Min(len, v.Readable())..]
  {
  }

  // ------------------------------------------------------------ scatter read

  lemma ReadFdAppendsAll(v: Vec, got: seq<byte>)
    requires v.Valid() && |got| <= Capacity(AsIntended, v)
    ensures var r := ReadFd(AsIntended, v, got);
            r.Some? && r.value.Valid() && r.value.Contents() == v.Contents() + got
  {
    hide Store;
    var first := Min(|got|, v.Writeable());
    var filled := v.(data := Store(v.data, v.writer, got[..first]));
    StoreExtends(v.data, v.reader, v.writer, got[..first]);
    if |got| <= v.Writeable() {
      assert got[..first] == got;
    } else {
      var full := filled.(writer := |v.data|);
      var extra := Extra(got, first);
      assert extra[..|got| - first] == got[first..];
      AppendRefines(AsIntended, full, got[first..]);
      assert got[..first] + got[first..] == got;
      assert v.Contents() + got[..first] + got[first..] == v.Contents() + got;
    }
  }

  /** `readFd` appends what it was given, for every content of that length. */
  ghost predicate ReadFdFaithful(form: Form, v: Vec, n: nat)
    requires v.Valid()
  {
    forall got: seq<byte> | |got| == n && n <= Capacity(form, v) ::
      var r := ReadFd(form, v, got);
      r.Some? && r.value.Valid() && r.value.Contents() == v.Contents() + got
  }

  /** Deliveries of `n` bytes that the written first-block length handles correctly. */
  ghost predicate ReadFdSafe(v: Vec, n: nat)
    requires v.Valid()
  {
    || n <= Min(v.writer, v.Writeable())
    || (v.writer == v.Writeable() && n - v.Writeable() > |v.data|)
  }

  lemma ReadFdAsWrittenSafe(v: Vec, got: seq<byte>)
    requires v.Valid() && |got| <= Capacity(AsWritten, v) && ReadFdSafe(v, |got|)
    ensures var r := ReadFd(AsWritten, v, got);
            r.Some? && r.value.Valid() && r.value.Contents() == v.Contents() + got
  {
    hide Store;
    var first := Min(|got|, v.writer);
    var filled := v.(data := Store(v.data, v.writer, got[..first]));
    StoreExtends(v.data, v.reader, v.writer, got[..first]);
    if |got| <= v.Writeable() {
      assert got[..first] == got;
    } else {
      var full := filled.(writer := |v.data|);
      var extra := Extra(got, first);
      assert extra[..|got| - first] == got[first..];
      AppendRefines(AsWritten, full, got[first..]);
      assert v.Contents() + got[..first] + got[first..] == v.Contents() + got;
    }
  }

  lemma ReadFdAsWrittenStale(v: Vec, got: seq<byte>, stale: byte)
    requires v.Valid() && |got| <= Capacity(AsWritten, v)
    requires v.writer < |got| && v.writer < v.Writeable()
    requires stale == v.data[v.writer + v.writer] && got[v.writer] != stale
    ensures var r := ReadFd(AsWritten, v, got);
            !(r.Some? && r.value.Valid() && r.value.Contents() == v.Contents() + got)
  {
    var first := v.writer;
    var filled := v.(data := Store(v.data, v.writer, got[..first]));
    var at := v.Readable() + v.writer;
    assert (v.Contents() + got)[at] == got[v.writer];
    assert filled.data[v.writer + v.writer] == stale;
    if |got| <= v.Writeable() {
      assert filled.data[v.reader..v.writer + |got|][at] == stale;
    } else {
      var full := filled.(writer := |v.data|);
      assert full.Contents()[at] == stale;
      var extra := Extra(got, first);
      var tail := extra[..|got| - v.Writeable()];
      AppendRefines(AsWritten, full, tail);
      assert (full.Contents() + tail)[at] == stale;
    }
  }

  ghost predicate ReadFdSound(form: Form, v: Vec, n: nat)
    requires v.Valid()
  {
    form.AsIntended? || ReadFdSafe(v, n)
  }

  /** A delivery is appended exactly and in order, whatever the cursors; it is never longer than the first block
      and the side buffer together, nor than the first block alone when that is at least as large. */
  lemma ReadFdAppends(form: Form, v: Vec, got: seq<byte>)
    requires v.Valid() && |got| <= Capacity(form, v) && ReadFdSound(form, v, |got|)
    ensures var r := ReadFd(form, v, got);
            r.Some? && r.value.Valid() && r.value.Contents() == v.Contents() + got
    ensures |got| <= FirstBlock(form, v) + EXTRA_SIZE && (v.Writeable() >= EXTRA_SIZE ==> |got| <= FirstBlock(form, v))
  {
    match form
    case AsWritten => ReadFdAsWrittenSafe(v, got);
    case AsIntended => ReadFdAppendsAll(v, got);
  }

  /** Outside the safe deliveries there is a content that ends up out of bounds or replaced by stale bytes. */
  lemma ReadFdAsWrittenWitness(v: Vec, n: nat) returns (got: seq<byte>)
    requires v.Valid() && n <= Capacity(AsWritten, v) && !ReadFdSafe(v, n)
    ensures |got| == n
    ensures var r := ReadFd(AsWritten, v, got);
            !(r.Some? && r.value.Valid() && r.value.Contents() == v.Contents() + got)
  {
    if v.writer < n && v.writer < v.Writeable() {
      // The byte after the first block is stale in the vector; deliver a different one.
      var stale := v.data[v.writer + v.writer];
      var other: byte := if stale == 0 then 1 else 0;
      got := seq(n, _ => other);
      ReadFdAsWrittenStale(v, got, stale);
    } else {
      got := Zeros(n);
      var first := Min(n, v.writer);
      if first <= v.Writeable() {
        assert v.writer == v.Writeable() < n && n - v.Writeable() <= |v.data|;
        var full := v.(data := Store(v.data, v.writer, got[..first]), writer := |v.data|);
        var extra := Extra(got, first);
        AppendRefines(AsWritten, full, extra[..|got| - v.Writeable()]);
      }
    }
  }

  /** Exactly the deliveries the first block length of either reading handles. */
  lemma ReadFdFaithfulIff(form: Form, v: Vec, n: nat)
    requires v.Valid() && n <= Capacity(form, v)
    ensures ReadFdFaithful(form, v, n) <==> ReadFdSound(form, v, n)
  {
    if ReadFdSound(form, v, n) {
      forall got: seq<byte> | |got| == n
        ensures var r := ReadFd(form, v, got);
                r.Some? && r.value.Valid() && r.value.Contents() == v.Contents() + got
      {
        ReadFdAppends(form, v, got);
      }
    } else {
      var got := ReadFdAsWrittenWitness(v, n);
    }
  }

  /** On a new buffer the written block length handles eight bytes and no more. */
  lemma FreshReadAsWritten(n: nat)
    requires n <= CHEAP_PREPEND + EXTRA_SIZE
    ensures ReadFdFaithful(AsWritten, Fresh(INITIAL_SIZE), n) <==> n <= 8
  {
    ReadFdFaithfulIff(AsWritten, Fresh(INITIAL_SIZE), n);
  }

  // --------------------------------------------------------------- whole runs

  datatype BufOp =
    | DoAppend(bytes: seq<byte>)
    | DoRetrieve(len: nat)
    | DoRead(available: seq<byte>)

  /** What the kernel hands over when `available` bytes wait in the socket. */
  ghost function Delivered(form: Form, v: Vec, available: seq<byte>): seq<byte>
    requires v.Valid()
  {
    available[..Min(|available|, Capacity(form, v))]
  }

  /** As intended, a read takes all that waits, up to what the vector and the side buffer can hold; the side buffer
      is used exactly when the vector has less room than its 65536 bytes. */
  lemma DeliveredLength(v: Vec, available: seq<byte>)
    requires v.Valid()
    ensures var got, room := Delivered(AsIntended, v, available), |v.data| - v.writer;
            && got <= available
            && |got| == Min(|available|, if room < 65536 then room + 65536 else room)
  {
  }

  /** The operations the chosen reading carries out without leaving the vector or losing a byte: all of them as
      intended, and as written those that pass the conditions of `AppendRefines` and `ReadFdFaithfulIff`. */
  ghost predicate OpSound(form: Form, v: Vec, op: BufOp)
    requires v.Valid()
  {
    match op
    case DoAppend(bytes) => form.AsIntended? || |bytes| > v.writer || |bytes| <= v.Writeable()
    case DoRetrieve(_) => true
    case DoRead(available) => ReadFdSound(form, v, |Delivered(form, v, available)|)
  }

  ghost function Step(form: Form, v: Vec, op: BufOp): (r: Vec)
    requires v.Valid() && OpSound(form, v, op)
    ensures r.Valid()
  {
    match op
    case DoAppend(bytes) => AppendRefines(form, v, bytes); Append(form, v, bytes).value
    case DoRetrieve(len) => RetrieveDropsPrefix(v, len); Retrieve(v, len)
    case DoRead(available) =>
      ReadFdAppends(form, v, Delivered(form, v, available));
      ReadFd(form, v, Delivered(form, v, available)).value
  }

  ghost function Added(form: Form, v: Vec, op: BufOp): seq<byte>
    requires v.Valid()
  {
    match op
    case DoAppend(bytes) => bytes
    case DoRetrieve(_) => []
    case DoRead(available) => Delivered(form, v, available)
  }

  ghost function Taken(v: Vec, op: BufOp): seq<byte>
    requires v.Valid()
  {
    match op
    case DoRetrieve(len) => v.Contents()[..Min(len, v.Readable())]
    case _ => []
  }

  ghost predicate RunSound(form: Form, v: Vec, ops: seq<BufOp>)
    requires v.Valid()
    decreases |ops|
  {
    ops != [] ==> OpSound(form, v, ops[0]) && RunSound(form, Step(form, v, ops[0]), ops[1..])
  }

  /** The intended reading carries out every run. */
  lemma {:induction false} IntendedSound(v: Vec, ops: seq<BufOp>)
    requires v.Valid()
    ensures RunSound(AsIntended, v, ops)
    decreases |ops|
  {
    if ops != [] {
      IntendedSound(Step(AsIntended, v, ops[0]), ops[1..]);
    }
  }

  ghost function Run(form: Form, v: Vec, ops: seq<BufOp>): (r: Vec)
    requires v.Valid() && RunSound(form, v, ops)
    ensures r.Valid()
    decreases |ops|
  {
    if ops == [] then v else Run(form, Step(form, v, ops[0]), ops[1..])
  }

  ghost function AllAdded(form: Form, v: Vec, ops: seq<BufOp>): seq<byte>
    requires v.Valid() && RunSound(form, v, ops)
    decreases |ops|
  {
    if ops == [] then [] else Added(form, v, ops[0]) + AllAdded(form, Step(form, v, ops[0]), ops[1..])
  }

  ghost function AllTaken(form: Form, v: Vec, ops: seq<BufOp>): seq<byte>
    requires v.Valid() && RunSound(form, v, ops)
    decreases |ops|
  {
    if ops == [] then [] else Taken(v, ops[0]) + AllTaken(form, Step(form, v, ops[0]), ops[1..])
  }

  lemma StepConserves(form: Form, v: Vec, op: BufOp)
    requires v.Valid() && OpSound(form, v, op)
    ensures Taken(v, op) + Step(form, v, op).Contents() == v.Contents() + Added(form, v, op)
  {
    hide Append, Retrieve, ReadFd, ReadFdSound;
    match op
    case DoAppend(bytes) => AppendRefines(form, v, bytes);
    case DoRetrieve(len) => RetrieveDropsPrefix(v, len);
    case DoRead(available) => ReadFdAppends(form, v, Delivered(form, v, available));
  }

  lemma Chain(out1: seq<byte>, out2: seq<byte>, first: seq<byte>, mid: seq<byte>, last: seq<byte>,
              in1: seq<byte>, in2: seq<byte>)
    requires out1 + mid == first + in1 && out2 + last == mid + in2
    ensures (out1 + out2) + last == first + (in1 + in2)
  {
    Regroup(out1, out2, last);
    Regroup(out1, mid, in2);
    Regroup(first, in1, in2);
  }

  /** Over any run of appends, reads and retrievals the buffer is a byte queue: what was taken out,
      followed by what is left, is what was there at first followed by everything put in. */
  lemma {:induction false} RunConserves(form: Form, v: Vec, ops: seq<BufOp>)
    requires v.Valid() && RunSound(form, v, ops)
    ensures AllTaken(form, v, ops) + Run(form, v, ops).Contents() == v.Contents() + AllAdded(form, v, ops)
    decreases |ops|
  {
    hide OpSound, Step, Taken, Added;
    if ops != [] {
      var w := Step(form, v, ops[0]);
      StepConserves(form, v, ops[0]);
      RunConserves(form, w, ops[1..]);
      Chain(Taken(v, ops[0]), AllTaken(form, w, ops[1..]), v.Contents(), w.Contents(), Run(form, v, ops).Contents(),
            Added(form, v, ops[0]), AllAdded(form, w, ops[1..]));
    }
  }

  /** No state of the run holds more than `peak` readable bytes. */
  ghost predicate PeakAtMost(form: Form, v: Vec, ops: seq<BufOp>, peak: nat)
    requires v.Valid() && RunSound(form, v, ops)
    decreases |ops|
  {
    v.Readable() <= peak && (ops != [] ==> PeakAtMost(form, Step(form, v, ops[0]), ops[1..], peak))
  }

  lemma AppendSize(form: Form, v: Vec, bytes: seq<byte>, peak: nat)
    requires v.Valid() && v.Readable() + |bytes| <= peak && Append(form, v, bytes).Some?
    ensures |Append(form, v, bytes).value.data| <= Max(|v.data|, 2 * peak + 7)
  {
    AppendRefines(form, v, bytes);
    MakeSpaceFacts(v, |bytes|);
    MakeSpaceSize(v, |bytes|);
  }

  lemma ReadSize(form: Form, v: Vec, got: seq<byte>, peak: nat)
    requires v.Valid() && |got| <= Capacity(form, v) && ReadFdSound(form, v, |got|) && v.Readable() + |got| <= peak
    ensures ReadFd(form, v, got).Some? && |ReadFd(form, v, got).value.data| <= Max(|v.data|, 2 * peak + 7)
  {
    hide Append, Store;
    ReadFdAppends(form, v, got);
    ReadFdCases(form, v, got);
    if |got| > v.Writeable() {
      var first := v.Writeable();
      var full := Vec(Store(v.data, v.writer, got[..first]), v.reader, |v.data|);
      AppendSize(form, full, Extra(got, first)[..|got| - first], peak);
    }
  }

  lemma StepSize(form: Form, v: Vec, op: BufOp, peak: nat)
    requires v.Valid() && OpSound(form, v, op) && v.Readable() <= peak && Step(form, v, op).Readable() <= peak
    ensures |Step(form, v, op).data| <= Max(|v.data|, 2 * peak + 7)
  {
    hide Append, ReadFd, ReadFdSound;
    match op
    case DoAppend(bytes) =>
      AppendRefines(form, v, bytes);
      AppendSize(form, v, bytes, peak);
    case DoRetrieve(_) =>
    case DoRead(available) =>
      var got := Delivered(form, v, available);
      ReadFdAppends(form, v, got);
      ReadSize(form, v, got, peak);
  }

  /** The vector never exceeds its first size or twice the peak of unread bytes, whichever is larger. */
  lemma {:induction false} MemoryBound(form: Form, v: Vec, ops: seq<BufOp>, peak: nat)
    requires v.Valid() && RunSound(form, v, ops) && PeakAtMost(form, v, ops, peak)
    ensures |Run(form, v, ops).data| <= Max(|v.data|, 2 * peak + 7)
    decreases |ops|
  {
    hide OpSound, Step;
    if ops != [] {
      StepSize(form, v, ops[0], peak);
      MemoryBound(form, Step(form, v, ops[0]), ops[1..], peak);
    }
  }

  // ------------------------------------------------------------ the class itself

  class Buffer {
    const form: Form
    var data: array<byte>
    var reader: nat
    var writer: nat

    ghost function Value(): Vec
      reads this, data
    {
      Vec(data[..], reader, writer)
    }

    ghost predicate Valid()
      reads this, data
    {
      Value().Valid()
    }

    ghost function Contents(): seq<byte>
      requires Valid()
      reads this, data
    {
      Value().Contents()
    }

    constructor (form: Form, initialSize: nat)
      ensures Valid() && fresh(data) && this.form == form
      ensures Value() == Fresh(initialSize) && data.Length == 8 + initialSize
    {
      this.form := form;
      data := new byte[CHEAP_PREPEND + initialSize](_ => 0);
      reader, writer := CHEAP_PREPEND, CHEAP_PREPEND;
    }

    method Grow(n: nat)
      requires Valid() && n >= data.Length
      modifies this`data
      ensures fresh(data) && data[..] == Resize(old(data[..]), n)
      ensures reader == old(reader) && writer == old(writer)
    {
      var bigger := new byte[n](_ => 0);
      forall i | 0 <= i < data.Length {
        bigger[i] := data[i];
      }
      data := bigger;
    }

    /** `std::copy` to the left, one cell at a time, source and target overlapping. */
    method MoveLeft(to: nat, from: nat, n: nat)
      requires to <= from && from + n <= data.Length
      modifies data
      ensures data[..] == Store(old(data[..]), to, old(data[from..from + n]))
    {
      hide Store;
      ghost var was := data[..];
      StoreNothing(was, to);
      var i := 0;
      assert was[from..from + i] == [];
      while i < n
        invariant 0 <= i <= n
        invariant data[..] == Store(was, to, was[from..from + i])
      {
        StoreOneMore(was, to, from, i);
        data[to + i] := data[from + i];
        i := i + 1;
      }
    }

    method Compact()
      requires Valid()
      modifies this`reader, this`writer, data
      ensures Value() == Vec(Store(old(data[..]), CHEAP_PREPEND, old(Contents())),
                             CHEAP_PREPEND, CHEAP_PREPEND + old(writer - reader))
    {
      hide Store;
      var readable := writer - reader;
      assert Contents() == data[reader..reader + readable];
      MoveLeft(CHEAP_PREPEND, reader, readable);
      reader := CHEAP_PREPEND;
      writer := reader + readable;
    }

    method MakeSpaceFor(len: nat)
      requires Valid()
      modifies this, data
      ensures Valid() && (data == old(data) || fresh(data))
      ensures Value() == MakeSpace(old(Value()), len)
    {
      MakeSpaceFacts(Value(), len);
      if data.Length - writer + reader < len + CHEAP_PREPEND {
        Grow(writer + len);
      } else {
        Compact();
      }
    }

    method EnsureWriteableBytes(len: nat)
      requires Valid()
      modifies this, data
      ensures Valid() && (data == old(data) || fresh(data))
      ensures Value() == EnsureWriteable(form, old(Value()), len)
    {
      var needs := match form case AsWritten => writer < len case AsIntended => data.Length - writer < len;
      if needs {
        MakeSpaceFor(len);
      }
    }

    method StoreBytes(bytes: seq<byte>)
      requires Valid() && |bytes| <= data.Length - writer
      modifies data
      ensures data[..] == Store(old(data[..]), writer, bytes)
    {
      forall i | 0 <= i < |bytes| {
        data[writer + i] := bytes[i];
      }
    }

    /** `ok` is false when the copy of the source would leave the vector; nothing is then promised
        about what the program does next. */
    method AppendBytes(bytes: seq<byte>) returns (ok: bool)
      requires Valid()
      modifies this, data
      ensures Valid() && (data == old(data) || fresh(data))
      ensures ok <==> form.AsIntended? || |bytes| > old(writer) || |bytes| <= old(data.Length - writer)
      ensures ok ==> Append(form, old(Value()), bytes) == Some(Value()) && Contents() == old(Contents()) + bytes
    {
      hide NeedsSpace, MakeSpace, EnsureWriteable, Store;
      AppendRefines(form, Value(), bytes);
      EnsureWriteableBytes(|bytes|);
      ok := |bytes| <= data.Length - writer;
      if ok {
        ghost var was := data[..];
        StoreBytes(bytes);
        StoreExtends(was, reader, writer, bytes);
        writer := writer + |bytes|;
      }
    }

    method RetrieveAll()
      requires Valid()
      modifies this`reader, this`writer
      ensures Valid() && Contents() == []
      ensures Value() == Vec(old(data[..]), CHEAP_PREPEND, CHEAP_PREPEND)
    {
      reader, writer := CHEAP_PREPEND, CHEAP_PREPEND;
    }

    method RetrieveBytes(len: nat)
      requires Valid()
      modifies this`reader, this`writer
      ensures Valid() && Value() == Retrieve(old(Value()), len)
      ensures Contents() == old(Contents())[Min(len, old(writer - reader))..]
    {
      RetrieveDropsPrefix(Value(), len);
      if len < writer - reader {
        reader := reader + len;
      } else {
        RetrieveAll();
      }
    }

    /** `ok` is false when the string would be built from memory outside the vector. The string is the
        oldest unread bytes exactly when no more is asked for than is readable or stale bytes agree. */
    method RetrieveAsString(len: nat) returns (ok: bool, result: seq<byte>)
      requires Valid()
      modifies this`reader, this`writer
      ensures Valid() && (ok <==> old(reader) + len <= data.Length)
      ensures ok ==>
                var n := Min(len, |old(Contents())|);
                |result| == len && result[..n] == old(Contents())[..n]
      ensures len <= |old(Contents())| ==> ok && result + Contents() == old(Contents())
      ensures ok ==> Value() == Retrieve(old(Value()), len)
    {
      ok := reader + len <= data.Length;
      result := [];
      if ok {
        result := data[reader..reader + len];
        RetrieveBytes(len);
      }
    }

    function ReadableBytes(): nat
      requires reader <= writer
      reads this
    {
      writer - reader
    }

    /** Offers all unread bytes to the kernel; it takes a prefix, or reports an error and takes nothing.
        The buffer itself is not changed. */
    method WriteToFd(ans: Answer) returns (n: int, taken: seq<byte>)
      requires Valid()
      ensures n == if ans.Wrote? then |taken| else -1
      ensures taken == Contents()[..TakenBy(ans, |Contents()|)]
    {
      var len := TakenBy(ans, ReadableBytes());
      taken := data[reader..reader + len];
      PrefixOfSlice(data[..], reader, writer, len);
      n := if ans.Wrote? then len else -1;
    }

    /** The part of a scatter read that landed beside the vector: the vector is full, the rest is appended. */
    method Spill(rest: seq<byte>) returns (ok: bool)
      requires Valid()
      modifies this, data
      ensures data == old(data) || fresh(data)
      ensures Append(form, old(Value()).(writer := old(data.Length)), rest) == if ok then Some(Value()) else None
    {
      ghost var full := Value().(writer := data.Length);
      writer := data.Length;
      assert Value() == full;
      AppendRefines(form, full, rest);
      ok := AppendBytes(rest);
    }

    /** The bytes `got` are spread over the vector and the side buffer. */
    method Scatter(got: seq<byte>) returns (ok: bool)
      requires Valid() && |got| <= Capacity(form, Value())
      modifies this, data
      ensures data == old(data) || fresh(data)
      ensures ReadFd(form, old(Value()), got) == if ok then Some(Value()) else None
    {
      hide Append, Store, ReadFd, Vec.Contents;
      ReadFdCases(form, Value(), got);
      var writeable := data.Length - writer;
      var firstLen := match form case AsWritten => writer case AsIntended => writeable;
      var first := Min(|got|, firstLen);
      if first > writeable {
        return false;
      }
      StoreBytes(got[..first]);
      if |got| <= writeable {
        writer := writer + |got|;
        return true;
      }
      ok := Spill(Extra(got, first)[..|got| - writeable]);
    }

    /** `answer` is what `readv` delivered, `None` an error. */
    method ReadFromFd(answer: Option<seq<byte>>) returns (ok: bool, n: int)
      requires Valid()
      requires answer.Some? ==> |answer.value| <= Capacity(form, Value())
      modifies this, data
      ensures data == old(data) || fresh(data)
      ensures answer.None? ==> ok && n == -1 && Value() == old(Value())
      ensures answer.Some? ==> n == |answer.value|
      ensures answer.Some? ==> ReadFd(form, old(Value()), answer.value) == if ok then Some(Value()) else None
    {
      if answer.None? {
        return true, -1;
      }
      n := |answer.value|;
      ok := Scatter(answer.value);
    }
  }

  /** One operation on the object is one step of its value; `piece` is what it hands out. */
  method Perform(b: Buffer, op: BufOp) returns (piece: seq<byte>)
    requires b.Valid() && OpSound(b.form, b.Value(), op)
    modifies b, b.data
    ensures b.Valid() && b.Value() == Step(b.form, old(b.Value()), op) && piece == Taken(old(b.Value()), op)
    ensures b.data == old(b.data) || fresh(b.data)
  {
    hide Append, ReadFd, ReadFdSound;
    ghost var before := b.Value();
    piece := [];
    match op {
      case DoAppend(bytes) =>
        AppendRefines(b.form, before, bytes);
        var ok := b.AppendBytes(bytes);
      case DoRetrieve(len) =>
        var ok;
        ok, piece := b.RetrieveAsString(Min(len, b.writer - b.reader));
      case DoRead(available) =>
        var room := b.data.Length - b.writer;
        var firstLen := match b.form case AsWritten => b.writer case AsIntended => room;
        var limit := if room < EXTRA_SIZE then firstLen + EXTRA_SIZE else firstLen;
        var got := available[..Min(|available|, limit)];
        assert got == Delivered(b.form, before, available);
        ReadFdAppends(b.form, before, got);
        var ok, n := b.ReadFromFd(Some(got));
    }
  }

  lemma RunUnfolds(form: Form, v: Vec, ops: seq<BufOp>, i: nat)
    requires v.Valid() && i < |ops| && RunSound(form, v, ops[i..])
    ensures OpSound(form, v, ops[i]) && RunSound(form, Step(form, v, ops[i]), ops[i + 1..])
    ensures Run(form, v, ops[i..]) == Run(form, Step(form, v, ops[i]), ops[i + 1..])
    ensures AllTaken(form, v, ops[i..]) == Taken(v, ops[i]) + AllTaken(form, Step(form, v, ops[i]), ops[i + 1..])
  {
    assert ops[i..][0] == ops[i] && ops[i..][1..] == ops[i + 1..];
  }

  lemma RunEnds(form: Form, v: Vec, ops: seq<BufOp>)
    requires v.Valid() && ops == []
    ensures RunSound(form, v, ops) && Run(form, v, ops) == v && AllTaken(form, v, ops) == []
  {
  }

  /** The object run on any list of operations is a byte queue. */
  method Replay(b: Buffer, ops: seq<BufOp>) returns (taken: seq<byte>)
    requires b.Valid() && RunSound(b.form, b.Value(), ops)
    modifies b, b.data
    ensures b.Valid() && b.Value() == Run(b.form, old(b.Value()), ops)
    ensures taken + b.Contents() == old(b.Contents()) + AllAdded(b.form, old(b.Value()), ops)
    ensures b.data == old(b.data) || fresh(b.data)
  {
    hide OpSound, RunSound, Step, Taken, Added, Run, AllTaken, AllAdded, Vec.Valid;
    ghost var start := b.Value();
    taken := [];
    var i := 0;
    assert ops[0..] == ops;
    while i < |ops|
      invariant 0 <= i <= |ops|
      invariant b.Valid() && RunSound(b.form, b.Value(), ops[i..])
      invariant Run(b.form, b.Value(), ops[i..]) == Run(b.form, start, ops)
      invariant taken + AllTaken(b.form, b.Value(), ops[i..]) == AllTaken(b.form, start, ops)
      invariant b.data == old(b.data) || fresh(b.data)
    {
      ghost var before := b.Value();
      RunUnfolds(b.form, before, ops, i);
      var piece := Perform(b, ops[i]);
      Regroup(taken, piece, AllTaken(b.form, b.Value(), ops[i + 1..]));
      taken := taken + piece;
      i := i + 1;
    }
    RunEnds(b.form, b.Value(), ops[i..]);
    assert taken + [] == taken;
    RunConserves(b.form, start, ops);
  }
}
