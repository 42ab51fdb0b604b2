/** The vectored file layer: a scatter/gather write that survives short writes. */
module FileLayer {
  import opened Bytes

  /** A struct iovec: a pointer into a buffer (base) and the bytes left to write from there (len). */
  datatype Iovec = Iovec(data: seq<Byte>, base: nat, len: nat) {
    predicate Valid() {
      base + len <= |data|
    }

    function Bytes(): seq<Byte>
      requires Valid()
    {
      data[base..base + len]
    }
  }

  predicate ValidIovs(segments: seq<Iovec>) {
    forall i :: 0 <= i < |segments| ==> segments[i].Valid()
  }

  /** What a list of iovecs still has to write. */
  function Pending(segments: seq<Iovec>): seq<Byte>
    requires ValidIovs(segments)
  {
    if segments == [] then [] else segments[0].Bytes() + Pending(segments[1..])
  }

  function Iovs(parts: seq<seq<Byte>>): (r: seq<Iovec>)
    ensures |r| == |parts|
  {
    seq(|parts|, i requires 0 <= i < |parts| => Iovec(parts[i], 0, |parts[i]|))
  }

  lemma {:induction false} PendingIovs(parts: seq<seq<Byte>>)
    ensures ValidIovs(Iovs(parts)) && Pending(Iovs(parts)) == Flat(parts)
  {
    if parts != [] {
      PendingIovs(parts[1..]);
      assert Iovs(parts)[1..] == Iovs(parts[1..]);
      assert parts[0][0..|parts[0]|] == parts[0];
    }
  }

  /** One iovec after the kernel took its first n bytes. */
  function Consume(v: Iovec, n: nat): Iovec
    requires n <= v.len
  {
    v.(base := v.base + n, len := v.len - n)
  }

  lemma PendingTail(segments: seq<Iovec>, k: nat)
    requires ValidIovs(segments) && k < |segments|
    ensures ValidIovs(segments[k..]) && ValidIovs(segments[k + 1..])
    ensures Pending(segments[k..]) == segments[k].Bytes() + Pending(segments[k + 1..])
  {
    assert segments[k..][1..] == segments[k + 1..];
  }

  lemma NothingPending(segments: seq<Iovec>)
    requires ValidIovs(segments)
    ensures ValidIovs(segments[|segments|..]) && Pending(segments[|segments|..]) == []
  {
  }

  lemma PendingConsume(segments: seq<Iovec>, k: nat, n: nat)
    requires ValidIovs(segments) && k < |segments| && n <= segments[k].len
    ensures ValidIovs(segments[k..]) && ValidIovs(segments[k := Consume(segments[k], n)][k..])
    ensures n <= |Pending(segments[k..])|
    ensures Pending(segments[k := Consume(segments[k], n)][k..]) == Pending(segments[k..])[n..]
  {
    var after := segments[k := Consume(segments[k], n)];
    PendingTail(segments, k);
    PendingTail(after, k);
    assert after[k + 1..] == segments[k + 1..];
    assert after[k].Bytes() == segments[k].Bytes()[n..];
  }

  lemma {:induction false} PendingEmpty(segments: seq<Iovec>, k: nat)
    requires ValidIovs(segments) && k < |segments|
    requires Pending(segments) == []
    ensures segments[k].len == 0
  {
    PendingTail(segments, 0);
    assert segments[0..] == segments;
    if k > 0 {
      PendingEmpty(segments[1..], k - 1);
    }
  }

  lemma LastPending(segments: seq<Iovec>)
    requires ValidIovs(segments) && segments != []
    ensures Pending(segments) == [] ==> segments[|segments| - 1].len == 0
  {
    if Pending(segments) == [] {
      PendingEmpty(segments, |segments| - 1);
    }
  }

  /** The answers of the operating system to successive writev() calls: a negative answer is an
      error, a positive one the most bytes it will take this time. */
  type Kernel = nat -> int

  /** A kernel that always makes progress when there is something to write. */
  ghost predicate Cooperative(kernel: Kernel) {
    forall i: nat :: kernel(i) > 0
  }

  class PosixVectorIoFile {
    const kernel: Kernel
    const filename: string
    var calls: nat
    var content: seq<Byte>

    /** An open file, created or truncated. */
    constructor (kernel: Kernel, filename: string)
      ensures content == [] && this.kernel == kernel && this.filename == filename
    {
      this.kernel, this.filename := kernel, filename;
      calls := 0;
      content := [];
    }

    /** The writev() system call: appends some prefix of what the segments hold. */
    method Writev(segments: array<Iovec>, current: nat) returns (written: int)
      requires current <= segments.Length && ValidIovs(segments[..])
      requires ValidIovs(segments[current..])
      modifies this
      ensures written <= |Pending(segments[current..])|
      ensures written > 0 ==> content == old(content) + Pending(segments[current..])[..written]
      ensures written <= 0 ==> content == old(content)
      ensures Cooperative(kernel) ==> written >= 0
      ensures Cooperative(kernel) && written == 0 ==> Pending(segments[current..]) == []
    {
      var offered := Pending(segments[current..]);
      var answer := kernel(calls);
      calls := calls + 1;
      if answer < 0 {
        return answer;
      }
      written := if answer < |offered| then answer else |offered|;
      content := content + offered[..written];
    }

    /** The inner do-while of write(): moves the current segment past the bytes just written. */
    method Advance(segments: array<Iovec>, first: nat, count: nat) returns (current: nat)
      requires first < segments.Length && ValidIovs(segments[..]) && ValidIovs(segments[first..])
      requires 0 < count <= |Pending(segments[first..])|
      modifies segments
      ensures first <= current <= segments.Length
      ensures ValidIovs(segments[..]) && ValidIovs(segments[current..])
      ensures Pending(segments[current..]) == old(Pending(segments[first..]))[count..]
      ensures forall j :: current <= j < segments.Length ==> (segments[j].len == 0 <==> old(segments[j].len) == 0)
      ensures current == segments.Length ==> old(segments[segments.Length - 1].len) > 0
    {
      hide Pending;
      ghost var start := segments[..];
      assert start[first..] == segments[first..];
      NothingPending(start);
      var written := count;
      current := first;
      while true
        invariant first <= current < segments.Length && segments[..] == start
        invariant ValidIovs(start[current..])
        invariant 0 < written <= |Pending(start[current..])|
        invariant Pending(start[current..])[written..] == Pending(start[first..])[count..]
        decreases segments.Length - current
      {
        PendingTail(start, current);
        if written >= segments[current].len {
          written := written - segments[current].len;
          current := current + 1;
          assert segments[current..] == start[current..];
        } else {
          PendingConsume(start, current, written);
          segments[current] := Iovec(segments[current].data, segments[current].base
              + written, segments[current].len - written);
          assert segments[..] == start[current := Consume(start[current], written)];
          assert segments[..][current..] == segments[current..];
          written := 0;
        }
        if written == 0 {
          break;
        }
      }
    }

    /** Writes all segments in order. The result is false where the source throws. */
    method Write(parts: seq<seq<Byte>>) returns (ok: bool)
      requires parts != []
      modifies this
      ensures ok ==> content == old(content) + Flat(parts)
      ensures !ok ==> old(content) <= content <= old(content) + Flat(parts)
      ensures !ok && parts[|parts| - 1] != [] ==> content != old(content) + Flat(parts)
      ensures ok ==> parts[|parts| - 1] != []
      ensures Cooperative(kernel) ==> content == old(content) + Flat(parts)
      ensures Cooperative(kernel) ==> (ok <==> parts[|parts| - 1] != [])
    {
      hide Pending, Flat, ValidIovs, Cooperative;
      var segments := new Iovec[|parts|](i requires 0 <= i < |parts| => Iovec(parts[i], 0, |parts[i]|));
      assert segments[..] == Iovs(parts);
      PendingIovs(parts);
      ghost var goal := content + Flat(parts);
      var current, remaining: nat := 0, segments.Length;
      assert segments[0..] == segments[..];

      while remaining > 0
        invariant 0 <= current <= segments.Length && current + remaining == segments.Length
        invariant ValidIovs(segments[..]) && ValidIovs(segments[current..])
        invariant content + Pending(segments[current..]) == goal
        invariant old(content) <= content
        invariant forall j :: current <= j < segments.Length ==> (segments[j].len == 0 <==> parts[j] == [])
        invariant remaining == 0 ==> parts[|parts| - 1] != []
        decreases |Pending(segments[current..])|
      {
        var written := Writev(segments, current);
        if written <= 0 {
          LastPending(segments[current..]);
          return false;
        }
        var next := Advance(segments, current, written);
        remaining := remaining - (next - current);
        current := next;
      }
      NothingPending(segments[..]);
      assert segments[current..] == segments[..][|segments[..]|..];
      ok := true;
    }
  }
}
