/** Byte ranges of one upload: what it means that they cover an object exactly once, and
    which bytes that object then has. */
module Tiling {

  newtype byte = b: int | 0 <= b < 256

  datatype ByteRange = ByteRange(off: int, length: int)

  predicate Covers(r: ByteRange, p: int) {
    r.off <= p < r.off + r.length
  }

  predicate Proper(rs: seq<ByteRange>) {
    forall i :: 0 <= i < |rs| ==> rs[i].off >= 0 && rs[i].length > 0
  }

  ghost predicate Covered(rs: seq<ByteRange>, p: int) {
    exists i :: 0 <= i < |rs| && Covers(rs[i], p)
  }

  /** Every byte of [0, size) lies in exactly one range, and no range reaches past it. */
  ghost predicate TilesOnce(rs: seq<ByteRange>, size: int) {
    && (forall i :: 0 <= i < |rs| ==> rs[i].off + rs[i].length <= size)
    && (forall p :: 0 <= p < size ==> Covered(rs, p))
    && (forall i, j, p :: 0 <= i < j < |rs| && Covers(rs[i], p) ==> !Covers(rs[j], p))
  }

  predicate SortedByOffset(rs: seq<ByteRange>) {
    forall i, j :: 0 <= i < j < |rs| ==> rs[i].off <= rs[j].off
  }

  function Total(rs: seq<ByteRange>): int
    decreases |rs|
  {
    if rs == [] then 0 else Total(rs[..|rs| - 1]) + rs[|rs| - 1].length
  }

  /** Each range starts where the one before it ends, the first at 0. */
  predicate Contiguous(rs: seq<ByteRange>) {
    forall i :: 0 <= i < |rs| ==> rs[i].off == Total(rs[..i])
  }

  // ------------------------------------------------------------ Permutations

  ghost predicate IsPermutation(perm: seq<nat>, n: nat) {
    && |perm| == n
    && (forall i :: 0 <= i < n ==> perm[i] < n)
    && (forall i, j :: 0 <= i < j < n ==> perm[i] != perm[j])
    && (forall k :: 0 <= k < n ==> k in perm)
  }

  ghost predicate Rearranges(sorted: seq<ByteRange>, rs: seq<ByteRange>, perm: seq<nat>) {
    IsPermutation(perm, |rs|) && |sorted| == |rs| && forall i :: 0 <= i < |rs| ==> sorted[i] == rs[perm[i]]
  }

  lemma TilingIgnoresOrder(sorted: seq<ByteRange>, rs: seq<ByteRange>, perm: seq<nat>, size: int)
    requires Rearranges(sorted, rs, perm)
    ensures TilesOnce(sorted, size) <==> TilesOnce(rs, size)
  {
    hide Covers;
    if TilesOnce(sorted, size) {
      TilingMoves(sorted, rs, perm, size);
    }
    if TilesOnce(rs, size) {
      TilingMovesBack(sorted, rs, perm, size);
    }
  }

  lemma PlaceOf(perm: seq<nat>, n: nat, k: nat) returns (i: nat)
    requires IsPermutation(perm, n) && k < n
    ensures i < n && perm[i] == k
  {
    assert k in perm;
    i :| 0 <= i < n && perm[i] == k;
  }

  lemma TilingMoves(sorted: seq<ByteRange>, rs: seq<ByteRange>, perm: seq<nat>, size: int)
    requires Rearranges(sorted, rs, perm) && TilesOnce(sorted, size)
    ensures TilesOnce(rs, size)
  {
    hide Covers, IsPermutation;
    forall k | 0 <= k < |rs| ensures rs[k].off + rs[k].length <= size {
      var i := PlaceOf(perm, |rs|, k);
      assert sorted[i] == rs[k];
    }
    forall p | 0 <= p < size ensures Covered(rs, p) {
      assert Covered(sorted, p);
      var i :| 0 <= i < |sorted| && Covers(sorted[i], p);
      InRange(perm, |rs|, i);
      assert Covers(rs[perm[i]], p);
    }
    forall a, b, p | 0 <= a < b < |rs| && Covers(rs[a], p) ensures !Covers(rs[b], p) {
      var i := PlaceOf(perm, |rs|, a);
      var j := PlaceOf(perm, |rs|, b);
      OnlyOne(sorted, size, i, j, p);
    }
  }

  lemma OnlyOne(rs: seq<ByteRange>, size: int, i: nat, j: nat, p: int)
    requires TilesOnce(rs, size) && i < |rs| && j < |rs| && i != j
    ensures !(Covers(rs[i], p) && Covers(rs[j], p))
  {
  }

  lemma InRange(perm: seq<nat>, n: nat, i: nat)
    requires IsPermutation(perm, n) && i < n
    ensures |perm| == n && perm[i] < n
  {
  }

  lemma TilingMovesBack(sorted: seq<ByteRange>, rs: seq<ByteRange>, perm: seq<nat>, size: int)
    requires Rearranges(sorted, rs, perm) && TilesOnce(rs, size)
    ensures TilesOnce(sorted, size)
  {
    hide Covers;
    forall p | 0 <= p < size ensures Covered(sorted, p) {
      assert Covered(rs, p);
      var k :| 0 <= k < |rs| && Covers(rs[k], p);
      var i := PlaceOf(perm, |rs|, k);
      assert Covers(sorted[i], p);
    }
    forall i, j, p | 0 <= i < j < |sorted| && Covers(sorted[i], p) ensures !Covers(sorted[j], p) {
      OnlyOne(rs, size, perm[i], perm[j], p);
    }
  }

  // ----------------------------------------------------- Contiguous is tiling

  /** Contiguous ranges cover a byte of their whole exactly once. */
  lemma {:induction false} ContiguousTiles(rs: seq<ByteRange>)
    requires Contiguous(rs) && forall i :: 0 <= i < |rs| ==> rs[i].length >= 0
    ensures TilesOnce(rs, Total(rs)) && Total(rs) >= 0
    decreases |rs|
  {
    if rs != [] {
      var n, rest := |rs| - 1, rs[..|rs| - 1];
      assert forall i :: 0 <= i < n ==> rest[..i] == rs[..i];
      ContiguousTiles(rest);
      LastTile(rs, rest);
    }
  }

  lemma LastTile(rs: seq<ByteRange>, rest: seq<ByteRange>)
    requires rs != [] && rest == rs[..|rs| - 1] && TilesOnce(rest, Total(rest)) && Total(rest) >= 0
    requires rs[|rs| - 1].off == Total(rest) && rs[|rs| - 1].length >= 0
    ensures TilesOnce(rs, Total(rs))
  {
    var n := |rs| - 1;
    forall p | 0 <= p < Total(rs) ensures Covered(rs, p) {
      if p < Total(rest) {
        assert Covered(rest, p);
        var i :| 0 <= i < |rest| && Covers(rest[i], p);
        assert Covers(rs[i], p);
      } else {
        assert Covers(rs[n], p);
      }
    }
    forall i, j, p | 0 <= i < j < |rs| && Covers(rs[i], p) ensures !Covers(rs[j], p) {
      assert rs[i] == rest[i];
      if j < n {
        assert rs[j] == rest[j];
      }
    }
  }

  /** Proper ranges in offset order that tile an object are contiguous. */
  lemma {:induction false} TilingIsContiguous(rs: seq<ByteRange>, size: int, n: nat)
    requires Proper(rs) && SortedByOffset(rs) && TilesOnce(rs, size) && n <= |rs|
    ensures Contiguous(rs[..n])
    decreases n
  {
    if n > 0 {
      var k, before := n - 1, rs[..n - 1];
      hide TilesOnce, SortedByOffset;
      TilingIsContiguous(rs, size, k);
      ContiguousTiles(before);
      StartsWhereTheLastEnds(rs, size, k);
      forall i | 0 <= i < n ensures rs[..n][i].off == Total(rs[..n][..i]) {
        assert rs[..n][..i] == rs[..i];
        if i < k {
          assert before[..i] == rs[..i] && before[i] == rs[i];
        }
      }
    }
  }

  lemma StartsWhereTheLastEnds(rs: seq<ByteRange>, size: int, k: nat)
    requires Proper(rs) && SortedByOffset(rs) && TilesOnce(rs, size) && k < |rs|
    requires TilesOnce(rs[..k], Total(rs[..k])) && Total(rs[..k]) >= 0
    ensures rs[k].off == Total(rs[..k])
  {
    var end, before := Total(rs[..k]), rs[..k];
    assert forall i :: 0 <= i < k ==> before[i] == rs[i];
    if end < size {
      assert Covered(rs, end);
      var i :| 0 <= i < |rs| && Covers(rs[i], end);
      assert i >= k && rs[k].off <= rs[i].off;
    }
    var p := rs[k].off;
    assert Covers(rs[k], p);
    assert forall i :: 0 <= i < k ==> !Covers(before[i], p);
    assert !Covered(before, p);
  }

  lemma TilingEndsAtTheTotal(rs: seq<ByteRange>, size: int)
    requires Proper(rs) && rs != [] && TilesOnce(rs, size) && Contiguous(rs)
    ensures Total(rs) == size
  {
    ContiguousTiles(rs);
    var last := rs[|rs| - 1];
    assert rs[..|rs|] == rs;
    assert last.off + last.length == Total(rs) <= size;
    assert forall i :: 0 <= i < |rs| ==> !Covers(rs[i], Total(rs));
    assert !Covered(rs, Total(rs));
  }

  // ----------------------------------------------------------------- Content

  /** The object holds each chunk's bytes at its offset. */
  ghost predicate Holds(obj: seq<byte>, rs: seq<ByteRange>, chunks: seq<seq<byte>>)
    requires |rs| == |chunks|
  {
    forall i :: 0 <= i < |rs| ==> HoldsChunk(obj, rs[i].off, chunks[i])
  }

  ghost predicate HoldsChunk(obj: seq<byte>, off: int, chunk: seq<byte>) {
    && (chunk != [] ==> 0 <= off <= |obj| - |chunk|)
    && forall q :: 0 <= q < |chunk| ==> obj[off + q] == chunk[q]
  }

  ghost predicate Measured(rs: seq<ByteRange>, chunks: seq<seq<byte>>) {
    |rs| == |chunks| && forall i :: 0 <= i < |rs| ==> rs[i].off >= 0 && rs[i].length == |chunks[i]|
  }

  /** The ranges leave no byte of the object open: any two assemblies are the same. */
  lemma OneAssembly(a: seq<byte>, b: seq<byte>, rs: seq<ByteRange>, chunks: seq<seq<byte>>, size: nat)
    requires Measured(rs, chunks) && TilesOnce(rs, size) && |a| == |b| == size
    requires Holds(a, rs, chunks) && Holds(b, rs, chunks)
    ensures a == b
  {
    forall p | 0 <= p < size ensures a[p] == b[p] {
      assert Covered(rs, p);
      var i :| 0 <= i < |rs| && Covers(rs[i], p);
      var q := p - rs[i].off;
      assert HoldsChunk(a, rs[i].off, chunks[i]) && HoldsChunk(b, rs[i].off, chunks[i]);
      assert a[rs[i].off + q] == chunks[i][q] && b[rs[i].off + q] == chunks[i][q];
    }
  }

  // -------------------------------------------------- Writing at an offset

  /** What a write at an offset makes of an object; a hole reads as zeros. */
  function WriteAt(obj: seq<byte>, off: nat, data: seq<byte>): (r: seq<byte>)
    ensures data == [] ==> r == obj
    ensures data != [] ==> |r| == (if |obj| > off + |data| then |obj| else off + |data|)
    ensures forall p :: 0 <= p < |r| && data != [] ==>
      r[p] == if off <= p < off + |data| then data[p - off] else if p < |obj| then obj[p] else 0
  {
    if data == [] then obj
    else
      seq(if |obj| > off + |data| then |obj| else off + |data|,
          p requires 0 <= p => if off <= p < off + |data| then data[p - off] else if p < |obj| then obj[p] else 0)
  }

  /** The writes in the order they arrived, over what the object held before. */
  function Replay(before: seq<byte>, rs: seq<ByteRange>, chunks: seq<seq<byte>>): seq<byte>
    requires |rs| == |chunks| && forall i :: 0 <= i < |rs| ==> rs[i].off >= 0
    decreases |rs|
  {
    if rs == [] then before
    else WriteAt(Replay(before, rs[..|rs| - 1], chunks[..|rs| - 1]), rs[|rs| - 1].off, chunks[|rs| - 1])
  }

  /** Writes that do not overlap all survive, in any order of arrival. */
  lemma {:induction false} ReplayHolds(before: seq<byte>, rs: seq<ByteRange>, chunks: seq<seq<byte>>)
    requires Measured(rs, chunks)
    requires forall i, j, p :: 0 <= i < j < |rs| && Covers(rs[i], p) ==> !Covers(rs[j], p)
    ensures Holds(Replay(before, rs, chunks), rs, chunks)
    decreases |rs|
  {
    if rs != [] {
      var n := |rs| - 1;
      var rest, parts := rs[..n], chunks[..n];
      ReplayHolds(before, rest, parts);
      var obj, after := Replay(before, rest, parts), Replay(before, rs, chunks);
      forall i | 0 <= i < |rs| ensures HoldsChunk(after, rs[i].off, chunks[i]) {
        if i < n {
          assert parts[i] == chunks[i] && rest[i] == rs[i];
          assert HoldsChunk(obj, rest[i].off, parts[i]);
          WriteElsewhere(obj, rs[n].off, chunks[n], rs[i].off, chunks[i], rs[i], rs[n]);
        }
      }
    }
  }

  lemma WriteElsewhere(obj: seq<byte>, off: nat, data: seq<byte>, at: nat, chunk: seq<byte>, a: ByteRange, b: ByteRange)
    requires a == ByteRange(at, |chunk|) && b == ByteRange(off, |data|) && HoldsChunk(obj, at, chunk)
    requires forall p :: Covers(a, p) ==> !Covers(b, p)
    ensures HoldsChunk(WriteAt(obj, off, data), at, chunk)
  {
    var after := WriteAt(obj, off, data);
    forall q | 0 <= q < |chunk| ensures 0 <= at + q < |after| && after[at + q] == chunk[q] {
      assert Covers(a, at + q);
      assert obj[at + q] == chunk[q];
    }
  }

  // ------------------------------------------------------- Parts end to end

  function Concatenated(parts: seq<seq<byte>>): seq<byte>
    decreases |parts|
  {
    if parts == [] then [] else Concatenated(parts[..|parts| - 1]) + parts[|parts| - 1]
  }

  lemma {:induction false} TotalWithout(rs: seq<ByteRange>, k: nat)
    requires k < |rs|
    ensures Total(rs) == Total(rs[..k] + rs[k + 1..]) + rs[k].length
    decreases |rs|
  {
    var n := |rs| - 1;
    if k == n {
      assert rs[..k] + rs[k + 1..] == rs[..n];
    } else {
      var less := rs[..k] + rs[k + 1..];
      assert less[..n - 1] == rs[..n][..k] + rs[..n][k + 1..] && less[n - 1] == rs[n];
      TotalWithout(rs[..n], k);
    }
  }

  lemma {:induction false} TotalIgnoresOrder(sorted: seq<ByteRange>, rs: seq<ByteRange>, perm: seq<nat>)
    requires Rearranges(sorted, rs, perm)
    ensures Total(sorted) == Total(rs)
    decreases |rs|
  {
    if rs != [] {
      var n := |rs| - 1;
      var k := PlaceOf(perm, |rs|, n);
      var sorted', perm' := sorted[..k] + sorted[k + 1..], perm[..k] + perm[k + 1..];
      WithoutTheLast(perm, n, k);
      TotalIgnoresOrder(sorted', rs[..n], perm');
      TotalWithout(sorted, k);
    }
  }

  lemma WithoutTheLast(perm: seq<nat>, n: nat, k: nat)
    requires IsPermutation(perm, n + 1) && k <= n && perm[k] == n
    ensures IsPermutation(perm[..k] + perm[k + 1..], n)
  {
    var perm' := perm[..k] + perm[k + 1..];
    assert forall i :: 0 <= i < n ==> perm'[i] == if i < k then perm[i] else perm[i + 1];
    forall j | 0 <= j < n ensures j in perm' {
      var i := PlaceOf(perm, n + 1, j);
      assert perm'[if i < k then i else i - 1] == j;
    }
  }

  /** Contiguous parts put end to end each land at their offset. */
  lemma {:induction false} ConcatenationHolds(rs: seq<ByteRange>, parts: seq<seq<byte>>)
    requires Measured(rs, parts) && Contiguous(rs)
    ensures |Concatenated(parts)| == Total(rs) && Holds(Concatenated(parts), rs, parts)
    decreases |rs|
  {
    hide HoldsChunk;
    if rs != [] {
      var n := |rs| - 1;
      var rest, before := rs[..n], parts[..n];
      assert forall i :: 0 <= i < n ==> rest[..i] == rs[..i];
      ConcatenationHolds(rest, before);
      var whole := Concatenated(before);
      assert Concatenated(parts) == whole + parts[n] && rs[n].off == |whole|;
      forall i | 0 <= i < |rs| ensures HoldsChunk(Concatenated(parts), rs[i].off, parts[i]) {
        if i < n {
          assert before[i] == parts[i] && rest[i] == rs[i];
          assert HoldsChunk(whole, rest[i].off, before[i]);
          HoldsAtTheFront(whole, parts[n], rs[i].off, parts[i]);
        } else {
          HoldsAtTheEnd(whole, parts[n]);
        }
      }
    }
  }

  lemma HoldsAtTheFront(whole: seq<byte>, more: seq<byte>, off: int, chunk: seq<byte>)
    requires HoldsChunk(whole, off, chunk)
    ensures HoldsChunk(whole + more, off, chunk)
  {
  }

  lemma HoldsAtTheEnd(whole: seq<byte>, more: seq<byte>)
    ensures HoldsChunk(whole + more, |whole|, more)
  {
  }

  /** Holding is a matter of which chunk lies where, not of their order. */
  lemma HoldingIgnoresOrder(obj: seq<byte>, sorted: seq<ByteRange>, parts: seq<seq<byte>>, rs: seq<ByteRange>,
                            chunks: seq<seq<byte>>, perm: seq<nat>)
    requires Rearranges(sorted, rs, perm) && |parts| == |chunks| == |rs|
    requires forall i :: 0 <= i < |rs| ==> parts[i] == chunks[perm[i]]
    requires Holds(obj, sorted, parts)
    ensures Holds(obj, rs, chunks)
  {
    forall k | 0 <= k < |rs| ensures HoldsChunk(obj, rs[k].off, chunks[k]) {
      var i := PlaceOf(perm, |rs|, k);
      assert parts[i] == chunks[k] && sorted[i] == rs[k];
      assert HoldsChunk(obj, sorted[i].off, parts[i]);
    }
  }

  /** The same chunks in another order of arrival, kept another way: the same object. */
  lemma AnyArrivalMakesTheSameObject(a: seq<byte>, rs: seq<ByteRange>, chunks: seq<seq<byte>>, b: seq<byte>,
                                     rs': seq<ByteRange>, chunks': seq<seq<byte>>, perm: seq<nat>, size: nat)
    requires Measured(rs, chunks) && TilesOnce(rs, size) && |a| == |b| == size
    requires Rearranges(rs', rs, perm) && |chunks'| == |rs| && forall i :: 0 <= i < |rs| ==> chunks'[i] == chunks[perm[i]]
    requires Holds(a, rs, chunks) && Holds(b, rs', chunks')
    ensures a == b
  {
    hide TilesOnce;
    HoldingIgnoresOrder(b, rs', chunks', rs, chunks, perm);
    OneAssembly(a, b, rs, chunks, size);
  }
}
