/** Assembling the chunks of one upload, written at their offsets where the driver can do that
    and staged as separate blobs where it cannot; Tiling.dfy says why the result is the same. */
module Uploads {
  import opened Model
  import opened Tiling

  /** Part names a staged chunk; the source hashes the destination key into a namespace
      of its own, so no part can be mistaken for an object. */
  datatype Key = Object(name: string) | Part(name: string, off: int)

  datatype PutAtOutcome = Wrote(n: int) | Unsupported | Failed

  /** A driver. fault stands for whatever can go wrong in one call; a call that fails
      stores nothing. */
  class BlobStore {
    const writesAt: bool
    var objects: map<Key, seq<byte>>

    constructor (canWriteAt: bool)
      ensures writesAt == canWriteAt && objects == map[]
    {
      writesAt, objects := canWriteAt, map[];
    }

    ghost function Content(key: Key): seq<byte>
      reads this
    {
      if key in objects then objects[key] else []
    }

    method PutAt(key: Key, off: int, data: seq<byte>, fault: bool) returns (r: PutAtOutcome)
      requires off >= 0
      modifies this
      ensures r == if !writesAt then Unsupported else if fault then Failed else Wrote(|data|)
      ensures objects == if r.Wrote? then old(objects)[key := WriteAt(old(Content(key)), off, data)] else old(objects)
    {
      if !writesAt {
        return Unsupported;
      }
      if fault {
        return Failed;
      }
      var obj := if key in objects then objects[key] else [];
      objects := objects[key := WriteAt(obj, off, data)];
      r := Wrote(|data|);
    }

    method Put(key: Key, data: seq<byte>, fault: bool) returns (n: Option<int>)
      modifies this
      ensures n == if fault then None else Some(|data|)
      ensures objects == if fault then old(objects) else old(objects)[key := data]
    {
      if fault {
        return None;
      }
      objects := objects[key := data];
      n := Some(|data|);
    }

    method Delete(key: Key)
      modifies this
      ensures objects == old(objects) - {key}
    {
      objects := objects - {key};
    }
  }

  // ------------------------------------------------------------ Reading parts

  datatype ReadResult = Data(bytes: seq<byte>) | Eof | Missing

  /** A list of objects read as one stream; none is opened before its turn. */
  class PartsReader {
    const store: BlobStore
    const keys: seq<Key>
    var cur: Option<seq<byte>>
    var i: nat
    var failed: bool

    ghost predicate Valid()
      reads this
    {
      i <= |keys|
    }

    /** What is still to be read. */
    ghost function Rest(): seq<byte>
      requires Valid()
      reads this, store
    {
      (if cur.Some? then cur.value else []) + Contents(store.objects, keys[i..])
    }

    constructor (s: BlobStore, ks: seq<Key>)
      ensures Valid() && store == s && keys == ks && !failed && i == 0 && cur == None
    {
      store, keys, cur, i, failed := s, ks, None, 0, false;
    }

    /** limit is the caller's buffer, avail what the open object hands over at once. */
    method Read(limit: nat, avail: nat) returns (r: ReadResult)
      requires Valid() && limit > 0 && avail > 0
      modifies this
      ensures Valid()
      ensures r.Data? ==> 0 < |r.bytes| <= limit && old(Rest()) == r.bytes + Rest() && failed == old(failed)
      ensures r.Eof? ==> old(Rest()) == [] && i == |keys| && failed == old(failed)
      ensures r.Missing? ==> failed && (old(failed) || exists k :: k in keys && k !in store.objects)
      ensures old(i) <= i && forall j :: old(i) <= j < i ==> keys[j] in store.objects
    {
      hide Contents;
      while true
        invariant Valid() && old(i) <= i && failed == old(failed)
        invariant Rest() == old(Rest())
        invariant forall j :: old(i) <= j < i ==> keys[j] in store.objects
        decreases |keys| - i, cur.Some?
      {
        if failed {
          return Missing;
        }
        if cur.None? {
          if i >= |keys| {
            NoContents(store.objects, keys);
            return Eof;
          }
          if keys[i] !in store.objects {
            failed := true;
            return Missing;
          }
          Open();
        }
        var n := if |cur.value| < limit then |cur.value| else limit;
        if avail < n {
          n := avail;
        }
        if n > 0 {
          var bytes := Take(n);
          return Data(bytes);
        }
        assert cur.value == [];
        cur := None;
      }
    }

    method Open()
      requires Valid() && cur.None? && i < |keys| && keys[i] in store.objects
      modifies this`cur, this`i
      ensures Valid() && i == old(i) + 1 && cur.Some? && Rest() == old(Rest())
    {
      ContentsFrom(store.objects, keys, i);
      cur := Some(store.objects[keys[i]]);
      i := i + 1;
    }

    method Take(n: nat) returns (bytes: seq<byte>)
      requires Valid() && cur.Some? && n <= |cur.value|
      modifies this`cur
      ensures |bytes| == n && old(Rest()) == bytes + Rest()
    {
      bytes := cur.value[..n];
      assert cur.value == cur.value[..n] + cur.value[n..];
      cur := Some(cur.value[n..]);
    }
  }

  function ContentOf(objects: map<Key, seq<byte>>, key: Key): seq<byte> {
    if key in objects then objects[key] else []
  }

  function Parts(objects: map<Key, seq<byte>>, keys: seq<Key>): (parts: seq<seq<byte>>)
    ensures |parts| == |keys| && forall i :: 0 <= i < |keys| ==> parts[i] == ContentOf(objects, keys[i])
  {
    seq(|keys|, i requires 0 <= i < |keys| => ContentOf(objects, keys[i]))
  }

  function Contents(objects: map<Key, seq<byte>>, keys: seq<Key>): seq<byte> {
    Concatenated(Parts(objects, keys))
  }

  lemma NoContents(objects: map<Key, seq<byte>>, keys: seq<Key>)
    ensures Contents(objects, keys[|keys|..]) == []
  {
  }

  lemma ContentsFrom(objects: map<Key, seq<byte>>, keys: seq<Key>, i: nat)
    requires i < |keys|
    ensures Contents(objects, keys[i..]) == ContentOf(objects, keys[i]) + Contents(objects, keys[i + 1..])
  {
    assert Parts(objects, keys[i..]) == [ContentOf(objects, keys[i])] + Parts(objects, keys[i + 1..]);
    ConcatenatedFront(ContentOf(objects, keys[i]), Parts(objects, keys[i + 1..]));
  }

  lemma {:induction false} ConcatenatedFront(first: seq<byte>, rest: seq<seq<byte>>)
    ensures Concatenated([first] + rest) == first + Concatenated(rest)
    decreases |rest|
  {
    var all := [first] + rest;
    if rest == [] {
      assert all[..|all| - 1] == [];
    } else {
      assert all[..|all| - 1] == [first] + rest[..|rest| - 1];
      ConcatenatedFront(first, rest[..|rest| - 1]);
    }
  }

  // ------------------------------------------------------------------ Sorting

  function Arranged(rs: seq<ByteRange>, order: seq<nat>): (sorted: seq<ByteRange>)
    requires |order| == |rs| && forall i :: 0 <= i < |order| ==> order[i] < |rs|
    ensures |sorted| == |rs| && forall i :: 0 <= i < |rs| ==> sorted[i] == rs[order[i]]
  {
    seq(|rs|, i requires 0 <= i < |rs| => rs[order[i]])
  }

  /** Sorting by offset promises nothing about equal offsets, so it may leave the ranges in
      any of several orders; the one it does leave them in is a parameter here. */
  ghost predicate SortsByOffset(order: seq<nat>, rs: seq<ByteRange>) {
    IsPermutation(order, |rs|) && SortedByOffset(Arranged(rs, order))
  }

  /** Equal offsets stay in order of arrival. */
  ghost predicate Stable(order: seq<nat>, rs: seq<ByteRange>) {
    && SortsByOffset(order, rs)
    && var sorted := Arranged(rs, order);
      forall i, j :: 0 <= i < j < |rs| && sorted[i].off == sorted[j].off ==> order[i] < order[j]
  }

  /** Some order always exists: insertion sort finds the stable one. */
  method InsertionSort(rs: seq<ByteRange>) returns (order: seq<nat>)
    ensures Stable(order, rs)
  {
    hide Stable;
    order := [];
    NothingIsStable();
    for n := 0 to |rs|
      invariant |order| == n && (forall i :: 0 <= i < n ==> order[i] < n) && Stable(order, rs[..n])
    {
      var j := n;
      while j > 0 && rs[order[j - 1]].off > rs[n].off
        invariant 0 <= j <= n
        invariant forall i :: j <= i < n ==> rs[order[i]].off > rs[n].off
      {
        j := j - 1;
      }
      Inserted(order, rs, n, j);
      order := order[..j] + [n] + order[j..];
    }
    assert rs[..|rs|] == rs;
  }

  lemma NothingIsStable()
    ensures Stable([], [])
  {
  }

  lemma Inserted(order: seq<nat>, rs: seq<ByteRange>, n: nat, j: nat)
    requires n < |rs| && Stable(order, rs[..n]) && j <= n
    requires forall i :: j <= i < n ==> order[i] < n && rs[order[i]].off > rs[n].off
    requires j > 0 ==> order[j - 1] < n && rs[order[j - 1]].off <= rs[n].off
    ensures Stable(order[..j] + [n] + order[j..], rs[..n + 1])
  {
    hide IsPermutation, SortedByOffset;
    InsertedPermutes(order, n, j);
    OrderInRange(order, n);
    var order' := order[..j] + [n] + order[j..];
    OrderInRange(order', n + 1);
    var less, more := Arranged(rs[..n], order), Arranged(rs[..n + 1], order');
    ArrangedWithOneMore(order, order', less, more, rs, n, j);
    InsertedSorts(less, rs[n], j);
    InsertedKeepsArrivals(order, order', less, more, rs[n], n, j);
  }

  lemma ArrangedWithOneMore(order: seq<nat>, order': seq<nat>, less: seq<ByteRange>, more: seq<ByteRange>,
                            rs: seq<ByteRange>, n: nat, j: nat)
    requires n < |rs| && |order| == n && j <= n && order' == order[..j] + [n] + order[j..]
    requires forall i :: 0 <= i < n ==> order[i] < n
    requires less == Arranged(rs[..n], order) && more == Arranged(rs[..n + 1], order')
    ensures more == less[..j] + [rs[n]] + less[j..] && forall i :: 0 <= i < n ==> less[i] == rs[order[i]]
  {
  }

  lemma InsertedSorts(sorted: seq<ByteRange>, r: ByteRange, j: nat)
    requires SortedByOffset(sorted) && j <= |sorted|
    requires forall i :: j <= i < |sorted| ==> sorted[i].off >= r.off
    requires j > 0 ==> sorted[j - 1].off <= r.off
    ensures SortedByOffset(sorted[..j] + [r] + sorted[j..])
  {
  }

  lemma InsertedKeepsArrivals(order: seq<nat>, order': seq<nat>, less: seq<ByteRange>, more: seq<ByteRange>, r: ByteRange,
                              n: nat, j: nat)
    requires |order| == |less| == n && j <= n && order' == order[..j] + [n] + order[j..] && more == less[..j] + [r] + less[j..]
    requires forall i :: 0 <= i < n ==> order[i] < n
    requires forall i :: j <= i < n ==> less[i].off > r.off
    requires forall i, k :: 0 <= i < k < n && less[i].off == less[k].off ==> order[i] < order[k]
    ensures forall i, k :: 0 <= i < k < n + 1 && more[i].off == more[k].off ==> order'[i] < order'[k]
  {
    forall i, k | 0 <= i < k < n + 1 && more[i].off == more[k].off ensures order'[i] < order'[k] {
      if k < j {
        assert less[i].off == less[k].off;
      } else if k > j {
        assert i != j;
        assert i < j ==> less[i].off == less[k - 1].off;
        assert i > j ==> less[i - 1].off == less[k - 1].off;
      }
    }
  }

  lemma InsertedPermutes(perm: seq<nat>, n: nat, j: nat)
    requires IsPermutation(perm, n) && j <= n
    ensures IsPermutation(perm[..j] + [n] + perm[j..], n + 1)
  {
    var p' := perm[..j] + [n] + perm[j..];
    assert forall i :: 0 <= i <= n ==> p'[i] == if i < j then perm[i] else if i == j then n else perm[i - 1];
    forall k | 0 <= k < n + 1 ensures k in p' {
      if k < n {
        var i := PlaceOf(perm, n, k);
        assert p'[if i < j then i else i + 1] == k;
      } else {
        assert p'[j] == k;
      }
    }
  }

  // ------------------------------------------------------------------- Upload

  /** No later chunk was sent to the same offset. */
  predicate LastAt(rs: seq<ByteRange>, i: nat)
    requires i < |rs|
  {
    forall j :: i < j < |rs| ==> rs[j].off != rs[i].off
  }

  /** Every staged chunk that was not replaced is where its part key says. */
  ghost predicate Staged(objects: map<Key, seq<byte>>, name: string, rs: seq<ByteRange>, chunks: seq<seq<byte>>)
    requires |rs| == |chunks|
  {
    forall i :: 0 <= i < |rs| && LastAt(rs, i) ==>
      Part(name, rs[i].off) in objects && objects[Part(name, rs[i].off)] == chunks[i]
  }

  lemma ReplayOneMore(before: seq<byte>, rs: seq<ByteRange>, chunks: seq<seq<byte>>, off: nat, body: seq<byte>)
    requires Measured(rs, chunks)
    ensures Replay(before, rs + [ByteRange(off, |body|)], chunks + [body]) == WriteAt(Replay(before, rs, chunks), off, body)
  {
    assert (rs + [ByteRange(off, |body|)])[..|rs|] == rs && (chunks + [body])[..|rs|] == chunks;
  }

  lemma NothingStaged(objects: map<Key, seq<byte>>, name: string)
    ensures Staged(objects, name, [], [])
  {
  }

  lemma StagedOneMore(objects: map<Key, seq<byte>>, name: string, rs: seq<ByteRange>, chunks: seq<seq<byte>>, off: nat,
                      body: seq<byte>)
    requires Measured(rs, chunks) && Staged(objects, name, rs, chunks)
    ensures Staged(objects[Part(name, off) := body], name, rs + [ByteRange(off, |body|)], chunks + [body])
  {
    var rs' := rs + [ByteRange(off, |body|)];
    forall i | 0 <= i < |rs| && LastAt(rs', i) ensures LastAt(rs, i) && rs[i].off != off {
      assert rs'[|rs|].off == off;
      forall j | i < j < |rs| ensures rs[j].off != rs[i].off {
        assert rs'[j] == rs[j];
      }
    }
  }

  lemma NotContiguous(rs: seq<ByteRange>, i: nat)
    requires i < |rs| && rs[i].off != Total(rs[..i])
    ensures !Contiguous(rs)
  {
  }

  lemma OneMoreContiguous(rs: seq<ByteRange>, i: nat)
    requires i < |rs| && Contiguous(rs[..i]) && rs[i].off == Total(rs[..i])
    ensures Contiguous(rs[..i + 1]) && Total(rs[..i + 1]) == rs[i].off + rs[i].length
  {
    var part, less := rs[..i + 1], rs[..i];
    assert part[..i] == less;
    forall k | 0 <= k < i + 1 ensures part[k].off == Total(part[..k]) {
      assert part[..k] == rs[..k];
      if k < i {
        assert less[..k] == rs[..k] && less[k] == rs[k];
      }
    }
  }

  lemma ProperIsKept(rs: seq<ByteRange>, ranges: seq<ByteRange>, perm: seq<nat>)
    requires Rearranges(rs, ranges, perm) && Proper(ranges)
    ensures Proper(rs)
  {
  }

  lemma TiledIsContiguous(rs: seq<ByteRange>, n: int)
    requires Proper(rs) && SortedByOffset(rs)
    ensures TilesOnce(rs, n) ==> Contiguous(rs)
  {
    if TilesOnce(rs, n) {
      TilingIsContiguous(rs, n, |rs|);
      assert rs[..|rs|] == rs;
    }
  }

  lemma NotTiled(ranges: seq<ByteRange>, rs: seq<ByteRange>, perm: seq<nat>)
    requires Rearranges(rs, ranges, perm) && SortedByOffset(rs) && !Contiguous(rs)
    ensures Proper(ranges) ==> forall n :: !TilesOnce(ranges, n)
  {
    hide TilesOnce, Contiguous, SortedByOffset, Rearranges;
    if Proper(ranges) {
      ProperIsKept(rs, ranges, perm);
      forall n ensures !TilesOnce(ranges, n) {
        TilingIgnoresOrder(rs, ranges, perm, n);
        TiledIsContiguous(rs, n);
      }
    }
  }

  lemma ContiguousIsTiled(ranges: seq<ByteRange>, chunks: seq<seq<byte>>, rs: seq<ByteRange>, perm: seq<nat>)
    requires Measured(ranges, chunks) && Rearranges(rs, ranges, perm) && Contiguous(rs)
    ensures Total(rs) >= 0 && TilesOnce(ranges, Total(rs))
    ensures Proper(ranges) && ranges != [] ==> forall n :: TilesOnce(ranges, n) ==> n == Total(rs)
  {
    hide TilesOnce, Contiguous;
    ContiguousTiles(rs);
    TilingIgnoresOrder(rs, ranges, perm, Total(rs));
    if Proper(ranges) && ranges != [] {
      ProperIsKept(rs, ranges, perm);
      forall n | TilesOnce(ranges, n) ensures n == Total(rs) {
        TilingIgnoresOrder(rs, ranges, perm, n);
        TilingEndsAtTheTotal(rs, n);
      }
    }
  }

  lemma OffsetsDiffer(ranges: seq<ByteRange>, size: int, i: nat)
    requires Proper(ranges) && TilesOnce(ranges, size) && i < |ranges|
    ensures LastAt(ranges, i)
  {
    forall j | i < j < |ranges| ensures ranges[j].off != ranges[i].off {
      assert Covers(ranges[i], ranges[i].off) && Covers(ranges[j], ranges[j].off);
    }
  }

  /** Ranges that tile leave each chunk its own part, and the parts in offset order are
      the object. */
  lemma PartsMakeTheObject(objects: map<Key, seq<byte>>, name: string, ranges: seq<ByteRange>, chunks: seq<seq<byte>>,
                           size: nat, rs: seq<ByteRange>, perm: seq<nat>)
    requires Measured(ranges, chunks) && Staged(objects, name, ranges, chunks) && Proper(ranges) && ranges != []
    requires TilesOnce(ranges, size) && Rearranges(rs, ranges, perm) && SortedByOffset(rs)
    ensures var keys := PartKeys(name, rs);
      && (forall k :: k in keys ==> k in objects)
      && |Contents(objects, keys)| == size && Holds(Contents(objects, keys), ranges, chunks)
  {
    hide TilesOnce, SortedByOffset, Holds, Contiguous;
    var keys := PartKeys(name, rs);
    var parts := Parts(objects, keys);
    ProperIsKept(rs, ranges, perm);
    forall i | 0 <= i < |rs| ensures keys[i] in objects && parts[i] == chunks[perm[i]] {
      OffsetsDiffer(ranges, size, perm[i]);
    }
    TilingIgnoresOrder(rs, ranges, perm, size);
    TilingIsContiguous(rs, size, |rs|);
    assert rs[..|rs|] == rs;
    TilingEndsAtTheTotal(rs, size);
    ConcatenationHolds(rs, parts);
    HoldingIgnoresOrder(Concatenated(parts), rs, parts, ranges, chunks, perm);
  }

  function PartKeys(name: string, rs: seq<ByteRange>): (keys: seq<Key>)
    ensures |keys| == |rs| && forall i :: 0 <= i < |rs| ==> keys[i] == Part(name, rs[i].off)
  {
    seq(|rs|, i requires 0 <= i < |rs| => Part(name, rs[i].off))
  }

  /** No chunk with bytes in it was replaced by a later one at its offset. */
  predicate NonEmptyAreLast(rs: seq<ByteRange>) {
    forall i :: 0 <= i < |rs| && rs[i].length > 0 ==> LastAt(rs, i)
  }

  lemma OrderInRange(order: seq<nat>, n: nat)
    requires IsPermutation(order, n)
    ensures |order| == n && forall i :: 0 <= i < n ==> order[i] < n
  {
  }

  /** Of the chunks sent to an offset there is a last one. */
  lemma {:induction false} TheLastAt(rs: seq<ByteRange>, i: nat) returns (j: nat)
    requires i < |rs|
    ensures i <= j < |rs| && rs[j].off == rs[i].off && LastAt(rs, j)
    decreases |rs| - i
  {
    if LastAt(rs, i) {
      j := i;
    } else {
      var k :| i < k < |rs| && rs[k].off == rs[i].off;
      j := TheLastAt(rs, k);
    }
  }

  lemma EveryPartIsThere(objects: map<Key, seq<byte>>, name: string, ranges: seq<ByteRange>, chunks: seq<seq<byte>>,
                         rs: seq<ByteRange>, perm: seq<nat>)
    requires Measured(ranges, chunks) && Staged(objects, name, ranges, chunks) && Rearranges(rs, ranges, perm)
    ensures forall k :: k in PartKeys(name, rs) ==> k in objects
  {
    hide IsPermutation;
    OrderInRange(perm, |ranges|);
    forall i | 0 <= i < |rs| ensures PartKeys(name, rs)[i] in objects {
      var j := TheLastAt(ranges, perm[i]);
    }
  }

  /** In a stable order that has no overlap, whatever follows a chunk at its offset would
      start inside it. */
  lemma StableLeavesTheLast(ranges: seq<ByteRange>, order: seq<nat>, chunks: seq<seq<byte>>)
    requires Measured(ranges, chunks) && Stable(order, ranges) && Contiguous(Arranged(ranges, order))
    ensures NonEmptyAreLast(ranges)
  {
    var rs := Arranged(ranges, order);
    forall i, j | 0 <= i < j < |ranges| && ranges[i].length > 0 ensures ranges[j].off != ranges[i].off {
      var a := PlaceOf(order, |ranges|, i);
      var b := PlaceOf(order, |ranges|, j);
      if ranges[j].off == ranges[i].off {
        assert a < b;
        TotalsGrow(rs, a, b);
      }
    }
  }

  lemma {:induction false} TotalsGrow(rs: seq<ByteRange>, a: nat, b: nat)
    requires a < b < |rs| && forall i :: 0 <= i < |rs| ==> rs[i].length >= 0
    ensures Total(rs[..b]) >= Total(rs[..a]) + rs[a].length
    decreases b
  {
    var k := b - 1;
    assert rs[..b][..k] == rs[..k] && rs[..b][k] == rs[k];
    if a < k {
      TotalsGrow(rs, a, k);
    }
  }

  lemma {:induction false} NoRoomToSpare(rs: seq<ByteRange>, parts: seq<seq<byte>>)
    requires |rs| == |parts| && forall i :: 0 <= i < |rs| ==> |parts[i]| >= rs[i].length
    ensures |Concatenated(parts)| >= Total(rs)
    ensures |Concatenated(parts)| == Total(rs) ==> forall i :: 0 <= i < |rs| ==> |parts[i]| == rs[i].length
    decreases |rs|
  {
    if rs != [] {
      var n := |rs| - 1;
      NoRoomToSpare(rs[..n], parts[..n]);
      assert forall i :: 0 <= i < n ==> rs[..n][i] == rs[i] && parts[..n][i] == parts[i];
    }
  }

  /** Parts of the right total size leave no place for a part to be read twice, so every
      empty chunk still reads as empty. */
  lemma PartsThatFitHold(objects: map<Key, seq<byte>>, name: string, ranges: seq<ByteRange>, chunks: seq<seq<byte>>,
                         rs: seq<ByteRange>, perm: seq<nat>)
    requires Measured(ranges, chunks) && Staged(objects, name, ranges, chunks) && NonEmptyAreLast(ranges)
    requires Rearranges(rs, ranges, perm) && Contiguous(rs)
    requires |Contents(objects, PartKeys(name, rs))| == Total(rs)
    ensures Holds(Contents(objects, PartKeys(name, rs)), ranges, chunks)
  {
    hide Contiguous, Holds, Total, IsPermutation;
    OrderInRange(perm, |ranges|);
    var parts := Parts(objects, PartKeys(name, rs));
    forall i | 0 <= i < |rs| ensures |parts[i]| >= rs[i].length && (rs[i].length > 0 ==> parts[i] == chunks[perm[i]]) {
      assert rs[i].length > 0 ==> LastAt(ranges, perm[i]);
    }
    NoRoomToSpare(rs, parts);
    forall i | 0 <= i < |rs| ensures parts[i] == chunks[perm[i]] {
      assert |parts[i]| == rs[i].length == |chunks[perm[i]]|;
    }
    ConcatenationHolds(rs, parts);
    HoldingIgnoresOrder(Concatenated(parts), rs, parts, ranges, chunks, perm);
  }

  /** What becomes of staged chunks whose ranges have neither gap nor overlap. */
  lemma WhatPartsMake(objects: map<Key, seq<byte>>, name: string, ranges: seq<ByteRange>, chunks: seq<seq<byte>>,
                      order: seq<nat>, covered: nat)
    requires Measured(ranges, chunks) && Staged(objects, name, ranges, chunks) && ranges != []
    requires TilesOnce(ranges, covered) && covered == Total(ranges)
    requires SortsByOffset(order, ranges) && Contiguous(Arranged(ranges, order))
    ensures var keys := PartKeys(name, Arranged(ranges, order));
      && (forall k :: k in keys ==> k in objects)
      && (forall i :: 0 <= i < |ranges| ==> Part(name, ranges[i].off) in keys)
      && (Proper(ranges) ==> |Contents(objects, keys)| == covered)
      && (|Contents(objects, keys)| == covered && (NonEmptyAreLast(ranges) || Stable(order, ranges)) ==>
        Holds(Contents(objects, keys), ranges, chunks))
  {
    hide TilesOnce, Holds, Staged, Measured, Proper, Total, IsPermutation, SortedByOffset, Contiguous, NonEmptyAreLast, Stable,
      Contents;
    OrderInRange(order, |ranges|);
    var rs := Arranged(ranges, order);
    var keys := PartKeys(name, rs);
    TotalIgnoresOrder(rs, ranges, order);
    EveryPartIsThere(objects, name, ranges, chunks, rs, order);
    if Proper(ranges) {
      PartsMakeTheObject(objects, name, ranges, chunks, covered, rs, order);
    }
    if Stable(order, ranges) {
      StableLeavesTheLast(ranges, order, chunks);
    }
    if |Contents(objects, keys)| == covered && NonEmptyAreLast(ranges) {
      PartsThatFitHold(objects, name, ranges, chunks, rs, order);
    }
    SamePlaces(rs, ranges, order);
    PartsAreNamed(name, ranges, rs);
  }

  lemma PartsAreNamed(name: string, ranges: seq<ByteRange>, rs: seq<ByteRange>)
    requires forall i :: 0 <= i < |ranges| ==> ranges[i] in rs
    ensures forall i :: 0 <= i < |ranges| ==> Part(name, ranges[i].off) in PartKeys(name, rs)
  {
    forall i | 0 <= i < |ranges| ensures Part(name, ranges[i].off) in PartKeys(name, rs) {
      var j :| 0 <= j < |rs| && rs[j] == ranges[i];
      assert PartKeys(name, rs)[j] == Part(name, ranges[i].off);
    }
  }

  /** The object made of these ranges is right whatever bytes they bring. */
  ghost predicate RightForAnyBytes(name: string, ranges: seq<ByteRange>, rs: seq<ByteRange>) {
    forall objects, chunks :: Measured(ranges, chunks) && Staged(objects, name, ranges, chunks) ==>
      Holds(Contents(objects, PartKeys(name, rs)), ranges, chunks)
  }

  /** Ranges whose parts add up make the right object, whatever bytes they bring, exactly when
      no chunk with bytes in it was replaced. */
  lemma StagingIsRightExactlyWhen(objects: map<Key, seq<byte>>, name: string, ranges: seq<ByteRange>,
                                  chunks: seq<seq<byte>>, rs: seq<ByteRange>, perm: seq<nat>)
    requires Measured(ranges, chunks) && Staged(objects, name, ranges, chunks)
    requires Rearranges(rs, ranges, perm) && Contiguous(rs)
    requires |Contents(objects, PartKeys(name, rs))| == Total(rs)
    ensures RightForAnyBytes(name, ranges, rs) <==> NonEmptyAreLast(ranges)
  {
    hide Rearranges, Contiguous, Total, Holds;
    if NonEmptyAreLast(ranges) {
      forall objects', chunks' | Measured(ranges, chunks') && Staged(objects', name, ranges, chunks')
        ensures Holds(Contents(objects', PartKeys(name, rs)), ranges, chunks')
      {
        SameSizes(objects, chunks, objects', chunks', name, ranges, rs, perm);
        PartsThatFitHold(objects', name, ranges, chunks', rs, perm);
      }
    } else {
      var i :| 0 <= i < |ranges| && ranges[i].length > 0 && !LastAt(ranges, i);
      MarkedChunkIsLost(objects, name, ranges, chunks, i, rs);
    }
  }

  lemma {:induction false} SameLengths(a: seq<seq<byte>>, b: seq<seq<byte>>)
    requires |a| == |b| && forall i :: 0 <= i < |a| ==> |a[i]| == |b[i]|
    ensures |Concatenated(a)| == |Concatenated(b)|
    decreases |a|
  {
    if a != [] {
      SameLengths(a[..|a| - 1], b[..|b| - 1]);
    }
  }

  /** The sizes of the parts are a matter of the ranges alone. */
  lemma SameSizes(objects: map<Key, seq<byte>>, chunks: seq<seq<byte>>, objects': map<Key, seq<byte>>,
                  chunks': seq<seq<byte>>, name: string, ranges: seq<ByteRange>, rs: seq<ByteRange>, perm: seq<nat>)
    requires Measured(ranges, chunks) && Staged(objects, name, ranges, chunks)
    requires Measured(ranges, chunks') && Staged(objects', name, ranges, chunks') && Rearranges(rs, ranges, perm)
    ensures |Contents(objects, PartKeys(name, rs))| == |Contents(objects', PartKeys(name, rs))|
  {
    hide IsPermutation, LastAt;
    OrderInRange(perm, |ranges|);
    var a, b := Parts(objects, PartKeys(name, rs)), Parts(objects', PartKeys(name, rs));
    forall i | 0 <= i < |rs| ensures |a[i]| == |b[i]| {
      var j := TheLastAt(ranges, perm[i]);
      assert |chunks[j]| == |chunks'[j]|;
    }
    SameLengths(a, b);
  }

  function Filled(n: nat, b: byte): (data: seq<byte>)
    ensures |data| == n && forall k :: 0 <= k < n ==> data[k] == b
  {
    seq(n, _ => b)
  }

  lemma {:induction false} AllZero(parts: seq<seq<byte>>)
    requires forall i, k :: 0 <= i < |parts| && 0 <= k < |parts[i]| ==> parts[i][k] == 0
    ensures forall k :: 0 <= k < |Concatenated(parts)| ==> Concatenated(parts)[k] == 0
    decreases |parts|
  {
    if parts != [] {
      AllZero(parts[..|parts| - 1]);
    }
  }

  /** A chunk of ones among zeros that was replaced is found nowhere in the object. */
  lemma MarkedChunkIsLost(objects: map<Key, seq<byte>>, name: string, ranges: seq<ByteRange>, chunks: seq<seq<byte>>,
                          i: nat, rs: seq<ByteRange>)
    requires Measured(ranges, chunks) && Staged(objects, name, ranges, chunks)
    requires i < |ranges| && ranges[i].length > 0 && !LastAt(ranges, i)
    ensures !RightForAnyBytes(name, ranges, rs)
  {
    hide LastAt, Concatenated;
    var zeros := map k | k in objects :: Filled(|objects[k]|, 0);
    var marked := seq(|chunks|, j requires 0 <= j < |chunks| => Filled(|chunks[j]|, if j == i then 1 else 0));
    assert Measured(ranges, marked);
    forall j | 0 <= j < |ranges| && LastAt(ranges, j)
      ensures Part(name, ranges[j].off) in zeros && zeros[Part(name, ranges[j].off)] == marked[j]
    {
      assert j != i;
    }
    assert Staged(zeros, name, ranges, marked);
    var obj := Contents(zeros, PartKeys(name, rs));
    AllZero(Parts(zeros, PartKeys(name, rs)));
    assert marked[i][0] == 1;
    assert !HoldsChunk(obj, ranges[i].off, marked[i]);
  }

  lemma StagedKeepsParts(a: map<Key, seq<byte>>, b: map<Key, seq<byte>>, name: string, rs: seq<ByteRange>,
                         chunks: seq<seq<byte>>)
    requires |rs| == |chunks| && Staged(a, name, rs, chunks)
    requires forall k: Key :: k.Part? && k in a ==> k in b && b[k] == a[k]
    ensures Staged(b, name, rs, chunks)
  {
  }

  lemma SamePlaces(rs: seq<ByteRange>, ranges: seq<ByteRange>, perm: seq<nat>)
    requires Rearranges(rs, ranges, perm)
    ensures forall i :: 0 <= i < |ranges| ==> ranges[i] in rs
  {
    forall i | 0 <= i < |ranges| ensures ranges[i] in rs {
      var j := PlaceOf(perm, |ranges|, i);
      assert rs[j] == ranges[i];
    }
  }

  lemma {:induction false} ReplayBounded(before: seq<byte>, rs: seq<ByteRange>, chunks: seq<seq<byte>>, size: nat)
    requires Measured(rs, chunks) && forall i :: 0 <= i < |rs| ==> rs[i].off + rs[i].length <= size
    ensures |Replay(before, rs, chunks)| <= if |before| > size then |before| else size
    decreases |rs|
  {
    if rs != [] {
      ReplayBounded(before, rs[..|rs| - 1], chunks[..|rs| - 1], size);
    }
  }

  lemma ReplaySize(before: seq<byte>, rs: seq<ByteRange>, chunks: seq<seq<byte>>, size: nat)
    requires Measured(rs, chunks) && Proper(rs) && rs != [] && TilesOnce(rs, size)
    ensures |before| <= size ==> |Replay(before, rs, chunks)| == size
  {
    ReplayBounded(before, rs, chunks, size);
    ReplayHolds(before, rs, chunks);
    if size > 0 {
      assert Covered(rs, size - 1);
      var i :| 0 <= i < |rs| && Covers(rs[i], size - 1);
      assert HoldsChunk(Replay(before, rs, chunks), rs[i].off, chunks[i]);
      var q := size - 1 - rs[i].off;
      var last := chunks[i][q];
      assert Replay(before, rs, chunks)[rs[i].off + q] == last;
    }
  }

  class ChunkedUpload {
    const store: BlobStore
    const name: string
    var ranges: seq<ByteRange>
    var written: int
    var max: int
    var staged: bool
    var probed: bool
    var done: bool
    /** The bytes taken of each chunk, in order of arrival. */
    ghost var chunks: seq<seq<byte>>
    /** What the destination held when the upload began. */
    ghost var before: seq<byte>

    ghost predicate Valid()
      reads this, store
    {
      && Measured(ranges, chunks) && written == Total(ranges)
      && (staged ==> !store.writesAt) && (probed && !staged ==> store.writesAt)
      && (!probed ==> ranges == [] && !staged)
      && (!done && !staged ==> store.Content(Object(name)) == Replay(before, ranges, chunks))
      && (!done && !staged && ranges != [] ==> Object(name) in store.objects)
      && (!done && staged ==> Staged(store.objects, name, ranges, chunks))
    }

    constructor (s: BlobStore, n: string)
      ensures Valid() && store == s && name == n && ranges == [] && chunks == [] && written == max == 0 && !done && !staged
      ensures before == s.Content(Object(n))
    {
      store, name := s, n;
      ranges, written, max, staged, probed, done := [], 0, 0, false, false, false;
      chunks, before := [], s.Content(Object(n));
    }

    method LimitBytes(limit: int)
      requires Valid()
      modifies this`max
      ensures Valid() && max == limit
    {
      max := limit;
    }

    /** How much of a body is read: what the limit leaves room for, and one more byte. */
    function Accepted(data: seq<byte>): (taken: seq<byte>)
      reads this`max, this`written
      ensures taken <= data && (max <= 0 || written + |data| <= max ==> taken == data)
      ensures max > 0 && written <= max ==> written + |taken| <= max + 1
      ensures max > 0 && written + |data| > max ==> written + |taken| > max
    {
      if max <= 0 then data
      else
        var budget := (if max > written then max - written else 0) + 1;
        if |data| > budget then data[..budget] else data
    }

    /** A chunk is taken unless the offset is negative, the upload is over, or the driver
        fails; a taken one is on record even when it breaks the limit. */
    method WriteRange(off: int, data: seq<byte>, fault: bool) returns (ok: bool)
      requires Valid()
      modifies this, store
      ensures Valid() && done == old(done) && max == old(max) && before == old(before)
      ensures var taken := off >= 0 && !old(done) && !fault;
        && ranges == (if taken then old(ranges) + [ByteRange(off, |old(Accepted(data))|)] else old(ranges))
        && chunks == (if taken then old(chunks) + [old(Accepted(data))] else old(chunks))
        && (ok <==> taken && (max > 0 ==> written <= max))
      ensures forall k :: k != Object(name) && (k.Object? || k.name != name) ==>
        (k in store.objects <==> k in old(store.objects)) && (k in store.objects ==> store.objects[k] == old(store.objects)[k])
    {
      hide Replay, WriteAt, Total, Staged;
      if off < 0 || done {
        return false;
      }
      var body := Accepted(data);
      ReplayOneMore(before, ranges, chunks, off, body);
      if !probed {
        probed := true;
        var r := store.PutAt(Object(name), off, body, fault);
        match r {
          case Wrote(n) =>
            ok := Recorded(off, body);
            return;
          case Failed => return false;
          case Unsupported =>
            staged := true;
            NothingStaged(store.objects, name);
        }
      }
      if !staged {
        var r := store.PutAt(Object(name), off, body, fault);
        if !r.Wrote? {
          return false;
        }
        ok := Recorded(off, body);
        return;
      }
      ghost var objects := store.objects;
      var n := store.Put(Part(name, off), body, fault);
      if n.None? {
        return false;
      }
      StagedOneMore(objects, name, ranges, chunks, off, body);
      ok := Recorded(off, body);
    }

    method Recorded(off: int, body: seq<byte>) returns (ok: bool)
      requires off >= 0 && Measured(ranges, chunks) && written == Total(ranges)
      modifies this`ranges, this`chunks, this`written
      ensures ranges == old(ranges) + [ByteRange(off, |body|)] && chunks == old(chunks) + [body]
      ensures Measured(ranges, chunks) && written == Total(ranges)
      ensures ok <==> (max > 0 ==> written <= max)
    {
      assert (ranges + [ByteRange(off, |body|)])[..|ranges|] == ranges;
      ranges := ranges + [ByteRange(off, |body|)];
      chunks := chunks + [body];
      written := written + |body|;
      ok := !(max > 0 && written > max);
    }

    /** The size the ranges add up to, or None where one does not start at the end of the one before. */
    method Coverage(order: seq<nat>) returns (size: Option<int>)
      requires Measured(ranges, chunks) && SortsByOffset(order, ranges)
      ensures size.Some? <==> Contiguous(Arranged(ranges, order))
      ensures size.Some? ==> size.value == Total(ranges) >= 0 && TilesOnce(ranges, size.value)
      ensures Proper(ranges) && ranges != [] ==> forall n :: TilesOnce(ranges, n) ==> size == Some(n)
    {
      hide TilesOnce, SortedByOffset, IsPermutation;
      OrderInRange(order, |ranges|);
      var rs := Arranged(ranges, order);
      var end := 0;
      var i := 0;
      while i < |rs|
        invariant 0 <= i <= |rs| && end == Total(rs[..i]) && Contiguous(rs[..i])
      {
        if rs[i].off != end {
          NotContiguous(rs, i);
          NotTiled(ranges, rs, order);
          return None;
        }
        OneMoreContiguous(rs, i);
        end := rs[i].off + rs[i].length;
        i := i + 1;
      }
      assert rs[..|rs|] == rs;
      ContiguousIsTiled(ranges, chunks, rs, order);
      TotalIgnoresOrder(rs, ranges, order);
      size := Some(end);
    }

    /** What has to hold, whichever way the chunks were stored. */
    ghost predicate Committable(expected: int, fault: bool, order: seq<nat>)
      requires SortsByOffset(order, ranges)
      reads this
    {
      && !done && ranges != [] && Contiguous(Arranged(ranges, order))
      && (expected < 0 || expected == Total(ranges)) && !fault
    }

    /** The parts end to end, in the order the sort leaves them. */
    ghost function Assembled(order: seq<nat>): seq<byte>
      requires SortsByOffset(order, ranges)
      reads this, store
    {
      Contents(store.objects, PartKeys(name, Arranged(ranges, order)))
    }

    /** The assembled size. Only ranges that tile [0, size) are ever made an object; the
        object then holds every chunk at its offset, whichever way it was stored, unless a
        staged chunk was replaced by an empty one and the sort is not stable. An expected
        size below 0 skips the check. The cap is not looked at again: the object is within
        it exactly when the writes were. */
    method Commit(expected: int, fault: bool, order: seq<nat>) returns (size: Option<int>)
      requires Valid() && SortsByOffset(order, ranges)
      modifies this`done, store
      ensures Valid()
      ensures size.Some? <==>
        && old(Committable(expected, fault, order))
        && (if staged then |old(Assembled(order))| else |old(store.Content(Object(name)))|) == Total(ranges)
      ensures size.Some? ==>
        && done && TilesOnce(ranges, size.value) && size.value == written
        && Object(name) in store.objects && |store.objects[Object(name)]| == size.value
        && store.objects[Object(name)] == if staged then old(Assembled(order)) else old(store.Content(Object(name)))
      ensures size.Some? && (!staged || NonEmptyAreLast(ranges) || Stable(order, ranges)) ==>
        Holds(store.objects[Object(name)], ranges, chunks)
      ensures size.Some? && staged ==> forall i :: 0 <= i < |ranges| ==> Part(name, ranges[i].off) !in store.objects
      ensures size.None? ==> done == old(done)
      ensures forall n | TilesOnce(ranges, n) && !old(done) && !fault && ranges != [] && Proper(ranges)
        && (expected < 0 || expected == n) && (staged || |before| <= n) :: size == Some(n)
    {
      hide TilesOnce, Holds, Staged, Replay, Proper, Measured, Total, SortsByOffset, Contiguous, NonEmptyAreLast, Stable, Contents;
      if done || |ranges| == 0 {
        return None;
      }
      var covered := Coverage(order);
      if covered.None? {
        return None;
      }
      if expected >= 0 && covered.value != expected {
        return None;
      }
      if staged {
        size := CommitParts(covered.value, fault, order);
      } else {
        size := CommitInPlace(covered.value, fault);
      }
    }

    /** The parts in offset order become the object, and are then removed. */
    method CommitParts(covered: nat, fault: bool, order: seq<nat>) returns (size: Option<int>)
      requires Valid() && staged && !done && ranges != [] && TilesOnce(ranges, covered) && covered == Total(ranges)
      requires SortsByOffset(order, ranges) && Contiguous(Arranged(ranges, order))
      modifies this`done, store
      ensures Valid() && (size.Some? ==> size == Some(covered) && done) && (size.None? ==> !done)
      ensures size.Some? <==> !fault && |old(Assembled(order))| == covered
      ensures size.Some? ==> Object(name) in store.objects && store.objects[Object(name)] == old(Assembled(order))
      ensures size.Some? && (NonEmptyAreLast(ranges) || Stable(order, ranges)) ==>
        Holds(store.objects[Object(name)], ranges, chunks)
      ensures size.Some? ==> forall i :: 0 <= i < |ranges| ==> Part(name, ranges[i].off) !in store.objects
      ensures Proper(ranges) && !fault ==> size.Some?
    {
      hide TilesOnce, Holds, Staged, Replay, Proper, Total, IsPermutation, SortedByOffset, Contiguous, NonEmptyAreLast, Stable, Contents;
      OrderInRange(order, |ranges|);
      var keys := PartKeys(name, Arranged(ranges, order));
      WhatPartsMake(store.objects, name, ranges, chunks, order, covered);
      var data := Concat(store, keys);
      ghost var parts := store.objects;
      var n := store.Put(Object(name), data.value, fault);
      StagedKeepsParts(parts, store.objects, name, ranges, chunks);
      if n != Some(covered) {
        return None;
      }
      done := true;
      DeleteParts(keys);
      size := Some(covered);
    }

    method DeleteParts(keys: seq<Key>)
      requires forall k :: k in keys ==> k.Part?
      modifies store
      ensures forall k :: k in keys ==> k !in store.objects
      ensures forall k :: k !in keys ==> (k in store.objects <==> k in old(store.objects))
      ensures forall k :: k !in keys && k in store.objects ==> store.objects[k] == old(store.objects)[k]
    {
      for i := 0 to |keys|
        invariant forall k :: k in keys[..i] ==> k !in store.objects
        invariant forall k :: k !in keys ==> (k in store.objects <==> k in old(store.objects))
        invariant forall k :: k !in keys && k in store.objects ==> store.objects[k] == old(store.objects)[k]
      {
        assert keys[..i + 1] == keys[..i] + [keys[i]];
        store.Delete(keys[i]);
      }
      assert keys[..|keys|] == keys;
    }

    /** The chunks are already where they belong; only the size is still to be checked. */
    method CommitInPlace(covered: nat, fault: bool) returns (size: Option<int>)
      requires Valid() && !staged && !done && ranges != [] && TilesOnce(ranges, covered)
      modifies this`done
      ensures Valid() && (size.Some? ==> size == Some(covered) && done) && (size.None? ==> !done)
      ensures size.Some? ==> Object(name) in store.objects && |store.objects[Object(name)]| == covered
      ensures size.Some? ==> Holds(store.objects[Object(name)], ranges, chunks)
      ensures size.Some? <==> !fault && |old(store.Content(Object(name)))| == covered
      ensures Proper(ranges) && !fault && |before| <= covered ==> size.Some?
    {
      hide Holds, Replay, Total;
      ReplayHolds(before, ranges, chunks);
      if Proper(ranges) {
        ReplaySize(before, ranges, chunks, covered);
      }
      if fault || Object(name) !in store.objects {
        return None;
      }
      if |store.objects[Object(name)]| != covered {
        return None;
      }
      done := true;
      size := Some(covered);
    }

    /** Whatever was written goes. */
    method Abort() returns (ok: bool)
      requires Valid()
      modifies this, store
      ensures Valid() && done && (ok <==> !old(done))
      ensures ok ==> ranges == []
      ensures ok && old(staged) ==> forall i :: 0 <= i < |old(ranges)| ==> Part(name, old(ranges)[i].off) !in store.objects
      ensures ok && !old(staged) && old(ranges) != [] ==> Object(name) !in store.objects
    {
      if done {
        return false;
      }
      if staged {
        var rs := ranges;
        var keys := PartKeys(name, rs);
        DeleteParts(keys);
        forall i | 0 <= i < |rs| ensures Part(name, rs[i].off) !in store.objects {
          assert keys[i] in keys;
        }
      } else if |ranges| > 0 {
        store.Delete(Object(name));
      }
      ranges, chunks, written := [], [], 0;
      done := true;
      ok := true;
    }
  }

  /** The reader's whole output, as the store that is handed it sees it. */
  method Concat(store: BlobStore, keys: seq<Key>) returns (data: Option<seq<byte>>)
    ensures data.Some? ==> data.value == Contents(store.objects, keys)
    ensures data.Some? <==> forall k :: k in keys ==> k in store.objects
  {
    hide Contents;
    var reader := new PartsReader(store, keys);
    assert keys[0..] == keys;
    var out: seq<byte> := [];
    while true
      invariant reader.Valid() && !reader.failed && reader.store == store && reader.keys == keys && fresh(reader)
      invariant out + reader.Rest() == Contents(store.objects, keys)
      invariant forall j :: 0 <= j < reader.i ==> keys[j] in store.objects
      decreases |reader.Rest()|
    {
      var r := reader.Read(32768, 4096);
      match r {
        case Data(bytes) => out := out + bytes;
        case Eof =>
          NoContents(store.objects, keys);
          return Some(out);
        case Missing => return None;
      }
    }
  }

  const ARRIVALS := [ByteRange(0, 0), ByteRange(0, 2), ByteRange(2, 2), ByteRange(2, 0)]
  const BODIES: seq<seq<byte>> := [[], [1, 2], [3, 4], []]
  const SHUFFLED: seq<nat> := [0, 1, 3, 2]

  /** Why staging asks for chunks that are not replaced. These four tile [0, 4), yet the
      second empty chunk has replaced the bytes at offset 2 and, sorted so that the empty
      chunk comes first at both offsets, the first part is read twice: an object of the right
      size with the wrong end. */
  method EmptyChunksCanSpoilAStagedObject(name: string) returns (u: ChunkedUpload, size: Option<int>)
    ensures fresh(u) && u.Valid() && u.ranges == ARRIVALS && u.chunks == BODIES
    ensures size == Some(4) && Object(name) in u.store.objects && u.store.objects[Object(name)] == [1, 2, 1, 2]
    ensures u.name == name && !Holds(u.store.objects[Object(name)], u.ranges, u.chunks)
  {
    hide Staged, Replay, Total, Holds, Contents, Contiguous, Stable, NonEmptyAreLast, TilesOnce, Measured, SortsByOffset;
    var store := new BlobStore(false);
    u := new ChunkedUpload(store, name);
    WriteFour(u);
    FourArrivals();
    FourParts(store.objects, name);
    size := u.Commit(4, false, SHUFFLED);
    WrongAtTwo();
  }

  /** The four chunks, in the order they arrive. */
  method WriteFour(u: ChunkedUpload)
    requires u.Valid() && u.ranges == [] && u.chunks == [] && u.max == 0 && !u.done && !u.store.writesAt
    modifies u, u.store
    ensures u.Valid() && u.ranges == ARRIVALS && u.chunks == BODIES && u.staged && !u.done
  {
    hide Staged, Replay, Total, Measured;
    var ok := u.WriteRange(0, [], false);
    ok := u.WriteRange(0, [1, 2], false);
    ok := u.WriteRange(2, [3, 4], false);
    ok := u.WriteRange(2, [], false);
    assert u.ranges == ARRIVALS && u.chunks == BODIES;
  }

  lemma WrongAtTwo()
    ensures !Holds([1, 2, 1, 2], ARRIVALS, BODIES)
  {
    assert BODIES[2][0] == 3;
    assert !HoldsChunk([1, 2, 1, 2], ARRIVALS[2].off, BODIES[2]);
  }

  lemma FourArrivals()
    ensures SortsByOffset(SHUFFLED, ARRIVALS)
    ensures Contiguous(Arranged(ARRIVALS, SHUFFLED)) && Total(ARRIVALS) == 4
  {
    hide IsPermutation, SortedByOffset, Contiguous, Total;
    ShuffledPermutes();
    OrderInRange(SHUFFLED, 4);
    var sorted := Arranged(ARRIVALS, SHUFFLED);
    assert sorted == [ByteRange(0, 0), ByteRange(0, 2), ByteRange(2, 0), ByteRange(2, 2)];
    Prefixes(sorted);
    ShuffledSorts(sorted);
    TotalIgnoresOrder(sorted, ARRIVALS, SHUFFLED);
  }

  lemma ShuffledPermutes()
    ensures IsPermutation(SHUFFLED, 4)
  {
    assert SHUFFLED[0] == 0 && SHUFFLED[1] == 1 && SHUFFLED[3] == 2 && SHUFFLED[2] == 3;
  }

  lemma ShuffledSorts(sorted: seq<ByteRange>)
    requires sorted == [ByteRange(0, 0), ByteRange(0, 2), ByteRange(2, 0), ByteRange(2, 2)]
    ensures SortedByOffset(sorted)
  {
  }

  lemma FourParts(objects: map<Key, seq<byte>>, name: string)
    requires Staged(objects, name, ARRIVALS, BODIES) && SortsByOffset(SHUFFLED, ARRIVALS)
    ensures Contents(objects, PartKeys(name, Arranged(ARRIVALS, SHUFFLED))) == [1, 2, 1, 2]
  {
    assert LastAt(ARRIVALS, 1) && LastAt(ARRIVALS, 3);
    var keys := PartKeys(name, Arranged(ARRIVALS, SHUFFLED));
    var parts := Parts(objects, keys);
    assert parts == [[1, 2], [1, 2], [], []];
    assert parts[..3][..2][..1] == [parts[0]] && parts[..3][..2] == [parts[0], parts[1]];
    assert Concatenated([parts[0]]) == [1, 2];
    assert Concatenated([parts[0], parts[1]]) == [1, 2, 1, 2];
    assert Concatenated(parts[..3]) == [1, 2, 1, 2];
  }

  lemma Prefixes(sorted: seq<ByteRange>)
    requires sorted == [ByteRange(0, 0), ByteRange(0, 2), ByteRange(2, 0), ByteRange(2, 2)]
    ensures Contiguous(sorted) && Total(sorted) == 4
  {
    assert sorted[..4] == sorted && sorted[..3][..2] == sorted[..2] && sorted[..2][..1] == sorted[..1];
    assert Total(sorted[..0]) == 0;
    assert Total(sorted[..1]) == 0;
    assert Total(sorted[..2]) == 2;
    assert Total(sorted[..3]) == 2;
  }

  lemma TwoBytes(before: seq<byte>, objects: map<Key, seq<byte>>, name: string)
    requires before == []
    ensures Total([ByteRange(0, 2)]) == 2 && Contiguous([ByteRange(0, 2)])
    ensures Replay(before, [ByteRange(0, 2)], [[1, 2]]) == [1, 2]
    ensures Staged(objects, name, [ByteRange(0, 2)], [[1, 2]]) ==>
      Contents(objects, PartKeys(name, [ByteRange(0, 2)])) == [1, 2]
  {
    assert Replay(before, [ByteRange(0, 2)], [[1, 2]]) == WriteAt(before, 0, [1, 2]);
    if Staged(objects, name, [ByteRange(0, 2)], [[1, 2]]) {
      assert LastAt([ByteRange(0, 2)], 0);
      var parts := Parts(objects, PartKeys(name, [ByteRange(0, 2)]));
      assert parts == [[1, 2]] && parts[..0] == [];
    }
  }

  lemma OnlyOneOrder(order: seq<nat>, rs: seq<ByteRange>)
    requires SortsByOffset(order, rs) && |rs| == 1
    ensures Arranged(rs, order) == rs
  {
  }

  /** The cap is enforced by the writes alone: one is refused, its bytes stay, and the upload
      can still be committed past the limit. */
  method ARefusedWriteCanBeCommitted(name: string, canWriteAt: bool)
    returns (u: ChunkedUpload, accepted: bool, size: Option<int>)
    ensures fresh(u) && u.Valid() && u.max == 1 && !accepted
    ensures size == Some(2) && Object(name) in u.store.objects && u.store.objects[Object(name)] == [1, 2]
  {
    hide Staged, Replay, Contents, Contiguous, NonEmptyAreLast, TilesOnce, SortsByOffset, SortedByOffset, IsPermutation,
      Holds, Measured, Total;
    var store := new BlobStore(canWriteAt);
    u := new ChunkedUpload(store, name);
    u.LimitBytes(1);
    var body: seq<byte> := [1, 2, 3];
    assert body[..2] == [1, 2];
    accepted := u.WriteRange(0, body, false);
    assert u.ranges == [ByteRange(0, 2)] && u.chunks == [[1, 2]];
    TwoBytes(u.before, store.objects, name);
    var order := InsertionSort(u.ranges);
    OnlyOneOrder(order, u.ranges);
    size := u.Commit(-1, false, order);
  }
}
