/** The signing keys behind OIDC tokens: one signs, the retired ones stay published until
    every token they signed has run out. */
module Keyrings {
  import opened Model

  /** kid stands for the key pair; generated keys are never repeated. */
  datatype Key = Key(kid: string, createdAt: int, retiredAt: Option<int>)

  /** exp is the moment from which the token is no longer accepted. */
  datatype Token = Token(kid: string, exp: int)

  predicate Spent(k: Key, now: int, ttl: int) {
    k.retiredAt.Some? && now - k.retiredAt.value > ttl
  }

  function Unspent(keys: seq<Key>, now: int, ttl: int): (kept: seq<Key>)
    ensures forall k :: k in kept <==> k in keys && !Spent(k, now, ttl)
    decreases |keys|
  {
    if keys == [] then []
    else
      var last := keys[|keys| - 1];
      assert keys == keys[..|keys| - 1] + [last];
      Unspent(keys[..|keys| - 1], now, ttl) + (if Spent(last, now, ttl) then [] else [last])
  }

  /** The key that signs is the last one that is not retired; it alone retires. */
  function Retired(keys: seq<Key>, now: int): (r: seq<Key>)
    ensures |r| == |keys|
    ensures forall i :: 0 <= i < |keys| ==> r[i] == keys[i] || r[i] == keys[i].(retiredAt := Some(now))
    ensures forall i :: 0 <= i < |keys| && keys[i].retiredAt.Some? ==> r[i] == keys[i]
    decreases |keys|
  {
    if keys == [] then []
    else
      var last := keys[|keys| - 1];
      assert keys == keys[..|keys| - 1] + [last];
      if last.retiredAt.None? then keys[..|keys| - 1] + [last.(retiredAt := Some(now))]
      else Retired(keys[..|keys| - 1], now) + [last]
  }

  function Rotated(keys: seq<Key>, kid: string, now: int, ttl: int): seq<Key> {
    Unspent(Retired(keys, now) + [Key(kid, now, None)], now, ttl)
  }

  /** The kids a verifier finds published. */
  function Published(keys: seq<Key>, now: int, ttl: int): set<string> {
    set k | k in keys && !Spent(k, now, ttl) :: k.kid
  }

  predicate SignsAt(keys: seq<Key>, a: nat) {
    a < |keys| && keys[a].retiredAt.None? && forall i :: a < i < |keys| ==> keys[i].retiredAt.Some?
  }

  function Unretired(keys: seq<Key>): nat
    decreases |keys|
  {
    if keys == [] then 0 else Unretired(keys[..|keys| - 1]) + (if keys[|keys| - 1].retiredAt.None? then 1 else 0)
  }

  // ---------------------------------------------------------------- Histories

  /** The stored keys with everything issued under them. */
  datatype Ring = Ring(keys: seq<Key>, issued: set<Token>, clock: int)

  datatype Op = Issue(now: int) | Rotate(now: int, kid: string) | Restart(now: int, kid: string)

  function ActiveKid(keys: seq<Key>): string
    decreases |keys|
  {
    if keys == [] then ""
    else if keys[|keys| - 1].retiredAt.None? then keys[|keys| - 1].kid
    else ActiveKid(keys[..|keys| - 1])
  }

  predicate HasActive(keys: seq<Key>) {
    exists k :: k in keys && k.retiredAt.None?
  }

  /** A restart reads the keys back, and makes a first one when there is none to sign. */
  function Apply(ring: Ring, op: Op, ttl: int): Ring {
    match op
    case Issue(now) => Ring(ring.keys, ring.issued + {Token(ActiveKid(ring.keys), now + ttl)}, now)
    case Rotate(now, kid) => Ring(Rotated(ring.keys, kid, now, ttl), ring.issued, now)
    case Restart(now, kid) =>
      Ring(if HasActive(ring.keys) then ring.keys else Rotated(ring.keys, kid, now, ttl), ring.issued, now)
  }

  function ApplyAll(ring: Ring, ops: seq<Op>, ttl: int): Ring
    decreases |ops|
  {
    if ops == [] then ring else ApplyAll(Apply(ring, ops[0], ttl), ops[1..], ttl)
  }

  predicate ClockRuns(ops: seq<Op>, from: int) {
    forall i :: 0 <= i < |ops| ==> from <= ops[i].now && forall j :: i < j < |ops| ==> ops[i].now <= ops[j].now
  }

  /** A token's key is still held, unretired or retired no earlier than the token was
      issued; or the token has run out. */
  predicate Backed(t: Token, keys: seq<Key>, clock: int, ttl: int) {
    t.exp < clock || exists k :: k in keys && k.kid == t.kid && Outlives(k, t, clock, ttl)
  }

  predicate Outlives(k: Key, t: Token, clock: int, ttl: int) {
    t.exp <= (if k.retiredAt.Some? then k.retiredAt.value else clock) + ttl
  }

  ghost predicate Sound(ring: Ring, ttl: int) {
    HasActive(ring.keys) && forall t :: t in ring.issued ==> Backed(t, ring.keys, ring.clock, ttl)
  }

  lemma {:induction false} SomeKeySigns(keys: seq<Key>)
    ensures HasActive(keys) <==> Unretired(keys) > 0
    decreases |keys|
  {
    if keys != [] {
      var less := keys[..|keys| - 1];
      assert keys == less + [keys[|keys| - 1]];
      SomeKeySigns(less);
    }
  }

  lemma {:induction false} RetiringTakesOne(keys: seq<Key>, now: int)
    ensures Unretired(Retired(keys, now)) == if Unretired(keys) == 0 then 0 else Unretired(keys) - 1
    decreases |keys|
  {
    if keys != [] {
      var n := |keys| - 1;
      RetiringTakesOne(keys[..n], now);
      assert Retired(keys, now)[..n] == if keys[n].retiredAt.None? then keys[..n] else Retired(keys[..n], now);
    }
  }

  lemma OneMoreKey(keys: seq<Key>, k: Key)
    ensures Unretired(keys + [k]) == Unretired(keys) + (if k.retiredAt.None? then 1 else 0)
  {
    assert (keys + [k])[..|keys|] == keys;
  }

  lemma UnspentStep(keys: seq<Key>, now: int, ttl: int)
    requires keys != []
    ensures var (less, last) := (keys[..|keys| - 1], keys[|keys| - 1]);
      Unspent(keys, now, ttl) == if Spent(last, now, ttl) then Unspent(less, now, ttl) else Unspent(less, now, ttl) + [last]
  {
  }

  lemma NoKeys(now: int, ttl: int)
    ensures Unspent([], now, ttl) == [] && Unretired([]) == 0
  {
  }

  lemma UnspentTo(keys: seq<Key>, i: nat, now: int, ttl: int)
    requires i < |keys|
    ensures Unspent(keys[..i + 1], now, ttl) ==
      if Spent(keys[i], now, ttl) then Unspent(keys[..i], now, ttl) else Unspent(keys[..i], now, ttl) + [keys[i]]
  {
    hide Unspent;
    assert keys[..i + 1][..i] == keys[..i];
    UnspentStep(keys[..i + 1], now, ttl);
  }

  lemma {:induction false} DroppingTakesRetiredKeysOnly(keys: seq<Key>, now: int, ttl: int)
    ensures Unretired(Unspent(keys, now, ttl)) == Unretired(keys)
    decreases |keys|
  {
    hide Unspent, Unretired;
    if keys == [] {
      NoKeys(now, ttl);
    } else {
      var less, last := keys[..|keys| - 1], keys[|keys| - 1];
      assert keys == less + [last];
      DroppingTakesRetiredKeysOnly(less, now, ttl);
      UnspentStep(keys, now, ttl);
      OneMoreKey(Unspent(less, now, ttl), last);
      OneMoreKey(less, last);
    }
  }

  /** The new key signs, and one key retires where there was one to retire: a store that
      holds several unretired keys goes on holding as many. */
  lemma RotationReplacesTheSigner(keys: seq<Key>, kid: string, now: int, ttl: int)
    ensures ActiveKid(Rotated(keys, kid, now, ttl)) == kid && HasActive(Rotated(keys, kid, now, ttl))
    ensures Unretired(Rotated(keys, kid, now, ttl)) == if Unretired(keys) > 1 then Unretired(keys) else 1
  {
    var retired := Retired(keys, now);
    var all := retired + [Key(kid, now, None)];
    assert all[..|retired|] == retired;
    var kept := Rotated(keys, kid, now, ttl);
    assert kept == Unspent(retired, now, ttl) + [Key(kid, now, None)];
    assert kept[|kept| - 1] in kept;
    RetiringTakesOne(keys, now);
    DroppingTakesRetiredKeysOnly(all, now, ttl);
  }

  /** Rotation drops a key only when every token it backed has run out. */
  lemma RotationKeepsTokensBacked(keys: seq<Key>, kid: string, clock: int, now: int, ttl: int, t: Token)
    requires Backed(t, keys, clock, ttl) && clock <= now
    ensures Backed(t, Rotated(keys, kid, now, ttl), now, ttl)
  {
    if t.exp >= now {
      var k :| k in keys && k.kid == t.kid && Outlives(k, t, clock, ttl);
      var i :| 0 <= i < |keys| && keys[i] == k;
      var k' := Retired(keys, now)[i];
      var all := Retired(keys, now) + [Key(kid, now, None)];
      assert all[i] == k' && k' in all;
      assert !Spent(k', now, ttl);
      assert Outlives(k', t, now, ttl);
    }
  }

  /** A rotation keeps the new key, the signer it retires, and every key retired no longer ago
      than a token lives; it keeps no other. */
  lemma RotationDropsExactlyTheSpent(keys: seq<Key>, kid: string, now: int, ttl: int, k: Key)
    ensures k in Rotated(keys, kid, now, ttl) <==>
      && (k == Key(kid, now, None) || k in Retired(keys, now))
      && (k.retiredAt == None || now <= k.retiredAt.value + ttl)
  {
    var all := Retired(keys, now) + [Key(kid, now, None)];
    assert k in all <==> k in Retired(keys, now) || k == Key(kid, now, None);
  }

  /** A key is published until its lifetime after it retired is over, and no longer. */
  lemma PublishedExactlyWhileUseful(keys: seq<Key>, now: int, ttl: int, kid: string)
    ensures kid in Published(keys, now, ttl) <==>
      exists k :: k in keys && k.kid == kid && (k.retiredAt == None || now <= k.retiredAt.value + ttl)
  {
    if kid in Published(keys, now, ttl) {
      var k :| k in keys && !Spent(k, now, ttl) && k.kid == kid;
      assert k.retiredAt == None || now <= k.retiredAt.value + ttl;
    }
    if k :| k in keys && k.kid == kid && (k.retiredAt == None || now <= k.retiredAt.value + ttl) {
      assert !Spent(k, now, ttl);
    }
  }

  lemma OpKeepsSound(ring: Ring, op: Op, ttl: int)
    requires Sound(ring, ttl) && ring.clock <= op.now && ttl > 0
    ensures Sound(Apply(ring, op, ttl), ttl)
  {
    var next := Apply(ring, op, ttl);
    if op.Rotate? {
      RotationReplacesTheSigner(ring.keys, op.kid, op.now, ttl);
      forall t | t in next.issued ensures Backed(t, next.keys, next.clock, ttl) {
        RotationKeepsTokensBacked(ring.keys, op.kid, ring.clock, op.now, ttl, t);
      }
    } else {
      forall t | t in next.issued ensures Backed(t, next.keys, next.clock, ttl) {
        if t in ring.issued {
          StillBacked(t, ring.keys, ring.clock, op.now, ttl);
        } else {
          var a := TheSigner(ring.keys);
          assert Outlives(ring.keys[a], t, op.now, ttl);
        }
      }
    }
  }

  lemma StillBacked(t: Token, keys: seq<Key>, clock: int, now: int, ttl: int)
    requires Backed(t, keys, clock, ttl) && clock <= now
    ensures Backed(t, keys, now, ttl)
  {
    if t.exp >= now {
      var k :| k in keys && k.kid == t.kid && Outlives(k, t, clock, ttl);
      assert Outlives(k, t, now, ttl);
    }
  }

  lemma {:induction false} TheSigner(keys: seq<Key>) returns (a: nat)
    requires HasActive(keys)
    ensures SignsAt(keys, a) && ActiveKid(keys) == keys[a].kid
    decreases |keys|
  {
    var n := |keys| - 1;
    assert keys == keys[..n] + [keys[n]];
    if keys[n].retiredAt.None? {
      a := n;
    } else {
      a := TheSigner(keys[..n]);
    }
  }

  lemma OneSigner(keys: seq<Key>, a: nat)
    requires SignsAt(keys, a)
    ensures HasActive(keys) && ActiveKid(keys) == keys[a].kid
  {
    assert keys[a] in keys;
    var b := TheSigner(keys);
    assert a == b;
  }

  lemma {:induction false} RunsStaySound(ring: Ring, ops: seq<Op>, ttl: int)
    requires Sound(ring, ttl) && ClockRuns(ops, ring.clock) && ttl > 0
    ensures Sound(ApplyAll(ring, ops, ttl), ttl)
    decreases |ops|
  {
    hide Sound, Apply;
    if ops != [] {
      OpKeepsSound(ring, ops[0], ttl);
      ClockOf(ring, ops[0], ttl);
      assert ClockRuns(ops[1..], ops[0].now);
      RunsStaySound(Apply(ring, ops[0], ttl), ops[1..], ttl);
    }
  }

  lemma ClockOf(ring: Ring, op: Op, ttl: int)
    ensures Apply(ring, op, ttl).clock == op.now
  {
  }

  lemma {:induction false} RunsKeepTheCount(ring: Ring, ops: seq<Op>, ttl: int)
    requires HasActive(ring.keys)
    ensures Unretired(ApplyAll(ring, ops, ttl).keys) == Unretired(ring.keys)
    decreases |ops|
  {
    if ops != [] {
      SomeKeySigns(ring.keys);
      if ops[0].Rotate? {
        RotationReplacesTheSigner(ring.keys, ops[0].kid, ops[0].now, ttl);
      }
      RunsKeepTheCount(Apply(ring, ops[0], ttl), ops[1..], ttl);
    }
  }

  /** From any stored keys that back the tokens already issued, none at all included, and
      whatever is issued, rotated and restarted: the key of every token that has not expired
      is published, and a single key is unretired unless the store began with several. */
  lemma UnexpiredTokensVerify(stored: Ring, start: int, kid: string, ops: seq<Op>, ttl: int, now: int)
    requires ttl > 0 && stored.clock <= start && ClockRuns(ops, start)
    requires forall t :: t in stored.issued ==> Backed(t, stored.keys, stored.clock, ttl)
    requires now >= ApplyAll(Apply(stored, Restart(start, kid), ttl), ops, ttl).clock
    ensures var ring := ApplyAll(Apply(stored, Restart(start, kid), ttl), ops, ttl);
      && (forall t :: t in ring.issued && now < t.exp ==> t.kid in Published(ring.keys, now, ttl))
      && Unretired(ring.keys) == if Unretired(stored.keys) > 1 then Unretired(stored.keys) else 1
  {
    var first := Apply(stored, Restart(start, kid), ttl);
    FirstIsSound(stored, start, kid, ttl);
    SomeKeySigns(stored.keys);
    RunsKeepTheCount(first, ops, ttl);
    RunsStaySound(first, ops, ttl);
    var ring := ApplyAll(first, ops, ttl);
    forall t | t in ring.issued && now < t.exp ensures t.kid in Published(ring.keys, now, ttl) {
      BackedIsPublished(t, ring.keys, ring.clock, now, ttl);
    }
  }

  lemma FirstIsSound(stored: Ring, start: int, kid: string, ttl: int)
    requires stored.clock <= start && forall t :: t in stored.issued ==> Backed(t, stored.keys, stored.clock, ttl)
    ensures Sound(Apply(stored, Restart(start, kid), ttl), ttl)
    ensures !HasActive(stored.keys) ==> Unretired(Apply(stored, Restart(start, kid), ttl).keys) == 1
  {
    hide Backed;
    var first := Apply(stored, Restart(start, kid), ttl);
    SomeKeySigns(stored.keys);
    RotationReplacesTheSigner(stored.keys, kid, start, ttl);
    forall t | t in stored.issued ensures Backed(t, first.keys, start, ttl) {
      StillBacked(t, stored.keys, stored.clock, start, ttl);
      RotationKeepsTokensBacked(stored.keys, kid, stored.clock, start, ttl, t);
    }
  }

  lemma BackedIsPublished(t: Token, keys: seq<Key>, clock: int, now: int, ttl: int)
    requires Backed(t, keys, clock, ttl) && clock <= now < t.exp
    ensures t.kid in Published(keys, now, ttl)
  {
    var k :| k in keys && k.kid == t.kid && Outlives(k, t, clock, ttl);
    assert !Spent(k, now, ttl);
  }

  lemma {:induction false} RetiredIsTheSigner(keys: seq<Key>, now: int)
    ensures !HasActive(keys) ==> Retired(keys, now) == keys
    ensures forall a: nat :: SignsAt(keys, a) ==> Retired(keys, now) == keys[a := keys[a].(retiredAt := Some(now))]
    decreases |keys|
  {
    if keys != [] {
      var n := |keys| - 1;
      var less := keys[..n];
      assert keys == less + [keys[n]];
      RetiredIsTheSigner(less, now);
      forall a: nat | SignsAt(keys, a) ensures Retired(keys, now) == keys[a := keys[a].(retiredAt := Some(now))] {
        assert a < n ==> SignsAt(less, a);
      }
    }
  }

  // -------------------------------------------------------------- The object

  class KeyStore {
    var saved: seq<Key>

    constructor ()
      ensures saved == []
    {
      saved := [];
    }
  }

  class Keyring {
    const store: KeyStore
    const ttl: int
    var keys: seq<Key>
    var active: Option<nat>

    /** active is the last unretired key, if there is one. */
    ghost predicate Pointed()
      reads this
    {
      if active.Some? then SignsAt(keys, active.value) else !HasActive(keys)
    }

    ghost predicate Valid()
      reads this, store
    {
      Pointed() && active.Some? && store.saved == keys
    }

    /** newKid is the key generated when the store holds none that signs. */
    constructor (s: KeyStore, tokenTTL: int, now: int, newKid: string)
      modifies s
      ensures Valid() && store == s && ttl == tokenTTL
      ensures keys == if HasActive(old(s.saved)) then old(s.saved) else Rotated(old(s.saved), newKid, now, tokenTTL)
    {
      store, ttl, keys, active := s, tokenTTL, s.saved, None;
      new;
      FindActive();
      if active.None? {
        Persist(newKid, now);
      } else {
        OneSigner(keys, active.value);
      }
    }

    /** The last unretired key is the one that signs. */
    method FindActive()
      modifies this`active
      ensures HasActive(keys) ==> active.Some? && SignsAt(keys, active.value)
      ensures !HasActive(keys) ==> active == old(active)
    {
      ghost var found := false;
      for i := 0 to |keys|
        invariant found ==> active.Some? && SignsAt(keys[..i], active.value)
        invariant !found ==> active == old(active) && forall j :: 0 <= j < i ==> keys[j].retiredAt.Some?
      {
        if keys[i].retiredAt.None? {
          active, found := Some(i), true;
        }
      }
      assert keys[..|keys|] == keys;
      if found {
        OneSigner(keys, active.value);
      }
    }

    method Rotate(now: int, newKid: string)
      requires Valid()
      modifies this, store
      ensures Valid() && keys == Rotated(old(keys), newKid, now, ttl)
    {
      Persist(newKid, now);
    }

    /** Retires the signing key, adds the new one, drops what is spent, and saves. */
    method Persist(newKid: string, now: int)
      requires Pointed()
      modifies this, store
      ensures Valid() && keys == Rotated(old(keys), newKid, now, ttl)
    {
      hide Unspent, Retired, Unretired;
      ghost var before := keys;
      RetiredIsTheSigner(keys, now);
      if active.Some? {
        OneSigner(keys, active.value);
        keys := keys[active.value := keys[active.value].(retiredAt := Some(now))];
      }
      assert keys == Retired(before, now);
      keys := keys + [Key(newKid, now, None)];
      active := Some(|keys| - 1);
      DropSpent(now);
      RotationReplacesTheSigner(before, newKid, now, ttl);
      FindActive();
      store.saved := keys;
    }

    method DropSpent(now: int)
      modifies this`keys
      ensures keys == Unspent(old(keys), now, ttl)
    {
      hide Unspent;
      var kept: seq<Key> := [];
      NoKeys(now, ttl);
      for i := 0 to |keys|
        invariant keys == old(keys) && kept == Unspent(keys[..i], now, ttl)
      {
        UnspentTo(keys, i, now, ttl);
        if keys[i].retiredAt.Some? && now - keys[i].retiredAt.value > ttl {
          continue;
        }
        kept := kept + [keys[i]];
      }
      assert keys[..|keys|] == keys;
      keys := kept;
    }

    method Issue(now: int) returns (t: Token)
      requires Valid()
      ensures t == Token(ActiveKid(keys), now + ttl)
    {
      OneSigner(keys, active.value);
      t := Token(keys[active.value].kid, now + ttl);
    }

    method JWKS(now: int) returns (kids: set<string>)
      requires Valid()
      ensures kids == Published(keys, now, ttl)
    {
      kids := {};
      for i := 0 to |keys|
        invariant kids == Published(keys[..i], now, ttl)
      {
        assert keys[..i + 1] == keys[..i] + [keys[i]];
        if keys[i].retiredAt.Some? && now - keys[i].retiredAt.value > ttl {
          continue;
        }
        kids := kids + {keys[i].kid};
      }
      assert keys[..|keys|] == keys;
    }
  }
}
