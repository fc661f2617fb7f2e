/** The replay window of signed runner requests: a nonce is remembered just as long as its
    timestamp could still be accepted. */
module Freshness {

  /** Two minutes, in nanoseconds. */
  const MAX_CLOCK_SKEW := 120_000_000_000

  datatype Request = Request(fingerprint: string, at: int, nonce: string)

  function KeyOf(r: Request): string {
    r.fingerprint + "\n" + r.nonce
  }

  predicate InWindow(r: Request, now: int) {
    -MAX_CLOCK_SKEW <= now - r.at <= MAX_CLOCK_SKEW
  }

  function Evicted(seen: map<string, int>, now: int): map<string, int> {
    map k | k in seen && now - seen[k] <= 2 * MAX_CLOCK_SKEW :: seen[k]
  }

  datatype Verdict = Verdict(ok: bool, seen: map<string, int>)

  function Check(seen: map<string, int>, r: Request, now: int): Verdict {
    if r.nonce == "" || !InWindow(r, now) then Verdict(false, seen)
    else
      var kept := Evicted(seen, now);
      if KeyOf(r) in kept then Verdict(false, kept) else Verdict(true, kept[KeyOf(r) := now])
  }

  class Sessions {
    var seen: map<string, int>

    constructor ()
      ensures seen == map[]
    {
      seen := map[];
    }

    method CheckFreshness(r: Request, now: int) returns (ok: bool)
      modifies this
      ensures Verdict(ok, seen) == Check(old(seen), r, now)
    {
      if r.nonce == "" {
        return false;
      }
      var skew := now - r.at;
      if skew > MAX_CLOCK_SKEW || skew < -MAX_CLOCK_SKEW {
        return false;
      }
      Evict(now);
      var key := KeyOf(r);
      if key in seen {
        return false;
      }
      seen := seen[key := now];
      ok := true;
    }

    method Evict(now: int)
      modifies this
      ensures seen == Evicted(old(seen), now)
    {
      var rest := seen.Keys;
      while rest != {}
        invariant rest <= old(seen).Keys
        invariant forall k :: k in seen <==>
          k in old(seen) && (k in rest || now - old(seen)[k] <= 2 * MAX_CLOCK_SKEW)
        invariant forall k :: k in seen ==> seen[k] == old(seen)[k]
        decreases rest
      {
        var k :| k in rest;
        rest := rest - {k};
        if now - seen[k] > 2 * MAX_CLOCK_SKEW {
          seen := seen - {k};
        }
      }
    }
  }

  // ---------------------------------------------------------------- Histories

  datatype Call = Call(r: Request, now: int)

  function SeenAfter(calls: seq<Call>): map<string, int>
    decreases |calls|
  {
    if calls == [] then map[]
    else
      var last := calls[|calls| - 1];
      Check(SeenAfter(calls[..|calls| - 1]), last.r, last.now).seen
  }

  predicate Accepted(calls: seq<Call>, i: nat)
    requires i < |calls|
  {
    Check(SeenAfter(calls[..i]), calls[i].r, calls[i].now).ok
  }

  predicate ClockRuns(calls: seq<Call>) {
    forall i, j :: 0 <= i < j < |calls| ==> calls[i].now <= calls[j].now
  }

  /** An accepted nonce stays on record until the clock has run twice the skew past it. */
  lemma {:induction false} RememberedLongEnough(calls: seq<Call>, i: nat, n: nat)
    requires ClockRuns(calls) && i < n <= |calls| && Accepted(calls, i)
    ensures var key, seen := KeyOf(calls[i].r), SeenAfter(calls[..n]);
      (key in seen && calls[i].now <= seen[key]) || calls[n - 1].now - calls[i].now > 2 * MAX_CLOCK_SKEW
    decreases n
  {
    assert calls[..n][..n - 1] == calls[..n - 1];
    if n > i + 1 {
      RememberedLongEnough(calls, i, n - 1);
    }
  }

  /** With a clock that does not run backwards, no signed request is ever accepted twice,
      even though nonces are forgotten. */
  lemma NoRequestIsAcceptedTwice(calls: seq<Call>, i: nat, j: nat)
    requires ClockRuns(calls) && i < j < |calls| && Accepted(calls, i) && Accepted(calls, j)
    ensures calls[i].r != calls[j].r
  {
    RememberedLongEnough(calls, i, j);
  }

  /** Nothing older than twice the skew survives an accepted call, and every nonce on
      record is that of an accepted request. */
  lemma {:induction false} OnlyRecentNoncesAreKept(calls: seq<Call>, key: string)
    requires key in SeenAfter(calls)
    ensures exists i :: 0 <= i < |calls| && Accepted(calls, i) && KeyOf(calls[i].r) == key && SeenAfter(calls)[key] == calls[i].now
    ensures Accepted(calls, |calls| - 1) ==> calls[|calls| - 1].now - SeenAfter(calls)[key] <= 2 * MAX_CLOCK_SKEW
    decreases |calls|
  {
    var n := |calls| - 1;
    var before := calls[..n];
    assert calls[..n] == before;
    if key in SeenAfter(before) && !(Accepted(calls, n) && KeyOf(calls[n].r) == key) {
      OnlyRecentNoncesAreKept(before, key);
      var i :| 0 <= i < |before| && Accepted(before, i) && KeyOf(before[i].r) == key && SeenAfter(before)[key] == before[i].now;
      assert before[..i] == calls[..i];
      assert Accepted(calls, i);
    } else {
      assert Accepted(calls, n);
    }
  }

  predicate OneLine(s: string) {
    forall i :: 0 <= i < |s| ==> s[i] != '\n'
  }

  lemma KeysTellRequestsApart(a: Request, b: Request)
    requires OneLine(a.fingerprint) && OneLine(b.fingerprint)
    ensures KeyOf(a) == KeyOf(b) <==> a.fingerprint == b.fingerprint && a.nonce == b.nonce
  {
    var x, y := KeyOf(a), KeyOf(b);
    var m, n := |a.fingerprint|, |b.fingerprint|;
    assert x[m] == '\n' && y[n] == '\n';
    assert forall i :: 0 <= i < m ==> x[i] == a.fingerprint[i];
    assert forall i :: 0 <= i < n ==> y[i] == b.fingerprint[i];
    if x == y {
      assert m == n;
      assert a.fingerprint == x[..m] && b.fingerprint == y[..n];
      assert a.nonce == x[m + 1..] && b.nonce == y[n + 1..];
    }
  }

  /** An earlier call took this nonce from this key, four minutes ago or less. */
  predicate Used(calls: seq<Call>, j: nat, i: nat)
    requires j < i < |calls|
  {
    && Accepted(calls, j)
    && calls[j].r.fingerprint == calls[i].r.fingerprint && calls[j].r.nonce == calls[i].r.nonce
    && calls[i].now - calls[j].now <= 240_000_000_000
  }

  /** A request is accepted exactly when it carries a nonce, is dated within two minutes of
      the clock either way, and no call of the last four minutes has used its nonce with
      its key. */
  lemma AcceptedExactlyWhenFresh(calls: seq<Call>, i: nat)
    requires ClockRuns(calls) && i < |calls|
    requires forall j :: 0 <= j < |calls| ==> OneLine(calls[j].r.fingerprint)
    ensures Accepted(calls, i) <==>
      && calls[i].r.nonce != ""
      && -120_000_000_000 <= calls[i].now - calls[i].r.at <= 120_000_000_000
      && forall j :: 0 <= j < i ==> !Used(calls, j, i)
  {
    hide OneLine, KeyOf;
    var before, key := calls[..i], KeyOf(calls[i].r);
    if key in Evicted(SeenAfter(before), calls[i].now) {
      OnlyRecentNoncesAreKept(before, key);
      var j :| 0 <= j < |before| && Accepted(before, j) && KeyOf(before[j].r) == key && SeenAfter(before)[key] == before[j].now;
      KeysTellRequestsApart(calls[j].r, calls[i].r);
      assert before[..j] == calls[..j];
      assert Used(calls, j, i);
    }
    forall j | 0 <= j < i && Used(calls, j, i) ensures key in Evicted(SeenAfter(before), calls[i].now) {
      KeysTellRequestsApart(calls[j].r, calls[i].r);
      RememberedTill(calls, j, i);
    }
  }

  lemma RememberedTill(calls: seq<Call>, j: nat, i: nat)
    requires ClockRuns(calls) && j < i < |calls| && Accepted(calls, j)
    requires calls[i].now - calls[j].now <= 2 * MAX_CLOCK_SKEW
    ensures KeyOf(calls[j].r) in Evicted(SeenAfter(calls[..i]), calls[i].now)
  {
    hide KeyOf;
    RememberedLongEnough(calls, j, i);
  }

  /** Once its nonce is forgotten a request is refused for its timestamp, whatever the
      clock has become since: eviction never comes too early. */
  lemma ForgottenMeansOutOfWindow(r: Request, accepted: int, now: int)
    requires InWindow(r, accepted) && now - accepted > 2 * MAX_CLOCK_SKEW
    ensures !InWindow(r, now)
  {
  }
}
