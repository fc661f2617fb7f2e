/** The vocabulary of the platform: statuses, conclusions, failure classes,
    cancel reasons, and the two reducers over conclusions. */
module Model {

  datatype Option<+T> = None | Some(value: T)

  datatype Status = Queued | InProgress | Completed | Waiting

  /** The zero value of the source's string type is NoConclusion; any string the
      source does not list is Other. */
  datatype Conclusion =
    | NoConclusion | Success | Failure | Neutral | Cancelled | TimedOut
    | ActionRequired | Skipped | Stale | InfraFailure | ConfigError
    | Other(text: string)
  {
    predicate Valid() {
      !NoConclusion? && !Other?
    }

    predicate IsFailure() {
      Failure? || TimedOut? || InfraFailure? || ConfigError? || ActionRequired?
    }
  }

  datatype FailureClass = ClassNone | ClassUser | ClassInfra | ClassConfig | OtherClass(text: string)
  {
    predicate Valid() {
      !OtherClass?
    }
  }

  datatype CancelActor =
    | ActorUser | ActorConcurrencyGroup | ActorTimeout | ActorRunnerLost
    | ActorSupersededByRun | ActorDependencyFailed | ActorShutdown
    | OtherActor(text: string)

  datatype CancelReason = CancelReason(actor: CancelActor, sentence: string, triggeredBy: string)
  {
    predicate Valid() {
      !actor.OtherActor? && sentence != ""
    }
  }

  // ---------------------------------------------------------------- Aggregate

  /** The worst conclusion there is, success only where nothing stands against it. */
  function Aggregate(cs: seq<Conclusion>): Conclusion {
    if cs == [] then Neutral
    else if ConfigError in cs then ConfigError
    else if InfraFailure in cs then InfraFailure
    else if TimedOut in cs then TimedOut
    else if Failure in cs then Failure
    else if ActionRequired in cs then ActionRequired
    else if Cancelled in cs then Cancelled
    else if Neutral in cs || Stale in cs then Neutral
    else if Skipped in cs then (if Success in cs then Neutral else Skipped)
    else Success
  }

  function Severity(c: Conclusion): nat {
    match c
    case ConfigError => 5
    case InfraFailure => 4
    case TimedOut => 3
    case Failure => 2
    case ActionRequired => 1
    case _ => 0
  }

  /** The loop of the source: flags for the mild conclusions, a running worst for
      the failures. */
  method AggregateConclusions(cs: seq<Conclusion>) returns (r: Conclusion)
    ensures r == Aggregate(cs)
  {
    if |cs| == 0 {
      return Neutral;
    }
    var sawSkipped, sawSuccess, sawCancelled, sawNeutral := false, false, false, false;
    var worst := NoConclusion;
    for i := 0 to |cs|
      invariant sawSkipped <==> Skipped in cs[..i]
      invariant sawSuccess <==> Success in cs[..i]
      invariant sawCancelled <==> Cancelled in cs[..i]
      invariant sawNeutral <==> Neutral in cs[..i] || Stale in cs[..i]
      invariant worst == NoConclusion || (worst.IsFailure() && worst in cs[..i])
      invariant forall k :: 0 <= k < i && cs[k].IsFailure() ==>
        worst.IsFailure() && Severity(cs[k]) <= Severity(worst)
    {
      var c := cs[i];
      assert cs[..i + 1] == cs[..i] + [c];
      if c.IsFailure() {
        if worst == NoConclusion || Severity(c) > Severity(worst) {
          worst := c;
        }
      } else if c == Skipped {
        sawSkipped := true;
      } else if c == Cancelled {
        sawCancelled := true;
      } else if c == Success {
        sawSuccess := true;
      } else if c == Neutral || c == Stale {
        sawNeutral := true;
      }
    }
    assert cs[..|cs|] == cs;
    if worst != NoConclusion {
      r := worst;
    } else if sawCancelled {
      r := Cancelled;
    } else if sawNeutral {
      r := Neutral;
    } else if sawSkipped && !sawSuccess {
      r := Skipped;
    } else if sawSkipped {
      r := Neutral;
    } else {
      r := Success;
    }
  }

  predicate AllValid(cs: seq<Conclusion>) {
    forall c :: c in cs ==> c.Valid()
  }

  /** A green run means there was work and all of it was green. */
  lemma AggregateIsSuccessExactlyWhenAllSucceeded(cs: seq<Conclusion>)
    requires AllValid(cs)
    ensures Aggregate(cs) == Success <==> cs != [] && forall c :: c in cs ==> c == Success
    ensures Aggregate(cs) == Cancelled <==> Cancelled in cs && forall c :: c in cs ==> !c.IsFailure()
  {
    if cs != [] {
      assert cs[0] in cs;
    }
  }

  /** Which conclusion wins: configuration before infrastructure before time before the job's
      own failure before a required action, any of them before a cancellation, and that before
      whatever is neither a success nor a skip; a skip beside a success is neutral. */
  lemma TheWorstConclusionWins(cs: seq<Conclusion>)
    requires AllValid(cs)
    ensures Aggregate(cs) == ConfigError <==> ConfigError in cs
    ensures Aggregate(cs) == InfraFailure <==> InfraFailure in cs && ConfigError !in cs
    ensures Aggregate(cs) == TimedOut <==> TimedOut in cs && InfraFailure !in cs && ConfigError !in cs
    ensures Aggregate(cs) == Failure <==> Failure in cs && TimedOut !in cs && InfraFailure !in cs && ConfigError !in cs
    ensures Aggregate(cs) == ActionRequired <==>
      ActionRequired in cs && Failure !in cs && TimedOut !in cs && InfraFailure !in cs && ConfigError !in cs
    ensures Aggregate(cs) == Cancelled <==> Cancelled in cs && NothingFailed(cs)
    ensures Aggregate(cs) == Neutral <==>
      NothingFailed(cs) && Cancelled !in cs && (cs == [] || Neutral in cs || Stale in cs || (Skipped in cs && Success in cs))
    ensures Aggregate(cs) == Skipped <==> cs != [] && forall c :: c in cs ==> c == Skipped
    ensures Aggregate(cs) == Success <==> cs != [] && forall c :: c in cs ==> c == Success
  {
    if cs != [] {
      assert cs[0] in cs;
    }
  }

  predicate NothingFailed(cs: seq<Conclusion>) {
    Failure !in cs && TimedOut !in cs && InfraFailure !in cs && ConfigError !in cs && ActionRequired !in cs
  }

  /** Aggregate looks only at which conclusions occur, never at their order. */
  lemma AggregateIgnoresOrder(a: seq<Conclusion>, b: seq<Conclusion>)
    requires multiset(a) == multiset(b)
    ensures Aggregate(a) == Aggregate(b)
  {
    forall c: Conclusion ensures c in a <==> c in b {
      assert c in a <==> c in multiset(a);
      assert c in b <==> c in multiset(b);
    }
    assert |a| == |multiset(a)| == |b|;
  }

  function Flatten<T>(parts: seq<seq<T>>): seq<T> {
    if parts == [] then [] else parts[0] + Flatten(parts[1..])
  }

  function Aggregates(parts: seq<seq<Conclusion>>): seq<Conclusion> {
    if parts == [] then [] else [Aggregate(parts[0])] + Aggregates(parts[1..])
  }

  lemma AggregateOfTwoParts(a: seq<Conclusion>, b: seq<Conclusion>)
    requires a != [] && b != [] && AllValid(a) && AllValid(b)
    ensures Aggregate(a + b) == Aggregate([Aggregate(a), Aggregate(b)])
  {
    var two := [Aggregate(a), Aggregate(b)];
    SameMeaning(a);
    SameMeaning(b);
    assert two[0] in two && two[1] in two;
    assert forall c :: c in two <==> c == two[0] || c == two[1];
    assert forall c :: c in a + b <==> c in a || c in b;
  }

  /** What an aggregate says of a non-empty set of units. */
  lemma SameMeaning(cs: seq<Conclusion>)
    requires cs != [] && AllValid(cs)
    ensures var c := Aggregate(cs);
      && c.Valid()
      && (c.IsFailure() ==> c in cs)
      && (c == Cancelled ==> Cancelled in cs)
      && (c == Success <==> (forall d :: d in cs ==> d == Success))
      && (c == Skipped <==> (forall d :: d in cs ==> d == Skipped))
  {
    assert cs[0] in cs;
  }

  /** Summaries of summaries are honest: splitting the units into non-empty parts
      and aggregating the parts' aggregates changes nothing. */
  lemma {:induction false} AggregateNests(parts: seq<seq<Conclusion>>)
    requires forall p :: p in parts ==> p != [] && AllValid(p)
    ensures Aggregate(Aggregates(parts)) == Aggregate(Flatten(parts))
    ensures parts != [] ==> Flatten(parts) != []
    ensures AllValid(Flatten(parts))
    decreases |parts|
  {
    if parts != [] {
      var head, tail := parts[0], parts[1..];
      assert head in parts && forall p :: p in tail ==> p in parts;
      AggregateNests(tail);
      assert head[0] in head;
      if tail == [] {
        assert Flatten(parts) == head;
        assert Aggregates(parts) == [Aggregate(head)];
        AggregateOfOne(head);
      } else {
        AggregateOfTwoParts(head, Flatten(tail));
        var rest := Aggregates(tail);
        AggregatesAreValid(tail);
        AggregateOfOne(head);
        AggregateOfTwoParts([Aggregate(head)], rest);
      }
    }
  }

  lemma AggregateOfOne(a: seq<Conclusion>)
    requires a != [] && AllValid(a)
    ensures Aggregate(a).Valid() && Aggregate([Aggregate(a)]) == Aggregate(a)
  {
    var one := [Aggregate(a)];
    assert one[0] in one;
    assert a[0] in a && a[0].Valid();
  }

  lemma {:induction false} AggregatesAreValid(parts: seq<seq<Conclusion>>)
    requires forall p :: p in parts ==> p != [] && AllValid(p)
    ensures |Aggregates(parts)| == |parts| && AllValid(Aggregates(parts))
    decreases |parts|
  {
    if parts != [] {
      assert parts[0] in parts;
      assert forall p :: p in parts[1..] ==> p in parts;
      AggregateOfOne(parts[0]);
      AggregatesAreValid(parts[1..]);
    }
  }

  // -------------------------------------------------------------- needsResult

  datatype NeedResult = NeedSuccess | NeedFailure | NeedCancelled | NeedSkipped

  /** Whether dependents may run, which is not the same question as Aggregate:
      one successful leg is enough to outweigh any number of skipped ones. */
  function NeedsResult(cs: seq<Conclusion>): NeedResult {
    if cs == [] then NeedSkipped
    else if exists c :: c in cs && c.IsFailure() then NeedFailure
    else if Cancelled in cs then NeedCancelled
    else if exists c :: c in cs && c != Skipped then NeedSuccess
    else NeedSkipped
  }

  /** What dependents are told, conclusion by conclusion. */
  lemma WhatDependentsAreTold(cs: seq<Conclusion>)
    requires AllValid(cs)
    ensures NeedsResult(cs) == NeedFailure <==> !NothingFailed(cs)
    ensures NeedsResult(cs) == NeedCancelled <==> NothingFailed(cs) && Cancelled in cs
    ensures NeedsResult(cs) == NeedSuccess <==>
      NothingFailed(cs) && Cancelled !in cs && (Success in cs || Neutral in cs || Stale in cs)
    ensures NeedsResult(cs) == NeedSkipped <==> forall c :: c in cs ==> c == Skipped
  {
    if cs != [] {
      assert cs[0] in cs;
    }
  }

  method NeedsResultOf(cs: seq<Conclusion>) returns (r: NeedResult)
    ensures r == NeedsResult(cs)
  {
    if |cs| == 0 {
      return NeedSkipped;
    }
    var sawSuccess, sawCancelled, sawSkipped := false, false, false;
    for i := 0 to |cs|
      invariant forall k :: 0 <= k < i ==> !cs[k].IsFailure()
      invariant sawCancelled <==> Cancelled in cs[..i]
      invariant sawSkipped <==> Skipped in cs[..i]
      invariant sawSuccess <==> exists k :: 0 <= k < i && cs[k] != Cancelled && cs[k] != Skipped
    {
      var c := cs[i];
      assert cs[..i + 1] == cs[..i] + [c];
      if c.IsFailure() {
        assert c in cs;
        return NeedFailure;
      } else if c == Cancelled {
        sawCancelled := true;
      } else if c == Skipped {
        sawSkipped := true;
      } else {
        sawSuccess := true;
      }
    }
    assert cs[..|cs|] == cs;
    assert cs[0] in cs;
    if sawSuccess {
      var k :| 0 <= k < |cs| && cs[k] != Cancelled && cs[k] != Skipped;
      assert cs[k] in cs;
    }
    if sawCancelled {
      r := NeedCancelled;
    } else if sawSuccess {
      r := NeedSuccess;
    } else if sawSkipped {
      r := NeedSkipped;
    } else {
      r := NeedSuccess;
    }
  }

  /** Where the two reducers disagree: dependents run on a result the rollup does
      not call a success exactly when something succeeded next to a skip, or
      something ended neutral or stale. */
  lemma GatingIsWeakerThanTheVerdict(cs: seq<Conclusion>)
    requires AllValid(cs)
    ensures Aggregate(cs) == Success ==> NeedsResult(cs) == NeedSuccess
    ensures NeedsResult(cs) == NeedSuccess && Aggregate(cs) != Success <==>
      (&& (forall c :: c in cs ==> !c.IsFailure() && c != Cancelled)
       && (Neutral in cs || Stale in cs || (Skipped in cs && Success in cs)))
  {
    if cs != [] {
      assert cs[0] in cs;
    }
  }
}
