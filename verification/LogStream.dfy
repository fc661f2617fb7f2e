/** The live log of one attempt and the watchers it feeds, each through a bounded ring that
    a pump drains. The writer's steps and the pump's may interleave in any order. */
module LogStream {
  import opened Model

  datatype Line = Line(num: int, stream: string, text: string)

  const FELL_BEHIND := "log stream fell behind, reconnect"

  /** The lines carry the numbers from + 1, from + 2, and so on. */
  predicate Numbered(lines: seq<Line>, from: int) {
    forall i :: 0 <= i < |lines| ==> lines[i].num == from + 1 + i
  }

  /** Where the pump of a watcher stands between two of its atomic steps. */
  datatype Pump = AtTop | Sending(fell: bool, closed: bool, empty: bool) | Parked | Ended

  class Subscriber {
    const capacity: nat
    var buf: seq<Line>
    var lastSeq: int
    var fell: bool
    var closed: bool
    var wake: bool
    /** The batch the pump has taken and its place in the loop. */
    var batch: seq<Line>
    var pump: Pump
    /** What was put on the channel, what was handed to the watcher in all, the number just
        before the first of it, and the size of the backlog it began with. */
    ghost var sent: seq<Line>
    ghost var given: seq<Line>
    ghost const start: nat
    ghost const backlog: nat

    ghost predicate Valid()
      reads this
    {
      && capacity > 0
      && given == sent + batch + buf && Numbered(given, start)
      && lastSeq == (if sent == [] then 0 else sent[|sent| - 1].num)
      && |buf| <= (if capacity > backlog then capacity else backlog)
      && (fell && !(pump.Sending? && pump.fell) && !pump.Ended? ==> buf != [])
      && (pump.Sending? && pump.fell ==> fell && buf == [] && sent + batch != [])
      && (pump.Sending? && pump.closed ==> closed && buf == [])
      && (pump.Sending? && pump.empty ==> batch == [])
      && (!pump.Sending? && !pump.Ended? ==> batch == [])
    }

    constructor (cap: nat, lines: seq<Line>, ghost from: nat)
      requires cap > 0 && Numbered(lines, from)
      ensures Valid() && given == lines && start == from && sent == [] && !fell && !closed && capacity == cap
    {
      capacity, buf, lastSeq, fell, closed, wake := cap, lines, 0, false, false, false;
      batch, pump := [], AtTop;
      sent, given, start, backlog := [], lines, from, |lines|;
    }

    // ------------------------------------------------------ The writer's steps

    /** False when the watcher is over or has just been found too far behind. */
    method Push(line: Line) returns (ok: bool)
      requires Valid() && (!fell && !closed ==> line.num == start + |given| + 1)
      modifies this`buf, this`fell, this`wake, this`given
      ensures Valid() && (old(fell) ==> fell)
      ensures ok <==> !old(closed) && !old(fell) && |old(buf)| < capacity
      ensures given == if ok then old(given) + [line] else old(given)
      ensures fell <==> old(fell) || (!closed && !ok)
    {
      if closed || fell {
        return false;
      }
      if |buf| >= capacity {
        fell := true;
        Signal();
        return false;
      }
      assert sent + batch + (buf + [line]) == (sent + batch + buf) + [line];
      buf := buf + [line];
      given := given + [line];
      Signal();
      ok := true;
    }

    method Close()
      requires Valid()
      modifies this`closed, this`wake
      ensures Valid() && closed
    {
      if closed {
        return;
      }
      closed := true;
      Signal();
    }

    method Signal()
      modifies this`wake
      ensures wake
    {
      wake := true;
    }

    // -------------------------------------------------------- The pump's steps

    /** Under the lock: the whole ring is taken, with the flags as they are now. */
    method TakeBatch()
      requires Valid() && pump.AtTop?
      modifies this`batch, this`buf, this`pump
      ensures Valid() && pump.Sending? && buf == [] && batch == old(buf)
    {
      batch := buf;
      buf := [];
      pump := Sending(fell, closed, |batch| == 0);
    }

    /** One line goes out: always the next number, from the start on. */
    method Send() returns (line: Line)
      requires Valid() && pump.Sending? && batch != []
      modifies this`batch, this`sent, this`lastSeq
      ensures Valid() && sent == old(sent) + [line]
      ensures line.num == start + |sent|
    {
      line := batch[0];
      assert sent + batch == sent + [line] + batch[1..];
      assert given[|sent|] == line;
      batch := batch[1..];
      sent := sent + [line];
      lastSeq := line.num;
    }

    /** After the batch: a watcher that fell behind is told so under the number of the last
        line it got; one that is closed and drained ends; any other waits. */
    method EndBatch() returns (notice: Option<Line>)
      requires Valid() && pump.Sending? && batch == []
      modifies this`pump
      ensures Valid() && !pump.Sending? && !pump.AtTop?
      ensures notice.Some? <==> old(pump).fell
      ensures notice.Some? ==> pump.Ended? && sent != [] && notice.value == Line(start + |sent|, "platform", FELL_BEHIND)
      ensures notice.None? && pump.Ended? ==> closed && sent == given
    {
      if pump.fell {
        assert sent + batch == sent;
        notice := Some(Line(lastSeq, "platform", FELL_BEHIND));
        pump := Ended;
        return;
      }
      notice := None;
      pump := if pump.closed && pump.empty then Ended else Parked;
    }

    method Wake()
      requires Valid() && pump.Parked? && wake
      modifies this`wake, this`pump
      ensures Valid() && pump.AtTop?
    {
      wake := false;
      pump := AtTop;
    }

    /** Whichever step of the pump is due. */
    method Step() returns (out: Option<Line>)
      requires Valid()
      modifies this`batch, this`buf, this`pump, this`sent, this`lastSeq, this`wake
      ensures Valid()
      ensures out.Some? && !pump.Ended? ==>
        |old(sent)| < |given| && out.value == given[|old(sent)|] && sent == old(sent) + [out.value]
      ensures out.Some? && pump.Ended? ==>
        sent == old(sent) != [] && fell && out.value == Line(start + |sent|, "platform", FELL_BEHIND)
      ensures out.None? ==> sent == old(sent)
      ensures pump.Ended? && !old(pump).Ended? && out.None? ==> closed && sent == given
    {
      out := None;
      match pump {
        case AtTop => TakeBatch();
        case Sending(_, _, _) =>
          if |batch| > 0 {
            assert given[|sent|] == batch[0];
            var line := Send();
            out := Some(line);
          } else {
            out := EndBatch();
          }
        case Parked =>
          if wake {
            Wake();
          }
        case Ended =>
      }
    }

    /** The watcher's context ends, wherever the pump is. */
    method Cancel()
      requires Valid()
      modifies this`pump
      ensures Valid() && pump.Ended?
    {
      pump := Ended;
    }
  }

  /** What a watcher received runs from its start without a gap or a repeat. */
  lemma ReceivedIsConsecutive(s: Subscriber)
    requires s.Valid()
    ensures Numbered(s.sent, s.start)
    ensures s.lastSeq == if s.sent == [] then 0 else s.start + |s.sent|
  {
    assert s.given[..|s.sent|] == s.sent;
  }

  // ---------------------------------------------------------------- The attempt

  lemma LastNumber(lines: seq<Line>)
    requires Numbered(lines, 0) && lines != []
    ensures lines[|lines| - 1].num == |lines|
  {
  }

  lemma SliceGrows(lines: seq<Line>, a: nat)
    requires a < |lines|
    ensures lines[a..|lines|] == lines[a..|lines| - 1] + [lines[|lines| - 1]]
  {
  }

  lemma TailIsNumbered(lines: seq<Line>, from: nat)
    requires Numbered(lines, 0) && from <= |lines|
    ensures Numbered(lines[from..], from)
  {
  }

  /** How many of the lines a watcher from fromSeq is not interested in. */
  function Behind(n: nat, fromSeq: int): nat {
    if fromSeq <= 0 then 0 else if fromSeq < n then fromSeq else n
  }

  /** What is left of a log behind a number is exactly the lines with a later one. */
  lemma LaterLinesAreLeft(lines: seq<Line>, fromSeq: int, k: nat)
    requires Numbered(lines, 0) && k < |lines|
    ensures lines[k].num > fromSeq <==> Behind(|lines|, fromSeq) <= k
    ensures Behind(|lines|, fromSeq) <= |lines|
  {
  }

  /** The hot log of one attempt. */
  class Attempt {
    var lines: seq<Line>
    var lastSeq: int
    var sealed: bool
    var subs: set<Subscriber>
    /** Every line ever appended, and every watcher there has been. */
    ghost var all: seq<Line>
    ghost var watchers: set<Subscriber>

    /** What the watcher was handed is a stretch of the log itself. */
    ghost predicate Feeds(s: Subscriber)
      reads this`all, s`given
    {
      s.start + |s.given| <= |all| && s.given == all[s.start..s.start + |s.given|]
    }

    ghost predicate Live(s: Subscriber)
      reads this`all, s
    {
      !s.fell && !s.closed && s.start + |s.given| == |all|
    }

    ghost predicate Valid()
      reads this, watchers
    {
      && Numbered(all, 0) && lastSeq == |all| && lines == (if sealed then [] else all)
      && subs <= watchers && (sealed ==> subs == {})
      && (forall s :: s in watchers ==> s.Valid() && Feeds(s))
      && (forall s :: s in subs ==> Live(s))
    }

    constructor ()
      ensures Valid() && all == [] && watchers == {} && !sealed
    {
      lines, lastSeq, sealed, subs := [], 0, false, {};
      all, watchers := [], {};
    }

    /** Numbers the lines and hands each to every live watcher; a sealed log takes none. */
    method Append(texts: seq<Line>) returns (last: int, ok: bool)
      requires Valid()
      modifies this, watchers
      ensures Valid() && watchers == old(watchers) && last == lastSeq
      ensures ok <==> !old(sealed)
      ensures sealed == old(sealed)
      ensures |all| == |old(all)| + (if ok then |texts| else 0) && old(all) <= all
      ensures ok ==> forall i :: 0 <= i < |texts| ==> all[|old(all)| + i] == texts[i].(num := |old(all)| + 1 + i)
    {
      if sealed {
        return lastSeq, false;
      }
      for i := 0 to |texts|
        invariant Valid() && watchers == old(watchers) && !sealed
        invariant |all| == |old(all)| + i && old(all) <= all
        invariant forall j :: 0 <= j < i ==> all[|old(all)| + j] == texts[j].(num := |old(all)| + 1 + j)
      {
        AppendLine(texts[i].(num := lastSeq + 1));
      }
      return lastSeq, true;
    }

    method AppendLine(line: Line)
      requires Valid() && !sealed && line.num == lastSeq + 1
      modifies this, watchers
      ensures Valid() && watchers == old(watchers) && !sealed && all == old(all) + [line]
    {
      lastSeq := line.num;
      lines := lines + [line];
      all := all + [line];
      Fanout(line);
    }

    /** Every live watcher gets the line or is dropped. */
    method Fanout(line: Line)
      requires subs <= watchers && |all| > 0 && all[|all| - 1] == line && Numbered(all, 0)
      requires forall s :: s in watchers ==> s.Valid() && Feeds(s)
      requires forall s :: s in subs ==> !s.fell && !s.closed && s.start + |s.given| == |all| - 1
      modifies this`subs, watchers
      ensures subs <= old(subs)
      ensures forall s :: s in watchers ==> s.Valid() && Feeds(s)
      ensures forall s :: s in subs ==> Live(s)
    {
      hide Subscriber.Valid, Feeds, Live;
      var rest := subs;
      var kept: set<Subscriber> := {};
      while rest != {}
        invariant rest + kept <= old(subs) && rest !! kept
        invariant forall s :: s in watchers ==> s.Valid() && Feeds(s)
        invariant forall s :: s in rest ==> !s.fell && !s.closed && s.start + |s.given| == |all| - 1
        invariant forall s :: s in kept ==> Live(s)
        decreases rest
      {
        var s: Subscriber :| s in rest;
        rest := rest - {s};
        var ok := Offer(s, line);
        if ok {
          kept := kept + {s};
        }
      }
      subs := kept;
    }

    method Offer(s: Subscriber, line: Line) returns (ok: bool)
      requires |all| > 0 && all[|all| - 1] == line && Numbered(all, 0) && s.Valid() && Feeds(s)
      requires !s.fell && !s.closed && s.start + |s.given| == |all| - 1
      modifies s
      ensures s.Valid() && Feeds(s) && (ok ==> Live(s))
    {
      LastNumber(all);
      hide Subscriber.Valid, Numbered;
      SliceGrows(all, s.start);
      ok := s.Push(line);
    }

    /** A watcher of a live log: it is handed the lines after fromSeq, then every new one. */
    method Subscribe(fromSeq: int, capacity: nat) returns (s: Subscriber)
      requires Valid() && !sealed && capacity > 0
      modifies this
      ensures Valid() && fresh(s) && watchers == old(watchers) + {s} && s in subs
      ensures all == old(all) && s.start == Behind(|all|, fromSeq) && s.given == all[s.start..] && s.sent == []
      ensures s.start == fromSeq <==> 0 <= fromSeq <= lastSeq
      ensures Numbered(s.given, s.start)
    {
      hide Subscriber.Valid, Numbered;
      var backlog := Backlog(lines, fromSeq);
      s := new Subscriber(capacity, backlog, Behind(|lines|, fromSeq));
      subs := subs + {s};
      watchers := watchers + {s};
    }

    /** The lines a new watcher has not seen. */
    static method Backlog(lines: seq<Line>, fromSeq: int) returns (backlog: seq<Line>)
      requires Numbered(lines, 0)
      ensures backlog == lines[Behind(|lines|, fromSeq)..] && Numbered(backlog, Behind(|lines|, fromSeq))
    {
      backlog := [];
      ghost var from := Behind(|lines|, fromSeq);
      for i := 0 to |lines|
        invariant backlog == if i <= from then [] else lines[from..i]
      {
        if lines[i].num > fromSeq {
          backlog := backlog + [lines[i]];
        }
      }
      TailIsNumbered(lines, from);
    }

    /** A sealed log is replayed and the stream ends. */
    static method ReplayOnly(stored: seq<Line>, fromSeq: int) returns (out: seq<Line>)
      requires Numbered(stored, 0)
      ensures out == stored[Behind(|stored|, fromSeq)..]
    {
      out := [];
      ghost var from := Behind(|stored|, fromSeq);
      for i := 0 to |stored|
        invariant out == if i <= from then [] else stored[from..i]
      {
        if stored[i].num <= fromSeq {
          continue;
        }
        out := out + [stored[i]];
      }
    }

    /** Up to limit lines after fromSeq. */
    static method Read(stored: seq<Line>, fromSeq: int, limit: int) returns (out: seq<Line>)
      requires Numbered(stored, 0) && limit > 0
      ensures var tail := stored[Behind(|stored|, fromSeq)..];
        out == if |tail| <= limit then tail else tail[..limit]
    {
      out := [];
      ghost var from := Behind(|stored|, fromSeq);
      for i := 0 to |stored|
        invariant out == (if i <= from then [] else stored[from..i]) && |out| < limit
      {
        if stored[i].num <= fromSeq {
          continue;
        }
        out := out + [stored[i]];
        if |out| == limit {
          assert out == stored[from..][..limit];
          break;
        }
      }
    }

    method Unregister(s: Subscriber)
      requires Valid()
      modifies this`subs
      ensures Valid() && s !in subs
    {
      subs := subs - {s};
    }

    /** The log is sealed and every watcher told that no more will come. */
    method Seal()
      requires Valid()
      modifies this, watchers
      ensures Valid() && sealed && all == old(all) && watchers == old(watchers)
      ensures forall s :: s in old(subs) ==> s.closed
    {
      hide Subscriber.Valid, Feeds, Numbered;
      sealed, lines := true, [];
      var rest := subs;
      while rest != {}
        invariant sealed && lines == [] && lastSeq == |all|
        invariant rest <= old(subs) <= watchers == old(watchers) && all == old(all)
        invariant forall s :: s in watchers ==> s.Valid() && Feeds(s)
        invariant forall s :: s in old(subs) - rest ==> s.closed
        decreases rest
      {
        var s: Subscriber :| s in rest;
        rest := rest - {s};
        s.Close();
      }
      subs := {};
    }

    /** One step of some watcher's pump, whichever is due. */
    method PumpStep(s: Subscriber) returns (out: Option<Line>)
      requires Valid() && s in watchers
      modifies s`batch, s`buf, s`pump, s`sent, s`lastSeq, s`wake
      ensures Valid() && s.given == old(s.given)
      ensures out.Some? && !s.pump.Ended? ==>
        s.start + |old(s.sent)| < |all| && out.value == all[s.start + |old(s.sent)|] && s.sent == old(s.sent) + [out.value]
      ensures out.Some? && s.pump.Ended? ==>
        s.sent == old(s.sent) != [] && out.value == Line(s.start + |s.sent|, "platform", FELL_BEHIND)
      ensures out.None? ==> s.sent == old(s.sent)
      ensures s.pump.Ended? && !old(s.pump).Ended? && out.None? ==> s.closed && s.sent == s.given
    {
      hide Subscriber.Valid;
      out := s.Step();
    }
  }

  // --------------------------------------------------------------- Reconnecting

  /** What a client does with the notice that it fell behind: it subscribes again, at the number
      of the notice, and is handed the log from the first line it has not got. */
  method Reconnect(a: Attempt, s: Subscriber, notice: Line, capacity: nat) returns (again: Subscriber)
    requires a.Valid() && !a.sealed && s in a.watchers && capacity > 0
    requires s.pump.Ended? && notice == Line(s.start + |s.sent|, "platform", FELL_BEHIND)
    modifies a
    ensures a.Valid() && a.all == old(a.all) && fresh(again) && a.watchers == old(a.watchers) + {again}
    ensures again.start == s.start + |s.sent| && again.sent == []
    ensures s.sent + again.given == a.all[s.start..]
  {
    SentIsTheLog(a, s);
    again := a.Subscribe(notice.num, capacity);
    assert a.all[s.start..] == a.all[s.start..again.start] + a.all[again.start..];
  }

  lemma SentIsTheLog(a: Attempt, s: Subscriber)
    requires a.Valid() && s in a.watchers
    ensures s.start + |s.sent| <= |a.all| && s.sent == a.all[s.start..s.start + |s.sent|]
  {
    assert s.given[..|s.sent|] == s.sent;
    assert a.Feeds(s);
  }

  /** However far the log has grown by then and however much of it the new watcher has got, what
      the two watchers of one client received is one stretch of the log: nothing is missing
      at the seam and nothing comes twice. The same of a log that was sealed meanwhile and
      is replayed. */
  lemma ReconnectingContinues(a: Attempt, s: Subscriber, again: Subscriber)
    requires a.Valid() && s in a.watchers && again in a.watchers && again.start == s.start + |s.sent|
    ensures again.start + |again.sent| <= |a.all|
    ensures s.sent + again.sent == a.all[s.start..again.start + |again.sent|]
    ensures Numbered(s.sent + again.sent, s.start)
    ensures s.sent + a.all[Behind(|a.all|, s.start + |s.sent|)..] == a.all[s.start..]
  {
    hide Subscriber.Valid;
    SentIsTheLog(a, s);
    SentIsTheLog(a, again);
    Seam(a.all, s.start, again.start, again.start + |again.sent|);
  }

  /** Two stretches of the log that meet are one stretch. */
  lemma Seam(all: seq<Line>, start: nat, mid: nat, end: nat)
    requires start <= mid <= end <= |all| && Numbered(all, 0)
    ensures all[start..mid] + all[mid..end] == all[start..end] && all[start..mid] + all[mid..] == all[start..]
    ensures Numbered(all[start..end], start)
  {
  }
}
