/** Folding ::group:: and ::endgroup:: markers into a tree, and finding a line in it. */
module GroupFold {
  import opened Model

  datatype LogLine = LogLine(num: int, text: string)

  datatype Marker = Opens(title: string) | Closes | Plain

  /** How a line's text is read; the two patterns are not part of this model. */
  type Reader = string -> Marker

  datatype Block =
    | LineBlock(line: LogLine)
    | GroupBlock(title: string, start: int, end: int, closed: bool, children: seq<Block>)

  function Flatten(bs: seq<Block>): seq<LogLine> {
    if bs == [] then []
    else
      (match bs[0]
       case LineBlock(line) => [line]
       case GroupBlock(_, _, _, _, children) => Flatten(children)) + Flatten(bs[1..])
  }

  /** Whether the walk found the number, and the groups it went through. */
  datatype Trail = Trail(found: bool, path: seq<int>)

  function Containing(bs: seq<Block>, num: int): Trail {
    if bs == [] then Trail(false, [])
    else
      match bs[0]
      case LineBlock(line) => if line.num == num then Trail(true, []) else Containing(bs[1..], num)
      case GroupBlock(_, start, end, _, children) =>
        if start <= num <= end then Trail(true, [start] + Containing(children, num).path)
        else Containing(bs[1..], num)
  }

  // ------------------------------------------------------------ What is meant

  function PlainLines(read: Reader, lines: seq<LogLine>): seq<LogLine>
    decreases |lines|
  {
    if lines == [] then []
    else
      var last := lines[|lines| - 1];
      PlainLines(read, lines[..|lines| - 1]) + (if read(last.text).Plain? then [last] else [])
  }

  /** The numbers of the groups open after these lines, outermost first; a stray end
      closes nothing. */
  function OpenGroups(read: Reader, lines: seq<LogLine>): seq<int>
    decreases |lines|
  {
    if lines == [] then []
    else
      var last := lines[|lines| - 1];
      var open := OpenGroups(read, lines[..|lines| - 1]);
      match read(last.text)
      case Opens(_) => open + [last.num]
      case Closes => if open == [] then [] else open[..|open| - 1]
      case Plain => open
  }

  datatype Placed = Placed(line: LogLine, groups: seq<int>)

  /** Every plain line with the groups open around it. */
  function Placements(read: Reader, lines: seq<LogLine>): seq<Placed>
    decreases |lines|
  {
    if lines == [] then []
    else
      var init, last := lines[..|lines| - 1], lines[|lines| - 1];
      Placements(read, init) + (if read(last.text).Plain? then [Placed(last, OpenGroups(read, init))] else [])
  }

  predicate Increasing(lines: seq<LogLine>) {
    forall i, j :: 0 <= i < j < |lines| ==> lines[i].num < lines[j].num
  }

  // ------------------------------------------------------------- The fold

  /** An open group and the blocks it has so far; the first frame is the root. */
  datatype Frame = Frame(title: string, start: int, end: int, children: seq<Block>)

  /** The blocks of a frame, the group still open in it as its last. */
  function Tree(frames: seq<Frame>, k: nat): seq<Block>
    requires k < |frames|
    decreases |frames| - k
  {
    frames[k].children +
    (if k + 1 < |frames|
     then [GroupBlock(frames[k + 1].title, frames[k + 1].start, frames[k + 1].end, false, Tree(frames, k + 1))]
     else [])
  }

  function TouchAll(frames: seq<Frame>, num: int): (r: seq<Frame>)
    ensures |r| == |frames|
    ensures forall k :: 0 <= k < |frames| ==> r[k] == if k == 0 then frames[0] else frames[k].(end := num)
  {
    seq(|frames|, k requires 0 <= k < |frames| => if k == 0 then frames[0] else frames[k].(end := num))
  }

  function AddTo(frames: seq<Frame>, b: Block): (r: seq<Frame>)
    requires frames != []
    ensures |r| == |frames| && r[..|frames| - 1] == frames[..|frames| - 1]
  {
    var n := |frames| - 1;
    frames[n := frames[n].(children := frames[n].children + [b])]
  }

  /** One line of the fold. */
  function Step(read: Reader, frames: seq<Frame>, line: LogLine): (r: seq<Frame>)
    requires frames != []
    ensures r != []
  {
    match read(line.text)
    case Opens(title) => frames + [Frame(title, line.num, line.num, [])]
    case Closes =>
      if |frames| == 1 then frames
      else
        var g := frames[|frames| - 1];
        AddTo(frames[..|frames| - 1], GroupBlock(g.title, g.start, line.num, true, g.children))
    case Plain => TouchAll(AddTo(frames, LineBlock(line)), line.num)
  }

  const ROOT := Frame("", 0, 0, [])

  function Fold(read: Reader, lines: seq<LogLine>): (frames: seq<Frame>)
    ensures frames != []
    decreases |lines|
  {
    if lines == [] then [ROOT] else Step(read, Fold(read, lines[..|lines| - 1]), lines[|lines| - 1])
  }

  function FoldGroupsOf(read: Reader, lines: seq<LogLine>): seq<Block> {
    Tree(Fold(read, lines), 0)
  }

  method FoldGroups(read: Reader, lines: seq<LogLine>) returns (blocks: seq<Block>)
    ensures blocks == FoldGroupsOf(read, lines)
  {
    var frames := [ROOT];
    for i := 0 to |lines|
      invariant frames == Fold(read, lines[..i])
    {
      assert lines[..i + 1][..i] == lines[..i];
      var line := lines[i];
      var marker := read(line.text);
      if marker.Opens? {
        frames := frames + [Frame(marker.title, line.num, line.num, [])];
        continue;
      }
      if marker.Closes? {
        if |frames| > 1 {
          var g := frames[|frames| - 1];
          frames := frames[..|frames| - 1];
          frames := AddTo(frames, GroupBlock(g.title, g.start, line.num, true, g.children));
        }
        continue;
      }
      frames := AddTo(frames, LineBlock(line));
      var touched := frames;
      for k := 1 to |frames|
        invariant |touched| == |frames|
        invariant forall j :: 0 <= j < |frames| ==>
          touched[j] == if 1 <= j < k then frames[j].(end := line.num) else frames[j]
      {
        touched := touched[k := touched[k].(end := line.num)];
      }
      assert touched == TouchAll(frames, line.num);
      frames := touched;
    }
    assert lines[..|lines|] == lines;
    var k := |frames| - 1;
    blocks := frames[k].children;
    while k > 0
      invariant 0 <= k < |frames| && blocks == Tree(frames, k)
    {
      blocks := frames[k - 1].children + [GroupBlock(frames[k].title, frames[k].start, frames[k].end, false, blocks)];
      k := k - 1;
    }
  }

  method FlattenBlocks(bs: seq<Block>) returns (out: seq<LogLine>)
    ensures out == Flatten(bs)
    decreases bs
  {
    out := [];
    for i := 0 to |bs|
      invariant out + Flatten(bs[i..]) == Flatten(bs)
    {
      assert bs[i..][1..] == bs[i + 1..];
      match bs[i] {
        case LineBlock(line) => out := out + [line];
        case GroupBlock(_, _, _, _, children) =>
          var inner := FlattenBlocks(children);
          out := out + inner;
      }
    }
  }

  method GroupsContaining(bs: seq<Block>, num: int) returns (path: seq<int>)
    ensures path == Containing(bs, num).path
  {
    var found;
    found, path := Walk(bs, num, []);
  }

  method Walk(bs: seq<Block>, num: int, above: seq<int>) returns (found: bool, path: seq<int>)
    ensures found == Containing(bs, num).found && path == above + Containing(bs, num).path
    decreases bs
  {
    path := above;
    for i := 0 to |bs|
      invariant path == above && Containing(bs[i..], num) == Containing(bs, num)
    {
      assert bs[i..][1..] == bs[i + 1..];
      match bs[i] {
        case LineBlock(line) =>
          if line.num == num {
            return true, path;
          }
        case GroupBlock(_, start, end, _, children) =>
          if start <= num <= end {
            path := path + [start];
            var inside;
            inside, path := Walk(children, num, path);
            // The number is in this group's range but may be on no line of its own.
            return true, path;
          }
      }
    }
    found := false;
    assert Containing([], num).path == [];
  }

  // --------------------------------------------------- The lines of the tree

  /** Every line of the blocks with the groups it is in, outermost first. */
  function Paths(bs: seq<Block>, above: seq<int>): seq<Placed> {
    if bs == [] then []
    else
      (match bs[0]
       case LineBlock(line) => [Placed(line, above)]
       case GroupBlock(_, start, _, _, children) => Paths(children, above + [start])) + Paths(bs[1..], above)
  }

  lemma {:induction false} PathsAppend(a: seq<Block>, b: seq<Block>, above: seq<int>)
    ensures Paths(a + b, above) == Paths(a, above) + Paths(b, above)
    decreases |a|
  {
    if a == [] {
      assert a + b == b;
    } else {
      assert (a + b)[1..] == a[1..] + b;
      PathsAppend(a[1..], b, above);
    }
  }

  /** The starts of the open groups down to frame k. */
  function Starts(frames: seq<Frame>, k: nat): seq<int>
    requires k < |frames|
  {
    if k == 0 then [] else Starts(frames, k - 1) + [frames[k].start]
  }

  function PathsFrom(frames: seq<Frame>, k: nat): seq<Placed>
    requires k < |frames|
    decreases |frames| - k
  {
    OwnPaths(frames, k) + (if k + 1 < |frames| then PathsFrom(frames, k + 1) else [])
  }

  function OwnPaths(frames: seq<Frame>, k: nat): seq<Placed>
    requires k < |frames|
  {
    Paths(frames[k].children, Starts(frames, k))
  }

  lemma {:induction false} TreePaths(frames: seq<Frame>, k: nat)
    requires k < |frames|
    ensures Paths(Tree(frames, k), Starts(frames, k)) == PathsFrom(frames, k)
    decreases |frames| - k
  {
    hide Paths;
    if k + 1 < |frames| {
      TreePaths(frames, k + 1);
      var f := frames[k + 1];
      var g := GroupBlock(f.title, f.start, f.end, false, Tree(frames, k + 1));
      PathsAppend(frames[k].children, [g], Starts(frames, k));
      GroupPath(g, Starts(frames, k));
      assert Starts(frames, k + 1) == Starts(frames, k) + [f.start];
    } else {
      assert Tree(frames, k) == frames[k].children;
    }
  }

  /** Two stacks that differ in their last frames only. */
  lemma {:induction false} SameStarts(a: seq<Frame>, b: seq<Frame>, k: nat)
    requires k < |a| && k < |b| && forall j :: 0 <= j <= k ==> a[j].start == b[j].start
    ensures Starts(a, k) == Starts(b, k)
    decreases k
  {
    if k > 0 {
      SameStarts(a, b, k - 1);
    }
  }

  /** The paths of the frames below n, and of what follows. */
  lemma {:induction false} PathsChange(a: seq<Frame>, b: seq<Frame>, k: nat, n: nat, more: seq<Placed>)
    requires k <= n < |a| && n < |b|
    requires forall j :: 0 <= j <= n ==> a[j].start == b[j].start
    requires forall j :: 0 <= j < n ==> a[j].children == b[j].children
    requires PathsFrom(b, n) == PathsFrom(a, n) + more
    ensures PathsFrom(b, k) == PathsFrom(a, k) + more
    decreases n - k
  {
    hide OwnPaths;
    if k < n {
      SameOwnPaths(a, b, k);
      PathsChange(a, b, k + 1, n, more);
      var own := OwnPaths(a, k);
      assert own + (PathsFrom(a, k + 1) + more) == (own + PathsFrom(a, k + 1)) + more;
    }
  }

  lemma SameOwnPaths(a: seq<Frame>, b: seq<Frame>, k: nat)
    requires k < |a| && k < |b| && forall j :: 0 <= j <= k ==> a[j].start == b[j].start
    requires a[k].children == b[k].children
    ensures OwnPaths(a, k) == OwnPaths(b, k)
  {
    hide Paths;
    SameStarts(a, b, k);
  }

  lemma StepPaths(read: Reader, frames: seq<Frame>, line: LogLine)
    requires frames != []
    ensures PathsFrom(Step(read, frames, line), 0)
         == PathsFrom(frames, 0) + (if read(line.text).Plain? then [Placed(line, Starts(frames, |frames| - 1))] else [])
  {
    hide PathsFrom, Starts, AddTo, TouchAll;
    match read(line.text) {
      case Opens(title) => OpenPaths(frames, Frame(title, line.num, line.num, []), 0);
      case Closes =>
        if |frames| > 1 {
          ClosePaths(frames, line.num, 0);
        }
      case Plain => PlainPaths(frames, line, 0);
    }
  }

  lemma OpenPaths(frames: seq<Frame>, f: Frame, k: nat)
    requires k < |frames| && f.children == []
    ensures PathsFrom(frames + [f], k) == PathsFrom(frames, k)
  {
    var n, next := |frames| - 1, frames + [f];
    SameOwnPaths(frames, next, n);
    assert PathsFrom(next, n + 1) == [];
    assert PathsFrom(next, n) == PathsFrom(frames, n) + [];
    PathsChange(frames, next, k, n, []);
  }

  lemma PlainPaths(frames: seq<Frame>, line: LogLine, k: nat)
    requires k < |frames|
    ensures PathsFrom(TouchAll(AddTo(frames, LineBlock(line)), line.num), k)
         == PathsFrom(frames, k) + [Placed(line, Starts(frames, |frames| - 1))]
  {
    hide OwnPaths, Starts, PathsFrom, Paths, AddTo, TouchAll;
    var n, next := |frames| - 1, TouchAll(AddTo(frames, LineBlock(line)), line.num);
    LineAdded(frames, line);
    GrownOwnPaths(frames, next, n, LineBlock(line));
    LinePath(line, Starts(frames, n));
    LastFrame(frames);
    LastFrame(next);
    PathsChange(frames, next, k, n, [Placed(line, Starts(frames, n))]);
  }

  lemma LineAdded(frames: seq<Frame>, line: LogLine)
    requires frames != []
    ensures var n, next := |frames| - 1, TouchAll(AddTo(frames, LineBlock(line)), line.num);
      && |next| == |frames| && next[n].children == frames[n].children + [LineBlock(line)]
      && (forall j :: 0 <= j <= n ==> next[j].start == frames[j].start)
      && (forall j :: 0 <= j < n ==> next[j].children == frames[j].children)
  {
  }

  lemma GrownOwnPaths(a: seq<Frame>, b: seq<Frame>, n: nat, more: Block)
    requires n < |a| && n < |b| && forall j :: 0 <= j <= n ==> a[j].start == b[j].start
    requires b[n].children == a[n].children + [more]
    ensures OwnPaths(b, n) == OwnPaths(a, n) + Paths([more], Starts(a, n))
  {
    hide Paths;
    SameStarts(a, b, n);
    PathsAppend(a[n].children, [more], Starts(a, n));
  }

  lemma LastFrame(frames: seq<Frame>)
    requires frames != []
    ensures PathsFrom(frames, |frames| - 1) == OwnPaths(frames, |frames| - 1)
  {
  }

  lemma LinePath(line: LogLine, above: seq<int>)
    ensures Paths([LineBlock(line)], above) == [Placed(line, above)]
  {
    assert [LineBlock(line)][1..] == [];
  }

  lemma GroupPath(g: Block, above: seq<int>)
    requires g.GroupBlock?
    ensures Paths([g], above) == Paths(g.children, above + [g.start])
  {
    assert [g][1..] == [];
  }

  lemma ClosePaths(frames: seq<Frame>, end: int, k: nat)
    requires k < |frames| - 1
    ensures var g := frames[|frames| - 1];
      PathsFrom(AddTo(frames[..|frames| - 1], GroupBlock(g.title, g.start, end, true, g.children)), k) == PathsFrom(frames, k)
  {
    hide OwnPaths, PathsFrom;
    var m := |frames| - 2;
    var f := frames[m + 1];
    var g := GroupBlock(f.title, f.start, end, true, f.children);
    var next := AddTo(frames[..m + 1], g);
    assert next[m].children == frames[m].children + [g];
    GrownOwnPaths(frames, next, m, g);
    LastFrame(next);
    LastTwoFrames(frames);
    GroupPath(g, Starts(frames, m));
    assert PathsFrom(next, m) == PathsFrom(frames, m) + [];
    PathsChange(frames, next, k, m, []);
  }

  lemma LastTwoFrames(frames: seq<Frame>)
    requires |frames| > 1
    ensures var m := |frames| - 2;
      PathsFrom(frames, m) == OwnPaths(frames, m) + Paths(frames[m + 1].children, Starts(frames, m) + [frames[m + 1].start])
  {
    hide Paths;
    var m := |frames| - 2;
    LastFrame(frames);
    assert Starts(frames, m + 1) == Starts(frames, m) + [frames[m + 1].start];
  }

  lemma StepStarts(read: Reader, frames: seq<Frame>, line: LogLine)
    requires frames != []
    ensures var n, next := |frames| - 1, Step(read, frames, line);
      Starts(next, |next| - 1) ==
        match read(line.text)
        case Opens(_) => Starts(frames, n) + [line.num]
        case Closes => if Starts(frames, n) == [] then [] else Starts(frames, n)[..|Starts(frames, n)| - 1]
        case Plain => Starts(frames, n)
  {
    var n, next := |frames| - 1, Step(read, frames, line);
    StartsCount(frames, n);
    match read(line.text) {
      case Opens(title) => SameStarts(frames, next, n);
      case Closes =>
        if n > 0 {
          SameStarts(frames, next, n - 1);
        }
      case Plain => SameStarts(frames, next, n);
    }
  }

  lemma {:induction false} StartsCount(frames: seq<Frame>, k: nat)
    requires k < |frames|
    ensures |Starts(frames, k)| == k
    decreases k
  {
    if k > 0 {
      StartsCount(frames, k - 1);
    }
  }

  /** The fold keeps every plain line, in order, inside the groups open around it. */
  lemma {:induction false} FoldPlacesEveryLine(read: Reader, lines: seq<LogLine>)
    ensures var frames := Fold(read, lines);
      && PathsFrom(frames, 0) == Placements(read, lines)
      && Starts(frames, |frames| - 1) == OpenGroups(read, lines)
    decreases |lines|
  {
    hide Step, PathsFrom, Starts;
    if lines == [] {
      NothingFolded();
    } else {
      var init, last := lines[..|lines| - 1], lines[|lines| - 1];
      FoldPlacesEveryLine(read, init);
      StepPaths(read, Fold(read, init), last);
      StepStarts(read, Fold(read, init), last);
    }
  }

  lemma NothingFolded()
    ensures PathsFrom([ROOT], 0) == [] && Starts([ROOT], 0) == []
  {
  }

  lemma TreePlacesEveryLine(read: Reader, lines: seq<LogLine>)
    ensures Paths(FoldGroupsOf(read, lines), []) == Placements(read, lines)
  {
    FoldPlacesEveryLine(read, lines);
    TreePaths(Fold(read, lines), 0);
  }

  function LinesOf(ps: seq<Placed>): (ls: seq<LogLine>)
    ensures |ls| == |ps| && forall i :: 0 <= i < |ps| ==> ls[i] == ps[i].line
  {
    seq(|ps|, i requires 0 <= i < |ps| => ps[i].line)
  }

  lemma {:induction false} FlattenIsPaths(bs: seq<Block>, above: seq<int>)
    ensures Flatten(bs) == LinesOf(Paths(bs, above))
    decreases bs
  {
    if bs != [] {
      FlattenIsPaths(bs[1..], above);
      if bs[0].GroupBlock? {
        FlattenIsPaths(bs[0].children, above + [bs[0].start]);
      }
    }
  }

  lemma {:induction false} PlacementsAreThePlainLines(read: Reader, lines: seq<LogLine>)
    ensures LinesOf(Placements(read, lines)) == PlainLines(read, lines)
    decreases |lines|
  {
    if lines != [] {
      PlacementsAreThePlainLines(read, lines[..|lines| - 1]);
    }
  }

  /** Folding loses no line and moves none: flattened again, the tree is the log without
      its markers. */
  lemma FlattenUndoesFold(read: Reader, lines: seq<LogLine>)
    ensures Flatten(FoldGroupsOf(read, lines)) == PlainLines(read, lines)
  {
    FlattenIsPaths(FoldGroupsOf(read, lines), []);
    TreePlacesEveryLine(read, lines);
    PlacementsAreThePlainLines(read, lines);
  }

  // --------------------------------------------------- Finding a line again

  /** The largest number in the blocks, or lo where they have none. */
  function Top(bs: seq<Block>, lo: int): int {
    if bs == [] then lo
    else
      match bs[0]
      case LineBlock(line) => Top(bs[1..], line.num)
      case GroupBlock(_, start, end, _, children) =>
        var inside := Top(children, start);
        Top(bs[1..], if inside > end then inside else end)
  }

  /** Numbers above lo that only rise, and groups that reach to their last line. */
  predicate Ordered(bs: seq<Block>, lo: int) {
    if bs == [] then true
    else
      match bs[0]
      case LineBlock(line) => lo < line.num && Ordered(bs[1..], line.num)
      case GroupBlock(_, start, end, _, children) =>
        var inside := Top(children, start);
        && lo < start <= end && Ordered(children, start) && Within(children, end)
        && Ordered(bs[1..], if inside > end then inside else end)
  }

  predicate Within(bs: seq<Block>, end: int) {
    forall l :: l in Flatten(bs) ==> l.num <= end
  }

  lemma {:induction false} TopRises(bs: seq<Block>, lo: int)
    requires Ordered(bs, lo)
    ensures Top(bs, lo) >= lo
    decreases bs
  {
    if bs != [] {
      match bs[0] {
        case LineBlock(line) => TopRises(bs[1..], line.num);
        case GroupBlock(_, start, end, _, children) =>
          var inside := Top(children, start);
          TopRises(bs[1..], if inside > end then inside else end);
      }
    }
  }

  lemma {:induction false} LinesAbove(bs: seq<Block>, lo: int)
    requires Ordered(bs, lo)
    ensures forall l :: l in Flatten(bs) ==> lo < l.num
    decreases bs
  {
    if bs != [] {
      match bs[0] {
        case LineBlock(line) => LinesAbove(bs[1..], line.num);
        case GroupBlock(_, start, end, _, children) =>
          var inside := Top(children, start);
          LinesAbove(children, start);
          LinesAbove(bs[1..], if inside > end then inside else end);
      }
    }
  }

  lemma {:induction false} OrderedAppend(a: seq<Block>, b: seq<Block>, lo: int)
    ensures Ordered(a + b, lo) <==> Ordered(a, lo) && Ordered(b, Top(a, lo))
    ensures Top(a + b, lo) == Top(b, Top(a, lo))
    decreases |a|
  {
    if a == [] {
      assert a + b == b;
    } else {
      assert (a + b)[1..] == a[1..] + b;
      match a[0] {
        case LineBlock(line) => OrderedAppend(a[1..], b, line.num);
        case GroupBlock(_, start, end, _, children) =>
          var inside := Top(children, start);
          OrderedAppend(a[1..], b, if inside > end then inside else end);
      }
    }
  }

  /** In an ordered tree the walk goes down to the line it is after and nowhere else. */
  lemma {:induction false} WalkFindsThePath(bs: seq<Block>, lo: int, above: seq<int>, i: nat)
    requires Ordered(bs, lo) && i < |Paths(bs, above)|
    ensures above + Containing(bs, Paths(bs, above)[i].line.num).path == Paths(bs, above)[i].groups
    decreases bs
  {
    var p := Paths(bs, above)[i];
    match bs[0] {
      case LineBlock(line) =>
        if i > 0 {
          LinesAbove(bs[1..], line.num);
          PathIsOfALine(bs[1..], above, i - 1);
          WalkFindsThePath(bs[1..], line.num, above, i - 1);
        }
      case GroupBlock(_, start, end, _, children) =>
        var inside := Top(children, start);
        var here := Paths(children, above + [start]);
        if i < |here| {
          LinesAbove(children, start);
          PathIsOfALine(children, above + [start], i);
          WalkFindsThePath(children, start, above + [start], i);
        } else {
          var next := if inside > end then inside else end;
          LinesAbove(bs[1..], next);
          PathIsOfALine(bs[1..], above, i - |here|);
          WalkFindsThePath(bs[1..], next, above, i - |here|);
        }
    }
  }

  lemma PathIsOfALine(bs: seq<Block>, above: seq<int>, i: nat)
    requires i < |Paths(bs, above)|
    ensures Paths(bs, above)[i].line in Flatten(bs)
  {
    FlattenIsPaths(bs, above);
    assert Flatten(bs)[i] == Paths(bs, above)[i].line;
  }

  // ------------------------------------------------------ The fold is ordered

  /** Frame k: its own blocks rise from its start, the open group in it starts later, and
      it reaches to the last line anywhere inside. */
  predicate FrameOk(frames: seq<Frame>, k: nat, base: int, now: int)
    requires k < |frames|
  {
    var lo := From(frames, k, base);
    && Ordered(frames[k].children, lo)
    && Top(frames[k].children, lo) < (if k + 1 < |frames| then frames[k + 1].start else now + 1)
    && lo <= now
    && (k > 0 ==> frames[k].start <= frames[k].end <= now && Within(Tree(frames, k), frames[k].end))
  }

  /** Where the numbers of a frame start; base is any number below the first line's. */
  function From(frames: seq<Frame>, k: nat, base: int): int
    requires k < |frames|
  {
    if k == 0 then base else frames[k].start
  }

  predicate FramesOk(frames: seq<Frame>, base: int, now: int) {
    forall k :: 0 <= k < |frames| ==> FrameOk(frames, k, base, now)
  }

  lemma {:induction false} TreeIsOrdered(frames: seq<Frame>, k: nat, base: int, now: int)
    requires k < |frames| && FramesOk(frames, base, now)
    ensures Ordered(Tree(frames, k), From(frames, k, base))
    ensures Top(Tree(frames, k), From(frames, k, base)) <= now
    decreases |frames| - k
  {
    assert FrameOk(frames, k, base, now);
    if k + 1 < |frames| {
      assert FrameOk(frames, k + 1, base, now);
      TreeIsOrdered(frames, k + 1, base, now);
      var f := frames[k + 1];
      var g := GroupBlock(f.title, f.start, f.end, false, Tree(frames, k + 1));
      OrderedAppend(frames[k].children, [g], From(frames, k, base));
      OneGroup(g, Top(frames[k].children, From(frames, k, base)));
    } else {
      assert Tree(frames, k) == frames[k].children;
    }
  }

  lemma OneGroup(g: Block, lo: int)
    requires g.GroupBlock? && lo < g.start <= g.end && Ordered(g.children, g.start) && Within(g.children, g.end)
    ensures Ordered([g], lo)
    ensures Top([g], lo) == if Top(g.children, g.start) > g.end then Top(g.children, g.start) else g.end
  {
    assert [g][1..] == [];
  }

  /** All lines inside a frame are named by its paths. */
  lemma WithinByPaths(frames: seq<Frame>, k: nat, end: int)
    requires k < |frames|
    ensures Within(Tree(frames, k), end) <==> forall i :: 0 <= i < |PathsFrom(frames, k)| ==> PathsFrom(frames, k)[i].line.num <= end
  {
    TreePaths(frames, k);
    FlattenIsPaths(Tree(frames, k), Starts(frames, k));
    var lines, paths := Flatten(Tree(frames, k)), PathsFrom(frames, k);
    assert lines == LinesOf(paths);
    if Within(Tree(frames, k), end) {
      forall i | 0 <= i < |paths| ensures paths[i].line.num <= end {
        assert lines[i] in lines && lines[i] == paths[i].line;
      }
    }
  }

  lemma OpeningKeepsOrder(frames: seq<Frame>, f: Frame, base: int, now: int)
    requires frames != [] && FramesOk(frames, base, now) && now < f.start == f.end && f.children == []
    ensures FramesOk(frames + [f], base, f.start)
  {
    hide Ordered, Top, Within, PathsFrom, Tree;
    var n, next := |frames| - 1, frames + [f];
    forall k | 0 <= k <= n + 1 ensures FrameOk(next, k, base, f.start) {
      if k <= n {
        assert FrameOk(frames, k, base, now);
        OpenPaths(frames, f, k);
        WithinByPaths(frames, k, frames[k].end);
        WithinByPaths(next, k, frames[k].end);
      } else {
        EmptyFrame(next, k);
      }
    }
  }

  lemma EmptyFrame(frames: seq<Frame>, k: nat)
    requires k == |frames| - 1 && frames[k].children == []
    ensures Within(Tree(frames, k), frames[k].end) && Ordered([], frames[k].start) && Top([], frames[k].start) == frames[k].start
  {
  }

  lemma PlainKeepsOrder(frames: seq<Frame>, line: LogLine, base: int, now: int)
    requires frames != [] && FramesOk(frames, base, now) && now < line.num
    ensures FramesOk(TouchAll(AddTo(frames, LineBlock(line)), line.num), base, line.num)
  {
    hide Ordered, Top, Within, PathsFrom, Tree;
    var n, next := |frames| - 1, TouchAll(AddTo(frames, LineBlock(line)), line.num);
    LineAdded(frames, line);
    forall k | 0 <= k <= n ensures FrameOk(next, k, base, line.num) {
      assert FrameOk(frames, k, base, now);
      if k > 0 {
        PlainPaths(frames, line, k);
        WithinByPaths(frames, k, frames[k].end);
        WithinByPaths(next, k, line.num);
      }
      if k == n {
        OrderedAppend(frames[n].children, [LineBlock(line)], From(frames, n, base));
        OneLine(line, Top(frames[n].children, From(frames, n, base)));
      }
    }
  }

  lemma OneLine(line: LogLine, lo: int)
    ensures Ordered([LineBlock(line)], lo) <==> lo < line.num
    ensures Top([LineBlock(line)], lo) == line.num
  {
    assert [LineBlock(line)][1..] == [];
  }

  lemma ClosingKeepsOrder(frames: seq<Frame>, end: int, base: int, now: int)
    requires |frames| > 1 && FramesOk(frames, base, now) && now < end
    ensures var g := frames[|frames| - 1];
      FramesOk(AddTo(frames[..|frames| - 1], GroupBlock(g.title, g.start, end, true, g.children)), base, end)
  {
    hide Ordered, Top, Within, PathsFrom, Tree;
    var m := |frames| - 2;
    var f := frames[m + 1];
    var g := GroupBlock(f.title, f.start, end, true, f.children);
    var next := AddTo(frames[..m + 1], g);
    assert FrameOk(frames, m + 1, base, now);
    LastTree(frames);
    WithinMore(f.children, f.end, end);
    forall k | 0 <= k <= m ensures FrameOk(next, k, base, end) {
      assert FrameOk(frames, k, base, now);
      ClosePaths(frames, end, k);
      WithinByPaths(frames, k, frames[k].end);
      WithinByPaths(next, k, frames[k].end);
      if k == m {
        OrderedAppend(frames[m].children, [g], From(frames, m, base));
        OneGroup(g, Top(frames[m].children, From(frames, m, base)));
      }
    }
  }

  lemma LastTree(frames: seq<Frame>)
    requires frames != []
    ensures Tree(frames, |frames| - 1) == frames[|frames| - 1].children
  {
  }

  lemma WithinMore(bs: seq<Block>, a: int, b: int)
    requires Within(bs, a) && a <= b
    ensures Within(bs, b)
  {
  }

  lemma {:induction false} FoldIsOrdered(read: Reader, lines: seq<LogLine>, base: int)
    requires Increasing(lines) && (lines != [] ==> base < lines[0].num)
    ensures FramesOk(Fold(read, lines), base, if lines == [] then base else lines[|lines| - 1].num)
    decreases |lines|
  {
    hide FrameOk;
    if lines == [] {
      RootIsOrdered(base);
    } else {
      var init, last := lines[..|lines| - 1], lines[|lines| - 1];
      FoldIsOrdered(read, init, base);
      StepKeepsOrder(read, Fold(read, init), last, base, if init == [] then base else init[|init| - 1].num);
    }
  }

  lemma RootIsOrdered(base: int)
    ensures FramesOk([ROOT], base, base)
  {
  }

  lemma StepKeepsOrder(read: Reader, frames: seq<Frame>, line: LogLine, base: int, now: int)
    requires frames != [] && FramesOk(frames, base, now) && now < line.num
    ensures FramesOk(Step(read, frames, line), base, line.num)
  {
    hide FrameOk, AddTo, TouchAll;
    match read(line.text) {
      case Opens(title) => OpeningKeepsOrder(frames, Frame(title, line.num, line.num, []), base, now);
      case Closes =>
        if |frames| == 1 {
          LaterIsOk(frames, base, now, line.num);
        } else {
          ClosingKeepsOrder(frames, line.num, base, now);
        }
      case Plain => PlainKeepsOrder(frames, line, base, now);
    }
  }

  lemma LaterIsOk(frames: seq<Frame>, base: int, now: int, later: int)
    requires FramesOk(frames, base, now) && now <= later
    ensures FramesOk(frames, base, later)
  {
    hide Ordered, Top, Within, Tree;
    forall k | 0 <= k < |frames| ensures FrameOk(frames, k, base, later) {
      assert FrameOk(frames, k, base, now);
    }
  }

  /** For any plain line of the log, what the job page expands is exactly the groups open
      around it, outermost first, whether or not they were ever closed. */
  lemma GroupsContainingAreTheOpenOnes(read: Reader, lines: seq<LogLine>, j: nat)
    requires Increasing(lines) && j < |lines| && read(lines[j].text).Plain?
    ensures Containing(FoldGroupsOf(read, lines), lines[j].num).path == OpenGroups(read, lines[..j])
  {
    hide Ordered, Paths, Placements, OpenGroups;
    var base := lines[0].num - 1;
    var blocks := FoldGroupsOf(read, lines);
    FoldIsOrdered(read, lines, base);
    TreeIsOrdered(Fold(read, lines), 0, base, lines[|lines| - 1].num);
    TreePlacesEveryLine(read, lines);
    var i := LineIsPlaced(read, lines, j);
    WalkFindsThePath(blocks, base, [], i);
    assert [] + Containing(blocks, lines[j].num).path == Containing(blocks, lines[j].num).path;
  }

  lemma {:induction false} LineIsPlaced(read: Reader, lines: seq<LogLine>, j: nat) returns (i: nat)
    requires j < |lines| && read(lines[j].text).Plain?
    ensures i < |Placements(read, lines)|
    ensures Placements(read, lines)[i] == Placed(lines[j], OpenGroups(read, lines[..j]))
    decreases |lines|
  {
    var n := |lines| - 1;
    if j == n {
      i := |Placements(read, lines)| - 1;
    } else {
      assert lines[..n][..j] == lines[..j];
      i := LineIsPlaced(read, lines[..n], j);
    }
  }
}
