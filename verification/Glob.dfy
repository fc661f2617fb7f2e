/** Filter patterns: the compiler from a pattern to a regular expression, and the ordered
    set that decides by its last match. */
module Glob {
  import opened Model

  // ------------------------------------------------------------------ Regexps

  /** Classes are kept by their characters, dashes included. */
  datatype CharSet = Exactly(c: char) | OneOf(content: string) | NoneOf(content: string) | NotNewline

  const NotSlash := NoneOf("/")

  predicate In(c: char, cs: CharSet) {
    match cs
    case Exactly(d) => c == d
    case OneOf(content) => InRanges(c, content)
    case NoneOf(content) => !InRanges(c, content)
    case NotNewline => c != '\n'
  }

  /** The characters of a class as the regexp parser reads them: a dash between two
      characters makes a range, which must not run backwards. */
  function Ranges(content: string): Option<seq<(char, char)>>
    decreases |content|
  {
    if content == [] then Some([])
    else if |content| >= 3 && content[1] == '-' then
      if content[2] < content[0] then None
      else
        match Ranges(content[3..])
        case None => None
        case Some(rest) => Some([(content[0], content[2])] + rest)
    else
      match Ranges(content[1..])
      case None => None
      case Some(rest) => Some([(content[0], content[0])] + rest)
  }

  predicate InRanges(c: char, content: string) {
    && Ranges(content).Some?
    && exists k :: 0 <= k < |Ranges(content).value| && Ranges(content).value[k].0 <= c <= Ranges(content).value[k].1
  }

  datatype Regex = Eps | One(cs: CharSet) | Cat(left: Regex, right: Regex) | Opt(r: Regex) | Plus(r: Regex) | Star(r: Regex)

  function Size(re: Regex): nat {
    match re
    case Eps => 0
    case One(_) => 0
    case Cat(left, right) => Size(left) + Size(right) + 1
    case Opt(r) => Size(r) + 1
    case Plus(r) => Size(r) + 2
    case Star(r) => Size(r) + 1
  }

  /** Whether the whole string is in the language, anchored at both ends. */
  predicate Matches(re: Regex, s: string)
    decreases Size(re), |s|
  {
    match re
    case Eps => s == []
    case One(cs) => |s| == 1 && In(s[0], cs)
    case Cat(left, right) => exists i :: 0 <= i <= |s| && Matches(left, s[..i]) && Matches(right, s[i..])
    case Opt(r) => s == [] || Matches(r, s)
    case Plus(r) => exists i :: 0 <= i <= |s| && Matches(r, s[..i]) && Matches(Star(r), s[i..])
    case Star(r) => s == [] || exists i :: 0 < i <= |s| && Matches(r, s[..i]) && Matches(Star(r), s[i..])
  }

  // ------------------------------------------------------------------- Tokens

  datatype Token = Atom(cs: CharSet) | Quantifier(c: char) | AnyInSegment | AnyAtAll | Unfinished

  /** The first closing bracket, or the length where there is none. */
  function ClosingAt(body: string, i: nat): (j: nat)
    requires i <= |body|
    ensures i <= j <= |body| && (j < |body| ==> body[j] == ']') && forall k :: i <= k < j ==> body[k] != ']'
    decreases |body| - i
  {
    if i == |body| || body[i] == ']' then i else ClosingAt(body, i + 1)
  }

  /** The dialect's own reading of a pattern, piece by piece. */
  function Tokens(body: string): seq<Token>
    decreases |body|
  {
    if body == [] then []
    else if body[0] == '*' then
      if |body| > 1 && body[1] == '*' then [AnyAtAll] + Tokens(body[2..]) else [AnyInSegment] + Tokens(body[1..])
    else if body[0] == '?' || body[0] == '+' then [Quantifier(body[0])] + Tokens(body[1..])
    else if body[0] == '[' then
      var j := ClosingAt(body, 1);
      if j == |body| then [Unfinished] else [Atom(OneOf(body[1..j]))] + Tokens(body[j + 1..])
    else if body[0] == '\\' then
      if |body| == 1 then [Unfinished] else [Atom(Exactly(body[1]))] + Tokens(body[2..])
    else [Atom(Exactly(body[0]))] + Tokens(body[1..])
  }

  /** A quantifier stands right after a character, an escape or a class, and every escape
      and class is complete. */
  predicate WellFormed(tokens: seq<Token>) {
    WellFormedAfter(tokens, false)
  }

  predicate WellFormedAfter(tokens: seq<Token>, atom: bool) {
    forall k :: 0 <= k < |tokens| ==> TokenFits(tokens, k, atom)
  }

  /** atom says whether the tokens follow something a quantifier applies to. */
  predicate TokenFits(tokens: seq<Token>, k: nat, atom: bool)
    requires k < |tokens|
  {
    !tokens[k].Unfinished? && (tokens[k].Quantifier? ==> if k > 0 then tokens[k - 1].Atom? else atom)
  }

  predicate Readable(cs: CharSet) {
    cs.OneOf? ==> Ranges(cs.content).Some?
  }

  /** No class has a range that runs backwards. */
  predicate RangesRunForward(tokens: seq<Token>) {
    forall k :: 0 <= k < |tokens| && tokens[k].Atom? ==> Readable(tokens[k].cs)
  }

  predicate HasEmptyClass(tokens: seq<Token>) {
    Atom(OneOf("")) in tokens
  }

  predicate AllIn(s: string, cs: CharSet) {
    forall k :: 0 <= k < |s| ==> In(s[k], cs)
  }

  /** What a pattern selects, token by token. across says whether ** runs over line ends. */
  predicate Reads(tokens: seq<Token>, s: string, across: bool)
    decreases |tokens|
  {
    if tokens == [] then s == []
    else
      match tokens[0]
      case AnyInSegment => exists i :: 0 <= i <= |s| && AllIn(s[..i], NotSlash) && Reads(tokens[1..], s[i..], across)
      case AnyAtAll =>
        exists i :: 0 <= i <= |s| && (across || AllIn(s[..i], NotNewline)) && Reads(tokens[1..], s[i..], across)
      case Atom(cs) =>
        if |tokens| > 1 && tokens[1] == Quantifier('?') then
          Reads(tokens[2..], s, across) || (s != [] && In(s[0], cs) && Reads(tokens[2..], s[1..], across))
        else if |tokens| > 1 && tokens[1].Quantifier? then
          exists i :: 0 < i <= |s| && AllIn(s[..i], cs) && Reads(tokens[2..], s[i..], across)
        else s != [] && In(s[0], cs) && Reads(tokens[1..], s[1..], across)
      case Quantifier(_) => false
      case Unfinished => false
  }

  // ------------------------------------------------------------------ Writing

  /** A character as itself in a regexp (QuoteMeta of the regexp package). */
  predicate Special(c: char) {
    c in "\\.+*?()|[]{}^$"
  }

  function Quote(c: char): (text: string) {
    if Special(c) then ['\\', c] else [c]
  }

  function QuoteAll(s: string): (text: string) {
    if s == [] then "" else Quote(s[0]) + QuoteAll(s[1..])
  }

  lemma {:induction false} QuoteAllAppend(s: string, c: char)
    ensures QuoteAll(s + [c]) == QuoteAll(s) + Quote(c)
  {
    if s == [] {
      assert QuoteAll([]) == "";
    } else {
      assert (s + [c])[1..] == s[1..] + [c];
      QuoteAllAppend(s[1..], c);
    }
  }

  function AtomText(cs: CharSet): (text: string)
    ensures text != ""
  {
    match cs
    case Exactly(c) => Quote(c)
    case OneOf(content) => "[" + QuoteAll(content) + "]"
    case NoneOf(content) => "[^" + QuoteAll(content) + "]"
    case NotNewline => "."
  }

  /** What a token writes, given the fragment that a quantifier may still apply to. */
  function Piece(token: Token, prev: string): (text: string) {
    match token
    case AnyInSegment => prev + "[^/]*"
    case AnyAtAll => prev + ".*"
    case Quantifier(c) => "(?:" + prev + ")" + [c]
    case Atom(_) => prev
    case Unfinished => ""
  }

  function Fragment(token: Token): string {
    if token.Atom? then AtomText(token.cs) else ""
  }

  function Written(tokens: seq<Token>, prev: string): (text: string)
    decreases |tokens|
  {
    if tokens == [] then prev else Piece(tokens[0], prev) + Written(tokens[1..], Fragment(tokens[0]))
  }

  // ------------------------------------------------------------------ Parsing

  /** The rest of a class, up to the bracket that closes it, which the first character is not. */
  function ReadClass(t: string, first: bool): (r: Option<(string, string)>)
    ensures r.Some? ==> |r.value.1| < |t|
    decreases |t|
  {
    if t == "" then None
    else if t[0] == ']' && !first then Some(("", t[1..]))
    else
      var escaped := t[0] == '\\' && |t| > 1;
      var rest := if escaped then t[2..] else t[1..];
      match ReadClass(rest, false)
      case None => None
      case Some((content, after)) => Some(([if escaped then t[1] else t[0]] + content, after))
  }

  /** What is read so far, the piece a repetition would apply to last. */
  function Joined(b: Regex, last: Option<Regex>): Regex {
    if last.Some? then Cat(b, last.value) else b
  }

  function Grouped(b: Regex, last: Option<Regex>): Regex {
    if b.Eps? && last.Some? then last.value else Joined(b, last)
  }

  /** The regexp package's reading of the syntax that is ever written here. stack holds what was
      read before each open group; the end of the text is part of the text. */
  function Parse(t: string, stack: seq<Regex>, b: Regex, last: Option<Regex>): Option<Regex>
    decreases |t|
  {
    if t == "" then None
    else
      match t[0]
      case '$' => if t == "$" && stack == [] then Some(Joined(b, last)) else None
      case '*' => if last.None? then None else Parse(t[1..], stack, Cat(b, Star(last.value)), None)
      case '+' => if last.None? then None else Parse(t[1..], stack, Cat(b, Plus(last.value)), None)
      case '?' => if last.None? then None else Parse(t[1..], stack, Cat(b, Opt(last.value)), None)
      case '.' => Parse(t[1..], stack, Joined(b, last), Some(One(NotNewline)))
      case '(' =>
        if |t| > 2 && t[1] == '?' && t[2] == ':' then Parse(t[3..], stack + [Joined(b, last)], Eps, None) else None
      case ')' =>
        if stack == [] then None
        else Parse(t[1..], stack[..|stack| - 1], stack[|stack| - 1], Some(Grouped(b, last)))
      case '[' =>
        var negated := |t| > 1 && t[1] == '^';
        (match ReadClass(if negated then t[2..] else t[1..], true)
         case None => None
         case Some((content, rest)) =>
           if Ranges(content).None? then None
           else Parse(rest, stack, Joined(b, last), Some(One(if negated then NoneOf(content) else OneOf(content)))))
      case '\\' => if |t| == 1 then None else Parse(t[2..], stack, Joined(b, last), Some(One(Exactly(t[1]))))
      case c => if Special(c) then None else Parse(t[1..], stack, Joined(b, last), Some(One(Exactly(c))))
  }

  // ---------------------------------------------------------------- Compiling

  datatype Compiled = Refused | Compiled(neg: bool, re: Regex)

  function Body(pattern: string): string {
    if pattern != [] && pattern[0] == '!' then pattern[1..] else pattern
  }

  /** What the regexp parser is given, its start aside. */
  function Text(tokens: seq<Token>): string {
    Written(tokens, "") + "$"
  }

  ghost predicate Rejected(pattern: string) {
    var tokens := Tokens(Body(pattern));
    Body(pattern) == [] || !WellFormed(tokens) || Parse(Text(tokens), [], Eps, None).None?
  }

  /** An empty class is written as it stands, and what follows it is then read as part of
      a class; every other pattern is read back as it was meant. */
  method CompileGlob(pattern: string) returns (g: Compiled)
    ensures g.Refused? <==> Rejected(pattern)
    ensures g.Compiled? ==> (g.neg <==> pattern[0] == '!')
    ensures g.Compiled? ==> Parse(Text(Tokens(Body(pattern))), [], Eps, None) == Some(g.re)
    ensures !HasEmptyClass(Tokens(Body(pattern))) ==>
      && (g.Refused? <==>
        Body(pattern) == [] || !WellFormed(Tokens(Body(pattern))) || !RangesRunForward(Tokens(Body(pattern))))
      && (g.Compiled? ==> forall s :: Matches(g.re, s) <==> Reads(Tokens(Body(pattern)), s, false))
  {
    hide Matches, Reads, WellFormed, Tokens, Parse, RangesRunForward, HasEmptyClass, Text;
    if pattern == "" {
      return Refused;
    }
    var neg := pattern[0] == '!';
    var rs := Body(pattern);
    if rs == "" {
      return Refused;
    }
    var text := Emit(rs);
    if text.None? {
      return Refused;
    }
    if !HasEmptyClass(Tokens(rs)) {
      PatternsAreReadAsMeant(rs);
    }
    var re := Parse(text.value, [], Eps, None);
    if re.None? {
      return Refused;
    }
    g := Compiled(neg, re.value);
  }

  lemma PatternsAreReadAsMeant(rs: string)
    requires WellFormed(Tokens(rs)) && !HasEmptyClass(Tokens(rs))
    ensures Parse(Text(Tokens(rs)), [], Eps, None).Some? <==> RangesRunForward(Tokens(rs))
    ensures Parse(Text(Tokens(rs)), [], Eps, None).Some? ==>
      forall s :: Matches(Parse(Text(Tokens(rs)), [], Eps, None).value, s) <==> Reads(Tokens(rs), s, false)
  {
    hide Matches, Reads, Tokens, Parse, Written, Build, MatchesThen;
    var tokens := Tokens(rs);
    ClassesAreClosed(rs);
    ParseUndoesWriting(tokens, Eps, None, None);
    BuildSucceeds(tokens, Eps, None);
    if RangesRunForward(tokens) {
      var re := Parse(Text(tokens), [], Eps, None).value;
      forall s ensures Matches(re, s) <==> Reads(tokens, s, false) {
        BuildKeepsTheLanguage(tokens, Eps, None, s);
        FromNothing(tokens, s);
      }
    }
  }

  /** What is written and what is pending at i lead to the whole text. */
  predicate Emitted(rs: string, i: nat, b: string, prev: string)
    requires i <= |rs|
  {
    && (WellFormedAfter(Tokens(rs[i..]), prev != "") <==> WellFormed(Tokens(rs)))
    && b + Written(Tokens(rs[i..]), prev) == Written(Tokens(rs), "")
  }

  lemma EmitNext(rs: string, i: nat, next: nat, b: string, prev: string, token: Token)
    requires i < next <= |rs| && Emitted(rs, i, b, prev) && Tokens(rs[i..]) == [token] + Tokens(rs[next..])
    requires TokenFits([token], 0, prev != "")
    ensures Emitted(rs, next, b + Piece(token, prev), Fragment(token))
  {
    hide Tokens, WellFormedAfter, Piece, AtomText;
    var tokens, rest := Tokens(rs[i..]), Tokens(rs[next..]);
    assert tokens[1..] == rest;
    WellFormedSplits(tokens, prev != "");
    assert b + (Piece(token, prev) + Written(rest, Fragment(token))) == b + Piece(token, prev) + Written(rest, Fragment(token));
    assert Fragment(token) != "" <==> token.Atom?;
  }

  lemma EmitRefuses(rs: string, i: nat, b: string, prev: string)
    requires i <= |rs| && Emitted(rs, i, b, prev)
    requires Tokens(rs[i..]) != [] && !TokenFits(Tokens(rs[i..])[..1], 0, prev != "")
    ensures !WellFormed(Tokens(rs))
  {
    hide Tokens, WellFormedAfter;
    WellFormedSplits(Tokens(rs[i..]), prev != "");
  }

  /** Writes the regexp, its first anchor aside, and refuses what the dialect itself refuses. */
  method Emit(rs: string) returns (text: Option<string>)
    ensures text.Some? <==> WellFormed(Tokens(rs))
    ensures text.Some? ==> text.value == Text(Tokens(rs))
  {
    hide Tokens, WellFormed, Written, AtomText, Quote, Emitted;
    var b := "";
    var prevAtom := "";
    var i := 0;
    NothingEmitted(rs);
    while i < |rs|
      invariant 0 <= i <= |rs| && Emitted(rs, i, b, prevAtom)
    {
      var c := rs[i];
      ghost var start, written, pending := i, b, prevAtom;
      TokensAt(rs, i);
      match c {
        case '*' =>
          b, prevAtom := b + prevAtom, "";
          if i + 1 < |rs| && rs[i + 1] == '*' {
            i := i + 1;
            b := b + ".*";
            EmitNext(rs, start, i + 1, written, pending, AnyAtAll);
            assert b == written + Piece(AnyAtAll, pending);
          } else {
            b := b + "[^/]*";
            EmitNext(rs, start, i + 1, written, pending, AnyInSegment);
            assert b == written + Piece(AnyInSegment, pending);
          }
        case '?' =>
          if prevAtom == "" {
            EmitRefuses(rs, i, b, prevAtom);
            return None;
          }
          b, prevAtom := b + "(?:" + prevAtom + ")" + [c], "";
          EmitNext(rs, start, i + 1, written, pending, Quantifier(c));
          assert b == written + Piece(Quantifier(c), pending);
        case '+' =>
          if prevAtom == "" {
            EmitRefuses(rs, i, b, prevAtom);
            return None;
          }
          b, prevAtom := b + "(?:" + prevAtom + ")" + [c], "";
          EmitNext(rs, start, i + 1, written, pending, Quantifier(c));
          assert b == written + Piece(Quantifier(c), pending);
        case '[' =>
          b := b + prevAtom;
          var fragment, next := CompileClass(rs, i);
          if fragment.None? {
            EmitRefuses(rs, i, written, pending);
            return None;
          }
          EmitNext(rs, start, next + 1, written, pending, Atom(OneOf(rs[start + 1..next])));
          prevAtom := fragment.value;
          i := next;
        case '\\' =>
          b := b + prevAtom;
          if i + 1 >= |rs| {
            EmitRefuses(rs, i, written, pending);
            return None;
          }
          i := i + 1;
          EmitNext(rs, start, i + 1, written, pending, Atom(Exactly(rs[i])));
          CharacterText(rs[i]);
          prevAtom := Quote(rs[i]);
        case _ =>
          b := b + prevAtom;
          EmitNext(rs, start, i + 1, written, pending, Atom(Exactly(c)));
          CharacterText(c);
          prevAtom := Quote(c);
      }
      i := i + 1;
    }
    AllEmitted(rs, b, prevAtom);
    text := Some(b + prevAtom + "$");
  }

  lemma NothingEmitted(rs: string)
    ensures Emitted(rs, 0, "", "")
  {
    assert rs[0..] == rs;
  }

  lemma AllEmitted(rs: string, b: string, prev: string)
    requires Emitted(rs, |rs|, b, prev)
    ensures WellFormed(Tokens(rs)) && b + prev == Written(Tokens(rs), "")
  {
    NoMoreTokens(rs);
  }

  lemma CharacterText(c: char)
    ensures AtomText(Exactly(c)) == Quote(c)
  {
  }

  lemma NoMoreTokens(rs: string)
    ensures Tokens(rs[|rs|..]) == []
  {
  }

  /** The first token from i on, except for a class. */
  lemma TokensAt(rs: string, i: nat)
    requires i < |rs|
    ensures Tokens(rs[i..]) != []
    ensures rs[i] == '*' ==>
      Tokens(rs[i..]) ==
      if i + 1 < |rs| && rs[i + 1] == '*' then [AnyAtAll] + Tokens(rs[i + 2..]) else [AnyInSegment] + Tokens(rs[i + 1..])
    ensures rs[i] == '?' || rs[i] == '+' ==> Tokens(rs[i..]) == [Quantifier(rs[i])] + Tokens(rs[i + 1..])
    ensures rs[i] == '\\' ==>
      Tokens(rs[i..]) == if i + 1 == |rs| then [Unfinished] else [Atom(Exactly(rs[i + 1]))] + Tokens(rs[i + 2..])
    ensures rs[i] !in ['*', '?', '+', '[', '\\'] ==> Tokens(rs[i..]) == [Atom(Exactly(rs[i]))] + Tokens(rs[i + 1..])
  {
    var body := rs[i..];
    assert body[1..] == rs[i + 1..];
    if i + 1 < |rs| {
      assert body[1] == rs[i + 1] && body[2..] == rs[i + 2..];
    }
  }

  /** The class that starts at an opening bracket, and the place of its closing one. */
  method CompileClass(rs: string, start: nat) returns (fragment: Option<string>, next: nat)
    requires start < |rs| && rs[start] == '['
    ensures fragment.Some? ==>
      && start < next < |rs| && Tokens(rs[start..]) == [Atom(OneOf(rs[start + 1..next]))] + Tokens(rs[next + 1..])
      && fragment.value == AtomText(OneOf(rs[start + 1..next])) && fragment.value != ""
    ensures fragment.None? ==> Tokens(rs[start..]) == [Unfinished]
  {
    hide Tokens, Quote, QuoteAll;
    var b := "[";
    var i := start + 1;
    assert QuoteAll(rs[start + 1..i]) == "" by {
      assert rs[start + 1..i] == "";
      NothingQuoted();
    }
    if i < |rs| && rs[i] == '!' {
      QuoteNext(rs, start + 1, i);
      b := b + Quote('!');
      i := i + 1;
    }
    while i < |rs| && rs[i] != ']'
      invariant start < i <= |rs| && forall k :: start < k < i ==> rs[k] != ']'
      invariant b == "[" + QuoteAll(rs[start + 1..i])
    {
      QuoteNext(rs, start + 1, i);
      if rs[i] == '-' {
        PlainDash();
        b := b + "-";
      } else {
        b := b + Quote(rs[i]);
      }
      i := i + 1;
    }
    ClassTokens(rs, start, i);
    if i == |rs| {
      return None, i;
    }
    return Some(b + "]"), i;
  }

  lemma NothingQuoted()
    ensures QuoteAll("") == ""
  {
  }

  lemma PlainDash()
    ensures Quote('-') == "-"
  {
  }

  lemma QuoteNext(rs: string, a: nat, i: nat)
    requires a <= i < |rs|
    ensures QuoteAll(rs[a..i + 1]) == QuoteAll(rs[a..i]) + Quote(rs[i])
  {
    assert rs[a..i + 1] == rs[a..i] + [rs[i]];
    QuoteAllAppend(rs[a..i], rs[i]);
  }

  lemma ClassTokens(rs: string, start: nat, i: nat)
    requires start < i <= |rs| && rs[start] == '[' && (i < |rs| ==> rs[i] == ']')
    requires forall k :: start < k < i ==> rs[k] != ']'
    ensures i == |rs| ==> Tokens(rs[start..]) == [Unfinished]
    ensures i < |rs| ==> Tokens(rs[start..]) == [Atom(OneOf(rs[start + 1..i]))] + Tokens(rs[i + 1..])
  {
    var body := rs[start..];
    var j := ClosingAt(body, 1);
    assert forall k :: 0 <= k < |body| ==> body[k] == rs[start + k];
    assert j == i - start;
    if i < |rs| {
      assert body[1..j] == rs[start + 1..i] && body[j + 1..] == rs[i + 1..];
    }
  }

  // --------------------------------------------------- The compiler is right

  function Flushed(b: Regex, prev: Option<CharSet>): Regex {
    if prev.Some? then Cat(b, One(prev.value)) else b
  }

  /** The regexp the tokens mean, after b and the atom still pending. */
  function Build(tokens: seq<Token>, b: Regex, prev: Option<CharSet>): Option<Regex>
    decreases |tokens|
  {
    if tokens == [] then Some(Flushed(b, prev))
    else
      match tokens[0]
      case AnyInSegment => Build(tokens[1..], Cat(Flushed(b, prev), Star(One(NotSlash))), None)
      case AnyAtAll => Build(tokens[1..], Cat(Flushed(b, prev), Star(One(NotNewline))), None)
      case Quantifier(c) =>
        if prev.None? then None
        else Build(tokens[1..], Cat(b, if c == '?' then Opt(One(prev.value)) else Plus(One(prev.value))), None)
      case Atom(cs) => Build(tokens[1..], Flushed(b, prev), Some(cs))
      case Unfinished => None
  }

  /** What the classes of a pattern are like: none holds a closing bracket. */
  predicate Closed(cs: CharSet) {
    cs.Exactly? || (cs.OneOf? && ']' !in cs.content)
  }

  predicate AllClosed(tokens: seq<Token>) {
    forall k :: 0 <= k < |tokens| ==>
      && (tokens[k].Atom? ==> Closed(tokens[k].cs))
      && (tokens[k].Quantifier? ==> tokens[k].c == '?' || tokens[k].c == '+')
  }

  lemma {:induction false} ClassesAreClosed(body: string)
    ensures AllClosed(Tokens(body))
    decreases |body|
  {
    hide ClosingAt;
    if body != [] {
      if |body| > 1 {
        ClassesAreClosed(body[2..]);
      }
      ClassesAreClosed(body[1..]);
      if body[0] == '[' && ClosingAt(body, 1) < |body| {
        ClassesAreClosed(body[ClosingAt(body, 1) + 1..]);
      }
    }
  }

  lemma {:induction false} ReadClassUndoesQuoting(content: string, rest: string, first: bool)
    requires ']' !in content && (first ==> content != "")
    ensures ReadClass(QuoteAll(content) + "]" + rest, first) == Some((content, rest))
    decreases |content|
  {
    var t := QuoteAll(content) + "]" + rest;
    if content == "" {
      assert t[0] == ']' && t[1..] == rest;
    } else {
      var more := QuoteAll(content[1..]) + "]" + rest;
      assert t == Quote(content[0]) + more;
      assert t[|Quote(content[0])|..] == more;
      ReadClassUndoesQuoting(content[1..], rest, false);
      assert [content[0]] + content[1..] == content;
    }
  }

  lemma ParseCharacter(c: char, rest: string, stack: seq<Regex>, b: Regex, last: Option<Regex>)
    ensures Parse(Quote(c) + rest, stack, b, last) == Parse(rest, stack, Joined(b, last), Some(One(Exactly(c))))
  {
    var t := Quote(c) + rest;
    assert t[|Quote(c)|..] == rest;
  }

  lemma ParseClass(content: string, rest: string, stack: seq<Regex>, b: Regex, last: Option<Regex>)
    requires ']' !in content && content != ""
    ensures Parse("[" + QuoteAll(content) + "]" + rest, stack, b, last) ==
      if Ranges(content).Some? then Parse(rest, stack, Joined(b, last), Some(One(OneOf(content)))) else None
  {
    hide Ranges;
    var body := QuoteAll(content) + "]" + rest;
    var t := "[" + QuoteAll(content) + "]" + rest;
    assert t == "[" + body && t[1..] == body;
    StartsQuoted(content);
    assert body[0] == QuoteAll(content)[0];
    ReadClassUndoesQuoting(content, rest, true);
    hide ReadClass, QuoteAll, Quote, Special;
  }

  lemma StartsQuoted(content: string)
    requires content != ""
    ensures QuoteAll(content) != "" && QuoteAll(content)[0] != '^'
  {
  }

  /** An atom is read back whole, whatever follows. */
  lemma ParseAtom(cs: CharSet, rest: string, stack: seq<Regex>, b: Regex, last: Option<Regex>)
    requires Closed(cs) && cs != OneOf("")
    ensures Parse(AtomText(cs) + rest, stack, b, last) ==
      if Readable(cs) then Parse(rest, stack, Joined(b, last), Some(One(cs))) else None
  {
    hide Ranges, Parse, Quote, QuoteAll;
    if cs.Exactly? {
      ParseCharacter(cs.c, rest, stack, b, last);
    } else {
      ParseClass(cs.content, rest, stack, b, last);
    }
  }

  /** One character more at the front of a class, an escape aside. */
  lemma ReadPlain(t: string, first: bool, content: string, after: string)
    requires t != "" && t[0] != '\\' && (t[0] == ']' ==> first) && ReadClass(t[1..], false) == Some((content, after))
    ensures ReadClass(t, first) == Some(([t[0]] + content, after))
  {
  }

  lemma ParseStar(any: bool, rest: string, b: Regex, last: Option<Regex>)
    ensures Parse((if any then ".*" else "[^/]*") + rest, [], b, last) ==
      Parse(rest, [], Cat(Joined(b, last), Star(One(if any then NotNewline else NotSlash))), None)
  {
    if any {
      var t := ".*" + rest;
      assert t[1..] == "*" + rest && ("*" + rest)[1..] == rest;
    } else {
      var t := "[^/]*" + rest;
      var star := "*" + rest;
      assert t[2..] == "/]*" + rest && ("/]*" + rest)[1..] == "]*" + rest && ("]*" + rest)[1..] == star;
      assert ReadClass("]*" + rest, false) == Some(("", star));
      ReadPlain("/]*" + rest, true, "", star);
      assert ['/'] + "" == "/";
      assert ReadClass("/]*" + rest, true) == Some(("/", star));
      assert Ranges("/").Some?;
      assert star[1..] == rest;
    }
  }

  lemma ParseGroup(cs: CharSet, c: char, rest: string, b: Regex, last: Option<Regex>)
    requires Closed(cs) && cs != OneOf("") && (c == '?' || c == '+')
    ensures Parse("(?:" + AtomText(cs) + ")" + [c] + rest, [], b, last) ==
      if Readable(cs) then Parse(rest, [], Cat(Joined(b, last), if c == '?' then Opt(One(cs)) else Plus(One(cs))), None)
      else None
  {
    hide Ranges, AtomText, Readable;
    var tail := ")" + [c] + rest;
    var t := "(?:" + AtomText(cs) + ")" + [c] + rest;
    assert t[3..] == AtomText(cs) + tail;
    ParseAtom(cs, tail, [Joined(b, last)], Eps, None);
    assert [] + [Joined(b, last)] == [Joined(b, last)];
    assert tail[1..] == [c] + rest && ([c] + rest)[1..] == rest;
    assert [Joined(b, last)][..0] == [];
  }

  function TextOf(prev: Option<CharSet>): string {
    if prev.Some? then AtomText(prev.value) else ""
  }

  function AsRegex(prev: Option<CharSet>): Option<Regex> {
    if prev.Some? then Some(One(prev.value)) else None
  }

  /** Where the pending atom leaves the parser: what is read and what may be repeated. */
  function After(b: Regex, last: Option<CharSet>, prev: Option<CharSet>): (Regex, Option<CharSet>) {
    if prev.Some? then (Flushed(b, last), prev) else (b, last)
  }

  predicate Pendable(prev: Option<CharSet>) {
    prev.Some? ==> Closed(prev.value) && prev.value != OneOf("")
  }

  lemma ParsePending(prev: Option<CharSet>, rest: string, b: Regex, last: Option<CharSet>)
    requires Pendable(prev)
    ensures Parse(TextOf(prev) + rest, [], b, AsRegex(last)) ==
      if prev.Some? ==> Readable(prev.value) then Parse(rest, [], After(b, last, prev).0, AsRegex(After(b, last, prev).1)) else None
  {
    hide Parse, Readable, AtomText;
    if prev.Some? {
      ParseAtom(prev.value, rest, [], b, AsRegex(last));
    } else {
      assert TextOf(prev) + rest == rest;
    }
  }

  lemma RangesSplit(tokens: seq<Token>)
    requires tokens != []
    ensures RangesRunForward(tokens) <==> RangesRunForward(tokens[1..]) && (tokens[0].Atom? ==> Readable(tokens[0].cs))
    ensures AllClosed(tokens) ==> AllClosed(tokens[1..])
    ensures !HasEmptyClass(tokens) ==> !HasEmptyClass(tokens[1..])
  {
    hide Readable, Closed;
    var rest := tokens[1..];
    assert forall k :: 0 <= k < |rest| ==> rest[k] == tokens[k + 1];
    if RangesRunForward(rest) && (tokens[0].Atom? ==> Readable(tokens[0].cs)) {
      forall k | 0 <= k < |tokens| && tokens[k].Atom? ensures Readable(tokens[k].cs) {
        if k > 0 {
          assert rest[k - 1] == tokens[k];
        }
      }
    }
  }

  /** Reading back what is written for well-formed tokens gives the regexp they mean, and
      fails exactly at a range that runs backwards. last is read already, prev not. */
  lemma {:induction false} ParseUndoesWriting(tokens: seq<Token>, b: Regex, last: Option<CharSet>, prev: Option<CharSet>)
    requires WellFormedAfter(tokens, prev.Some?) && AllClosed(tokens) && !HasEmptyClass(tokens) && Pendable(prev)
    ensures Parse(Written(tokens, TextOf(prev)) + "$", [], b, AsRegex(last)) ==
      if RangesRunForward(tokens) && (prev.Some? ==> Readable(prev.value)) then Build(tokens, Flushed(b, last), prev) else None
    decreases |tokens|
  {
    hide AtomText, Readable, WellFormedAfter, Parse, RangesRunForward, AllClosed, HasEmptyClass;
    var (b1, last1) := After(b, last, prev);
    if tokens == [] {
      ParsePending(prev, "$", b, last);
      NoRanges();
      ParseEnd(b1, last1);
    } else {
      var rest := tokens[1..];
      WellFormedSplits(tokens, prev.Some?);
      RangesSplit(tokens);
      FirstOfAll(tokens);
      match tokens[0] {
        case AnyInSegment => StarIsReadBack(false, tokens, b, last, prev);
        case AnyAtAll => StarIsReadBack(true, tokens, b, last, prev);
        case Quantifier(c) =>
          var tail := Written(rest, "") + "$";
          var r := if c == '?' then Opt(One(prev.value)) else Plus(One(prev.value));
          ParseGroup(prev.value, c, tail, b, AsRegex(last));
          assert Written(tokens, TextOf(prev)) + "$" == "(?:" + AtomText(prev.value) + ")" + [c] + tail;
          ParseUndoesWriting(rest, Cat(Flushed(b, last), r), None, None);
        case Atom(cs) =>
          var tail := Written(rest, AtomText(cs)) + "$";
          assert Written(tokens, TextOf(prev)) + "$" == TextOf(prev) + tail;
          ParsePending(prev, tail, b, last);
          ParseUndoesWriting(rest, b1, last1, Some(cs));
      }
    }
  }

  lemma StarIsReadBack(any: bool, tokens: seq<Token>, b: Regex, last: Option<CharSet>, prev: Option<CharSet>)
    requires tokens != [] && tokens[0] == (if any then AnyAtAll else AnyInSegment)
    requires WellFormedAfter(tokens[1..], false) && AllClosed(tokens) && !HasEmptyClass(tokens) && Pendable(prev)
    ensures Parse(Written(tokens, TextOf(prev)) + "$", [], b, AsRegex(last)) ==
      if RangesRunForward(tokens) && (prev.Some? ==> Readable(prev.value)) then Build(tokens, Flushed(b, last), prev) else None
    decreases |tokens|, 0
  {
    hide AtomText, Readable, WellFormedAfter, Parse, RangesRunForward, AllClosed, HasEmptyClass;
    var (b1, last1) := After(b, last, prev);
    var rest := tokens[1..];
    RangesSplit(tokens);
    var star, tail := if any then ".*" else "[^/]*", Written(rest, "") + "$";
    assert Written(tokens, TextOf(prev)) + "$" == TextOf(prev) + (star + tail);
    ParsePending(prev, star + tail, b, last);
    ParseStar(any, tail, b1, AsRegex(last1));
    ParseUndoesWriting(rest, Cat(Flushed(b1, last1), Star(One(if any then NotNewline else NotSlash))), None, None);
  }

  lemma NoRanges()
    ensures RangesRunForward([])
  {
  }

  lemma ParseEnd(b: Regex, last: Option<CharSet>)
    ensures Parse("$", [], b, AsRegex(last)) == Some(Flushed(b, last))
  {
  }

  lemma FirstOfAll(tokens: seq<Token>)
    requires tokens != []
    ensures AllClosed(tokens) ==> (tokens[0].Atom? ==> Closed(tokens[0].cs))
    ensures AllClosed(tokens) ==> (tokens[0].Quantifier? ==> tokens[0].c == '?' || tokens[0].c == '+')
    ensures !HasEmptyClass(tokens) ==> tokens[0] != Atom(OneOf(""))
  {
  }

  /** What an empty class does: written as it stands, it takes in everything up to the bracket
      that was to close the next class. To the dialect it has no character to choose. */
  lemma EmptyClassesSwallowWhatFollows(s: string)
    ensures Tokens("[]a[b]") == [Atom(OneOf("")), Atom(Exactly('a')), Atom(OneOf("b"))]
    ensures Text(Tokens("[]a[b]")) == "[]a[b]$"
    ensures Parse("[]a[b]$", [], Eps, None) == Some(Cat(Eps, One(OneOf("]a[b"))))
    ensures Matches(Cat(Eps, One(OneOf("]a[b"))), s) <==> |s| == 1 && s[0] in "]a[b"
    ensures !Reads(Tokens("[]a[b]"), s, false)
  {
    EmptyClassTokens();
    EmptyClassText();
    EmptyClassParse();
    EmptyClassMatches(s);
  }

  lemma EmptyClassTokens()
    ensures Tokens("[]a[b]") == [Atom(OneOf("")), Atom(Exactly('a')), Atom(OneOf("b"))]
  {
    var p := "[]a[b]";
    assert ClosingAt(p, 1) == 1;
    assert p[1..1] == "" && p[2..] == "a[b]" && "a[b]"[1..] == "[b]";
    var q := "[b]";
    assert ClosingAt(q, 1) == 2 && q[1..2] == "b" && q[3..] == "";
    assert Tokens(q) == [Atom(OneOf("b"))];
    assert Tokens("a[b]") == [Atom(Exactly('a')), Atom(OneOf("b"))];
  }

  lemma EmptyClassText()
    ensures Text([Atom(OneOf("")), Atom(Exactly('a')), Atom(OneOf("b"))]) == "[]a[b]$"
  {
    var tokens := [Atom(OneOf("")), Atom(Exactly('a')), Atom(OneOf("b"))];
    assert QuoteAll("b") == "b";
    assert AtomText(OneOf("")) == "[]" && AtomText(OneOf("b")) == "[b]" && AtomText(Exactly('a')) == "a";
    assert tokens[1..][1..] == [Atom(OneOf("b"))] && tokens[1..][1..][1..] == [];
    assert Written(tokens[1..][1..], "a") == "a" + Written([], "[b]");
    assert Written(tokens[1..], "[]") == "[]" + Written(tokens[1..][1..], "a");
    assert Written(tokens, "") == "" + Written(tokens[1..], "[]");
  }

  lemma EmptyClassParse()
    ensures Parse("[]a[b]$", [], Eps, None) == Some(Cat(Eps, One(OneOf("]a[b"))))
  {
    hide ReadClass, Ranges;
    var t := "[]a[b]$";
    SwallowedText();
    SwallowedRanges();
    assert t[1..] == "]a[b]$";
    ParseEnd(Eps, Some(OneOf("]a[b")));
  }

  lemma SwallowedText()
    ensures ReadClass("]a[b]$", true) == Some(("]a[b", "$"))
  {
    ReadAtTheEnd();
    assert "b]$"[1..] == "]$" && ['b'] + "" == "b";
    ReadPlain("b]$", false, "", "$");
    assert "[b]$"[1..] == "b]$" && ['['] + "b" == "[b";
    ReadPlain("[b]$", false, "b", "$");
    assert "a[b]$"[1..] == "[b]$" && ['a'] + "[b" == "a[b";
    ReadPlain("a[b]$", false, "[b", "$");
    assert "]a[b]$"[1..] == "a[b]$" && [']'] + "a[b" == "]a[b";
    ReadPlain("]a[b]$", true, "a[b", "$");
    hide ReadClass;
  }

  lemma ReadAtTheEnd()
    ensures ReadClass("]$", false) == Some(("", "$"))
  {
    assert "]$"[1..] == "$";
  }

  lemma RangesPlain(c: char, content: string, rest: seq<(char, char)>)
    requires |content| < 2 || content[0] != '-'
    requires Ranges(content) == Some(rest)
    ensures Ranges([c] + content) == Some([(c, c)] + rest)
  {
    assert ([c] + content)[1..] == content;
  }

  lemma SwallowedRanges()
    ensures Ranges("]a[b") == Some([(']', ']'), ('a', 'a'), ('[', '['), ('b', 'b')])
  {
    assert ['b'] + "" == "b" && ['['] + "b" == "[b" && ['a'] + "[b" == "a[b" && [']'] + "a[b" == "]a[b";
    RangesPlain('b', "", []);
    assert [('b', 'b')] + [] == [('b', 'b')];
    RangesPlain('[', "b", [('b', 'b')]);
    assert [('[', '[')] + [('b', 'b')] == [('[', '['), ('b', 'b')];
    RangesPlain('a', "[b", [('[', '['), ('b', 'b')]);
    assert [('a', 'a')] + [('[', '['), ('b', 'b')] == [('a', 'a'), ('[', '['), ('b', 'b')];
    RangesPlain(']', "a[b", [('a', 'a'), ('[', '['), ('b', 'b')]);
    assert [(']', ']')] + [('a', 'a'), ('[', '['), ('b', 'b')] == [(']', ']'), ('a', 'a'), ('[', '['), ('b', 'b')];
  }

  lemma InSwallowed(c: char)
    ensures In(c, OneOf("]a[b")) <==> c in "]a[b"
  {
    SwallowedRanges();
    var rs := Ranges("]a[b").value;
    assert rs[0] == (']', ']') && rs[1] == ('a', 'a') && rs[2] == ('[', '[') && rs[3] == ('b', 'b');
    hide Ranges;
    if c in "]a[b" {
      var k :| 0 <= k < 4 && "]a[b"[k] == c;
      assert rs[k].0 <= c <= rs[k].1;
    }
    if In(c, OneOf("]a[b")) {
      var k :| 0 <= k < 4 && rs[k].0 <= c <= rs[k].1;
      assert c == "]a[b"[k];
    }
  }

  lemma EmptyClassMatches(s: string)
    ensures Matches(Cat(Eps, One(OneOf("]a[b"))), s) <==> |s| == 1 && s[0] in "]a[b"
    ensures !Reads([Atom(OneOf("")), Atom(Exactly('a')), Atom(OneOf("b"))], s, false)
  {
    AloneInACat(OneOf("]a[b"), s);
    hide Matches, In;
    if |s| == 1 {
      InSwallowed(s[0]);
    }
    NothingInTheEmptyClass(s);
  }

  lemma AloneInACat(cs: CharSet, s: string)
    ensures Matches(Cat(Eps, One(cs)), s) <==> |s| == 1 && In(s[0], cs)
  {
    hide In;
    assert s[..0] == "" && s[0..] == s;
    assert Matches(Eps, s[..0]);
    assert Matches(Cat(Eps, One(cs)), s) <==> Matches(One(cs), s);
  }

  lemma NothingInTheEmptyClass(s: string)
    ensures !Reads([Atom(OneOf("")), Atom(Exactly('a')), Atom(OneOf("b"))], s, false)
  {
  }

  lemma WellFormedSplits(tokens: seq<Token>, atom: bool)
    requires tokens != []
    ensures WellFormedAfter(tokens, atom) <==> TokenFits(tokens, 0, atom) && WellFormedAfter(tokens[1..], tokens[0].Atom?)
  {
    hide TokenFits;
    var rest := tokens[1..];
    forall k | 0 <= k < |rest| ensures TokenFits(rest, k, tokens[0].Atom?) <==> TokenFits(tokens, k + 1, atom) {
      LaterToken(tokens, k, atom);
    }
    if TokenFits(tokens, 0, atom) && WellFormedAfter(rest, tokens[0].Atom?) {
      forall k | 0 <= k < |tokens| ensures TokenFits(tokens, k, atom) {
        if k > 0 {
          assert TokenFits(rest, k - 1, tokens[0].Atom?);
        }
      }
    }
    if WellFormedAfter(tokens, atom) {
      forall k | 0 <= k < |rest| ensures TokenFits(rest, k, tokens[0].Atom?) {
        assert TokenFits(tokens, k + 1, atom);
      }
    }
  }

  lemma LaterToken(tokens: seq<Token>, k: nat, atom: bool)
    requires k + 1 < |tokens|
    ensures TokenFits(tokens[1..], k, tokens[0].Atom?) <==> TokenFits(tokens, k + 1, atom)
  {
  }

  lemma {:induction false} BuildSucceeds(tokens: seq<Token>, b: Regex, prev: Option<CharSet>)
    ensures Build(tokens, b, prev).Some? <==> WellFormedAfter(tokens, prev.Some?)
    decreases |tokens|
  {
    hide WellFormedAfter;
    if tokens == [] {
      NoTokens(prev.Some?);
    } else {
      WellFormedSplits(tokens, prev.Some?);
      match tokens[0] {
        case AnyInSegment => BuildSucceeds(tokens[1..], Cat(Flushed(b, prev), Star(One(NotSlash))), None);
        case AnyAtAll => BuildSucceeds(tokens[1..], Cat(Flushed(b, prev), Star(One(NotNewline))), None);
        case Quantifier(c) =>
          if prev.Some? {
            BuildSucceeds(tokens[1..], Cat(b, if c == '?' then Opt(One(prev.value)) else Plus(One(prev.value))), None);
          }
        case Atom(cs) => BuildSucceeds(tokens[1..], Flushed(b, prev), Some(cs));
        case Unfinished =>
      }
    }
  }

  lemma NoTokens(atom: bool)
    ensures WellFormedAfter([], atom)
  {
  }

  /** A first part in the language of b, the rest read as the tokens say. */
  predicate MatchesThen(b: Regex, tokens: seq<Token>, s: string) {
    exists i :: 0 <= i <= |s| && Matches(b, s[..i]) && Reads(tokens, s[i..], false)
  }

  /** The tokens read what r matches and then the rest. */
  ghost predicate Peels(all: seq<Token>, r: Regex, rest: seq<Token>) {
    forall t :: Reads(all, t, false) <==> MatchesThen(r, rest, t)
  }

  lemma Shift(b: Regex, all: seq<Token>, r: Regex, rest: seq<Token>, s: string)
    requires Peels(all, r, rest)
    ensures MatchesThen(b, all, s) <==> MatchesThen(Cat(b, r), rest, s)
  {
    hide Reads, Peels, Matches, MatchesThen;
    if MatchesThen(b, all, s) {
      ShiftOn(b, all, r, rest, s);
    }
    if MatchesThen(Cat(b, r), rest, s) {
      ShiftBack(b, all, r, rest, s);
    }
  }

  lemma ShiftOn(b: Regex, all: seq<Token>, r: Regex, rest: seq<Token>, s: string)
    requires Peels(all, r, rest) && MatchesThen(b, all, s)
    ensures MatchesThen(Cat(b, r), rest, s)
  {
    hide Reads, Matches;
    var i :| 0 <= i <= |s| && Matches(b, s[..i]) && Reads(all, s[i..], false);
    var tail := s[i..];
    assert MatchesThen(r, rest, tail);
    var j :| 0 <= j <= |tail| && Matches(r, tail[..j]) && Reads(rest, tail[j..], false);
    SlicesMeet(s, i, i + j);
    CatMatches(b, r, s[..i + j], i);
    assert tail[j..] == s[i + j..];
  }

  lemma CatMatches(b: Regex, r: Regex, s: string, i: nat)
    requires i <= |s| && Matches(b, s[..i]) && Matches(r, s[i..])
    ensures Matches(Cat(b, r), s)
  {
  }

  lemma CatSplits(b: Regex, r: Regex, s: string) returns (i: nat)
    requires Matches(Cat(b, r), s)
    ensures i <= |s| && Matches(b, s[..i]) && Matches(r, s[i..])
  {
    i :| 0 <= i <= |s| && Matches(b, s[..i]) && Matches(r, s[i..]);
  }

  lemma SlicesMeet(s: string, i: nat, k: nat)
    requires i <= k <= |s|
    ensures s[i..][..k - i] == s[..k][i..] && s[i..][k - i..] == s[k..] && s[..k][..i] == s[..i]
  {
  }

  lemma ShiftBack(b: Regex, all: seq<Token>, r: Regex, rest: seq<Token>, s: string)
    requires Peels(all, r, rest) && MatchesThen(Cat(b, r), rest, s)
    ensures MatchesThen(b, all, s)
  {
    hide Reads, Matches;
    var k :| 0 <= k <= |s| && Matches(Cat(b, r), s[..k]) && Reads(rest, s[k..], false);
    var i := CatSplits(b, r, s[..k]);
    SlicesMeet(s, i, k);
    var tail := s[i..];
    assert Matches(r, tail[..k - i]) && Reads(rest, tail[k - i..], false);
    assert MatchesThen(r, rest, tail);
  }

  lemma {:induction false} StarOfASet(cs: CharSet, s: string)
    ensures Matches(Star(One(cs)), s) <==> AllIn(s, cs)
    decreases |s|
  {
    hide In;
    if s != [] {
      StarOfASet(cs, s[1..]);
      if AllIn(s, cs) {
        assert In(s[0], cs) && AllIn(s[1..], cs);
        assert Matches(One(cs), s[..1]);
      }
      if Matches(Star(One(cs)), s) {
        var i :| 0 < i <= |s| && Matches(One(cs), s[..i]) && Matches(Star(One(cs)), s[i..]);
        assert i == 1 && s[..1][0] == s[0];
        forall k | 0 <= k < |s| ensures In(s[k], cs) {
          if k > 0 {
            assert s[1..][k - 1] == s[k];
          }
        }
      }
    }
  }

  lemma PlusOfASet(cs: CharSet, s: string)
    ensures Matches(Plus(One(cs)), s) <==> s != [] && AllIn(s, cs)
  {
    hide In;
    if s != [] && AllIn(s, cs) {
      StarOfASet(cs, s[1..]);
      assert In(s[0], cs);
      assert Matches(One(cs), s[..1]) && Matches(Star(One(cs)), s[1..]);
    }
    if Matches(Plus(One(cs)), s) {
      var i :| 0 <= i <= |s| && Matches(One(cs), s[..i]) && Matches(Star(One(cs)), s[i..]);
      assert i == 1 && s[..1][0] == s[0];
      StarOfASet(cs, s[1..]);
      forall k | 0 <= k < |s| ensures In(s[k], cs) {
        if k > 0 {
          assert s[1..][k - 1] == s[k];
        }
      }
    }
  }

  lemma PeelStar(token: Token, rest: seq<Token>)
    requires token == AnyInSegment || token == AnyAtAll
    ensures Peels([token] + rest, Star(One(if token == AnyAtAll then NotNewline else NotSlash)), rest)
  {
    var all, cs := [token] + rest, if token == AnyAtAll then NotNewline else NotSlash;
    assert all[1..] == rest;
    forall t ensures Reads(all, t, false) <==> MatchesThen(Star(One(cs)), rest, t) {
      StarsEverywhere(cs, t);
    }
  }

  lemma StarsEverywhere(cs: CharSet, t: string)
    ensures forall i :: 0 <= i <= |t| ==> (Matches(Star(One(cs)), t[..i]) <==> AllIn(t[..i], cs))
  {
    forall i | 0 <= i <= |t| ensures Matches(Star(One(cs)), t[..i]) <==> AllIn(t[..i], cs) {
      StarOfASet(cs, t[..i]);
    }
  }

  lemma PeelAtom(cs: CharSet, rest: seq<Token>)
    requires rest != [] ==> !rest[0].Quantifier?
    ensures Peels([Atom(cs)] + rest, One(cs), rest)
  {
    hide In;
    var all := [Atom(cs)] + rest;
    assert all[1..] == rest && (|all| > 1 ==> all[1] == rest[0]);
    forall t ensures Reads(all, t, false) <==> MatchesThen(One(cs), rest, t) {
      if Reads(all, t, false) {
        assert Matches(One(cs), t[..1]);
      }
    }
  }

  lemma PeelOpt(cs: CharSet, rest: seq<Token>)
    ensures Peels([Atom(cs), Quantifier('?')] + rest, Opt(One(cs)), rest)
  {
    hide In;
    var all := [Atom(cs), Quantifier('?')] + rest;
    assert all[2..] == rest && all[1] == Quantifier('?');
    forall t ensures Reads(all, t, false) <==> MatchesThen(Opt(One(cs)), rest, t) {
      if Reads(rest, t, false) {
        assert t[..0] == [] && t[0..] == t;
        assert Matches(Opt(One(cs)), t[..0]);
      }
      if t != [] && In(t[0], cs) && Reads(rest, t[1..], false) {
        assert Matches(One(cs), t[..1]);
        assert Matches(Opt(One(cs)), t[..1]);
      }
      if MatchesThen(Opt(One(cs)), rest, t) {
        var i :| 0 <= i <= |t| && Matches(Opt(One(cs)), t[..i]) && Reads(rest, t[i..], false);
        if i == 0 {
          assert t[0..] == t;
        } else {
          assert t[..i] != [] && Matches(One(cs), t[..i]);
          assert |t[..i]| == 1 && t[..1][0] == t[0];
        }
      }
    }
  }

  lemma PeelPlus(cs: CharSet, c: char, rest: seq<Token>)
    requires c != '?'
    ensures Peels([Atom(cs), Quantifier(c)] + rest, Plus(One(cs)), rest)
  {
    hide In;
    var all := [Atom(cs), Quantifier(c)] + rest;
    assert all[2..] == rest && all[1] == Quantifier(c);
    forall t ensures Reads(all, t, false) <==> MatchesThen(Plus(One(cs)), rest, t) {
      PlusesEverywhere(cs, t);
    }
  }

  lemma PlusesEverywhere(cs: CharSet, t: string)
    ensures forall i :: 0 <= i <= |t| ==> (Matches(Plus(One(cs)), t[..i]) <==> 0 < i && AllIn(t[..i], cs))
  {
    forall i | 0 <= i <= |t| ensures Matches(Plus(One(cs)), t[..i]) <==> 0 < i && AllIn(t[..i], cs) {
      PlusOfASet(cs, t[..i]);
    }
  }

  function Pending(prev: Option<CharSet>): seq<Token> {
    if prev.Some? then [Atom(prev.value)] else []
  }

  lemma FlushingReads(b: Regex, prev: Option<CharSet>, tokens: seq<Token>, s: string)
    requires tokens != [] ==> !tokens[0].Quantifier?
    ensures MatchesThen(b, Pending(prev) + tokens, s) <==> MatchesThen(Flushed(b, prev), tokens, s)
  {
    hide Matches, Reads, MatchesThen;
    if prev.Some? {
      PeelAtom(prev.value, tokens);
      Shift(b, Pending(prev) + tokens, One(prev.value), tokens, s);
    } else {
      assert Pending(prev) + tokens == tokens;
    }
  }

  /** What is built matches what the builder already matched, then what is left to read. */
  lemma {:induction false} BuildKeepsTheLanguage(tokens: seq<Token>, b: Regex, prev: Option<CharSet>, s: string)
    requires Build(tokens, b, prev).Some?
    ensures Matches(Build(tokens, b, prev).value, s) <==> MatchesThen(b, Pending(prev) + tokens, s)
    decreases |tokens|
  {
    hide Matches, Reads, MatchesThen, Peels;
    if tokens == [] {
      FlushingReads(b, prev, tokens, s);
      ReadsNothing(Flushed(b, prev), s);
    } else {
      var rest := tokens[1..];
      assert tokens == [tokens[0]] + rest;
      match tokens[0] {
        case AnyInSegment =>
          FlushingReads(b, prev, tokens, s);
          PeelStar(AnyInSegment, rest);
          Shift(Flushed(b, prev), tokens, Star(One(NotSlash)), rest, s);
          BuildKeepsTheLanguage(rest, Cat(Flushed(b, prev), Star(One(NotSlash))), None, s);
          assert Pending(None) + rest == rest;
        case AnyAtAll =>
          FlushingReads(b, prev, tokens, s);
          PeelStar(AnyAtAll, rest);
          Shift(Flushed(b, prev), tokens, Star(One(NotNewline)), rest, s);
          BuildKeepsTheLanguage(rest, Cat(Flushed(b, prev), Star(One(NotNewline))), None, s);
          assert Pending(None) + rest == rest;
        case Quantifier(c) =>
          var r := if c == '?' then Opt(One(prev.value)) else Plus(One(prev.value));
          var all := [Atom(prev.value), Quantifier(c)] + rest;
          assert Pending(prev) + tokens == all;
          if c == '?' {
            PeelOpt(prev.value, rest);
          } else {
            PeelPlus(prev.value, c, rest);
          }
          Shift(b, all, r, rest, s);
          BuildKeepsTheLanguage(rest, Cat(b, r), None, s);
          assert Pending(None) + rest == rest;
        case Atom(cs) =>
          FlushingReads(b, prev, tokens, s);
          BuildKeepsTheLanguage(rest, Flushed(b, prev), Some(cs), s);
      }
    }
  }

  lemma ReadsNothing(b: Regex, s: string)
    ensures MatchesThen(b, [], s) <==> Matches(b, s)
  {
    if Matches(b, s) {
      assert s[..|s|] == s;
    }
    if MatchesThen(b, [], s) {
      var i :| 0 <= i <= |s| && Matches(b, s[..i]) && Reads([], s[i..], false);
      assert s[..i] == s;
    }
  }

  lemma FromNothing(tokens: seq<Token>, s: string)
    ensures MatchesThen(Eps, Pending(None) + tokens, s) <==> Reads(tokens, s, false)
  {
    assert Pending(None) + tokens == tokens;
    if Reads(tokens, s, false) {
      assert s[..0] == [] && s[0..] == s;
      assert Matches(Eps, s[..0]);
    }
    if MatchesThen(Eps, tokens, s) {
      var i :| 0 <= i <= |s| && Matches(Eps, s[..i]) && Reads(tokens, s[i..], false);
      assert s[0..] == s;
    }
  }

  // ---------------------------------------------------------------- Line ends

  /** The dialect says ** is any character; the compiled .* stops at a line end. The two
      agree on every string without one, and for every pattern without **. */
  lemma {:induction false} LineEndsOnlyMatterToDoubleStars(tokens: seq<Token>, s: string)
    ensures Reads(tokens, s, false) ==> Reads(tokens, s, true)
    ensures '\n' !in s || AnyAtAll !in tokens ==> (Reads(tokens, s, true) ==> Reads(tokens, s, false))
    decreases |tokens|
  {
    hide In;
    if tokens != [] {
      forall i | 0 <= i <= |s|
        ensures Reads(tokens[1..], s[i..], false) ==> Reads(tokens[1..], s[i..], true)
        ensures '\n' !in s || AnyAtAll !in tokens ==> (Reads(tokens[1..], s[i..], true) ==> Reads(tokens[1..], s[i..], false))
      {
        LineEndsOnlyMatterToDoubleStars(tokens[1..], s[i..]);
      }
      if |tokens| > 1 {
        forall i | 0 <= i <= |s|
          ensures Reads(tokens[2..], s[i..], false) ==> Reads(tokens[2..], s[i..], true)
          ensures '\n' !in s || AnyAtAll !in tokens ==> (Reads(tokens[2..], s[i..], true) ==> Reads(tokens[2..], s[i..], false))
        {
          LineEndsOnlyMatterToDoubleStars(tokens[2..], s[i..]);
        }
      }
      assert s[0..] == s;
      if '\n' !in s {
        NoLineEnd(s);
      }
    }
  }

  lemma NoLineEnd(s: string)
    requires '\n' !in s
    ensures forall i :: 0 <= i <= |s| ==> AllIn(s[..i], NotNewline)
  {
  }

  /** The pattern ** selects a lone line end by the dialect and not as compiled. */
  lemma DoubleStarStopsAtALineEnd()
    ensures Tokens("**") == [AnyAtAll]
    ensures Reads([AnyAtAll], "\n", true) && !Reads([AnyAtAll], "\n", false)
  {
    var s := "\n";
    assert Tokens("**") == [AnyAtAll] + Tokens("**"[2..]);
    assert s[..1][0] == '\n';
    assert Reads([AnyAtAll][1..], s[1..], true);
  }

  // ------------------------------------------------------------- Pattern sets

  predicate Usable(gs: seq<Compiled>) {
    forall k :: 0 <= k < |gs| ==> gs[k].Compiled?
  }

  /** A pattern as the rest of the system may use it. */
  ghost predicate CompiledFrom(g: Compiled, pattern: string)
    requires g.Compiled?
  {
    && (g.neg <==> pattern != [] && pattern[0] == '!')
    && Parse(Text(Tokens(Body(pattern))), [], Eps, None) == Some(g.re)
    && (!HasEmptyClass(Tokens(Body(pattern))) ==> forall s :: Matches(g.re, s) <==> Reads(Tokens(Body(pattern)), s, false))
  }

  /** The first bad pattern spoils the list. */
  method CompileGlobs(patterns: seq<string>) returns (gs: Option<seq<Compiled>>)
    ensures gs.None? <==> exists p :: p in patterns && Rejected(p)
    ensures gs.Some? ==> |gs.value| == |patterns| && Usable(gs.value)
    ensures gs.Some? ==> forall k :: 0 <= k < |patterns| ==> CompiledFrom(gs.value[k], patterns[k])
  {
    hide Matches, Reads, WellFormed, Tokens, Parse, Text, HasEmptyClass, RangesRunForward;
    var out := [];
    for i := 0 to |patterns|
      invariant |out| == i && Usable(out)
      invariant forall k :: 0 <= k < i ==> !Rejected(patterns[k]) && CompiledFrom(out[k], patterns[k])
    {
      var g := CompileGlob(patterns[i]);
      if g.Refused? {
        assert patterns[i] in patterns;
        return None;
      }
      assert CompiledFrom(g, patterns[i]);
      out := out + [g];
    }
    gs := Some(out);
  }

  /** k is the last pattern of the list that matches. */
  predicate LastMatch(gs: seq<Compiled>, s: string, k: nat)
    requires Usable(gs) && k < |gs|
  {
    Matches(gs[k].re, s) && forall j :: k < j < |gs| ==> !Matches(gs[j].re, s)
  }

  /** The last pattern that matches decides; where none does, only a list of nothing but
      exceptions selects. */
  method SetMatches(gs: seq<Compiled>, s: string) returns (selected: bool)
    requires Usable(gs)
    ensures gs == [] ==> selected
    ensures forall k :: 0 <= k < |gs| && LastMatch(gs, s, k) ==> (selected <==> !gs[k].neg)
    ensures gs != [] && (forall k :: 0 <= k < |gs| ==> !Matches(gs[k].re, s)) ==>
      (selected <==> forall k :: 0 <= k < |gs| ==> gs[k].neg)
  {
    hide Matches;
    if |gs| == 0 {
      return true;
    }
    var allNegative := true;
    for i := 0 to |gs|
      invariant allNegative <==> forall k :: 0 <= k < i ==> gs[k].neg
    {
      if !gs[i].neg {
        allNegative := false;
        break;
      }
    }
    selected := allNegative;
    for i := 0 to |gs|
      invariant forall k :: 0 <= k < i && Matches(gs[k].re, s) && (forall j :: k < j < i ==> !Matches(gs[j].re, s))
                  ==> (selected <==> !gs[k].neg)
      invariant (forall k :: 0 <= k < i ==> !Matches(gs[k].re, s)) ==> selected == allNegative
    {
      if Matches(gs[i].re, s) {
        selected := !gs[i].neg;
      }
    }
  }

  method SetMatchesAny(gs: seq<Compiled>, candidates: seq<string>) returns (any: bool)
    requires Usable(gs)
    ensures any ==> exists c :: c in candidates && Selects(gs, c)
    ensures !any ==> forall c :: c in candidates ==> !Selects(gs, c)
  {
    hide Matches;
    for i := 0 to |candidates|
      invariant forall j :: 0 <= j < i ==> !Selects(gs, candidates[j])
    {
      var selected := SetMatches(gs, candidates[i]);
      SomeMatchIsLast(gs, candidates[i]);
      if selected {
        assert candidates[i] in candidates;
        return true;
      }
    }
    any := false;
  }

  /** The same decision said without a loop. */
  ghost predicate Selects(gs: seq<Compiled>, s: string)
    requires Usable(gs)
  {
    if exists k :: 0 <= k < |gs| && Matches(gs[k].re, s) then exists k :: 0 <= k < |gs| && LastMatch(gs, s, k) && !gs[k].neg
    else forall k :: 0 <= k < |gs| ==> gs[k].neg
  }

  lemma {:induction false} SomeMatchIsLast(gs: seq<Compiled>, s: string)
    requires Usable(gs)
    ensures (exists k :: 0 <= k < |gs| && Matches(gs[k].re, s)) ==> exists k :: 0 <= k < |gs| && LastMatch(gs, s, k)
    decreases |gs|
  {
    hide Matches;
    if gs != [] {
      var n, rest := |gs| - 1, gs[..|gs| - 1];
      if Matches(gs[n].re, s) {
        assert LastMatch(gs, s, n);
      } else if exists k :: 0 <= k < |gs| && Matches(gs[k].re, s) {
        var k :| 0 <= k < |gs| && Matches(gs[k].re, s);
        assert rest[k] == gs[k];
        SomeMatchIsLast(rest, s);
        var l :| 0 <= l < |rest| && LastMatch(rest, s, l);
        assert forall j :: 0 <= j < n ==> rest[j] == gs[j];
        assert LastMatch(gs, s, l);
      }
    }
  }
}
