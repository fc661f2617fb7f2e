/** The dialect of filter patterns said once more, straight from the text of a pattern, and the
    proof that the pieces the compiler works with mean the same. */
module GlobLaws {
  import opened Model
  import opened Glob

  /** A class has the character: as one of its own, or within one of its ranges. */
  predicate ClassHas(content: string, c: char)
    decreases |content|
  {
    content != "" &&
    if |content| >= 3 && content[1] == '-' then content[0] <= c <= content[2] || ClassHas(content[3..], c)
    else c == content[0] || ClassHas(content[1..], c)
  }

  /** How long the piece at the front of a pattern is: an escape is two characters, a class goes
      to its first closing bracket, and any other character stands for itself. */
  function UnitLength(p: string): (n: nat)
    requires p != ""
    ensures n >= 1
  {
    if p[0] == '\\' then 2 else if p[0] == '[' then ClosingAt(p, 1) + 1 else 1
  }

  /** The piece stands for the character. */
  predicate UnitHas(u: string, c: char)
    requires u != ""
  {
    if u[0] == '\\' then |u| > 1 && c == u[1]
    else if u[0] == '[' then |u| > 1 && ClassHas(u[1..|u| - 1], c)
    else c == u[0]
  }

  predicate Free(t: string, c: char) {
    forall k :: 0 <= k < |t| ==> t[k] != c
  }

  predicate AllOf(t: string, u: string)
    requires u != ""
  {
    forall k :: 0 <= k < |t| ==> UnitHas(u, t[k])
  }

  /** What a pattern selects. A star is any run of characters within a segment, two stars are
      any run within a line, a question mark or a plus makes the piece before it optional or
      repeated, and everything else stands for one character. */
  predicate Selects(p: string, t: string)
    decreases |p|
  {
    if p == "" then t == ""
    else if p[0] == '*' then
      if |p| > 1 && p[1] == '*' then exists i :: 0 <= i <= |t| && Free(t[..i], '\n') && Selects(p[2..], t[i..])
      else exists i :: 0 <= i <= |t| && Free(t[..i], '/') && Selects(p[1..], t[i..])
    else
      var n := UnitLength(p);
      if n > |p| || p[0] == '?' || p[0] == '+' then false
      else if n < |p| && p[n] == '?' then
        Selects(p[n + 1..], t) || (t != "" && UnitHas(p[..n], t[0]) && Selects(p[n + 1..], t[1..]))
      else if n < |p| && p[n] == '+' then
        exists i :: 0 < i <= |t| && AllOf(t[..i], p[..n]) && Selects(p[n + 1..], t[i..])
      else t != "" && UnitHas(p[..n], t[0]) && Selects(p[n..], t[1..])
  }

  /** One range more at the front. */
  lemma OneRangeMore(content: string, rest: string, c: char)
    requires Ranges(content).Some? && Ranges(rest).Some? && Ranges(content).value != []
    requires Ranges(content).value[1..] == Ranges(rest).value
    ensures InRanges(c, content) <==> Ranges(content).value[0].0 <= c <= Ranges(content).value[0].1 || InRanges(c, rest)
  {
    hide Ranges;
    var rs, more := Ranges(content).value, Ranges(rest).value;
    if k :| 0 <= k < |more| && more[k].0 <= c <= more[k].1 {
      assert rs[k + 1] == more[k];
    }
    if k :| 0 <= k < |rs| && rs[k].0 <= c <= rs[k].1 {
      assert k > 0 ==> more[k - 1] == rs[k];
    }
  }

  lemma {:induction false} RangesHave(content: string, c: char)
    requires Ranges(content).Some?
    ensures InRanges(c, content) <==> ClassHas(content, c)
    decreases |content|
  {
    if content != "" {
      var rest := if |content| >= 3 && content[1] == '-' then content[3..] else content[1..];
      RangesHave(rest, c);
      assert Ranges(content).value[1..] == Ranges(rest).value;
      OneRangeMore(content, rest, c);
      hide InRanges;
    }
  }

  /** The set of characters the piece at the front of a pattern stands for. */
  function UnitSet(p: string): CharSet
    requires p != "" && UnitLength(p) <= |p|
  {
    if p[0] == '\\' then Exactly(p[1]) else if p[0] == '[' then OneOf(p[1..UnitLength(p) - 1]) else Exactly(p[0])
  }

  lemma UnitSetHas(p: string, c: char)
    requires p != "" && UnitLength(p) <= |p| && Readable(UnitSet(p))
    ensures In(c, UnitSet(p)) <==> UnitHas(p[..UnitLength(p)], c)
  {
    hide Ranges, InRanges, ClassHas, ClosingAt;
    var n := UnitLength(p);
    if p[0] == '[' {
      assert p[..n][1..n - 1] == p[1..n - 1];
      RangesHave(p[1..n - 1], c);
    }
  }

  /** The first token of a pattern that starts with no star and no quantifier. */
  lemma FirstUnit(p: string)
    requires p != "" && p[0] !in ['*', '?', '+']
    ensures UnitLength(p) > |p| ==> Unfinished in Tokens(p)
    ensures UnitLength(p) <= |p| ==> Tokens(p) == [Atom(UnitSet(p))] + Tokens(p[UnitLength(p)..])
  {
    hide ClosingAt;
  }

  /** A pattern starts with a quantifier exactly when its tokens do. */
  lemma QuantifierFirst(p: string)
    ensures Tokens(p) != [] <==> p != ""
    ensures p != "" ==> (Tokens(p)[0].Quantifier? <==> p[0] == '?' || p[0] == '+')
    ensures p != "" && (p[0] == '?' || p[0] == '+') ==> Tokens(p) == [Quantifier(p[0])] + Tokens(p[1..])
  {
    hide ClosingAt;
  }

  lemma StarFirst(p: string)
    requires p != "" && p[0] == '*'
    ensures Tokens(p) == if |p| > 1 && p[1] == '*' then [AnyAtAll] + Tokens(p[2..]) else [AnyInSegment] + Tokens(p[1..])
  {
  }

  lemma StarSets(t: string)
    ensures AllIn(t, NotSlash) <==> Free(t, '/')
    ensures AllIn(t, NotNewline) <==> Free(t, '\n')
  {
    RangesPlain('/', "", []);
    assert ['/'] + "" == "/" && [('/', '/')] + [] == [('/', '/')];
    forall c: char ensures In(c, NotSlash) <==> c != '/' {
      if c == '/' {
        assert Ranges("/").value[0].0 <= c <= Ranges("/").value[0].1;
      }
    }
  }

  /** Tokens left of a usable list are usable after what came before. */
  predicate Usables(tokens: seq<Token>, atom: bool) {
    WellFormedAfter(tokens, atom) && RangesRunForward(tokens)
  }

  lemma Rest(tokens: seq<Token>, rest: seq<Token>, first: Token, atom: bool)
    requires tokens == [first] + rest && Usables(tokens, atom)
    ensures Usables(rest, first.Atom?) && TokenFits(tokens, 0, atom) && (first.Atom? ==> Readable(first.cs))
  {
    hide WellFormedAfter, TokenFits, RangesRunForward;
    assert tokens[1..] == rest;
    WellFormedSplits(tokens, atom);
    RangesSplit(tokens);
  }

  lemma NothingUnfinished(tokens: seq<Token>, atom: bool)
    requires WellFormedAfter(tokens, atom)
    ensures Unfinished !in tokens
  {
    forall k | 0 <= k < |tokens| ensures tokens[k] != Unfinished {
      assert TokenFits(tokens, k, atom);
    }
  }

  /** The tokens of a usable pattern read what the pattern selects. */
  lemma {:induction false} TokensReadWhatIsSelected(p: string, t: string)
    requires Usables(Tokens(p), false)
    ensures Reads(Tokens(p), t, false) <==> Selects(p, t)
    decreases |p|
  {
    hide Tokens, UnitLength, UnitHas, Usables, AllIn, Free, In;
    QuantifierFirst(p);
    if p != "" {
      if p[0] == '*' {
        StarIsRead(p, t);
      } else {
        UsableFacts(p);
        FirstUnit(p);
        var n := UnitLength(p);
        Rest(Tokens(p), Tokens(p[n..]), Atom(UnitSet(p)), false);
        QuantifierFirst(p[n..]);
        if n < |p| && (p[n] == '?' || p[n] == '+') {
          QuantifiedIsRead(p, t);
        } else {
          UnitIsRead(p, t);
        }
      }
    }
  }

  lemma UsableFacts(p: string)
    requires p != "" && Usables(Tokens(p), false) && p[0] != '*'
    ensures p[0] !in ['*', '?', '+'] && UnitLength(p) <= |p|
  {
    hide ClosingAt, UnitLength, Tokens;
    QuantifierFirst(p);
    NothingUnfinished(Tokens(p), false);
    assert TokenFits(Tokens(p), 0, false);
    if p[0] !in ['*', '?', '+'] {
      FirstUnit(p);
    }
  }

  lemma StarIsRead(p: string, t: string)
    requires p != "" && p[0] == '*' && Usables(Tokens(p), false)
    ensures Reads(Tokens(p), t, false) <==> Selects(p, t)
    decreases |p|, 0
  {
    hide Tokens, UnitLength, UnitHas, Usables, AllIn, Free, In;
    var two := |p| > 1 && p[1] == '*';
    var rest := if two then p[2..] else p[1..];
    StarFirst(p);
    Rest(Tokens(p), Tokens(rest), if two then AnyAtAll else AnyInSegment, false);
    assert Tokens(p)[1..] == Tokens(rest);
    forall i | 0 <= i <= |t|
      ensures Reads(Tokens(rest), t[i..], false) <==> Selects(rest, t[i..])
      ensures AllIn(t[..i], NotSlash) <==> Free(t[..i], '/')
      ensures AllIn(t[..i], NotNewline) <==> Free(t[..i], '\n')
    {
      TokensReadWhatIsSelected(rest, t[i..]);
      StarSets(t[..i]);
    }
  }

  lemma UnitsIn(p: string, t: string)
    requires p != "" && UnitLength(p) <= |p| && Readable(UnitSet(p))
    ensures AllIn(t, UnitSet(p)) <==> AllOf(t, p[..UnitLength(p)])
  {
    hide UnitLength, UnitHas, In, UnitSet;
    forall c ensures In(c, UnitSet(p)) <==> UnitHas(p[..UnitLength(p)], c) {
      UnitSetHas(p, c);
    }
  }

  lemma UnitIsRead(p: string, t: string)
    requires p != "" && Usables(Tokens(p), false) && p[0] !in ['*', '?', '+'] && UnitLength(p) <= |p|
    requires UnitLength(p) < |p| ==> p[UnitLength(p)] != '?' && p[UnitLength(p)] != '+'
    ensures Reads(Tokens(p), t, false) <==> Selects(p, t)
    decreases |p|, 0
  {
    hide Tokens, UnitLength, UnitHas, Usables, AllIn, Free, In, UnitSet;
    var n := UnitLength(p);
    var rest := p[n..];
    FirstUnit(p);
    Rest(Tokens(p), Tokens(rest), Atom(UnitSet(p)), false);
    QuantifierFirst(rest);
    assert Tokens(p)[1..] == Tokens(rest);
    if t != "" {
      UnitSetHas(p, t[0]);
      AfterAUnit(rest);
      TokensReadWhatIsSelected(rest, t[1..]);
    }
  }

  /** What follows a piece and starts with no quantifier might as well stand alone. */
  lemma AfterAUnit(rest: string)
    requires Usables(Tokens(rest), true) && (rest != "" ==> rest[0] != '?' && rest[0] != '+')
    ensures Usables(Tokens(rest), false)
  {
    hide Tokens, RangesRunForward;
    QuantifierFirst(rest);
    var tokens := Tokens(rest);
    forall k | 0 <= k < |tokens| ensures TokenFits(tokens, k, false) {
      assert TokenFits(tokens, k, true);
    }
  }

  lemma QuantifiedIsRead(p: string, t: string)
    requires p != "" && Usables(Tokens(p), false) && p[0] !in ['*', '?', '+'] && UnitLength(p) < |p|
    requires p[UnitLength(p)] == '?' || p[UnitLength(p)] == '+'
    ensures Reads(Tokens(p), t, false) <==> Selects(p, t)
    decreases |p|, 0
  {
    hide Tokens, UnitLength, UnitHas, Usables, AllIn, Free, In, UnitSet, AllOf;
    var n := UnitLength(p);
    var q, rest := p[n..], p[n + 1..];
    FirstUnit(p);
    Rest(Tokens(p), Tokens(q), Atom(UnitSet(p)), false);
    QuantifierFirst(q);
    assert q[1..] == rest;
    Rest(Tokens(q), Tokens(rest), Quantifier(p[n]), true);
    assert Tokens(p)[1] == Quantifier(p[n]) && Tokens(p)[2..] == Tokens(rest);
    forall i | 0 <= i <= |t|
      ensures Reads(Tokens(rest), t[i..], false) <==> Selects(rest, t[i..])
      ensures AllIn(t[..i], UnitSet(p)) <==> AllOf(t[..i], p[..n])
    {
      TokensReadWhatIsSelected(rest, t[i..]);
      UnitsIn(p, t[..i]);
    }
    assert t[0..] == t;
    if t != "" {
      UnitSetHas(p, t[0]);
    }
  }

  /** So the compiled pattern selects exactly what its text says, negation aside. */
  lemma PatternsSelectWhatTheySay(pattern: string, re: Regex, s: string)
    requires !HasEmptyClass(Tokens(Body(pattern))) && !Rejected(pattern)
    requires Parse(Text(Tokens(Body(pattern))), [], Eps, None) == Some(re)
    ensures Matches(re, s) <==> Selects(Body(pattern), s)
  {
    hide Tokens, Parse, Matches, Reads, Selects, WellFormed, HasEmptyClass, Text, RangesRunForward;
    PatternsAreReadAsMeant(Body(pattern));
    TokensReadWhatIsSelected(Body(pattern), s) by {
      UsableBody(Body(pattern));
    }
  }

  lemma UsableBody(body: string)
    requires WellFormed(Tokens(body)) && RangesRunForward(Tokens(body))
    ensures Usables(Tokens(body), false)
  {
  }
}
