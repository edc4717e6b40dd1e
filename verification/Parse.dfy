// The command line parser (frontend/src/parse.rs): a cursor over the text, and the
// functions on the remaining text that its methods are proved against.

module Parsing {
  import opened Protocol
  import opened Syntax
  import Utf8

  datatype Reason = UnclosedQuote | QuoteInWord | WordAfterFile | NoSeparator

  /** What was read and what remains, or why the parser panicked. */
  datatype Parse<+T> = Fine(value: T, rest: string) | Broken(reason: Reason)

  const QUOTE: char := '"'

  predicate Delimits(c: char) {
    c == ';' || c == '|' || c == '>'
  }

  // At the end of the words of a command.
  predicate Stops(s: string) {
    s == [] || Delimits(s[0])
  }

  function SkipBlanks(s: string): (t: string)
    ensures |t| <= |s|
    ensures t == [] || t[0] != ' '
  {
    if s != [] && s[0] == ' ' then SkipBlanks(s[1..]) else s
  }

  function Prepend<T>(xs: seq<T>, p: Parse<seq<T>>): Parse<seq<T>> {
    match p
    case Fine(ys, rest) => Fine(xs + ys, rest)
    case Broken(reason) => Broken(reason)
  }

  /** The rest of a quoted word, after its opening quote. */
  function Quoted(s: string): (p: Parse<string>)
    ensures p.Fine? ==> |p.rest| < |s|
  {
    if s == [] then Broken(UnclosedQuote)
    else if s[0] == QUOTE then Fine([], s[1..])
    else Prepend([s[0]], Quoted(s[1..]))
  }

  function Bare(s: string): (p: Parse<string>)
    ensures p.Fine? ==> |p.rest| <= |s|
  {
    if s == [] || s[0] == ' ' || Delimits(s[0]) then Fine([], s)
    else if s[0] == QUOTE then Broken(QuoteInWord)
    else Prepend([s[0]], Bare(s[1..]))
  }

  function Word(s: string): (p: Parse<string>)
    ensures p.Fine? ==> |p.rest| <= |s|
    ensures p.Fine? && !Stops(s) && s[0] != ' ' ==> |p.rest| < |s|
  {
    if s != [] && s[0] == QUOTE then Quoted(s[1..]) else Bare(s)
  }

  /** The words of a command after its first. */
  function Words(s: string): (p: Parse<seq<string>>)
    ensures p.Fine? ==> |p.rest| <= |s| && Stops(p.rest)
    decreases |s|
  {
    var t := SkipBlanks(s);
    if Stops(t) then Fine([], t)
    else
      match Word(t)
      case Broken(reason) => Broken(reason)
      case Fine(w, rest) => Prepend([w], Words(rest))
  }

  function OneCommand(s: string): (p: Parse<Cmd>)
    ensures p.Fine? ==> |p.rest| <= |s| && Stops(p.rest)
  {
    match Word(s)
    case Broken(reason) => Broken(reason)
    case Fine(w, rest) =>
      match Words(rest)
      case Broken(reason) => Broken(reason)
      case Fine(ws, left) => Fine(Cmd(None, [w] + ws), left)
  }

  /** The redirections of a command, up to the end or a semicolon. */
  function Clauses(s: string): (p: Parse<seq<RedirectClause>>)
    ensures p.Fine? ==> |p.rest| <= |s| && (p.rest == [] || p.rest[0] == ';')
    decreases |s|
  {
    var t := SkipBlanks(s);
    if t == [] || t[0] == ';' then Fine([], t)
    else if t[0] == '|' then
      match OneCommand(SkipBlanks(t[1..]))
      case Broken(reason) => Broken(reason)
      case Fine(c, rest) => Prepend([RedirectClause(Stdout, Into(Simple(c)))], Clauses(rest))
    else if t[0] == '>' then
      match Word(SkipBlanks(t[1..]))
      case Broken(reason) => Broken(reason)
      case Fine(path, rest) => Prepend([RedirectClause(Stdout, File(path))], Clauses(rest))
    else Broken(WordAfterFile)
  }

  function OnePipe(s: string): (p: Parse<Ast>)
    ensures p.Fine? ==> |p.rest| <= |s| && (p.rest == [] || p.rest[0] == ';')
  {
    match OneCommand(s)
    case Broken(reason) => Broken(reason)
    case Fine(c, rest) =>
      match Clauses(rest)
      case Broken(reason) => Broken(reason)
      case Fine(clauses, left) => Fine(if clauses == [] then Simple(c) else Redirect(Simple(c), clauses), left)
  }

  function Steps(s: string): (p: Parse<seq<SequenceClause>>)
    ensures p.Fine? ==> p.rest == []
    decreases |s|
  {
    var t := SkipBlanks(s);
    if t == [] then Fine([], t)
    else if t[0] == ';' then
      match OnePipe(SkipBlanks(t[1..]))
      case Broken(reason) => Broken(reason)
      case Fine(ast, rest) => Prepend([SequenceClause(Wait, ast)], Steps(rest))
    else Broken(NoSeparator)
  }

  function OneSequence(s: string): (p: Parse<Ast>)
    ensures p.Fine? ==> p.rest == []
  {
    match OnePipe(s)
    case Broken(reason) => Broken(reason)
    case Fine(ast, rest) =>
      match Steps(rest)
      case Broken(reason) => Broken(reason)
      case Fine(steps, left) => Fine(if steps == [] then ast else Sequence(ast, steps), left)
  }

  /** What a whole line parses to: all of it, or nothing. */
  function Line(s: string): (p: Parse<Ast>)
    ensures p.Fine? ==> p.rest == []
  {
    var t := SkipBlanks(s);
    if t == [] then Fine(Empty, t) else OneSequence(t)
  }

  // A method returned what `p` says, and left `rest`.
  ghost predicate Yields<T>(r: Outcome<T>, p: Parse<T>, rest: string) {
    match p
    case Broken(_) => r.Panicked?
    case Fine(v, t) => r == Returned(v) && rest == t
  }

  lemma PrependMore<T>(xs: seq<T>, ys: seq<T>, p: Parse<seq<T>>)
    ensures Prepend(xs, Prepend(ys, p)) == Prepend(xs + ys, p)
  {
    if p.Fine? { assert xs + (ys + p.value) == xs + ys + p.value; }
  }

  lemma PrependNothing<T>(p: Parse<seq<T>>)
    ensures Prepend([], p) == p
  {
    if p.Fine? { assert [] + p.value == p.value; }
  }

  lemma PrependBroken<T>(xs: seq<T>, p: Parse<seq<T>>)
    ensures p.Broken? ==> Prepend(xs, p) == p
  {
  }

  lemma PrependEnd<T>(xs: seq<T>, rest: string)
    ensures Prepend(xs, Fine([], rest)) == Fine(xs, rest)
  {
    assert xs + [] == xs;
  }

  /** One more character of a quoted word. */
  lemma QuotedStep(text: string, begin: nat, at: nat)
    requires begin <= at < |text| && text[at] != QUOTE
    ensures Prepend(text[begin..at], Quoted(text[at..])) == Prepend(text[begin..at + 1], Quoted(text[at + 1..]))
  {
    assert text[at..][0] == text[at] && text[at..][1..] == text[at + 1..];
    assert text[begin..at] + [text[at]] == text[begin..at + 1];
    PrependMore(text[begin..at], [text[at]], Quoted(text[at + 1..]));
  }

  lemma QuotedEnd(text: string, begin: nat, at: nat)
    requires begin <= at <= |text| && (at < |text| ==> text[at] == QUOTE)
    ensures Prepend(text[begin..at], Quoted(text[at..]))
         == if at == |text| then Broken(UnclosedQuote) else Fine(text[begin..at], text[at + 1..])
  {
    if at < |text| {
      assert text[at..][0] == text[at] && text[at..][1..] == text[at + 1..];
      PrependEnd(text[begin..at], text[at + 1..]);
    }
  }

  /** One more character of a word without quotes. */
  lemma BareStep(text: string, begin: nat, at: nat)
    requires begin <= at < |text| && text[at] != QUOTE && text[at] != ' ' && !Delimits(text[at])
    ensures Prepend(text[begin..at], Bare(text[at..])) == Prepend(text[begin..at + 1], Bare(text[at + 1..]))
  {
    assert text[at..][0] == text[at] && text[at..][1..] == text[at + 1..];
    assert text[begin..at] + [text[at]] == text[begin..at + 1];
    PrependMore(text[begin..at], [text[at]], Bare(text[at + 1..]));
  }

  lemma BareEnd(text: string, begin: nat, at: nat)
    requires begin <= at <= |text| && (at < |text| ==> text[at] == QUOTE || text[at] == ' ' || Delimits(text[at]))
    ensures Prepend(text[begin..at], Bare(text[at..]))
         == if at < |text| && text[at] == QUOTE then Broken(QuoteInWord) else Fine(text[begin..at], text[at..])
  {
    if at < |text| { assert text[at..][0] == text[at]; }
    PrependEnd(text[begin..at], text[at..]);
  }

  lemma WordsStep(s: string)
    ensures var t := SkipBlanks(s);
            Words(s) ==
            if Stops(t) then Fine([], t)
            else
              match Word(t)
              case Broken(reason) => Broken(reason)
              case Fine(w, rest) => Prepend([w], Words(rest))
  {
  }

  lemma ClausesStep(s: string)
    ensures var t := SkipBlanks(s);
            Clauses(s) ==
            if t == [] || t[0] == ';' then Fine([], t)
            else if t[0] == '|' then
              (match OneCommand(SkipBlanks(t[1..]))
               case Broken(reason) => Broken(reason)
               case Fine(c, rest) => Prepend([RedirectClause(Stdout, Into(Simple(c)))], Clauses(rest)))
            else if t[0] == '>' then
              (match Word(SkipBlanks(t[1..]))
               case Broken(reason) => Broken(reason)
               case Fine(path, rest) => Prepend([RedirectClause(Stdout, File(path))], Clauses(rest)))
            else Broken(WordAfterFile)
  {
  }

  lemma StepsStep(s: string)
    ensures var t := SkipBlanks(s);
            Steps(s) ==
            if t == [] then Fine([], t)
            else if t[0] == ';' then
              (match OnePipe(SkipBlanks(t[1..]))
               case Broken(reason) => Broken(reason)
               case Fine(ast, rest) => Prepend([SequenceClause(Wait, ast)], Steps(rest)))
            else Broken(NoSeparator)
  {
  }

  class Consume {
    const text: string
    var pos: nat

    constructor (text: string)
      requires Utf8.WellFormed(text)
      ensures Valid() && this.text == text && pos == 0
    {
      this.text := text;
      pos := 0;
    }

    ghost predicate Valid()
      reads this
    {
      Utf8.WellFormed(text) && pos <= |text| && Utf8.Boundary(text, pos)
    }

    ghost function Rest(): string
      requires pos <= |text|
      reads this
    {
      text[pos..]
    }

    method Cur() returns (c: Option<char>)
      requires pos <= |text|
      ensures c == if Rest() == [] then None else Some(Rest()[0])
    {
      if pos < |text| { c := Some(text[pos]); } else { c := None; }
    }

    method Next() returns (c: Option<char>)
      requires pos <= |text|
      modifies this
      ensures c == old(if Rest() == [] then None else Some(Rest()[0]))
      ensures pos <= |text| && Rest() == if c.None? then [] else old(Rest())[1..]
      ensures pos == old(pos) + if c.None? then 0 else 1
    {
      if pos < |text| {
        c := Some(text[pos]);
        pos := pos + 1;
      } else {
        c := None;
      }
    }

    /** Cutting a string panics when an end is inside a character. */
    method Slice(begin: nat, end: nat) returns (r: Outcome<string>)
      requires begin <= end <= |text|
      ensures r == if Utf8.Boundary(text, begin) && Utf8.Boundary(text, end)
                   then Returned(text[begin..end]) else Panicked
    {
      if Utf8.Boundary(text, begin) && Utf8.Boundary(text, end) {
        r := Returned(text[begin..end]);
      } else {
        r := Panicked;
      }
    }

    method SkipWhitespace()
      requires Valid()
      modifies this
      ensures Valid() && Rest() == SkipBlanks(old(Rest()))
    {
      var c := Cur();
      while c == Some(' ')
        invariant Valid() && c == (if Rest() == [] then None else Some(Rest()[0]))
        invariant SkipBlanks(Rest()) == SkipBlanks(old(Rest()))
        decreases |text| - pos
      {
        Utf8.AsciiBoundary(text, pos);
        assert Rest()[1..] == text[pos + 1..];
        pos := pos + 1;
        c := Cur();
      }
    }

    method ParseQuote() returns (r: Outcome<string>)
      requires Valid()
      modifies this
      ensures pos <= |text|
      ensures old(Rest() == [] || Rest()[0] != QUOTE) ==> r.Panicked?
      ensures old(Rest() != [] && Rest()[0] == QUOTE) ==> Yields(r, Quoted(old(Rest())[1..]), Rest())
      ensures r.Returned? ==> Valid() && old(pos) < pos
    {
      hide Quoted, Utf8.WellFormed, Utf8.Boundary;
      var first := Next();
      if first != Some(QUOTE) { return Panicked; } // assert!
      var begin := pos;
      Utf8.AsciiBoundary(text, begin - 1);
      assert text[begin..begin] == [];
      PrependNothing(Quoted(text[begin..]));
      while true
        invariant begin <= pos <= |text| && begin == old(pos) + 1
        invariant Quoted(text[begin..]) == Prepend(text[begin..pos], Quoted(text[pos..]))
        decreases |text| - pos
      {
        ghost var at := pos;
        var c := Next();
        if c == Some(QUOTE) {
          QuotedEnd(text, begin, at);
          Utf8.AsciiBoundary(text, at);
          r := Slice(begin, pos - 1);
          return;
        }
        if c.None? {
          QuotedEnd(text, begin, at);
          return Panicked; // panic!
        }
        QuotedStep(text, begin, at);
      }
    }

    method ParseWord() returns (r: Outcome<string>)
      requires Valid()
      modifies this
      ensures pos <= |text| && Yields(r, Word(old(Rest())), Rest())
      ensures r.Returned? ==> Valid() && old(pos) <= pos
      ensures r.Returned? && old(!Stops(Rest()) && Rest()[0] != ' ') ==> old(pos) < pos
    {
      hide Quoted, Bare, Utf8.WellFormed, Utf8.Boundary;
      var c := Cur();
      if c == Some(QUOTE) {
        r := ParseQuote();
        return;
      }
      var begin := pos;
      assert text[begin..begin] == [];
      PrependNothing(Bare(text[begin..]));
      while c.Some? && c.value != ' ' && !Delimits(c.value)
        invariant begin <= pos <= |text| && begin == old(pos)
        invariant c == if pos == |text| then None else Some(text[pos])
        invariant Bare(text[begin..]) == Prepend(text[begin..pos], Bare(text[pos..]))
        decreases |text| - pos
      {
        if c.value == QUOTE {
          BareEnd(text, begin, pos);
          return Panicked; // panic!
        }
        BareStep(text, begin, pos);
        var _ := Next();
        c := Cur();
      }
      BareEnd(text, begin, pos);
      if c.Some? { Utf8.AsciiBoundary(text, pos); } else { Utf8.EndBoundary(text); }
      r := Slice(begin, pos);
    }

    method ParseCmd() returns (r: Outcome<Cmd>)
      requires Valid()
      modifies this
      ensures pos <= |text| && Yields(r, OneCommand(old(Rest())), Rest())
      ensures r.Returned? ==> Valid() && old(pos) <= pos
    {
      hide Words, Word, Utf8.WellFormed, Utf8.Boundary;
      var word := ParseWord();
      if word.Panicked? { return Panicked; }
      var children := [word.value];
      ghost var after := Rest();
      ghost var more: seq<string> := [];
      PrependNothing(Words(after));
      while true
        invariant Valid() && old(pos) <= pos && children == [word.value] + more
        invariant Words(after) == Prepend(more, Words(Rest()))
        decreases |text| - pos
      {
        ghost var here := Rest();
        SkipWhitespace();
        WordsStep(here);
        var c := Cur();
        if c.None? { break; }
        if Delimits(c.value) { break; }
        var next := ParseWord();
        if next.Panicked? { return Panicked; }
        PrependMore(more, [next.value], Words(Rest()));
        children := children + [next.value];
        more := more + [next.value];
      }
      PrependEnd(more, Rest());
      r := Returned(Cmd(None, children));
    }

    method ParsePipe() returns (r: Outcome<Ast>)
      requires Valid()
      modifies this
      ensures pos <= |text| && Yields(r, OnePipe(old(Rest())), Rest())
      ensures r.Returned? ==> Valid() && old(pos) <= pos
    {
      hide Clauses, Utf8.WellFormed, Utf8.Boundary, OneCommand, Word, SkipBlanks, Prepend;
      var head := ParseCmd();
      if head.Panicked? { return Panicked; }
      ghost var after := Rest();
      var children: seq<RedirectClause> := [];
      PrependNothing(Clauses(after));
      while true
        invariant Valid() && old(pos) <= pos
        invariant Clauses(after) == Prepend(children, Clauses(Rest()))
        decreases |text| - pos
      {
        ghost var here := Rest();
        SkipWhitespace();
        ClausesStep(here);
        PrependBroken(children, Clauses(here));
        var c := Cur();
        if c.None? { break; }
        if c.value == ';' { break; }
        if c.value != '|' && c.value != '>' { return Panicked; } // panic!
        Utf8.AsciiBoundary(text, pos);
        var _ := Next();
        SkipWhitespace();
        var clause;
        if c.value == '|' {
          var cmd := ParseCmd();
          if cmd.Panicked? { return Panicked; }
          clause := RedirectClause(Stdout, Into(Simple(cmd.value)));
        } else {
          var path := ParseWord();
          if path.Panicked? { return Panicked; }
          clause := RedirectClause(Stdout, File(path.value));
        }
        PrependMore(children, [clause], Clauses(Rest()));
        children := children + [clause];
      }
      PrependEnd(children, Rest());
      r := Returned(if children == [] then Simple(head.value) else Redirect(Simple(head.value), children));
    }

    method ParseSeq() returns (r: Outcome<Ast>)
      requires Valid()
      modifies this
      ensures pos <= |text| && Yields(r, OneSequence(old(Rest())), Rest())
      ensures r.Returned? ==> Valid() && old(pos) <= pos
    {
      hide Steps, SkipBlanks, Quoted, Bare, Utf8.WellFormed, Utf8.Boundary, OnePipe;
      var head := ParsePipe();
      if head.Panicked? { return Panicked; }
      ghost var after := Rest();
      var children: seq<SequenceClause> := [];
      PrependNothing(Steps(after));
      while true
        invariant Valid() && old(pos) <= pos
        invariant Steps(after) == Prepend(children, Steps(Rest()))
        decreases |text| - pos
      {
        ghost var here := Rest();
        SkipWhitespace();
        StepsStep(here);
        var c := Cur();
        if c.None? { break; }
        if c.value != ';' { return Panicked; } // panic!
        Utf8.AsciiBoundary(text, pos);
        var _ := Next();
        SkipWhitespace();
        var ast := ParsePipe();
        if ast.Panicked? { return Panicked; }
        PrependMore(children, [SequenceClause(Wait, ast.value)], Steps(Rest()));
        children := children + [SequenceClause(Wait, ast.value)];
      }
      PrependEnd(children, Rest());
      r := Returned(if children == [] then head.value else Sequence(head.value, children));
    }

    method ParseLine() returns (r: Outcome<Ast>)
      requires Valid()
      modifies this
      ensures pos <= |text| && Yields(r, Line(old(Rest())), Rest())
      ensures r.Returned? ==> pos == |text|
    {
      hide OneSequence, Utf8.WellFormed, Utf8.Boundary;
      SkipWhitespace();
      var c := Cur();
      if c.None? { return Returned(Empty); }
      r := ParseSeq();
      if r.Panicked? { return; }
      if pos != |text| { return Panicked; } // assert_eq!
    }
  }

  /** Parses a whole line. */
  method ParseInput(input: string) returns (r: Outcome<Ast>)
    requires Utf8.WellFormed(input)
    ensures match Line(input)
            case Broken(_) => r.Panicked?
            case Fine(ast, _) => r == Returned(ast)
  {
    var consume := new Consume(input);
    assert consume.text[0..] == input;
    r := consume.ParseLine();
  }
}
