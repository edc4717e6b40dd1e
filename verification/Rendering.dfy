// Parsing and a renderer that quotes every word undo each other.

module Rendering {
  import opened Syntax
  import opened Parsing

  // --- What the parser can emit ---

  predicate PlainWord(w: string) {
    QUOTE !in w
  }

  predicate PlainCmd(c: Cmd) {
    c.remote.None? && c.words != [] && forall w :: w in c.words ==> PlainWord(w)
  }

  predicate PlainClause(c: RedirectClause) {
    && c.stream.Stdout?
    && match c.target
       case File(path) => PlainWord(path)
       case Into(ast) => ast.Simple? && PlainCmd(ast.cmd)
  }

  predicate PlainPipe(ast: Ast) {
    match ast
    case Simple(c) => PlainCmd(c)
    case Redirect(head, clauses) =>
      head.Simple? && PlainCmd(head.cmd) && clauses != [] && forall c :: c in clauses ==> PlainClause(c)
    case _ => false
  }

  predicate PlainStep(c: SequenceClause) {
    c.kind.Wait? && PlainPipe(c.ast)
  }

  /** The trees that parsing a line can produce. */
  predicate Emittable(ast: Ast) {
    match ast
    case Empty => true
    case Sequence(first, rest) => PlainPipe(first) && rest != [] && forall c :: c in rest ==> PlainStep(c)
    case _ => PlainPipe(ast)
  }

  // --- Rendering ---

  function RenderWord(w: string): string {
    [QUOTE] + w + [QUOTE]
  }

  function RenderWords(ws: seq<string>): string {
    if ws == [] then "" else " " + RenderWord(ws[0]) + RenderWords(ws[1..])
  }

  function RenderCmd(c: Cmd): string
    requires PlainCmd(c)
  {
    RenderWord(c.words[0]) + RenderWords(c.words[1..])
  }

  function RenderClause(c: RedirectClause): string
    requires PlainClause(c)
  {
    match c.target
    case File(path) => " > " + RenderWord(path)
    case Into(ast) => " | " + RenderCmd(ast.cmd)
  }

  function RenderClauses(cs: seq<RedirectClause>): string
    requires forall c :: c in cs ==> PlainClause(c)
  {
    if cs == [] then "" else RenderClause(cs[0]) + RenderClauses(cs[1..])
  }

  function RenderPipe(ast: Ast): string
    requires PlainPipe(ast)
  {
    match ast
    case Simple(c) => RenderCmd(c)
    case Redirect(head, clauses) => RenderCmd(head.cmd) + RenderClauses(clauses)
  }

  function RenderSteps(cs: seq<SequenceClause>): string
    requires forall c :: c in cs ==> PlainStep(c)
  {
    if cs == [] then ""
    else
      assert PlainStep(cs[0]);
      " ; " + RenderPipe(cs[0].ast) + RenderSteps(cs[1..])
  }

  function Render(ast: Ast): string
    requires Emittable(ast)
  {
    match ast
    case Empty => ""
    case Sequence(first, rest) => RenderPipe(first) + RenderSteps(rest)
    case _ => RenderPipe(ast)
  }

  // --- Reading back what was rendered, with anything after it ---

  // What may follow a command: nothing, or a blank and a delimiter.
  predicate MayFollow(s: string) {
    s == [] || (|s| >= 2 && s[0] == ' ' && Delimits(s[1]))
  }

  lemma MayFollowStops(s: string)
    requires MayFollow(s)
    ensures SkipBlanks(s) == (if s == [] then s else s[1..]) && Stops(SkipBlanks(s))
  {
  }

  lemma {:induction false} QuotedBack(w: string, rest: string)
    requires PlainWord(w)
    ensures Quoted(w + [QUOTE] + rest) == Fine(w, rest)
  {
    var s := w + [QUOTE] + rest;
    if w != [] {
      assert s[0] == w[0] && s[1..] == w[1..] + [QUOTE] + rest;
      QuotedBack(w[1..], rest);
      assert [w[0]] + w[1..] == w;
    } else {
      assert s[1..] == rest;
    }
  }

  lemma WordBack(w: string, rest: string)
    requires PlainWord(w)
    ensures Word(RenderWord(w) + rest) == Fine(w, rest)
    ensures SkipBlanks(RenderWord(w) + rest) == RenderWord(w) + rest && !Stops(RenderWord(w) + rest)
  {
    var s := RenderWord(w) + rest;
    assert s[0] == QUOTE && s[1..] == w + [QUOTE] + rest;
    QuotedBack(w, rest);
  }

  lemma SkipOne(s: string)
    ensures SkipBlanks(" " + s) == SkipBlanks(s)
  {
    assert (" " + s)[1..] == s;
  }

  lemma {:induction false} WordsBack(ws: seq<string>, rest: string)
    requires (forall w :: w in ws ==> PlainWord(w)) && MayFollow(rest)
    ensures Words(RenderWords(ws) + rest) == Fine(ws, SkipBlanks(rest))
  {
    hide SkipBlanks, Word, RenderWord, MayFollow, PlainWord, Words;
    var s := RenderWords(ws) + rest;
    WordsStep(s);
    if ws == [] {
      assert s == rest;
      MayFollowStops(rest);
    } else {
      var more := RenderWords(ws[1..]) + rest;
      assert s == " " + (RenderWord(ws[0]) + more);
      SkipOne(RenderWord(ws[0]) + more);
      WordBack(ws[0], more);
      WordsBack(ws[1..], rest);
      assert [ws[0]] + ws[1..] == ws;
    }
  }

  lemma CommandBack(c: Cmd, rest: string)
    requires PlainCmd(c) && MayFollow(rest)
    ensures OneCommand(RenderCmd(c) + rest) == Fine(c, SkipBlanks(rest))
    ensures SkipBlanks(RenderCmd(c) + rest) == RenderCmd(c) + rest && RenderCmd(c) + rest != []
  {
    hide SkipBlanks, Word, RenderWord, RenderWords, MayFollow, PlainWord, Words;
    var more := RenderWords(c.words[1..]) + rest;
    assert RenderCmd(c) + rest == RenderWord(c.words[0]) + more;
    WordBack(c.words[0], more);
    WordsBack(c.words[1..], rest);
    assert [c.words[0]] + c.words[1..] == c.words;
  }

  // What may follow a pipeline.
  predicate Ends(s: string) {
    s == [] || (|s| >= 2 && s[0] == ' ' && s[1] == ';')
  }

  lemma {:induction false} ClausesFollow(cs: seq<RedirectClause>, rest: string)
    requires (forall c :: c in cs ==> PlainClause(c)) && Ends(rest)
    ensures MayFollow(RenderClauses(cs) + rest)
  {
    hide RenderWord, RenderCmd;
    if cs == [] {
      assert RenderClauses(cs) + rest == rest;
    } else {
      assert RenderClauses(cs) + rest == RenderClause(cs[0]) + (RenderClauses(cs[1..]) + rest);
    }
  }

  lemma SkipTwo(c: char, s: string)
    requires c != ' '
    ensures SkipBlanks(" " + [c] + " " + s) == [c] + " " + s
    ensures SkipBlanks(([c] + " " + s)[1..]) == SkipBlanks(s)
  {
    SkipOne([c] + " " + s);
    assert " " + [c] + " " + s == " " + ([c] + " " + s);
    assert ([c] + " " + s)[1..] == " " + s;
    SkipOne(s);
  }

  lemma {:induction false} SkipAgain(s: string)
    ensures SkipBlanks(SkipBlanks(s)) == SkipBlanks(s)
  {
    if s != [] && s[0] == ' ' { SkipAgain(s[1..]); }
  }

  // Leading blanks do not matter to what comes after a command.
  lemma ClausesSkip(s: string)
    ensures Clauses(SkipBlanks(s)) == Clauses(s)
  {
    SkipAgain(s);
  }

  lemma StepsSkip(s: string)
    ensures Steps(SkipBlanks(s)) == Steps(s)
  {
    SkipAgain(s);
  }

  lemma FileBack(path: string, more: string)
    requires PlainWord(path)
    ensures Clauses(" > " + RenderWord(path) + more) == Prepend([RedirectClause(Stdout, File(path))], Clauses(more))
  {
    hide SkipBlanks, Word, RenderWord, PlainWord, OneCommand, Clauses, Prepend;
    var s, u := " > " + RenderWord(path) + more, RenderWord(path) + more;
    assert s == " " + ['>'] + " " + u;
    SkipTwo('>', u);
    WordBack(path, more);
    ClausesStep(s);
  }

  lemma IntoBack(c: Cmd, more: string)
    requires PlainCmd(c) && MayFollow(more)
    ensures Clauses(" | " + RenderCmd(c) + more) == Prepend([RedirectClause(Stdout, Into(Simple(c)))], Clauses(more))
  {
    hide SkipBlanks, Word, RenderCmd, PlainCmd, OneCommand, Clauses, Prepend, MayFollow;
    var s, u := " | " + RenderCmd(c) + more, RenderCmd(c) + more;
    assert s == " " + ['|'] + " " + u;
    SkipTwo('|', u);
    CommandBack(c, more);
    ClausesStep(s);
    ClausesSkip(more);
  }

  lemma {:induction false} ClausesBack(cs: seq<RedirectClause>, rest: string)
    requires (forall c :: c in cs ==> PlainClause(c)) && Ends(rest)
    ensures Clauses(RenderClauses(cs) + rest) == Fine(cs, SkipBlanks(rest))
  {
    hide SkipBlanks, RenderWord, RenderCmd, PlainWord, PlainCmd, Clauses, MayFollow;
    if cs == [] {
      assert RenderClauses(cs) + rest == rest;
      EndsSkip(rest);
      ClausesStep(rest);
    } else {
      var c, more := cs[0], RenderClauses(cs[1..]) + rest;
      assert PlainClause(c);
      ClausesFollow(cs[1..], rest);
      ClausesBack(cs[1..], rest);
      assert RenderClauses(cs) + rest == RenderClause(c) + more;
      match c.target {
        case File(path) => FileBack(path, more);
        case Into(ast) => IntoBack(ast.cmd, more);
      }
      assert [c] + cs[1..] == cs;
    }
  }

  lemma EndsSkip(s: string)
    requires Ends(s)
    ensures SkipBlanks(s) == [] || SkipBlanks(s)[0] == ';'
  {
  }

  lemma PipeBack(ast: Ast, rest: string)
    requires PlainPipe(ast) && Ends(rest)
    ensures OnePipe(RenderPipe(ast) + rest) == Fine(ast, SkipBlanks(rest))
    ensures SkipBlanks(RenderPipe(ast) + rest) == RenderPipe(ast) + rest && RenderPipe(ast) + rest != []
  {
    hide SkipBlanks, RenderCmd, PlainCmd, OneCommand, Clauses, MayFollow, RenderClauses;
    match ast {
      case Simple(c) =>
        EndsFollows(rest);
        CommandBack(c, rest);
        ClausesBack([], rest);
        ClausesSkip(rest);
        NoClauses(rest);
      case Redirect(head, clauses) =>
        ClausesFollow(clauses, rest);
        var more := RenderClauses(clauses) + rest;
        assert RenderPipe(ast) + rest == RenderCmd(head.cmd) + more;
        CommandBack(head.cmd, more);
        ClausesBack(clauses, rest);
        ClausesSkip(more);
    }
  }

  lemma NoClauses(rest: string)
    ensures RenderClauses([]) + rest == rest
  {
  }

  lemma EndsFollows(s: string)
    requires Ends(s)
    ensures MayFollow(s)
  {
  }

  lemma {:induction false} StepsBack(cs: seq<SequenceClause>)
    requires forall c :: c in cs ==> PlainStep(c)
    ensures Steps(RenderSteps(cs)) == Fine(cs, [])
    ensures Ends(RenderSteps(cs))
  {
    hide SkipBlanks, RenderPipe, PlainPipe, OnePipe, Steps;
    var s := RenderSteps(cs);
    StepsStep(s);
    if cs == [] {
      NoBlanks();
    } else {
      var c, more := cs[0], RenderSteps(cs[1..]);
      assert PlainStep(c);
      StepsBack(cs[1..]);
      assert s == " " + ";" + " " + (RenderPipe(c.ast) + more);
      SkipTwo(';', RenderPipe(c.ast) + more);
      PipeBack(c.ast, more);
      StepsSkip(more);
      assert [c] + cs[1..] == cs;
    }
  }

  lemma NoBlanks()
    ensures SkipBlanks([]) == []
  {
  }

  /** Whatever the parser can emit is read back from its rendering. */
  lemma RoundTrip(ast: Ast)
    requires Emittable(ast)
    ensures Line(Render(ast)) == Fine(ast, [])
  {
    hide SkipBlanks, RenderPipe, PlainPipe, OnePipe, Steps, RenderSteps, Ends;
    NoBlanks();
    match ast {
      case Empty =>
      case Sequence(first, rest) =>
        StepsBack(rest);
        PipeBack(first, RenderSteps(rest));
        StepsSkip(RenderSteps(rest));
      case _ =>
        StepsBack([]);
        NoSteps();
        PipeBack(ast, []);
        assert RenderPipe(ast) + [] == RenderPipe(ast);
        PlainIsNoSequence(ast);
    }
  }

  lemma NoSteps()
    ensures RenderSteps([]) == [] && Ends([])
  {
  }

  lemma PlainIsNoSequence(ast: Ast)
    requires PlainPipe(ast)
    ensures !ast.Sequence? && !ast.Empty?
  {
  }

  // --- The parser emits nothing else ---

  lemma {:induction false} QuotedPlain(s: string)
    ensures Quoted(s).Fine? ==> PlainWord(Quoted(s).value)
  {
    if s != [] && s[0] != QUOTE { QuotedPlain(s[1..]); }
  }

  lemma {:induction false} BarePlain(s: string)
    ensures Bare(s).Fine? ==> PlainWord(Bare(s).value)
  {
    if s != [] && s[0] != ' ' && !Delimits(s[0]) && s[0] != QUOTE { BarePlain(s[1..]); }
  }

  lemma WordPlain(s: string)
    ensures Word(s).Fine? ==> PlainWord(Word(s).value)
  {
    hide PlainWord, Quoted, Bare;
    if s != [] && s[0] == QUOTE { QuotedPlain(s[1..]); } else { BarePlain(s); }
  }

  lemma {:induction false} WordsPlain(s: string)
    ensures Words(s).Fine? ==> forall w :: w in Words(s).value ==> PlainWord(w)
    decreases |s|
  {
    hide PlainWord, Word, SkipBlanks;
    var t := SkipBlanks(s);
    if !Stops(t) {
      WordPlain(t);
      if Word(t).Fine? { WordsPlain(Word(t).rest); }
    }
  }

  lemma CommandPlain(s: string)
    ensures OneCommand(s).Fine? ==> PlainCmd(OneCommand(s).value)
  {
    hide PlainWord, Word, Words;
    WordPlain(s);
    if Word(s).Fine? { WordsPlain(Word(s).rest); }
  }

  lemma {:induction false} ClausesPlain(s: string)
    ensures Clauses(s).Fine? ==> forall c :: c in Clauses(s).value ==> PlainClause(c)
    decreases |s|
  {
    hide PlainWord, Word, SkipBlanks, OneCommand, PlainCmd;
    var t := SkipBlanks(s);
    if t != [] && t[0] == '|' {
      var u := SkipBlanks(t[1..]);
      CommandPlain(u);
      if OneCommand(u).Fine? { ClausesPlain(OneCommand(u).rest); }
    } else if t != [] && t[0] == '>' {
      var u := SkipBlanks(t[1..]);
      WordPlain(u);
      if Word(u).Fine? { ClausesPlain(Word(u).rest); }
    }
  }

  lemma PipePlain(s: string)
    ensures OnePipe(s).Fine? ==> PlainPipe(OnePipe(s).value)
  {
    hide OneCommand, Clauses, PlainCmd, PlainClause;
    CommandPlain(s);
    if OneCommand(s).Fine? { ClausesPlain(OneCommand(s).rest); }
  }

  lemma {:induction false} StepsPlain(s: string)
    ensures Steps(s).Fine? ==> forall c :: c in Steps(s).value ==> PlainStep(c)
    decreases |s|
  {
    hide OnePipe, PlainPipe, SkipBlanks;
    var t := SkipBlanks(s);
    if t != [] && t[0] == ';' {
      var u := SkipBlanks(t[1..]);
      PipePlain(u);
      if OnePipe(u).Fine? { StepsPlain(OnePipe(u).rest); }
    }
  }

  lemma LinePlain(s: string)
    ensures Line(s).Fine? ==> Emittable(Line(s).value)
  {
    hide OnePipe, PlainPipe, SkipBlanks, Steps;
    var t := SkipBlanks(s);
    if t != [] {
      PipePlain(t);
      if OnePipe(t).Fine? {
        StepsPlain(OnePipe(t).rest);
        PlainShape(OnePipe(t).value);
      }
    }
  }

  lemma PlainShape(ast: Ast)
    requires PlainPipe(ast)
    ensures ast.Simple? || ast.Redirect?
  {
  }

  /** The emittable trees are exactly the trees that some line parses to. */
  lemma EmittableExact(ast: Ast)
    ensures Emittable(ast) <==> exists s :: Line(s) == Fine(ast, [])
  {
    hide Line, Emittable, Render;
    if Emittable(ast) {
      RoundTrip(ast);
    }
    forall s | Line(s) == Fine(ast, []) ensures Emittable(ast) {
      LinePlain(s);
    }
  }

  /** Rendering what was parsed and parsing it again changes nothing. */
  lemma ParseAgain(s: string)
    requires Line(s).Fine?
    ensures Emittable(Line(s).value) && Line(Render(Line(s).value)) == Fine(Line(s).value, [])
  {
    LinePlain(s);
    RoundTrip(Line(s).value);
  }
}
