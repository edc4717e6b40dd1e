// Which lines the parser accepts: an independent scan, one character at a time,
// fails on exactly the lines on which the parser panics, for the same reason.

module Scanner {
  import opened Protocol
  import opened Parsing

  /** Where a scan is: between the words of a command, in a word of a command, before a
      file name, in a file name, or after one. */
  datatype Mode = Gap | BareWord | QuotedWord | FileGap | BareFile | QuotedFile | AfterFile

  /** Where the next character leads, or why it cannot come here. */
  function Step(m: Mode, c: char): Outcome<Mode> {
    match m
    case QuotedWord => Returned(if c == QUOTE then Gap else QuotedWord)
    case QuotedFile => Returned(if c == QUOTE then AfterFile else QuotedFile)
    case _ =>
      if c == ';' || c == '|' then Returned(Gap)
      else if c == '>' then Returned(FileGap)
      else
        match m
        case Gap => Returned(if c == ' ' then Gap else if c == QUOTE then QuotedWord else BareWord)
        case FileGap => Returned(if c == ' ' then FileGap else if c == QUOTE then QuotedFile else BareFile)
        case BareWord => if c == QUOTE then Panicked else Returned(if c == ' ' then Gap else BareWord)
        case BareFile => if c == QUOTE then Panicked else Returned(if c == ' ' then AfterFile else BareFile)
        case _ => if c == ' ' then Returned(AfterFile) else Panicked
  }

  /** A quote after the characters of a word, a word after a file name, or an open quote at the end. */
  function Scan(m: Mode, s: string): Option<Reason>
    decreases s
  {
    if s == [] then
      if m.QuotedWord? || m.QuotedFile? then Some(UnclosedQuote) else None
    else
      match Step(m, s[0])
      case Panicked => Some(if m.AfterFile? then WordAfterFile else QuoteInWord)
      case Returned(next) => Scan(next, s[1..])
  }

  lemma {:induction false} ScanBlanks(m: Mode, s: string)
    requires m.Gap? || m.FileGap? || m.AfterFile?
    ensures Scan(m, s) == Scan(m, SkipBlanks(s))
  {
    if s != [] && s[0] == ' ' { ScanBlanks(m, s[1..]); }
  }

  lemma {:induction false} ScanQuoted(s: string, file: bool)
    ensures Scan(if file then QuotedFile else QuotedWord, s)
         == match Quoted(s)
            case Broken(reason) => Some(reason)
            case Fine(_, rest) => Scan(if file then AfterFile else Gap, rest)
  {
    if s != [] && s[0] != QUOTE { ScanQuoted(s[1..], file); }
  }

  lemma {:induction false} ScanBare(s: string, file: bool)
    ensures Scan(if file then BareFile else BareWord, s)
         == match Bare(s)
            case Broken(reason) => Some(reason)
            case Fine(_, rest) => Scan(if file then AfterFile else Gap, rest)
  {
    if s != [] && s[0] != ' ' && !Delimits(s[0]) && s[0] != QUOTE { ScanBare(s[1..], file); }
  }

  /** Reading a word where one may begin. */
  lemma ScanWord(s: string, file: bool)
    requires s == [] || s[0] != ' '
    ensures Scan(if file then FileGap else Gap, s)
         == match Word(s)
            case Broken(reason) => Some(reason)
            case Fine(_, rest) => Scan(if file then AfterFile else Gap, rest)
  {
    if s != [] {
      if s[0] == QUOTE {
        ScanQuoted(s[1..], file);
      } else if !Delimits(s[0]) {
        ScanBare(s[1..], file);
      }
    }
  }

  lemma {:induction false} ScanWords(s: string)
    ensures Scan(Gap, s)
         == match Words(s)
            case Broken(reason) => Some(reason)
            case Fine(_, rest) => Scan(Gap, rest)
    decreases |s|
  {
    hide Scan, Word, SkipBlanks;
    ScanBlanks(Gap, s);
    var t := SkipBlanks(s);
    if !Stops(t) {
      ScanWord(t, false);
      if Word(t).Fine? { ScanWords(Word(t).rest); }
    }
  }

  lemma ScanCommand(s: string)
    requires s == [] || s[0] != ' '
    ensures Scan(Gap, s)
         == match OneCommand(s)
            case Broken(reason) => Some(reason)
            case Fine(_, rest) => Scan(Gap, rest)
  {
    hide Scan, Word, Words;
    ScanWord(s, false);
    if Word(s).Fine? { ScanWords(Word(s).rest); }
  }

  // After the words of a command the scan is between words, after a file name it is behind
  // it; before a delimiter or the end that makes no difference.
  lemma ScanDelimited(s: string)
    requires Stops(s)
    ensures Scan(Gap, s) == Scan(AfterFile, s)
    ensures s == [] ==> Scan(Gap, s) == None
    ensures s != [] ==> Scan(Gap, s) == Scan(if s[0] == '>' then FileGap else Gap, s[1..])
  {
  }

  lemma ScanStuck(s: string)
    requires !Stops(s) && s[0] != ' '
    ensures Scan(AfterFile, s) == Some(WordAfterFile)
  {
  }

  lemma {:induction false} ScanClauses(s: string)
    ensures Scan(AfterFile, s)
         == match Clauses(s)
            case Broken(reason) => Some(reason)
            case Fine(_, rest) => Scan(AfterFile, rest)
    decreases |s|
  {
    hide Scan, Word, SkipBlanks, OneCommand, Clauses;
    ScanBlanks(AfterFile, s);
    ClausesStep(s);
    var t := SkipBlanks(s);
    if !Stops(t) {
      ScanStuck(t);
    } else if t != [] && t[0] != ';' {
      ScanDelimited(t);
      var u := SkipBlanks(t[1..]);
      if t[0] == '|' {
        ScanBlanks(Gap, t[1..]);
        ScanCommand(u);
        if OneCommand(u).Fine? {
          ScanDelimited(OneCommand(u).rest);
          ScanClauses(OneCommand(u).rest);
        }
      } else {
        ScanBlanks(FileGap, t[1..]);
        ScanWord(u, true);
        if Word(u).Fine? { ScanClauses(Word(u).rest); }
      }
    }
  }

  lemma ScanPipe(s: string)
    requires s == [] || s[0] != ' '
    ensures Scan(Gap, s)
         == match OnePipe(s)
            case Broken(reason) => Some(reason)
            case Fine(_, rest) => Scan(Gap, rest)
  {
    hide Scan, OneCommand, Clauses;
    ScanCommand(s);
    if OneCommand(s).Fine? {
      var rest := OneCommand(s).rest;
      ScanDelimited(rest);
      ScanClauses(rest);
      if Clauses(rest).Fine? { ScanDelimited(Clauses(rest).rest); }
    }
  }

  /** `s` is empty or starts at a semicolon, as everything does that follows a pipeline. */
  lemma {:induction false} ScanSteps(s: string)
    requires s == [] || s[0] == ';'
    ensures Scan(Gap, s) == (match Steps(s) case Broken(reason) => Some(reason) case Fine(_, _) => None)
    ensures Steps(s) != Broken(NoSeparator)
    decreases |s|
  {
    hide Scan, OnePipe, SkipBlanks, Steps;
    StepsStep(s);
    NoBlanks(s);
    ScanDelimited(s);
    if s != [] {
      var u := SkipBlanks(s[1..]);
      ScanBlanks(Gap, s[1..]);
      ScanPipe(u);
      PipeReasons(u);
      if OnePipe(u).Fine? { ScanSteps(OnePipe(u).rest); }
    }
  }

  lemma NoBlanks(s: string)
    requires s == [] || s[0] == ';'
    ensures SkipBlanks(s) == s
  {
  }

  lemma {:induction false} ScanReasons(m: Mode, s: string)
    ensures Scan(m, s) != Some(NoSeparator)
    decreases s
  {
    if s != [] && Step(m, s[0]).Returned? { ScanReasons(Step(m, s[0]).value, s[1..]); }
  }

  lemma PipeReasons(s: string)
    requires s == [] || s[0] != ' '
    ensures OnePipe(s) != Broken(NoSeparator)
  {
    hide Scan, OnePipe;
    ScanPipe(s);
    ScanReasons(Gap, s);
  }

  /** The parser panics exactly when the scan fails, for the reason the scan gives; in
      particular its check for a missing separator never fails. */
  lemma AcceptsExactly(s: string)
    ensures Scan(Gap, s) == match Line(s) case Broken(reason) => Some(reason) case Fine(_, _) => None
    ensures Line(s) != Broken(NoSeparator)
  {
    hide Scan, OnePipe, SkipBlanks, Steps;
    ScanBlanks(Gap, s);
    var t := SkipBlanks(s);
    ScanReasons(Gap, s);
    if t == [] {
      ScanDelimited(t);
    } else {
      ScanPipe(t);
      if OnePipe(t).Fine? { ScanSteps(OnePipe(t).rest); }
    }
  }
}
