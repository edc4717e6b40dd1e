// Command lines that the program does not survive, or whose failure it does not report.

module SystemDepartures {
  import opened Protocol
  import opened Scheduling
  import opened Driver
  import opened Parsing
  import opened Reading
  import opened Scanner
  import opened Syntax
  import DriverLemmas
  import Prefs
  import Rendering

  // --- Parsing and compiling ---

  /** A word after a file name: the parser panics. */
  lemma WordAfterFilePanics(aliases: seq<Prefs.Rule>)
    ensures Line("a > b c") == Broken(WordAfterFile) && Read(aliases, Text("a > b c")).Panic?
  {
    var s := "a > b c";
    AcceptsExactly(s);
    assert Scan(Gap, s) == Scan(BareWord, s[1..]);
    assert s[1..][0] == ' ' && Scan(BareWord, s[1..]) == Scan(Gap, s[1..][1..]);
    assert s[1..][1..] == s[2..] && Scan(Gap, s[2..]) == Scan(FileGap, s[2..][1..]);
    assert s[2..][1..] == s[3..] && Scan(FileGap, s[3..]) == Scan(FileGap, s[3..][1..]);
    assert s[3..][1..] == s[4..] && Scan(FileGap, s[4..]) == Scan(BareFile, s[4..][1..]);
    assert s[4..][1..] == s[5..] && Scan(BareFile, s[5..]) == Scan(AfterFile, s[5..][1..]);
    assert s[5..][1..] == s[6..] && Scan(AfterFile, s[6..]) == Some(WordAfterFile);
  }

  // A word without quotes.
  predicate Unquoted(w: string) {
    w != [] && forall c :: c in w ==> c != ' ' && c != QUOTE && !Delimits(c)
  }

  lemma {:induction false} BareBack(w: string, rest: string)
    requires (forall c :: c in w ==> c != ' ' && c != QUOTE && !Delimits(c)) && (Stops(rest) || rest[0] == ' ')
    ensures Bare(w + rest) == Fine(w, rest)
  {
    if w == [] {
      assert w + rest == rest;
    } else {
      assert w[0] in w && (w + rest)[1..] == w[1..] + rest;
      assert forall c :: c in w[1..] ==> c in w;
      BareBack(w[1..], rest);
      assert [w[0]] + w[1..] == w;
    }
  }

  lemma WordHere(w: string, rest: string)
    requires Unquoted(w) && (Stops(rest) || rest[0] == ' ')
    ensures Word(w + rest) == Fine(w, rest) && SkipBlanks(w + rest) == w + rest && !Stops(w + rest)
  {
    assert w[0] in w;
    BareBack(w, rest);
  }

  lemma EndsHere(s: string)
    requires Stops(s) || (s[0] == ' ' && Stops(s[1..]))
    ensures Stops(SkipBlanks(s))
  {
  }

  // One word and then the end of the command, perhaps after a blank.
  lemma OneWordHere(w: string, rest: string)
    requires Unquoted(w) && (Stops(rest) || (rest[0] == ' ' && Stops(rest[1..])))
    ensures OneCommand(w + rest) == Fine(Cmd(None, [w]), SkipBlanks(rest)) && SkipBlanks(w + rest) == w + rest
    ensures Words(" " + w + rest) == Fine([w], SkipBlanks(rest))
  {
    hide Word, Words, SkipBlanks, Unquoted;
    WordHere(w, rest);
    EndsHere(rest);
    WordsStep(rest);
    assert [w] + [] == [w];
    WordsStep(" " + w + rest);
    assert " " + w + rest == " " + (w + rest);
    Rendering.SkipOne(w + rest);
  }

  lemma NoBlank(s: string)
    requires s == [] || s[0] != ' '
    ensures SkipBlanks(s) == s
  {
  }

  /** A semicolon: the line parses, and the compiler panics. */
  lemma SequencePanics(aliases: seq<Prefs.Rule>)
    ensures var a, b := Simple(Cmd(None, ["a"])), Simple(Cmd(None, ["b"]));
            && Line("a;b") == Fine(Sequence(a, [SequenceClause(Wait, b)]), [])
            && Read(aliases, Text("a;b")).Panic?
  {
    hide Word, Words, OneCommand, Steps, Clauses;
    var s := "a;b";
    OneWordHere("a", ";b");
    OneWordHere("b", "");
    NoBlank(";b");
    NoBlank("");
    assert s == "a" + ";b" && ";b"[1..] == "b" + "" && "b" == "b" + "";
    ClausesStep(";b");
    ClausesStep("");
    StepsStep(";b");
    StepsStep("");
    assert OnePipe(s) == Fine(Simple(Cmd(None, ["a"])), ";b");
    assert OnePipe("b") == Fine(Simple(Cmd(None, ["b"])), "");
    var clause := SequenceClause(Wait, Simple(Cmd(None, ["b"])));
    assert [clause] + [] == [clause];
    assert Steps(";b") == Fine([clause], "");
  }

  // --- The driver ---

  /** Changing to a directory that does not exist: whoever waits sees a failure, the frontend is told 0. */
  lemma MissingDirectoryReportsZero(p: Pid, dir: string, pipes: WritePipes, text: Bytes)
    requires pipes.stdout != pipes.stderr
    ensures var cmd := RunCmd(SetDirectory(dir), pipes);
            var b := NewBackend().(sched := EmptySchedule<RunCmd, ProcessState>().Add(p, Job(cmd, map[])));
            && p in b.sched.Runnable()
            && Dispatch(b, p, false, text).Returned?
            && Dispatch(b, p, false, text).value.sched.done[p] == Failure
            && Dispatch(b, p, false, text).value.log == [Ran(p), Sent(CommandDone(p, 0))]
  {
    var cmd := RunCmd(SetDirectory(dir), pipes);
    var b := NewBackend().(sched := EmptySchedule<RunCmd, ProcessState>().Add(p, Job(cmd, map[])));
    DriverLemmas.PerformOutputs(b.pipes, pipes);
    assert OpsOf(cmd, false) == Outputs(pipes);
    assert b.sched.jobs == map[p := Job(cmd, map[])];
    assert !b.sched.Blocked(p) && !b.sched.Contradicts(p, Failure);
    assert PerformOps(b.pipes, OpsOf(cmd, false)).Returned?;
    assert [] + [Ran(p), Sent(CommandDone(p, 0))] == [Ran(p), Sent(CommandDone(p, 0))];
  }
}
