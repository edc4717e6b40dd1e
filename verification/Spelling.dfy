// Which command the words of a command line become: what alias expansion makes of them, and
// then a built-in, an edit or a program with its arguments.

module Spelling {
  import opened Protocol
  import opened Syntax
  import opened Plans
  import opened Compiler
  import opened Compilable
  import opened Pipeline
  import opened Reading
  import opened Rendering
  import Aliases
  import Meaning
  import Parsing
  import Prefs

  // --- One command ---

  predicate SoundRules(rules: seq<Prefs.Rule>) {
    forall r :: r in rules ==> Aliases.Sound(r)
  }

  /** `ws` is what the rules make of `words`: the first that fits is applied, or none fits. */
  ghost predicate Rewrites(rules: seq<Prefs.Rule>, words: Prefs.Words, ws: Prefs.Words) {
    || (exists k, b :: 0 <= k < |rules| && Aliases.Reaches(rules, k, b, words)
          && Aliases.Covers(rules[k].replace, b) && ws == Aliases.Fill(rules[k].replace, b))
    || ((forall k, b :: 0 <= k < |rules| ==> !Aliases.Fits(rules[k].find, b, words)) && ws == words)
  }

  lemma {:induction false} FirstThatFits(rules: seq<Prefs.Rule>, words: Prefs.Words, n: nat) returns (k: nat)
    requires n <= |rules|
    ensures k <= n
    ensures k < n ==> exists b :: Aliases.Reaches(rules, k, b, words)
    ensures forall j, b :: 0 <= j < k ==> !Aliases.Fits(rules[j].find, b, words)
    decreases n
  {
    hide Aliases.Fits;
    if n == 0 {
      k := 0;
    } else {
      k := FirstThatFits(rules, words, n - 1);
      if k == n - 1 && !exists b :: Aliases.Fits(rules[k].find, b, words) {
        k := n;
      } else if k == n - 1 {
        var b :| Aliases.Fits(rules[k].find, b, words);
        assert Aliases.Reaches(rules, k, b, words);
      }
    }
  }

  /** Sound rules make one thing of every command, and it is what the expansion computes. */
  lemma RewritesOnce(rules: seq<Prefs.Rule>, words: Prefs.Words, ws: Prefs.Words)
    requires SoundRules(rules)
    ensures Rewrites(rules, words, ws) <==> Prefs.Expanded(rules, words) == Returned(ws)
  {
    hide Aliases.Fits, Aliases.Sound, Aliases.Fill, Aliases.Covers, Prefs.Expanded;
    Aliases.ExpandsFirst(rules, words);
    var k := FirstThatFits(rules, words, |rules|);
    if k < |rules| {
      var b :| Aliases.Reaches(rules, k, b, words);
      assert Rewrites(rules, words, Aliases.Fill(rules[k].replace, b));
    }
  }

  /** The words, after expansion, of the command `c`. */
  predicate Spells(ws: seq<string>, c: Command) {
    match c
    case Unknown(path, args) => ws == [path] + args && path != "cd" && path != "micro" && path != "nak"
    case SetDirectory(dir) => ws == ["cd", dir]
    case Edit(file) => ws == ["micro", file]
    case GetDirectory => false
  }

  /** The command line's words `words` mean the command `c`. */
  ghost predicate Means(rules: seq<Prefs.Rule>, words: seq<string>, c: Command) {
    exists ws :: Rewrites(rules, words, ws) && Spells(ws, c)
  }

  /** Whatever the rules are, a command converts exactly to what its expanded words spell: a program with all its
      arguments, in order, or a built-in with its one argument.  A built-in without or with more than
      one is an error, each of its own; `nak`, and a command of which expansion leaves nothing, panic. */
  lemma ExpandedExact(rules: seq<Prefs.Rule>, remote: Option<string>, words: seq<string>, ws: seq<string>)
    requires Prefs.Expanded(rules, words) == Returned(ws)
    ensures var r := ConvertSingle(rules, Cmd(remote, words));
            && (forall c :: r == Ok(c) <==> Spells(ws, c))
            && (r == Err("not enough args") <==> ws == ["cd"] || ws == ["micro"])
            && (r == Err("bad too many args") <==> |ws| > 2 && (ws[0] == "cd" || ws[0] == "micro"))
            && (r == Panic <==> ws == [] || ws[0] == "nak")
  {
    hide Prefs.Expanded;
    var r := ConvertSingle(rules, Cmd(remote, words));
    if ws != [] {
      assert ws == [ws[0]] + ws[1..];
      forall c | Spells(ws, c) ensures r == Ok(c) {
        match c {
          case Unknown(path, args) => assert ws[1..] == args;
          case SetDirectory(dir) => assert ws[1..] == [dir];
          case Edit(file) => assert ws[1..] == [file];
        }
      }
    }
    assert "cd" != "micro" && "cd" != "nak" && "micro" != "nak";
    assert "not enough args" != "bad too many args" by { assert |"not enough args"| == 15; }
  }

  /** The same of what the rules, if they are sound, make of the words as typed: the first rule that fits is
      applied, and if none does the words stay as they are. */
  lemma CommandExact(rules: seq<Prefs.Rule>, remote: Option<string>, words: seq<string>, ws: seq<string>)
    requires SoundRules(rules) && Rewrites(rules, words, ws)
    ensures var r := ConvertSingle(rules, Cmd(remote, words));
            && (forall c :: r == Ok(c) <==> Spells(ws, c))
            && (r == Err("not enough args") <==> ws == ["cd"] || ws == ["micro"])
            && (r == Err("bad too many args") <==> |ws| > 2 && (ws[0] == "cd" || ws[0] == "micro"))
            && (r == Panic <==> ws == [] || ws[0] == "nak")
  {
    hide Rewrites, SoundRules, Prefs.Expanded, ConvertSingle, Spells;
    RewritesOnce(rules, words, ws);
    ExpandedExact(rules, remote, words, ws);
  }

  lemma MeansExactly(rules: seq<Prefs.Rule>, cmd: Cmd, c: Command)
    requires SoundRules(rules)
    ensures ConvertSingle(rules, cmd) == Ok(c) <==> Means(rules, cmd.words, c)
  {
    hide Spells, Rewrites, Prefs.Expanded, ConvertSingle, SoundRules;
    var expanded := Prefs.Expanded(rules, cmd.words);
    ExpansionReturns(rules, cmd.words);
    RewritesOnce(rules, cmd.words, expanded.value);
    CommandExact(rules, cmd.remote, cmd.words, expanded.value);
    forall ws | Rewrites(rules, cmd.words, ws) ensures ws == expanded.value {
      RewritesOnce(rules, cmd.words, ws);
    }
  }

  lemma ExpansionReturns(rules: seq<Prefs.Rule>, words: Prefs.Words)
    requires SoundRules(rules)
    ensures Prefs.Expanded(rules, words).Returned?
  {
    Aliases.ExpandsFirst(rules, words);
  }

  // --- All commands of a line ---

  /** `launches` starts the commands of `leaves`, in order. */
  ghost predicate StartsAll(rules: seq<Prefs.Rule>, leaves: seq<Ast>, launches: seq<Launch>) {
    && |launches| == |leaves|
    && forall i :: 0 <= i < |leaves| ==>
         leaves[i].Simple? && ConvertSingle(rules, leaves[i].cmd) == Ok(launches[i].cmd)
  }

  lemma StartsAppend(rules: seq<Prefs.Rule>, a: seq<Ast>, x: seq<Launch>, b: seq<Ast>, y: seq<Launch>)
    requires StartsAll(rules, a, x) && StartsAll(rules, b, y)
    ensures StartsAll(rules, a + b, x + y)
  {
  }

  lemma StartsOne(rules: seq<Prefs.Rule>, cmd: Cmd, launch: Launch)
    requires ConvertSingle(rules, cmd) == Ok(launch.cmd)
    ensures StartsAll(rules, [Simple(cmd)], [launch])
  {
  }

  lemma {:induction false} ConvertStarts(rules: seq<Prefs.Rule>, remote: nat, ast: Ast, b: Builder, stdout: nat,
                                         stderr: nat)
    requires Writable(b, stdout, stderr) && Convert(rules, remote, ast, b, stdout, stderr).Ok?
    ensures var c := Convert(rules, remote, ast, b, stdout, stderr).value.0;
            StartsAll(rules, Leaves(ast), Launches(Meaning.Added(b, c)))
    decreases ast, 0
  {
    hide ConvertSingle, StartsAll, Launches, Leaves;
    var c := Convert(rules, remote, ast, b, stdout, stderr).value.0;
    LeavesOf(ast);
    match ast {
      case Empty =>
        assert Meaning.Added(b, c) == [];
        StartsNothing(rules);
      case Simple(cmd) =>
        OneStage(rules, remote, cmd, b, stdout, stderr);
        StartsOne(rules, cmd, Launches(Meaning.Added(b, c))[0]);
      case Redirect(_, clauses) => ConvertFromStarts(rules, remote, ast, |clauses|, b, stdout, stderr);
    }
  }

  lemma LeavesOf(ast: Ast)
    ensures ast.Empty? ==> Leaves(ast) == []
    ensures ast.Redirect? ==> Leaves(ast) == LeavesUpTo(ast, |ast.clauses|)
    ensures ast.Simple? || ast.Sequence? ==> Leaves(ast) == [ast]
  {
  }

  lemma StartsNothing(rules: seq<Prefs.Rule>)
    ensures Launches([]) == [] && StartsAll(rules, [], Launches([]))
  {
  }

  lemma {:induction false} ConvertFromStarts(rules: seq<Prefs.Rule>, remote: nat, ast: Ast, n: nat, b: Builder,
                                             stdout: nat, stderr: nat)
    requires ast.Redirect? && n <= |ast.clauses| && Writable(b, stdout, stderr)
    requires ConvertFrom(rules, remote, ast, n, b, stdout, stderr).Ok?
    ensures var d := ConvertFrom(rules, remote, ast, n, b, stdout, stderr).value.0;
            StartsAll(rules, LeavesUpTo(ast, n), Launches(Meaning.Added(b, d)))
    decreases ast, 0, n + 1
  {
    hide ConvertSingle, StartsAll, Launches, Leaves, Convert;
    if n == 0 {
      ConvertStarts(rules, remote, ast.head, b, stdout, stderr);
    } else {
      var clause := ast.clauses[n - 1];
      var (c, fed) := ConvertTarget(rules, remote, ast, clause.target, b, stdout, stderr).value;
      var e := c.WithPipe();
      var (out, err) := if clause.stream.Stdout? then (fed, |c.ends|) else (|c.ends|, fed);
      var d := ConvertFrom(rules, remote, ast, n - 1, e, out, err).value.0;
      TargetStarts(rules, remote, ast, clause.target, b, stdout, stderr);
      ConvertFromStarts(rules, remote, ast, n - 1, e, out, err);
      var first, rest := Meaning.Added(b, c), Meaning.Added(e, d);
      assert Meaning.Added(b, d) == first + [Pipe] + rest;
      LaunchesOverPipe(first, rest);
      StartsAppend(rules, TargetLeaves(clause.target), Launches(first), LeavesUpTo(ast, n - 1), Launches(rest));
    }
  }

  function TargetLeaves(target: Target): seq<Ast> {
    match target
    case File(_) => []
    case Into(ast) => Leaves(ast)
  }

  lemma {:induction false} TargetStarts(rules: seq<Prefs.Rule>, remote: nat, whole: Ast, target: Target, b: Builder,
                                        stdout: nat, stderr: nat)
    requires Writable(b, stdout, stderr) && (target.Into? ==> target.ast < whole)
    requires ConvertTarget(rules, remote, whole, target, b, stdout, stderr).Ok?
    ensures var c := ConvertTarget(rules, remote, whole, target, b, stdout, stderr).value.0;
            StartsAll(rules, TargetLeaves(target), Launches(Meaning.Added(b, c)))
    decreases whole, 0, 0
  {
    hide ConvertSingle, StartsAll, Launches;
    match target {
      case File(path) =>
        var step := Remote(remote, RemoteStep.OpenOutputFile(path));
        assert Meaning.Added(b, b.WithFile(remote, path)) == [step];
        OpensOnly(step);
        StartsNothing(rules);
      case Into(ast) => ConvertStarts(rules, remote, ast, b, stdout, stderr);
    }
  }

  lemma OpensOnly(step: Step)
    requires LaunchOf(step) == []
    ensures Launches([step]) == []
  {
    assert [step][..0] == [];
  }

  /** A line that is read as a plan, whatever its redirections: the plan starts the commands that
      the line's words mean, each once, the last one first. */
  lemma LineCommands(rules: seq<Prefs.Rule>, line: string)
    requires SoundRules(rules) && Read(rules, Text(line)).Ok?
    ensures Parsing.Line(line).Fine?
    ensures var leaves, launches := Leaves(Parsing.Line(line).value), Launches(Read(rules, Text(line)).value.steps);
            && |launches| == |leaves|
            && forall i :: 0 <= i < |leaves| ==> leaves[i].Simple? && Means(rules, leaves[i].cmd.words, launches[i].cmd)
  {
    hide ConvertSingle, Launches, Leaves, Parsing.Line, SoundRules, Means, Convert;
    var ast := Parsing.Line(line).value;
    var b := NEW_BUILDER.WithPipe().WithPipe();
    var c := Convert(rules, 0, ast, b, 0, 1).value.0;
    ConvertStarts(rules, 0, ast, b, 0, 1);
    var added := Meaning.Added(b, c);
    assert c.plan.steps == [Pipe] + [Pipe] + added;
    LaunchesOverPipe([Pipe], added);
    LaunchesPipe();
    assert [] + Launches(added) == Launches(added);
    var launches := Launches(c.plan.steps);
    forall i | 0 <= i < |Leaves(ast)| ensures Means(rules, Leaves(ast)[i].cmd.words, launches[i].cmd) {
      MeansExactly(rules, Leaves(ast)[i].cmd, launches[i].cmd);
    }
  }

  // --- From words to a typed line ---

  predicate PlainLists(lists: seq<seq<string>>) {
    forall i :: 0 <= i < |lists| ==> lists[i] != [] && forall w :: w in lists[i] ==> PlainWord(w)
  }

  /** The pipeline whose commands have these words. */
  function PipeOf(lists: seq<seq<string>>): (ast: Ast)
    requires lists != [] && PlainLists(lists)
    ensures Emittable(ast) && (if |lists| == 1 then ast.Simple? else IsPipeline(ast))
  {
    var head := Simple(Cmd(None, lists[0]));
    if |lists| == 1 then head
    else
      var into := seq(|lists| - 1, k requires 0 <= k < |lists| - 1 =>
                        RedirectClause(Stream.Stdout, Into(Simple(Cmd(None, lists[k + 1])))));
      Redirect(head, into)
  }

  lemma {:induction false} PipeLeaves(ast: Ast, n: nat)
    requires IsPipeline(ast) && n <= |ast.clauses|
    ensures |LeavesUpTo(ast, n)| == n + 1
    ensures forall i :: 0 <= i <= n ==> LeavesUpTo(ast, n)[i] == Simple(Stage(ast, n - i))
  {
    if n > 0 {
      PipeLeaves(ast, n - 1);
      var last := ast.clauses[n - 1].target.ast;
      assert Leaves(last) == [last];
      assert LeavesUpTo(ast, n) == [last] + LeavesUpTo(ast, n - 1);
    }
  }

  lemma PipeOfLeaves(lists: seq<seq<string>>)
    requires lists != [] && PlainLists(lists)
    ensures |Leaves(PipeOf(lists))| == |lists|
    ensures forall i :: 0 <= i < |lists| ==> Leaves(PipeOf(lists))[i] == Simple(Cmd(None, lists[|lists| - 1 - i]))
  {
    var ast := PipeOf(lists);
    if |lists| > 1 {
      PipeLeaves(ast, |lists| - 1);
      forall i | 0 <= i < |lists| ensures Leaves(ast)[i] == Simple(Cmd(None, lists[|lists| - 1 - i])) {
        assert Stage(ast, |lists| - 1 - i) == Cmd(None, lists[|lists| - 1 - i]);
      }
    }
  }

  /** Typing a pipeline of commands whose words mean `cmds`: it is read as a plan that starts exactly these
      commands, the last one first. */
  lemma TypedCommands(rules: seq<Prefs.Rule>, lists: seq<seq<string>>, cmds: seq<Command>)
    requires SoundRules(rules) && lists != [] && PlainLists(lists) && |cmds| == |lists|
    requires forall i :: 0 <= i < |lists| ==> Means(rules, lists[i], cmds[i])
    ensures var read := Read(rules, Text(Render(PipeOf(lists))));
            && read.Ok? && |Launches(read.value.steps)| == |lists|
            && forall i :: 0 <= i < |lists| ==> Launches(read.value.steps)[i].cmd == cmds[|lists| - 1 - i]
  {
    hide Parsing.Line, Render, PipeOf, Leaves, Compiled, Launches, Means, SoundRules, ConvertSingle;
    var ast := PipeOf(lists);
    RoundTrip(ast);
    PipeOfLeaves(lists);
    var leaves := Leaves(ast);
    forall i | 0 <= i < |leaves|
      ensures leaves[i].Simple? && ConvertSingle(rules, leaves[i].cmd) == Ok(cmds[|lists| - 1 - i])
    {
      MeansExactly(rules, Cmd(None, lists[|lists| - 1 - i]), cmds[|lists| - 1 - i]);
    }
    CompilesExactly(rules, 0, ast);
    var line := Render(ast);
    LineCommands(rules, line);
    var launches := Launches(Read(rules, Text(line)).value.steps);
    forall i | 0 <= i < |lists| ensures launches[i].cmd == cmds[|lists| - 1 - i] {
      MeansExactly(rules, leaves[i].cmd, launches[i].cmd);
    }
  }
}
