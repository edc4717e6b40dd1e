// Which command lines compile: exactly those without a sequence whose commands all
// do; otherwise the first failure in compilation order decides.

module Compilable {
  import opened Syntax
  import opened Plans
  import opened Compiler
  import Prefs

  /** The commands and sequences of `ast` in the order in which they are compiled: the last redirection first. */
  function Leaves(ast: Ast): seq<Ast>
    decreases ast, 0
  {
    match ast
    case Empty => []
    case Simple(_) => [ast]
    case Sequence(_, _) => [ast]
    case Redirect(_, clauses) => LeavesUpTo(ast, |clauses|)
  }

  function LeavesUpTo(ast: Ast, n: nat): seq<Ast>
    requires ast.Redirect? && n <= |ast.clauses|
    decreases ast, 0, n + 1
  {
    if n == 0 then Leaves(ast.head)
    else
      (match ast.clauses[n - 1].target
       case File(_) => []
       case Into(target) => Leaves(target))
      + LeavesUpTo(ast, n - 1)
  }

  // How compiling ends, without the result.
  function Status<T>(r: Try<T>): Try<()> {
    match r
    case Ok(_) => Ok(())
    case Err(m) => Err(m)
    case Panic => Panic
  }

  function Check(aliases: seq<Prefs.Rule>, leaf: Ast): Try<()> {
    if leaf.Simple? then Status(ConvertSingle(aliases, leaf.cmd)) else Panic
  }

  /** The first failure among `leaves`. */
  function CheckAll(aliases: seq<Prefs.Rule>, leaves: seq<Ast>): Try<()> {
    if leaves == [] then Ok(())
    else if Check(aliases, leaves[0]).Ok? then CheckAll(aliases, leaves[1..])
    else Check(aliases, leaves[0])
  }

  lemma {:induction false} CheckAppend(aliases: seq<Prefs.Rule>, x: seq<Ast>, y: seq<Ast>)
    ensures CheckAll(aliases, x + y) == if CheckAll(aliases, x).Ok? then CheckAll(aliases, y) else CheckAll(aliases, x)
  {
    hide Check;
    if x == [] {
      assert x + y == y;
    } else {
      assert (x + y)[1..] == x[1..] + y;
      CheckAppend(aliases, x[1..], y);
    }
  }

  lemma CheckOne(aliases: seq<Prefs.Rule>, leaf: Ast)
    ensures CheckAll(aliases, [leaf]) == Check(aliases, leaf)
  {
    assert [leaf][1..] == [];
  }

  lemma {:induction false} ConvertStatus(aliases: seq<Prefs.Rule>, remote: nat, ast: Ast, b: Builder, stdout: nat,
                                         stderr: nat)
    requires Writable(b, stdout, stderr)
    ensures Status(Convert(aliases, remote, ast, b, stdout, stderr)) == CheckAll(aliases, Leaves(ast))
    decreases ast, 0
  {
    hide ConvertSingle, Check;
    CheckOne(aliases, ast);
    match ast {
      case Empty =>
      case Simple(cmd) => CheckSimple(aliases, cmd);
      case Sequence(_, _) => CheckSequence(aliases, ast);
      case Redirect(_, clauses) => ConvertFromStatus(aliases, remote, ast, |clauses|, b, stdout, stderr);
    }
  }

  lemma CheckSimple(aliases: seq<Prefs.Rule>, cmd: Cmd)
    ensures Check(aliases, Simple(cmd)) == Status(ConvertSingle(aliases, cmd))
  {
  }

  lemma CheckSequence(aliases: seq<Prefs.Rule>, ast: Ast)
    requires ast.Sequence?
    ensures Check(aliases, ast) == Panic
  {
  }

  lemma {:induction false} ConvertFromStatus(aliases: seq<Prefs.Rule>, remote: nat, ast: Ast, n: nat, b: Builder,
                                             stdout: nat, stderr: nat)
    requires ast.Redirect? && n <= |ast.clauses| && Writable(b, stdout, stderr)
    ensures Status(ConvertFrom(aliases, remote, ast, n, b, stdout, stderr)) == CheckAll(aliases, LeavesUpTo(ast, n))
    decreases ast, 0, n + 1
  {
    hide ConvertSingle, Check;
    if n == 0 {
      ConvertStatus(aliases, remote, ast.head, b, stdout, stderr);
    } else {
      var clause := ast.clauses[n - 1];
      var first := match clause.target case File(_) => [] case Into(target) => Leaves(target);
      CheckAppend(aliases, first, LeavesUpTo(ast, n - 1));
      if clause.target.Into? {
        ConvertStatus(aliases, remote, clause.target.ast, b, stdout, stderr);
      }
      var r := ConvertTarget(aliases, remote, ast, clause.target, b, stdout, stderr);
      if r.Ok? {
        var (c, fed) := r.value;
        if clause.stream.Stdout? {
          ConvertFromStatus(aliases, remote, ast, n - 1, c.WithPipe(), fed, |c.ends|);
        } else {
          ConvertFromStatus(aliases, remote, ast, n - 1, c.WithPipe(), |c.ends|, fed);
        }
      }
    }
  }

  lemma {:induction false} AllOk(aliases: seq<Prefs.Rule>, leaves: seq<Ast>)
    ensures CheckAll(aliases, leaves).Ok? <==> forall leaf :: leaf in leaves ==> Check(aliases, leaf).Ok?
  {
    hide Check;
    if leaves != [] {
      AllOk(aliases, leaves[1..]);
      assert forall leaf :: leaf in leaves <==> leaf == leaves[0] || leaf in leaves[1..];
    }
  }

  /** A line compiles exactly when it holds no sequence and each of its commands converts;
      otherwise it fails like the first of them that does not. */
  lemma CompilesExactly(aliases: seq<Prefs.Rule>, remote: nat, ast: Ast)
    ensures Status(Compiled(aliases, remote, ast)) == CheckAll(aliases, Leaves(ast))
    ensures Compiled(aliases, remote, ast).Ok? <==>
              forall leaf :: leaf in Leaves(ast) ==> leaf.Simple? && ConvertSingle(aliases, leaf.cmd).Ok?
  {
    hide ConvertSingle, Convert;
    ConvertStatus(aliases, remote, ast, NEW_BUILDER.WithPipe().WithPipe(), 0, 1);
    AllOk(aliases, Leaves(ast));
    assert forall leaf :: leaf in Leaves(ast) ==>
        (Check(aliases, leaf).Ok? <==> (leaf.Simple? && ConvertSingle(aliases, leaf.cmd).Ok?));
  }
}
