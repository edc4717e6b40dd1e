// What the frontend reads at its prompt (frontend/src/edit.rs): a line is parsed and
// compiled; an interrupt gives the plan of an empty line; the end of the input, a plan that
// leaves the shell.

module Reading {
  import opened Protocol
  import opened Parsing
  import opened Plans
  import opened Compiler
  import Prefs
  import Utf8

  datatype Input = Text(line: string) | Interrupt | EndOfInput

  const EXIT_PLAN := Plan([Remote(0, Close)], None, 0, 0, [])

  function Read(aliases: seq<Prefs.Rule>, input: Input): Try<Plan> {
    match input
    case Text(line) =>
      (match Line(line)
       case Broken(_) => Panic
       case Fine(ast, _) => Compiled(aliases, 0, ast))
    case Interrupt => Ok(EMPTY_PLAN)
    case EndOfInput => Ok(EXIT_PLAN)
  }

  method GetCommand(aliases: seq<Prefs.Rule>, input: Input) returns (out: Try<Plan>)
    requires input.Text? ==> Utf8.WellFormed(input.line)
    ensures out == Read(aliases, input)
  {
    hide Line, Compiled;
    match input {
      case Text(line) => out := ParseCommandSimple(aliases, line);
      case Interrupt =>
        var plan := EmptyPlan();
        out := Ok(plan);
      case EndOfInput =>
        var p := new PlanBuilder();
        p.Exit(0);
        assert p.plan.steps == EXIT_PLAN.steps;
        out := Ok(p.plan);
    }
  }

  method ParseCommandSimple(aliases: seq<Prefs.Rule>, input: string) returns (out: Try<Plan>)
    requires Utf8.WellFormed(input)
    ensures out == Read(aliases, Text(input))
  {
    hide Line, Compiled;
    var cmd := ParseInput(input);
    if cmd.Panicked? {
      return Panic;
    }
    out := Compile(aliases, 0, cmd.value);
  }
}
