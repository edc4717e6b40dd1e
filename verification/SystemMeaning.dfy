// What a command line shows: if its commands write what they make of their input, the frontend
// receives, from the two pipes it collects, what the command line means.

module SystemMeaning {
  import opened Protocol
  import opened ClientSide
  import opened Compiler
  import opened Dataflow
  import opened Interpretation
  import opened Meaning
  import opened Parsing
  import opened Plans
  import opened Reading
  import opened Requests
  import opened System
  import opened SystemMoves
  import opened SystemRuns
  import opened SystemWiring
  import Prefs
  import Syntax

  /** The bytes that flow through the pipes of a line: each of its commands writes what `run` makes of
      its input, and nothing flows through a pipe that no command writes. */
  ghost predicate Carries(steps: seq<Step>, b: Submission, run: Program, content: map<PipeId, Bytes>) {
    && (forall r :: r in b.line && r.BeginCommand? ==>
          var p := r.cmd.pipes;
          (BytesOf(content, p.stdout), BytesOf(content, p.stderr)) == run(r.cmd.cmd, BytesOf(content, p.stdin)))
    && (forall k :: 0 <= k < |b.ids| && !Written(steps, k) ==> BytesOf(content, b.ids[k]) == [])
  }

  function PlanEnv(ids: seq<PipeId>, content: map<PipeId, Bytes>): Env {
    map k: nat | 0 <= k < |ids| :: BytesOf(content, ids[k])
  }

  lemma CarriesBalanced(steps: seq<Step>, b: Submission, run: Program, content: map<PipeId, Bytes>, stdin: nat)
    requires Wires(steps, b.ids, b.line) && Carries(steps, b, run, content)
    ensures Balanced(steps, run, stdin, [], PlanEnv(b.ids, content))
  {
    hide Wires, Written;
    var env := PlanEnv(b.ids, content);
    forall i | 0 <= i < |steps| ensures Obeys(steps[i], run, env) {
      if Runs(steps[i]) {
        var r := StepSent(steps, b.ids, b.line, i);
      }
    }
  }

  // What has been read of the pipe is the beginning of what flows through it.
  predicate ReadSoFar(s: System, id: PipeId, content: map<PipeId, Bytes>) {
    BytesOf(s.produced, id) <= BytesOf(content, id)
  }

  /** All that flows through the pipe has been read, and none of it is still under way to the frontend. */
  ghost predicate Complete(s: System, id: PipeId, content: map<PipeId, Bytes>) {
    DataOf(Under(s.outbox, s.local, id)) == [] && BytesOf(s.produced, id) == BytesOf(content, id)
  }

  lemma ReceivedExactly(s: System, id: PipeId, content: map<PipeId, Bytes>)
    requires Invariant(s) && ReadSoFar(s, id, content)
    ensures Only(s.delivered, {id}) <= BytesOf(content, id)
    ensures Only(s.delivered, {id}) == BytesOf(content, id) <==> Complete(s, id, content)
  {
    hide Invariant, Only, Under, DataOf;
    PipeConserved(s, id);
  }

  /** What the frontend has received from the two pipes that it collects for `line` is the beginning of the output
      and of the errors that evaluating the line yields; and it is all of it exactly when all that flows
      through the pipe has been read and nothing of it is under way. */
  ghost predicate Shows(aliases: seq<Prefs.Rule>, line: string, run: Program, content: map<PipeId, Bytes>, s: System,
                        b: Submission)
    requires |b.ids| >= 2 && Line(line).Fine?
  {
    var meant := Eval(aliases, run, Line(line).value, []);
    && Only(s.delivered, {b.ids[0]}) <= meant.out && Only(s.delivered, {b.ids[1]}) <= meant.err
    && (Only(s.delivered, {b.ids[0]}) == meant.out <==> Complete(s, b.ids[0], content))
    && (Only(s.delivered, {b.ids[1]}) == meant.err <==> Complete(s, b.ids[1], content))
  }

  // The commands of `line` write what `run` makes of their input, and what has been read is part of it.
  ghost predicate Flowing(aliases: seq<Prefs.Rule>, line: string, run: Program, content: map<PipeId, Bytes>, s: System,
                          b: Submission)
    requires |b.ids| >= 2 && Read(aliases, Text(line)).Ok?
  {
    && Carries(Read(aliases, Text(line)).value.steps, b, run, content)
    && ReadSoFar(s, b.ids[0], content) && ReadSoFar(s, b.ids[1], content)
  }

  lemma LineShown(aliases: seq<Prefs.Rule>, line: string, run: Program, content: map<PipeId, Bytes>, s: System,
                  b: Submission)
    requires Invariant(s) && Read(aliases, Text(line)).Ok? && |b.ids| >= 2
    requires Wires(Read(aliases, Text(line)).value.steps, b.ids, b.line) && Flowing(aliases, line, run, content, s, b)
    ensures Line(line).Fine? && Shows(aliases, line, run, content, s, b)
  {
    hide Invariant, Compiled, Wires, Carries, Eval, Balanced, Flow, FilesFrom, Only, Under, ReadSoFar, Complete, Line;
    var ast := Line(line).value;
    var plan, env := Compiled(aliases, ROOT, ast).value, PlanEnv(b.ids, content);
    CompiledMeans(aliases, ROOT, run, ast, [], env);
    CarriesBalanced(plan.steps, b, run, content, plan.stdin.value);
    ReceivedExactly(s, b.ids[0], content);
    ReceivedExactly(s, b.ids[1], content);
  }

  /** Whatever line is typed in whatever run, and however the run goes on: at any time, in particular at a
      prompt, the frontend has received a beginning of what the line means, and all of it exactly when
      nothing is missing. */
  lemma TypedIsShown(aliases: seq<Prefs.Rule>, before: seq<Move>, line: string, after: seq<Move>)
    returns (b: Submission)
    requires Legal(aliases, before + [Prompt(Text(line))] + after)
    requires Played(aliases, before + [Prompt(Text(line))] + after).Returned?
    requires Read(aliases, Text(line)).Ok?
    ensures Line(line).Fine? && |b.ids| >= 2 && Wires(Read(aliases, Text(line)).value.steps, b.ids, b.line)
    ensures var s := Played(aliases, before + [Prompt(Text(line))] + after).value;
            b.ids[0] in s.c.stdoutPipes && b.ids[1] in s.c.stderrPipes
    ensures var s := Played(aliases, before + [Prompt(Text(line))] + after).value;
            forall run, content :: Flowing(aliases, line, run, content, s, b) ==>
              Shows(aliases, line, run, content, s, b)
  {
    hide Invariant, Legal, Played, Read, Wires, Flowing, Shows, Realized, CarriedOut;
    b := LineRealized(aliases, before, Text(line), after);
    Safe(aliases, before + [Prompt(Text(line))] + after);
    var s := Played(aliases, before + [Prompt(Text(line))] + after).value;
    ReadIsParsed(aliases, line);
    forall run, content | Flowing(aliases, line, run, content, s, b) ensures Shows(aliases, line, run, content, s, b) {
      LineShown(aliases, line, run, content, s, b);
    }
  }

  lemma ReadIsParsed(aliases: seq<Prefs.Rule>, line: string)
    requires Read(aliases, Text(line)).Ok?
    ensures Line(line).Fine?
  {
  }

  /** The prompt does not wait for a line's output: as long as a pipe that flows has not ended, more of
      a program's output can come at a prompt, and is then not yet shown. */
  lemma LateOutput(s: System, id: PipeId, data: Bytes)
    requires Invariant(s) && s.taken <= |s.c.sent| && Prompting(s.c) && !s.over
    requires id in s.b.reading && id !in s.ended && Flows(s.b.pipes, id) && id !in s.b.written && data != []
    ensures Enabled(s, ReaderReads(id, data)) && Next(s, ReaderReads(id, data)).Returned?
    ensures var t := Next(s, ReaderReads(id, data)).value;
            && Prompting(t.c) && Invariant(t) && |Only(t.delivered, {id})| < |BytesOf(t.produced, id)|
  {
    hide Invariant, Only, Flows, BytesOf;
    MoveSafe(s, ReaderReads(id, data));
    PipeConserved(s, id);
    Grows(s.produced, id, data);
  }

  lemma Grows(produced: map<PipeId, Bytes>, id: PipeId, data: Bytes)
    ensures BytesOf(produced[id := BytesOf(produced, id) + data], id) == BytesOf(produced, id) + data
  {
  }
}
