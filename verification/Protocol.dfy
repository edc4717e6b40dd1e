// Identifiers, statuses and messages shared by the frontend and the backend
// (protocol/src/lib.rs).

module Protocol {

  datatype Option<+T> = None | Some(value: T)

  /** The result of code that may panic.  A panic ends the thread that owns the
      state, so nothing is said about the state it leaves behind. */
  datatype Outcome<+T> = Panicked | Returned(value: T)

  // Identifiers come from one unbounded counter per endpoint.
  type Pid = nat
  type PipeId = nat

  // Bytes, and text as its bytes, with one character for each.
  type Bytes = string

  datatype ExitStatus = Success | Failure

  type Condition = Option<ExitStatus>

  datatype Command =
    | Unknown(path: string, args: seq<string>)
    | SetDirectory(dir: string)
    | GetDirectory
    | Edit(file: string)

  // A command's standard streams: it reads the first pipe and writes the others.
  datatype WritePipes = WritePipes(stdin: PipeId, stdout: PipeId, stderr: PipeId)

  function FromExitCode(code: int): (status: ExitStatus)
    ensures status == Success <==> code == 0
  {
    if code == 0 then Success else Failure
  }

  /** Whether a finished dependency with status `s` satisfies condition `c`. */
  predicate Met(c: Condition, s: ExitStatus)
    ensures Met(c, s) <==> c != Some(if s == Success then Failure else Success)
  {
    c.None? || c.value == s
  }

  /** The allocator behind process, pipe and remote identifiers. */
  class Ids {
    var nextId: nat

    constructor ()
      ensures nextId == 0
    {
      nextId := 0;
    }

    method Next() returns (res: nat)
      modifies this
      ensures res == old(nextId) && nextId == old(nextId) + 1
    {
      res := nextId;
      nextId := nextId + 1;
    }
  }
}
