// The abstract syntax of a command line (frontend/src/parse.rs).

module Syntax {
  import opened Protocol

  datatype Stream = Stdout | Stderr

  datatype Cmd = Cmd(remote: Option<string>, words: seq<string>)

  datatype Target = File(path: string) | Into(ast: Ast)

  datatype RedirectClause = RedirectClause(stream: Stream, target: Target)

  datatype SequenceType = Wait | And | Or

  datatype SequenceClause = SequenceClause(kind: SequenceType, ast: Ast)

  datatype Ast =
    | Empty
    | Simple(cmd: Cmd)
    | Sequence(first: Ast, rest: seq<SequenceClause>)
    | Redirect(head: Ast, clauses: seq<RedirectClause>)
}
