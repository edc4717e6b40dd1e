// Command aliases (frontend/src/prefs.rs).  The find side of a rule is matched
// against the words of a command with an iterator and one word of lookahead; the
// replace side consumes what was matched.

module Prefs {
  import opened Protocol

  type Words = seq<string>

  datatype Item = Literal(word: string) | Variable(id: nat) | Expando(id: nat)

  datatype Rule = Rule(find: seq<Item>, replace: seq<Item>)

  // The lookahead and what the iterator still holds.  An expando drains the
  // iterator but leaves the lookahead in place.
  datatype Cursor = Cursor(next: Option<string>, it: Words) {
    function Advance(): Cursor {
      if it == [] then Cursor(None, []) else Cursor(Some(it[0]), it[1..])
    }

    function Remaining(): Words {
      if next.None? then [] else [next.value] + it
    }
  }

  datatype Bindings = Bindings(vars: map<nat, string>, expandos: map<nat, Words>) {
    predicate Binds(id: nat) {
      id in vars || id in expandos
    }
  }

  function StartOf(cmd: Words): Cursor {
    Cursor(None, cmd).Advance()
  }

  datatype Verdict = Matched(bound: Bindings) | NoMatch | Bad

  /** One item of the find side: the cursor and the bindings after it. */
  function MatchItem(item: Item, cur: Cursor, b: Bindings): (Verdict, Cursor) {
    match item
    case Literal(word) =>
      if cur.next == Some(word) then (Matched(b), cur.Advance()) else (NoMatch, cur)
    case Variable(id) =>
      if b.Binds(id) then (Bad, cur) // assert!
      else if cur.next.Some? then (Matched(b.(vars := b.vars[id := cur.next.value])), cur.Advance())
      else (NoMatch, cur)
    case Expando(id) =>
      if b.Binds(id) then (Bad, cur) // assert!
      else (Matched(b.(expandos := b.expandos[id := cur.Remaining()])), if cur.next.Some? then cur.(it := []) else cur)
  }

  function MatchFind(items: seq<Item>, cur: Cursor, b: Bindings): Verdict {
    if items == [] then Matched(b)
    else
      var (v, after) := MatchItem(items[0], cur, b);
      if v.Matched? then MatchFind(items[1..], after, v.bound) else v
  }

  /** The replace side, each binding being used up by its first use. */
  function Build(items: seq<Item>, b: Bindings): Outcome<Words> {
    if items == [] then Returned([])
    else
      match BuildItem(items[0], b)
      case Panicked => Panicked
      case Returned((words, rest)) =>
        match Build(items[1..], rest)
        case Panicked => Panicked
        case Returned(more) => Returned(words + more)
  }

  function BuildItem(item: Item, b: Bindings): Outcome<(Words, Bindings)> {
    match item
    case Literal(word) => Returned(([word], b))
    case Variable(id) =>
      if id !in b.vars then Panicked // unwrap
      else Returned(([b.vars[id]], b.(vars := b.vars - {id})))
    case Expando(id) =>
      if id !in b.expandos then Panicked // unwrap
      else Returned((b.expandos[id], b.(expandos := b.expandos - {id})))
  }

  const NO_BINDINGS := Bindings(map[], map[])

  function Apply(rule: Rule, cmd: Words): Option<Outcome<Words>> {
    match MatchFind(rule.find, StartOf(cmd), NO_BINDINGS)
    case NoMatch => None
    case Bad => Some(Panicked)
    case Matched(b) => Some(Build(rule.replace, b))
  }

  /** The first rule that matches decides. */
  function Expanded(rules: seq<Rule>, cmd: Words): Outcome<Words> {
    if rules == [] then Returned(cmd)
    else
      match Apply(rules[0], cmd)
      case Some(r) => r
      case None => Expanded(rules[1..], cmd)
  }

  lemma Prepended(done: Words, words: Words, more: Words)
    ensures done + (words + more) == (done + words) + more
  {
  }

  // The second half of `Expand`: the output of the rule that matched.
  method Construct(items: seq<Item>, matched: Bindings) returns (out: Outcome<Words>)
    ensures out == Build(items, matched)
  {
    var bound := matched;
    var res: Words := [];
    assert items[0..] == items;
    for i := 0 to |items|
      invariant Build(items[i..], bound).Panicked? <==> Build(items, matched).Panicked?
      invariant Build(items[i..], bound).Returned? ==>
                  Build(items, matched).value == res + Build(items[i..], bound).value
    {
      assert items[i..][1..] == items[i + 1..];
      ghost var before := res;
      match items[i] {
        case Literal(word) =>
          res := res + [word];
        case Variable(id) =>
          if id !in bound.vars {
            return Panicked;
          }
          res := res + [bound.vars[id]];
          bound := bound.(vars := bound.vars - {id});
        case Expando(id) =>
          if id !in bound.expandos {
            return Panicked;
          }
          res := res + bound.expandos[id];
          bound := bound.(expandos := bound.expandos - {id});
      }
      if Build(items[i + 1..], bound).Returned? {
        Prepended(before, res[|before|..], Build(items[i + 1..], bound).value);
      }
    }
    assert items[|items|..] == [];
    assert res + [] == res;
    out := Returned(res);
  }

  method Expand(aliases: seq<Rule>, cmd: Words) returns (out: Outcome<Words>)
    ensures out == Expanded(aliases, cmd)
  {
    label outer:
    for r := 0 to |aliases|
      invariant Expanded(aliases, cmd) == Expanded(aliases[r..], cmd)
    {
      var rule := aliases[r];
      var bound := NO_BINDINGS;
      var cur := StartOf(cmd);
      assert aliases[r..][1..] == aliases[r + 1..];
      assert rule.find[0..] == rule.find;
      for i := 0 to |rule.find|
        invariant MatchFind(rule.find, StartOf(cmd), NO_BINDINGS) == MatchFind(rule.find[i..], cur, bound)
      {
        assert rule.find[i..][1..] == rule.find[i + 1..];
        match rule.find[i] {
          case Literal(word) =>
            if cur.next == Some(word) {
              cur := cur.Advance();
            } else {
              continue outer;
            }
          case Variable(id) =>
            if bound.Binds(id) {
              return Panicked;
            }
            if cur.next.Some? {
              bound := bound.(vars := bound.vars[id := cur.next.value]);
              cur := cur.Advance();
            } else {
              continue outer;
            }
          case Expando(id) =>
            if bound.Binds(id) {
              return Panicked;
            }
            var words: Words := [];
            if cur.next.Some? {
              words := [cur.next.value];
              words := words + cur.it;
              cur := cur.(it := []);
            }
            bound := bound.(expandos := bound.expandos[id := words]);
        }
      }
      out := Construct(rule.replace, bound);
      return;
    }
    assert aliases[|aliases|..] == [];
    out := Returned(cmd);
  }
}
