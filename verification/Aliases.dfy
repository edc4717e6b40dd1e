// What alias expansion means: rules as patterns with a unique substitution.

module Aliases {
  import opened Protocol
  import opened Prefs

  function VarIds(items: seq<Item>): set<nat> {
    set i | i in items && i.Variable? :: i.id
  }

  function ExpandoIds(items: seq<Item>): set<nat> {
    set i | i in items && i.Expando? :: i.id
  }

  /** No id occurs twice, whatever its kind. */
  predicate Once(items: seq<Item>) {
    items != [] ==>
      Once(items[1..]) && (items[0].Literal? || items[0].id !in VarIds(items[1..]) + ExpandoIds(items[1..]))
  }

  /** A find side in good order: no id occurs twice and only the last item is an expando. */
  predicate Pattern(items: seq<Item>) {
    Once(items) && forall i :: 0 <= i < |items| - 1 ==> !items[i].Expando?
  }

  predicate EndsOpen(items: seq<Item>) {
    items != [] && items[|items| - 1].Expando?
  }

  predicate Covers(items: seq<Item>, b: Bindings) {
    VarIds(items) <= b.vars.Keys && ExpandoIds(items) <= b.expandos.Keys
  }

  function FillItem(item: Item, b: Bindings): Words
    requires Covers([item], b)
  {
    assert item in [item];
    match item
    case Literal(word) => [word]
    case Variable(id) => [b.vars[id]]
    case Expando(id) => b.expandos[id]
  }

  /** `items` with the bindings substituted. */
  function Fill(items: seq<Item>, b: Bindings): Words
    requires Covers(items, b)
  {
    if items == [] then []
    else
      assert items[0] in items;
      FillItem(items[0], b) + Fill(items[1..], b)
  }

  /** `b` binds exactly the ids of `items`, and `items` so filled is what `cmd` starts
      with, or all of `cmd` if it ends in an expando. */
  ghost predicate Fits(items: seq<Item>, b: Bindings, cmd: Words) {
    && b.vars.Keys == VarIds(items)
    && b.expandos.Keys == ExpandoIds(items)
    && (if EndsOpen(items) then Fill(items, b) == cmd else Fill(items, b) <= cmd)
  }

  function Join(a: Bindings, b: Bindings): Bindings {
    Bindings(a.vars + b.vars, a.expandos + b.expandos)
  }

  /** The substitution under which `items` fits `words`, found from the left. */
  function Solve(items: seq<Item>, words: Words): Option<Bindings> {
    if items == [] then Some(NO_BINDINGS)
    else
      match items[0]
      case Expando(id) => Some(Bindings(map[], map[id := words]))
      case Literal(word) => if words != [] && words[0] == word then Solve(items[1..], words[1..]) else None
      case Variable(id) =>
        if words == [] then None
        else
          match Solve(items[1..], words[1..])
          case None => None
          case Some(b) => Some(b.(vars := b.vars[id := words[0]]))
  }

  lemma IdsSplit(items: seq<Item>)
    requires items != []
    ensures VarIds(items) == VarIds(items[1..]) + if items[0].Variable? then {items[0].id} else {}
    ensures ExpandoIds(items) == ExpandoIds(items[1..]) + if items[0].Expando? then {items[0].id} else {}
  {
    assert items == [items[0]] + items[1..];
    assert items[0] in items;
    assert forall i :: i in items[1..] ==> i in items;
  }

  lemma PatternTail(items: seq<Item>)
    requires Pattern(items) && items != []
    ensures Pattern(items[1..])
    ensures items[0].Literal? || items[0].id !in VarIds(items[1..]) + ExpandoIds(items[1..])
    ensures items[0].Expando? <==> |items| == 1 && EndsOpen(items)
    ensures |items| > 1 ==> (EndsOpen(items[1..]) <==> EndsOpen(items))
    ensures |items| == 1 ==> !EndsOpen(items[1..])
  {
    forall i | 0 <= i < |items[1..]| - 1 ensures !items[1..][i].Expando? {
      assert items[1..][i] == items[i + 1];
    }
  }

  lemma JoinVariable(b: Bindings, d: Bindings, id: nat, word: string)
    requires id !in d.vars
    ensures Join(b.(vars := b.vars[id := word]), d) == Join(b, d.(vars := d.vars[id := word]))
  {
  }

  lemma JoinLast(b: Bindings, id: nat, words: Words)
    ensures Join(b, NO_BINDINGS) == b
    ensures Join(b, Bindings(map[], map[id := words])) == b.(expandos := b.expandos[id := words])
  {
  }

  /** The loop over the find side computes `Solve`, and none of its asserts fails. */
  lemma {:induction false} MatchSolves(items: seq<Item>, cur: Cursor, b: Bindings)
    requires Pattern(items) && (cur.next.None? ==> cur.it == [])
    requires VarIds(items) + ExpandoIds(items) !! b.vars.Keys + b.expandos.Keys
    ensures MatchFind(items, cur, b)
         == match Solve(items, cur.Remaining()) case None => NoMatch case Some(c) => Matched(Join(b, c))
    decreases items
  {
    hide Pattern, Join, VarIds, ExpandoIds, Fits;
    if items == [] {
      JoinLast(b, 0, []);
    } else {
      PatternTail(items);
      IdsSplit(items);
      if cur.next.Some? {
        assert cur.Remaining()[0] == cur.next.value && cur.Remaining()[1..] == cur.it == cur.Advance().Remaining();
      }
      match items[0] {
        case Expando(id) =>
          JoinLast(b, id, cur.Remaining());
          assert items[1..] == [];
        case Literal(word) =>
          if cur.next == Some(word) { MatchSolves(items[1..], cur.Advance(), b); }
        case Variable(id) =>
          if cur.next.Some? {
            MatchSolves(items[1..], cur.Advance(), b.(vars := b.vars[id := cur.next.value]));
            MatchVariable(items, cur, b);
          }
      }
    }
  }

  lemma MatchVariable(items: seq<Item>, cur: Cursor, b: Bindings)
    requires Pattern(items) && items != [] && items[0].Variable? && cur.next.Some?
    ensures var solved := Solve(items[1..], cur.Advance().Remaining());
            solved.Some? ==>
              Join(b.(vars := b.vars[items[0].id := cur.next.value]), solved.value)
              == Join(b, solved.value.(vars := solved.value.vars[items[0].id := cur.next.value]))
  {
    PatternTail(items);
    SolveFits(items[1..], cur.Advance().Remaining());
    var solved := Solve(items[1..], cur.Advance().Remaining());
    if solved.Some? {
      JoinVariable(b, solved.value, items[0].id, cur.next.value);
    }
  }

  lemma FillSame(items: seq<Item>, a: Bindings, b: Bindings)
    requires Covers(items, a) && Covers(items, b)
    requires forall id :: id in VarIds(items) ==> a.vars[id] == b.vars[id]
    requires forall id :: id in ExpandoIds(items) ==> a.expandos[id] == b.expandos[id]
    ensures Fill(items, a) == Fill(items, b)
  {
    if items != [] {
      IdsSplit(items);
      FillSame(items[1..], a, b);
    }
  }

  lemma {:induction false} SolveFits(items: seq<Item>, words: Words)
    requires Pattern(items)
    ensures Solve(items, words).Some? ==> Fits(items, Solve(items, words).value, words)
    decreases items
  {
    if items != [] && Solve(items, words).Some? {
      PatternTail(items);
      IdsSplit(items);
      var b := Solve(items, words).value;
      match items[0] {
        case Expando(id) => assert items[1..] == [];
        case Literal(word) =>
          SolveFits(items[1..], words[1..]);
          assert words == [words[0]] + words[1..];
        case Variable(id) =>
          SolveFits(items[1..], words[1..]);
          FillSame(items[1..], Solve(items[1..], words[1..]).value, b);
          assert words == [words[0]] + words[1..];
      }
    }
  }

  lemma FitsRest(items: seq<Item>, b: Bindings, words: Words)
    requires Pattern(items) && items != [] && items[0].Variable? && Fits(items, b, words)
    ensures words != [] && words[0] == b.vars[items[0].id]
    ensures Fits(items[1..], b.(vars := b.vars - {items[0].id}), words[1..])
  {
    PatternTail(items);
    IdsSplit(items);
    FillSame(items[1..], b, b.(vars := b.vars - {items[0].id}));
    assert Fill(items, b)[1..] == Fill(items[1..], b);
  }

  /** A substitution that fits is the one found from the left. */
  lemma {:induction false} FitsIsSolved(items: seq<Item>, b: Bindings, words: Words)
    requires Pattern(items) && Fits(items, b, words)
    ensures Solve(items, words) == Some(b)
    decreases items
  {
    hide Pattern;
    if items == [] {
      assert b.vars == map[] && b.expandos == map[];
    } else {
      PatternTail(items);
      IdsSplit(items);
      match items[0] {
        case Expando(id) =>
          FitsExpando(items, b, words);
        case Literal(word) =>
          assert Fill(items, b)[1..] == Fill(items[1..], b);
          FitsIsSolved(items[1..], b, words[1..]);
        case Variable(id) =>
          FitsRest(items, b, words);
          FitsIsSolved(items[1..], b.(vars := b.vars - {id}), words[1..]);
          assert b.vars == (b.vars - {id})[id := words[0]];
      }
    }
  }

  lemma FitsExpando(items: seq<Item>, b: Bindings, words: Words)
    requires |items| == 1 && items[0].Expando? && Fits(items, b, words)
    ensures b == Bindings(map[], map[items[0].id := words])
  {
    IdsSplit(items);
    assert items[1..] == [] && Fill(items, b) == b.expandos[items[0].id];
    assert b.vars == map[];
  }

  /** The find side matches exactly the commands it fits, with the one substitution under
      which it fits, and its asserts never fail. */
  lemma MatchExact(find: seq<Item>, cmd: Words)
    requires Pattern(find)
    ensures var v := MatchFind(find, StartOf(cmd), NO_BINDINGS);
            && v != Bad
            && (v.Matched? ==> Fits(find, v.bound, cmd))
            && (forall b :: Fits(find, b, cmd) ==> v == Matched(b))
  {
    MatchSolves(find, StartOf(cmd), NO_BINDINGS);
    assert StartOf(cmd).Remaining() == cmd;
    SolveFits(find, cmd);
    forall b: Bindings ensures Join(NO_BINDINGS, b) == b {
      assert map[] + b.vars == b.vars && map[] + b.expandos == b.expandos;
    }
    forall b | Fits(find, b, cmd) ensures Solve(find, cmd) == Some(b) {
      FitsIsSolved(find, b, cmd);
    }
  }

  /** A replace side that uses each binding at most once is filled in without a panic. */
  lemma {:induction false} BuildFills(items: seq<Item>, b: Bindings)
    requires Once(items) && Covers(items, b)
    ensures Build(items, b) == Returned(Fill(items, b))
    decreases items
  {
    if items != [] {
      IdsSplit(items);
      var rest := BuildItem(items[0], b).value.1;
      assert Covers(items[1..], rest);
      FillSame(items[1..], b, rest);
      BuildFills(items[1..], rest);
    }
  }

  /** A rule whose find side is in good order and whose replace side uses what it binds at most once. */
  predicate Sound(rule: Rule) {
    && Pattern(rule.find) && Once(rule.replace)
    && VarIds(rule.replace) <= VarIds(rule.find) && ExpandoIds(rule.replace) <= ExpandoIds(rule.find)
  }

  lemma ApplySound(rule: Rule, cmd: Words)
    requires Sound(rule)
    ensures Apply(rule, cmd).None? <==> !exists b :: Fits(rule.find, b, cmd)
    ensures forall b :: Fits(rule.find, b, cmd) ==>
              Covers(rule.replace, b) && Apply(rule, cmd) == Some(Returned(Fill(rule.replace, b)))
  {
    MatchExact(rule.find, cmd);
    forall b | Fits(rule.find, b, cmd) ensures Apply(rule, cmd) == Some(Returned(Fill(rule.replace, b))) {
      BuildFills(rule.replace, b);
    }
  }

  ghost predicate Reaches(rules: seq<Rule>, k: nat, b: Bindings, cmd: Words)
    requires k < |rules|
  {
    Fits(rules[k].find, b, cmd) && forall j, c :: 0 <= j < k ==> !Fits(rules[j].find, c, cmd)
  }

  /** Expansion applies the first rule that fits, under its one substitution, and returns
      the command unchanged if none does. */
  lemma {:induction false} ExpandsFirst(rules: seq<Rule>, cmd: Words)
    requires forall r :: r in rules ==> Sound(r)
    ensures Expanded(rules, cmd).Returned?
    ensures (forall k, b :: 0 <= k < |rules| ==> !Fits(rules[k].find, b, cmd)) ==> Expanded(rules, cmd) == Returned(cmd)
    ensures forall k, b :: 0 <= k < |rules| && Reaches(rules, k, b, cmd) ==>
              Covers(rules[k].replace, b) && Expanded(rules, cmd) == Returned(Fill(rules[k].replace, b))
  {
    if rules != [] {
      assert rules[0] in rules;
      ApplySound(rules[0], cmd);
      ExpandsFirst(rules[1..], cmd);
      forall k, b | 0 <= k < |rules| && Reaches(rules, k, b, cmd)
        ensures Covers(rules[k].replace, b) && Expanded(rules, cmd) == Returned(Fill(rules[k].replace, b))
      {
        if k > 0 {
          assert !exists c :: Fits(rules[0].find, c, cmd);
          forall j, c | 0 <= j < k - 1 ensures !Fits(rules[1..][j].find, c, cmd) {
            assert rules[1..][j] == rules[j + 1];
          }
          assert Reaches(rules[1..], k - 1, b, cmd);
        }
      }
      if forall k, b :: 0 <= k < |rules| ==> !Fits(rules[k].find, b, cmd) {
        forall k, b | 0 <= k < |rules[1..]| ensures !Fits(rules[1..][k].find, b, cmd) {
          assert rules[1..][k] == rules[k + 1];
        }
        assert forall b :: !Fits(rules[0].find, b, cmd);
      }
    }
  }

  /** If both sides end in an expando and bind the same ids, the reversed rule undoes the rule. */
  lemma ReverseUndoes(rule: Rule, cmd: Words, b: Bindings)
    requires Pattern(rule.find) && Pattern(rule.replace) && EndsOpen(rule.find) && EndsOpen(rule.replace)
    requires VarIds(rule.find) == VarIds(rule.replace) && ExpandoIds(rule.find) == ExpandoIds(rule.replace)
    requires Fits(rule.find, b, cmd)
    ensures Expanded([rule], cmd).Returned?
    ensures Expanded([Rule(rule.replace, rule.find)], Expanded([rule], cmd).value) == Returned(cmd)
  {
    ApplySound(rule, cmd);
    var back := Rule(rule.replace, rule.find);
    assert Fits(back.find, b, Fill(rule.replace, b));
    ApplySound(back, Fill(rule.replace, b));
  }
}
