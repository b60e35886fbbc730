/** Derivation trees of the grammar of parser.y: the independent meaning of "derives". */
module Derivations {
  import opened Syntax
  import opened LalrTables

  /** `ErrorLeaf` stands for bison's `error` token, which covers discarded input. */
  datatype Tree = Leaf(token: Token) | ErrorLeaf | Node(rule: int, kids: seq<Tree>)

  function Symbol(t: Tree): int {
    match t
    case Leaf(token) => Code(token.kind)
    case ErrorLeaf => YYTERROR
    case Node(rule, _) => Lhs(rule)
  }

  /** Every node's children spell the right-hand side of its rule. */
  predicate WellFormed(t: Tree) {
    t.Node? ==>
      IsRule(t.rule) && |t.kids| == |Rhs(t.rule)| &&
      forall i | 0 <= i < |t.kids| :: Symbol(t.kids[i]) == Rhs(t.rule)[i] && WellFormed(t.kids[i])
  }

  /** The tokens at the leaves, left to right. */
  function Yield(t: Tree): seq<Token>
    decreases t, 0
  {
    match t
    case Leaf(token) => [token]
    case ErrorLeaf => []
    case Node(_, kids) => YieldAll(kids)
  }

  function YieldAll(ts: seq<Tree>): seq<Token>
    decreases ts, 1
  {
    if ts == [] then [] else Yield(ts[0]) + YieldAll(ts[1..])
  }

  /** `line` derives from `symbol`. */
  ghost predicate Derives(symbol: int, line: seq<Token>) {
    exists t :: DerivationOf(t, symbol, line)
  }

  ghost predicate DerivationOf(t: Tree, symbol: int, line: seq<Token>) {
    WellFormed(t) && Symbol(t) == symbol && Yield(t) == line
  }

  lemma {:induction false} YieldAppend(a: seq<Tree>, b: seq<Tree>)
    ensures YieldAll(a + b) == YieldAll(a) + YieldAll(b)
  {
    hide Yield;
    if a == [] {
      assert a + b == b;
    } else {
      assert (a + b)[0] == a[0] && (a + b)[1..] == a[1..] + b;
      YieldAppend(a[1..], b);
      Assoc(Yield(a[0]), YieldAll(a[1..]), YieldAll(b));
    }
  }

  lemma Assoc(x: seq<Token>, y: seq<Token>, z: seq<Token>)
    ensures x + (y + z) == (x + y) + z
  {}

  lemma YieldOne(t: Tree)
    ensures YieldAll([t]) == Yield(t)
  {
    assert [t][1..] == [];
    assert YieldAll([t]) == Yield(t) + YieldAll([t][1..]);
  }

  lemma YieldTwo(t: Tree, u: Tree)
    ensures YieldAll([t, u]) == Yield(t) + Yield(u)
  {
    YieldOne(t);
    YieldOne(u);
    YieldAppend([t], [u]);
    assert [t] + [u] == [t, u];
  }

  lemma YieldPush(a: seq<Tree>, t: Tree)
    ensures YieldAll(a + [t]) == YieldAll(a) + Yield(t)
  {
    YieldAppend(a, [t]);
    YieldOne(t);
  }

  lemma YieldNode(rule: int, kids: seq<Tree>)
    ensures Yield(Node(rule, kids)) == YieldAll(kids)
  {
    hide YieldAll;
  }

  /** Replacing a right-hand side by its node keeps the yield. */
  lemma YieldReduce(ts: seq<Tree>, rule: int, n: nat)
    requires n <= |ts|
    ensures YieldAll(ts[..|ts| - n] + [Node(rule, ts[|ts| - n..])]) == YieldAll(ts)
  {
    var keep, kids := ts[..|ts| - n], ts[|ts| - n..];
    YieldNode(rule, kids);
    hide Yield, YieldAll;
    YieldPush(keep, Node(rule, kids));
    YieldAppend(keep, kids);
    assert keep + kids == ts;
  }
}
