/**
 * The connections lex_yacc4.py's grammar actions write for a parsed route:
 * every node carries its temporary label (`%4.4d~name`), FILTERs keep the
 * lexer's label, the fork synthesized for a branch takes its predecessor's
 * label plus 5 and its `^^^` connection is written one below that.
 */
module RouteEdges {
  import opened Errors
  import opened Strings
  import opened RouteSyntax

  /** A node of the compiled route: a labelled FILTER or a synthesized fork. */
  datatype Node = Node(num: nat, name: string)

  /** `>>>` (main, next_filter) or `^^^` (branch, branch_filter). */
  datatype Kind = Main | Branch

  /** One connection; `to` is None for the `>>> None` that ends a pipe. */
  datatype Edge = Edge(from: Node, kind: Kind, to: Option<Node>)

  const ForkPrefix: string := "hidden_branch_route_"

  /** k_filter_format, '%4.4d~%s' */
  function Fmt(n: Node): string
  {
    ZeroPad(n.num, 4) + "~" + n.name
  }

  function FNode(f: Filt): Node
  {
    Node(f.num, f.name)
  }

  /** k_fork_filter_format for fork number k after the FILTER `pred`. */
  function ForkNode(pred: Filt, k: nat): Node
  {
    Node(pred.num + 5, ForkPrefix + ZeroPad(k, 2))
  }

  function Op(k: Kind): string
  {
    if k == Main then ">>>" else "^^^"
  }

  function ToText(to: Option<Node>): string
  {
    if to.None? then "None" else Fmt(to.value)
  }

  /** The connection string `_connect_pipes` appends. */
  function EdgeText(e: Edge): string
  {
    Fmt(e.from) + " " + Op(e.kind) + " " + ToText(e.to)
  }

  function Texts(es: seq<Edge>): (ts: seq<string>)
    ensures |ts| == |es|
    ensures forall i :: 0 <= i < |es| ==> ts[i] == EdgeText(es[i])
  {
    seq(|es|, i requires 0 <= i < |es| => EdgeText(es[i]))
  }

  lemma TextsAppend(a: seq<Edge>, b: seq<Edge>)
    ensures Texts(a + b) == Texts(a) + Texts(b)
  {
  }

  /**
   * The connections written while reducing `p`, in reduction order; `base`
   * is the branch counter before the pipe's first `(` is read.
   *   pipe >>> FILTER          : last of pipe >>> FILTER
   *   pipe >>> ( inner ) FILTER: inner's connections, then end_branch's
   *                              fork ^^^ first of inner and last of inner
   *                              >>> None, then p_pipe3's last of pipe >>>
   *                              fork and fork >>> FILTER
   */
  function Edges(p: Pipe, base: nat): seq<Edge>
    decreases p
  {
    match p
    case One(_) => []
    case Then(q, f) => Edges(q, base) + [Edge(FNode(Last(q)), Main, Some(FNode(f)))]
    case Fork(q, inner, f) =>
      var k := base + Forks(q) + 1;
      Edges(q, base) + Edges(inner, k) + ForkTail(q, inner, f, k)
  }

  /**
   * The four connections a fork adds after those of its pipe and its branch,
   * with k the branch counter the fork gets: the fork's branch start, the
   * branch's end, and the fork between the pipe and the filter after it.
   */
  function ForkTail(q: Pipe, inner: Pipe, f: Filt, k: nat): seq<Edge>
  {
    var fk := ForkNode(Last(q), k);
    [Edge(Node(fk.num - 1, fk.name), Branch, Some(FNode(First(inner)))),
     Edge(FNode(Last(inner)), Main, None),
     Edge(FNode(Last(q)), Main, Some(fk)),
     Edge(fk, Main, Some(FNode(f)))]
  }

  /** The whole route is read as a branch with no fork: its end gets `>>> None`. */
  function RouteEdgesOf(p: Pipe): seq<Edge>
  {
    Edges(p, 0) + [Edge(FNode(Last(p)), Main, None)]
  }

  /**
   * The value a `pipe` reduces to: its labelled FILTERs and forks separated
   * by blanks, each branch as `fork (inner)` (the `>>>` tokens are dropped).
   */
  function PipeText(p: Pipe, base: nat): string
    decreases p
  {
    match p
    case One(f) => Fmt(FNode(f))
    case Then(q, f) => PipeText(q, base) + " " + Fmt(FNode(f))
    case Fork(q, inner, f) =>
      var k := base + Forks(q) + 1;
      PipeText(q, base) + " " + BranchText(ForkNode(Last(q), k), PipeText(inner, k)) + " " + Fmt(FNode(f))
  }

  /** p_branch's value, '%s (%s)' of the fork and the branch's pipe. */
  function BranchText(fork: Node, inner: string): string
  {
    Fmt(fork) + " (" + inner + ")"
  }

  // =====================================================================
  // Labels

  /** Labels as the lexer hands them out: multiples of 10, increasing by at least 10. */
  predicate Ascending(fs: seq<Filt>)
  {
    (forall i :: 0 <= i < |fs| ==> fs[i].num % 10 == 0) &&
    (forall i, j :: 0 <= i < j < |fs| ==> fs[i].num + 10 <= fs[j].num)
  }

  lemma NumberedAscending(fs: seq<Filt>, counter: nat)
    requires Numbered(fs, counter) && counter % 10 == 0
    ensures Ascending(fs)
  {
  }

  lemma AscendingParts(a: seq<Filt>, b: seq<Filt>)
    requires Ascending(a + b)
    ensures Ascending(a) && Ascending(b)
    ensures |a| > 0 && |b| > 0 ==> a[|a| - 1].num + 10 <= b[0].num
  {
    assert forall i :: 0 <= i < |a| ==> (a + b)[i] == a[i];
    assert forall i :: 0 <= i < |b| ==> (a + b)[|a| + i] == b[i];
  }

  predicate FromIn(es: seq<Edge>, lo: int, hi: int)
  {
    forall i :: 0 <= i < |es| ==> lo <= es[i].from.num < hi
  }

  predicate DistinctFrom(es: seq<Edge>)
  {
    forall i, j :: 0 <= i < j < |es| ==> es[i].from.num != es[j].from.num
  }

  /** Every label ends in 0 (a FILTER), 4 (a `^^^` connection) or 5 (a fork). */
  predicate Residues(es: seq<Edge>)
  {
    forall i :: 0 <= i < |es| ==> es[i].from.num % 10 == 0 || es[i].from.num % 10 == 4 || es[i].from.num % 10 == 5
  }

  lemma DistinctJoin(a: seq<Edge>, b: seq<Edge>)
    requires DistinctFrom(a) && DistinctFrom(b)
    requires forall i, j :: 0 <= i < |a| && 0 <= j < |b| ==> a[i].from.num != b[j].from.num
    ensures DistinctFrom(a + b)
  {
    forall i, j | 0 <= i < j < |a + b| ensures (a + b)[i].from.num != (a + b)[j].from.num {
      if j < |a| {
        assert (a + b)[i] == a[i] && (a + b)[j] == a[j];
      } else if i < |a| {
        assert (a + b)[i] == a[i] && (a + b)[j] == b[j - |a|];
      } else {
        assert (a + b)[i] == b[i - |a|] && (a + b)[j] == b[j - |a|];
      }
    }
  }

  /**
   * Every connection of a pipe leaves a distinct label, at or after its first
   * FILTER and before its last, and ending in 0, 4 or 5.
   */
  lemma {:induction false} EdgeLabels(p: Pipe, base: nat)
    requires Ascending(Filters(p))
    ensures FromIn(Edges(p, base), First(p).num, Last(p).num)
    ensures DistinctFrom(Edges(p, base))
    ensures Residues(Edges(p, base))
    decreases p, 1
  {
    match p {
      case One(f) =>
      case Then(q, f) =>
        ThenAscending(q, f);
        EdgeLabelsThen(q, f, base);
      case Fork(q, inner, f) =>
        ForkAscending(q, inner, f);
        EdgeLabelsFork(q, inner, f, base);
    }
  }

  lemma {:induction false} EdgeLabelsThen(q: Pipe, f: Filt, base: nat)
    requires Ascending(Filters(q)) && Last(q).num < f.num && Last(q).num % 10 == 0
    ensures FromIn(Edges(Then(q, f), base), First(q).num, f.num)
    ensures DistinctFrom(Edges(Then(q, f), base))
    ensures Residues(Edges(Then(q, f), base))
    decreases Then(q, f), 0
  {
    EdgeLabels(q, base);
    var e := Edges(q, base);
    var t := [Edge(FNode(Last(q)), Main, Some(FNode(f)))];
    DistinctJoin(e, t);
  }

  /** The labels of a pipe and the filter after it. */
  lemma ThenAscending(q: Pipe, f: Filt)
    requires Ascending(Filters(Then(q, f)))
    ensures Ascending(Filters(q)) && Last(q).num < f.num && Last(q).num % 10 == 0
  {
    AscendingParts(Filters(q), [f]);
    var fq := Filters(q);
    assert fq[|fq| - 1] == Last(q);
  }

  lemma {:induction false} EdgeLabelsFork(q: Pipe, inner: Pipe, f: Filt, base: nat)
    requires Ascending(Filters(q)) && Ascending(Filters(inner))
    requires First(q).num <= Last(q).num && Last(q).num + 10 <= First(inner).num
    requires First(inner).num <= Last(inner).num && Last(inner).num + 10 <= f.num
    requires Last(q).num % 10 == 0 && Last(inner).num % 10 == 0
    ensures FromIn(Edges(Fork(q, inner, f), base), First(q).num, f.num)
    ensures DistinctFrom(Edges(Fork(q, inner, f), base))
    ensures Residues(Edges(Fork(q, inner, f), base))
    decreases Fork(q, inner, f), 0
  {
    var k := base + Forks(q) + 1;
    EdgeLabels(q, base);
    EdgeLabels(inner, k);
    var t := ForkEdgesOf(q, inner, f, base, k);
    ForkStepLabels(Edges(q, base), Edges(inner, k), t, First(q).num, Last(q).num, First(inner).num, Last(inner).num, f.num);
  }

  /** The labels of a fork's three parts. */
  lemma ForkAscending(q: Pipe, inner: Pipe, f: Filt)
    requires Ascending(Filters(Fork(q, inner, f)))
    ensures Ascending(Filters(q)) && Ascending(Filters(inner))
    ensures First(q).num <= Last(q).num && First(inner).num <= Last(inner).num
    ensures Last(q).num + 10 <= First(inner).num && Last(inner).num + 10 <= f.num
    ensures Last(q).num % 10 == 0 && Last(inner).num % 10 == 0 && f.num % 10 == 0
  {
    AscendingParts(Filters(q) + Filters(inner), [f]);
    AscendingParts(Filters(q), Filters(inner));
    var fq := Filters(q);
    var fi := Filters(inner);
    assert fq[0] == First(q) && fq[|fq| - 1] == Last(q);
    assert fi[0] == First(inner) && fi[|fi| - 1] == Last(inner);
    assert |fq| > 1 ==> fq[0].num + 10 <= fq[|fq| - 1].num;
    assert |fi| > 1 ==> fi[0].num + 10 <= fi[|fi| - 1].num;
  }

  /** The labels of a fork's connections fit between those of the pipe and of the branch. */
  lemma ForkStepLabels(e1: seq<Edge>, e2: seq<Edge>, t: seq<Edge>, lo: int, l: int, fi: int, li: int, hi: int)
    requires DistinctFrom(e1) && DistinctFrom(e2) && Residues(e1) && Residues(e2)
    requires FromIn(e1, lo, l) && FromIn(e2, fi, li)
    requires lo <= l && l + 10 <= fi <= li && li + 10 <= hi && l % 10 == 0 && li % 10 == 0
    requires |t| == 4 && t[0].from.num == l + 4 && t[1].from.num == li && t[2].from.num == l && t[3].from.num == l + 5
    ensures FromIn(e1 + e2 + t, lo, hi) && DistinctFrom(e1 + e2 + t) && Residues(e1 + e2 + t)
  {
    DistinctJoin(e1, e2);
    assert DistinctFrom(t);
    DistinctJoin(e1 + e2, t);
  }

  // =====================================================================
  // Forks

  /** The forks of a pipe in the order their `(` is read. */
  function ForkNodes(p: Pipe, base: nat): seq<Node>
    decreases p
  {
    match p
    case One(_) => []
    case Then(q, _) => ForkNodes(q, base)
    case Fork(q, inner, _) =>
      var k := base + Forks(q) + 1;
      ForkNodes(q, base) + [ForkNode(Last(q), k)] + ForkNodes(inner, k)
  }

  /**
   * Forks are numbered base+1, base+2, ... in the order their `(` is read,
   * and (with the lexer's labels) that is also the order of their labels.
   */
  lemma {:induction false} ForkNumbers(p: Pipe, base: nat)
    ensures |ForkNodes(p, base)| == Forks(p)
    ensures forall i :: 0 <= i < Forks(p) ==> ForkNodes(p, base)[i].name == ForkPrefix + ZeroPad(base + i + 1, 2)
    decreases p
  {
    match p {
      case One(_) =>
      case Then(q, _) =>
        ForkNumbers(q, base);
      case Fork(q, inner, _) =>
        var k := base + Forks(q) + 1;
        ForkNumbers(q, base);
        ForkNumbers(inner, k);
        NumberedJoin(ForkNodes(q, base), ForkNode(Last(q), k), ForkNodes(inner, k), base, k);
    }
  }

  /** Fork nodes named base+1, ... followed by fork k and forks k+1, ...: one run from base+1. */
  lemma NumberedJoin(a: seq<Node>, node: Node, b: seq<Node>, base: nat, k: nat)
    requires k == base + |a| + 1 && node.name == ForkPrefix + ZeroPad(k, 2)
    requires forall i :: 0 <= i < |a| ==> a[i].name == ForkPrefix + ZeroPad(base + i + 1, 2)
    requires forall i :: 0 <= i < |b| ==> b[i].name == ForkPrefix + ZeroPad(k + i + 1, 2)
    ensures forall i :: 0 <= i < |a + [node] + b| ==>
      (a + [node] + b)[i].name == ForkPrefix + ZeroPad(base + i + 1, 2)
  {
    var ns := a + [node] + b;
    forall i | 0 <= i < |ns|
      ensures ns[i].name == ForkPrefix + ZeroPad(base + i + 1, 2)
    {
      if i < |a| {
        assert ns[i] == a[i];
      } else if i > |a| {
        assert ns[i] == b[i - |a| - 1];
      }
    }
  }

  lemma {:induction false} ForkLabels(p: Pipe, base: nat)
    requires Ascending(Filters(p))
    ensures ForksBetween(ForkNodes(p, base), First(p).num, Last(p).num)
    decreases p, 1
  {
    match p {
      case One(_) =>
      case Then(q, f) =>
        AscendingParts(Filters(q), [f]);
        ForkLabels(q, base);
      case Fork(q, inner, f) =>
        ForkAscending(q, inner, f);
        ForkLabelsFork(q, inner, f, base);
    }
  }

  lemma {:induction false} ForkLabelsFork(q: Pipe, inner: Pipe, f: Filt, base: nat)
    requires Ascending(Filters(q)) && Ascending(Filters(inner))
    requires First(q).num <= Last(q).num && Last(q).num + 10 <= First(inner).num
    requires First(inner).num <= Last(inner).num && Last(inner).num + 10 <= f.num && Last(q).num % 10 == 0
    ensures ForksBetween(ForkNodes(Fork(q, inner, f), base), First(q).num, f.num)
    decreases Fork(q, inner, f), 0
  {
    var k := base + Forks(q) + 1;
    var n := ForkNode(Last(q), k);
    var a, b := ForkNodes(q, base), ForkNodes(inner, k);
    assert ForksBetween(a, First(q).num, n.num) by {
      ForkLabels(q, base);
      ForksWiden(a, First(q).num, Last(q).num, First(q).num, n.num);
    }
    assert ForksBetween(b, n.num, Last(inner).num) by {
      ForkLabels(inner, k);
      ForksWiden(b, First(inner).num, Last(inner).num, n.num, Last(inner).num);
    }
    assert ForksBetween(a + [n] + b, First(q).num, f.num) by {
      ForkNodeNum(Last(q), k);
      ForksJoin(a, n, b, First(q).num, Last(inner).num, f.num);
    }
    ForkNodesFork(q, inner, f, base, k);
  }

  /** A fork after a filter numbered on a multiple of ten is numbered five more, ending in 5. */
  lemma ForkNodeNum(pred: Filt, k: nat)
    requires pred.num % 10 == 0
    ensures ForkNode(pred, k).num == pred.num + 5 && ForkNode(pred, k).num % 10 == 5
  {
  }

  lemma ForkNodesFork(q: Pipe, inner: Pipe, f: Filt, base: nat, k: nat)
    requires k == base + Forks(q) + 1
    ensures ForkNodes(Fork(q, inner, f), base) == ForkNodes(q, base) + [ForkNode(Last(q), k)] + ForkNodes(inner, k)
  {
  }

  /** Fork labels end in 5, lie strictly between lo and hi and increase. */
  predicate ForksBetween(ns: seq<Node>, lo: int, hi: int)
  {
    (forall i :: 0 <= i < |ns| ==> lo < ns[i].num < hi && ns[i].num % 10 == 5) &&
    (forall i :: 0 < i < |ns| ==> ns[i - 1].num < ns[i].num)
  }

  lemma ForksWiden(ns: seq<Node>, lo: int, hi: int, lo2: int, hi2: int)
    requires ForksBetween(ns, lo, hi) && lo2 <= lo && hi <= hi2
    ensures ForksBetween(ns, lo2, hi2)
  {
  }

  lemma ForksJoin(a: seq<Node>, n: Node, b: seq<Node>, lo: int, li: int, hi: int)
    requires ForksBetween(a, lo, n.num) && n.num % 10 == 5 && lo < n.num < hi
    requires ForksBetween(b, n.num, li) && li < hi
    ensures ForksBetween(a + [n] + b, lo, hi)
  {
    var s := a + [n] + b;
    assert forall i :: 0 <= i < |s| ==> (i < |a| ==> s[i] == a[i]) && (i > |a| ==> s[i] == b[i - |a| - 1]);
  }

  // =====================================================================
  // Pipe ends

  /** The connections with no successor, `>>> None`. */
  function Ends(es: seq<Edge>): (r: seq<Edge>)
    ensures |r| <= |es|
    ensures forall i :: 0 <= i < |r| ==> r[i].to.None?
  {
    if |es| == 0 then []
    else (if es[0].to.None? then [es[0]] else []) + Ends(es[1..])
  }

  lemma {:induction false} EndsAppend(a: seq<Edge>, b: seq<Edge>)
    ensures Ends(a + b) == Ends(a) + Ends(b)
    decreases |a|
  {
    if |a| == 0 {
      assert a + b == b;
    } else {
      assert (a + b)[0] == a[0];
      assert (a + b)[1..] == a[1..] + b;
      EndsAppend(a[1..], b);
    }
  }

  /** A pipe's own connections end only its branches: one `>>> None` per fork. */
  lemma {:induction false} PipeEnds(p: Pipe, base: nat)
    ensures |Ends(Edges(p, base))| == Forks(p)
    decreases p, 1
  {
    match p {
      case One(_) =>
      case Then(q, f) =>
        PipeEnds(q, base);
        EndsAppend(Edges(q, base), [Edge(FNode(Last(q)), Main, Some(FNode(f)))]);
      case Fork(q, inner, f) =>
        PipeEndsFork(q, inner, f, base);
    }
  }

  lemma {:induction false} PipeEndsFork(q: Pipe, inner: Pipe, f: Filt, base: nat)
    ensures |Ends(Edges(Fork(q, inner, f), base))| == Forks(Fork(q, inner, f))
    decreases Fork(q, inner, f), 0
  {
    var k := base + Forks(q) + 1;
    PipeEnds(q, base);
    PipeEnds(inner, k);
    var t := ForkEdgesOf(q, inner, f, base, k);
    EndsAppend(Edges(q, base), Edges(inner, k));
    EndsAppend(Edges(q, base) + Edges(inner, k), t);
    EndsFour(t[0], t[1], t[2], t[3]);
    assert t == [t[0], t[1], t[2], t[3]];
  }

  /**
   * The four connections a fork adds after those of its pipe and its branch,
   * with k the branch counter the fork gets.
   */
  lemma ForkEdgesOf(q: Pipe, inner: Pipe, f: Filt, base: nat, k: nat) returns (t: seq<Edge>)
    requires k == base + Forks(q) + 1
    ensures var fk := ForkNode(Last(q), k);
      t == [Edge(Node(fk.num - 1, fk.name), Branch, Some(FNode(First(inner)))),
            Edge(FNode(Last(inner)), Main, None),
            Edge(FNode(Last(q)), Main, Some(fk)),
            Edge(fk, Main, Some(FNode(f)))]
    ensures Edges(Fork(q, inner, f), base) == Edges(q, base) + Edges(inner, k) + t
  {
    t := ForkTail(q, inner, f, k);
  }

  lemma EndsFour(e1: Edge, e2: Edge, e3: Edge, e4: Edge)
    requires e1.to.Some? && e2.to.None? && e3.to.Some? && e4.to.Some?
    ensures Ends([e1, e2, e3, e4]) == [e2]
  {
    var t4, t3, t2 := [e4], [e3, e4], [e2, e3, e4];
    assert t4[1..] == [] && t3[1..] == t4 && t2[1..] == t3 && [e1, e2, e3, e4][1..] == t2;
    assert Ends(t3) == [];
    assert Ends(t2) == [e2] + [];
  }
}
