/**
 * Why sorting the connection strings puts them in route order: with fewer
 * than 1000 FILTERs every label is four digits, so string order on the
 * connections is label order, and the labels 10k (a FILTER), 10k+4 (a
 * `^^^` connection) and 10k+5 (a fork) leave nothing between a fork's
 * three connections.
 */
module RouteOrder {
  import opened Errors
  import opened Strings
  import opened RouteSyntax
  import opened RouteEdges

  // =====================================================================
  // Four-digit labels

  function Pad4(n: nat): (s: string)
    requires n < 10000
    ensures |s| == 4
  {
    [DigitChar(n / 1000), DigitChar(n / 100 % 10), DigitChar(n / 10 % 10), DigitChar(n % 10)]
  }

  /** '%4.4d' % n is exactly four digits below 10000. */
  lemma ZeroPad4(n: nat)
    requires n < 10000
    ensures ZeroPad(n, 4) == Pad4(n)
  {
    if n < 10 {
      Pad4One(n);
    } else if n < 100 {
      Pad4Two(n);
    } else if n < 1000 {
      Pad4Three(n);
    } else {
      Decimal4(n);
    }
  }

  lemma Pad4One(n: nat)
    requires n < 10
    ensures ZeroPad(n, 4) == Pad4(n)
  {
    assert Decimal(n) == [DigitChar(n)];
    assert Zeros(3) == "000";
    assert n / 1000 == 0 && n / 100 % 10 == 0 && n / 10 % 10 == 0 && n % 10 == n;
  }

  lemma Pad4Two(n: nat)
    requires 10 <= n < 100
    ensures ZeroPad(n, 4) == Pad4(n)
  {
    Decimal2(n);
    assert Zeros(2) == "00";
    assert n / 1000 == 0 && n / 100 % 10 == 0 && n / 10 % 10 == n / 10;
  }

  lemma Pad4Three(n: nat)
    requires 100 <= n < 1000
    ensures ZeroPad(n, 4) == Pad4(n)
  {
    Decimal3(n);
    assert Zeros(1) == "0";
    assert n / 1000 == 0 && n / 100 % 10 == n / 100;
  }

  lemma Decimal2(n: nat)
    requires 10 <= n < 100
    ensures Decimal(n) == [DigitChar(n / 10), DigitChar(n % 10)]
  {
    assert Decimal(n / 10) == [DigitChar(n / 10)];
  }

  lemma Decimal3(n: nat)
    requires 100 <= n < 1000
    ensures Decimal(n) == [DigitChar(n / 100), DigitChar(n / 10 % 10), DigitChar(n % 10)]
  {
    assert n / 10 / 10 == n / 100;
    Decimal2(n / 10);
  }

  lemma Decimal4(n: nat)
    requires 1000 <= n < 10000
    ensures Decimal(n) == Pad4(n)
  {
    assert n / 10 / 10 == n / 100 && n / 100 / 10 == n / 1000;
    assert n / 10 / 10 % 10 == n / 100 % 10;
    Decimal3(n / 10);
  }

  lemma DigitCharLess(a: nat, b: nat)
    requires a < b < 10
    ensures DigitChar(a) < DigitChar(b)
  {
  }

  /** Dividing by ten keeps the order; equal quotients leave it to the last digit. */
  lemma TenthLess(a: nat, b: nat)
    requires a < b
    ensures a / 10 < b / 10 || (a / 10 == b / 10 && a % 10 < b % 10)
  {
  }

  /** Below 10000, comparing numbers is comparing their four digits from the left. */
  lemma Digits4Less(a: nat, b: nat)
    requires a < b < 10000
    ensures a / 1000 < b / 1000 ||
      (a / 1000 == b / 1000 && (a / 100 % 10 < b / 100 % 10 ||
        (a / 100 % 10 == b / 100 % 10 && (a / 10 % 10 < b / 10 % 10 ||
          (a / 10 % 10 == b / 10 % 10 && a % 10 < b % 10)))))
  {
    assert a / 100 == a / 10 / 10 && b / 100 == b / 10 / 10;
    assert a / 1000 == a / 100 / 10 && b / 1000 == b / 100 / 10;
    TenthLess(a, b);
    if a / 10 < b / 10 {
      TenthLess(a / 10, b / 10);
      if a / 100 < b / 100 {
        TenthLess(a / 100, b / 100);
      }
    }
  }

  /** Four-digit labels compare as their numbers, whatever follows them. */
  lemma Pad4Less(a: nat, b: nat, x: string, y: string)
    requires a < b < 10000
    ensures StrLess(Pad4(a) + x, Pad4(b) + y)
  {
    var s := Pad4(a) + x;
    var t := Pad4(b) + y;
    var pa := Pad4(a);
    var pb := Pad4(b);
    assert s[0] == pa[0] && s[1] == pa[1] && s[2] == pa[2] && s[3] == pa[3];
    assert t[0] == pb[0] && t[1] == pb[1] && t[2] == pb[2] && t[3] == pb[3];
    Digits4Less(a, b);
    if a / 1000 < b / 1000 {
      DigitCharLess(a / 1000, b / 1000);
      StrLessAt(s, t, 0);
    } else if a / 100 % 10 < b / 100 % 10 {
      DigitCharLess(a / 100 % 10, b / 100 % 10);
      assert s[..1] == [s[0]] && t[..1] == [t[0]];
      StrLessAt(s, t, 1);
    } else if a / 10 % 10 < b / 10 % 10 {
      DigitCharLess(a / 10 % 10, b / 10 % 10);
      assert s[..2] == [s[0], s[1]] && t[..2] == [t[0], t[1]];
      StrLessAt(s, t, 2);
    } else {
      DigitCharLess(a % 10, b % 10);
      assert s[..3] == [s[0], s[1], s[2]] && t[..3] == [t[0], t[1], t[2]];
      StrLessAt(s, t, 3);
    }
  }

  /** Connections leaving lower labels sort first. */
  lemma EdgeTextLess(e1: Edge, e2: Edge)
    requires e1.from.num < e2.from.num < 10000
    ensures StrLess(EdgeText(e1), EdgeText(e2))
  {
    ZeroPad4(e1.from.num);
    ZeroPad4(e2.from.num);
    var x := "~" + e1.from.name + " " + Op(e1.kind) + " " + ToText(e1.to);
    var y := "~" + e2.from.name + " " + Op(e2.kind) + " " + ToText(e2.to);
    assert EdgeText(e1) == Pad4(e1.from.num) + x;
    assert EdgeText(e2) == Pad4(e2.from.num) + y;
    Pad4Less(e1.from.num, e2.from.num, x, y);
  }

  // =====================================================================
  // Sorted connections follow the labels

  lemma TwoCopies<T>(s: seq<T>, i: nat, j: nat)
    requires i < j < |s| && s[i] == s[j]
    ensures multiset(s)[s[i]] >= 2
  {
    assert s == s[..j] + s[j..];
    assert s[i] in s[..j];
    assert s[j..][0] == s[j];
    assert multiset(s) == multiset(s[..j]) + multiset(s[j..]);
  }

  lemma {:induction false} OneCopy<T>(s: seq<T>, x: T)
    requires forall i, j :: 0 <= i < j < |s| ==> s[i] != s[j]
    ensures multiset(s)[x] <= 1
    decreases |s|
  {
    if |s| > 0 {
      assert s == [s[0]] + s[1..];
      OneCopy(s[1..], x);
      if s[0] == x {
        assert x !in s[1..];
      }
    }
  }

  /**
   * In the sorted connections, an earlier string belongs to a connection
   * with a lower label.
   */
  lemma SortedLabels(es: seq<Edge>, s: seq<string>, i: nat, j: nat, m: nat, n: nat)
    requires DistinctFrom(es) && FromIn(es, 0, 10000)
    requires SortedStrs(s) && multiset(s) == multiset(Texts(es))
    requires i < j < |s| && m < |es| && n < |es|
    requires s[i] == EdgeText(es[m]) && s[j] == EdgeText(es[n])
    ensures es[m].from.num < es[n].from.num
  {
    if es[n].from.num < es[m].from.num {
      EdgeTextLess(es[n], es[m]);
    } else if m == n {
      TwoCopies(s, i, j);
      var t := Texts(es);
      forall a, b | 0 <= a < b < |t| ensures t[a] != t[b] {
        if es[a].from.num < es[b].from.num {
          EdgeTextLess(es[a], es[b]);
        } else {
          EdgeTextLess(es[b], es[a]);
        }
        StrLessIrreflexive(t[a]);
      }
      OneCopy(t, s[i]);
    } else {
      assert m < n || n < m;
      assert es[m].from.num != es[n].from.num;
    }
  }

  /** Every sorted connection string is some connection's text. */
  lemma Found(es: seq<Edge>, s: seq<string>, i: nat) returns (m: nat)
    requires multiset(s) == multiset(Texts(es)) && i < |s|
    ensures m < |es| && s[i] == EdgeText(es[m])
  {
    assert s[i] in multiset(Texts(es));
    var k :| 0 <= k < |Texts(es)| && Texts(es)[k] == s[i];
    m := k;
  }

  /** Every connection's text has a place in the sorted connections. */
  lemma Placed(es: seq<Edge>, s: seq<string>, m: nat) returns (i: nat)
    requires multiset(s) == multiset(Texts(es)) && m < |es|
    ensures i < |s| && s[i] == EdgeText(es[m])
  {
    assert Texts(es)[m] in multiset(s);
    var k :| 0 <= k < |s| && s[k] == EdgeText(es[m]);
    i := k;
  }

  /**
   * If the connections leaving labels l and h are at positions a and b of
   * the sorted list and no connection leaves a label strictly between,
   * they are neighbours.
   */
  lemma Neighbours(es: seq<Edge>, s: seq<string>, m: nat, n: nat, a: nat, b: nat)
    requires DistinctFrom(es) && FromIn(es, 0, 10000)
    requires SortedStrs(s) && multiset(s) == multiset(Texts(es))
    requires m < |es| && n < |es| && es[m].from.num < es[n].from.num
    requires forall r :: 0 <= r < |es| ==> !(es[m].from.num < es[r].from.num < es[n].from.num)
    requires a < |s| && b < |s| && s[a] == EdgeText(es[m]) && s[b] == EdgeText(es[n])
    ensures b == a + 1
  {
    if b < a {
      SortedLabels(es, s, b, a, n, m);
    } else if b == a {
      EdgeTextLess(es[m], es[n]);
      StrLessIrreflexive(s[a]);
    } else if b > a + 1 {
      var r := Found(es, s, a + 1);
      SortedLabels(es, s, a, a + 1, m, r);
      SortedLabels(es, s, a + 1, b, r, n);
    }
  }

  // =====================================================================
  // A fork's three connections

  /** The connections a fork adds: into the fork, its branch and its main output. */
  datatype ForkLink = ForkLink(into: Edge, branch: Edge, out: Edge)

  /** A pipe's forks' connections, in the order their `(` is read. */
  function Links(p: Pipe, base: nat): seq<ForkLink>
    decreases p
  {
    match p
    case One(_) => []
    case Then(q, _) => Links(q, base)
    case Fork(q, inner, f) =>
      var k := base + Forks(q) + 1;
      var fk := ForkNode(Last(q), k);
      Links(q, base) +
      [ForkLink(Edge(FNode(Last(q)), Main, Some(fk)),
                Edge(Node(fk.num - 1, fk.name), Branch, Some(FNode(First(inner)))),
                Edge(fk, Main, Some(FNode(f))))] +
      Links(inner, k)
  }

  /** What makes a link a fork's: labels l, l+4, l+5, the first entering the third's node. */
  predicate LinkShape(l: ForkLink)
  {
    l.into.from.num % 10 == 0 &&
    l.branch.from.num == l.into.from.num + 4 && l.out.from.num == l.into.from.num + 5 &&
    l.into.kind == Main && l.branch.kind == Branch && l.out.kind == Main &&
    l.into.to == Some(l.out.from) && l.branch.from.name == l.out.from.name
  }

  /** Every link has a fork's shape and its three connections are among `es`. */
  predicate LinksIn(ls: seq<ForkLink>, es: seq<Edge>)
  {
    forall i :: 0 <= i < |ls| ==> LinkShape(ls[i]) && ls[i].into in es && ls[i].branch in es && ls[i].out in es
  }

  lemma {:induction false} LinksInEdges(p: Pipe, base: nat)
    requires Ascending(Filters(p))
    ensures |Links(p, base)| == Forks(p)
    ensures LinksIn(Links(p, base), Edges(p, base))
    decreases p, 1
  {
    match p {
      case One(_) =>
      case Then(q, f) =>
        AscendingParts(Filters(q), [f]);
        LinksInEdges(q, base);
        LinksGrow(Links(q, base), Edges(q, base), Edges(p, base));
      case Fork(q, inner, f) =>
        LinksInEdgesFork(q, inner, f, base);
    }
  }

  lemma LinksGrow(ls: seq<ForkLink>, es: seq<Edge>, es2: seq<Edge>)
    requires LinksIn(ls, es) && es <= es2
    ensures LinksIn(ls, es2)
  {
    forall i | 0 <= i < |ls| ensures ls[i].into in es2 && ls[i].branch in es2 && ls[i].out in es2 {
      assert ls[i].into in es && ls[i].branch in es && ls[i].out in es;
    }
  }

  lemma {:induction false} LinksInEdgesFork(q: Pipe, inner: Pipe, f: Filt, base: nat)
    requires Ascending(Filters(Fork(q, inner, f)))
    ensures |Links(Fork(q, inner, f), base)| == Forks(Fork(q, inner, f))
    ensures LinksIn(Links(Fork(q, inner, f), base), Edges(Fork(q, inner, f), base))
    decreases Fork(q, inner, f), 0
  {
    var k := base + Forks(q) + 1;
    assert Ascending(Filters(q)) && Ascending(Filters(inner)) && Last(q).num % 10 == 0 by {
      ForkAscending(q, inner, f);
    }
    LinksInEdges(q, base);
    LinksInEdges(inner, k);
    var t := ForkEdgesOf(q, inner, f, base, k);
    var mid := ForkLinkOf(q, inner, f, base, k);
    assert LinkShape(mid);
    assert mid.into == t[2] && mid.branch == t[0] && mid.out == t[3];
    LinksJoin(Links(q, base), Links(inner, k), mid, Edges(q, base), Edges(inner, k), t);
  }

  /** The link a fork adds between those of its pipe and its branch. */
  lemma ForkLinkOf(q: Pipe, inner: Pipe, f: Filt, base: nat, k: nat) returns (mid: ForkLink)
    requires k == base + Forks(q) + 1
    ensures var fk := ForkNode(Last(q), k);
      mid == ForkLink(Edge(FNode(Last(q)), Main, Some(fk)),
                      Edge(Node(fk.num - 1, fk.name), Branch, Some(FNode(First(inner)))),
                      Edge(fk, Main, Some(FNode(f))))
    ensures Links(Fork(q, inner, f), base) == Links(q, base) + [mid] + Links(inner, k)
  {
    var fk := ForkNode(Last(q), k);
    mid := ForkLink(Edge(FNode(Last(q)), Main, Some(fk)),
                    Edge(Node(fk.num - 1, fk.name), Branch, Some(FNode(First(inner)))),
                    Edge(fk, Main, Some(FNode(f))));
  }

  lemma LinksJoin(l1: seq<ForkLink>, l2: seq<ForkLink>, mid: ForkLink, e1: seq<Edge>, e2: seq<Edge>, t: seq<Edge>)
    requires LinksIn(l1, e1) && LinksIn(l2, e2) && LinkShape(mid)
    requires mid.into in t && mid.branch in t && mid.out in t
    ensures LinksIn(l1 + [mid] + l2, e1 + e2 + t)
  {
    var ls := l1 + [mid] + l2;
    var es := e1 + e2 + t;
    forall i | 0 <= i < |ls|
      ensures LinkShape(ls[i]) && ls[i].into in es && ls[i].branch in es && ls[i].out in es
    {
      if i < |l1| {
        assert ls[i] == l1[i];
        assert ls[i].into in e1 && ls[i].branch in e1 && ls[i].out in e1;
      } else if i > |l1| {
        assert ls[i] == l2[i - |l1| - 1];
        assert ls[i].into in e2 && ls[i].branch in e2 && ls[i].out in e2;
      }
    }
  }

  /**
   * After `self.connections.sort()`, each fork's `^^^` connection comes
   * right after the connection into the fork and right before the fork's
   * `>>>` connection (for routes of fewer than 1000 FILTERs, whose labels
   * all have four digits).
   */
  lemma SortedForks(p: Pipe)
    requires Ascending(Filters(p)) && Last(p).num < 10000
    ensures forall i :: 0 <= i < |Links(p, 0)| ==>
      Consecutive(SortStrs(Texts(RouteEdgesOf(p))), Links(p, 0)[i])
  {
    var es := RouteEdgesOf(p);
    var s := SortStrs(Texts(es));
    RouteLabels(p);
    LinksInEdges(p, 0);
    LinksGrow(Links(p, 0), Edges(p, 0), es);
    forall i | 0 <= i < |Links(p, 0)| ensures Consecutive(s, Links(p, 0)[i]) {
      LinkSorted(es, s, Links(p, 0)[i]);
    }
  }

  /** The link's three connection strings stand next to each other, in order. */
  predicate Consecutive(s: seq<string>, l: ForkLink)
  {
    exists a :: 0 <= a && a + 2 < |s| &&
      s[a] == EdgeText(l.into) && s[a + 1] == EdgeText(l.branch) && s[a + 2] == EdgeText(l.out)
  }

  lemma LinkSorted(es: seq<Edge>, s: seq<string>, l: ForkLink)
    requires DistinctFrom(es) && FromIn(es, 0, 10000) && Residues(es)
    requires SortedStrs(s) && multiset(s) == multiset(Texts(es))
    requires LinkShape(l) && l.into in es && l.branch in es && l.out in es
    ensures Consecutive(s, l)
  {
    var m0 :| 0 <= m0 < |es| && es[m0] == l.into;
    var m1 :| 0 <= m1 < |es| && es[m1] == l.branch;
    var m2 :| 0 <= m2 < |es| && es[m2] == l.out;
    var a0 := Placed(es, s, m0);
    var a1 := Placed(es, s, m1);
    var a2 := Placed(es, s, m2);
    Gaps(es, l.into.from.num);
    Neighbours(es, s, m0, m1, a0, a1);
    Neighbours(es, s, m1, m2, a1, a2);
  }

  /** No label ends in 1, 2, 3: nothing lies between 10k and 10k+4, or 10k+4 and 10k+5. */
  lemma Gaps(es: seq<Edge>, lo: nat)
    requires Residues(es) && lo % 10 == 0
    ensures forall r :: 0 <= r < |es| ==> !(lo < es[r].from.num < lo + 4) && !(lo + 4 < es[r].from.num < lo + 5)
  {
  }

  /** The whole route's connections: distinct labels below 10000, ending in 0, 4 or 5. */
  lemma RouteLabels(p: Pipe)
    requires Ascending(Filters(p)) && Last(p).num < 10000
    ensures DistinctFrom(RouteEdgesOf(p)) && FromIn(RouteEdgesOf(p), 0, 10000) && Residues(RouteEdgesOf(p))
  {
    EdgeLabels(p, 0);
    var e := Edges(p, 0);
    var t := [Edge(FNode(Last(p)), Main, None)];
    var fs := Filters(p);
    assert fs[|fs| - 1] == Last(p);
    DistinctJoin(e, t);
  }
}
