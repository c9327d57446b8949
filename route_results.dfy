/**
 * What parse_route returns for a route the grammar accepts, stated on the
 * parse tree: the route text with every label stripped, the connections
 * with bare names in the order of their labels (the order the FILTERs and
 * forks are read), and the distinct names that start a connection.
 */
module RouteResults {
  import opened Errors
  import opened Strings
  import opened RouteSyntax
  import opened RouteEdges
  import opened RouteOrder
  import opened RouteCompiler
  import FilterUtils

  // =====================================================================
  // Connections without labels

  function PlainEnd(to: Option<Node>): string
  {
    if to.None? then "None" else to.value.name
  }

  /** A connection as parse_route returns it: `from >>> to` or `fork ^^^ to`, names bare. */
  function Plain(e: Edge): string
  {
    e.from.name + " " + Op(e.kind) + " " + PlainEnd(e.to)
  }

  function Plains(es: seq<Edge>): (ps: seq<string>)
    ensures |ps| == |es|
    ensures forall i :: 0 <= i < |es| ==> ps[i] == Plain(es[i])
  {
    seq(|es|, i requires 0 <= i < |es| => Plain(es[i]))
  }

  /** The name each connection leaves from. */
  function Froms(es: seq<Edge>): (ns: seq<string>)
    ensures |ns| == |es|
    ensures forall i :: 0 <= i < |es| ==> ns[i] == es[i].from.name
  {
    seq(|es|, i requires 0 <= i < |es| => es[i].from.name)
  }

  predicate EdgeOk(e: Edge)
  {
    NodeOk(e.from) && (e.to.Some? ==> NodeOk(e.to.value))
  }

  predicate AllOk(es: seq<Edge>)
  {
    forall i :: 0 <= i < |es| ==> EdgeOk(es[i])
  }

  lemma AllOkJoin(a: seq<Edge>, b: seq<Edge>)
    requires AllOk(a) && AllOk(b)
    ensures AllOk(a + b)
  {
    forall i | 0 <= i < |a + b| ensures EdgeOk((a + b)[i]) {
      if i < |a| { assert (a + b)[i] == a[i]; } else { assert (a + b)[i] == b[i - |a|]; }
    }
  }

  /** strip_prefix takes a node's label off and leaves its name. */
  lemma UnlabelFmt(n: Node)
    requires NodeOk(n)
    ensures Unlabel(Fmt(n)) == n.name
  {
    FmtWord(n);
  }

  lemma WordOf(w: string)
    requires |w| > 0 && forall k :: 0 <= k < |w| ==> !IsSpace(w[k])
    ensures SplitWs(w) == [w]
  {
    SplitWsWord(w, []);
    assert w + [] == w;
  }

  lemma OpWord(k: Kind)
    ensures SplitWs(Op(k)) == [Op(k)]
  {
    if k == Main { WordOf(">>>"); } else { WordOf("^^^"); }
  }

  lemma ToWord(to: Option<Node>)
    requires to.Some? ==> NodeOk(to.value)
    ensures SplitWs(ToText(to)) == [ToText(to)]
  {
    if to.None? { WordOf("None"); } else { FmtWord(to.value); }
  }

  /** A labelled connection splits into its three words. */
  lemma EdgeWords(e: Edge)
    requires EdgeOk(e)
    ensures SplitWs(EdgeText(e)) == [Fmt(e.from), Op(e.kind), ToText(e.to)]
  {
    FmtWord(e.from);
    OpWord(e.kind);
    ToWord(e.to);
    ThreeWords(Fmt(e.from), Op(e.kind), ToText(e.to));
  }

  lemma ThreeWords(a: string, o: string, t: string)
    requires SplitWs(a) == [a] && SplitWs(o) == [o] && SplitWs(t) == [t]
    ensures SplitWs(a + " " + o + " " + t) == [a, o, t]
  {
    SplitWsSpace(a, o);
    SplitWsSpace(a + " " + o, t);
  }

  /** remake_connection of a labelled connection is the same connection between bare names. */
  lemma RemakeEdge(e: Edge)
    requires EdgeOk(e)
    ensures RemakeConnection(EdgeText(e)) == Ok(Plain(e))
  {
    EdgeWords(e);
    RemakeWords(EdgeText(e), Fmt(e.from), Op(e.kind), ToText(e.to));
    UnlabelFmt(e.from);
    if e.to.None? {
      assert '~' !in "None";
    } else {
      UnlabelFmt(e.to.value);
    }
  }

  lemma RemakeWords(link: string, w0: string, w1: string, w2: string)
    requires SplitWs(link) == [w0, w1, w2]
    ensures RemakeConnection(link) == Ok(Unlabel(w0) + " " + w1 + " " + Unlabel(w2))
  {
  }

  lemma {:induction false} RemakeTexts(es: seq<Edge>)
    requires AllOk(es)
    ensures RemakeAll(Texts(es)) == Ok(Plains(es))
    decreases |es|
  {
    if es != [] {
      AllOkTail(es);
      RemakeEdge(es[0]);
      TextsCons(es);
      RemakeTexts(es[1..]);
      PlainsCons(es);
      RemakeCons(Texts(es), Plain(es[0]), Plains(es[1..]));
    }
  }

  lemma AllOkTail(es: seq<Edge>)
    requires es != [] && AllOk(es)
    ensures EdgeOk(es[0]) && AllOk(es[1..])
  {
  }

  lemma TextsCons(es: seq<Edge>)
    requires es != []
    ensures Texts(es)[0] == EdgeText(es[0]) && Texts(es)[1..] == Texts(es[1..])
  {
  }

  lemma PlainsCons(es: seq<Edge>)
    requires es != []
    ensures Plains(es) == [Plain(es[0])] + Plains(es[1..])
  {
  }

  lemma RemakeCons(links: seq<string>, c: string, cs: seq<string>)
    requires links != [] && RemakeConnection(links[0]) == Ok(c) && RemakeAll(links[1..]) == Ok(cs)
    ensures RemakeAll(links) == Ok([c] + cs)
  {
  }

  lemma {:induction false} FromTexts(es: seq<Edge>)
    requires AllOk(es)
    ensures FromNames(Texts(es)) == Ok(Froms(es))
    decreases |es|
  {
    if es != [] {
      FromsCons(es);
      FromHead(es[0]);
      assert Texts(es)[0] == EdgeText(es[0]);
      assert Texts(es)[1..] == Texts(es[1..]);
      FromTexts(es[1..]);
      FromCons(Texts(es), Fmt(es[0].from), Froms(es[1..]));
    }
  }

  lemma FromsCons(es: seq<Edge>)
    requires es != []
    ensures Froms(es) == [es[0].from.name] + Froms(es[1..])
  {
  }

  lemma FromHead(e: Edge)
    requires EdgeOk(e)
    ensures SplitWs(EdgeText(e)) != [] && SplitWs(EdgeText(e))[0] == Fmt(e.from)
    ensures Unlabel(Fmt(e.from)) == e.from.name
  {
    EdgeWords(e);
    UnlabelFmt(e.from);
  }

  lemma FromCons(links: seq<string>, w: string, ns: seq<string>)
    requires links != [] && SplitWs(links[0]) != [] && SplitWs(links[0])[0] == w && FromNames(links[1..]) == Ok(ns)
    ensures FromNames(links) == Ok([Unlabel(w)] + ns)
  {
  }

  /** Every connection a well-named pipe writes joins well-formed nodes. */
  lemma {:induction false} EdgesOk(p: Pipe, base: nat)
    requires WellNamed(p)
    ensures AllOk(Edges(p, base))
    decreases p
  {
    match p {
      case One(_) =>
      case Then(q, f) =>
        EdgesOk(q, base);
        EndsNamed(q);
        AllOkJoin(Edges(q, base), [Edge(FNode(Last(q)), Main, Some(FNode(f)))]);
      case Fork(q, inner, f) =>
        var k := base + Forks(q) + 1;
        EdgesOk(q, base);
        EdgesOk(inner, k);
        EndsNamed(q);
        EndsNamed(inner);
        ForkNodeOk(Last(q), k);
        var t := ForkEdgesOf(q, inner, f, base, k);
        AllOkJoin(Edges(q, base), Edges(inner, k));
        AllOkJoin(Edges(q, base) + Edges(inner, k), t);
    }
  }

  lemma RouteEdgesOk(p: Pipe)
    requires WellNamed(p)
    ensures AllOk(RouteEdgesOf(p))
  {
    EdgesOk(p, 0);
    EndsNamed(p);
    AllOkJoin(Edges(p, 0), [Edge(FNode(Last(p)), Main, None)]);
  }

  // =====================================================================
  // Sorting the connections

  /** `list.sort()` on the connections, read on the connections themselves. */
  function InsertEdge(e: Edge, es: seq<Edge>): (r: seq<Edge>)
    ensures |r| == |es| + 1
    ensures forall x :: x in r <==> x == e || x in es
    decreases |es|
  {
    if |es| == 0 then [e]
    else if StrLess(EdgeText(e), EdgeText(es[0])) then [e] + es
    else [es[0]] + InsertEdge(e, es[1..])
  }

  function SortEdges(es: seq<Edge>): (r: seq<Edge>)
    ensures |r| == |es|
    ensures forall x :: x in r <==> x in es
    decreases |es|
  {
    if |es| == 0 then []
    else InsertEdge(es[0], SortEdges(es[1..]))
  }

  lemma {:induction false} InsertTexts(e: Edge, es: seq<Edge>)
    ensures Texts(InsertEdge(e, es)) == Insert(EdgeText(e), Texts(es))
    decreases |es|
  {
    if |es| > 0 && !StrLess(EdgeText(e), EdgeText(es[0])) {
      InsertTexts(e, es[1..]);
      assert Texts(es)[1..] == Texts(es[1..]);
      TextsAppend([es[0]], InsertEdge(e, es[1..]));
    } else if |es| > 0 {
      TextsAppend([e], es);
    }
  }

  /** Sorting the connections sorts their strings, as parse_route does. */
  lemma {:induction false} SortTexts(es: seq<Edge>)
    ensures Texts(SortEdges(es)) == SortStrs(Texts(es))
    decreases |es|
  {
    if |es| > 0 {
      var t := Texts(es);
      SortTexts(es[1..]);
      assert t[1..] == Texts(es[1..]);
      InsertTexts(es[0], SortEdges(es[1..]));
      SortStrsCons(t);
      assert SortEdges(es) == InsertEdge(es[0], SortEdges(es[1..]));
    }
  }

  lemma SortStrsCons(t: seq<string>)
    requires |t| > 0
    ensures SortStrs(t) == Insert(t[0], SortStrs(t[1..]))
  {
  }

  predicate ByLabel(es: seq<Edge>)
  {
    forall i, j :: 0 <= i < j < |es| ==> es[i].from.num < es[j].from.num
  }

  lemma Occurs(r: seq<Edge>, es: seq<Edge>, i: nat) returns (m: nat)
    requires (forall x :: x in r ==> x in es) && i < |r|
    ensures m < |es| && es[m] == r[i]
  {
    assert r[i] in es;
    m :| 0 <= m < |es| && es[m] == r[i];
  }

  /** With distinct four-digit labels, the sorted connections are in label order. */
  lemma SortedByLabel(es: seq<Edge>)
    requires DistinctFrom(es) && FromIn(es, 0, 10000)
    ensures ByLabel(SortEdges(es))
  {
    var r := SortEdges(es);
    SortTexts(es);
    var s := Texts(r);
    forall i, j | 0 <= i < j < |r| ensures r[i].from.num < r[j].from.num {
      var m := Occurs(r, es, i);
      var n := Occurs(r, es, j);
      SortedLabels(es, s, i, j, m, n);
    }
  }

  // =====================================================================
  // The route without labels

  /** The route parse_route returns: names and forks, each branch as `fork (pipe)`. */
  function PlainPipe(p: Pipe, base: nat): string
    decreases p
  {
    match p
    case One(f) => f.name
    case Then(q, f) => PlainPipe(q, base) + " " + f.name
    case Fork(q, inner, f) =>
      var k := base + Forks(q) + 1;
      PlainPipe(q, base) + " " + BranchValue(Some(ForkNode(Last(q), k).name), PlainPipe(inner, k)) + " " + f.name
  }

  /** Every FILTER label leaves room for its fork's label within four digits. */
  predicate LabelsBelow(fs: seq<Filt>)
  {
    forall i :: 0 <= i < |fs| ==> fs[i].num < 9995
  }

  lemma BelowSplit(a: seq<Filt>, b: seq<Filt>)
    requires LabelsBelow(a + b)
    ensures LabelsBelow(a) && LabelsBelow(b)
  {
    assert forall i :: 0 <= i < |a| ==> (a + b)[i] == a[i];
    assert forall i :: 0 <= i < |b| ==> (a + b)[|a| + i] == b[i];
  }

  lemma StripFmt(n: Node)
    requires NodeOk(n) && n.num < 10000
    ensures FilterUtils.StripLabelPrefixes(Fmt(n)) == n.name
  {
    ZeroPad4(n.num);
    assert '~' !in n.name by {
      forall i | 0 <= i < |n.name| ensures n.name[i] != '~' { assert IsNameChar(n.name[i]); }
    }
    FilterUtils.StripLabelFront(ZeroPad(n.num, 4), n.name);
  }

  lemma StripSpace(a: string, b: string)
    ensures FilterUtils.StripLabelPrefixes(a + " " + b) ==
            FilterUtils.StripLabelPrefixes(a) + " " + FilterUtils.StripLabelPrefixes(b)
  {
    FilterUtils.StripLabelsSep(a, ' ', b);
  }

  lemma StripParenthesised(t: string)
    ensures FilterUtils.StripLabelPrefixes("(" + t + ")") == "(" + FilterUtils.StripLabelPrefixes(t) + ")"
  {
    FilterUtils.StripLabelsSep(t, ')', []);
    assert t + [')'] + [] == t + ")";
    FilterUtils.StripLabelsSep([], '(', t + ")");
    assert [] + ['('] + (t + ")") == "(" + t + ")";
    assert FilterUtils.StripLabelPrefixes([]) == [];
    assert [] + ['('] + (FilterUtils.StripLabelPrefixes(t) + [')'] + []) == "(" + FilterUtils.StripLabelPrefixes(t) + ")";
  }

  lemma StripBranch(fork: Node, ti: string)
    requires NodeOk(fork) && fork.num < 10000
    ensures FilterUtils.StripLabelPrefixes(BranchText(fork, ti)) ==
            BranchValue(Some(fork.name), FilterUtils.StripLabelPrefixes(ti))
  {
    StripFmt(fork);
    StripBracketed(Fmt(fork), fork.name, ti);
  }

  lemma StripBracketed(a: string, name: string, t: string)
    requires FilterUtils.StripLabelPrefixes(a) == name
    ensures FilterUtils.StripLabelPrefixes(a + " (" + t + ")") == name + " (" + FilterUtils.StripLabelPrefixes(t) + ")"
  {
    var st := FilterUtils.StripLabelPrefixes(t);
    StripParenthesised(t);
    StripSpace(a, "(" + t + ")");
    SpaceParen(a, t);
    SpaceParen(name, st);
  }

  lemma SpaceParen(a: string, t: string)
    ensures a + " (" + t + ")" == a + " " + ("(" + t + ")")
  {
    assert " (" == " " + "(";
    ConcatAssoc(a, " (", t);
    ConcatAssoc(a, " (" + t, ")");
    ConcatAssoc(" ", "(", t);
    ConcatAssoc(" ", "(" + t, ")");
    ConcatAssoc(a, " ", "(" + t + ")");
  }

  /** Stripping the labels from a pipe's value leaves the bare route. */
  lemma {:induction false} StripPipeText(p: Pipe, base: nat)
    requires WellNamed(p) && LabelsBelow(Filters(p))
    ensures FilterUtils.StripLabelPrefixes(PipeText(p, base)) == PlainPipe(p, base)
    decreases p, 1
  {
    match p {
      case One(f) =>
        assert Filters(p)[0] == f;
        StripFmt(FNode(f));
      case Then(q, f) =>
        BelowSplit(Filters(q), [f]);
        StripPipeText(q, base);
        StripFmt(FNode(f));
        StripSpace(PipeText(q, base), Fmt(FNode(f)));
      case Fork(q, inner, f) =>
        StripPipeFork(q, inner, f, base);
    }
  }

  lemma {:induction false} StripPipeFork(q: Pipe, inner: Pipe, f: Filt, base: nat)
    requires WellNamed(Fork(q, inner, f)) && LabelsBelow(Filters(Fork(q, inner, f)))
    ensures FilterUtils.StripLabelPrefixes(PipeText(Fork(q, inner, f), base)) == PlainPipe(Fork(q, inner, f), base)
    decreases Fork(q, inner, f), 0
  {
    var k := base + Forks(q) + 1;
    var fk := ForkNode(Last(q), k);
    ForkBelow(q, inner, f);
    StripPipeText(q, base);
    StripPipeText(inner, k);
    StripFmt(FNode(f));
    ForkNodeOk(Last(q), k);
    StripBranch(fk, PipeText(inner, k));
    var tq := PipeText(q, base);
    var bt := BranchText(fk, PipeText(inner, k));
    ForkWholeText(q, inner, f, base, k);
    StripThree(tq, bt, Fmt(FNode(f)));
    PlainFork(q, inner, f, base, k);
  }

  lemma ForkBelow(q: Pipe, inner: Pipe, f: Filt)
    requires LabelsBelow(Filters(Fork(q, inner, f)))
    ensures LabelsBelow(Filters(q)) && LabelsBelow(Filters(inner)) && f.num < 9995 && Last(q).num < 9995
  {
    BelowSplit(Filters(q) + Filters(inner), [f]);
    BelowSplit(Filters(q), Filters(inner));
    assert Filters(q)[|Filters(q)| - 1] == Last(q);
  }

  lemma PlainFork(q: Pipe, inner: Pipe, f: Filt, base: nat, k: nat)
    requires k == base + Forks(q) + 1
    ensures PlainPipe(Fork(q, inner, f), base) ==
      PlainPipe(q, base) + " " + BranchValue(Some(ForkNode(Last(q), k).name), PlainPipe(inner, k)) + " " + f.name
  {
  }

  lemma StripThree(a: string, b: string, c: string)
    ensures FilterUtils.StripLabelPrefixes(a + " " + b + " " + c) ==
      FilterUtils.StripLabelPrefixes(a) + " " + FilterUtils.StripLabelPrefixes(b) + " " + FilterUtils.StripLabelPrefixes(c)
  {
    StripSpace(a + " " + b, c);
    StripSpace(a, b);
  }

  // =====================================================================
  // parse_route's results

  /** route3 is `None (text)`; cutting "None " and the parentheses gives the text back. */
  lemma OuterBranch(text: string)
    ensures var route4 := BranchValue(None, text)[5..];
      route4 == "(" + text + ")" && route4[1..|route4| - 1] == text
  {
    assert BranchValue(None, text) == "None " + ("(" + text + ")");
  }

  /** The rest of parse_route, given the connections the actions wrote. */
  lemma FinishOf(text: string, es: seq<Edge>)
    requires AllOk(es)
    ensures Finish(text, Texts(es)) ==
      Ok(Some(Compiled(FilterUtils.StripLabelPrefixes(text), Plains(SortEdges(es)), Dedup(Froms(SortEdges(es))))))
  {
    var r := SortEdges(es);
    SortTexts(es);
    SortedOk(es);
    RemakeTexts(r);
    FromTexts(r);
    FinishParts(text, Texts(es), Plains(r), Froms(r));
  }

  lemma FinishParts(text: string, links: seq<string>, conns: seq<string>, names: seq<string>)
    requires RemakeAll(SortStrs(links)) == Ok(conns) && FromNames(SortStrs(links)) == Ok(names)
    ensures Finish(text, links) == Ok(Some(Compiled(FilterUtils.StripLabelPrefixes(text), conns, Dedup(names))))
  {
    OuterBranch(text);
  }

  lemma SortedOk(es: seq<Edge>)
    requires AllOk(es)
    ensures AllOk(SortEdges(es))
  {
    var r := SortEdges(es);
    forall i | 0 <= i < |r| ensures EdgeOk(r[i]) {
      var m := Occurs(r, es, i);
    }
  }

  /** The rest of parse_route for a well-named parse tree. */
  lemma FinishTree(p: Pipe)
    requires WellNamed(p)
    ensures var es := SortEdges(RouteEdgesOf(p));
      Finish(PipeText(p, 0), Texts(RouteEdgesOf(p))) ==
      Ok(Some(Compiled(FilterUtils.StripLabelPrefixes(PipeText(p, 0)), Plains(es), Dedup(Froms(es)))))
  {
    RouteEdgesOk(p);
    FinishOf(PipeText(p, 0), RouteEdgesOf(p));
  }

  lemma NumberedBelow(fs: seq<Filt>)
    requires Numbered(fs, 0) && |fs| < 999
    ensures LabelsBelow(fs) && Ascending(fs)
  {
    NumberedAscending(fs, 0);
  }

  /**
   * parse_route on a route that lexes and parses to `p` (with fewer than 999
   * FILTERs, so every label has four digits): the route with its labels
   * stripped, the connections with bare names in label order, and the
   * distinct names that start a connection.
   */
  lemma CompiledRoute(s: string, p: Pipe)
    requires Strip(s) != []
    requires var t := Lex("(" + Strip(s) + "\n)", 0); t.Ok? && ParseBranch(t.value) == Ok(p)
    requires |Filters(p)| < 999
    ensures var es := SortEdges(RouteEdgesOf(p));
      CompileRoute(s) == Ok(Some(Compiled(PlainPipe(p, 0), Plains(es), Dedup(Froms(es))))) &&
      ByLabel(es)
  {
    var src := "(" + Strip(s) + "\n)";
    var toks := Lex(src, 0).value;
    RouteNamed(src, p);
    LexLabels(src, 0);
    ParseBranchFilters(toks);
    NumberedBelow(Filters(p));
    FinishTree(p);
    StripPipeText(p, 0);
    RouteLabels(p);
    SortedByLabel(RouteEdgesOf(p));
  }

  /**
   * parse_route's three outcomes: nothing for a blank route, SyntaxError
   * exactly when the lexer or the grammar rejects `( route )`, and a result
   * otherwise.
   */
  lemma CompileRouteCases(s: string)
    ensures CompileRoute(s) == Ok(None) <==> IsBlank(s)
    ensures CompileRoute(s).Err? <==>
      !IsBlank(s) &&
      var t := Lex("(" + Strip(s) + "\n)", 0); t.Err? || ParseBranch(t.value).Err?
    ensures CompileRoute(s).Err? ==> CompileRoute(s).error == SyntaxError
  {
    StripEmptyIffBlank(s);
    var src := "(" + Strip(s) + "\n)";
    if Strip(s) != [] && Lex(src, 0).Ok? && ParseBranch(Lex(src, 0).value).Ok? {
      var p := ParseBranch(Lex(src, 0).value).value;
      RouteNamed(src, p);
      FinishTree(p);
    }
  }

  // =====================================================================
  // Two route shapes worked through

  /** The head of a label-ordered list has the least label, and is the only connection with it. */
  lemma HeadLeast(a: seq<Edge>, x: Edge)
    requires ByLabel(a) && x in a
    ensures a[0].from.num <= x.from.num
    ensures a[0].from.num == x.from.num ==> x == a[0]
    ensures x != a[0] ==> x in a[1..]
  {
    var m :| 0 <= m < |a| && a[m] == x;
    if m > 0 {
      assert a[0].from.num < a[m].from.num;
      assert a[1..][m - 1] == x;
    }
  }

  /** Two label-ordered lists of the same connections are the same list. */
  lemma {:induction false} ByLabelUnique(a: seq<Edge>, b: seq<Edge>)
    requires ByLabel(a) && ByLabel(b)
    requires forall x :: x in a <==> x in b
    ensures a == b
    decreases |a|
  {
    assert |a| > 0 ==> a[0] in b;
    assert |b| > 0 ==> b[0] in a;
    if |a| > 0 {
      HeadLeast(b, a[0]);
      HeadLeast(a, b[0]);
      assert b[0] == a[0];
      forall x ensures x in a[1..] <==> x in b[1..] {
        if x in a[1..] {
          assert x != a[0] by { HeadLeast(a[1..], x); }
          HeadLeast(b, x);
        }
        if x in b[1..] {
          assert x != b[0] by { HeadLeast(b[1..], x); }
          HeadLeast(a, x);
        }
      }
      assert ByLabel(a[1..]) && ByLabel(b[1..]);
      ByLabelUnique(a[1..], b[1..]);
      assert a == [a[0]] + a[1..] && b == [b[0]] + b[1..];
    }
  }

  /** The labels the lexer gives the FILTERs of a route that parses to `p`. */
  lemma ParsedLabels(s: string, p: Pipe)
    requires var t := Lex("(" + Strip(s) + "\n)", 0); t.Ok? && ParseBranch(t.value) == Ok(p)
    ensures Numbered(Filters(p), 0)
  {
    var src := "(" + Strip(s) + "\n)";
    LexLabels(src, 0);
    ParseBranchFilters(Lex(src, 0).value);
  }

  /** Sorting connections that are already in label order changes nothing. */
  lemma SortedAlready(es: seq<Edge>)
    requires ByLabel(es) && ByLabel(SortEdges(es))
    ensures SortEdges(es) == es
  {
    ByLabelUnique(SortEdges(es), es);
  }

  /** parse_route's result, given the connections of the route in label order. */
  lemma CompiledInOrder(s: string, p: Pipe, t: seq<Edge>)
    requires Strip(s) != []
    requires var tk := Lex("(" + Strip(s) + "\n)", 0); tk.Ok? && ParseBranch(tk.value) == Ok(p)
    requires |Filters(p)| < 999
    requires ByLabel(t) && forall x :: x in RouteEdgesOf(p) <==> x in t
    ensures CompileRoute(s) == Ok(Some(Compiled(PlainPipe(p, 0), Plains(t), Dedup(Froms(t)))))
  {
    CompiledRoute(s, p);
    ByLabelUnique(SortEdges(RouteEdgesOf(p)), t);
  }

  /**
   * A branchless route `a >>> b` compiles to the chain `a >>> b`,
   * `b >>> None`, with both names listed.
   */
  lemma ChainCompiled(s: string, a: Filt, b: Filt)
    requires Strip(s) != []
    requires var t := Lex("(" + Strip(s) + "\n)", 0); t.Ok? && ParseBranch(t.value) == Ok(Then(One(a), b))
    requires a.name != b.name
    ensures CompileRoute(s) == Ok(Some(Compiled(a.name + " " + b.name,
      [a.name + " >>> " + b.name, b.name + " >>> None"], [a.name, b.name])))
  {
    var p := Then(One(a), b);
    ParsedLabels(s, p);
    assert Filters(p) == [a, b];
    assert Filters(p)[0].num == 10 && Filters(p)[1].num == 20;
    var t := ChainShape(a, b);
    ChainParts(a, b);
    CompiledInOrder(s, p, t);
    DedupTwo(a.name, b.name);
  }

  lemma PlainMain(x: string, y: string)
    ensures x + " " + Op(Main) + " " + y == x + " >>> " + y
  {
    assert " " + Op(Main) + " " == " >>> ";
    ConcatAssoc(x, " " + Op(Main) + " ", y);
  }

  lemma PlainBranch(x: string, y: string)
    ensures x + " " + Op(Branch) + " " + y == x + " ^^^ " + y
  {
    assert " " + Op(Branch) + " " == " ^^^ ";
    ConcatAssoc(x, " " + Op(Branch) + " ", y);
  }

  lemma PlainNone(x: string)
    ensures x + " " + Op(Main) + " " + "None" == x + " >>> None"
  {
    PlainMain(x, "None");
    ConcatAssoc(x, " >>> ", "None");
  }

  /** The two connections of `a >>> b`. */
  function ChainShape(a: Filt, b: Filt): seq<Edge>
  {
    [Edge(FNode(a), Main, Some(FNode(b))), Edge(FNode(b), Main, None)]
  }

  /** The route text, connections and from-side names of `a >>> b`. */
  lemma ChainParts(a: Filt, b: Filt)
    ensures RouteEdgesOf(Then(One(a), b)) == ChainShape(a, b)
    ensures a.num < b.num ==> ByLabel(ChainShape(a, b))
    ensures PlainPipe(Then(One(a), b), 0) == a.name + " " + b.name
    ensures Plains(ChainShape(a, b)) == [a.name + " >>> " + b.name, b.name + " >>> None"]
    ensures Froms(ChainShape(a, b)) == [a.name, b.name]
  {
    assert Edges(One(a), 0) == [];
    PlainMain(a.name, b.name);
    PlainNone(b.name);
  }

  lemma DedupOne(x: string)
    ensures Dedup([x]) == [x]
  {
    assert [x][..0] == [];
  }

  lemma DedupTwo(x: string, y: string)
    requires x != y
    ensures Dedup([x, y]) == [x, y]
  {
    assert [x, y][..1] == [x];
    DedupOne(x);
  }

  /** Fork number 1 is `hidden_branch_route_01`. */
  lemma FirstForkName(f: Filt)
    ensures ForkNode(f, 1).name == ForkPrefix + "01"
  {
    assert Decimal(1) == "1";
    assert Zeros(1) == "0";
  }

  /** The five connections of `a >>> (b) c` in label order, the fork named h and labelled n + 5. */
  function ForkShape(a: Filt, b: Filt, c: Filt, h: string, n: nat): seq<Edge>
  {
    [Edge(FNode(a), Main, Some(Node(n + 5, h))),
     Edge(Node(n + 4, h), Branch, Some(FNode(b))),
     Edge(Node(n + 5, h), Main, Some(FNode(c))),
     Edge(FNode(b), Main, None),
     Edge(FNode(c), Main, None)]
  }

  lemma ForkShapeEdges(a: Filt, b: Filt, c: Filt, h: string)
    requires a.num == 10 && b.num == 20 && c.num == 30 && h == ForkNode(a, 1).name
    ensures ByLabel(ForkShape(a, b, c, h, 10))
    ensures forall x :: x in RouteEdgesOf(Fork(One(a), One(b), c)) <==> x in ForkShape(a, b, c, h, 10)
  {
    ForkShapeOrdered(a, b, c, h);
    var t := ForkShape(a, b, c, h, 10);
    ForkShapeSame(a, b, c, h);
    SameFive(t[1], t[3], t[0], t[2], t[4]);
  }

  lemma ForkShapeOrdered(a: Filt, b: Filt, c: Filt, h: string)
    requires a.num == 10 && b.num == 20 && c.num == 30
    ensures ByLabel(ForkShape(a, b, c, h, 10))
  {
  }

  lemma ForkShapeSame(a: Filt, b: Filt, c: Filt, h: string)
    requires h == ForkNode(a, 1).name && a.num == 10
    ensures var t := ForkShape(a, b, c, h, 10);
      RouteEdgesOf(Fork(One(a), One(b), c)) == [t[1], t[3], t[0], t[2], t[4]]
  {
    ForkEdgesOne(a, b, c);
    ForkTailShape(a, b, c, h);
  }

  lemma ForkEdgesOne(a: Filt, b: Filt, c: Filt)
    ensures Edges(Fork(One(a), One(b), c), 0) == ForkTail(One(a), One(b), c, 1)
  {
    assert Edges(One(a), 0) == [] && Edges(One(b), 1) == [];
  }

  lemma ForkTailShape(a: Filt, b: Filt, c: Filt, h: string)
    requires h == ForkNode(a, 1).name && a.num == 10
    ensures var t := ForkShape(a, b, c, h, 10);
      ForkTail(One(a), One(b), c, 1) == [t[1], t[3], t[0], t[2]]
  {
    assert ForkNode(a, 1) == Node(15, h);
  }

  lemma SameFive<T>(x1: T, x2: T, x3: T, x4: T, x5: T)
    ensures forall x :: x in [x1, x2, x3, x4, x5] <==> x in [x3, x1, x4, x2, x5]
  {
  }

  lemma DedupFork(x: string, h: string, y: string, z: string)
    requires x != h && x != y && x != z && h != y && h != z && y != z
    ensures Dedup([x, h, h, y, z]) == [x, h, y, z]
  {
    assert Dedup([x, h, h]) == [x, h] by {
      assert [x, h, h][..2] == [x, h];
      DedupTwo(x, h);
    }
    assert Dedup([x, h, h, y]) == [x, h, y] by {
      assert [x, h, h, y][..3] == [x, h, h];
    }
    assert [x, h, h, y, z][..4] == [x, h, h, y];
  }

  /**
   * `a >>> (b) c` makes fork hidden_branch_route_01: the connection into the
   * fork, its `^^^` branch, its `>>>` successor, then the two `>>> None`
   * ends, in that order, and the names in first-seen order.
   */
  lemma ForkCompiled(s: string, a: Filt, b: Filt, c: Filt)
    requires Strip(s) != []
    requires var t := Lex("(" + Strip(s) + "\n)", 0); t.Ok? && ParseBranch(t.value) == Ok(Fork(One(a), One(b), c))
    requires var h := ForkPrefix + "01";
      a.name != h && a.name != b.name && a.name != c.name && h != b.name && h != c.name && b.name != c.name
    ensures var h := ForkPrefix + "01";
      CompileRoute(s) == Ok(Some(Compiled(a.name + " " + h + " (" + b.name + ") " + c.name,
        [a.name + " >>> " + h, h + " ^^^ " + b.name, h + " >>> " + c.name, b.name + " >>> None", c.name + " >>> None"],
        [a.name, h, b.name, c.name])))
  {
    var p := Fork(One(a), One(b), c);
    var h := ForkNode(a, 1).name;
    FirstForkName(a);
    ParsedLabels(s, p);
    assert Filters(p) == [a, b, c];
    assert Filters(p)[0].num == 10 && Filters(p)[1].num == 20 && Filters(p)[2].num == 30;
    ForkShapeEdges(a, b, c, h);
    CompiledInOrder(s, p, ForkShape(a, b, c, h, 10));
    ForkText(a, b, c, h);
    ForkPlains(a, b, c, h, 10);
    ForkFroms(a, b, c, h, 10);
    DedupFork(a.name, h, b.name, c.name);
  }

  /** The route text of `a >>> (b) c` with fork h. */
  lemma ForkText(a: Filt, b: Filt, c: Filt, h: string)
    requires ForkNode(a, 1).name == h
    ensures PlainPipe(Fork(One(a), One(b), c), 0) == a.name + " " + h + " (" + b.name + ") " + c.name
  {
    assert PlainPipe(Fork(One(a), One(b), c), 0) == a.name + " " + BranchValue(Some(h), b.name) + " " + c.name by {
      assert PlainPipe(One(a), 0) == a.name && PlainPipe(One(b), 1) == b.name;
    }
    BranchTextAssoc(a.name, h, b.name, c.name);
  }

  /** The from-side names of the connections of `a >>> (b) c`, in label order. */
  lemma ForkFroms(a: Filt, b: Filt, c: Filt, h: string, n: nat)
    ensures Froms(ForkShape(a, b, c, h, n)) == [a.name, h, h, b.name, c.name]
  {
  }

  lemma BranchTextAssoc(x: string, h: string, y: string, z: string)
    ensures x + " " + BranchValue(Some(h), y) + " " + z == x + " " + h + " (" + y + ") " + z
  {
    assert BranchValue(Some(h), y) == h + " (" + y + ")";
    assert ")" + " " == ") ";
  }

  lemma ForkPlains(a: Filt, b: Filt, c: Filt, h: string, n: nat)
    ensures Plains(ForkShape(a, b, c, h, n)) ==
      [a.name + " >>> " + h, h + " ^^^ " + b.name, h + " >>> " + c.name, b.name + " >>> None", c.name + " >>> None"]
  {
    PlainMain(a.name, h);
    PlainBranch(h, b.name);
    PlainMain(h, c.name);
    PlainNone(b.name);
    PlainNone(c.name);
  }


}

/**
 * parse_route as written removes the leading "None " of route3 with
 * `split('None ')[1]`, which also cuts at a FILTER name ending in "None";
 * CompileRoute cuts the first five chars instead.
 */
module RouteCut {
  import opened Errors
  import opened Strings
  import opened RouteSyntax
  import opened RouteEdges
  import opened RouteCompiler
  import RouteResults
  import FilterUtils

  // =====================================================================
  // parse_route as written cuts "None " with split

  /** The first index at or after `from` where `sep` occurs in `s`. */
  function Find(s: string, sep: string, from: nat): (r: Option<nat>)
    requires |sep| > 0
    ensures r.Some? ==> from <= r.value && r.value + |sep| <= |s| && s[r.value..r.value + |sep|] == sep
    decreases |s| - from
  {
    if from + |sep| > |s| then None
    else if s[from..from + |sep|] == sep then Some(from)
    else Find(s, sep, from + 1)
  }

  /** An occurrence at k is found at k or before. */
  lemma {:induction false} FindBefore(s: string, sep: string, from: nat, k: nat)
    requires |sep| > 0 && from <= k && k + |sep| <= |s| && s[k..k + |sep|] == sep
    ensures Find(s, sep, from).Some? && Find(s, sep, from).value <= k
    decreases k - from
  {
    if s[from..from + |sep|] != sep {
      FindBefore(s, sep, from + 1, k);
    }
  }

  /** `s.split(sep)[1]`: the text between the first and the second occurrence of sep. */
  function SplitSecond(s: string, sep: string): (r: Result<string>)
    requires |sep| > 0
    ensures r.Err? <==> Find(s, sep, 0).None?
  {
    match Find(s, sep, 0)
    case None => Err(IndexError)
    case Some(i) =>
      var j := i + |sep|;
      match Find(s, sep, j)
      case None => Ok(s[j..])
      case Some(k) => Ok(s[j..k])
  }

  /**
   * Finish as parse_route writes it: route4 is what `split` leaves between
   * the leading "None " and the next "None " anywhere in route3.
   */
  function FinishAsWritten(text: string, links: seq<string>): (r: Result<Option<Compiled>>)
  {
    var route3 := BranchValue(None, text);
    match SplitSecond(route3, "None ")
    case Err(e) => Err(e)
    case Ok(route4) =>
      if route4 == [] then Err(IndexError)
      else if route4[0] != '(' || route4[|route4| - 1] != ')' then Err(SyntaxError)
      else
        var sorted := SortStrs(links);
        match RemakeAll(sorted)
        case Err(e) => Err(e)
        case Ok(conns) =>
          match FromNames(sorted)
          case Err(e) => Err(e)
          case Ok(names) =>
            Ok(Some(Compiled(FilterUtils.StripLabelPrefixes(route4[1..|route4| - 1]), conns, Dedup(names))))
  }

  /** parse_route as written, for comparison with CompileRoute. */
  function CompileRouteAsWritten(routeIn: string): (r: Result<Option<Compiled>>)
  {
    var route2 := Strip(routeIn);
    if route2 == [] then Ok(None)
    else
      match Lex("(" + route2 + "\n)", 0)
      case Err(e) => Err(e)
      case Ok(toks) =>
        match ParseBranch(toks)
        case Err(e) => Err(e)
        case Ok(p) => FinishAsWritten(PipeText(p, 0), Texts(RouteEdgesOf(p)))
  }

  /** A second "None " right after the opening parenthesis and some text cuts route4 short. */
  lemma CutShort(g: string, rest: string)
    requires ')' !in g
    ensures var r := SplitSecond("None (" + g + "None " + rest, "None ");
      r.Ok? && r.value != [] && r.value[|r.value| - 1] != ')'
  {
    var sep := "None ";
    var s := "None (" + g + "None " + rest;
    assert s[0..5] == sep;
    assert Find(s, sep, 0) == Some(0);
    assert s[5] == '(';
    assert s[5..10][0] == '(';
    assert Find(s, sep, 5) == Find(s, sep, 6);
    var kk := 6 + |g|;
    assert s[kk..kk + 5] == sep;
    FindBefore(s, sep, 6, kk);
    var k := Find(s, sep, 6).value;
    assert s[k - 1] != ')' by {
      assert forall i :: 0 <= i < |g| ==> s[6 + i] == g[i];
      if k - 1 > 5 { assert s[k - 1] == g[k - 7]; }
    }
    SecondPiece(s, sep, k);
  }

  /** Separators at 0 and at k: `split(sep)[1]` is what lies between them. */
  lemma SecondPiece(s: string, sep: string, k: nat)
    requires |sep| > 0 && Find(s, sep, 0) == Some(0) && Find(s, sep, |sep|) == Some(k)
    ensures SplitSecond(s, sep) == Ok(s[|sep|..k])
  {
  }

  /** The route text of `f1 >>> f2`. */
  lemma ChainText(f1: Filt, f2: Filt, x: string)
    requires f1.name == x + "None"
    ensures BranchValue(None, PipeText(Then(One(f1), f2), 0)) ==
      "None (" + (ZeroPad(f1.num, 4) + "~" + x) + "None " + (Fmt(FNode(f2)) + ")")
  {
    var g := ZeroPad(f1.num, 4) + "~" + x;
    assert Fmt(FNode(f1)) == g + "None";
    var f := Fmt(FNode(f2));
    calc {
      BranchValue(None, PipeText(Then(One(f1), f2), 0));
      "None" + " (" + (g + "None" + " " + f) + ")";
      { ConcatAssoc("None" + " (", g + "None" + " " + f, ")"); }
      "None" + " (" + ((g + "None" + " ") + (f + ")"));
    }
  }

  /** Both versions of parse_route hand the same parse tree to their last step. */
  lemma CompileTree(s: string, p: Pipe)
    requires Strip(s) != []
    requires var t := Lex("(" + Strip(s) + "\n)", 0); t.Ok? && ParseBranch(t.value) == Ok(p)
    ensures CompileRoute(s) == Finish(PipeText(p, 0), Texts(RouteEdgesOf(p)))
    ensures CompileRouteAsWritten(s) == FinishAsWritten(PipeText(p, 0), Texts(RouteEdgesOf(p)))
  {
  }

  /** As written, the last step rejects a chain whose first name ends in "None". */
  lemma NoneSuffixCut(f1: Filt, f2: Filt, x: string)
    requires IsName(f1.name) && f1.name == x + "None"
    ensures FinishAsWritten(PipeText(Then(One(f1), f2), 0), Texts(RouteEdgesOf(Then(One(f1), f2)))) == Err(SyntaxError)
  {
    var text := PipeText(Then(One(f1), f2), 0);
    var g := ZeroPad(f1.num, 4) + "~" + x;
    ChainText(f1, f2, x);
    NoParen(f1.num, x, f1.name);
    CutShort(g, Fmt(FNode(f2)) + ")");
    ShortRejected(text, Texts(RouteEdgesOf(Then(One(f1), f2))));
  }

  lemma NoParen(n: nat, x: string, name: string)
    requires IsName(name) && name == x + "None"
    ensures ')' !in ZeroPad(n, 4) + "~" + x
  {
    var z := ZeroPad(n, 4);
    var g := z + "~" + x;
    forall i | 0 <= i < |g| ensures g[i] != ')' {
      if i >= |z| + 1 {
        assert g[i] == name[i - |z| - 1];
        assert IsNameChar(name[i - |z| - 1]);
      }
    }
  }

  lemma ShortRejected(text: string, links: seq<string>)
    requires var r := SplitSecond(BranchValue(None, text), "None "); r.Ok? && r.value != [] && r.value[|r.value| - 1] != ')'
    ensures FinishAsWritten(text, links) == Err(SyntaxError)
  {
  }

  /**
   * A route `aNone >>> b`, whose first FILTER's name ends in "None", is
   * rejected with SyntaxError by parse_route as written, though the grammar
   * accepts it and CompileRoute compiles it.
   */
  lemma NoneSuffixRejected(s: string, f1: Filt, f2: Filt, x: string)
    requires Strip(s) != []
    requires var t := Lex("(" + Strip(s) + "\n)", 0); t.Ok? && ParseBranch(t.value) == Ok(Then(One(f1), f2))
    requires f1.name == x + "None"
    ensures CompileRouteAsWritten(s) == Err(SyntaxError)
    ensures CompileRoute(s).Ok? && CompileRoute(s).value.Some?
  {
    var p := Then(One(f1), f2);
    RouteNamed("(" + Strip(s) + "\n)", p);
    CompileTree(s, p);
    RouteResults.FinishTree(p);
    NoneSuffixCut(f1, f2, x);
  }
}
