/**
 * lex_yacc4.py's RouteParser: the lexer loop with its token counter, the
 * grammar actions that append connection strings and push and pop forks,
 * and parse_route, which runs them, sorts the connections and strips the
 * temporary labels.
 *
 * The actions are proved to write exactly the connections `Edges` lists
 * and to reduce to exactly `PipeText`, so everything proved about those
 * (RouteEdges, RouteOrder) holds for what parse_route returns.
 */
module RouteCompiler {
  import opened Errors
  import opened Strings
  import opened RouteSyntax
  import opened RouteEdges
  import opened RouteOrder
  import FilterUtils

  // =====================================================================
  // The string helpers of _connect_pipes and _start_branch

  predicate IsParen(c: char) { c == '(' || c == ')' }

  /** `w.lstrip('()')` */
  function LStripParens(w: string): (r: string)
    ensures |r| <= |w| && r == w[|w| - |r|..]
    ensures forall i :: 0 <= i < |w| - |r| ==> IsParen(w[i])
    ensures r == [] || !IsParen(r[0])
  {
    if |w| > 0 && IsParen(w[0]) then LStripParens(w[1..]) else w
  }

  /** `w.rstrip('()')` */
  function RStripParens(w: string): (r: string)
    ensures |r| <= |w| && r == w[..|r|]
    ensures forall i :: |r| <= i < |w| ==> IsParen(w[i])
    ensures r == [] || !IsParen(r[|r| - 1])
  {
    if |w| > 0 && IsParen(w[|w| - 1]) then RStripParens(w[..|w| - 1]) else w
  }

  /** `w.strip('()')`: the word without the parentheses around it. */
  function StripParens(w: string): (r: string)
  {
    RStripParens(LStripParens(w))
  }

  /** A word with no parenthesis at either end is its own strip. */
  lemma StripParensKeeps(w: string)
    requires w != [] && !IsParen(w[0]) && !IsParen(w[|w| - 1])
    ensures StripParens(w) == w
  {
  }

  /** The parentheses a word carries are removed from both ends. */
  lemma StripParensAround(w: string)
    requires w != [] && !IsParen(w[0]) && !IsParen(w[|w| - 1])
    ensures StripParens("(" + w) == w && StripParens(w + ")") == w && StripParens("(" + w + ")") == w
  {
    assert ("(" + w)[1..] == w;
    assert ("(" + w + ")")[1..] == w + ")";
    assert (w + ")")[..|w|] == w;
  }

  /** `'%4.4d' % n`: at least four digits, a minus sign before negatives. */
  function FormatLabel(n: int): (s: string)
    ensures n >= 0 ==> IsDigits(s)
  {
    if n < 0 then "-" + ZeroPad(-n, 4) else ZeroPad(n, 4)
  }

  /** `int(s)` on a label: the decimal value of a run of digits, ValueError otherwise. */
  function ParseLabel(s: string): (r: Result<nat>)
    ensures r.Ok? <==> IsDigits(s)
    ensures r.Err? ==> r.error == ValueError
  {
    if IsDigits(s) then Ok(DecimalValue(s)) else Err(ValueError)
  }

  lemma ParseLabelPadded(n: nat)
    ensures ParseLabel(ZeroPad(n, 4)) == Ok(n) && FormatLabel(n) == ZeroPad(n, 4)
  {
    ZeroPadValue(n, 4);
  }

  /**
   * The connection `_connect_pipes(pipe1, pipe2, rule, type)` appends:
   * from the last word of pipe1 (its first word if that is a fork), to the
   * first word of pipe2 (None when pipe2 is None), both stripped of
   * parentheses; a branch connection is written under its label minus one.
   * An empty pipe raises IndexError, a malformed branch label ValueError.
   */
  function ConnectionText(pipe1: string, pipe2: Option<string>, kind: Kind): (r: Result<string>)
    ensures SplitWs(pipe1) == [] ==> r == Err(IndexError)
    ensures r.Err? ==> r.error == IndexError || r.error == ValueError
  {
    var ws := SplitWs(pipe1);
    if ws == [] then Err(IndexError)
    else
      var from := ConnectionFrom(ws);
      var to := ConnectionTo(pipe2);
      if to.Err? then Err(to.error)
      else if kind == Main then Ok(from + " " + Op(Main) + " " + to.value)
      else BranchConnection(from, to.value)
  }

  /** The from-side of a connection: the first word if it is a fork, else the last, without parentheses. */
  function ConnectionFrom(ws: seq<string>): string
    requires ws != []
  {
    if StartsWith(StripParens(ws[0]), ForkPrefix) then StripParens(ws[0]) else StripParens(ws[|ws| - 1])
  }

  /** The to-side: "None" for no pipe, else the pipe's first word without parentheses. */
  function ConnectionTo(pipe2: Option<string>): (r: Result<string>)
    ensures r.Err? ==> r.error == IndexError
  {
    if pipe2.None? then Ok("None")
    else
      var ws2 := SplitWs(pipe2.value);
      if ws2 == [] then Err(IndexError) else Ok(StripParens(ws2[0]))
  }

  /** A branch connection is written under the from-side's label minus one. */
  function BranchConnection(from: string, to: string): (r: Result<string>)
    ensures r.Err? ==> r.error == ValueError
  {
    var parts := Split(from, '~');
    if |parts| != 2 then Err(ValueError)
    else
      match ParseLabel(parts[0])
      case Err(e) => Err(e)
      case Ok(n) => Ok(FormatLabel(n - 1) + "~" + parts[1] + " " + Op(Branch) + " " + to)
  }

  /**
   * The fork `_start_branch(prev_pipe)` names for branch number k: the last
   * FILTER of the previous pipe, its label plus 5, and `hidden_branch_route_`
   * with k in two digits.
   */
  function ForkText(prevPipe: string, k: nat): (r: Result<string>)
    ensures SplitWs(prevPipe) == [] ==> r == Err(IndexError)
    ensures r.Err? ==> r.error == IndexError || r.error == ValueError
  {
    var ws := SplitWs(prevPipe);
    if ws == [] then Err(IndexError)
    else
      match ParseLabel(Split(ws[|ws| - 1], '~')[0])
      case Err(e) => Err(e)
      case Ok(n) => Ok(FormatLabel(n + 5) + "~" + ForkPrefix + ZeroPad(k, 2))
  }

  /** `'%s (%s)' % (p[2], p[3])`: p_branch's value; the outer branch has no fork. */
  function BranchValue(fork: Option<string>, inner: string): string
  {
    (if fork.None? then "None" else fork.value) + " (" + inner + ")"
  }

  // =====================================================================
  // Words of the reduced texts

  /** The chars a node's name is made of: no blank, parenthesis or '~'. */
  predicate NodeOk(n: Node)
  {
    forall i :: 0 <= i < |n.name| ==> IsNameChar(n.name[i])
  }

  /** Every FILTER of the pipe has a name the lexer could have produced. */
  predicate WellNamed(p: Pipe)
  {
    match p
    case One(f) => IsName(f.name)
    case Then(q, f) => WellNamed(q) && IsName(f.name)
    case Fork(q, inner, f) => WellNamed(q) && WellNamed(inner) && IsName(f.name)
  }

  predicate NamesOk(fs: seq<Filt>)
  {
    forall i :: 0 <= i < |fs| ==> IsName(fs[i].name)
  }

  lemma NamesSplit(a: seq<Filt>, b: seq<Filt>)
    requires NamesOk(a + b)
    ensures NamesOk(a) && NamesOk(b)
  {
    assert forall i :: 0 <= i < |a| ==> (a + b)[i] == a[i];
    assert forall i :: 0 <= i < |b| ==> (a + b)[|a| + i] == b[i];
  }

  lemma {:induction false} WellNamedFilters(p: Pipe)
    requires NamesOk(Filters(p))
    ensures WellNamed(p)
  {
    match p {
      case One(f) =>
        assert Filters(p)[0] == f;
      case Then(q, f) =>
        NamesSplit(Filters(q), [f]);
        WellNamedFilters(q);
      case Fork(q, inner, f) =>
        NamesSplit(Filters(q) + Filters(inner), [f]);
        NamesSplit(Filters(q), Filters(inner));
        WellNamedFilters(q);
        WellNamedFilters(inner);
    }
  }

  lemma ForkNodeOk(pred: Filt, k: nat)
    ensures NodeOk(ForkNode(pred, k))
  {
    var z := ZeroPad(k, 2);
    var name := ForkPrefix + z;
    forall i | 0 <= i < |name| ensures IsNameChar(name[i]) {
      if i >= |ForkPrefix| { assert name[i] == z[i - |ForkPrefix|]; }
    }
  }

  /** A formatted node holds no blank and no parenthesis. */
  lemma FmtChars(n: Node)
    requires NodeOk(n)
    ensures |Fmt(n)| > 0
    ensures forall i :: 0 <= i < |Fmt(n)| ==> !IsSpace(Fmt(n)[i]) && !IsParen(Fmt(n)[i])
  {
    var z := ZeroPad(n.num, 4);
    var s := Fmt(n);
    assert s == z + "~" + n.name;
    forall i | 0 <= i < |s| ensures !IsSpace(s[i]) && !IsParen(s[i]) {
      if i < |z| { assert s[i] == z[i]; }
      else if i > |z| { assert s[i] == n.name[i - |z| - 1]; }
    }
  }

  /** A formatted node is one word that strip('()') leaves alone and split('~') cuts in two. */
  lemma FmtWord(n: Node)
    requires NodeOk(n)
    ensures SplitWs(Fmt(n)) == [Fmt(n)]
    ensures StripParens(Fmt(n)) == Fmt(n)
    ensures !StartsWith(Fmt(n), ForkPrefix)
    ensures Split(Fmt(n), '~') == [ZeroPad(n.num, 4), n.name]
  {
    FmtOneWord(n);
    FmtParts(n);
  }

  lemma FmtOneWord(n: Node)
    requires NodeOk(n)
    ensures SplitWs(Fmt(n)) == [Fmt(n)]
    ensures StripParens(Fmt(n)) == Fmt(n)
    ensures !StartsWith(Fmt(n), ForkPrefix)
  {
    var s := Fmt(n);
    FmtChars(n);
    assert s + [] == s;
    SplitWsWord(s, []);
    StripParensKeeps(s);
    assert s[0] == ZeroPad(n.num, 4)[0];
    assert s[0] != ForkPrefix[0];
  }

  lemma FmtParts(n: Node)
    requires NodeOk(n)
    ensures Split(Fmt(n), '~') == [ZeroPad(n.num, 4), n.name]
  {
    var z := ZeroPad(n.num, 4);
    assert '~' !in z && '~' !in n.name by {
      assert forall i :: 0 <= i < |n.name| ==> n.name[i] != '~';
    }
    FilterUtils.StripPrefixOneSep(z, n.name, '~');
    SplitJoin([z, n.name], '~');
    assert Join([z, n.name], ['~']) == z + ['~'] + n.name;
  }

  /** The text's words are non-empty, its first word is `a`'s and its last `b`'s. */
  predicate Ends(text: string, a: Node, b: Node)
  {
    var ws := SplitWs(text);
    |ws| > 0 && ws[0] == Fmt(a) && ws[|ws| - 1] == Fmt(b)
  }

  /** The first and the last FILTER of a well-named pipe make well-formed nodes. */
  lemma {:induction false} EndsNamed(p: Pipe)
    requires WellNamed(p)
    ensures NodeOk(FNode(First(p))) && NodeOk(FNode(Last(p)))
  {
    match p {
      case One(f) =>
      case Then(q, f) => EndsNamed(q);
      case Fork(q, inner, f) => EndsNamed(q);
    }
  }

  lemma FilterNodeOk(f: Filt)
    requires IsName(f.name)
    ensures NodeOk(FNode(f))
  {
  }

  /** A reduced pipe starts with its first FILTER and ends with its last. */
  lemma {:induction false} PipeWords(p: Pipe, base: nat)
    requires WellNamed(p)
    ensures Ends(PipeText(p, base), FNode(First(p)), FNode(Last(p)))
    decreases p, 1
  {
    match p {
      case One(f) =>
        FmtWord(FNode(f));
      case Then(q, f) =>
        PipeWords(q, base);
        FmtWord(FNode(f));
        SplitWsSpace(PipeText(q, base), Fmt(FNode(f)));
      case Fork(q, inner, f) =>
        PipeWordsFork(q, inner, f, base);
    }
  }

  lemma {:induction false} PipeWordsFork(q: Pipe, inner: Pipe, f: Filt, base: nat)
    requires WellNamed(Fork(q, inner, f))
    ensures Ends(PipeText(Fork(q, inner, f), base), FNode(First(q)), FNode(f))
    decreases Fork(q, inner, f), 0
  {
    var k := base + Forks(q) + 1;
    var tq := PipeText(q, base);
    var bt := BranchText(ForkNode(Last(q), k), PipeText(inner, k));
    var ff := Fmt(FNode(f));
    PipeWords(q, base);
    FmtWord(FNode(f));
    ForkEnds(tq, bt, ff, FNode(First(q)), FNode(f));
    assert PipeText(Fork(q, inner, f), base) == tq + " " + bt + " " + ff;
  }

  lemma ForkEnds(tq: string, bt: string, ff: string, x: Node, y: Node)
    requires var wq := SplitWs(tq); |wq| > 0 && wq[0] == Fmt(x)
    requires SplitWs(ff) == [ff] && ff == Fmt(y)
    ensures Ends(tq + " " + bt + " " + ff, x, y)
  {
    var wq := SplitWs(tq);
    var rest := SplitWs(bt + " " + ff);
    assert rest == SplitWs(bt) + [ff] by {
      SplitWsSpace(bt, ff);
    }
    ConcatAssoc(tq + " ", bt + " ", ff);
    ConcatAssoc(tq + " ", bt, " ");
    SplitWsSpace(tq, bt + " " + ff);
    assert SplitWs(tq + " " + bt + " " + ff) == wq + rest;
  }

  /** A branch's value begins with its fork. */
  lemma BranchWords(fork: Node, inner: string)
    requires NodeOk(fork)
    ensures var ws := SplitWs(BranchText(fork, inner)); |ws| > 0 && ws[0] == Fmt(fork)
  {
    FmtChars(fork);
    var rest := " (" + inner + ")";
    ConcatAssoc(Fmt(fork), " (" + inner, ")");
    ConcatAssoc(Fmt(fork), " (", inner);
    SplitWsWord(Fmt(fork), rest);
  }

  // =====================================================================
  // Each action writes the connection Edges lists

  /** `pipe >>> x`: the pipe's last FILTER to x's first word. */
  lemma ConnectMain(pipe1: string, pipe2: string, a: Node, b: Node, c: Node)
    requires NodeOk(a) && NodeOk(b) && NodeOk(c)
    requires Ends(pipe1, a, b)
    requires var ws := SplitWs(pipe2); |ws| > 0 && ws[0] == Fmt(c)
    ensures ConnectionText(pipe1, Some(pipe2), Main) == Ok(EdgeText(Edge(b, Main, Some(c))))
  {
    FmtWord(a);
    FmtWord(b);
    FmtWord(c);
  }

  /** `x >>> None` at the end of a pipe. */
  lemma ConnectEnd(pipe1: string, a: Node, b: Node)
    requires NodeOk(a) && NodeOk(b)
    requires Ends(pipe1, a, b)
    ensures ConnectionText(pipe1, None, Main) == Ok(EdgeText(Edge(b, Main, None)))
  {
    FmtWord(a);
    FmtWord(b);
  }

  /** `fork ^^^ x`, written one below the fork's label. */
  lemma ConnectBranch(fork: Node, pipe2: string, c: Node)
    requires NodeOk(fork) && NodeOk(c) && fork.num >= 1
    requires var ws := SplitWs(pipe2); |ws| > 0 && ws[0] == Fmt(c)
    ensures ConnectionText(Fmt(fork), Some(pipe2), Branch) ==
      Ok(EdgeText(Edge(Node(fork.num - 1, fork.name), Branch, Some(c))))
  {
    FmtWord(fork);
    FmtWord(c);
    ParseLabelPadded(fork.num);
    ParseLabelPadded(fork.num - 1);
    ConnectionTextBranch(Fmt(fork), pipe2, Fmt(fork), Fmt(c), ZeroPad(fork.num, 4), fork.name, fork.num);
  }

  /** `_connect_pipes` for a branch, from its parts: one word, a label and a name, and the target word. */
  lemma ConnectionTextBranch(pipe1: string, pipe2: string, from: string, to: string, lbl: string, name: string, n: nat)
    requires SplitWs(pipe1) == [from] && StripParens(from) == from
    requires SplitWs(pipe2) != [] && StripParens(SplitWs(pipe2)[0]) == to
    requires Split(from, '~') == [lbl, name] && ParseLabel(lbl) == Ok(n)
    ensures ConnectionText(pipe1, Some(pipe2), Branch) == Ok(FormatLabel(n - 1) + "~" + name + " " + Op(Branch) + " " + to)
  {
    var ws := SplitWs(pipe1);
    assert ConnectionFrom(ws) == from by {
      assert ws[0] == from && ws[|ws| - 1] == from;
    }
    assert ConnectionTo(Some(pipe2)) == Ok(to);
    assert BranchConnection(from, to) == Ok(FormatLabel(n - 1) + "~" + name + " " + Op(Branch) + " " + to);
  }

  /** `_start_branch` after a pipe ending in FILTER b names fork number k after b. */
  lemma ForkNamed(prevPipe: string, a: Node, b: Filt, k: nat)
    requires NodeOk(a) && IsName(b.name)
    requires Ends(prevPipe, a, FNode(b))
    ensures ForkText(prevPipe, k) == Ok(Fmt(ForkNode(b, k)))
  {
    var ws := SplitWs(prevPipe);
    assert Split(ws[|ws| - 1], '~')[0] == ZeroPad(b.num, 4) by {
      FmtWord(FNode(b));
    }
    assert ParseLabel(ZeroPad(b.num, 4)) == Ok(b.num) by {
      ParseLabelPadded(b.num);
    }
    assert FormatLabel(b.num + 5) == ZeroPad(b.num + 5, 4) by {
      ParseLabelPadded(b.num + 5);
    }
    ConcatAssoc(ZeroPad(b.num + 5, 4) + "~", ForkPrefix, ZeroPad(k, 2));
  }

  // =====================================================================
  // What end_branch and the two branch-building productions write

  /**
   * The connections `_end_branch` writes: the fork (when there is one) `^^^`
   * the branch's first FILTER, then the branch's last FILTER `>>> None`.
   */
  function EndTexts(startingFork: Option<string>, filtersInBranch: string): (r: Result<seq<string>>)
    ensures r.Ok? ==> |r.value| == (if startingFork.Some? && startingFork.value != "" then 2 else 1)
  {
    EndWords(startingFork, SplitWs(filtersInBranch))
  }

  /** EndTexts once the branch's value is split into words. */
  function EndWords(startingFork: Option<string>, ws: seq<string>): (r: Result<seq<string>>)
    ensures r.Ok? ==> |r.value| == (if startingFork.Some? && startingFork.value != "" then 2 else 1)
  {
    var first: Result<seq<string>> :=
      if startingFork.Some? && startingFork.value != "" then
        if ws == [] then Err(IndexError)
        else
          match ConnectionText(startingFork.value, Some(ws[0]), Branch)
          case Err(e) => Err(e)
          case Ok(t) => Ok([t])
      else Ok([]);
    if first.Err? then first
    else if ws == [] then Err(IndexError)
    else
      match ConnectionText(ws[|ws| - 1], None, Main)
      case Err(e) => Err(e)
      case Ok(t) => Ok(first.value + [t])
  }

  /** The branch's end, as Edges lists it: fork ^^^ first, last >>> None. */
  lemma EndEdges(fork: Node, inner: string, a: Node, b: Node)
    requires NodeOk(fork) && NodeOk(a) && NodeOk(b) && fork.num >= 1
    requires Ends(inner, a, b)
    ensures EndTexts(Some(Fmt(fork)), inner) ==
      Ok([EdgeText(Edge(Node(fork.num - 1, fork.name), Branch, Some(a))), EdgeText(Edge(b, Main, None))])
  {
    var ws := SplitWs(inner);
    var t1 := EdgeText(Edge(Node(fork.num - 1, fork.name), Branch, Some(a)));
    var t2 := EdgeText(Edge(b, Main, None));
    assert Fmt(fork) != "" by {
      FmtWord(fork);
    }
    assert ConnectionText(Fmt(fork), Some(ws[0]), Branch) == Ok(t1) by {
      FmtWord(a);
      ConnectBranch(fork, ws[0], a);
    }
    assert ConnectionText(ws[|ws| - 1], None, Main) == Ok(t2) by {
      FmtWord(b);
      ConnectEnd(ws[|ws| - 1], b, b);
    }
    EndTextsBoth(Fmt(fork), ws, t1, t2);
  }

  /** Both of `_end_branch`'s connections made: they are the result, in order. */
  lemma EndTextsBoth(fork: string, ws: seq<string>, t1: string, t2: string)
    requires fork != "" && ws != []
    requires ConnectionText(fork, Some(ws[0]), Branch) == Ok(t1)
    requires ConnectionText(ws[|ws| - 1], None, Main) == Ok(t2)
    ensures EndWords(Some(fork), ws) == Ok([t1, t2])
  {
    assert [t1] + [t2] == [t1, t2];
  }

  /** The outer branch has no fork: only its last FILTER >>> None. */
  lemma EndEdgesOuter(inner: string, a: Node, b: Node)
    requires NodeOk(a) && NodeOk(b)
    requires Ends(inner, a, b)
    ensures EndTexts(None, inner) == Ok([EdgeText(Edge(b, Main, None))])
  {
    var ws := SplitWs(inner);
    var t2 := EdgeText(Edge(b, Main, None));
    assert ConnectionText(ws[|ws| - 1], None, Main) == Ok(t2) by {
      FmtWord(b);
      ConnectEnd(ws[|ws| - 1], b, b);
    }
    assert [] + [t2] == [t2];
  }

  /**
   * `pipe : pipe JOINTO branch FILTER`: the pipe to the branch's fork, then,
   * with the fork popped from the stack, the fork to the FILTER; the value
   * joins the three with blanks. Popping an empty stack raises IndexError.
   */
  function Pipe3Texts(pipe: string, branch: string, filter: string, stack: seq<string>): (r: Result<seq<string>>)
    ensures r.Ok? ==> |r.value| == 2 && stack != []
  {
    match ConnectionText(pipe, Some(branch), Main)
    case Err(e) => Err(e)
    case Ok(t1) =>
      if stack == [] then Err(IndexError)
      else
        match ConnectionText(stack[|stack| - 1], Some(filter), Main)
        case Err(e) => Err(e)
        case Ok(t2) => Ok([t1, t2])
  }

  // =====================================================================
  // parse_route's post-processing

  /** `strip_prefix(w, '~')`: a word without its label. */
  function Unlabel(w: string): string
  {
    FilterUtils.StripPrefix(Some(w), '~').value
  }

  /** `remake_connection(*link.split())` (debug off): both ends without labels. */
  function RemakeConnection(link: string): (r: Result<string>)
    ensures r.Err? <==> |SplitWs(link)| < 3
    ensures r.Err? ==> r.error == IndexError
  {
    var args := SplitWs(link);
    if |args| < 3 then Err(IndexError)
    else Ok(Unlabel(args[0]) + " " + args[1] + " " + Unlabel(args[2]))
  }

  function RemakeAll(links: seq<string>): (r: Result<seq<string>>)
    ensures r.Ok? ==> |r.value| == |links|
    ensures r.Ok? ==> forall i :: 0 <= i < |links| ==> RemakeConnection(links[i]) == Ok(r.value[i])
    ensures r.Err? ==> exists i :: 0 <= i < |links| && RemakeConnection(links[i]).Err?
  {
    if links == [] then Ok([])
    else
      match RemakeConnection(links[0])
      case Err(e) => Err(e)
      case Ok(c) =>
        match RemakeAll(links[1..])
        case Err(e) => Err(e)
        case Ok(cs) => Ok([c] + cs)
  }

  /** `strip_prefix(link.split()[0], '~')` for every link: the from-side names. */
  function FromNames(links: seq<string>): (r: Result<seq<string>>)
    ensures r.Ok? ==> |r.value| == |links|
    ensures r.Ok? ==> forall i :: 0 <= i < |links| ==> SplitWs(links[i]) != [] && r.value[i] == Unlabel(SplitWs(links[i])[0])
  {
    if links == [] then Ok([])
    else
      var ws := SplitWs(links[0]);
      if ws == [] then Err(IndexError)
      else
        match FromNames(links[1..])
        case Err(e) => Err(e)
        case Ok(ns) =>
          var names := [Unlabel(ws[0])] + ns;
          assert forall i :: 1 <= i < |links| ==> names[i] == ns[i - 1] && links[i] == links[1..][i - 1];
          Ok(names)
  }

  /** What parse_route returns for a route that is not blank. */
  datatype Compiled = Compiled(route: string, connections: seq<string>, filterNames: seq<string>)

  /**
   * The rest of parse_route once the actions have run: route3 is the outer
   * branch's value, `links` the connections the actions wrote. The leading
   * "None " is cut off, the outer parentheses checked and removed, the
   * labels stripped; the connections are sorted, remade without labels, and
   * their distinct from-side names listed in sorted order.
   */
  function Finish(text: string, links: seq<string>): (r: Result<Option<Compiled>>)
  {
    var route3 := BranchValue(None, text);
    var route4 := route3[5..];
    var sorted := SortStrs(links);
    if route4[0] != '(' || route4[|route4| - 1] != ')' then Err(SyntaxError)
    else
      match RemakeAll(sorted)
      case Err(e) => Err(e)
      case Ok(conns) =>
        match FromNames(sorted)
        case Err(e) => Err(e)
        case Ok(names) =>
          Ok(Some(Compiled(FilterUtils.StripLabelPrefixes(route4[1..|route4| - 1]), conns, Dedup(names))))
  }

  /**
   * parse_route as a function of its input: (None, None, None) for a blank
   * route, SyntaxError for text the lexer or the grammar rejects, otherwise
   * the result of running the grammar actions on the parse tree.
   */
  function CompileRoute(routeIn: string): (r: Result<Option<Compiled>>)
  {
    var route2 := Strip(routeIn);
    if route2 == [] then Ok(None)
    else
      match Lex("(" + route2 + "\n)", 0)
      case Err(e) => Err(e)
      case Ok(toks) =>
        match ParseBranch(toks)
        case Err(e) => Err(e)
        case Ok(p) => Finish(PipeText(p, 0), Texts(RouteEdgesOf(p)))
  }

  /** `Lex` with the tokens read so far put in front. */
  function Prefixed(acc: seq<Tok>, r: Result<seq<Tok>>): Result<seq<Tok>>
  {
    match r
    case Ok(t) => Ok(acc + t)
    case Err(e) => Err(e)
  }

  lemma PrefixedNone(r: Result<seq<Tok>>)
    ensures Prefixed([], r) == r
  {
    if r.Ok? { assert [] + r.value == r.value; }
  }

  lemma PrefixedCons(acc: seq<Tok>, tok: Tok, r: Result<seq<Tok>>)
    ensures Prefixed(acc, Prefixed([tok], r)) == Prefixed(acc + [tok], r)
  {
    if r.Ok? { assert acc + ([tok] + r.value) == acc + [tok] + r.value; }
  }

  /** One lexer step: the tokens it emits go in front of the tokens of the rest. */
  lemma LexStep(rest: string, counter: nat, sc: Scan)
    requires rest != [] && ScanHead(rest, counter) == Some(sc)
    ensures Lex(rest, counter) == Prefixed(sc.toks, Lex(rest[sc.width..], sc.next))
  {
  }

  /** Tokens put in front in two goes are the two lists put in front at once. */
  lemma PrefixedChain(whole: Result<seq<Tok>>, mid: Result<seq<Tok>>, last: Result<seq<Tok>>,
                      acc: seq<Tok>, toks: seq<Tok>)
    requires whole == Prefixed(acc, mid) && mid == Prefixed(toks, last)
    ensures whole == Prefixed(acc + toks, last)
  {
    if last.Ok? {
      assert acc + (toks + last.value) == acc + toks + last.value;
    }
  }

  /** The counter keeps step with the FILTER tokens read. */
  lemma AdvanceCount(rest: string, c0: nat, counter: nat, acc: seq<Tok>, step: Scan)
    requires rest != [] && ScanHead(rest, counter) == Some(step)
    requires counter == c0 + 10 * |FilterToks(acc)|
    ensures step.width > 0
    ensures step.next == c0 + 10 * |FilterToks(acc + step.toks)|
  {
    ScanCount(rest, counter, step);
    FilterToksAppend(acc, step.toks);
  }

  /** A scan step advances the counter by ten for the FILTER it emits, if any. */
  lemma ScanCount(s: string, counter: nat, sc: Scan)
    requires s != [] && ScanHead(s, counter) == Some(sc)
    ensures sc.next == counter + 10 * |FilterToks(sc.toks)|
    ensures sc.width > 0
  {
    if sc.toks != [] {
      assert sc.toks == [sc.toks[0]];
      assert sc.toks[1..] == [];
    }
  }

  /** What the actions for `q >>> f` compute, given the text of q. */
  lemma ThenStep(q: Pipe, f: Filt, base: nat, tq: string)
    requires WellNamed(Then(q, f)) && tq == PipeText(q, base)
    ensures var e := Edge(FNode(Last(q)), Main, Some(FNode(f)));
      ConnectionText(tq, Some(Fmt(FNode(f))), Main) == Ok(EdgeText(e)) &&
      PipeText(Then(q, f), base) == tq + " " + Fmt(FNode(f)) &&
      Texts(Edges(Then(q, f), base)) == Texts(Edges(q, base)) + [EdgeText(e)]
  {
    var e := Edge(FNode(Last(q)), Main, Some(FNode(f)));
    assert ConnectionText(tq, Some(Fmt(FNode(f))), Main) == Ok(EdgeText(e)) by {
      PipeWords(q, base);
      EndsNamed(q);
      FilterNodeOk(f);
      FmtWord(FNode(f));
      ConnectMain(tq, Fmt(FNode(f)), FNode(First(q)), FNode(Last(q)), FNode(f));
    }
    TextsAppendOne(Edges(q, base), e);
  }

  /** `start_branch` after the pipe q names the fork of `q >>> (inner) f`. */
  lemma ForkOpenName(q: Pipe, inner: Pipe, f: Filt, base: nat, tq: string, k: nat)
    requires WellNamed(Fork(q, inner, f)) && tq == PipeText(q, base)
    ensures ForkText(tq, k) == Ok(Fmt(ForkNode(Last(q), k)))
  {
    PipeWords(q, base);
    EndsNamed(q);
    ForkNamed(tq, FNode(First(q)), Last(q), k);
  }

  /** `end_branch` for `q >>> (inner) f`: the fork to inner's first FILTER, inner's last to None. */
  lemma ForkOpenEnd(fk: Node, inner: Pipe, k: nat, ti: string)
    requires NodeOk(fk) && fk.num >= 1
    requires WellNamed(inner) && ti == PipeText(inner, k)
    ensures EndTexts(Some(Fmt(fk)), ti) ==
      Ok([EdgeText(Edge(Node(fk.num - 1, fk.name), Branch, Some(FNode(First(inner))))),
          EdgeText(Edge(FNode(Last(inner)), Main, None))])
  {
    var a, b := FNode(First(inner)), FNode(Last(inner));
    assert NodeOk(a) && NodeOk(b) && Ends(ti, a, b) by {
      PipeWords(inner, k);
      EndsNamed(inner);
    }
    EndEdges(fk, ti, a, b);
  }

  /** The outer branch's end_branch, and the route's connections as a whole. */
  lemma OuterEnd(p: Pipe, text: string)
    requires WellNamed(p) && text == PipeText(p, 0)
    ensures EndTexts(None, text) == Ok([EdgeText(Edge(FNode(Last(p)), Main, None))])
    ensures Texts(RouteEdgesOf(p)) == Texts(Edges(p, 0)) + [EdgeText(Edge(FNode(Last(p)), Main, None))]
  {
    PipeWords(p, 0);
    EndsNamed(p);
    EndEdgesOuter(text, FNode(First(p)), FNode(Last(p)));
    TextsAppendOne(Edges(p, 0), Edge(FNode(Last(p)), Main, None));
  }

  lemma TextsAppendOne(a: seq<Edge>, e: Edge)
    ensures Texts(a + [e]) == Texts(a) + [EdgeText(e)]
  {
    TextsAppend(a, [e]);
    assert Texts([e]) == [EdgeText(e)];
  }

  /** A pipe parsed from the lexer's tokens is well named. */
  lemma RouteNamed(s: string, p: Pipe)
    requires Lex(s, 0).Ok? && ParseBranch(Lex(s, 0).value) == Ok(p)
    ensures WellNamed(p)
  {
    var toks := Lex(s, 0).value;
    LexLabels(s, 0);
    ParseBranchFilters(toks);
    WellNamedFilters(p);
  }

  /** The connections `pipe >>> branch FILTER` writes for `q >>> (inner) f`. */
  lemma ForkClose(q: Pipe, inner: Pipe, f: Filt, base: nat, tq: string, ti: string, stack: seq<string>, k: nat)
    requires WellNamed(Fork(q, inner, f)) && tq == PipeText(q, base)
    ensures var fk := ForkNode(Last(q), k);
      Pipe3Texts(tq, BranchText(fk, ti), Fmt(FNode(f)), stack + [Fmt(fk)]) ==
        Ok([EdgeText(Edge(FNode(Last(q)), Main, Some(fk))), EdgeText(Edge(fk, Main, Some(FNode(f))))])
  {
    var fk := ForkNode(Last(q), k);
    var e3 := Edge(FNode(Last(q)), Main, Some(fk));
    var e4 := Edge(fk, Main, Some(FNode(f)));
    assert ConnectionText(tq, Some(BranchText(fk, ti)), Main) == Ok(EdgeText(e3)) by {
      PipeWords(q, base);
      EndsNamed(q);
      ConnectToFork(tq, FNode(First(q)), FNode(Last(q)), Last(q), k, ti);
    }
    assert ConnectionText(Fmt(fk), Some(Fmt(FNode(f))), Main) == Ok(EdgeText(e4)) by {
      FilterNodeOk(f);
      ConnectFromFork(Last(q), k, FNode(f));
    }
    Pipe3Both(tq, BranchText(fk, ti), Fmt(FNode(f)), stack, Fmt(fk), EdgeText(e3), EdgeText(e4));
  }

  lemma ConnectToFork(tq: string, a: Node, b: Node, pred: Filt, k: nat, inner: string)
    requires NodeOk(a) && NodeOk(b) && Ends(tq, a, b)
    ensures var fk := ForkNode(pred, k);
      ConnectionText(tq, Some(BranchText(fk, inner)), Main) == Ok(EdgeText(Edge(b, Main, Some(fk))))
  {
    ForkNodeOk(pred, k);
    ConnectToBranch(tq, a, b, ForkNode(pred, k), inner);
  }

  lemma ConnectToBranch(tq: string, a: Node, b: Node, fork: Node, inner: string)
    requires NodeOk(a) && NodeOk(b) && NodeOk(fork) && Ends(tq, a, b)
    ensures ConnectionText(tq, Some(BranchText(fork, inner)), Main) == Ok(EdgeText(Edge(b, Main, Some(fork))))
  {
    BranchWords(fork, inner);
    ConnectMain(tq, BranchText(fork, inner), a, b, fork);
  }

  lemma ConnectFromFork(pred: Filt, k: nat, y: Node)
    requires NodeOk(y)
    ensures ConnectionText(Fmt(ForkNode(pred, k)), Some(Fmt(y)), Main) ==
      Ok(EdgeText(Edge(ForkNode(pred, k), Main, Some(y))))
  {
    ForkNodeOk(pred, k);
    ConnectNodes(ForkNode(pred, k), y);
  }

  /** One formatted node to another. */
  lemma ConnectNodes(x: Node, y: Node)
    requires NodeOk(x) && NodeOk(y)
    ensures ConnectionText(Fmt(x), Some(Fmt(y)), Main) == Ok(EdgeText(Edge(x, Main, Some(y))))
  {
    FmtWord(x);
    FmtWord(y);
    ConnectMain(Fmt(x), Fmt(y), x, x, y);
  }

  /** Both connections of `pipe >>> branch FILTER` made: they are the result. */
  lemma BranchValueText(fork: Node, inner: string)
    ensures BranchValue(Some(Fmt(fork)), inner) == BranchText(fork, inner)
  {
  }

  lemma Pipe3Both(pipe: string, branch: string, filter: string, stack: seq<string>, fork: string, t1: string, t2: string)
    requires ConnectionText(pipe, Some(branch), Main) == Ok(t1)
    requires ConnectionText(fork, Some(filter), Main) == Ok(t2)
    ensures Pipe3Texts(pipe, branch, filter, stack + [fork]) == Ok([t1, t2])
  {
    var st := stack + [fork];
    assert st[|st| - 1] == fork;
  }

  /** The text of `q >>> (inner) f`, from those of its parts. */
  lemma ForkWholeText(q: Pipe, inner: Pipe, f: Filt, base: nat, k: nat)
    requires k == base + Forks(q) + 1
    ensures PipeText(Fork(q, inner, f), base) ==
      PipeText(q, base) + " " + BranchText(ForkNode(Last(q), k), PipeText(inner, k)) + " " + Fmt(FNode(f))
  {
  }

  /** The connections of `q >>> (inner) f`, from those of its parts. */
  lemma ForkWholeEdges(q: Pipe, inner: Pipe, f: Filt, base: nat, k: nat)
    requires k == base + Forks(q) + 1
    ensures var fk := ForkNode(Last(q), k);
      Texts(Edges(Fork(q, inner, f), base)) ==
        Texts(Edges(q, base)) + Texts(Edges(inner, k)) +
        Texts4(Edge(Node(fk.num - 1, fk.name), Branch, Some(FNode(First(inner)))),
               Edge(FNode(Last(inner)), Main, None),
               Edge(FNode(Last(q)), Main, Some(fk)),
               Edge(fk, Main, Some(FNode(f))))
  {
    var fk := ForkNode(Last(q), k);
    var e1, e2, e3, e4 := Edge(Node(fk.num - 1, fk.name), Branch, Some(FNode(First(inner)))),
       Edge(FNode(Last(inner)), Main, None),
       Edge(FNode(Last(q)), Main, Some(fk)),
       Edge(fk, Main, Some(FNode(f)));
    var a, b := Edges(q, base), Edges(inner, k);
    var t := ForkEdgesOf(q, inner, f, base, k);
    TextsAppend(a, b);
    TextsAppend(a + b, t);
  }

  /** The connections written for `q >>> (inner) f`, part by part, are its Edges. */
  lemma ForkConns(q: Pipe, inner: Pipe, f: Filt, base: nat, k: nat, c0: seq<string>, c1: seq<string>, c2: seq<string>, c3: seq<string>)
    requires k == base + Forks(q) + 1
    requires c1 == c0 + Texts(Edges(q, base))
    requires var fk := ForkNode(Last(q), k);
      c2 == c1 + Texts(Edges(inner, k)) +
        [EdgeText(Edge(Node(fk.num - 1, fk.name), Branch, Some(FNode(First(inner))))),
         EdgeText(Edge(FNode(Last(inner)), Main, None))]
    requires var fk := ForkNode(Last(q), k);
      c3 == c2 + [EdgeText(Edge(FNode(Last(q)), Main, Some(fk))), EdgeText(Edge(fk, Main, Some(FNode(f))))]
    ensures c3 == c0 + Texts(Edges(Fork(q, inner, f), base))
  {
    var fk := ForkNode(Last(q), k);
    var x := [EdgeText(Edge(Node(fk.num - 1, fk.name), Branch, Some(FNode(First(inner))))),
              EdgeText(Edge(FNode(Last(inner)), Main, None))];
    var y := [EdgeText(Edge(FNode(Last(q)), Main, Some(fk))), EdgeText(Edge(fk, Main, Some(FNode(f))))];
    ForkWholeEdges(q, inner, f, base, k);
    assert x + y == [x[0], x[1], y[0], y[1]];
    ChainConns(c0, c1, c2, c3, Texts(Edges(q, base)), Texts(Edges(inner, k)), x, y,
               Texts(Edges(Fork(q, inner, f), base)));
  }

  /** Appending a, then b and x, then y is appending a + b + (x + y). */
  lemma ChainConns<T>(c0: seq<T>, c1: seq<T>, c2: seq<T>, c3: seq<T>, a: seq<T>, b: seq<T>, x: seq<T>, y: seq<T>, w: seq<T>)
    requires c1 == c0 + a && c2 == c1 + b + x && c3 == c2 + y && w == a + b + (x + y)
    ensures c3 == c0 + w
  {
    calc {
      c3;
      c0 + a + b + x + y;
      { ConcatAssoc(c0 + a + b, x, y); }
      c0 + a + b + (x + y);
      { ConcatAssoc(c0 + a, b, x + y); ConcatAssoc(c0, a, b + (x + y)); ConcatAssoc(a, b, x + y); }
      c0 + w;
    }
  }

  /** The texts of four connections. */
  function Texts4(e1: Edge, e2: Edge, e3: Edge, e4: Edge): (ts: seq<string>)
    ensures ts == Texts([e1, e2, e3, e4])
  {
    [EdgeText(e1), EdgeText(e2), EdgeText(e3), EdgeText(e4)]
  }

  // =====================================================================
  // The parser object

  class RouteParser {
    /** `self.connections`: one string per connection, in the order written. */
    var connections: seq<string>
    /** `self.fork_stack`: forks whose branch has been opened and not yet joined. */
    var forkStack: seq<string>
    /** `self.token_counter`: the last FILTER label handed out. */
    var tokenCounter: nat
    /** `self.branch_counter`: the number of the last fork named. */
    var branchCounter: nat

    constructor()
      ensures connections == [] && forkStack == [] && tokenCounter == 0 && branchCounter == 0
    {
      connections := [];
      forkStack := [];
      tokenCounter := 0;
      branchCounter := 0;
    }

    /**
     * The lexer over the whole input: t_FILTER takes the longest name and
     * labels it with the counter bumped by 10, t_COMMENT drops `#` to the end
     * of the line, blanks, tabs and newlines are skipped, t_error raises.
     */
    method Tokenize(s: string) returns (r: Result<seq<Tok>>)
      modifies this`tokenCounter
      ensures r == Lex(s, old(tokenCounter))
      ensures r.Ok? ==> tokenCounter == old(tokenCounter) + 10 * |FilterToks(r.value)|
    {
      var c0 := tokenCounter;
      var counter := tokenCounter;
      var rest := s;
      var acc: seq<Tok> := [];
      PrefixedNone(Lex(s, counter));
      while rest != []
        invariant Lex(s, c0) == Prefixed(acc, Lex(rest, counter))
        invariant counter == c0 + 10 * |FilterToks(acc)|
        decreases |rest|
      {
        var sc := ScanHead(rest, counter);
        if sc.None? {
          tokenCounter := counter;
          return Err(SyntaxError);
        }
        var step := sc.value;
        LexStep(rest, counter, step);
        PrefixedChain(Lex(s, c0), Lex(rest, counter), Lex(rest[step.width..], step.next), acc, step.toks);
        AdvanceCount(rest, c0, counter, acc, step);
        acc, counter, rest := acc + step.toks, step.next, rest[step.width..];
      }
      assert acc + [] == acc;
      tokenCounter := counter;
      return Ok(acc);
    }

    /** `_connect_pipes`: append the connection from pipe1 to pipe2. */
    method ConnectPipes(pipe1: string, pipe2: Option<string>, kind: Kind) returns (r: Result<()>)
      modifies this`connections
      ensures var c := ConnectionText(pipe1, pipe2, kind);
        (c.Ok? ==> r == Ok(()) && connections == old(connections) + [c.value]) &&
        (c.Err? ==> r == Err(c.error) && connections == old(connections))
    {
      var c := ConnectionText(pipe1, pipe2, kind);
      if c.Err? {
        return Err(c.error);
      }
      connections := connections + [c.value];
      return Ok(());
    }

    /** `_start_branch`: count the branch and name its fork. */
    method StartBranch(prevPipe: string) returns (r: Result<string>)
      modifies this`branchCounter
      ensures branchCounter == old(branchCounter) + 1
      ensures r == ForkText(prevPipe, branchCounter)
    {
      branchCounter := branchCounter + 1;
      r := ForkText(prevPipe, branchCounter);
    }

    /**
     * `start_branch :` (empty). Inside a pipe the fork is named and pushed;
     * for the outer branch there is no previous pipe (`p[-3]` raises
     * IndexError, which is caught) and the value is None. An IndexError
     * from naming the fork is caught the same way.
     */
    method StartBranchAction(prevPipe: Option<string>) returns (r: Result<Option<string>>)
      modifies this`branchCounter, this`forkStack
      ensures prevPipe.None? ==> r == Ok(None) && branchCounter == old(branchCounter) && forkStack == old(forkStack)
      ensures prevPipe.Some? ==> branchCounter == old(branchCounter) + 1
      ensures prevPipe.Some? ==> var t := ForkText(prevPipe.value, old(branchCounter) + 1);
        (t.Ok? ==> r == Ok(Some(t.value)) && forkStack == old(forkStack) + [t.value]) &&
        (t.Err? && t.error == IndexError ==> r == Ok(None) && forkStack == old(forkStack)) &&
        (t.Err? && t.error != IndexError ==> r == Err(t.error) && forkStack == old(forkStack))
    {
      if prevPipe.None? {
        return Ok(None);
      }
      var fork := StartBranch(prevPipe.value);
      if fork.Err? {
        if fork.error == IndexError {
          return Ok(None);
        }
        return Err(fork.error);
      }
      forkStack := forkStack + [fork.value];
      return Ok(Some(fork.value));
    }

    /**
     * `end_branch :` (empty), i.e. `_end_branch(prev, p[-3], p[-2])`: both
     * connections are computed, then appended.
     */
    method EndBranch(startingFork: Option<string>, filtersInBranch: string) returns (r: Result<()>)
      modifies this`connections
      ensures var e := EndTexts(startingFork, filtersInBranch);
        (e.Ok? ==> r == Ok(()) && connections == old(connections) + e.value) &&
        (e.Err? ==> r == Err(e.error) && connections == old(connections))
    {
      var e := EndTexts(startingFork, filtersInBranch);
      if e.Err? {
        return Err(e.error);
      }
      connections := connections + e.value;
      return Ok(());
    }

    /** `pipe : pipe JOINTO FILTER`: connect the pipe to the FILTER, join their texts. */
    method PipeJoin(pipe: string, filter: string) returns (r: Result<string>)
      modifies this`connections
      ensures var c := ConnectionText(pipe, Some(filter), Main);
        (c.Ok? ==> r == Ok(pipe + " " + filter) && connections == old(connections) + [c.value]) &&
        (c.Err? ==> r == Err(c.error) && connections == old(connections))
    {
      var c := ConnectPipes(pipe, Some(filter), Main);
      if c.Err? {
        return Err(c.error);
      }
      return Ok(pipe + " " + filter);
    }

    /**
     * `pipe : pipe JOINTO branch FILTER`: both connections are computed, then
     * appended, and the fork is popped.
     */
    method PipeBranch(pipe: string, branch: string, filter: string) returns (r: Result<string>)
      modifies this`connections, this`forkStack
      ensures var e := Pipe3Texts(pipe, branch, filter, old(forkStack));
        (e.Ok? ==> r == Ok(pipe + " " + branch + " " + filter) && connections == old(connections) + e.value &&
                   forkStack == old(forkStack)[..|old(forkStack)| - 1]) &&
        (e.Err? ==> r == Err(e.error) && connections == old(connections) && forkStack == old(forkStack))
    {
      var e := Pipe3Texts(pipe, branch, filter, forkStack);
      if e.Err? {
        return Err(e.error);
      }
      connections := connections + e.value;
      forkStack := forkStack[..|forkStack| - 1];
      return Ok(pipe + " " + branch + " " + filter);
    }

    /**
     * The grammar actions in the order the LALR parser reduces a parsed pipe:
     * the actions of its parts first, then its own. The value is PipeText,
     * the connections written are Edges, the fork stack is left as found.
     */
    method ReducePipe(p: Pipe) returns (r: Result<string>)
      requires WellNamed(p)
      modifies this`connections, this`forkStack, this`branchCounter
      ensures r == Ok(PipeText(p, old(branchCounter)))
      ensures connections == old(connections) + Texts(Edges(p, old(branchCounter)))
      ensures branchCounter == old(branchCounter) + Forks(p)
      ensures forkStack == old(forkStack)
      decreases p, 2
    {
      match p {
        case One(f) =>
          r := Ok(Fmt(FNode(f)));
        case Then(q, f) =>
          r := ReduceThen(q, f);
        case Fork(q, inner, f) =>
          r := ReduceFork(q, inner, f);
      }
    }

    /** `q >>> f`: the pipe, then the connection from its last FILTER to `f`. */
    method ReduceThen(q: Pipe, f: Filt) returns (r: Result<string>)
      requires WellNamed(Then(q, f))
      modifies this`connections, this`forkStack, this`branchCounter
      ensures r == Ok(PipeText(Then(q, f), old(branchCounter)))
      ensures connections == old(connections) + Texts(Edges(Then(q, f), old(branchCounter)))
      ensures branchCounter == old(branchCounter) + Forks(Then(q, f))
      ensures forkStack == old(forkStack)
      decreases Then(q, f), 1
    {
      var base := branchCounter;
      ghost var c0 := connections;
      var left := ReducePipe(q);
      ThenStep(q, f, base, left.value);
      r := PipeJoin(left.value, Fmt(FNode(f)));
      ConcatAssoc(c0, Texts(Edges(q, base)), [EdgeText(Edge(FNode(Last(q)), Main, Some(FNode(f))))]);
    }

    /** `q >>> (inner) f`: the pipe, the branch, then the join of the two. */
    method ReduceFork(q: Pipe, inner: Pipe, f: Filt) returns (r: Result<string>)
      requires WellNamed(Fork(q, inner, f))
      modifies this`connections, this`forkStack, this`branchCounter
      ensures r == Ok(PipeText(Fork(q, inner, f), old(branchCounter)))
      ensures connections == old(connections) + Texts(Edges(Fork(q, inner, f), old(branchCounter)))
      ensures branchCounter == old(branchCounter) + Forks(Fork(q, inner, f))
      ensures forkStack == old(forkStack)
      decreases Fork(q, inner, f), 1
    {
      var base := branchCounter;
      ghost var c0, s0 := connections, forkStack;
      var tq, started := OpenFork(q, inner, f);
      var k := branchCounter;
      ghost var c1, s1 := connections, forkStack;
      ghost var fk := ForkNode(Last(q), k);
      assert s1 == s0 + [started.value];
      assert WellNamed(inner) && NodeOk(fk) && fk.num >= 1 by {
        ForkNodeOk(Last(q), k);
      }
      var ti := CloseBranch(inner, started, fk);
      ghost var c2 := connections;
      ghost var b2 := branchCounter;
      assert forkStack == s1 && b2 == k + Forks(inner);
      r := JoinFork(q, inner, f, base, tq, started, ti, k, fk);
      assert branchCounter == b2;
      assert forkStack == s0 by {
        assert s1[..|s1| - 1] == s0;
      }
      assert r == Ok(PipeText(Fork(q, inner, f), base)) by {
        ForkWholeText(q, inner, f, base, k);
      }
      ForkConns(q, inner, f, base, k, c0, c1, c2, connections);
    }

    /** The pipe before a branch, then `start_branch`, which names and pushes the fork. */
    method OpenFork(q: Pipe, inner: Pipe, f: Filt) returns (tq: string, started: Option<string>)
      requires WellNamed(Fork(q, inner, f))
      modifies this`connections, this`forkStack, this`branchCounter
      ensures tq == PipeText(q, old(branchCounter))
      ensures connections == old(connections) + Texts(Edges(q, old(branchCounter)))
      ensures branchCounter == old(branchCounter) + Forks(q) + 1
      ensures started == Some(Fmt(ForkNode(Last(q), branchCounter)))
      ensures forkStack == old(forkStack) + [started.value]
      decreases Fork(q, inner, f), 0
    {
      var base := branchCounter;
      var left := ReducePipe(q);
      tq := left.value;
      ForkOpenName(q, inner, f, base, tq, branchCounter + 1);
      var s := StartBranchAction(Some(tq));
      started := s.value;
    }

    /** The branch's pipe, then `end_branch`: fork `^^^` first, last `>>> None`. */
    method CloseBranch(inner: Pipe, started: Option<string>, ghost fk: Node) returns (ti: string)
      requires WellNamed(inner) && NodeOk(fk) && fk.num >= 1
      requires started == Some(Fmt(fk))
      modifies this`connections, this`forkStack, this`branchCounter
      ensures ti == PipeText(inner, old(branchCounter))
      ensures connections == old(connections) + Texts(Edges(inner, old(branchCounter))) +
          [EdgeText(Edge(Node(fk.num - 1, fk.name), Branch, Some(FNode(First(inner))))),
           EdgeText(Edge(FNode(Last(inner)), Main, None))]
      ensures branchCounter == old(branchCounter) + Forks(inner)
      ensures forkStack == old(forkStack)
      decreases inner, 3
    {
      var k := branchCounter;
      ghost var c0, s0 := connections, forkStack;
      var t := ReducePipe(inner);
      ti := t.value;
      ghost var c1 := connections;
      assert c1 == c0 + Texts(Edges(inner, k));
      assert forkStack == s0 && branchCounter == k + Forks(inner);
      ForkOpenEnd(fk, inner, k, ti);
      var ended := EndBranch(started, ti);
      assert forkStack == s0 && branchCounter == k + Forks(inner);
      assert connections == c1 +
        [EdgeText(Edge(Node(fk.num - 1, fk.name), Branch, Some(FNode(First(inner))))),
         EdgeText(Edge(FNode(Last(inner)), Main, None))];
    }

    /** `pipe >>> branch FILTER`: the pipe to the fork, the popped fork to the FILTER. */
    method JoinFork(q: Pipe, inner: Pipe, f: Filt, base: nat, tq: string, started: Option<string>, ti: string,
                    k: nat, ghost fk: Node)
        returns (r: Result<string>)
      requires WellNamed(Fork(q, inner, f)) && tq == PipeText(q, base) && fk == ForkNode(Last(q), k)
      requires started == Some(Fmt(fk))
      requires forkStack != [] && forkStack[|forkStack| - 1] == started.value
      modifies this`connections, this`forkStack
      ensures r == Ok(tq + " " + BranchText(fk, ti) + " " + Fmt(FNode(f)))
      ensures connections == old(connections) +
          [EdgeText(Edge(FNode(Last(q)), Main, Some(fk))), EdgeText(Edge(fk, Main, Some(FNode(f))))]
      ensures forkStack == old(forkStack)[..|old(forkStack)| - 1]
    {
      ghost var stack := forkStack[..|forkStack| - 1];
      assert forkStack == stack + [started.value];
      ForkClose(q, inner, f, base, tq, ti, stack, k);
      BranchValueText(fk, ti);
      var branch := BranchValue(started, ti);
      r := PipeBranch(tq, branch, Fmt(FNode(f)));
    }

    /**
     * The actions for the whole input `( route )`: the outer start_branch has
     * no previous pipe, so its value is None and no fork is pushed; its
     * end_branch writes only the last FILTER `>>> None`.
     */
    method ReduceRoute(p: Pipe) returns (text: string)
      requires WellNamed(p)
      requires connections == [] && branchCounter == 0
      modifies this`connections, this`forkStack, this`branchCounter
      ensures text == PipeText(p, 0)
      ensures connections == Texts(RouteEdgesOf(p))
    {
      var top := StartBranchAction(None);
      var t := ReducePipe(p);
      text := t.value;
      assert connections == Texts(Edges(p, 0));
      OuterEnd(p, text);
      var ended := EndBranch(top.value, text);
    }

    /**
     * parse_route after the actions: cut the outer branch's value down to the
     * route, sort the connections, remake them without labels and list the
     * distinct from-side names in order of first appearance.
     */
    method FinishRoute(text: string, links: seq<string>) returns (r: Result<Option<Compiled>>)
      ensures r == Finish(text, links)
    {
      var route3 := BranchValue(None, text);
      var route4 := route3[5..];
      var bad := route4[0] != '(' || route4[|route4| - 1] != ')';
      var sorted := SortStrs(links);
      var conns := RemakeAll(sorted);
      var froms := FromNames(sorted);
      var names: seq<string> := [];
      if froms.Ok? {
        names := DistinctNames(froms.value);
      }
      r := if bad then Err(SyntaxError)
        else if conns.Err? then Err(conns.error)
        else if froms.Err? then Err(froms.error)
        else Ok(Some(Compiled(FilterUtils.StripLabelPrefixes(route4[1..|route4| - 1]), conns.value, names)));
    }

    /** The loop that lists each from-side name once, in order of first appearance. */
    method DistinctNames(ns: seq<string>) returns (names: seq<string>)
      ensures names == Dedup(ns)
    {
      names := [];
      for i := 0 to |ns|
        invariant names == Dedup(ns[..i])
      {
        assert ns[..i + 1][..i] == ns[..i];
        if ns[i] !in names {
          names := names + [ns[i]];
        }
      }
      assert ns[..|ns|] == ns;
    }

    /**
     * parse_route: reset the fields, strip the input, lex and parse it as
     * `( route )`, run the actions and finish.
     */
    method ParseRoute(routeIn: string) returns (r: Result<Option<Compiled>>)
      modifies this
      ensures r == CompileRoute(routeIn)
    {
      connections := [];
      forkStack := [];
      tokenCounter := 0;
      branchCounter := 0;
      var route2 := Strip(routeIn);
      if route2 == [] {
        return Ok(None);
      }
      var lexed := Tokenize("(" + route2 + "\n)");
      if lexed.Err? {
        return Err(lexed.error);
      }
      var parsed := ParseBranch(lexed.value);
      if parsed.Err? {
        return Err(parsed.error);
      }
      var p := parsed.value;
      RouteNamed("(" + route2 + "\n)", p);
      var text := ReduceRoute(p);
      connections := SortStrs(connections);
      r := FinishRoute(text, Texts(RouteEdgesOf(p)));
    }
  }
}
