/**
 * The pipeline: a stage that owns other stages. It reads its configuration
 * (the `[--main--]` section, one section per declared filter and the
 * `[--route--]` text), compiles the route into connections and filter
 * names, asks the factory for one stage per filter, wires the stages
 * together along the connections, and pumps data in at the first stage and
 * out through a temporary sink after the last.
 *
 * Stages are held in `stages`, keyed by name (the pipeline's
 * `_filter_dict`); a stage's `next_filter` and `branch_filter` point at
 * another stage by key, or at a filter outside the pipeline.
 */
module Pipelines {
  import opened Errors
  import opened Strings
  import opened Values
  import FilterUtils
  import RouteCompiler
  import opened PipelineConfig
  import FilterFactories
  import StateStages

  // =====================================================================
  // Stages and the connections between them

  /** Where a stage sends its packets: a stage of this pipeline, by key, or a filter outside it. */
  datatype Target = Stage(key: string) | Outside(name: string)

  /** A stage the factory made, with its two outgoing connections. */
  datatype StageRef = StageRef(made: FilterFactories.Made, next: Option<Target>, branch: Option<Target>)

  const MainJoin := ">>>"
  const BranchJoin := "^^^"

  /** A join (`>>>` or `^^^`) starts at position i of s. */
  predicate OpAt(s: string, i: nat)
  {
    i + 3 <= |s| &&
    ((s[i] == '>' && s[i + 1] == '>' && s[i + 2] == '>') || (s[i] == '^' && s[i + 1] == '^' && s[i + 2] == '^'))
  }

  /** The first position at or after i where a join starts. */
  function FirstOp(s: string, i: nat): (r: Option<nat>)
    requires i <= |s|
    ensures r.Some? ==> i <= r.value && OpAt(s, r.value)
    ensures r.Some? ==> forall j :: i <= j < r.value ==> !OpAt(s, j)
    ensures r.None? ==> forall j :: i <= j ==> !OpAt(s, j)
    decreases |s| - i
  {
    if i + 3 > |s| then None
    else if OpAt(s, i) then Some(i)
    else FirstOp(s, i + 1)
  }

  /** Without trailing ' ' characters (the regular expression's ` *` before a join). */
  function TrimRightSpaces(s: string): (r: string)
    ensures r <= s
    ensures r == [] || r[|r| - 1] != ' '
    ensures forall k :: |r| <= k < |s| ==> s[k] == ' '
    decreases |s|
  {
    if s != [] && s[|s| - 1] == ' ' then TrimRightSpaces(s[..|s| - 1]) else s
  }

  /** Without leading ' ' characters (the regular expression's ` *` after a join). */
  function TrimLeftSpaces(s: string): (r: string)
    ensures |r| <= |s| && r == s[|s| - |r|..]
    ensures r == [] || r[0] != ' '
    ensures forall k :: 0 <= k < |s| - |r| ==> s[k] == ' '
    decreases |s|
  {
    if s != [] && s[0] == ' ' then TrimLeftSpaces(s[1..]) else s
  }

  /** One connection, split at its join. */
  datatype Link = Link(from: string, join: string, to: string)

  /**
   * `from, join, to = re_main_or_branch.split(connection)`: the text before
   * the first join (trailing spaces dropped), the join, and the text after
   * it (leading spaces dropped). Unpacking raises ValueError when there is
   * no join, or a second one.
   */
  function SplitConnection(c: string): (r: Result<Link>)
    ensures r.Err? <==> FirstOp(c, 0).None? || FirstOp(TrimLeftSpaces(c[FirstOp(c, 0).value + 3..]), 0).Some?
    ensures r.Err? ==> r.error == ValueError
    ensures r.Ok? ==> r.value.join == MainJoin || r.value.join == BranchJoin
    ensures r.Ok? ==> forall j :: !OpAt(r.value.from, j) && !OpAt(r.value.to, j)
  {
    match FirstOp(c, 0)
    case None => Err(ValueError)
    case Some(k) =>
      var from := TrimRightSpaces(c[..k]);
      var rest := TrimLeftSpaces(c[k + 3..]);
      if FirstOp(rest, 0).Some? then Err(ValueError)
      else
        NoOpBefore(c, k, from);
        JoinText(c, k);
        Ok(Link(from, c[k..k + 3], rest))
  }

  /** The three characters of a join are one of the two join texts. */
  lemma JoinText(c: string, k: nat)
    requires OpAt(c, k)
    ensures c[k..k + 3] == MainJoin || c[k..k + 3] == BranchJoin
  {
    var t := c[k..k + 3];
    assert t == [c[k], c[k + 1], c[k + 2]];
  }

  /** A prefix of the text before the first join holds no join. */
  lemma NoOpBefore(c: string, k: nat, from: string)
    requires FirstOp(c, 0) == Some(k)
    requires from <= c[..k]
    ensures forall j :: !OpAt(from, j)
  {
    forall j: nat | OpAt(from, j)
      ensures false
    {
      assert OpAt(c, j);
    }
  }

  /** `re_main_or_branch.split(connection)[0]`: the text before the first join. */
  function FirstPiece(c: string): (r: string)
    ensures r <= c
    ensures SplitConnection(c).Ok? ==> r == SplitConnection(c).value.from
  {
    match FirstOp(c, 0)
    case None => c
    case Some(k) => TrimRightSpaces(c[..k])
  }

  /** The first join found from i on is the one at k when none starts in between. */
  lemma {:induction false} FirstOpAt(s: string, i: nat, k: nat)
    requires i <= k && OpAt(s, k)
    requires forall j :: i <= j < k ==> !OpAt(s, j)
    ensures FirstOp(s, i) == Some(k)
    decreases k - i
  {
    if i < k {
      FirstOpAt(s, i + 1, k);
    }
  }

  /**
   * A connection as parse_route writes it (the two names and the join
   * separated by single spaces) splits back into its two names and join.
   */
  lemma SplitConnectionOf(a: string, op: string, b: string)
    requires op == MainJoin || op == BranchJoin
    requires FirstOp(a, 0).None? && FirstOp(b, 0).None?
    requires a == [] || a[|a| - 1] != ' '
    requires b == [] || b[0] != ' '
    ensures SplitConnection(a + " " + op + " " + b) == Ok(Link(a, op, b))
    ensures FirstPiece(a + " " + op + " " + b) == a
  {
    var p, q := a + " ", " " + b;
    var s := a + " " + op + " " + b;
    assert s == p + op + q;
    Pieces(p, op, q);
    NoJoinBefore(a, op, b, s);
    assert OpAt(s, |p|) by {
      assert s[|p|] == op[0] && s[|p| + 1] == op[1] && s[|p| + 2] == op[2];
    }
    FirstOpAt(s, 0, |p|);
    TrimOneRight(a);
    TrimOneLeft(b);
  }

  /** The three pieces of a concatenation. */
  lemma Pieces(p: string, op: string, q: string)
    requires |op| == 3
    ensures (p + op + q)[..|p|] == p
    ensures (p + op + q)[|p|..|p| + 3] == op
    ensures (p + op + q)[|p| + 3..] == q
  {
  }

  lemma NoJoinBefore(a: string, op: string, b: string, s: string)
    requires s == a + " " + op + " " + b
    requires FirstOp(a, 0).None?
    ensures forall j: nat :: j < |a| + 1 ==> !OpAt(s, j)
  {
    forall j: nat | j < |a| + 1
      ensures !OpAt(s, j)
    {
      if j + 3 <= |a| {
        assert s[j] == a[j] && s[j + 1] == a[j + 1] && s[j + 2] == a[j + 2];
        assert !OpAt(a, j);
      } else {
        assert s[|a|] == ' ';
        assert j == |a| || j + 1 == |a| || j + 2 == |a|;
      }
    }
  }

  lemma TrimOneRight(a: string)
    requires a == [] || a[|a| - 1] != ' '
    ensures TrimRightSpaces(a + " ") == a
  {
    assert (a + " ")[..|a|] == a;
  }

  lemma TrimOneLeft(b: string)
    requires b == [] || b[0] != ' '
    ensures TrimLeftSpaces(" " + b) == b
  {
    assert (" " + b)[1..] == b;
  }

  // =====================================================================
  // get_filter

  /** The stage key of a filter name: the name without any `:values` suffix. */
  function KeyOf(name: string): (k: string)
    ensures ':' !in k
  {
    SplitPiecesFree(name, ':');
    Split(name, ':')[0]
  }

  /** The key of a route filter name is the short name _parse_route files its values under. */
  lemma KeyIsShortName(name: string)
    ensures KeyOf(name) == FilterUtils.GetValuesFromName(name).0
  {
  }

  /**
   * get_filter (corrected): an empty name raises FilterNameError; otherwise
   * the stage stored under the name's key, KeyError when there is none.
   */
  function Lookup(stages: map<string, StageRef>, name: string): (r: Result<StageRef>)
    ensures name == "" <==> r == Err(FilterNameError)
    ensures r.Ok? <==> name != "" && KeyOf(name) in stages
    ensures r.Ok? ==> r.value == stages[KeyOf(name)]
    ensures r.Err? && name != "" ==> r.error == KeyError
  {
    if name == "" then Err(FilterNameError)
    else if KeyOf(name) in stages then Ok(stages[KeyOf(name)])
    else Err(KeyError)
  }

  /**
   * get_filter as written: the empty-name branch names `df.FilterNameError`,
   * which the data_filter module does not define, so the attribute lookup
   * itself raises AttributeError.
   */
  function LookupAsWritten(stages: map<string, StageRef>, name: string): (r: Result<StageRef>)
    ensures name != "" ==> r == Lookup(stages, name)
  {
    if name == "" then Err(AttributeError) else Lookup(stages, name)
  }

  /** The empty name: the intended FilterNameError, but AttributeError as written. */
  lemma EmptyNameLookup(stages: map<string, StageRef>)
    ensures LookupAsWritten(stages, "") == Err(AttributeError)
    ensures Lookup(stages, "") == Err(FilterNameError)
  {
  }

  /** A filter named with values (`batch:66`) is found under its bare name (`batch`). */
  lemma LookupIgnoresValues(stages: map<string, StageRef>, name: string, values: string)
    requires name != "" && ':' !in name
    ensures Lookup(stages, name + ":" + values) == Lookup(stages, name)
  {
    var full := name + ":" + values;
    assert full[|name|] == ':';
    var k := KeyOf(full);
    KeyIsShortName(full);
    assert StartsWith(full, k + ":");
    assert full[..|k|] == (k + ":")[..|k|] == k;
    assert full[..|name|] == name;
    assert |k| == |name|;
    assert k == name;
    KeyIsShortName(name);
  }

  // =====================================================================
  // _connect_filter_pair, _connect_filters

  /** A from-side name that may feed a branch: `hidden_branch...`. */
  predicate HiddenBranch(name: string)
  {
    StartsWith(name, "hidden_branch")
  }

  /**
   * _connect_filter_pair: a `None` to-side leaves everything as it is;
   * otherwise both ends are looked up (to-side first) and the from-side
   * stage's branch is set for `^^^` out of a `hidden_branch` stage, its
   * next stage for every other edge. The lookups are the corrected Lookup,
   * so an empty name is a FilterNameError where the code as written raises
   * AttributeError (see LookupAsWritten).
   */
  function ConnectPair(stages: map<string, StageRef>, from: string, join: string, to: string):
    (r: Result<map<string, StageRef>>)
    ensures to == "None" ==> r == Ok(stages)
    ensures to != "None" ==> (r.Ok? <==> from != "" && to != "" && KeyOf(from) in stages && KeyOf(to) in stages)
    ensures to != "None" && r.Err? ==>
              r.error == (if to == "" || (KeyOf(to) in stages && from == "") then FilterNameError else KeyError)
    ensures r.Ok? ==> r.value.Keys == stages.Keys
    ensures r.Ok? ==> forall k :: k in stages && (to == "None" || k != KeyOf(from)) ==> r.value[k] == stages[k]
    ensures r.Ok? && to != "None" && HiddenBranch(from) && join == BranchJoin ==>
      r.value[KeyOf(from)] == stages[KeyOf(from)].(branch := Some(Stage(KeyOf(to))))
    ensures r.Ok? && to != "None" && !(HiddenBranch(from) && join == BranchJoin) ==>
      r.value[KeyOf(from)] == stages[KeyOf(from)].(next := Some(Stage(KeyOf(to))))
  {
    if to == "None" then Ok(stages)
    else
      match Lookup(stages, to)
      case Err(e) => Err(e)
      case Ok(_) =>
        match Lookup(stages, from)
        case Err(e) => Err(e)
        case Ok(f) =>
          var t := Stage(KeyOf(to));
          if HiddenBranch(from) && join == BranchJoin then Ok(stages[KeyOf(from) := f.(branch := Some(t))])
          else Ok(stages[KeyOf(from) := f.(next := Some(t))])
  }

  /**
   * The loop of _connect_filters over the connections: the stages reached
   * and, if a connection raised, its error (the connections before it stay
   * made).
   */
  function ConnectAll(stages: map<string, StageRef>, conns: seq<string>): (r: (map<string, StageRef>, Option<PyError>))
    ensures r.0.Keys == stages.Keys
    decreases |conns|
  {
    if conns == [] then (stages, None)
    else
      var (s1, e1) := ConnectAll(stages, conns[..|conns| - 1]);
      if e1.Some? then (s1, e1)
      else
        match SplitConnection(conns[|conns| - 1])
        case Err(e) => (s1, Some(e))
        case Ok(l) =>
          match ConnectPair(s1, l.from, l.join, l.to)
          case Err(e) => (s1, Some(e))
          case Ok(s2) => (s2, None)
  }

  /** The stages and the pipeline's two ends. */
  datatype Wiring = Wiring(stages: map<string, StageRef>, first: Option<string>, last: Option<string>)

  /**
   * _connect_filters: IndexError without connections; the first stage is
   * the one named before the first join of the first connection; after
   * every connection is made, the final one must end in `None`
   * (AssertionError otherwise) and its from-side is the last stage.
   */
  function Wire(w: Wiring, conns: seq<string>): (r: (Wiring, Option<PyError>))
    ensures conns == [] ==> r == (w, Some(IndexError))
    ensures r.0.stages.Keys == w.stages.Keys
    ensures r.1.None? ==> conns != [] && SplitConnection(conns[|conns| - 1]).Ok?
    ensures r.1.None? ==> r.0.first == Some(KeyOf(FirstPiece(conns[0]))) && r.0.first.value in r.0.stages
    ensures r.1.None? ==> SplitConnection(conns[|conns| - 1]).value.to == "None"
    ensures r.1.None? ==> r.0.last == Some(KeyOf(SplitConnection(conns[|conns| - 1]).value.from))
    ensures r.1.None? ==> r.0.last.value in r.0.stages
  {
    if conns == [] then (w, Some(IndexError))
    else
      var firstName := FirstPiece(conns[0]);
      match Lookup(w.stages, firstName)
      case Err(e) => (w, Some(e))
      case Ok(_) =>
        var (s2, e2) := ConnectAll(w.stages, conns);
        var w2 := Wiring(s2, Some(KeyOf(firstName)), w.last);
        if e2.Some? then (w2, e2)
        else
          match SplitConnection(conns[|conns| - 1])
          case Err(e) => (w2, Some(e))
          case Ok(l) =>
            if l.to != "None" then (w2, Some(AssertionError))
            else
              match Lookup(s2, l.from)
              case Err(e) => (w2, Some(e))
              case Ok(_) => (w2.(last := Some(KeyOf(l.from))), None)
  }

  /** "None" holds no join. */
  lemma NoneNoJoin()
    ensures FirstOp("None", 0).None?
  {
    assert !OpAt("None", 0) && !OpAt("None", 1);
    assert FirstOp("None", 2).None?;
  }

  /**
   * The smallest route, `a >>> b`: its connections `a >>> b` and
   * `b >>> None` make a the first stage, b the last, and a's next stage b,
   * changing nothing else.
   */
  lemma WireTwo(w: Wiring, a: string, b: string)
    requires a != "" && b != "" && b != "None"
    requires FirstOp(a, 0).None? && FirstOp(b, 0).None?
    requires a[|a| - 1] != ' ' && b[0] != ' ' && b[|b| - 1] != ' '
    requires KeyOf(a) in w.stages && KeyOf(b) in w.stages
    ensures var r := Wire(w, [a + " " + MainJoin + " " + b, b + " " + MainJoin + " " + "None"]);
      r.1.None? && r.0.first == Some(KeyOf(a)) && r.0.last == Some(KeyOf(b)) &&
      r.0.stages == w.stages[KeyOf(a) := w.stages[KeyOf(a)].(next := Some(Stage(KeyOf(b))))]
  {
    var c1, c2 := a + " " + MainJoin + " " + b, b + " " + MainJoin + " " + "None";
    SplitConnectionOf(a, MainJoin, b);
    NoneNoJoin();
    SplitConnectionOf(b, MainJoin, "None");
    WireLinks(w, c1, c2, a, b);
  }

  /** WireTwo for any two connections that split as `a >>> b` and `b >>> None`. */
  lemma WireLinks(w: Wiring, c1: string, c2: string, a: string, b: string)
    requires a != "" && b != "" && b != "None"
    requires SplitConnection(c1) == Ok(Link(a, MainJoin, b)) && FirstPiece(c1) == a
    requires SplitConnection(c2) == Ok(Link(b, MainJoin, "None"))
    requires KeyOf(a) in w.stages && KeyOf(b) in w.stages
    ensures var r := Wire(w, [c1, c2]);
      r.1.None? && r.0.first == Some(KeyOf(a)) && r.0.last == Some(KeyOf(b)) &&
      r.0.stages == w.stages[KeyOf(a) := w.stages[KeyOf(a)].(next := Some(Stage(KeyOf(b))))]
  {
    var s1 := w.stages[KeyOf(a) := w.stages[KeyOf(a)].(next := Some(Stage(KeyOf(b))))];
    ConnectLinks(w.stages, c1, c2, a, b);
    assert Lookup(s1, b).Ok?;
  }

  /** The two connections of WireLinks, made in order. */
  lemma ConnectLinks(stages: map<string, StageRef>, c1: string, c2: string, a: string, b: string)
    requires a != "" && b != "" && b != "None"
    requires SplitConnection(c1) == Ok(Link(a, MainJoin, b))
    requires SplitConnection(c2) == Ok(Link(b, MainJoin, "None"))
    requires KeyOf(a) in stages && KeyOf(b) in stages
    ensures ConnectAll(stages, [c1, c2]) == (stages[KeyOf(a) := stages[KeyOf(a)].(next := Some(Stage(KeyOf(b))))], None)
  {
    var s1 := stages[KeyOf(a) := stages[KeyOf(a)].(next := Some(Stage(KeyOf(b))))];
    assert ConnectPair(stages, a, MainJoin, b) == Ok(s1);
    ConnectOne(stages, c1, s1);
    assert ConnectPair(s1, b, MainJoin, "None") == Ok(s1);
    ConnectSecond(stages, c1, c2, s1, s1);
  }

  /** A single connection that splits and is made. */
  lemma ConnectOne(stages: map<string, StageRef>, c: string, s1: map<string, StageRef>)
    requires SplitConnection(c).Ok?
    requires var l := SplitConnection(c).value; ConnectPair(stages, l.from, l.join, l.to) == Ok(s1)
    ensures ConnectAll(stages, [c]) == (s1, None)
  {
    assert [] + [c] == [c];
    ConnectAllSnoc(stages, [], c);
  }

  /** A second connection that splits and is made after a first one. */
  lemma ConnectSecond(stages: map<string, StageRef>, c1: string, c2: string, s1: map<string, StageRef>,
                      s2: map<string, StageRef>)
    requires ConnectAll(stages, [c1]) == (s1, None) && SplitConnection(c2).Ok?
    requires var l := SplitConnection(c2).value; ConnectPair(s1, l.from, l.join, l.to) == Ok(s2)
    ensures ConnectAll(stages, [c1, c2]) == (s2, None)
  {
    assert [c1] + [c2] == [c1, c2];
    ConnectAllSnoc(stages, [c1], c2);
  }

  /** Making one more connection after a list of them. */
  lemma ConnectAllSnoc(stages: map<string, StageRef>, conns: seq<string>, c: string)
    ensures ConnectAll(stages, conns + [c]) ==
      if ConnectAll(stages, conns).1.Some? then ConnectAll(stages, conns)
      else match SplitConnection(c)
        case Err(e) => (ConnectAll(stages, conns).0, Some(e))
        case Ok(l) =>
          match ConnectPair(ConnectAll(stages, conns).0, l.from, l.join, l.to)
          case Err(e) => (ConnectAll(stages, conns).0, Some(e))
          case Ok(s2) => (s2, None)
  {
    assert (conns + [c])[..|conns|] == conns;
  }

  /** ConnectAllSnoc for the prefixes of one list of connections. */
  lemma ConnectAllPrefix(stages: map<string, StageRef>, conns: seq<string>, i: nat)
    requires i < |conns|
    ensures ConnectAll(stages, conns[..i + 1]) ==
      if ConnectAll(stages, conns[..i]).1.Some? then ConnectAll(stages, conns[..i])
      else match SplitConnection(conns[i])
        case Err(e) => (ConnectAll(stages, conns[..i]).0, Some(e))
        case Ok(l) =>
          match ConnectPair(ConnectAll(stages, conns[..i]).0, l.from, l.join, l.to)
          case Err(e) => (ConnectAll(stages, conns[..i]).0, Some(e))
          case Ok(s2) => (s2, None)
  {
    assert conns[..i + 1] == conns[..i] + [conns[i]];
    ConnectAllSnoc(stages, conns[..i], conns[i]);
  }

  /** When every connection was made, the final one split. */
  lemma ConnectAllLast(stages: map<string, StageRef>, conns: seq<string>)
    requires conns != [] && ConnectAll(stages, conns).1.None?
    ensures SplitConnection(conns[|conns| - 1]).Ok?
  {
    ConnectAllPrefix(stages, conns, |conns| - 1);
    assert conns[..|conns|] == conns;
  }

  // =====================================================================
  // _make_filters

  /** A successful validation changes nothing about what create_filter returns. */
  lemma ValidationSettled(v: bool, classes: map<string, FilterFactories.ClassRef>, pypes: map<string, string>,
                          pd: map<string, Value>)
    ensures Creator(v || !FilterFactories.Ambiguous(classes.Keys), classes, pypes)(pd) == Creator(v, classes, pypes)(pd)
  {
  }

  /** create_filter of a factory in a given state, for a parameter dictionary. */
  function Creator(validated: bool, classes: map<string, FilterFactories.ClassRef>, pypes: map<string, string>):
    map<string, Value> -> Result<FilterFactories.Made>
  {
    pd => FilterFactories.CreateSpec(validated, classes, pypes, FilterFactories.ByParams(pd))
  }

  /**
   * The loop of _make_filters, with `create` the factory's create_filter:
   * for each name of the filter order, a stage is made from the name's
   * dictionary (KeyError when there is none), stored under its own name and
   * appended to the filter list. The stages and list reached and, if a step
   * raised, its error.
   */
  function MakeAll(create: map<string, Value> -> Result<FilterFactories.Made>,
                   dicts: map<string, map<string, Value>>, names: seq<string>,
                   stages: map<string, StageRef>, made: seq<FilterFactories.Made>):
    (r: (map<string, StageRef>, seq<FilterFactories.Made>, Option<PyError>))
    ensures stages.Keys <= r.0.Keys
    decreases |names|
  {
    if names == [] then (stages, made, None)
    else
      var (s1, m1, e1) := MakeAll(create, dicts, names[..|names| - 1], stages, made);
      if e1.Some? then (s1, m1, e1)
      else
        var name := names[|names| - 1];
        if name !in dicts then (s1, m1, Some(KeyError))
        else
          match create(dicts[name])
          case Err(e) => (s1, m1, Some(e))
          case Ok(m) => (s1[m.name := StageRef(m, None, None)], m1 + [m], None)
  }

  /** Making the stage for one more name after a list of them. */
  lemma MakeAllSnoc(create: map<string, Value> -> Result<FilterFactories.Made>,
                    dicts: map<string, map<string, Value>>, names: seq<string>, name: string,
                    stages: map<string, StageRef>, made: seq<FilterFactories.Made>)
    ensures var r := MakeAll(create, dicts, names, stages, made);
      MakeAll(create, dicts, names + [name], stages, made) ==
        if r.2.Some? then r
        else if name !in dicts then (r.0, r.1, Some(KeyError))
        else match create(dicts[name])
          case Err(e) => (r.0, r.1, Some(e))
          case Ok(m) => (r.0[m.name := StageRef(m, None, None)], r.1 + [m], None)
  {
    assert (names + [name])[..|names|] == names;
  }

  /** MakeAllSnoc for the prefixes of one list of names. */
  lemma MakeAllPrefix(create: map<string, Value> -> Result<FilterFactories.Made>,
                      dicts: map<string, map<string, Value>>, names: seq<string>, i: nat,
                      stages: map<string, StageRef>, made: seq<FilterFactories.Made>)
    requires i < |names|
    ensures var r := MakeAll(create, dicts, names[..i], stages, made);
      MakeAll(create, dicts, names[..i + 1], stages, made) ==
        if r.2.Some? then r
        else if names[i] !in dicts then (r.0, r.1, Some(KeyError))
        else match create(dicts[names[i]])
          case Err(e) => (r.0, r.1, Some(e))
          case Ok(m) => (r.0[m.name := StageRef(m, None, None)], r.1 + [m], None)
  {
    assert names[..i + 1] == names[..i] + [names[i]];
    MakeAllSnoc(create, dicts, names[..i], names[i], stages, made);
  }

  /**
   * Without a raise, every name of the order had a dictionary, a stage was
   * made from it, the stages were appended to the filter list in order, and
   * each is stored under its name.
   */
  lemma {:induction false} MakeAllMade(create: map<string, Value> -> Result<FilterFactories.Made>,
                                       dicts: map<string, map<string, Value>>, names: seq<string>,
                                       stages: map<string, StageRef>, made: seq<FilterFactories.Made>)
    requires MakeAll(create, dicts, names, stages, made).2.None?
    ensures var r := MakeAll(create, dicts, names, stages, made);
      |r.1| == |made| + |names| && r.1[..|made|] == made
    ensures var r := MakeAll(create, dicts, names, stages, made);
      forall i :: 0 <= i < |names| ==>
        names[i] in dicts && create(dicts[names[i]]) == Ok(r.1[|made| + i]) && r.1[|made| + i].name in r.0
    decreases |names|
  {
    if names != [] {
      var front := names[..|names| - 1];
      var name := names[|names| - 1];
      assert names == front + [name];
      MakeAllSnoc(create, dicts, front, name, stages, made);
      MakeAllMade(create, dicts, front, stages, made);
      var r1 := MakeAll(create, dicts, front, stages, made);
      var m := create(dicts[name]).value;
      var r := MakeAll(create, dicts, names, stages, made);
      assert r == (r1.0[m.name := StageRef(m, None, None)], r1.1 + [m], None);
      assert r.1[..|made|] == r1.1[..|made|];
      forall i | 0 <= i < |names|
        ensures names[i] in dicts && create(dicts[names[i]]) == Ok(r.1[|made| + i]) && r.1[|made| + i].name in r.0
      {
        if i < |front| {
          assert names[i] == front[i];
          assert r.1[|made| + i] == r1.1[|made| + i];
          assert r1.1[|made| + i].name in r1.0;
        } else {
          assert names[i] == name && r.1[|made| + i] == m;
        }
      }
    }
  }

  /**
   * A filter's dictionary keeps `_name` equal to the filter's name (it is
   * created that way and a truthy value is never replaced), so the stage
   * made from it is stored under that name.
   */
  lemma MadeUnderOwnName(validated: bool, classes: map<string, FilterFactories.ClassRef>, pypes: map<string, string>,
                         pd: map<string, Value>, name: string)
    requires name != "" && "_name" in pd && pd["_name"] == VStr(name)
    requires Creator(validated, classes, pypes)(pd).Ok?
    ensures Creator(validated, classes, pypes)(pd).value.name == name
  {
    var rp := FilterFactories.ResolveParams(classes, pypes, pd);
    assert rp.Ok?;
    AssembledName(rp.value.1, rp.value.0, name);
  }

  lemma AssembledName(base: map<string, FilterFactories.Attr>, pd: map<string, Value>, name: string)
    requires name != "" && "ftype" in pd && "_name" in pd && pd["_name"] == VStr(name)
    requires FilterFactories.Assemble(base, pd).Ok?
    ensures FilterFactories.Assemble(base, pd).value.name == name
  {
    var attrs := FilterFactories.FilterAttrs(base, pd);
    assert attrs["_name"] == FilterFactories.AValue(VStr(name));
  }

  // =====================================================================
  // _parse_route

  /** The route parser's parse_route: a route to its compiled form, None for a blank route. */
  type RouteParser = string -> Result<Option<RouteCompiler.Compiled>>

  /** What _parse_route leaves: the connections, the filter order and the filter dictionaries. */
  datatype RouteParts = RouteParts(connections: seq<string>, filterNames: seq<string>, order: seq<string>,
                                   dicts: map<string, map<string, Value>>)

  /** What a pipeline keeps of a compiled route: its connections, the filter order and the dictionaries. */
  function RouteKept(rp: Result<RouteParts>): Result<(seq<string>, seq<string>, map<string, map<string, Value>>)>
  {
    match rp
    case Err(e) => Err(e)
    case Ok(x) => Ok((x.connections, x.order, x.dicts))
  }

  /**
   * _parse_route given what the route parser returned: the compiled
   * route's connections; each filter name of the route joins the filter
   * order once and has its `:` values stored as `_key_values`. A blank route
   * compiles to None, which cannot be unpacked: TypeError.
   */
  function RouteFrom(compiled: Result<Option<RouteCompiler.Compiled>>, order: seq<string>,
                     dicts: map<string, map<string, Value>>): (r: Result<RouteParts>)
    ensures compiled.Err? ==> r == Err(compiled.error)
    ensures compiled == Ok(None) ==> r == Err(TypeError)
    ensures r.Ok? ==> compiled.Ok? && compiled.value.Some?
    ensures r.Ok? ==> r.value.connections == compiled.value.value.connections
    ensures r.Ok? ==> r.value.filterNames == compiled.value.value.filterNames
    ensures r.Ok? ==> RouteNamesFold(order, dicts, r.value.filterNames) == Ok((r.value.order, r.value.dicts))
    ensures compiled.Ok? && compiled.value.Some? ==>
              (r.Ok? <==> RouteNamesFold(order, dicts, compiled.value.value.filterNames).Ok?)
  {
    match compiled
    case Err(e) => Err(e)
    case Ok(None) => Err(TypeError)
    case Ok(Some(c)) =>
      match RouteNamesFold(order, dicts, c.filterNames)
      case Err(e) => Err(e)
      case Ok((o, d)) => Ok(RouteParts(c.connections, c.filterNames, o, d))
  }

  /** _parse_route with the route compiled as lex_yacc4's parser does. */
  function RouteSpec(route: string, order: seq<string>, dicts: map<string, map<string, Value>>): (r: Result<RouteParts>)
    ensures r.Ok? ==> RouteCompiler.CompileRoute(route).Ok? && RouteCompiler.CompileRoute(route).value.Some?
    ensures r.Ok? ==> r.value.connections == RouteCompiler.CompileRoute(route).value.value.connections
    ensures r.Ok? ==> r.value.filterNames == RouteCompiler.CompileRoute(route).value.value.filterNames
    ensures r.Ok? ==> RouteNamesFold(order, dicts, r.value.filterNames) == Ok((r.value.order, r.value.dicts))
    ensures RouteCompiler.CompileRoute(route) == Ok(None) ==> r == Err(TypeError)
  {
    RouteFrom(RouteCompiler.CompileRoute(route), order, dicts)
  }

  /** A fold over the route names that failed on a prefix fails the same way on the whole. */
  lemma {:induction false} RouteNamesFoldStops(order: seq<string>, dicts: map<string, map<string, Value>>,
                                                names: seq<string>, i: nat)
    requires i <= |names| && RouteNamesFold(order, dicts, names[..i]).Err?
    ensures RouteNamesFold(order, dicts, names) == RouteNamesFold(order, dicts, names[..i])
    decreases |names| - i
  {
    if i < |names| {
      assert names[..i + 1][..i] == names[..i];
      RouteNamesFoldStops(order, dicts, names, i + 1);
    } else {
      assert names[..i] == names;
    }
  }

  // =====================================================================
  // pump_data

  /** The text an int has under `str()` and `repr()`. */
  function IntText(i: int): (s: string)
    ensures |s| > 0
  {
    if i >= 0 then Decimal(i) else "-" + Decimal(-i)
  }

  /**
   * Python 2 `repr()`, as `str()` of a list writes its items: a string in
   * single quotes, or in double quotes when it holds a single quote and no
   * double one; a packet as the default object repr.
   */
  function Repr(v: Value): (s: string)
    ensures v.VList? || v.VPackets? ==> |s| >= 2 && s[0] == '[' && s[|s| - 1] == ']'
    ensures v.VStr? ==> |s| == |v.s| + 2 && s[1..|s| - 1] == v.s
    decreases v
  {
    match v
    case VNone => "None"
    case VBool(b) => if b then "True" else "False"
    case VInt(i) => IntText(i)
    case VFloat(t) => t
    case VStr(t) =>
      var q := if '\'' in t && '"' !in t then '"' else '\'';
      [q] + t + [q]
    case VList(items) => "[" + Join(seq(|items|, k requires 0 <= k < |items| => Repr(items[k])), ", ") + "]"
    case VPackets(ps) => "[" + Join(seq(|ps|, k requires 0 <= k < |ps| => PacketRepr), ", ") + "]"
  }

  /** `DataPacket` defines no `__repr__`; the object's address is not modelled. */
  const PacketRepr := "<filterpype.data_fltr_base.DataPacket object>"

  /** Python `str()`: a string is itself, every other value its `repr()`. */
  function Str(v: Value): (s: string)
    ensures v.VStr? ==> s == v.s
    ensures !v.VStr? ==> s == Repr(v)
  {
    if v.VStr? then v.s else Repr(v)
  }

  /** The data of the packet pump_data makes from one input: None stays None, anything else becomes its `str()`. */
  function PacketData(v: Value): (d: Value)
    ensures d.VNone? <==> v.VNone?
    ensures !v.VNone? ==> d == VStr(Str(v))
  {
    if v.VNone? then VNone else VStr(Str(v))
  }

  /** `data_in + []` succeeds only for a list; anything else is wrapped in one. */
  function Inputs(dataIn: Value): (xs: seq<Value>)
    ensures dataIn.VList? ==> xs == dataIn.items
    ensures !dataIn.VList? ==> xs == [dataIn]
  {
    if dataIn.VList? then dataIn.items else [dataIn]
  }

  /** The data of the packets pump_data sends, in order. */
  function SentData(xs: seq<Value>): (r: seq<Value>)
    ensures |r| == |xs|
    ensures forall i :: 0 <= i < |xs| ==> r[i] == PacketData(xs[i])
    decreases |xs|
  {
    if xs == [] then [] else SentData(xs[..|xs| - 1]) + [PacketData(xs[|xs| - 1])]
  }

  /** What pump_data returns for the data the sink received: the one datum alone, any other number as a list. */
  function Returned(results: seq<Value>): (r: Value)
    ensures |results| == 1 ==> r == results[0]
    ensures |results| != 1 ==> r == VList(results)
  {
    if |results| == 1 then results[0] else VList(results)
  }

  /** The `max_results` a Sink has by default, and so the temporary sink of pump_data: it keeps the last 30. */
  const PumpSinkMax := 30

  /** What the temporary sink of pump_data holds after receiving `data`, in order. */
  function PumpKept(data: seq<Value>): (r: seq<Value>)
    ensures |data| <= PumpSinkMax ==> r == data
    ensures |data| > PumpSinkMax ==> |r| == PumpSinkMax && r == data[|data| - PumpSinkMax..]
  {
    StateStages.KeptIsNewest(data, PumpSinkMax);
    StateStages.Kept(data, PumpSinkMax)
  }

  /**
   * Through a pipeline that passes data on unchanged, one string comes back
   * as itself, and one value of any other kind as its `str()`.
   */
  lemma PumpOneThrough(v: Value)
    requires !v.VList?
    ensures Returned(PumpKept(SentData(Inputs(v)))) == PacketData(v)
    ensures v.VStr? ==> Returned(PumpKept(SentData(Inputs(v)))) == v
  {
  }

  /**
   * Through a pipeline that passes data on unchanged, a list of n != 1
   * values comes back as the list of their data, or of the last 30 of them
   * when there are more.
   */
  lemma PumpListThrough(xs: seq<Value>)
    requires |xs| != 1
    ensures |xs| <= PumpSinkMax ==> Returned(PumpKept(SentData(Inputs(VList(xs))))) == VList(SentData(xs))
    ensures |xs| > PumpSinkMax ==>
              Returned(PumpKept(SentData(Inputs(VList(xs))))) == VList(SentData(xs[|xs| - PumpSinkMax..]))
  {
    var d := SentData(xs);
    if |xs| > PumpSinkMax {
      var tail := xs[|xs| - PumpSinkMax..];
      assert SentData(tail) == d[|xs| - PumpSinkMax..];
    }
  }

  // =====================================================================
  // Pipeline construction: _read_config, _parse_config, _parse_route

  /** The configuration's lines; a single line names the file that holds them. */
  function ConfigLines(lines: seq<string>, readFile: string -> seq<string>): (r: seq<string>)
    ensures |lines| != 1 ==> r == lines
  {
    if |lines| == 1 then readFile(lines[0]) else lines
  }

  /** What _parse_config starts from in a new pipeline. */
  const FreshConfig := ConfigState(false, None, [], [], None, VBool(false), [], map[])

  /** Everything the constructor reads off the configuration. */
  datatype Built = Built(parts: ConfigParts, config: ConfigState, doc: string, route: RouteParts)

  /**
   * The constructor's three steps in order, each raising as it does:
   * split the configuration at `[--route--]`, parse the sections (as
   * `configObj` reads the lines before the route), compile the route.
   */
  function Build(lines: seq<string>, readFile: string -> seq<string>, configObj: seq<string> -> seq<Section>,
                 parse: RouteParser, classDoc: Option<string>): (r: Result<Built>)
    ensures r.Ok? ==> SplitConfig(ConfigLines(lines, readFile)) == Ok(r.value.parts)
    ensures r.Ok? ==> Strip(r.value.parts.route) != "" && RouteHeading !in r.value.parts.configOnly
    ensures r.Ok? ==> ParseConfigSpec(FreshConfig, configObj(r.value.parts.configOnly), classDoc) ==
                      Ok((r.value.config, r.value.doc))
    ensures r.Ok? ==> r.value.config.mainFound && r.value.config.ftype.Some? && r.value.doc != ""
    ensures r.Ok? ==> RouteFrom(parse(r.value.parts.route), r.value.config.order, r.value.config.dicts) == Ok(r.value.route)
  {
    match SplitConfig(ConfigLines(lines, readFile))
    case Err(e) => Err(e)
    case Ok(parts) => BuildFrom(parts, configObj, parse, classDoc)
  }

  /** The constructor's last two steps, on the configuration once it is split. */
  function BuildFrom(parts: ConfigParts, configObj: seq<string> -> seq<Section>, parse: RouteParser,
                     classDoc: Option<string>): (r: Result<Built>)
    ensures r.Ok? ==> r.value.parts == parts
  {
    match ParseConfigSpec(FreshConfig, configObj(parts.configOnly), classDoc)
    case Err(e) => Err(e)
    case Ok((cs, doc)) =>
      match RouteFrom(parse(parts.route), cs.order, cs.dicts)
      case Err(e) => Err(e)
      case Ok(rp) => Ok(Built(parts, cs, doc, rp))
  }

  /** Sections that do not parse fail the build with the same error. */
  lemma BuildConfigFails(parts: ConfigParts, configObj: seq<string> -> seq<Section>, parse: RouteParser,
                         classDoc: Option<string>, e: PyError)
    requires ParseConfigSpec(FreshConfig, configObj(parts.configOnly), classDoc) == Err(e)
    ensures Kept(BuildFrom(parts, configObj, parse, classDoc)) == Err(e)
  {
  }

  /** Once the sections are parsed, what the build keeps is the route's compilation. */
  lemma BuildRoute(parts: ConfigParts, configObj: seq<string> -> seq<Section>, parse: RouteParser,
                   classDoc: Option<string>, cs: ConfigState, doc: string, rp: Result<RouteParts>)
    requires ParseConfigSpec(FreshConfig, configObj(parts.configOnly), classDoc) == Ok((cs, doc))
    requires RouteFrom(parse(parts.route), cs.order, cs.dicts) == rp
    ensures Kept(BuildFrom(parts, configObj, parse, classDoc)) ==
            match RouteKept(rp)
            case Err(e) => Err(e)
            case Ok((c, o, d)) =>
              Ok(PipelineSettings(parts.configOnly, parts.route, d, o, cs.ftype, doc,
                                  cs.configKeys, cs.liveUpdates, cs.dynamic, c))
  {
  }

  /** First-seen order does not change when the front is put in first-seen order beforehand. */
  lemma {:induction false} DedupAppend(x: seq<string>, y: seq<string>)
    ensures Dedup(Dedup(x) + y) == Dedup(x + y)
    decreases |y|
  {
    if y == [] {
      assert Dedup(x) + y == Dedup(x) && x + y == x;
      DedupDistinct(Dedup(x));
    } else {
      var front, s := y[..|y| - 1], y[|y| - 1];
      DedupAppend(x, front);
      assert Dedup(x) + y == (Dedup(x) + front) + [s];
      assert x + y == (x + front) + [s];
      DedupSnoc(Dedup(x) + front, s);
      DedupSnoc(x + front, s);
    }
  }

  /**
   * A new pipeline's filter order lists the filter sections of the
   * configuration, then the filters of the route, each once, in first-seen
   * order.
   */
  lemma BuildOrder(lines: seq<string>, readFile: string -> seq<string>, configObj: seq<string> -> seq<Section>,
                   parse: RouteParser, classDoc: Option<string>)
    requires Build(lines, readFile, configObj, parse, classDoc).Ok?
    ensures var b := Build(lines, readFile, configObj, parse, classDoc).value;
      b.route.order == Dedup(FilterSections(configObj(b.parts.configOnly)) + ShortNames(b.route.filterNames))
  {
    var b := Build(lines, readFile, configObj, parse, classDoc).value;
    var sections := configObj(b.parts.configOnly);
    var fs := FilterSections(sections);
    assert SectionsFold(FreshConfig.(dicts := map[]), sections) == Ok(b.config);
    SectionsOrder(FreshConfig.(dicts := map[]), sections);
    assert [] + fs == fs;
    assert b.config.order == Dedup(fs);
    DedupDistinct(Dedup(fs));
    RouteNamesOrder(b.config.order, b.config.dicts, b.route.filterNames);
    DedupAppend(fs, ShortNames(b.route.filterNames));
  }

  /**
   * The loop of _update_filter_dict over one filter's dictionary: each
   * entry converted and merged as MergeEntry says, stopping at the first
   * that raises with the entries before it applied.
   */
  method MergeEntries(start: map<string, Value>, entries: seq<(string, Value)>)
    returns (fd: map<string, Value>, e: Option<PyError>)
    ensures (fd, e) == MergeAll(start, entries)
  {
    fd, e := start, None;
    var i := 0;
    while i < |entries|
      invariant 0 <= i <= |entries|
      invariant MergeAll(start, entries[..i]) == (fd, None)
    {
      var key, value := entries[i].0, entries[i].1;
      MergeAllNext(start, entries, i);
      var newValue := FilterUtils.ConvertConfigStr(value);
      if key in fd && Truthy(fd[key]) {
        if PyEq(fd[key], newValue) {
          // nothing to do
        } else if !Truthy(newValue) {
          // a null value never overwrites a set one
        } else {
          MergeAllStops(start, entries, i + 1);
          e := Some(FilterAttributeError);
          return;
        }
      } else {
        fd := fd[key := newValue];
      }
      i := i + 1;
    }
    assert entries[..i] == entries;
  }

  /** One more entry merged after a prefix that raised nothing. */
  lemma MergeAllNext(d: map<string, Value>, entries: seq<(string, Value)>, i: nat)
    requires i < |entries| && MergeAll(d, entries[..i]).1.None?
    ensures MergeAll(d, entries[..i + 1]) ==
      match MergeEntry(MergeAll(d, entries[..i]).0, entries[i].0, entries[i].1)
      case Err(e) => (MergeAll(d, entries[..i]).0, Some(e))
      case Ok(d2) => (d2, None)
  {
    MergeAllSnoc(d, entries[..i], entries[i].0, entries[i].1);
    assert entries[..i + 1] == entries[..i] + [(entries[i].0, entries[i].1)];
  }

  /** Merging that raised on a prefix of the entries stops there. */
  lemma {:induction false} MergeAllStops(d: map<string, Value>, entries: seq<(string, Value)>, i: nat)
    requires i <= |entries| && MergeAll(d, entries[..i]).1.Some?
    ensures MergeAll(d, entries) == MergeAll(d, entries[..i])
    decreases |entries| - i
  {
    if i < |entries| {
      assert entries[..i + 1][..i] == entries[..i];
      MergeAllStops(d, entries, i + 1);
    } else {
      assert entries[..i] == entries;
    }
  }

  /** Section parsing that raised on a prefix of the sections stops there. */
  lemma {:induction false} SectionsFoldStops(st: ConfigState, sections: seq<Section>, i: nat)
    requires i <= |sections| && SectionsFold(st, sections[..i]).Err?
    ensures SectionsFold(st, sections) == SectionsFold(st, sections[..i])
    decreases |sections| - i
  {
    if i < |sections| {
      assert sections[..i + 1][..i] == sections[..i];
      SectionsFoldStops(st, sections, i + 1);
    } else {
      assert sections[..i] == sections;
    }
  }

  /** Making stages that raised on a prefix of the names stops there. */
  lemma {:induction false} MakeAllStops(create: map<string, Value> -> Result<FilterFactories.Made>,
                                        dicts: map<string, map<string, Value>>, names: seq<string>, i: nat,
                                        stages: map<string, StageRef>, made: seq<FilterFactories.Made>)
    requires i <= |names| && MakeAll(create, dicts, names[..i], stages, made).2.Some?
    ensures MakeAll(create, dicts, names, stages, made) == MakeAll(create, dicts, names[..i], stages, made)
    decreases |names| - i
  {
    if i < |names| {
      assert names[..i + 1][..i] == names[..i];
      MakeAllStops(create, dicts, names, i + 1, stages, made);
    } else {
      assert names[..i] == names;
    }
  }

  /** Connecting that raised on a prefix of the connections stops there. */
  lemma {:induction false} ConnectAllStops(stages: map<string, StageRef>, conns: seq<string>, i: nat)
    requires i <= |conns| && ConnectAll(stages, conns[..i]).1.Some?
    ensures ConnectAll(stages, conns) == ConnectAll(stages, conns[..i])
    decreases |conns| - i
  {
    if i < |conns| {
      assert conns[..i + 1][..i] == conns[..i];
      ConnectAllStops(stages, conns, i + 1);
    } else {
      assert conns[..i] == conns;
    }
  }

  // =====================================================================
  // The pipeline object

  /** The attributes a pipeline reads off its configuration. */
  datatype PipelineSettings = PipelineSettings(
    configOnly: seq<string>,
    route: string,
    filterDictDict: map<string, map<string, Value>>,
    orderedFilterList: seq<string>,
    ftype: Option<ConfigValue>,
    doc: string,
    configKeys: seq<string>,
    liveUpdates: Option<seq<string>>,
    dynamic: Value,
    connections: seq<string>)

  class Pipeline {
    /** `config_only`: the configuration lines before `[--route--]` */
    var configOnly: seq<string>
    var route: string
    /** `_filter_dict_dict`: each filter's parameter dictionary, by filter name */
    var filterDictDict: map<string, map<string, Value>>
    /** `_ordered_filter_list` */
    var orderedFilterList: seq<string>
    /** the `ftype` the `[--main--]` section gave */
    var ftype: Option<ConfigValue>
    /** `__doc__` */
    var doc: string
    /** `_config_keys` */
    var configKeys: seq<string>
    /** `_live_updates` */
    var liveUpdates: Option<seq<string>>
    var dynamic: Value
    var connections: seq<string>
    /** `_filter_dict`: the stages made, by name */
    var stages: map<string, StageRef>
    /** `filter_list`: the stages in the order they were made */
    var filterList: seq<FilterFactories.Made>
    var firstFilter: Option<string>
    var lastFilter: Option<string>
    /** `_next_filter`: where the enclosing pipeline sends this pipeline's output */
    var nextFilter: Option<Target>
    /** the data of the packets the last pump_data collected */
    var results: seq<Value>

    /** The first and last stages are stages of this pipeline, and a last stage comes with a first. */
    predicate Valid()
      reads this`firstFilter, this`lastFilter, this`stages
    {
      (firstFilter.Some? ==> firstFilter.value in stages) &&
      (lastFilter.Some? ==> lastFilter.value in stages && firstFilter.Some?)
    }


    function Settings(): PipelineSettings
      reads this
    {
      PipelineSettings(configOnly, route, filterDictDict, orderedFilterList, ftype, doc, configKeys, liveUpdates,
                         dynamic, connections)
    }

    /** The stages and the two ends, as _connect_filters works on them. */
    function Ends(): Wiring
      reads this
    {
      Wiring(stages, firstFilter, lastFilter)
    }

    /** The attributes __init__ sets before it reads the configuration. */
    constructor ()
      ensures Valid()
      ensures Settings() == PipelineSettings([], "", map[], [], None, "", [], None, VBool(false), [])
      ensures stages == map[] && filterList == [] && results == []
      ensures firstFilter.None? && lastFilter.None? && nextFilter.None?
    {
      configOnly, route := [], "";
      filterDictDict, orderedFilterList := map[], [];
      ftype, doc, configKeys, liveUpdates, dynamic := None, "", [], None, VBool(false);
      connections, stages, filterList := [], map[], [];
      firstFilter, lastFilter, nextFilter := None, None, None;
      results := [];
    }

    /**
     * The body of Pipeline.__init__ on a new pipeline: the configuration is
     * read and split, its sections parsed (`configObj` is ConfigObj reading
     * the lines before the route) and the route compiled (`parse`), each
     * step raising as it does.
     */
    method Initialise(lines: seq<string>, readFile: string -> seq<string>,
                      configObj: seq<string> -> seq<Section>, parse: RouteParser, classDoc: Option<string>)
      returns (r: Result<()>)
      requires Settings() == PipelineSettings([], "", map[], [], None, "", [], None, VBool(false), [])
      modifies this`configOnly, this`route, this`ftype, this`configKeys, this`liveUpdates, this`dynamic
      modifies this`orderedFilterList, this`filterDictDict, this`doc, this`connections
      ensures var split := SplitConfig(ConfigLines(lines, readFile));
        if split.Err? then r == Err(split.error)
        else Kept(BuildFrom(split.value, configObj, parse, classDoc)) == if r.Ok? then Ok(Settings()) else Err(r.error)
    {
      var read := ReadConfig(lines, readFile);
      if read.Err? {
        return Err(read.error);
      }
      assert State(false, []) == FreshConfig;
      r := ParseSettings(configObj, parse, classDoc);
    }

    /**
     * Pipeline.__init__ after _read_config: the sections are parsed and
     * the route compiled, each step raising as it does.
     */
    method ParseSettings(configObj: seq<string> -> seq<Section>, parse: RouteParser, classDoc: Option<string>)
      returns (r: Result<()>)
      requires State(false, []) == FreshConfig
      modifies this`ftype, this`configKeys, this`liveUpdates, this`dynamic
      modifies this`orderedFilterList, this`filterDictDict, this`doc, this`connections
      ensures configOnly == old(configOnly) && route == old(route)
      ensures Kept(BuildFrom(ConfigParts(configOnly, route), configObj, parse, classDoc)) ==
              if r.Ok? then Ok(Settings()) else Err(r.error)
    {
      ghost var parts := ConfigParts(configOnly, route);
      var parsed := ParseConfig(configObj(configOnly), classDoc);
      ghost var spec := ParseConfigSpec(FreshConfig, configObj(parts.configOnly), classDoc);
      assert configOnly == parts.configOnly && route == parts.route;
      if parsed.Err? {
        BuildConfigFails(parts, configObj, parse, classDoc, parsed.error);
        return Err(parsed.error);
      }
      ghost var cs, docText := spec.value.0, spec.value.1;
      assert orderedFilterList == cs.order && filterDictDict == cs.dicts;
      ghost var rp := RouteFrom(parse(route), orderedFilterList, filterDictDict);
      assert ftype == cs.ftype && configKeys == cs.configKeys && liveUpdates == cs.liveUpdates &&
             dynamic == cs.dynamic && doc == docText;
      r := ParseRoute(parse);
      assert configOnly == parts.configOnly && route == parts.route;
      BuildRoute(parts, configObj, parse, classDoc, cs, docText, rp);
    }

    /**
     * _read_config: the configuration's lines (read from the named file
     * when there is only one), unindented, stripped of blank lines and cut
     * at `[--route--]`.
     */
    method ReadConfig(lines: seq<string>, readFile: string -> seq<string>) returns (r: Result<()>)
      modifies this`configOnly, this`route
      ensures SplitConfig(ConfigLines(lines, readFile)) ==
              if r.Ok? then Ok(ConfigParts(configOnly, route)) else Err(r.error)
      ensures r.Err? ==> configOnly == old(configOnly) && route == old(route)
    {
      var parts := SplitConfig(ConfigLines(lines, readFile));
      if parts.Err? {
        return Err(parts.error);
      }
      configOnly, route := parts.value.configOnly, parts.value.route;
      r := Ok(());
    }

    /**
     * _update_filter_dict: the filter's dictionary (created as
     * {_name: name} on its first reference) takes each entry in turn, as
     * MergeEntry says; the first entry that raises stops the update, the
     * entries before it staying applied.
     */
    method UpdateFilterDict(name: string, entries: seq<(string, Value)>) returns (e: Option<PyError>)
      modifies this`filterDictDict
      ensures filterDictDict == old(filterDictDict)[name := MergeAll(StartDict(old(filterDictDict), name), entries).0]
      ensures e == MergeAll(StartDict(old(filterDictDict), name), entries).1
    {
      var fd: map<string, Value>;
      if name in filterDictDict {
        fd := filterDictDict[name];
      } else {
        fd := map["_name" := VStr(name)];
      }
      var merged;
      merged, e := MergeEntries(fd, entries);
      filterDictDict := filterDictDict[name := merged];
    }

    /** What _parse_config starts from: no `[--main--]` seen, no ftype, no description lines. */
    function Start(): ConfigState
      reads this
    {
      ConfigState(false, None, [], configKeys, liveUpdates, dynamic, orderedFilterList, filterDictDict)
    }

    /** The attributes with _parse_config's own flags: the `[--main--]` flag and the description lines. */
    function State(mainFound: bool, docstring: seq<string>): ConfigState
      reads this
    {
      ConfigState(mainFound, ftype, docstring, configKeys, liveUpdates, dynamic, orderedFilterList, filterDictDict)
    }

    /**
     * One section of _parse_config: `[--main--]` sets the ftype, the
     * description lines, the keys, the live updates and the dynamic flag;
     * any other section joins the filter order once and is merged into its
     * filter's dictionary.
     */
    method ParseSection(sec: Section, mainFound: bool, docstring: seq<string>) returns (r: Result<(bool, seq<string>)>)
      modifies this`ftype, this`configKeys, this`liveUpdates, this`dynamic, this`orderedFilterList
      modifies this`filterDictDict
      ensures var step := SectionStep(old(State(mainFound, docstring)), sec);
        (r.Ok? <==> step.Ok?) && (r.Err? ==> r.error == step.error) &&
        (r.Ok? ==> State(r.value.0, r.value.1) == step.value)
    {
      if sec.name == MainHeading {
        match MainEntries(State(true, docstring), [], [], sec.entries)
        case Err(e) =>
          return Err(e);
        case Ok((st1, keys, live)) =>
          ftype, dynamic := st1.ftype, st1.dynamic;
          configKeys, liveUpdates := keys, Some(live);
          r := Ok((true, st1.docstring));
      } else {
        if sec.name !in orderedFilterList {
          orderedFilterList := orderedFilterList + [sec.name];
        }
        var e := UpdateFilterDict(sec.name, EntryValues(sec.entries));
        if e.Some? {
          return Err(e.value);
        }
        r := Ok((mainFound, docstring));
      }
    }

    /**
     * _parse_config over the sections ConfigObj read from the lines before
     * the route: the filter dictionaries start empty, each section is taken
     * in turn, and the `[--main--]` section, its ftype and a description
     * (the class's own docstring or the section's) are required.
     */
    method ParseConfig(sections: seq<Section>, classDoc: Option<string>) returns (r: Result<()>)
      modifies this`ftype, this`configKeys, this`liveUpdates, this`dynamic, this`orderedFilterList
      modifies this`filterDictDict, this`doc
      ensures var spec := ParseConfigSpec(old(State(false, [])).(ftype := None), sections, classDoc);
        (r.Ok? <==> spec.Ok?) && (r.Err? ==> r.error == spec.error) &&
        (r.Ok? ==> State(true, spec.value.0.docstring) == spec.value.0 && doc == spec.value.1)
    {
      ftype := None;
      filterDictDict := map[];
      ghost var st0 := State(false, []);
      var mainFound := false;
      var docstring: seq<string> := [];
      var i := 0;
      while i < |sections|
        invariant 0 <= i <= |sections|
        invariant SectionsFold(st0, sections[..i]) == Ok(State(mainFound, docstring))
      {
        assert sections[..i + 1][..i] == sections[..i];
        var step := ParseSection(sections[i], mainFound, docstring);
        if step.Err? {
          SectionsFoldStops(st0, sections, i + 1);
          return Err(step.error);
        }
        mainFound, docstring := step.value.0, step.value.1;
        i := i + 1;
      }
      assert sections[..i] == sections;
      if !mainFound || ftype.None? {
        return Err(PipelineConfigError);
      }
      doc := DocText(classDoc, docstring);
      if doc == "" {
        return Err(PipelineConfigError);
      }
      r := Ok(());
    }

    /**
     * One filter name of the route in _parse_route: its short name joins the
     * filter order once, and its `:` values are merged into its dictionary
     * as `_key_values`.
     */
    method AddRouteName(fltrName: string) returns (e: Option<PyError>)
      modifies this`orderedFilterList, this`filterDictDict
      ensures var step := RouteNameStep(old(orderedFilterList), old(filterDictDict), fltrName);
        (e.None? <==> step.Ok?) && (e.Some? ==> e.value == step.error) &&
        (e.None? ==> (orderedFilterList, filterDictDict) == step.value)
    {
      var (short, values) := FilterUtils.GetValuesFromName(fltrName);
      if short !in orderedFilterList {
        orderedFilterList := orderedFilterList + [short];
      }
      e := UpdateFilterDict(short, [("_key_values", VList(values))]);
    }

    /** The loop of _parse_route over the route's filter names, stopping at the first that raises. */
    method AddRouteNames(names: seq<string>) returns (e: Option<PyError>)
      modifies this`orderedFilterList, this`filterDictDict
      ensures var fold := RouteNamesFold(old(orderedFilterList), old(filterDictDict), names);
        (e.None? <==> fold.Ok?) && (e.Some? ==> e.value == fold.error) &&
        (e.None? ==> (orderedFilterList, filterDictDict) == fold.value)
    {
      ghost var order0, dicts0 := orderedFilterList, filterDictDict;
      var i := 0;
      while i < |names|
        invariant 0 <= i <= |names|
        invariant RouteNamesFold(order0, dicts0, names[..i]) == Ok((orderedFilterList, filterDictDict))
      {
        assert names[..i + 1][..i] == names[..i];
        e := AddRouteName(names[i]);
        if e.Some? {
          RouteNamesFoldStops(order0, dicts0, names, i + 1);
          return;
        }
        i := i + 1;
      }
      assert names[..i] == names;
      e := None;
    }

    /**
     * _parse_route: the compiled route's connections are kept and its
     * filter names are added to the filter order and dictionaries. A blank
     * route compiles to None, which cannot be unpacked: TypeError. `parse`
     * is the route parser's parse_route.
     */
    method ParseRoute(parse: RouteParser) returns (r: Result<()>)
      modifies this`connections, this`orderedFilterList, this`filterDictDict
      ensures RouteKept(RouteFrom(parse(route), old(orderedFilterList), old(filterDictDict))) ==
              if r.Ok? then Ok((connections, orderedFilterList, filterDictDict)) else Err(r.error)
    {
      match parse(route)
      case Err(e) =>
        r := Err(e);
      case Ok(None) =>
        r := Err(TypeError);
      case Ok(Some(compiled)) =>
        connections := compiled.connections;
        var e := AddRouteNames(compiled.filterNames);
        r := if e.Some? then Err(e.value) else Ok(());
    }

    /**
     * _make_filter: the factory makes a stage from a parameter dictionary;
     * the stage is stored under its own name and appended to the filter
     * list.
     */
    method MakeFilter(factory: FilterFactories.FilterFactory, paramDict: map<string, Value>)
      returns (r: Result<FilterFactories.Made>)
      modifies this`stages, this`filterList, factory
      ensures r == Creator(old(factory.validated), factory.factoryDict, factory.pypes)(paramDict)
      ensures r.Ok? ==> stages == old(stages)[r.value.name := StageRef(r.value, None, None)] &&
                        filterList == old(filterList) + [r.value]
      ensures r.Err? ==> stages == old(stages) && filterList == old(filterList)
      ensures factory.factoryDict == old(factory.factoryDict) && factory.pypes == old(factory.pypes)
      ensures factory.essentials == old(factory.essentials)
      ensures factory.validated == (old(factory.validated) || !FilterFactories.Ambiguous(factory.factoryDict.Keys))
    {
      r := factory.CreateFilter(FilterFactories.ByParams(paramDict));
      if r.Ok? {
        stages := stages[r.value.name := StageRef(r.value, None, None)];
        filterList := filterList + [r.value];
      }
    }

    /**
     * _make_filters: for each name of the filter order, the factory makes a
     * stage from the name's dictionary (KeyError when there is none); the
     * stage is stored under its own name and appended to the filter list.
     * The factory validates its class map on its first call.
     */
    method MakeFilters(factory: FilterFactories.FilterFactory) returns (r: Result<()>)
      modifies this`stages, this`filterList, factory
      ensures var made := MakeAll(Creator(old(factory.validated), old(factory.factoryDict), old(factory.pypes)),
                                  filterDictDict, orderedFilterList, old(stages), old(filterList));
        stages == made.0 && filterList == made.1 && (r.Err? <==> made.2.Some?) && (r.Err? ==> r.error == made.2.value)
      ensures factory.factoryDict == old(factory.factoryDict) && factory.pypes == old(factory.pypes)
      ensures factory.essentials == old(factory.essentials)
      ensures old(factory.validated) ==> factory.validated
      ensures factory.validated ==> old(factory.validated) || !FilterFactories.Ambiguous(factory.factoryDict.Keys)
    {
      ghost var v0 := factory.validated;
      ghost var create := Creator(v0, factory.factoryDict, factory.pypes);
      ghost var stages0, made0 := stages, filterList;
      var i := 0;
      while i < |orderedFilterList|
        invariant 0 <= i <= |orderedFilterList|
        invariant MakeAll(create, filterDictDict, orderedFilterList[..i], stages0, made0) == (stages, filterList, None)
        invariant factory.factoryDict == old(factory.factoryDict) && factory.pypes == old(factory.pypes)
        invariant factory.essentials == old(factory.essentials)
        invariant factory.validated == (v0 || (i > 0 && !FilterFactories.Ambiguous(factory.factoryDict.Keys)))
      {
        var name := orderedFilterList[i];
        MakeAllPrefix(create, filterDictDict, orderedFilterList, i, stages0, made0);
        if name !in filterDictDict {
          MakeAllStops(create, filterDictDict, orderedFilterList, i + 1, stages0, made0);
          return Err(KeyError);
        }
        var pd := filterDictDict[name];
        ValidationSettled(v0, factory.factoryDict, factory.pypes, pd);
        var m := MakeFilter(factory, pd);
        assert m == create(pd);
        if m.Err? {
          MakeAllStops(create, filterDictDict, orderedFilterList, i + 1, stages0, made0);
          return Err(m.error);
        }
        i := i + 1;
      }
      assert orderedFilterList[..i] == orderedFilterList;
      r := Ok(());
    }

    /**
     * _connect_filter_pair: a `None` to-side connects nothing; otherwise the
     * two stages are looked up and the from-side stage's branch or next
     * stage is set, as ConnectPair says.
     */
    method ConnectFilterPair(from: string, join: string, to: string) returns (r: Result<()>)
      modifies this`stages
      ensures var spec := ConnectPair(old(stages), from, join, to);
        (r.Ok? <==> spec.Ok?) && (r.Ok? ==> stages == spec.value) &&
        (r.Err? ==> r.error == spec.error && stages == old(stages))
    {
      if to == "None" {
        return Ok(());
      }
      var toStage := Lookup(stages, to);
      if toStage.Err? {
        return Err(toStage.error);
      }
      var fromStage := Lookup(stages, from);
      if fromStage.Err? {
        return Err(fromStage.error);
      }
      var target := Stage(KeyOf(to));
      if HiddenBranch(from) && join == BranchJoin {
        stages := stages[KeyOf(from) := fromStage.value.(branch := Some(target))];
      } else {
        stages := stages[KeyOf(from) := fromStage.value.(next := Some(target))];
      }
      r := Ok(());
    }

    /**
     * The loop of _connect_filters: each connection is split and made in
     * order, stopping at the first that raises.
     */
    method ConnectEach() returns (e: Option<PyError>)
      modifies this`stages
      ensures (stages, e) == ConnectAll(old(stages), connections)
    {
      ghost var stages0 := stages;
      var i := 0;
      while i < |connections|
        invariant 0 <= i <= |connections|
        invariant ConnectAll(stages0, connections[..i]) == (stages, None)
      {
        ConnectAllPrefix(stages0, connections, i);
        var split := SplitConnection(connections[i]);
        if split.Err? {
          ConnectAllStops(stages0, connections, i + 1);
          return Some(split.error);
        }
        var link := split.value;
        var c := ConnectFilterPair(link.from, link.join, link.to);
        if c.Err? {
          ConnectAllStops(stages0, connections, i + 1);
          return Some(c.error);
        }
        i := i + 1;
      }
      assert connections[..i] == connections;
      e := None;
    }

    /**
     * _connect_filters: the first stage is the one named before the first
     * join; every connection is made in order; the final connection must
     * end in `None`, and its from-side is the last stage.
     */
    method ConnectFilters() returns (r: Result<()>)
      modifies this`stages, this`firstFilter, this`lastFilter
      ensures var w := Wire(old(Ends()), connections);
        Ends() == w.0 && (r.Ok? <==> w.1.None?) && (r.Err? ==> r.error == w.1.value)
    {
      if |connections| == 0 {
        return Err(IndexError);
      }
      var firstName := FirstPiece(connections[0]);
      var first := Lookup(stages, firstName);
      if first.Err? {
        return Err(first.error);
      }
      firstFilter := Some(KeyOf(firstName));
      ghost var before := stages;
      var e := ConnectEach();
      if e.Some? {
        return Err(e.value);
      }
      // the final connection's split, as the loop's last step left it
      ConnectAllLast(before, connections);
      var link := SplitConnection(connections[|connections| - 1]).value;
      if link.to != "None" {
        return Err(AssertionError);
      }
      var last := Lookup(stages, link.from);
      if last.Err? {
        return Err(last.error);
      }
      lastFilter := Some(KeyOf(link.from));
      r := Ok(());
    }

    /**
     * The next_filter setter: the pipeline's own next filter, and the next
     * stage of its last stage when it has one.
     */
    method SetNextFilter(nxt: Option<Target>)
      requires Valid()
      modifies this`nextFilter, this`stages
      ensures Valid()
      ensures nextFilter == nxt
      ensures lastFilter.Some? ==> stages == old(stages)[lastFilter.value := old(stages)[lastFilter.value].(next := nxt)]
      ensures lastFilter.None? ==> stages == old(stages)
    {
      nextFilter := nxt;
      if lastFilter.Some? {
        var last := lastFilter.value;
        stages := stages[last := stages[last].(next := nxt)];
      }
    }

    /** _close: the pipeline closes its first stage; without one, AttributeError. */
    function CloseTarget(): (r: Result<string>)
      reads this
      ensures r.Err? <==> firstFilter.None?
      ensures r.Err? ==> r.error == AttributeError
      ensures r.Ok? ==> r.value == firstFilter.value && (Valid() ==> r.value in stages)
    {
      if firstFilter.None? then Err(AttributeError) else Ok(firstFilter.value)
    }

    /**
     * pump_data: a temporary sink is put after the last stage; each input
     * (the list given, or the single value) is sent as a packet holding its
     * `str()` (None stays None); the sink is then taken off, the data it
     * kept become the results, and the one result alone or the
     * list of them is returned. `flow` is what the stages deliver to the
     * sink for the data sent; the sink, a Sink with its default
     * `max_results` of 30, keeps only the last 30. Without a last stage,
     * AttributeError.
     */
    method PumpData(dataIn: Value, flow: seq<Value> -> seq<Value>) returns (r: Result<Value>)
      requires Valid()
      modifies this`stages, this`results
      ensures Valid()
      ensures lastFilter.None? ==> r == Err(AttributeError) && stages == old(stages) && results == old(results)
      ensures lastFilter.Some? ==>
        results == PumpKept(flow(SentData(Inputs(dataIn)))) && r == Ok(Returned(results)) &&
        stages == old(stages)[lastFilter.value := old(stages)[lastFilter.value].(next := None)]
    {
      if lastFilter.None? {
        return Err(AttributeError);
      }
      var last := lastFilter.value;
      stages := stages[last := stages[last].(next := Some(Outside("pump_sink")))];
      var items := Inputs(dataIn);
      var sent: seq<Value> := [];
      var i := 0;
      while i < |items|
        invariant 0 <= i <= |items|
        invariant sent == SentData(items[..i])
      {
        assert items[..i + 1][..i] == items[..i];
        var data := if items[i].VNone? then VNone else VStr(Str(items[i]));
        sent := sent + [data];
        i := i + 1;
      }
      assert items[..i] == items;
      stages := stages[last := stages[last].(next := None)];
      results := PumpKept(flow(sent));
      r := Ok(Returned(results));
    }
  }

  /** The attributes a build leaves in the pipeline, or the error it raised. */
  function Kept(b: Result<Built>): Result<PipelineSettings>
  {
    match b
    case Err(e) => Err(e)
    case Ok(x) =>
      Ok(PipelineSettings(x.parts.configOnly, x.parts.route, x.route.dicts, x.route.order, x.config.ftype, x.doc,
                          x.config.configKeys, x.config.liveUpdates, x.config.dynamic, x.route.connections))
  }

  /**
   * Pipeline.__init__: a factory is required (FilterAttributeError);
   * then the new pipeline reads its configuration (Initialise). Nothing
   * is made or connected yet.
   */
  method NewPipeline(hasFactory: bool, lines: seq<string>, readFile: string -> seq<string>,
                     configObj: seq<string> -> seq<Section>, parse: RouteParser, classDoc: Option<string>)
    returns (r: Result<Pipeline>)
    ensures !hasFactory ==> r == Err(FilterAttributeError)
    ensures hasFactory ==>
              var split := SplitConfig(ConfigLines(lines, readFile));
              if split.Err? then r == Err(split.error)
              else Kept(BuildFrom(split.value, configObj, parse, classDoc)) ==
                   if r.Ok? then Ok(r.value.Settings()) else Err(r.error)
    ensures r.Ok? ==> fresh(r.value)
  {
    if !hasFactory {
      return Err(FilterAttributeError);
    }
    var p := new Pipeline();
    var init := p.Initialise(lines, readFile, configObj, parse, classDoc);
    if init.Err? {
      return Err(init.error);
    }
    r := Ok(p);
  }
}
