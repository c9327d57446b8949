/**
 * A pipeline's configuration text as functions: splitting it at the
 * `[--route--]` heading (_read_config), the `[--main--]` section and the
 * per-filter sections (_parse_config), the filter parameter dictionaries
 * (_update_filter_dict) and the names a route adds (_parse_route).
 */
module PipelineConfig {
  import opened Errors
  import opened Strings
  import opened Values
  import FilterUtils

  // =====================================================================
  // _read_config: splitting the text at the route heading

  const RouteHeading := "[--route--]"

  /** `[line.strip() for line in lines if line.strip()]` */
  function StrippedLines(lines: seq<string>): (r: seq<string>)
    ensures |r| <= |lines|
    ensures forall i :: 0 <= i < |r| ==> r[i] != "" && !IsSpace(r[i][0])
    decreases |lines|
  {
    if lines == [] then []
    else
      var s := Strip(lines[0]);
      (if s == "" then [] else [s]) + StrippedLines(lines[1..])
  }

  /** `xs.index(x)`, None where Python raises ValueError. */
  function IndexOf(xs: seq<string>, x: string): (r: Option<nat>)
    ensures r.None? <==> x !in xs
    ensures r.Some? ==> r.value < |xs| && xs[r.value] == x && x !in xs[..r.value]
    decreases |xs|
  {
    if xs == [] then None
    else if xs[0] == x then Some(0)
    else
      match IndexOf(xs[1..], x)
      case None => None
      case Some(k) =>
        assert xs[..k + 1] == [xs[0]] + xs[1..][..k];
        Some(k + 1)
  }

  /** The two parts of a configuration: the lines before the route heading and the route text. */
  datatype ConfigParts = ConfigParts(configOnly: seq<string>, route: string)

  /**
   * _read_config after the text is split into lines (and, for a one-line
   * text, the named file read): unindent, keep the stripped non-blank
   * lines, cut at the first `[--route--]`; the route is the rest joined
   * with newlines. A missing heading and an empty route raise
   * FilterRoutingError; unindent raises ValueError on all-blank lines.
   */
  function SplitConfig(lines: seq<string>): (r: Result<ConfigParts>)
    ensures r.Err? ==> r.error == ValueError || r.error == FilterRoutingError
    ensures r.Ok? ==> RouteHeading !in r.value.configOnly && Strip(r.value.route) != ""
  {
    match FilterUtils.Unindent(lines)
    case Err(e) => Err(e)
    case Ok(u) => CutAtRoute(StrippedLines(u))
  }

  /** The non-blank lines cut at the first route heading. */
  function CutAtRoute(ls: seq<string>): (r: Result<ConfigParts>)
    ensures r.Err? ==> r.error == FilterRoutingError
    ensures r.Ok? ==> RouteHeading !in r.value.configOnly && Strip(r.value.route) != ""
  {
    match IndexOf(ls, RouteHeading)
    case None => Err(FilterRoutingError)
    case Some(k) =>
      var route := Join(ls[k + 1..], "\n");
      if Strip(route) == "" then Err(FilterRoutingError)
      else Ok(ConfigParts(ls[..k], route))
  }

  /** Joined non-blank stripped lines are blank only when there are none. */
  lemma JoinedLinesBlank(ls: seq<string>)
    requires forall i :: 0 <= i < |ls| ==> ls[i] != "" && !IsSpace(ls[i][0])
    ensures Strip(Join(ls, "\n")) == "" <==> ls == []
  {
    var j := Join(ls, "\n");
    StripEmptyIffBlank(j);
    if ls != [] {
      JoinPrefix(ls, 1, "\n");
      assert ls[..1] == [ls[0]];
      assert j[0] == ls[0][0];
      assert !IsSpace(j[0]);
    }
  }

  /**
   * The cut succeeds exactly when some line other than the last one is
   * the route heading.
   */
  lemma CutAtRouteOk(ls: seq<string>)
    requires forall i :: 0 <= i < |ls| ==> ls[i] != "" && !IsSpace(ls[i][0])
    ensures CutAtRoute(ls).Ok? <==> exists k :: 0 <= k < |ls| - 1 && ls[k] == RouteHeading
  {
    match IndexOf(ls, RouteHeading)
    case None =>
    case Some(k) =>
      JoinedLinesBlank(ls[k + 1..]);
      if exists k' :: 0 <= k' < |ls| - 1 && ls[k'] == RouteHeading {
        var k' :| 0 <= k' < |ls| - 1 && ls[k'] == RouteHeading;
        forall i | 0 <= i < k ensures ls[i] != RouteHeading {
          assert ls[..k][i] == ls[i];
        }
      }
  }

  /**
   * A successful cut loses nothing: the lines are the configuration lines,
   * the heading and the (non-empty) route lines the route joins.
   */
  lemma CutAtRouteParts(ls: seq<string>)
    requires CutAtRoute(ls).Ok?
    ensures |CutAtRoute(ls).value.configOnly| < |ls|
    ensures ls == CutAtRoute(ls).value.configOnly + [RouteHeading] + ls[|CutAtRoute(ls).value.configOnly| + 1..]
    ensures CutAtRoute(ls).value.route == Join(ls[|CutAtRoute(ls).value.configOnly| + 1..], "\n")
    ensures ls[|CutAtRoute(ls).value.configOnly| + 1..] != []
  {
    var k := IndexOf(ls, RouteHeading).value;
    assert ls == ls[..k] + [RouteHeading] + ls[k + 1..];
  }

  // =====================================================================
  // _update_filter_dict

  /**
   * One entry of `_update_filter_dict`: the value is converted; a key that
   * already holds a truthy value keeps it when the new value is equal or
   * falsy and raises FilterAttributeError otherwise; any other key takes
   * the new value.
   */
  function MergeEntry(d: map<string, Value>, key: string, value: Value): (r: Result<map<string, Value>>)
    ensures r.Ok? ==> r.value.Keys == d.Keys + {key}
    ensures r.Ok? ==> forall k :: k in d && k != key ==> r.value[k] == d[k]
    ensures r.Err? <==> key in d && Truthy(d[key]) && !PyEq(d[key], FilterUtils.ConvertConfigStr(value)) &&
                        Truthy(FilterUtils.ConvertConfigStr(value))
    ensures r.Err? ==> r.error == FilterAttributeError
  {
    var nv := FilterUtils.ConvertConfigStr(value);
    if key in d && Truthy(d[key]) then
      if PyEq(d[key], nv) then Ok(d)
      else if !Truthy(nv) then Ok(d)
      else Err(FilterAttributeError)
    else Ok(d[key := nv])
  }

  /**
   * All entries in order: the dictionary reached and, if an entry raised,
   * its error (the entries before it stay applied, as in the source, which
   * updates the stored dictionary in place).
   */
  function MergeAll(d: map<string, Value>, entries: seq<(string, Value)>): (r: (map<string, Value>, Option<PyError>))
    decreases |entries|
  {
    if entries == [] then (d, None)
    else
      var (d1, e1) := MergeAll(d, entries[..|entries| - 1]);
      if e1.Some? then (d1, e1)
      else
        var last := entries[|entries| - 1];
        match MergeEntry(d1, last.0, last.1)
        case Err(e) => (d1, Some(e))
        case Ok(d2) => (d2, None)
  }

  /** Merging one more entry after a list of them. */
  lemma MergeAllSnoc(d: map<string, Value>, es: seq<(string, Value)>, key: string, value: Value)
    ensures MergeAll(d, es + [(key, value)]) ==
      if MergeAll(d, es).1.Some? then MergeAll(d, es)
      else match MergeEntry(MergeAll(d, es).0, key, value)
        case Err(e) => (MergeAll(d, es).0, Some(e))
        case Ok(d2) => (d2, None)
  {
    assert (es + [(key, value)])[..|es|] == es;
  }

  /** The dictionary a filter starts from on its first reference. */
  function StartDict(dicts: map<string, map<string, Value>>, name: string): (d: map<string, Value>)
    ensures name !in dicts ==> d == map["_name" := VStr(name)]
  {
    if name in dicts then dicts[name] else map["_name" := VStr(name)]
  }

  /** A value merged onto itself (or onto anything equal) changes nothing. */
  lemma MergeEqualNoOp(d: map<string, Value>, key: string, value: Value)
    requires key in d && Truthy(d[key]) && PyEq(d[key], FilterUtils.ConvertConfigStr(value))
    ensures MergeEntry(d, key, value) == Ok(d)
  {
  }

  /** A falsy new value never overwrites a truthy one. */
  lemma MergeFalsyIgnored(d: map<string, Value>, key: string, value: Value)
    requires key in d && Truthy(d[key]) && !Truthy(FilterUtils.ConvertConfigStr(value))
    ensures MergeEntry(d, key, value) == Ok(d)
  {
  }

  /**
   * `batch` and `batch:66` in either order bind the same `_key_values`: an
   * empty list followed by a non-empty one, or the other way round, leaves
   * the non-empty one.
   */
  lemma KeyValuesEitherOrder(d: map<string, Value>, vs: seq<Value>)
    requires "_key_values" !in d
    requires Truthy(FilterUtils.ConvertConfigStr(VList(vs)))
    ensures var empty := [("_key_values", VList([]))];
      var full := [("_key_values", VList(vs))];
      && MergeAll(d, empty + full) == MergeAll(d, full + empty)
      && MergeAll(d, empty + full) == (d["_key_values" := FilterUtils.ConvertConfigStr(VList(vs))], None)
  {
    var empty := [("_key_values", VList([]))];
    var full := [("_key_values", VList(vs))];
    var c := FilterUtils.ConvertConfigStr(VList(vs));
    var d0, d1 := d["_key_values" := VList([])], d["_key_values" := c];
    assert MergeAll(d, empty) == (d0, None) by {
      assert FilterUtils.ConvertConfigStr(VList([])) == VList([]);
      MergeAllSnoc(d, [], "_key_values", VList([]));
      assert [] + empty == empty;
    }
    assert MergeAll(d, full) == (d1, None) by {
      MergeAllSnoc(d, [], "_key_values", VList(vs));
      assert [] + full == full;
    }
    assert MergeAll(d, empty + full) == (d1, None) by {
      MergeAllSnoc(d, empty, "_key_values", VList(vs));
      assert d0["_key_values" := c] == d1;
    }
    assert MergeAll(d, full + empty) == (d1, None) by {
      MergeAllSnoc(d, full, "_key_values", VList([]));
      assert FilterUtils.ConvertConfigStr(VList([])) == VList([]);
      MergeFalsyIgnored(d1, "_key_values", VList([]));
    }
  }

  /** `batch:88` followed by `batch:99` raises FilterAttributeError. */
  lemma KeyValuesConflict(d: map<string, Value>, vs: seq<Value>, ws: seq<Value>)
    requires "_key_values" !in d
    requires Truthy(FilterUtils.ConvertConfigStr(VList(vs))) && Truthy(FilterUtils.ConvertConfigStr(VList(ws)))
    requires !PyEq(FilterUtils.ConvertConfigStr(VList(vs)), FilterUtils.ConvertConfigStr(VList(ws)))
    ensures MergeAll(d, [("_key_values", VList(vs)), ("_key_values", VList(ws))]).1 == Some(FilterAttributeError)
  {
    var first := [("_key_values", VList(vs))];
    MergeAllSnoc(d, [], "_key_values", VList(vs));
    assert [] + first == first;
    MergeAllSnoc(d, first, "_key_values", VList(ws));
    assert first + [("_key_values", VList(ws))] == [("_key_values", VList(vs)), ("_key_values", VList(ws))];
  }

  // =====================================================================
  // _parse_config

  /** A ConfigObj value: a string, or a list when the text held commas. */
  datatype ConfigValue = Text(s: string) | Texts(items: seq<string>)

  /** A ConfigObj section: its heading and its entries in order. */
  datatype Section = Section(name: string, entries: seq<(string, ConfigValue)>)

  const MainHeading := "--main--"

  function ToValue(v: ConfigValue): Value
  {
    match v
    case Text(s) => VStr(s)
    case Texts(items) => VList(seq(|items|, i requires 0 <= i < |items| => VStr(items[i])))
  }

  /** `list + value`, or `list + [value]` when the value is a string. */
  function AsList(v: ConfigValue): seq<string>
  {
    match v
    case Text(s) => [s]
    case Texts(items) => items
  }

  /** config_obj_comma_fix: a list is joined again with ", ". */
  function CommaFix(v: ConfigValue): string
  {
    match v
    case Text(s) => s
    case Texts(items) => Join(items, ", ")
  }

  /** The entry names `[--main--]` accepts. */
  predicate KnownMainKey(name: string)
  {
    name == "ftype" || StartsWith(name, "descr") || StartsWith(name, "key") || name == "dynamic" ||
    StartsWith(name, "update_live")
  }

  /** What `_parse_config` has gathered so far. */
  datatype ConfigState = ConfigState(
    mainFound: bool,
    ftype: Option<ConfigValue>,
    docstring: seq<string>,
    configKeys: seq<string>,
    liveUpdates: Option<seq<string>>,
    dynamic: Value,
    order: seq<string>,
    dicts: map<string, map<string, Value>>)

  /** One `[--main--]` entry; the key and live-update lists are the section's own. */
  function MainEntry(st: ConfigState, keys: seq<string>, live: seq<string>, name: string, v: ConfigValue):
    (r: Result<(ConfigState, seq<string>, seq<string>)>)
    ensures r.Err? <==> !KnownMainKey(name)
    ensures r.Err? ==> r.error == PipelineConfigError
    ensures r.Ok? ==> r.value.0.order == st.order && r.value.0.dicts == st.dicts && r.value.0.mainFound == st.mainFound
  {
    if name == "ftype" then Ok((st.(ftype := Some(v)), keys, live))
    else if StartsWith(name, "descr") then Ok((st.(docstring := st.docstring + [CommaFix(v)]), keys, live))
    else if StartsWith(name, "key") then Ok((st, keys + AsList(v), live))
    else if name == "dynamic" then Ok((st.(dynamic := FilterUtils.ConvertConfigStr(ToValue(v))), keys, live))
    else if StartsWith(name, "update_live") then Ok((st, keys, live + AsList(v)))
    else Err(PipelineConfigError)
  }

  /** The entries of a `[--main--]` section in order. */
  function MainEntries(st: ConfigState, keys: seq<string>, live: seq<string>, entries: seq<(string, ConfigValue)>):
    (r: Result<(ConfigState, seq<string>, seq<string>)>)
    ensures r.Ok? ==> r.value.0.order == st.order && r.value.0.dicts == st.dicts && r.value.0.mainFound == st.mainFound
    decreases |entries|
  {
    if entries == [] then Ok((st, keys, live))
    else
      match MainEntries(st, keys, live, entries[..|entries| - 1])
      case Err(e) => Err(e)
      case Ok((st1, k1, l1)) =>
        var last := entries[|entries| - 1];
        MainEntry(st1, k1, l1, last.0, last.1)
  }

  /** The key lists of the entries, concatenated. */
  function AllLists(entries: seq<(string, ConfigValue)>): seq<string>
    decreases |entries|
  {
    if entries == [] then [] else AllLists(entries[..|entries| - 1]) + AsList(entries[|entries| - 1].1)
  }

  /** `key*` entries add up: list values are concatenated and single values appended. */
  lemma {:induction false} KeyEntriesConcatenate(st: ConfigState, keys: seq<string>, live: seq<string>,
                                                entries: seq<(string, ConfigValue)>)
    requires forall i :: 0 <= i < |entries| ==> StartsWith(entries[i].0, "key")
    ensures MainEntries(st, keys, live, entries) == Ok((st, keys + AllLists(entries), live))
    decreases |entries|
  {
    if entries == [] {
      assert keys + [] == keys;
    } else {
      var front := entries[..|entries| - 1];
      KeyEntriesConcatenate(st, keys, live, front);
      var name := entries[|entries| - 1].0;
      assert StartsWith(name, "key");
      assert name[0] == 'k' by {
        assert name[..3] == "key";
      }
      assert name != "ftype" && !StartsWith(name, "descr");
      var listed, more := AllLists(front), AsList(entries[|entries| - 1].1);
      assert AllLists(entries) == listed + more;
      ConcatAssoc(keys, listed, more);
    }
  }

  /** Every entry of a main section that was read without error has a known name. */
  lemma {:induction false} MainEntriesKnown(st: ConfigState, keys: seq<string>, live: seq<string>,
                                           entries: seq<(string, ConfigValue)>)
    requires MainEntries(st, keys, live, entries).Ok?
    ensures forall i :: 0 <= i < |entries| ==> KnownMainKey(entries[i].0)
    decreases |entries|
  {
    if entries != [] {
      var front := entries[..|entries| - 1];
      MainEntriesKnown(st, keys, live, front);
      assert forall i :: 0 <= i < |front| ==> entries[i] == front[i];
    }
  }

  /**
   * _update_filter_dict(name, entries) on the whole set of dictionaries:
   * the filter's dictionary (created as {_name: name} on first reference)
   * with the entries merged in; the error of the first entry that raised.
   */
  function UpdateDicts(dicts: map<string, map<string, Value>>, name: string, entries: seq<(string, Value)>):
    (r: Result<map<string, map<string, Value>>>)
    ensures r.Ok? ==> r.value.Keys == dicts.Keys + {name}
    ensures r.Ok? ==> forall k :: k in dicts && k != name ==> r.value[k] == dicts[k]
    ensures r.Ok? ==> r.value[name] == MergeAll(StartDict(dicts, name), entries).0
  {
    var (d, e) := MergeAll(StartDict(dicts, name), entries);
    if e.Some? then Err(e.value) else Ok(dicts[name := d])
  }

  /** A ConfigObj section's entries as the dictionary it passes to _update_filter_dict. */
  function EntryValues(entries: seq<(string, ConfigValue)>): (r: seq<(string, Value)>)
    ensures |r| == |entries|
  {
    seq(|entries|, i requires 0 <= i < |entries| => (entries[i].0, ToValue(entries[i].1)))
  }

  /** Add a name to the filter order unless it is there already. */
  function AddOnce(order: seq<string>, name: string): seq<string>
  {
    if name in order then order else order + [name]
  }

  /**
   * One section: `[--main--]` reads its entries, resetting the key and
   * live-update lists; any other section is a filter, added to the order
   * once and merged into its dictionary.
   */
  function SectionStep(st: ConfigState, sec: Section): (r: Result<ConfigState>)
    ensures r.Ok? ==> r.value.order == (if sec.name == MainHeading then st.order else AddOnce(st.order, sec.name))
    ensures r.Ok? && sec.name == MainHeading ==> r.value.mainFound
  {
    if sec.name == MainHeading then
      match MainEntries(st.(mainFound := true), [], [], sec.entries)
      case Err(e) => Err(e)
      case Ok((st1, keys, live)) => Ok(st1.(configKeys := keys, liveUpdates := Some(live)))
    else
      match UpdateDicts(st.dicts, sec.name, EntryValues(sec.entries))
      case Err(e) => Err(e)
      case Ok(dicts) => Ok(st.(order := AddOnce(st.order, sec.name), dicts := dicts))
  }

  /** The sections in order. */
  function SectionsFold(st: ConfigState, sections: seq<Section>): (r: Result<ConfigState>)
    decreases |sections|
  {
    if sections == [] then Ok(st)
    else
      match SectionsFold(st, sections[..|sections| - 1])
      case Err(e) => Err(e)
      case Ok(st1) => SectionStep(st1, sections[|sections| - 1])
  }

  /** `'\n'.join(([__doc__, '', ''] if __doc__ else []) + docstring)` */
  function DocText(classDoc: Option<string>, docstring: seq<string>): string
  {
    var lead := if classDoc.Some? && classDoc.value != "" then [classDoc.value, "", ""] else [];
    Join(lead + docstring, "\n")
  }

  /** Lines joined with a separator are empty exactly when there are none or one empty one. */
  lemma JoinEmpty(xs: seq<string>, sep: string)
    requires sep != ""
    ensures Join(xs, sep) == "" <==> xs == [] || xs == [""]
  {
    if |xs| > 1 {
      assert |Join(xs, sep)| >= |sep|;
    }
  }

  /** The docstring is empty exactly when the class has none and the descriptions give none. */
  lemma DocTextEmpty(classDoc: Option<string>, docstring: seq<string>)
    ensures DocText(classDoc, docstring) == "" <==>
      (classDoc.None? || classDoc.value == "") && (docstring == [] || docstring == [""])
  {
    var lead := if classDoc.Some? && classDoc.value != "" then [classDoc.value, "", ""] else [];
    JoinEmpty(lead + docstring, "\n");
    if lead == [] {
      assert lead + docstring == docstring;
    }
  }

  /**
   * _parse_config: the sections in order, then PipelineConfigError for a
   * missing `[--main--]` section, a missing ftype or an empty docstring.
   */
  function ParseConfigSpec(st: ConfigState, sections: seq<Section>, classDoc: Option<string>): (r: Result<(ConfigState, string)>)
    ensures r.Ok? ==> r.value.0.mainFound && r.value.0.ftype.Some? && r.value.1 != ""
    ensures r.Ok? ==> SectionsFold(st.(dicts := map[]), sections) == Ok(r.value.0)
  {
    match SectionsFold(st.(dicts := map[]), sections)
    case Err(e) => Err(e)
    case Ok(st1) =>
      if !st1.mainFound || st1.ftype.None? then Err(PipelineConfigError)
      else
        var doc := DocText(classDoc, st1.docstring);
        if doc == "" then Err(PipelineConfigError) else Ok((st1, doc))
  }

  /** Without a `[--main--]` section (and with the main flag still clear) the configuration is refused. */
  lemma {:induction false} MainSectionRequired(st: ConfigState, sections: seq<Section>)
    requires !st.mainFound
    requires forall i :: 0 <= i < |sections| ==> sections[i].name != MainHeading
    ensures SectionsFold(st, sections).Ok? ==> !SectionsFold(st, sections).value.mainFound
    decreases |sections|
  {
    if sections != [] {
      MainSectionRequired(st, sections[..|sections| - 1]);
    }
  }

  /** A configuration that parses has only known names in its main sections. */
  lemma {:induction false} SectionsKnownKeys(st: ConfigState, sections: seq<Section>)
    requires SectionsFold(st, sections).Ok?
    ensures forall i, j :: 0 <= i < |sections| && sections[i].name == MainHeading && 0 <= j < |sections[i].entries| ==>
      KnownMainKey(sections[i].entries[j].0)
    decreases |sections|
  {
    if sections != [] {
      var front := sections[..|sections| - 1];
      SectionsKnownKeys(st, front);
      var last := sections[|sections| - 1];
      var st1 := SectionsFold(st, front).value;
      if last.name == MainHeading {
        MainEntriesKnown(st1.(mainFound := true), [], [], last.entries);
      }
      assert forall i :: 0 <= i < |front| ==> sections[i] == front[i];
    }
  }

  /**
   * The filter order after the sections: each filter section once, where it
   * first appears.
   */
  lemma {:induction false} SectionsOrder(st: ConfigState, sections: seq<Section>)
    requires SectionsFold(st, sections).Ok?
    requires st.order == Dedup(st.order)
    ensures SectionsFold(st, sections).value.order == Dedup(st.order + FilterSections(sections))
    decreases |sections|
  {
    if sections == [] {
      assert st.order + [] == st.order;
    } else {
      var front := sections[..|sections| - 1];
      var last := sections[|sections| - 1];
      SectionsOrder(st, front);
      var xs := st.order + FilterSections(front);
      if last.name == MainHeading {
        assert FilterSections(sections) == FilterSections(front);
      } else {
        assert FilterSections(sections) == FilterSections(front) + [last.name];
        ConcatSnoc(st.order, FilterSections(front), last.name);
        DedupSnoc(xs, last.name);
      }
    }
  }

  /** The names of the sections other than `[--main--]`, in order. */
  function FilterSections(sections: seq<Section>): seq<string>
    decreases |sections|
  {
    if sections == [] then []
    else
      var front := FilterSections(sections[..|sections| - 1]);
      var last := sections[|sections| - 1];
      if last.name == MainHeading then front else front + [last.name]
  }

  // =====================================================================
  // _parse_route: the filter names of the route

  /** One route name: its short name joins the order once; its values become `_key_values`. */
  function RouteNameStep(order: seq<string>, dicts: map<string, map<string, Value>>, fltrName: string):
    (r: Result<(seq<string>, map<string, map<string, Value>>)>)
    ensures r.Ok? ==> r.value.0 == AddOnce(order, FilterUtils.GetValuesFromName(fltrName).0)
  {
    var (short, values) := FilterUtils.GetValuesFromName(fltrName);
    match UpdateDicts(dicts, short, [("_key_values", VList(values))])
    case Err(e) => Err(e)
    case Ok(d2) => Ok((AddOnce(order, short), d2))
  }

  /** All the route's filter names in order. */
  function RouteNamesFold(order: seq<string>, dicts: map<string, map<string, Value>>, names: seq<string>):
    (r: Result<(seq<string>, map<string, map<string, Value>>)>)
    decreases |names|
  {
    if names == [] then Ok((order, dicts))
    else
      match RouteNamesFold(order, dicts, names[..|names| - 1])
      case Err(e) => Err(e)
      case Ok((o1, d1)) => RouteNameStep(o1, d1, names[|names| - 1])
  }

  /** The short names of route filter names (the text before any ':'). */
  function ShortNames(names: seq<string>): (r: seq<string>)
    ensures |r| == |names|
    ensures forall i :: 0 <= i < |names| ==> r[i] == FilterUtils.GetValuesFromName(names[i]).0
  {
    seq(|names|, i requires 0 <= i < |names| => FilterUtils.GetValuesFromName(names[i]).0)
  }

  /** The route adds its filters' short names once each, in first-seen order. */
  lemma {:induction false} RouteNamesOrder(order: seq<string>, dicts: map<string, map<string, Value>>, names: seq<string>)
    requires RouteNamesFold(order, dicts, names).Ok?
    requires order == Dedup(order)
    ensures RouteNamesFold(order, dicts, names).value.0 == Dedup(order + ShortNames(names))
    decreases |names|
  {
    if names == [] {
      assert order + ShortNames(names) == order;
    } else {
      var front := names[..|names| - 1];
      var s := ShortNames(names)[|names| - 1];
      RouteNamesFoldLast(order, dicts, names);
      RouteNamesOrder(order, dicts, front);
      ShortNamesSnoc(names);
      var xs := order + ShortNames(front);
      DedupSnoc(xs, s);
      ConcatSnoc(order, ShortNames(front), s);
    }
  }

  /** A successful fold over the names went through its front successfully, then one step. */
  lemma RouteNamesFoldLast(order: seq<string>, dicts: map<string, map<string, Value>>, names: seq<string>)
    requires names != [] && RouteNamesFold(order, dicts, names).Ok?
    ensures RouteNamesFold(order, dicts, names[..|names| - 1]).Ok?
    ensures RouteNamesFold(order, dicts, names).value.0
      == AddOnce(RouteNamesFold(order, dicts, names[..|names| - 1]).value.0, ShortNames(names)[|names| - 1])
  {
  }

  /** The short names of a list end with the last name's short name. */
  lemma ShortNamesSnoc(names: seq<string>)
    requires names != []
    ensures ShortNames(names) == ShortNames(names[..|names| - 1]) + [ShortNames(names)[|names| - 1]]
  {
  }

  lemma ConcatSnoc(a: seq<string>, b: seq<string>, s: string)
    ensures a + (b + [s]) == (a + b) + [s]
  {
  }

  /** First-seen order of one more element. */
  lemma DedupSnoc(xs: seq<string>, s: string)
    ensures Dedup(xs + [s]) == AddOnce(Dedup(xs), s)
  {
    assert (xs + [s])[..|xs|] == xs;
  }

  /** A list without repeats is its own first-seen order. */
  lemma {:induction false} DedupDistinct(xs: seq<string>)
    requires forall i, j :: 0 <= i < j < |xs| ==> xs[i] != xs[j]
    ensures Dedup(xs) == xs
    decreases |xs|
  {
    if xs != [] {
      var front := xs[..|xs| - 1];
      DedupDistinct(front);
      assert xs[|xs| - 1] !in front;
      assert front + [xs[|xs| - 1]] == xs;
    }
  }
}
