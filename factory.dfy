/**
 * The filter factory: the registry from filter type names (`ftype`) to
 * the classes that make them, the check that no type name is a prefix of
 * another, and `create_filter`, which picks the class for a parameter
 * dictionary (explicit `ftype`, `pype_` names, or the type read off the
 * filter's name) and assembles the keyword arguments the class is called
 * with.
 */
module FilterFactories {
  import opened Errors
  import opened Strings
  import opened Values
  import FilterUtils
  import StageKeys

  // =====================================================================
  // Classes and the class maps

  /** A class, named by the module alias it is looked up in and its name. */
  datatype ClassRef = ClassRef(home: string, name: string)

  /** The class every `pype_` or pypes-directory filter is made from. */
  const PipelineForPypes := ClassRef("ppln", "PipelineForPypes")

  /** The classes every factory knows (FilterFactory.__init__). */
  const BaseClassMap: map<string, ClassRef> := map[
    "attribute_change_detection" := ClassRef("df", "AttributeChangeDetection"),
    "attribute_extractor" := ClassRef("df", "AttributeExtractor"),
    "batch" := ClassRef("df", "Batch"),
    "branch_dynamic" := ClassRef("df", "BranchDynamic"),
    "branch_param" := ClassRef("df", "BranchParam"),
    "branch_clone" := ClassRef("df", "BranchClone"),
    "branch_first_part" := ClassRef("df", "BranchFirstPart"),
    "branch_until_value" := ClassRef("df", "BranchUntilValue"),
    "branch_if" := ClassRef("df", "BranchIf"),
    "branch_once_triggered" := ClassRef("df", "BranchOnceTriggered"),
    "branch_ref" := ClassRef("df", "BranchRef"),
    "break_point" := ClassRef("df", "BreakPoint"),
    "bzip_compress" := ClassRef("df", "BZipCompress"),
    "bzip_decompress" := ClassRef("df", "BZipDecompress"),
    "calc_slope" := ClassRef("df", "CalcSlope"),
    "calculate" := ClassRef("df", "Calculate"),
    "callback_on_attribute" := ClassRef("df", "CallbackOnAttribute"),
    "callback_on_multiple_attributes" := ClassRef("df", "CallbackOnMultipleAttributes"),
    "collect_data" := ClassRef("df", "CollectData"),
    "combine" := ClassRef("df", "Combine"),
    "concat_path" := ClassRef("df", "ConcatPath"),
    "convert_bytes_to_int" := ClassRef("df", "ConvertBytesToInt"),
    "convert_filename_to_path" := ClassRef("df", "ConvertFilenameToPath"),
    "copy_file" := ClassRef("ppln", "CopyFile"),
    "count_bytes" := ClassRef("df", "CountBytes"),
    "count_loops" := ClassRef("df", "CountLoops"),
    "count_packets" := ClassRef("df", "CountPackets"),
    "data_length" := ClassRef("df", "DataLength"),
    "dedupe_data" := ClassRef("df", "DedupeData"),
    "distill_header" := ClassRef("df", "DistillHeader"),
    "format_param" := ClassRef("df", "FormatParam"),
    "get_bytes" := ClassRef("df", "GetBytes"),
    "hash_sha256" := ClassRef("df", "HashSHA256"),
    "header_as_attribute" := ClassRef("df", "HeaderAsAttribute"),
    "hidden_branch_route" := ClassRef("dfb", "HiddenBranchRoute"),
    "join" := ClassRef("df", "Join"),
    "null" := ClassRef("df", "Waste"),
    "pass_non_zero" := ClassRef("df", "PassNonZero"),
    "pass_through" := ClassRef("df", "PassThrough"),
    "peek" := ClassRef("df", "Peek"),
    "print_param" := ClassRef("df", "PrintParam"),
    "py" := ClassRef("df", "EmbedPython"),
    "read_batch" := ClassRef("df", "ReadBatch"),
    "read_bytes" := ClassRef("df", "ReadBytes"),
    "rename_file" := ClassRef("df", "RenameFile"),
    "reset" := ClassRef("df", "Reset"),
    "r111eset_branch" := ClassRef("df", "R111esetBranch"),
    "reverse_string" := ClassRef("df", "ReverseString"),
    "swap_two_bytes" := ClassRef("df", "SwapTwoBytes"),
    "send_message" := ClassRef("df", "SendMessage"),
    "seq_packet" := ClassRef("df", "SeqPacket"),
    "set_attributes_to_data" := ClassRef("df", "SetAttributesToData"),
    "sink" := ClassRef("df", "Sink"),
    "sleep" := ClassRef("df", "Sleep"),
    "split_words" := ClassRef("df", "SplitWords"),
    "split_lines" := ClassRef("df", "SplitLines"),
    "tag_packet" := ClassRef("df", "TagPacket"),
    "tank_branch" := ClassRef("df", "TankBranch"),
    "tank_feed" := ClassRef("df", "TankFeed"),
    "tank_queue" := ClassRef("df", "TankQueue"),
    "waste" := ClassRef("df", "Waste"),
    "wrap" := ClassRef("df", "Wrap"),
    "write_configobj_file" := ClassRef("df", "WriteConfigObjFile"),
    "write_file" := ClassRef("df", "WriteFile"),
    "check_essential_keys" := ClassRef("ppln", "CheckEssentialKeys"),
    "extract_many_attributes" := ClassRef("ppln", "ExtractManyAttributes")
  ]

  /**
   * The classes the demo factory's modules define, by module alias
   * (`dfd` is data_fltr_demo, `ppln` is pipeline, `ppln_demo` is ppln_demo).
   */
  const DemoModuleClasses: map<string, set<string>> := map[
    "dfd" := {"AddNumbers", "Capitalise", "FactorialCalc", "KeySubstitutions", "MultiplyIfInteger",
              "SquareIfNumber", "SumBits", "SumBytes", "SumNibbles", "SwitchBits", "TempTextAfter",
              "TempTextBefore", "TempSpace"},
    "ppln" := {"Pipeline", "DynamicPipeline", "PipelineForPypes", "ExtractManyAttributes", "CopyFile",
               "Refinery", "CheckEssentialKeys"},
    "ppln_demo" := {"Factorial", "InnerBar", "SmallPipeBaz", "Freda", "Jane", "Alison",
                    "VariableBatchPipeline", "SimpleLoop", "ReverseChars", "SquareNumber",
                    "TempMultipleAB", "TempMultipleSpace", "WordsInCaps"}
  ]

  /** A module attribute lookup `home.name` succeeds. */
  predicate Defined(c: ClassRef)
  {
    c.home in DemoModuleClasses && c.name in DemoModuleClasses[c.home]
  }

  /**
   * The demo factory's class map as written: the keyword arguments of its
   * `dict(...)`, in the order Python evaluates them.
   */
  const DemoEntriesAsWritten: seq<(string, ClassRef)> := [
    ("capitalise", ClassRef("dfd", "Capitalise")),
    ("factorial_calc", ClassRef("dfd", "FactorialCalc")),
    ("inner_bar", ClassRef("ppln_demo", "InnerBar")),
    ("mult_if_int", ClassRef("dfd", "MultiplyIfInteger")),
    ("reverse_string", ClassRef("dfd", "ReverseString")),
    ("square_if_number", ClassRef("dfd", "SquareIfNumber")),
    ("temp_multiple_ab", ClassRef("ppln_demo", "TempMultipleAB")),
    ("temp_space", ClassRef("dfd", "TempSpace")),
    ("temp_text_after", ClassRef("dfd", "TempTextAfter")),
    ("temp_text_before", ClassRef("dfd", "TempTextBefore")),
    ("copyfile_compress", ClassRef("ppln", "CopyFileCompression")),
    ("key_substitutions", ClassRef("dfd", "KeySubstitutions"))
  ]

  /**
   * The demo class map with the two references to classes its modules do
   * not define left out (`reverse_string` stays registered from the base
   * map, as df.ReverseString).
   */
  const DemoClassMap: map<string, ClassRef> := map[
    "capitalise" := ClassRef("dfd", "Capitalise"),
    "factorial_calc" := ClassRef("dfd", "FactorialCalc"),
    "inner_bar" := ClassRef("ppln_demo", "InnerBar"),
    "mult_if_int" := ClassRef("dfd", "MultiplyIfInteger"),
    "square_if_number" := ClassRef("dfd", "SquareIfNumber"),
    "temp_multiple_ab" := ClassRef("ppln_demo", "TempMultipleAB"),
    "temp_space" := ClassRef("dfd", "TempSpace"),
    "temp_text_after" := ClassRef("dfd", "TempTextAfter"),
    "temp_text_before" := ClassRef("dfd", "TempTextBefore"),
    "key_substitutions" := ClassRef("dfd", "KeySubstitutions")
  ]

  /**
   * Evaluating a `dict(key=module.Class, ...)` display: AttributeError at
   * the first class its module does not define, else the map.
   */
  function ResolveEntries(entries: seq<(string, ClassRef)>): (r: Result<map<string, ClassRef>>)
    ensures r.Err? <==> exists i :: 0 <= i < |entries| && !Defined(entries[i].1)
    ensures r.Err? ==> r.error == AttributeError
    ensures r.Ok? ==> forall i :: 0 <= i < |entries| ==> entries[i].0 in r.value
    decreases |entries|
  {
    if |entries| == 0 then Ok(map[])
    else
      var last := entries[|entries| - 1];
      var front := entries[..|entries| - 1];
      assert forall i :: 0 <= i < |front| ==> front[i] == entries[i];
      match ResolveEntries(front)
      case Err(e) => Err(e)
      case Ok(m) =>
        if !Defined(last.1) then Err(AttributeError)
        else Ok(m[last.0 := last.1])
  }

  /** The demo class map as written cannot be built: dfd has no ReverseString. */
  lemma DemoEntriesAsWrittenFail()
    ensures ResolveEntries(DemoEntriesAsWritten) == Err(AttributeError)
    ensures !Defined(DemoEntriesAsWritten[4].1) && DemoEntriesAsWritten[4].0 == "reverse_string"
    ensures !Defined(DemoEntriesAsWritten[10].1)
  {
    assert DemoEntriesAsWritten[4].1 == ClassRef("dfd", "ReverseString");
    assert "ReverseString" !in DemoModuleClasses["dfd"];
  }

  /** Every class of the corrected demo map is defined by its module. */
  lemma DemoClassMapDefined()
    ensures forall k :: k in DemoClassMap ==> Defined(DemoClassMap[k])
    ensures "reverse_string" !in DemoClassMap
  {
  }

  /** With the corrected map the demo factory still makes reverse_string from df.ReverseString. */
  lemma DemoKeepsReverseString()
    ensures "reverse_string" in BaseClassMap + DemoClassMap
    ensures (BaseClassMap + DemoClassMap)["reverse_string"] == ClassRef("df", "ReverseString")
  {
    DemoClassMapDefined();
  }

  // =====================================================================
  // Prefix ambiguity (_validate_filter_dict)

  /** Some registered type name is a proper prefix of another. */
  predicate Ambiguous(keys: set<string>)
  {
    exists a, b :: a in keys && b in keys && a != b && StartsWith(b, a)
  }

  predicate Distinct(xs: seq<string>)
  {
    forall i, j :: 0 <= i < j < |xs| ==> xs[i] != xs[j]
  }

  /** A proper prefix sorts first. */
  lemma {:induction false} ProperPrefixLess(a: string, b: string)
    requires StartsWith(b, a) && a != b
    ensures StrLess(a, b)
    decreases |a|
  {
    if |a| > 0 {
      assert b[0] == a[0];
      assert b[1..][..|a| - 1] == a[1..];
      assert |a| < |b|;
      ProperPrefixLess(a[1..], b[1..]);
    }
  }

  /** Everything sorted between a string and one of its extensions extends it too. */
  lemma {:induction false} PrefixBetween(a: string, m: string, c: string)
    requires StartsWith(c, a) && !StrLess(m, a) && !StrLess(c, m)
    ensures StartsWith(m, a)
    decreases |a|
  {
    if |a| > 0 {
      assert c[0] == a[0];
      assert |m| > 0;
      assert m[0] == a[0];
      assert c[1..][..|a| - 1] == a[1..];
      PrefixBetween(a[1..], m[1..], c[1..]);
      assert m[..|a|] == [m[0]] + m[1..][..|a| - 1];
      assert a == [a[0]] + a[1..];
    }
  }

  /**
   * In a sorted list of distinct names, some name is a proper prefix of
   * another exactly when one is a prefix of its right neighbour, so the
   * adjacent test of `_validate_filter_dict` is enough.
   */
  lemma AdjacentSuffices(keys: seq<string>)
    requires SortedStrs(keys) && Distinct(keys)
    ensures Ambiguous(set k | k in keys) <==> exists j :: 0 <= j < |keys| - 1 && StartsWith(keys[j + 1], keys[j])
  {
    var s := set k | k in keys;
    if Ambiguous(s) {
      var a, b :| a in s && b in s && a != b && StartsWith(b, a);
      var i :| 0 <= i < |keys| && keys[i] == a;
      var k :| 0 <= k < |keys| && keys[k] == b;
      PrefixNeighbour(keys, i, k);
    }
    if exists j :: 0 <= j < |keys| - 1 && StartsWith(keys[j + 1], keys[j]) {
      var j :| 0 <= j < |keys| - 1 && StartsWith(keys[j + 1], keys[j]);
      assert keys[j] in s && keys[j + 1] in s && keys[j] != keys[j + 1];
    }
  }

  /** A name that is a proper prefix of a later one is a prefix of its right neighbour. */
  lemma PrefixNeighbour(keys: seq<string>, i: nat, k: nat)
    requires SortedStrs(keys) && i < |keys| && k < |keys|
    requires keys[i] != keys[k] && StartsWith(keys[k], keys[i])
    ensures i + 1 < |keys| && StartsWith(keys[i + 1], keys[i])
  {
    ProperPrefixLess(keys[i], keys[k]);
    assert i < k;
    if i + 1 < k {
      PrefixBetween(keys[i], keys[i + 1], keys[k]);
    }
  }

  /** A list without repeats holds each of its elements once. */
  lemma DistinctOnce(xs: seq<string>, k: nat)
    requires Distinct(xs) && k < |xs|
    ensures multiset(xs)[xs[k]] == 1
  {
    var x := xs[k];
    assert xs == xs[..k] + [x] + xs[k + 1..];
    assert x !in xs[..k];
    assert x !in xs[k + 1..];
  }

  /** A value at two positions of a list is in it at least twice. */
  lemma RepeatTwice(ys: seq<string>, i: nat, j: nat)
    requires i < j < |ys| && ys[i] == ys[j]
    ensures multiset(ys)[ys[i]] >= 2
  {
    var x := ys[i];
    assert ys == ys[..j] + [x] + ys[j + 1..];
    assert x in ys[..j];
  }

  /** The keys of a dictionary as a list, each once, in the order picked. */
  method Enumerate(keys: set<string>) returns (xs: seq<string>)
    ensures Distinct(xs)
    ensures (set k | k in xs) == keys
  {
    xs := [];
    var rest := keys;
    while rest != {}
      invariant rest <= keys && Distinct(xs)
      invariant (set k | k in xs) == keys - rest
      decreases |rest|
    {
      var key :| key in rest;
      assert key !in xs;
      assert (set k | k in xs + [key]) == (set k | k in xs) + {key};
      xs := xs + [key];
      rest := rest - {key};
    }
  }

  /** Sorting keeps the elements. */
  lemma SortedSameElements(xs: seq<string>)
    ensures (set k | k in SortStrs(xs)) == (set k | k in xs)
  {
    var keys := SortStrs(xs);
    forall k ensures k in keys <==> k in xs {
      assert k in keys <==> k in multiset(keys);
      assert k in xs <==> k in multiset(xs);
    }
  }

  /** The loop of `_apply_class_map`: every entry of `b` written over `a`, one key at a time. */
  method UpdateAll<V>(a: map<string, V>, b: map<string, V>) returns (d: map<string, V>)
    ensures d == a + b
  {
    d := a;
    var rest := b.Keys;
    while rest != {}
      invariant rest <= b.Keys
      invariant UpdatedWith(a, b, b.Keys - rest, d)
      decreases |rest|
    {
      var key :| key in rest;
      UpdateStep(a, b, b.Keys - rest, d, key);
      assert b.Keys - (rest - {key}) == (b.Keys - rest) + {key};
      d := d[key := b[key]];
      rest := rest - {key};
    }
    assert b.Keys - rest == b.Keys;
    MapUnionPointwise(a, b, d);
  }

  /** `d` is `a` with the entries of `b` for the keys in `done` written over it. */
  ghost predicate UpdatedWith<V>(a: map<string, V>, b: map<string, V>, done: set<string>, d: map<string, V>)
  {
    && done <= b.Keys
    && d.Keys == a.Keys + done
    && forall k :: k in d ==> d[k] == if k in done then b[k] else a[k]
  }

  lemma UpdateStep<V>(a: map<string, V>, b: map<string, V>, done: set<string>, d: map<string, V>, key: string)
    requires UpdatedWith(a, b, done, d) && key in b
    ensures UpdatedWith(a, b, done + {key}, d[key := b[key]])
  {
  }

  /** A dictionary that agrees pointwise with `a.update(b)` is `a.update(b)`. */
  lemma MapUnionPointwise<V>(a: map<string, V>, b: map<string, V>, c: map<string, V>)
    requires UpdatedWith(a, b, b.Keys, c)
    ensures c == a + b
  {
  }

  /** A sorted permutation of a list without repeats has none either. */
  lemma SortedDistinct(xs: seq<string>)
    requires Distinct(xs)
    ensures Distinct(SortStrs(xs))
  {
    var ys := SortStrs(xs);
    forall i, j | 0 <= i < j < |ys| ensures ys[i] != ys[j] {
      if ys[i] == ys[j] {
        RepeatTwice(ys, i, j);
        assert ys[i] in multiset(xs);
        var k :| 0 <= k < |xs| && xs[k] == ys[i];
        DistinctOnce(xs, k);
        assert false;
      }
    }
  }

  // =====================================================================
  // Reading the type off a filter's name

  /** The `_`-separated parts of the name with its number suffix removed. */
  function NameParts(name: string): (parts: seq<string>)
    ensures |parts| >= 1
  {
    Split(FilterUtils.StripNumberSuffix(name), '_')
  }

  /** The first j parts joined again with '_'. */
  function Candidate(parts: seq<string>, j: nat): string
    requires 1 <= j <= |parts|
  {
    Join(parts[..j], "_")
  }

  /**
   * The longest candidate of at most j parts that is registered: the
   * loop of `create_filter` tries j parts, j-1 parts, ... and stops at
   * the first registered one.
   */
  function LongestRegistered(parts: seq<string>, j: nat, keys: set<string>): (r: Option<string>)
    requires j <= |parts|
    ensures r.Some? ==> r.value in keys
    ensures r.Some? ==> exists i :: (1 <= i <= j && r.value == Candidate(parts, i) &&
      forall i' :: i < i' <= j ==> Candidate(parts, i') !in keys)
    ensures r.None? <==> forall i :: 1 <= i <= j ==> Candidate(parts, i) !in keys
    decreases j
  {
    if j == 0 then None
    else if Candidate(parts, j) in keys then Some(Candidate(parts, j))
    else LongestRegistered(parts, j - 1, keys)
  }

  /** A type read off a name is a prefix of that name. */
  lemma InferredIsPrefix(name: string, keys: set<string>)
    requires LongestRegistered(NameParts(name), |NameParts(name)|, keys).Some?
    ensures StartsWith(name, LongestRegistered(NameParts(name), |NameParts(name)|, keys).value)
  {
    var parts := NameParts(name);
    var t := LongestRegistered(parts, |parts|, keys).value;
    var i :| 1 <= i <= |parts| && t == Candidate(parts, i);
    JoinSplit(FilterUtils.StripNumberSuffix(name), '_');
    JoinPrefix(parts, i, "_");
  }

  // =====================================================================
  // create_filter as a function of the factory state

  /** What `create_filter` may be given: an ftype string or a parameter dictionary. */
  datatype Request = ByFtype(ftype: string) | ByParams(params: map<string, Value>)

  /** The keyword arguments a filter class is called with. */
  datatype Attr =
    | AClass(cls: ClassRef)
    /** the factory itself */
    | AFactory
    /** the `pipeline` argument (None or the calling pipeline) */
    | APipeline
    | AValue(v: Value)

  /** A filter ready to be made: its class, keyword arguments and name. */
  datatype Made = Made(cls: ClassRef, attrs: map<string, Attr>, name: string)

  /** The attributes of a filter made from a pypes-directory configuration. */
  function PypeAttrs(config: string): map<string, Attr>
  {
    map["_class" := AClass(PipelineForPypes), "config" := AValue(VStr(config))]
  }

  /**
   * The class lookup of `create_filter` for a parameter dictionary: the
   * dictionary with its `ftype` filled in and the starting attributes.
   */
  function ResolveParams(dict: map<string, ClassRef>, pypes: map<string, string>, pd: map<string, Value>):
    (r: Result<(map<string, Value>, map<string, Attr>)>)
    ensures r.Ok? ==> "_class" in r.value.1 && r.value.1["_class"].AClass?
    ensures r.Ok? ==> "ftype" in r.value.0 && r.value.0["ftype"].VStr?
    ensures r.Ok? ==> r.value.0 == pd["ftype" := r.value.0["ftype"]]
    ensures r.Ok? ==> r.value.1.Keys <= {"_class", "config"}
  {
    var ftypeOrName := if "ftype" in pd then pd["ftype"] else if "_name" in pd then pd["_name"] else VStr("");
    if !ftypeOrName.VStr? then Err(AttributeError)
    else if StartsWith(ftypeOrName.s, "pype_") then
      var ft := ftypeOrName.s[5..];
      if ft in pypes then Ok((pd["ftype" := VStr(ft)], PypeAttrs(pypes[ft]))) else Err(FilterNameError)
    else
      var ftr :=
        if "ftype" in pd then Ok(ftypeOrName.s)
        else if "_name" !in pd then Err(KeyError)
        else
          var parts := NameParts(ftypeOrName.s);
          match LongestRegistered(parts, |parts|, dict.Keys)
          case None => Err(FilterError)
          case Some(t) => Ok(t);
      match ftr
      case Err(e) => Err(e)
      case Ok(ft) =>
        var pd2 := pd["ftype" := VStr(ft)];
        if ft in dict then Ok((pd2, map["_class" := AClass(dict[ft])]))
        else if ft in pypes then Ok((pd2, PypeAttrs(pypes[ft])))
        else Err(FilterNameError)
  }

  /** The keyword arguments: the class entry, factory and pipeline, then the parameters over them. */
  function FilterAttrs(base: map<string, Attr>, pd: map<string, Value>): (a: map<string, Attr>)
    ensures a.Keys == base.Keys + {"factory", "pipeline"} + pd.Keys
    ensures forall k :: k in pd ==> a[k] == AValue(pd[k])
    ensures "factory" !in pd ==> a["factory"] == AFactory
  {
    base["factory" := AFactory]["pipeline" := APipeline] + map k | k in pd :: AValue(pd[k])
  }

  /**
   * The `name` property of the new filter: `_name` when it is truthy,
   * otherwise its `ftype` (always among the keyword arguments here);
   * `.lower()` on a name that is not a string raises AttributeError.
   */
  function NameOf(attrs: map<string, Attr>): (r: Result<string>)
    requires "ftype" in attrs
  {
    var n :=
      if "_name" in attrs && attrs["_name"].AValue? && Truthy(attrs["_name"].v) then attrs["_name"]
      else attrs["ftype"];
    if n.AValue? && n.v.VStr? then Ok(n.v.s) else Err(AttributeError)
  }

  /** The parameter dictionary `create_filter` works on for a request. */
  function ParamsOf(req: Request): map<string, Value>
  {
    match req
    case ByFtype(s) => map["ftype" := VStr(s)]
    case ByParams(pd) => pd
  }

  /** After the class lookup: the keyword arguments, the class called and the name check. */
  function Assemble(base: map<string, Attr>, pd: map<string, Value>): (r: Result<Made>)
    requires "ftype" in pd
    ensures r.Ok? ==> LowerStr(r.value.name) == r.value.name
    ensures r.Ok? ==> r.value.attrs == FilterAttrs(base, pd)
    ensures r.Ok? ==> "_class" in r.value.attrs && AClass(r.value.cls) == r.value.attrs["_class"]
  {
    var attrs := FilterAttrs(base, pd);
    if "_class" !in attrs || !attrs["_class"].AClass? then Err(TypeError)
    else
      match NameOf(attrs)
      case Err(e) => Err(e)
      case Ok(name) =>
        if LowerStr(name) != name then Err(FilterError)
        else Ok(Made(attrs["_class"].cls, attrs, name))
  }

  /**
   * create_filter for a factory in the given state: validation first (when
   * it has not succeeded before), then the class lookup, the keyword
   * arguments and the lower-case name check. An ftype string is handled as
   * the dictionary {ftype: string}.
   */
  function CreateSpec(validated: bool, dict: map<string, ClassRef>, pypes: map<string, string>, req: Request):
    (r: Result<Made>)
    ensures !validated && Ambiguous(dict.Keys) ==> r == Err(FilterFactoryError)
    ensures r.Ok? ==> LowerStr(r.value.name) == r.value.name
    ensures r.Ok? ==> forall k :: k in ParamsOf(req) && k != "ftype" ==>
      k in r.value.attrs && r.value.attrs[k] == AValue(ParamsOf(req)[k])
    ensures r.Ok? ==> "factory" in r.value.attrs && "pipeline" in r.value.attrs
    ensures r.Ok? && "factory" !in ParamsOf(req) ==> r.value.attrs["factory"] == AFactory
    ensures r.Ok? ==> r.value.attrs.Keys <= ParamsOf(req).Keys + MadeKeys
  {
    if !validated && Ambiguous(dict.Keys) then Err(FilterFactoryError)
    else
      match ResolveParams(dict, pypes, ParamsOf(req))
      case Err(e) => Err(e)
      case Ok((pd, base)) =>
        AttrsFromParams(ParamsOf(req), pd, base);
        Assemble(base, pd)
  }

  /** The keyword arguments create_filter adds to the parameters it is given. */
  const MadeKeys: set<string> := {"ftype", "_class", "config", "factory", "pipeline"}

  /** The keyword arguments carry every parameter but the (resolved) ftype, and the factory unless one is given. */
  lemma AttrsFromParams(params: map<string, Value>, pd: map<string, Value>, base: map<string, Attr>)
    requires "ftype" in pd && pd == params["ftype" := pd["ftype"]]
    requires base.Keys <= {"_class", "config"}
    ensures var a := FilterAttrs(base, pd);
      (forall k :: k in params && k != "ftype" ==> k in a && a[k] == AValue(params[k])) &&
      "factory" in a && "pipeline" in a && ("factory" !in params ==> a["factory"] == AFactory) &&
      a.Keys <= params.Keys + MadeKeys
  {
    forall k | k in params && k != "ftype"
      ensures k in pd && pd[k] == params[k]
    {
    }
  }

  /**
   * create_filter as written: the string form never reaches the code that
   * binds `filter_attrs`, so its first use raises NameError.
   */
  function CreateSpecAsWritten(validated: bool, dict: map<string, ClassRef>, pypes: map<string, string>, req: Request):
    (r: Result<Made>)
    ensures req.ByFtype? && (validated || !Ambiguous(dict.Keys)) ==> r == Err(NameError)
    ensures req.ByParams? ==> r == CreateSpec(validated, dict, pypes, req)
  {
    if !validated && Ambiguous(dict.Keys) then Err(FilterFactoryError)
    else if req.ByFtype? then Err(NameError)
    else CreateSpec(validated, dict, pypes, req)
  }

  /** An ftype string that names a registered class fails as written and makes that class corrected. */
  lemma FtypeStringRequest(dict: map<string, ClassRef>, pypes: map<string, string>, t: string)
    requires t in dict && !StartsWith(t, "pype_") && LowerStr(t) == t
    ensures CreateSpecAsWritten(true, dict, pypes, ByFtype(t)) == Err(NameError)
    ensures CreateSpec(true, dict, pypes, ByFtype(t)).Ok?
    ensures CreateSpec(true, dict, pypes, ByFtype(t)).value.cls == dict[t]
    ensures CreateSpec(true, dict, pypes, ByFtype(t)).value.name == t
  {
  }

  /** An explicit ftype decides the class, whatever the filter is called. */
  lemma ExplicitFtypeWins(dict: map<string, ClassRef>, pypes: map<string, string>, pd: map<string, Value>, t: string)
    requires "ftype" in pd && pd["ftype"] == VStr(t) && !StartsWith(t, "pype_") && t in dict
    ensures ResolveParams(dict, pypes, pd) == Ok((pd, map["_class" := AClass(dict[t])]))
  {
    assert pd["ftype" := VStr(t)] == pd;
  }

  /**
   * Without an ftype the class is the one registered under the longest
   * `_`-joined prefix of the name (number suffix removed); FilterError when
   * no prefix is registered.
   */
  lemma NameInference(dict: map<string, ClassRef>, pypes: map<string, string>, pd: map<string, Value>, name: string)
    requires "ftype" !in pd && "_name" in pd && pd["_name"] == VStr(name) && !StartsWith(name, "pype_")
    ensures var l := LongestRegistered(NameParts(name), |NameParts(name)|, dict.Keys);
      && (l.None? ==> ResolveParams(dict, pypes, pd) == Err(FilterError))
      && (l.Some? ==> ResolveParams(dict, pypes, pd) == Ok((pd["ftype" := VStr(l.value)], map["_class" := AClass(dict[l.value])])))
      && (l.Some? ==> StartsWith(name, l.value))
  {
    var l := LongestRegistered(NameParts(name), |NameParts(name)|, dict.Keys);
    if l.Some? {
      InferredIsPrefix(name, dict.Keys);
    }
  }

  /** A `pype_X` filter, and a type found in neither map, raise FilterNameError when pypes lacks it. */
  lemma PypesMisses(dict: map<string, ClassRef>, pypes: map<string, string>, pd: map<string, Value>, t: string)
    requires "ftype" in pd && pd["ftype"] == VStr(t)
    requires StartsWith(t, "pype_") ==> t[5..] !in pypes
    requires !StartsWith(t, "pype_") ==> t !in dict && t !in pypes
    ensures ResolveParams(dict, pypes, pd) == Err(FilterNameError)
  {
  }

  /** A `pype_X` filter is a PipelineForPypes with X's configuration, its ftype X. */
  lemma PypeFilter(dict: map<string, ClassRef>, pypes: map<string, string>, pd: map<string, Value>, t: string)
    requires "ftype" in pd && pd["ftype"] == VStr("pype_" + t) && t in pypes
    ensures ResolveParams(dict, pypes, pd) == Ok((pd["ftype" := VStr(t)], PypeAttrs(pypes[t])))
  {
    assert StartsWith("pype_" + t, "pype_");
    assert ("pype_" + t)[5..] == t;
  }

  /** A name with a capital letter is refused with FilterError once the class is found. */
  lemma UpperCaseNameRefused(base: map<string, Attr>, pd: map<string, Value>, name: string)
    requires "ftype" in pd && "_name" in pd && pd["_name"] == VStr(name) && "_class" !in pd
    requires "_class" in base && base["_class"].AClass?
    requires exists i :: 0 <= i < |name| && IsUpper(name[i])
    ensures Assemble(base, pd) == Err(FilterError)
  {
    var i :| 0 <= i < |name| && IsUpper(name[i]);
    assert LowerStr(name)[i] != name[i];
    assert Truthy(VStr(name));
  }

  // =====================================================================
  // The factory object

  /** The `essentials` every factory starts with. */
  const BaseEssentials: map<string, Value> := map["comparison" := VStr("equals")]

  class FilterFactory {
    /** `factory_dict` reduced to the class of each entry (`{_class: cls}`) */
    var factoryDict: map<string, ClassRef>
    /** `pypes`: ftype to pipeline configuration, read from the pypes directory */
    var pypes: map<string, string>
    var essentials: map<string, Value>
    /** `_filter_dict_validated` */
    var validated: bool

    /** FilterFactory.__init__ for a concrete factory class. */
    constructor(pypes: map<string, string>)
      ensures factoryDict == BaseClassMap && this.pypes == pypes
      ensures essentials == BaseEssentials && !validated
    {
      factoryDict := BaseClassMap;
      this.pypes := pypes;
      essentials := BaseEssentials;
      validated := false;
    }

    /** `_apply_class_map`: register each class under its type name, replacing any earlier entry. */
    method ApplyClassMap(classMap: map<string, ClassRef>)
      modifies this
      ensures factoryDict == old(factoryDict) + classMap
      ensures pypes == old(pypes) && essentials == old(essentials) && validated == old(validated)
    {
      var d := UpdateAll(factoryDict, classMap);
      factoryDict := d;
    }

    /** `sorted(self.factory_dict.iterkeys())` */
    method SortedKeys() returns (keys: seq<string>)
      ensures SortedStrs(keys) && Distinct(keys)
      ensures (set k | k in keys) == factoryDict.Keys
    {
      var xs := Enumerate(factoryDict.Keys);
      keys := SortStrs(xs);
      SortedDistinct(xs);
      SortedSameElements(xs);
    }

    /**
     * `_validate_filter_dict`: FilterFactoryError exactly when some type
     * name is a proper prefix of another; success marks the dictionary
     * validated.
     */
    method ValidateFilterDict() returns (r: Result<()>)
      modifies this
      ensures r.Err? <==> Ambiguous(factoryDict.Keys)
      ensures r.Err? ==> r.error == FilterFactoryError
      ensures validated == (old(validated) || r.Ok?)
      ensures factoryDict == old(factoryDict) && pypes == old(pypes) && essentials == old(essentials)
    {
      var keys := SortedKeys();
      AdjacentSuffices(keys);
      var j := 0;
      while j < |keys| - 1
        invariant 0 <= j <= |keys|
        invariant forall i :: 0 <= i < j && i < |keys| - 1 ==> !StartsWith(keys[i + 1], keys[i])
      {
        if StartsWith(keys[j + 1], keys[j]) {
          return Err(FilterFactoryError);
        }
        j := j + 1;
      }
      validated := true;
      r := Ok(());
    }

    /** The type read off a name: the name-inference loop of `create_filter`. */
    method InferFtype(name: string) returns (r: Option<string>)
      ensures r == LongestRegistered(NameParts(name), |NameParts(name)|, factoryDict.Keys)
    {
      var shortName := FilterUtils.StripNumberSuffix(name);
      var parts := Split(shortName, '_');
      var j := |parts|;
      while j > 0
        invariant 0 <= j <= |parts|
        invariant LongestRegistered(parts, |parts|, factoryDict.Keys) == LongestRegistered(parts, j, factoryDict.Keys)
      {
        var ftype := Join(parts[..j], "_");
        if ftype in factoryDict {
          return Some(ftype);
        }
        j := j - 1;
      }
      return None;
    }

    /**
     * `create_filter`: validate once, find the class for the request and
     * assemble the filter's keyword arguments; the outcome is CreateSpec of
     * the state the factory was in.
     */
    method CreateFilter(req: Request) returns (r: Result<Made>)
      modifies this
      ensures r == CreateSpec(old(validated), old(factoryDict), old(pypes), req)
      ensures validated == (old(validated) || !Ambiguous(old(factoryDict).Keys))
      ensures factoryDict == old(factoryDict) && pypes == old(pypes) && essentials == old(essentials)
    {
      if !validated {
        var v := ValidateFilterDict();
        if v.Err? {
          return Err(v.error);
        }
      }
      var pd := ParamsOf(req);
      var ftypeOrName := if "ftype" in pd then pd["ftype"] else if "_name" in pd then pd["_name"] else VStr("");
      if !ftypeOrName.VStr? {
        return Err(AttributeError);
      }
      var base: map<string, Attr>;
      if StartsWith(ftypeOrName.s, "pype_") {
        var ftype := ftypeOrName.s[5..];
        pd := pd["ftype" := VStr(ftype)];
        if ftype !in pypes {
          return Err(FilterNameError);
        }
        base := PypeAttrs(pypes[ftype]);
      } else {
        var ftype: string;
        if "ftype" in pd {
          ftype := ftypeOrName.s;
        } else if "_name" !in pd {
          return Err(KeyError);
        } else {
          var inferred := InferFtype(ftypeOrName.s);
          if inferred.None? {
            return Err(FilterError);
          }
          ftype := inferred.value;
        }
        pd := pd["ftype" := VStr(ftype)];
        if ftype in factoryDict {
          base := map["_class" := AClass(factoryDict[ftype])];
        } else if ftype in pypes {
          base := PypeAttrs(pypes[ftype]);
        } else {
          return Err(FilterNameError);
        }
      }
      r := Assemble(base, pd);
    }
  }

  /** FilterFactory(): an abstract factory class raises NotImplementedError. */
  method NewFactory(isAbstract: bool, pypes: map<string, string>) returns (r: Result<FilterFactory>)
    ensures isAbstract <==> r.Err?
    ensures r.Err? ==> r.error == NotImplementedError
    ensures r.Ok? ==> fresh(r.value) && r.value.factoryDict == BaseClassMap && r.value.pypes == pypes
    ensures r.Ok? ==> r.value.essentials == BaseEssentials && !r.value.validated
  {
    var f := new FilterFactory(pypes);
    if isAbstract {
      return Err(NotImplementedError);
    }
    return Ok(f);
  }

  /** DemoFilterFactory(), with its class map as corrected: the base classes plus the demo ones. */
  method NewDemoFactory(pypes: map<string, string>) returns (f: FilterFactory)
    ensures fresh(f)
    ensures f.factoryDict == BaseClassMap + DemoClassMap
    ensures f.factoryDict["reverse_string"] == ClassRef("df", "ReverseString")
    ensures f.pypes == pypes && f.essentials == BaseEssentials && !f.validated
  {
    f := new FilterFactory(pypes);
    f.ApplyClassMap(DemoClassMap);
    DemoKeepsReverseString();
  }

  // =====================================================================
  // The made stage's route values

  /**
   * The keyword arguments of a made filter that are plain values: what its
   * instance dictionary holds besides the class, the factory and the
   * pipeline, which the stage model does not carry as values.
   */
  function ValueArgs(attrs: map<string, Attr>): (kw: map<string, Value>)
    ensures kw.Keys == set k | k in attrs && attrs[k].AValue?
    ensures forall k :: k in kw ==> attrs[k] == AValue(kw[k])
  {
    map k | k in attrs && attrs[k].AValue? :: attrs[k].v
  }

  /** The `_key_values` of a parameter dictionary are the made filter's. */
  lemma RouteValuesPassed(validated: bool, dict: map<string, ClassRef>, pypes: map<string, string>,
                          pd: map<string, Value>)
    requires CreateSpec(validated, dict, pypes, ByParams(pd)).Ok?
    ensures StageKeys.RouteValues(ValueArgs(CreateSpec(validated, dict, pypes, ByParams(pd)).value.attrs)) ==
            StageKeys.RouteValues(pd)
  {
    RouteValuesKept(CreateSpec(validated, dict, pypes, ByParams(pd)).value.attrs, pd);
  }

  lemma RouteValuesKept(attrs: map<string, Attr>, params: map<string, Value>)
    requires forall k :: k in params && k != "ftype" ==> k in attrs && attrs[k] == AValue(params[k])
    requires attrs.Keys <= params.Keys + MadeKeys
    ensures StageKeys.RouteValues(ValueArgs(attrs)) == StageKeys.RouteValues(params)
  {
    if "_key_values" in params {
      assert attrs["_key_values"] == AValue(params["_key_values"]);
    } else {
      assert "_key_values" !in attrs;
    }
  }

  /**
   * create_filter for a parameter dictionary, then the first set-up phase
   * of the new stage (_extract_defaults_from_keys, then _set_key_values):
   * the route's `:` values the dictionary carries as `_key_values` reach
   * the stage and are bound, in order, to the keys of its class `cls`.
   */
  method MakeAndBind(validated: bool, dict: map<string, ClassRef>, pypes: map<string, string>,
                     pd: map<string, Value>, cls: StageKeys.ClassDef)
    returns (r: Result<StageKeys.Stage>, bound: Option<PyError>)
    ensures CreateSpec(validated, dict, pypes, ByParams(pd)).Err? ==>
      r == Err(CreateSpec(validated, dict, pypes, ByParams(pd)).error) && bound.None?
    ensures CreateSpec(validated, dict, pypes, ByParams(pd)).Ok? ==>
      r.Ok? && r.value.keyValues == StageKeys.RouteValues(pd)
    ensures CreateSpec(validated, dict, pypes, ByParams(pd)).Ok? ==>
      r.Ok? && (r.value.attrs, bound) ==
        StageKeys.KeyValuesRun(ValueArgs(CreateSpec(validated, dict, pypes, ByParams(pd)).value.attrs),
                               StageKeys.BareKeys(StageKeys.AllKeys(cls)), StageKeys.RouteValues(pd))
  {
    var spec := CreateSpec(validated, dict, pypes, ByParams(pd));
    if spec.Err? {
      return Err(spec.error), None;
    }
    var kw := ValueArgs(spec.value.attrs);
    RouteValuesPassed(validated, dict, pypes, pd);
    var ftype := if "ftype" in kw && kw["ftype"].VStr? then Some(kw["ftype"].s) else None;
    var stage := new StageKeys.Stage(cls, ftype, kw);
    stage.ExtractDefaultsFromKeys();
    bound := stage.SetKeyValues();
    r := Ok(stage);
  }

  /**
   * A route value such as `batch:66` reaches the made stage: the stage's
   * first key, when the parameters do not set it already, takes the value.
   */
  method RouteValueBinds(validated: bool, dict: map<string, ClassRef>, pypes: map<string, string>,
                         pd: map<string, Value>, cls: StageKeys.ClassDef, v: Value)
    returns (r: Result<StageKeys.Stage>, bound: Option<PyError>)
    requires "_key_values" in pd && pd["_key_values"] == VList([v])
    requires |StageKeys.AllKeys(cls)| > 0
    requires CreateSpec(validated, dict, pypes, ByParams(pd)).Ok?
    requires StageKeys.BareKeys(StageKeys.AllKeys(cls))[0] !in
      ValueArgs(CreateSpec(validated, dict, pypes, ByParams(pd)).value.attrs)
    ensures r.Ok? && bound.None?
    ensures var key := StageKeys.BareKeys(StageKeys.AllKeys(cls))[0];
      key in r.value.attrs && r.value.attrs[key] == v
  {
    r, bound := MakeAndBind(validated, dict, pypes, pd, cls);
    ghost var kw := ValueArgs(CreateSpec(validated, dict, pypes, ByParams(pd)).value.attrs);
    ghost var keys := StageKeys.BareKeys(StageKeys.AllKeys(cls));
    assert StageKeys.RouteValues(pd) == [v];
    OneValueBinds(kw, keys, v);
  }

  /** One route value and a first key not yet set: the key takes the value. */
  lemma OneValueBinds(kw: map<string, Value>, keys: seq<string>, v: Value)
    requires |keys| > 0 && keys[0] !in kw
    ensures StageKeys.KeyValuesRun(kw, keys, [v]) == (kw[keys[0] := v], None)
  {
    assert [v][1..] == [];
  }
}
