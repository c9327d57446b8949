/**
 * How a stage (DataFilterBase in data_fltr_base.py) collects its keys and
 * fills in their values: the class hierarchy's `keys`, the defaults written
 * as `key:value`, the values given positionally in the route, the factory's
 * essentials, `${name}` substitutions from the parent pipeline, and the
 * final validation.
 */
module StageKeys {
  import opened Errors
  import opened Strings
  import opened Values
  import opened FilterUtils

  // =====================================================================
  // _all_keys

  /**
   * A stage class: the `keys` list declared in its own body (None when the
   * class declares none) and its base classes other than `object`.
   */
  datatype ClassDef = ClassDef(name: string, keys: Option<seq<string>>, bases: seq<ClassDef>)

  function OwnKeys(c: ClassDef): seq<string>
  {
    if c.keys.Some? then c.keys.value else []
  }

  /** `for _class in bases: these = _class._all_keys() + these` */
  function PrependEach(lists: seq<seq<string>>, these: seq<string>): (r: seq<string>)
    decreases |lists|
  {
    if lists == [] then these else PrependEach(lists[1..], lists[0] + these)
  }

  /** The bare list of keys before latest_defaults: later bases first, own keys last. */
  function GatheredKeys(c: ClassDef): seq<string>
    decreases c, 0
  {
    var baseKeys := seq(|c.bases|, i requires 0 <= i < |c.bases| => AllKeys(c.bases[i]));
    PrependEach(baseKeys, OwnKeys(c))
  }

  /** _all_keys(): the gathered keys, each bare key once, carrying its latest default. */
  function AllKeys(c: ClassDef): (r: seq<string>)
    decreases c, 1
  {
    LatestDefaultsOf(GatheredKeys(c))
  }

  /** `lists` concatenated last-first. */
  function ConcatReversed(lists: seq<seq<string>>): (r: seq<string>)
    decreases |lists|
  {
    if lists == [] then [] else ConcatReversed(lists[1..]) + lists[0]
  }

  lemma {:induction false} PrependEachReversed(lists: seq<seq<string>>, these: seq<string>)
    ensures PrependEach(lists, these) == ConcatReversed(lists) + these
    decreases |lists|
  {
    if lists != [] {
      PrependEachReversed(lists[1..], lists[0] + these);
      ConcatAssoc(ConcatReversed(lists[1..]), lists[0], these);
    }
  }

  /**
   * The keys of a class with two bases: the second base's keys, then the
   * first's, then the class's own, merged by latest_defaults.
   */
  lemma AllKeysTwoBases(name: string, own: Option<seq<string>>, b1: ClassDef, b2: ClassDef)
    ensures AllKeys(ClassDef(name, own, [b1, b2])) ==
            LatestDefaultsOf(AllKeys(b2) + AllKeys(b1) + (if own.Some? then own.value else []))
  {
    var c := ClassDef(name, own, [b1, b2]);
    var baseKeys := seq(|c.bases|, i requires 0 <= i < |c.bases| => AllKeys(c.bases[i]));
    assert baseKeys == [AllKeys(b1), AllKeys(b2)];
    PrependEachReversed(baseKeys, OwnKeys(c));
    assert ConcatReversed(baseKeys) == AllKeys(b2) + AllKeys(b1) by {
      assert baseKeys[1..] == [AllKeys(b2)];
      assert baseKeys[1..][1..] == [];
      assert ConcatReversed([AllKeys(b2)]) == AllKeys(b2) by {
        assert [AllKeys(b2)][1..] == [];
        assert ConcatReversed([AllKeys(b2)]) == ConcatReversed([]) + AllKeys(b2);
      }
    }
  }

  /**
   * Every key a base class declares appears in the subclass's keys, once,
   * by its bare name.
   */
  lemma BaseKeysInherited(c: ClassDef, i: nat, k: string)
    requires i < |c.bases| && k in AllKeys(c.bases[i])
    ensures BareKey(k) in Firsts(GatheredKeys(c))
    ensures exists j :: 0 <= j < |AllKeys(c)| && BareKey(AllKeys(c)[j]) == BareKey(k)
  {
    var baseKeys := seq(|c.bases|, j requires 0 <= j < |c.bases| => AllKeys(c.bases[j]));
    PrependEachReversed(baseKeys, OwnKeys(c));
    ReversedHolds(baseKeys, i, k);
    var g := GatheredKeys(c);
    assert k in g;
    var j :| 0 <= j < |g| && g[j] == k;
    LatestDefaultsSpec(g);
    var f := Firsts(g);
    var t :| 0 <= t < |f| && f[t] == BareKey(k);
    assert BareKey(AllKeys(c)[t]) == BareKey(k);
  }

  lemma {:induction false} ReversedHolds(lists: seq<seq<string>>, i: nat, k: string)
    requires i < |lists| && k in lists[i]
    ensures k in ConcatReversed(lists)
    decreases |lists|
  {
    if i > 0 {
      ReversedHolds(lists[1..], i - 1, k);
    }
  }

  // =====================================================================
  // _extract_defaults_from_keys

  /** dict(zip(keys_that_have_vals, vals)): later entries overwrite earlier ones. */
  function DefaultsOf(configKeys: seq<string>): (d: map<string, Value>)
    ensures forall b :: b in d <==> LastDefault(configKeys, b).Some?
    ensures forall b :: b in d ==> d[b] == ConvertConfigStr(VStr(LastDefault(configKeys, b).value))
    decreases |configKeys|
  {
    if configKeys == [] then map[]
    else
      var pre := configKeys[..|configKeys| - 1];
      var k := configKeys[|configKeys| - 1];
      var d := DefaultsOf(pre);
      if ':' in k then d[BareKey(k) := ConvertConfigStr(VStr(KeyDefault(k)))] else d
  }

  function BareKeys(configKeys: seq<string>): (ks: seq<string>)
    ensures |ks| == |configKeys|
    ensures forall i :: 0 <= i < |ks| ==> ks[i] == BareKey(configKeys[i])
  {
    seq(|configKeys|, i requires 0 <= i < |configKeys| => BareKey(configKeys[i]))
  }

  // =====================================================================
  // _set_key_values

  /** The placeholder value a key may hold until a real value is given. */
  const KUnset: string := "$$<unset>$$"

  /** `[A-Z][A-Z0-9_]+` after the '%' */
  predicate IsCapsParam(s: string)
  {
    |s| >= 3 && s[0] == '%' && IsUpper(s[1]) &&
    forall i :: 2 <= i < |s| ==> IsUpper(s[i]) || IsDigit(s[i]) || s[i] == '_'
  }

  /**
   * re_caps_params_with_percent.match: `^%[A-Z][A-Z0-9_]+$`; Python's `$`
   * also matches just before a final newline.
   */
  predicate UcPercent(v: Value)
  {
    v.VStr? &&
    (IsCapsParam(v.s) || (|v.s| > 0 && v.s[|v.s| - 1] == '\n' && IsCapsParam(v.s[..|v.s| - 1])))
  }

  /** The value already held may not be replaced by a different one. */
  predicate Conflict(held: Value, v: Value)
  {
    !PyEq(held, VStr(KUnset)) && !PyEq(held, v) && !UcPercent(v)
  }

  /**
   * The attributes after `_set_key_values` has walked the (key, value)
   * pairs, and the error it stopped at, if any: an absent key is set, a
   * present one is left alone unless its value conflicts.
   */
  function KeyValuesRun(attrs: map<string, Value>, keys: seq<string>, vals: seq<Value>)
    : (r: (map<string, Value>, Option<PyError>))
    ensures attrs.Keys <= r.0.Keys
    ensures forall k :: k in attrs ==> r.0[k] == attrs[k]
    ensures r.1.Some? ==> r.1.value == FilterAttributeError
    decreases |keys|
  {
    if keys == [] || vals == [] then (attrs, None)
    else
      var k := keys[0];
      if k in attrs then
        if Conflict(attrs[k], vals[0]) then (attrs, Some(FilterAttributeError))
        else KeyValuesRun(attrs, keys[1..], vals[1..])
      else KeyValuesRun(attrs[k := vals[0]], keys[1..], vals[1..])
  }

  /**
   * The `_key_values` a stage holds after its keyword arguments are copied
   * in: the list given as `_key_values`, or the empty list it starts with.
   */
  function RouteValues(kwargs: map<string, Value>): (vs: seq<Value>)
  {
    if "_key_values" in kwargs && kwargs["_key_values"].VList? then kwargs["_key_values"].items else []
  }

  predicate Distinct(ks: seq<string>)
  {
    forall i, j :: 0 <= i < j < |ks| ==> ks[i] != ks[j]
  }

  function Min(a: nat, b: nat): nat { if a < b then a else b }

  /**
   * With distinct keys, _set_key_values fails exactly when some key already
   * held a value that its route value conflicts with.
   */
  lemma {:induction false} KeyValuesFail(attrs: map<string, Value>, keys: seq<string>, vals: seq<Value>)
    requires Distinct(keys)
    ensures KeyValuesRun(attrs, keys, vals).1.Some? <==>
            exists i :: 0 <= i < Min(|keys|, |vals|) && keys[i] in attrs && Conflict(attrs[keys[i]], vals[i])
    decreases |keys|
  {
    if keys != [] && vals != [] {
      var k, ks, vs := keys[0], keys[1..], vals[1..];
      var a2 := if k in attrs then attrs else attrs[k := vals[0]];
      assert Distinct(ks);
      KeyValuesFail(a2, ks, vs);
      if k in attrs && Conflict(attrs[k], vals[0]) {
        assert keys[0] in attrs && Conflict(attrs[keys[0]], vals[0]);
      } else {
        assert KeyValuesRun(attrs, keys, vals) == KeyValuesRun(a2, ks, vs);
        FailureShifts(attrs, a2, keys, vals);
      }
    }
  }

  /** Past a first pair that does not fail, a later conflict is the same in the old and the updated attributes. */
  lemma FailureShifts(attrs: map<string, Value>, a2: map<string, Value>, keys: seq<string>, vals: seq<Value>)
    requires keys != [] && vals != [] && Distinct(keys)
    requires a2 == if keys[0] in attrs then attrs else attrs[keys[0] := vals[0]]
    requires !(keys[0] in attrs && Conflict(attrs[keys[0]], vals[0]))
    ensures (exists i :: 0 <= i < Min(|keys[1..]|, |vals[1..]|) && keys[1..][i] in a2 && Conflict(a2[keys[1..][i]], vals[1..][i])) <==>
            (exists i :: 0 <= i < Min(|keys|, |vals|) && keys[i] in attrs && Conflict(attrs[keys[i]], vals[i]))
  {
    var ks, vs := keys[1..], vals[1..];
    if exists i :: 0 <= i < Min(|keys|, |vals|) && keys[i] in attrs && Conflict(attrs[keys[i]], vals[i]) {
      var i :| 0 <= i < Min(|keys|, |vals|) && keys[i] in attrs && Conflict(attrs[keys[i]], vals[i]);
      assert i > 0 && keys[i] != keys[0];
      assert ks[i - 1] == keys[i] && vs[i - 1] == vals[i];
    }
    if exists i :: 0 <= i < Min(|ks|, |vs|) && ks[i] in a2 && Conflict(a2[ks[i]], vs[i]) {
      var i :| 0 <= i < Min(|ks|, |vs|) && ks[i] in a2 && Conflict(a2[ks[i]], vs[i]);
      assert ks[i] == keys[i + 1] && vs[i] == vals[i + 1] && keys[i + 1] != keys[0];
    }
  }

  /**
   * When it succeeds, every paired key is set: to its route value if it was
   * absent, to its old value otherwise; keys not paired are unchanged.
   */
  lemma {:induction false} KeyValuesSet(attrs: map<string, Value>, keys: seq<string>, vals: seq<Value>)
    requires Distinct(keys)
    requires KeyValuesRun(attrs, keys, vals).1.None?
    ensures var m := KeyValuesRun(attrs, keys, vals).0;
      (forall i :: 0 <= i < Min(|keys|, |vals|) ==>
         keys[i] in m && m[keys[i]] == (if keys[i] in attrs then attrs[keys[i]] else vals[i])) &&
      (forall k :: k in m && k !in attrs ==> exists i :: 0 <= i < Min(|keys|, |vals|) && keys[i] == k)
    decreases |keys|
  {
    if keys != [] && vals != [] {
      var k := keys[0];
      var a2 := if k in attrs then attrs else attrs[k := vals[0]];
      assert Distinct(keys[1..]);
      KeyValuesSet(a2, keys[1..], vals[1..]);
      var m := KeyValuesRun(attrs, keys, vals).0;
      assert m == KeyValuesRun(a2, keys[1..], vals[1..]).0;
      forall i | 0 <= i < Min(|keys|, |vals|)
        ensures keys[i] in m && m[keys[i]] == (if keys[i] in attrs then attrs[keys[i]] else vals[i])
      {
        if i > 0 {
          assert keys[1..][i - 1] == keys[i] && vals[1..][i - 1] == vals[i];
          assert keys[i] != k;
        }
      }
      forall k' | k' in m && k' !in attrs
        ensures exists i :: 0 <= i < Min(|keys|, |vals|) && keys[i] == k'
      {
        if k' != k {
          var i :| 0 <= i < Min(|keys| - 1, |vals| - 1) && keys[1..][i] == k';
          assert keys[i + 1] == k';
        }
      }
    }
  }

  /** A key written twice in the route with the same value is accepted (one stage parsed twice). */
  lemma SameValueTwice(attrs: map<string, Value>, k: string, v: Value)
    requires k !in attrs
    ensures KeyValuesRun(attrs, [k, k], [v, v]) == (attrs[k := v], None)
  {
    assert [k, k][1..] == [k] && [k][1..] == [];
    assert [v, v][1..] == [v] && [v][1..] == [];
    assert !Conflict(v, v);
    assert KeyValuesRun(attrs[k := v], [k], [v]) == KeyValuesRun(attrs[k := v], [], []);
  }

  // =====================================================================
  // _update_substitutions

  /** A `${name}` value names the parent pipeline attribute to read. */
  predicate IsSubstitution(v: Value)
  {
    v.VStr? && |v.s| >= 3 && StartsWith(v.s, "${") && EndsWith(v.s, "}")
  }

  function SubstName(v: Value): (n: string)
    requires IsSubstitution(v)
    ensures v.s == "${" + n + "}"
  {
    v.s[2..|v.s| - 1]
  }

  /**
   * The walk of _update_substitutions over the keys: each key present whose
   * value is `${x}` takes the pipeline's attribute x; a missing attribute
   * raises FilterAttributeError, leaving the keys done so far replaced.
   */
  function SubstitutionsRun(attrs: map<string, Value>, keys: seq<string>, pipeline: map<string, Value>)
    : (r: (map<string, Value>, Option<PyError>))
    ensures r.0.Keys == attrs.Keys
    ensures r.1.Some? ==> r.1.value == FilterAttributeError
    decreases |keys|
  {
    if keys == [] then (attrs, None)
    else
      var k := keys[0];
      if k in attrs && IsSubstitution(attrs[k]) then
        var n := SubstName(attrs[k]);
        if n in pipeline then SubstitutionsRun(attrs[k := pipeline[n]], keys[1..], pipeline)
        else (attrs, Some(FilterAttributeError))
      else SubstitutionsRun(attrs, keys[1..], pipeline)
  }

  /**
   * With distinct keys and every substitution resolvable, each `${x}` key
   * ends up holding the pipeline's x and every other attribute is kept.
   */
  lemma {:induction false} SubstitutionsResolve(attrs: map<string, Value>, keys: seq<string>,
                                                pipeline: map<string, Value>)
    requires Distinct(keys)
    requires forall k :: k in keys && k in attrs && IsSubstitution(attrs[k]) ==> SubstName(attrs[k]) in pipeline
    ensures SubstitutionsRun(attrs, keys, pipeline).1.None?
    ensures var m := SubstitutionsRun(attrs, keys, pipeline).0;
      forall k :: k in attrs ==>
        m[k] == (if k in keys && IsSubstitution(attrs[k]) then pipeline[SubstName(attrs[k])] else attrs[k])
    decreases |keys|
  {
    if keys != [] {
      var k := keys[0];
      var a2 := if k in attrs && IsSubstitution(attrs[k]) then attrs[k := pipeline[SubstName(attrs[k])]] else attrs;
      assert Distinct(keys[1..]);
      forall k' | k' in keys[1..] && k' in a2 && IsSubstitution(a2[k'])
        ensures SubstName(a2[k']) in pipeline
      {
        assert k' != k;
      }
      SubstitutionsResolve(a2, keys[1..], pipeline);
      forall k' | k' in attrs
        ensures SubstitutionsRun(attrs, keys, pipeline).0[k'] ==
          (if k' in keys && IsSubstitution(attrs[k']) then pipeline[SubstName(attrs[k'])] else attrs[k'])
      {
        if k' != k {
          assert k' in keys <==> k' in keys[1..];
        } else {
          assert k !in keys[1..];
        }
      }
    }
  }

  // =====================================================================
  // _validate

  /** Attributes every stage may hold beyond its keys. */
  const StandardKeys: seq<string> :=
    ["_class", "_key_values", "_name", "factory", "ftype", "pipeline", "dynamic", "update_live",
     "results_callback"]

  /** The stage instance: its attribute dictionary and the key bookkeeping. */
  class Stage {
    /** the instance __dict__ as far as keys and keyword arguments go */
    var attrs: map<string, Value>
    /** the class's `ftype` (None when the class has none) */
    var ftype: Option<string>
    /** `_config_keys`: _all_keys() of the class */
    var configKeys: seq<string>
    /** `_keys`: the bare key names */
    var keys: seq<string>
    /** `_key_values`: values given positionally in the route, e.g. batch:66 */
    var keyValues: seq<Value>
    /** `_defaults` */
    var defaults: map<string, Value>
    /** the names of the keyword arguments the stage was made with (filter_attrs) */
    var filterAttrs: set<string>
    var primed: bool

    /**
     * DataFilterBase.__init__ for a stage made inside a pipeline: the keyword
     * arguments become attributes, the config keys come from the class.
     * `_key_values` starts empty and the keyword arguments are copied in
     * after it, so a `_key_values` argument (the route's `:` values, which a
     * pipeline always passes) replaces the empty list.
     */
    constructor(cls: ClassDef, ftype: Option<string>, kwargs: map<string, Value>)
      ensures attrs == kwargs && filterAttrs == kwargs.Keys
      ensures configKeys == AllKeys(cls) && this.ftype == ftype
      ensures keyValues == RouteValues(kwargs)
      ensures keys == [] && defaults == map[] && !primed
    {
      attrs := kwargs;
      this.ftype := ftype;
      configKeys := AllKeys(cls);
      keys := [];
      keyValues := [];
      if "_key_values" in kwargs && kwargs["_key_values"].VList? {
        keyValues := kwargs["_key_values"].items;
      }
      defaults := map[];
      filterAttrs := kwargs.Keys;
      primed := false;
    }

    /**
     * _extract_defaults_from_keys: `_keys` are the bare names, `_defaults`
     * maps each name written with ':' to the converted text of its (last)
     * default.
     */
    method ExtractDefaultsFromKeys()
      modifies this
      ensures keys == BareKeys(configKeys)
      ensures defaults == DefaultsOf(configKeys)
      ensures attrs == old(attrs)
      ensures configKeys == old(configKeys)
      ensures keyValues == old(keyValues)
      ensures ftype == old(ftype) && filterAttrs == old(filterAttrs) && primed == old(primed)
    {
      var ck := configKeys;
      var bare: seq<string> := [];
      var d: map<string, Value> := map[];
      var i := 0;
      while i < |ck|
        invariant i <= |ck|
        invariant bare == BareKeys(ck[..i]) && d == DefaultsOf(ck[..i])
        invariant configKeys == ck && unchanged(this)
      {
        var k := ck[i];
        ExtractStep(ck, i);
        bare := bare + [BareKey(k)];
        if ':' in k {
          d := d[BareKey(k) := ConvertConfigStr(VStr(KeyDefault(k)))];
        }
        i := i + 1;
      }
      assert ck[..i] == ck;
      assert bare == BareKeys(ck);
      keys := bare;
      defaults := d;
    }

    /** _set_key_values: walks the (key, route value) pairs; see KeyValuesRun. */
    method SetKeyValues() returns (r: Option<PyError>)
      modifies this
      ensures (attrs, r) == KeyValuesRun(old(attrs), keys, keyValues)
      ensures keys == old(keys) && keyValues == old(keyValues) && defaults == old(defaults)
      ensures ftype == old(ftype) && configKeys == old(configKeys)
      ensures filterAttrs == old(filterAttrs) && primed == old(primed)
    {
      r := None;
      if keyValues == [] {
        return;
      }
      var a := attrs;
      var i := 0;
      var n := Min(|keys|, |keyValues|);
      while i < n
        invariant i <= n
        invariant KeyValuesRun(old(attrs), keys, keyValues) == KeyValuesRun(a, keys[i..], keyValues[i..])
      {
        var key, value := keys[i], keyValues[i];
        assert keys[i..][1..] == keys[i + 1..] && keyValues[i..][1..] == keyValues[i + 1..];
        if key in a {
          if Conflict(a[key], value) {
            attrs := a;
            return Some(FilterAttributeError);
          }
        } else {
          a := a[key := value];
        }
        i := i + 1;
      }
      attrs := a;
    }

    /** _set_defaults: each default fills its key only when the key is not set. */
    method SetDefaults()
      modifies this
      ensures attrs.Keys == old(attrs).Keys + defaults.Keys
      ensures forall k :: k in old(attrs) ==> attrs[k] == old(attrs)[k]
      ensures forall k :: k in defaults && k !in old(attrs) ==> attrs[k] == defaults[k]
      ensures keys == old(keys) && keyValues == old(keyValues) && defaults == old(defaults)
      ensures ftype == old(ftype) && configKeys == old(configKeys)
      ensures filterAttrs == old(filterAttrs) && primed == old(primed)
    {
      attrs := map k | k in attrs.Keys + defaults.Keys :: if k in attrs then attrs[k] else defaults[k];
    }

    /**
     * _update_from_factory: with a factory, each key still unset that the
     * factory lists among its essentials takes the essential value.
     */
    method UpdateFromFactory(essentials: Option<map<string, Value>>)
      modifies this
      ensures essentials.None? ==> attrs == old(attrs)
      ensures essentials.Some? ==>
        attrs.Keys == old(attrs).Keys + (set k | k in keys && k in essentials.value) &&
        (forall k :: k in old(attrs) ==> attrs[k] == old(attrs)[k]) &&
        (forall k :: k in keys && k in essentials.value && k !in old(attrs) ==> attrs[k] == essentials.value[k])
      ensures keys == old(keys) && keyValues == old(keyValues) && defaults == old(defaults)
      ensures ftype == old(ftype) && configKeys == old(configKeys)
      ensures filterAttrs == old(filterAttrs) && primed == old(primed)
    {
      if essentials.None? {
        return;
      }
      var ess := essentials.value;
      var a := attrs;
      var i := 0;
      while i < |keys|
        invariant i <= |keys|
        invariant a.Keys == old(attrs).Keys + (set k | k in keys[..i] && k in ess)
        invariant forall k :: k in old(attrs) ==> a[k] == old(attrs)[k]
        invariant forall k :: k in keys[..i] && k in ess && k !in old(attrs) ==> a[k] == ess[k]
      {
        var key := keys[i];
        assert keys[..i + 1] == keys[..i] + [key];
        if key !in a && key in ess {
          a := a[key := ess[key]];
        }
        i := i + 1;
      }
      assert keys[..i] == keys;
      attrs := a;
    }

    /**
     * _update_substitutions: nothing without a parent pipeline; otherwise
     * each `${x}` key takes the pipeline's attribute x (see SubstitutionsRun).
     */
    method UpdateSubstitutions(pipeline: Option<map<string, Value>>) returns (r: Option<PyError>)
      modifies this
      ensures pipeline.None? ==> attrs == old(attrs) && r.None?
      ensures pipeline.Some? ==> (attrs, r) == SubstitutionsRun(old(attrs), keys, pipeline.value)
      ensures keys == old(keys) && keyValues == old(keyValues) && defaults == old(defaults)
      ensures ftype == old(ftype) && configKeys == old(configKeys)
      ensures filterAttrs == old(filterAttrs) && primed == old(primed)
    {
      r := None;
      if pipeline.None? {
        return;
      }
      var pl := pipeline.value;
      var a := attrs;
      var i := 0;
      while i < |keys|
        invariant i <= |keys|
        invariant SubstitutionsRun(old(attrs), keys, pl) == SubstitutionsRun(a, keys[i..], pl)
      {
        var key := keys[i];
        assert keys[i..][1..] == keys[i + 1..];
        if key in a && IsSubstitution(a[key]) {
          var substVar := SubstName(a[key]);
          if substVar !in pl {
            attrs := a;
            return Some(FilterAttributeError);
          }
          a := a[key := pl[substVar]];
        }
        i := i + 1;
      }
      attrs := a;
    }

    /**
     * _validate: the ftype must exist and be lower case; the keys must be
     * distinct, lower case and present (`visible` holds the names hasattr
     * finds beyond the instance dictionary: class attributes, properties and
     * the parent pipeline's attributes); every keyword argument must be a
     * key or a standard key; then validate_params (its outcome is
     * `paramCheck`) runs.
     */
    method Validate(visible: set<string>, paramCheck: Option<PyError>) returns (r: Option<PyError>)
      ensures r.None? <==>
        (ftype.Some? && LowerStr(ftype.value) == ftype.value && Distinct(keys) &&
         (forall k :: k in keys ==> LowerStr(k) == k && (k == "" || k in attrs || k in visible)) &&
         (forall a :: a in filterAttrs ==> a in keys || a in StandardKeys) &&
         paramCheck.None?)
      ensures r.Some? && paramCheck.None? ==> r == Some(FilterAttributeError)
    {
      if ftype.None? || LowerStr(ftype.value) != ftype.value {
        return Some(FilterAttributeError);
      }
      var distinct := DistinctCheck(keys);
      if !distinct {
        return Some(FilterAttributeError);
      }
      var i := 0;
      while i < |keys|
        invariant i <= |keys|
        invariant forall k :: k in keys[..i] ==> LowerStr(k) == k && (k == "" || k in attrs || k in visible)
      {
        var key := keys[i];
        assert keys[..i + 1] == keys[..i] + [key];
        if LowerStr(key) != key {
          return Some(FilterAttributeError);
        }
        if key != "" && !(key in attrs || key in visible) {
          return Some(FilterAttributeError);
        }
        i := i + 1;
      }
      assert keys[..i] == keys;
      var possible := keys + StandardKeys;
      if exists a :: a in filterAttrs && a !in possible {
        return Some(FilterAttributeError);
      }
      r := paramCheck;
    }

    /**
     * _prime: priming twice raises FilterError; otherwise the coroutine is
     * made and started.
     */
    method Prime() returns (r: Option<PyError>)
      modifies this
      ensures old(primed) ==> r == Some(FilterError) && primed
      ensures !old(primed) ==> r.None? && primed
      ensures attrs == old(attrs) && keys == old(keys) && keyValues == old(keyValues)
      ensures defaults == old(defaults) && ftype == old(ftype) && configKeys == old(configKeys)
      ensures filterAttrs == old(filterAttrs)
    {
      if primed {
        return Some(FilterError);
      }
      primed := true;
      r := None;
    }
  }

  lemma ExtractStep(ck: seq<string>, i: nat)
    requires i < |ck|
    ensures BareKeys(ck[..i + 1]) == BareKeys(ck[..i]) + [BareKey(ck[i])]
    ensures DefaultsOf(ck[..i + 1]) ==
      if ':' in ck[i] then DefaultsOf(ck[..i])[BareKey(ck[i]) := ConvertConfigStr(VStr(KeyDefault(ck[i])))]
      else DefaultsOf(ck[..i])
  {
    assert ck[..i + 1][..i] == ck[..i];
  }

  /** `len(keys) != len(set(keys))` as a scan. */
  method DistinctCheck(ks: seq<string>) returns (ok: bool)
    ensures ok <==> Distinct(ks)
  {
    var seen: set<string> := {};
    var i := 0;
    while i < |ks|
      invariant i <= |ks|
      invariant seen == set k | k in ks[..i]
      invariant Distinct(ks[..i])
    {
      if ks[i] in seen {
        var j :| 0 <= j < i && ks[j] == ks[i];
        return false;
      }
      assert ks[..i + 1] == ks[..i] + [ks[i]];
      seen := seen + {ks[i]};
      i := i + 1;
    }
    assert ks[..i] == ks;
    return true;
  }
}
