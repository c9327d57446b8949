/**
 * The string and byte helpers of filter_utils.py that the engine relies on:
 * key/default merging, `name:v1:v2` splitting, config-literal conversion,
 * fixed-size splitting, suffix and prefix stripping, unindenting, hex
 * encoding and decoding, padding, bit reversal and bit counting.
 *
 * Python 2 byte strings are `string`s whose chars are all below 256.
 */
module FilterUtils {
  import opened Errors
  import opened Strings
  import opened Values

  predicate IsBytes(s: string) { forall i :: 0 <= i < |s| ==> s[i] as int < 256 }

  // =====================================================================
  // latest_defaults

  /** The bare key: the text before the first ':'. */
  function BareKey(k: string): (b: string)
    ensures ':' !in b && b <= k
    ensures ':' !in k ==> b == k
  {
    SplitPiecesFree(k, ':');
    SplitHead(k, ':');
    Split(k, ':')[0]
  }

  /** The default of a `key:value` entry: its second ':'-separated part. */
  function KeyDefault(k: string): (d: string)
    requires ':' in k
    ensures ':' !in d
  {
    SplitHead(k, ':');
    SplitPiecesFree(k, ':');
    Split(k, ':')[1]
  }

  /** `'%s:%s' % (bare_key, value)`, or the bare key when it has no value. */
  function Render(bare: string, v: Option<string>): (r: string)
    requires ':' !in bare && (v.Some? ==> ':' !in v.value)
    ensures v.None? ==> r == bare
    ensures v.Some? ==> BareKey(r) == bare && ':' in r && KeyDefault(r) == v.value
  {
    if v.Some? then
      var r := bare + ":" + v.value;
      RenderSplit(bare, v.value);
      r
    else bare
  }

  lemma RenderSplit(bare: string, val: string)
    requires ':' !in bare && ':' !in val
    ensures var r := bare + ":" + val;
      ':' in r && BareKey(r) == bare && KeyDefault(r) == val
  {
    var r := bare + ":" + val;
    assert r[|bare|] == ':';
    SplitPrefix(bare, val, ':');
    SplitHead(val, ':');
  }

  lemma {:induction false} SplitPrefix(p: string, q: string, sep: char)
    requires sep !in p
    ensures Split(p + [sep] + q, sep) == [p] + Split(q, sep)
    decreases |p|
  {
    var s := p + [sep] + q;
    if |p| == 0 {
      assert s[1..] == q;
    } else {
      assert s[1..] == p[1..] + [sep] + q;
      SplitPrefix(p[1..], q, sep);
      assert [p[0]] + p[1..] == p;
    }
  }

  // ---- reference definitions, stated without the loop

  /** Position j holds the first occurrence of its bare key. */
  predicate IsFirst(keys: seq<string>, j: nat)
    requires j < |keys|
  {
    forall i :: 0 <= i < j ==> BareKey(keys[i]) != BareKey(keys[j])
  }

  /** The bare keys at their first occurrences, in input order. */
  function Firsts(keys: seq<string>): (fs: seq<string>)
    ensures forall i :: 0 <= i < |fs| ==> ':' !in fs[i]
    decreases |keys|
  {
    if |keys| == 0 then []
    else Firsts(keys[..|keys| - 1]) +
         (if IsFirst(keys, |keys| - 1) then [BareKey(keys[|keys| - 1])] else [])
  }

  /** The default of the LAST `key:value` entry whose bare key is `b`. */
  function LastDefault(keys: seq<string>, b: string): (d: Option<string>)
    ensures d.Some? ==> ':' !in d.value
    decreases |keys|
  {
    if |keys| == 0 then None
    else
      var k := keys[|keys| - 1];
      if BareKey(k) == b && ':' in k then Some(KeyDefault(k))
      else LastDefault(keys[..|keys| - 1], b)
  }

  /** What latest_defaults promises: each first bare key with its latest value. */
  function LatestDefaultsOf(keys: seq<string>): seq<string>
  {
    var firsts := Firsts(keys);
    seq(|firsts|, i requires 0 <= i < |firsts| => Render(firsts[i], LastDefault(keys, firsts[i])))
  }

  lemma {:induction false} FirstsMembers(keys: seq<string>)
    ensures forall b :: b in Firsts(keys) <==> exists j :: 0 <= j < |keys| && BareKey(keys[j]) == b
    decreases |keys|
  {
    if |keys| > 0 {
      var pre := keys[..|keys| - 1];
      FirstsMembers(pre);
      forall b ensures b in Firsts(keys) <==> exists j :: 0 <= j < |keys| && BareKey(keys[j]) == b {
        if b in Firsts(keys) && b !in Firsts(pre) {
          assert BareKey(keys[|keys| - 1]) == b;
        }
        if b !in Firsts(keys) {
          forall j | 0 <= j < |keys| ensures BareKey(keys[j]) != b {
            if j < |keys| - 1 { assert keys[j] == pre[j]; }
          }
        }
        if exists j :: 0 <= j < |pre| && BareKey(pre[j]) == b {
          var j :| 0 <= j < |pre| && BareKey(pre[j]) == b;
          assert keys[j] == pre[j];
        }
      }
    }
  }

  /** One more key: it is new to the bare list exactly when it is a first occurrence. */
  lemma FirstStep(keys: seq<string>, i: nat)
    requires i < |keys|
    ensures keys[..i + 1][..i] == keys[..i]
    ensures IsFirst(keys[..i + 1], i) <==> BareKey(keys[i]) !in Firsts(keys[..i])
  {
    var pre := keys[..i];
    assert keys[..i + 1][..i] == pre;
    FirstsMembers(pre);
    if IsFirst(keys[..i + 1], i) {
      forall j | 0 <= j < |pre| ensures BareKey(pre[j]) != BareKey(keys[i]) {
        assert pre[j] == keys[..i + 1][j];
      }
    } else {
      var j :| 0 <= j < i && BareKey(keys[..i + 1][j]) == BareKey(keys[i]);
      assert pre[j] == keys[j];
    }
  }

  /**
   * latest_defaults: two loops, the first collecting the bare keys in
   * first-seen order and the latest value of each, the second rendering them.
   */
  method LatestDefaults(keys: seq<string>) returns (keysOut: seq<string>)
    ensures keysOut == LatestDefaultsOf(keys)
  {
    var bareKeys, keyValues := CollectDefaults(keys);
    keysOut := [];
    var j := 0;
    while j < |bareKeys|
      invariant j <= |bareKeys|
      invariant |keysOut| == j
      invariant forall t :: 0 <= t < j ==> keysOut[t] == LatestDefaultsOf(keys)[t]
    {
      var bareKey := bareKeys[j];
      if bareKey in keyValues {
        keysOut := keysOut + [bareKey + ":" + keyValues[bareKey]];
      } else {
        keysOut := keysOut + [bareKey];
      }
      j := j + 1;
    }
  }

  /** The value a dictionary holds for `b`, if any. */
  function Lookup(m: map<string, string>, b: string): Option<string>
  {
    if b in m then Some(m[b]) else None
  }

  /** One more key: its value, when it has one, is the latest for its bare key. */
  lemma DefaultStep(keys: seq<string>, i: nat)
    requires i < |keys|
    ensures forall b ::
      LastDefault(keys[..i + 1], b) == (if BareKey(keys[i]) == b && ':' in keys[i] then Some(KeyDefault(keys[i])) else LastDefault(keys[..i], b))
  {
    var pre := keys[..i + 1];
    assert |pre| == i + 1 && pre[..i] == keys[..i] && pre[i] == keys[i];
    forall b ensures LastDefault(pre, b) ==
      (if BareKey(keys[i]) == b && ':' in keys[i] then Some(KeyDefault(keys[i])) else LastDefault(keys[..i], b))
    {
    }
  }

  /** One turn of latest_defaults' first loop keeps its invariant. */
  lemma CollectStep(keys: seq<string>, i: nat, bk: seq<string>, kv: map<string, string>,
                    bk2: seq<string>, kv2: map<string, string>)
    requires i < |keys|
    requires bk == Firsts(keys[..i]) && forall b :: LastDefault(keys[..i], b) == Lookup(kv, b)
    requires var k := keys[i];
      bk2 == (if BareKey(k) !in bk then bk + [BareKey(k)] else bk) &&
      kv2 == (if ':' in k then kv[BareKey(k) := KeyDefault(k)] else kv)
    ensures bk2 == Firsts(keys[..i + 1]) && forall b :: LastDefault(keys[..i + 1], b) == Lookup(kv2, b)
  {
    FirstStep(keys, i);
    DefaultStep(keys, i);
  }

  /** latest_defaults' first loop: the bare keys in first-seen order, and each one's latest value. */
  method CollectDefaults(keys: seq<string>) returns (bareKeys: seq<string>, keyValues: map<string, string>)
    ensures bareKeys == Firsts(keys)
    ensures forall b :: LastDefault(keys, b) == Lookup(keyValues, b)
  {
    bareKeys := [];
    keyValues := map[];
    var i := 0;
    while i < |keys|
      invariant i <= |keys|
      invariant bareKeys == Firsts(keys[..i])
      invariant forall b :: LastDefault(keys[..i], b) == Lookup(keyValues, b)
    {
      var key := keys[i];
      ghost var bk, kv := bareKeys, keyValues;
      var bareKey := BareKey(key);
      if ':' in key {
        keyValues := keyValues[bareKey := KeyDefault(key)];
      }
      if bareKey !in bareKeys {
        bareKeys := bareKeys + [bareKey];
      }
      CollectStep(keys, i, bk, kv, bareKeys, keyValues);
      i := i + 1;
    }
    assert keys[..i] == keys;
  }

  /** Each bare key is kept once. */
  lemma {:induction false} FirstsDistinct(keys: seq<string>)
    ensures forall i, j :: 0 <= i < j < |Firsts(keys)| ==> Firsts(keys)[i] != Firsts(keys)[j]
    decreases |keys|
  {
    if |keys| > 0 {
      var pre := keys[..|keys| - 1];
      FirstsDistinct(pre);
      FirstStep(keys, |keys| - 1);
    }
  }

  /**
   * The output names every input key exactly once by its bare name, in
   * first-seen order, carrying the value of its last `key:value` entry.
   */
  lemma LatestDefaultsSpec(keys: seq<string>)
    ensures |LatestDefaultsOf(keys)| == |Firsts(keys)|
    ensures forall i :: 0 <= i < |keys| ==> BareKey(keys[i]) in Firsts(keys)
    ensures forall i, j :: 0 <= i < j < |Firsts(keys)| ==> Firsts(keys)[i] != Firsts(keys)[j]
    ensures forall i :: 0 <= i < |Firsts(keys)| ==>
      BareKey(LatestDefaultsOf(keys)[i]) == Firsts(keys)[i] &&
      (LastDefault(keys, Firsts(keys)[i]).Some? ==>
         KeyDefault(LatestDefaultsOf(keys)[i]) == LastDefault(keys, Firsts(keys)[i]).value)
  {
    FirstsMembers(keys);
    FirstsDistinct(keys);
    forall i | 0 <= i < |keys| ensures BareKey(keys[i]) in Firsts(keys) {
    }
    var firsts := Firsts(keys);
    forall i | 0 <= i < |firsts| ensures BareKey(LatestDefaultsOf(keys)[i]) == firsts[i] {
      assert firsts[i] in firsts;
      var j :| 0 <= j < |keys| && BareKey(keys[j]) == firsts[i];
    }
  }
  // =====================================================================
  // convert_config_str / convert_config_list (non-float, non-eval paths)

  predicate IsHexDigit(c: char) { IsDigit(c) || 'a' <= c <= 'f' || 'A' <= c <= 'F' }

  function HexDigitValue(c: char): (d: nat)
    requires IsHexDigit(c)
    ensures d < 16
  {
    if IsDigit(c) then c as int - '0' as int
    else if 'a' <= c <= 'f' then c as int - 'a' as int + 10
    else c as int - 'A' as int + 10
  }

  /** `int(h, 16)` for a string of hex digits. */
  function HexValue(h: string): nat
    requires forall i :: 0 <= i < |h| ==> IsHexDigit(h[i])
    decreases |h|
  {
    if |h| == 0 then 0 else HexValue(h[..|h| - 1]) * 16 + HexDigitValue(h[|h| - 1])
  }

  predicate IsHexDigits(h: string) { |h| > 0 && forall i :: 0 <= i < |h| ==> IsHexDigit(h[i]) }

  /** `s` is digits with at most one '.', and at least one digit. */
  predicate IsDecimalMantissa(m: string)
  {
    (exists i :: 0 <= i < |m| && IsDigit(m[i])) &&
    (forall i :: 0 <= i < |m| ==> IsDigit(m[i]) || m[i] == '.') &&
    (forall i, j :: 0 <= i < j < |m| && m[i] == '.' ==> m[j] != '.')
  }

  function DropSign(s: string): string
  {
    if |s| > 0 && (s[0] == '+' || s[0] == '-') then s[1..] else s
  }

  /**
   * Python 2.7 `float()` accepts the (already stripped) text: an optionally
   * signed decimal with optional point and exponent, or inf/infinity/nan.
   */
  predicate IsPyFloat(t: string)
  {
    var u := DropSign(t);
    var l := LowerStr(u);
    l == "inf" || l == "infinity" || l == "nan" ||
    (var m := Mantissa(u);
     IsDecimalMantissa(m) &&
     (|m| == |u| || IsDigits(DropSign(u[|m| + 1..]))))
  }

  /**
   * convert_config_str: a string is stripped and read, in order, as decimal
   * digits (int), a float literal (kept as text), `0x` hex (int), the
   * keywords true/t/false/f/none/empty/space in any case, or else returned
   * stripped. A list is converted element-wise; any other value is returned
   * unchanged.
   */
  function ConvertConfigStr(v: Value): (r: Value)
    decreases v
  {
    match v
    case VStr(s) => ConvertText(Strip(s))
    case VList(items) => VList(ConvertConfigList(items))
    case _ => v
  }

  /** convert_config_list */
  function ConvertConfigList(items: seq<Value>): (r: seq<Value>)
    ensures |r| == |items|
    decreases items
  {
    seq(|items|, k requires 0 <= k < |items| => ConvertConfigStr(items[k]))
  }

  function ConvertText(t: string): Value
  {
    if IsDigits(t) then VInt(DecimalValue(t))
    else if IsPyFloat(t) then VFloat(t)
    else if StartsWith(t, "0x") && IsHexDigits(t[2..]) then VInt(HexValue(t[2..]))
    else
      var l := LowerStr(t);
      if l == "true" || l == "t" then VBool(true)
      else if l == "false" || l == "f" then VBool(false)
      else if l == "none" then VNone
      else if l == "empty" then VStr("")
      else if l == "space" then VStr(" ")
      else VStr(t)
  }

  /** Python `str(v)` for the values a config file can name directly. */
  function PyStr(v: Value): string
    requires v.VNone? || v.VBool? || (v.VInt? && v.i >= 0)
  {
    match v
    case VNone => "None"
    case VBool(b) => if b then "True" else "False"
    case VInt(i) => Decimal(i)
  }

  /** convert_config_str undoes `str()` on None, booleans and ints >= 0. */
  lemma ConvertInvertsStr(v: Value)
    requires v.VNone? || v.VBool? || (v.VInt? && v.i >= 0)
    ensures ConvertConfigStr(VStr(PyStr(v))) == v
  {
    match v {
      case VInt(i) =>
        StripNoSpace(Decimal(i));
        DecimalRoundTrip(i);
      case VNone => NoneConverts();
      case VBool(b) => if b { TrueConverts(); } else { FalseConverts(); }
    }
  }

  lemma StrippedConverts(t: string, v: Value)
    requires forall i :: 0 <= i < |t| ==> !IsSpace(t[i])
    requires ConvertText(t) == v
    ensures ConvertConfigStr(VStr(t)) == v
  {
    StripNoSpace(t);
  }

  /** The words `str()` writes for None and the booleans are no numbers and read back as keywords. */
  lemma NoneConverts()
    ensures ConvertConfigStr(VStr("None")) == VNone
  {
    NoneText();
    var t := "None";
    assert forall i :: 0 <= i < |t| ==> !IsSpace(t[i]);
    StrippedConverts(t, VNone);
  }

  lemma NoneText()
    ensures ConvertText("None") == VNone
  {
    var t := "None";
    assert !IsDigits(t) by { assert !IsDigit(t[0]); }
    assert !StartsWith(t, "0x") by { assert t[0] != '0'; }
    assert LowerStr(t) == "none" by { LowerWord(t, "none"); }
    NotFloat(t);
  }

  lemma TrueConverts()
    ensures ConvertConfigStr(VStr("True")) == VBool(true)
  {
    TrueText();
    var t := "True";
    assert forall i :: 0 <= i < |t| ==> !IsSpace(t[i]);
    StrippedConverts(t, VBool(true));
  }

  lemma TrueText()
    ensures ConvertText("True") == VBool(true)
  {
    var t := "True";
    assert !IsDigits(t) by { assert !IsDigit(t[0]); }
    assert !StartsWith(t, "0x") by { assert t[0] != '0'; }
    assert LowerStr(t) == "true" by { LowerWord(t, "true"); }
    NotFloat(t);
  }

  lemma FalseConverts()
    ensures ConvertConfigStr(VStr("False")) == VBool(false)
  {
    FalseText();
    var t := "False";
    assert forall i :: 0 <= i < |t| ==> !IsSpace(t[i]);
    StrippedConverts(t, VBool(false));
  }

  lemma FalseText()
    ensures ConvertText("False") == VBool(false)
  {
    var t := "False";
    assert !IsDigits(t) by { assert !IsDigit(t[0]); }
    assert !StartsWith(t, "0x") by { assert t[0] != '0'; }
    assert LowerStr(t) == "false" by { LowerWord(t, "false"); }
    NotFloat(t);
  }

  lemma LowerWord(t: string, l: string)
    requires |t| == |l| && forall i :: 0 <= i < |t| ==> Lower(t[i]) == l[i]
    ensures LowerStr(t) == l
  {
  }

  /** A text starting with a letter other than i, n, I or N is no float literal. */
  lemma NotFloat(t: string)
    requires |t| > 0 && (IsUpper(t[0]) || IsLower(t[0]))
    requires Lower(t[0]) != 'e'
    requires LowerStr(t) != "inf" && LowerStr(t) != "infinity" && LowerStr(t) != "nan"
    ensures !IsPyFloat(t)
  {
    assert DropSign(t) == t;
    assert !IsDecimalMantissa(Mantissa(t)) by {
      assert Mantissa(t) == [t[0]] + Mantissa(t[1..]);
      assert Mantissa(t)[0] == t[0];
    }
  }

  lemma {:induction false} StripNoSpace(s: string)
    requires forall i :: 0 <= i < |s| ==> !IsSpace(s[i])
    ensures Strip(s) == s
  {
    if |s| > 0 {
      assert LeadingSpace(s) == 0;
      assert s[0..] == s;
    }
  }

  /** Lower-case hex digits of n, as `'%x' % n`. */
  function Hex(n: nat): (h: string)
    ensures IsHexDigits(h)
    ensures forall i :: 0 <= i < |h| ==> !IsUpper(h[i]) && h[i] != 'x'
    decreases n
  {
    var d := n % 16;
    var c := if d < 10 then DigitChar(d) else ('a' as int + d - 10) as char;
    if n < 16 then [c] else Hex(n / 16) + [c]
  }

  lemma {:induction false} HexRoundTrip(n: nat)
    ensures HexValue(Hex(n)) == n
    decreases n
  {
    var h := Hex(n);
    if n >= 16 {
      HexRoundTrip(n / 16);
      assert h[..|h| - 1] == Hex(n / 16);
    }
  }

  /** A `0x` literal, as `hex(n)` writes it, converts back to n. */
  lemma HexLiteralConverts(n: nat)
    ensures ConvertConfigStr(VStr("0x" + Hex(n))) == VInt(n)
  {
    var s := "0x" + Hex(n);
    assert forall i :: 0 <= i < |s| ==> !IsSpace(s[i]);
    StripNoSpace(s);
    assert !IsDigits(s) by { assert !IsDigit(s[1]); }
    assert s[2..] == Hex(n);
    HexRoundTrip(n);
    HexNotFloat(s);
  }

  /** `float()` refuses a `0x` literal. */
  lemma HexNotFloat(s: string)
    requires |s| >= 2 && s[0] == '0' && s[1] == 'x'
    ensures !IsPyFloat(s)
  {
    assert DropSign(s) == s;
    assert LowerStr(s)[1] == 'x';
    assert s[1..][1..] == s[2..];
    assert Mantissa(s) == "0x" + Mantissa(s[2..]);
    assert !IsDigit('x') && 'x' != '.';
  }

  /**
   * A negative integer is NOT read as an int: `'-5'.isdigit()` is false and
   * `float('-5')` succeeds, so the value comes back as a float.
   */
  lemma NegativeIntReadsAsFloat()
    ensures ConvertConfigStr(VStr("-5")) == VFloat("-5")
  {
    var s := "-5";
    StripNoSpace(s);
    assert !IsDigits(s) by { assert !IsDigit(s[0]); }
    assert DropSign(s) == "5";
    assert Mantissa("5") == "5";
    assert IsDecimalMantissa("5") by { assert IsDigit("5"[0]); }
  }

  // =====================================================================
  // get_values_from_name

  /**
   * get_values_from_name: the text before the first ':' and the converted
   * list of the remaining ':'-separated parts.
   */
  function GetValuesFromName(name: string): (r: (string, seq<Value>))
    ensures ':' !in r.0
    ensures ':' !in name ==> r == (name, [])
    ensures ':' in name ==> StartsWith(name, r.0 + ":")
    ensures |r.1| + 1 == |Split(name, ':')|
    ensures forall k :: 0 <= k < |r.1| ==> r.1[k] == ConvertConfigStr(VStr(Split(name, ':')[k + 1]))
  {
    SplitPiecesFree(name, ':');
    SplitHead(name, ':');
    var parts := Split(name, ':');
    (parts[0], seq(|parts| - 1, k requires 0 <= k < |parts| - 1 => ConvertConfigStr(VStr(parts[k + 1]))))
  }

  /** The name and the raw value texts reassemble the original name. */
  lemma GetValuesFromNameParts(name: string)
    ensures Join([GetValuesFromName(name).0] + Split(name, ':')[1..], ":") == name
  {
    JoinSplit(name, ':');
    var parts := Split(name, ':');
    assert [parts[0]] + parts[1..] == parts;
  }

  // =====================================================================
  // split_strings

  /** The list comprehension of split_strings, for a positive piece size. */
  function Chunks(d: string, n: nat): (pieces: seq<string>)
    requires n > 0
    ensures Concat(pieces) == d
    ensures forall k :: 0 <= k < |pieces| ==> 0 < |pieces[k]| <= n
    ensures forall k :: 0 <= k < |pieces| - 1 ==> |pieces[k]| == n
    decreases |d|
  {
    if |d| == 0 then []
    else if |d| <= n then [d]
    else [d[..n]] + Chunks(d[n..], n)
  }

  /**
   * split_strings(d, n): for n >= 1 the pieces concatenate to d and all but
   * possibly the last have length n; `xrange` with step 0 raises ValueError;
   * a negative step gives no pieces.
   */
  function SplitStrings(d: string, n: int): (r: Result<seq<string>>)
    ensures n == 0 <==> r.Err?
    ensures r.Err? ==> r.error == ValueError
    ensures n < 0 ==> r == Ok([])
    ensures n > 0 ==> r.Ok? && Concat(r.value) == d && (d == "" <==> r.value == [])
    ensures n > 0 ==> forall k :: 0 <= k < |r.value| - 1 ==> |r.value[k]| == n
    ensures n > 0 ==> forall k :: 0 <= k < |r.value| ==> 0 < |r.value[k]| <= n
  {
    if n == 0 then Err(ValueError)
    else if n < 0 then Ok([])
    else Ok(Chunks(d, n))
  }

  // =====================================================================
  // strip_number_suffix

  predicate IsSuffixChar(c: char) { IsDigit(c) || c == '_' }

  /**
   * strip_number_suffix removes exactly the maximal trailing run of digits
   * and '_': the result is a prefix that does not end in either.
   */
  function StripNumberSuffix(t: string): (r: string)
    ensures r <= t
    ensures r == [] || !IsSuffixChar(r[|r| - 1])
    ensures forall i :: |r| <= i < |t| ==> IsSuffixChar(t[i])
    decreases |t|
  {
    if |t| == 0 then t
    else if IsSuffixChar(t[|t| - 1]) then StripNumberSuffix(t[..|t| - 1])
    else t
  }

  // =====================================================================
  // strip_prefix / strip_prefixes

  /**
   * strip_prefix(txt, sep): the second `sep`-separated piece when there is
   * a separator, the text itself when there is none, None for None.
   */
  function StripPrefix(txt: Option<string>, sep: char): (r: Option<string>)
    ensures txt.None? <==> r.None?
    ensures txt.Some? && sep !in txt.value ==> r == txt
  {
    match txt
    case None => None
    case Some(s) =>
      SplitHead(s, sep);
      var parts := Split(s, sep);
      if |parts| >= 2 then Some(parts[1]) else Some(s)
  }

  /** With exactly one separator, strip_prefix returns the text after it. */
  lemma StripPrefixOneSep(p: string, q: string, sep: char)
    requires sep !in p && sep !in q
    ensures StripPrefix(Some(p + [sep] + q), sep) == Some(q)
  {
    SplitJoin([p, q], sep);
    assert Join([p, q], [sep]) == p + [sep] + q;
  }

  predicate IsLabelAt(s: string, i: nat)
  {
    i + 5 <= |s| && IsDigit(s[i]) && IsDigit(s[i + 1]) && IsDigit(s[i + 2]) && IsDigit(s[i + 3]) && s[i + 4] == '~'
  }

  /**
   * strip_prefixes(txt, r'\d\d\d\d~'): every match of four digits and '~',
   * found left to right without overlap, removed.
   */
  function StripLabelPrefixes(s: string): (r: string)
    ensures |r| <= |s|
    decreases |s|
  {
    if |s| == 0 then s
    else if IsLabelAt(s, 0) then StripLabelPrefixes(s[5..])
    else [s[0]] + StripLabelPrefixes(s[1..])
  }

  /** A label can only start a token: a char that is no digit and no '~' inside the first five rules one out. */
  lemma LabelAtSep(a: string, ch: char, b: string)
    requires !IsDigit(ch) && ch != '~'
    ensures IsLabelAt(a + [ch] + b, 0) == IsLabelAt(a, 0)
  {
    var s := a + [ch] + b;
    if |a| >= 5 {
      assert s[..5] == a[..5];
      assert s[0] == a[0] && s[1] == a[1] && s[2] == a[2] && s[3] == a[3] && s[4] == a[4];
    } else {
      assert s[|a|] == ch;
    }
  }

  /** Removal works piece by piece: no match straddles a blank or a parenthesis. */
  lemma {:induction false} StripLabelsSep(a: string, ch: char, b: string)
    requires !IsDigit(ch) && ch != '~'
    ensures StripLabelPrefixes(a + [ch] + b) == StripLabelPrefixes(a) + [ch] + StripLabelPrefixes(b)
    decreases |a|
  {
    var s := a + [ch] + b;
    LabelAtSep(a, ch, b);
    if |a| == 0 {
      assert s[1..] == b;
      assert StripLabelPrefixes(s) == [ch] + StripLabelPrefixes(b);
    } else if IsLabelAt(a, 0) {
      assert s[5..] == a[5..] + [ch] + b;
      StripLabelsSep(a[5..], ch, b);
    } else {
      assert s[1..] == a[1..] + [ch] + b;
      StripLabelsSep(a[1..], ch, b);
      assert StripLabelPrefixes(s) == [s[0]] + StripLabelPrefixes(s[1..]);
    }
  }

  /** Text without a '~' holds no label. */
  lemma {:induction false} StripLabelsNone(s: string)
    requires '~' !in s
    ensures StripLabelPrefixes(s) == s
    decreases |s|
  {
    if |s| > 0 {
      assert !IsLabelAt(s, 0) by { if |s| >= 5 { assert s[4] in s; } }
      assert s[1..] == s[1..];
      assert forall c :: c in s[1..] ==> c in s;
      StripLabelsNone(s[1..]);
      assert s == [s[0]] + s[1..];
    }
  }

  /** A four-digit label and its '~' come off the front. */
  lemma StripLabelFront(pad: string, rest: string)
    requires |pad| == 4 && IsDigits(pad) && '~' !in rest
    ensures StripLabelPrefixes(pad + "~" + rest) == rest
  {
    var s := pad + "~" + rest;
    assert IsLabelAt(s, 0) by {
      assert s[0] == pad[0] && s[1] == pad[1] && s[2] == pad[2] && s[3] == pad[3] && s[4] == '~';
    }
    assert s[5..] == rest;
    StripLabelsNone(rest);
  }

  // =====================================================================
  // unindent

  /** Minimum leading whitespace over the non-blank lines (None if all blank). */
  function MinIndent(lines: seq<string>): (m: Option<nat>)
    ensures m.None? <==> forall i :: 0 <= i < |lines| ==> IsBlank(lines[i])
    ensures m.Some? ==> forall i :: 0 <= i < |lines| && !IsBlank(lines[i]) ==> m.value <= LeadingSpace(lines[i])
    ensures m.Some? ==> exists i :: 0 <= i < |lines| && !IsBlank(lines[i]) && m.value == LeadingSpace(lines[i])
    decreases |lines|
  {
    if |lines| == 0 then None
    else
      var rest := MinIndent(lines[1..]);
      var here := if IsBlank(lines[0]) then None else Some(LeadingSpace(lines[0]));
      var m :=
        if here.None? then rest
        else if rest.None? then here
        else if here.value <= rest.value then here else rest;
      assert forall i :: 1 <= i < |lines| ==> lines[i] == lines[1..][i - 1];
      m
  }

  /** Every line loses its first m chars (all of it when shorter), as `line[m:]`. */
  predicate CutBy(lines: seq<string>, out: seq<string>, m: nat)
  {
    |out| == |lines| &&
    forall i :: 0 <= i < |lines| ==> out[i] == if m <= |lines[i]| then lines[i][m..] else ""
  }

  /**
   * unindent: [] maps to []; a non-empty list of blank lines makes `min()`
   * raise ValueError; otherwise every line loses the same number of leading
   * chars, no more than any non-blank line's leading whitespace, and some
   * non-blank line is left with no leading whitespace at all.
   */
  function Unindent(lines: seq<string>): (r: Result<seq<string>>)
    ensures |lines| == 0 ==> r == Ok([])
    ensures r.Err? <==> (|lines| > 0 && forall i :: 0 <= i < |lines| ==> IsBlank(lines[i]))
    ensures r.Err? ==> r.error == ValueError
    ensures r.Ok? && |lines| > 0 ==> MinIndent(lines).Some? && CutBy(lines, r.value, MinIndent(lines).value)
    ensures r.Ok? && |lines| > 0 ==>
      exists i :: 0 <= i < |lines| && !IsBlank(lines[i]) && LeadingSpace(r.value[i]) == 0
  {
    if |lines| == 0 then Ok([])
    else
      var m := MinIndent(lines);
      if m.None? then Err(ValueError)
      else
        var out := seq(|lines|, i requires 0 <= i < |lines| =>
          if m.value <= |lines[i]| then lines[i][m.value..] else "");
        UnindentFacts(lines, m.value, out);
        Ok(out)
  }

  lemma UnindentFacts(lines: seq<string>, m: nat, out: seq<string>)
    requires CutBy(lines, out, m)
    requires exists i :: 0 <= i < |lines| && !IsBlank(lines[i]) && m == LeadingSpace(lines[i])
    ensures exists i :: 0 <= i < |lines| && !IsBlank(lines[i]) && LeadingSpace(out[i]) == 0
  {
    var j :| 0 <= j < |lines| && !IsBlank(lines[j]) && m == LeadingSpace(lines[j]);
    assert LeadingSpace(out[j]) == 0 by {
      var t := lines[j][m..];
      assert out[j] == t && t[0] == lines[j][m] && !IsSpace(t[0]);
    }
  }

  // =====================================================================
  // data_to_hex_string / hex_string_to_data

  function HexUpperDigit(d: nat): (c: char)
    requires d < 16
  {
    if d < 10 then DigitChar(d) else ('A' as int + d - 10) as char
  }

  /** `'%2.2X' % ord(c)` for one byte. */
  function HexPair(c: char): (h: string)
    requires c as int < 256
    ensures |h| == 2
  {
    [HexUpperDigit(c as int / 16), HexUpperDigit(c as int % 16)]
  }

  /** `'0123456789ABCDEF'` position of an upper-case hex digit. */
  predicate IsUpperHexDigit(c: char) { IsDigit(c) || 'A' <= c <= 'F' }

  /** `hex_to_dat` holds exactly the 256 two-digit upper-case codes. */
  predicate IsHexPair(h: string) { |h| == 2 && IsUpperHexDigit(h[0]) && IsUpperHexDigit(h[1]) }

  function UpperHexValue(c: char): (d: nat)
    requires IsUpperHexDigit(c)
    ensures d < 16
  {
    if IsDigit(c) then c as int - '0' as int else c as int - 'A' as int + 10
  }

  /** `hex_to_dat[h]` */
  function HexToDat(h: string): (c: char)
    requires IsHexPair(h)
    ensures c as int < 256
  {
    (UpperHexValue(h[0]) * 16 + UpperHexValue(h[1])) as char
  }

  lemma HexPairRoundTrip(c: char)
    requires c as int < 256
    ensures IsHexPair(HexPair(c)) && HexToDat(HexPair(c)) == c
  {
  }

  function HexPairs(data: string): (hs: seq<string>)
    requires IsBytes(data)
    ensures |hs| == |data|
    ensures forall k :: 0 <= k < |data| ==> hs[k] == HexPair(data[k])
  {
    seq(|data|, k requires 0 <= k < |data| => HexPair(data[k]))
  }

  /** Python `lst[:limit]` with limit None, non-negative or negative. */
  function SliceTo<T>(s: seq<T>, limit: Option<int>): (r: seq<T>)
    ensures r <= s
    ensures limit.None? ==> r == s
    ensures limit.Some? && limit.value >= 0 ==> |r| == if limit.value <= |s| then limit.value else |s|
    ensures limit.Some? && limit.value < 0 ==> |r| == if -limit.value <= |s| then |s| + limit.value else 0
  {
    if limit.None? then s
    else if limit.value >= 0 then (if limit.value <= |s| then s[..limit.value] else s)
    else if -limit.value <= |s| then s[..|s| + limit.value] else []
  }

  /** data_to_hex_string: two upper-case hex digits per byte, `limit` bytes, joined by `space`. */
  function DataToHexString(data: string, limit: Option<int>, space: string): (r: string)
    requires IsBytes(data)
  {
    Join(SliceTo(HexPairs(data), limit), space)
  }

  /**
   * hex_string_to_data: split on the separator (None: on whitespace runs);
   * a single piece is re-split into 2-char pieces of the whole input; every
   * piece must be a key of `hex_to_dat`, else KeyError.
   */
  function HexStringToData(data: string, space: Option<char>): (r: Result<string>)
    ensures r.Ok? ==> IsBytes(r.value)
    ensures r.Err? ==> r.error == KeyError
  {
    var split := if space.None? then SplitWs(data) else Split(data, space.value);
    var pieces := if |split| == 1 then Chunks(data, 2) else split;
    if forall k :: 0 <= k < |pieces| ==> IsHexPair(pieces[k]) then
      Ok(seq(|pieces|, k requires 0 <= k < |pieces| => HexToDat(pieces[k])))
    else Err(KeyError)
  }

  /** Decoding the pairs of HexPairs gives the bytes back. */
  lemma DecodePairs(data: string)
    requires IsBytes(data)
    ensures forall k :: 0 <= k < |data| ==> IsHexPair(HexPairs(data)[k])
    ensures seq(|data|, k requires 0 <= k < |data| => HexToDat(HexPairs(data)[k])) == data
  {
  }

  /** Two-char hex pairs joined with nothing re-split into the same pairs. */
  lemma {:induction false} ChunkPairs(pairs: seq<string>)
    requires forall k :: 0 <= k < |pairs| ==> |pairs[k]| == 2
    ensures Chunks(Join(pairs, ""), 2) == pairs
    decreases |pairs|
  {
    if |pairs| > 1 {
      var rest := Join(pairs[1..], "");
      assert Join(pairs, "") == pairs[0] + rest;
      ChunkPairs(pairs[1..]);
      JoinLength2(pairs[1..]);
      assert (pairs[0] + rest)[..2] == pairs[0];
      assert (pairs[0] + rest)[2..] == rest;
      assert pairs == [pairs[0]] + pairs[1..];
    }
  }

  lemma {:induction false} JoinLength2(pairs: seq<string>)
    requires forall k :: 0 <= k < |pairs| ==> |pairs[k]| == 2
    ensures |Join(pairs, "")| == 2 * |pairs|
    decreases |pairs|
  {
    if |pairs| > 1 { JoinLength2(pairs[1..]); }
  }

  lemma HexPairsNoSpace(pairs: seq<string>)
    requires forall k :: 0 <= k < |pairs| ==> IsHexPair(pairs[k])
    ensures forall k :: 0 <= k < |pairs| ==> IsWord(pairs[k])
  {
  }

  /** hex_string_to_data(data_to_hex_string(s)) == s, with the default separators. */
  lemma HexRoundTripDefault(s: string)
    requires IsBytes(s)
    ensures HexStringToData(DataToHexString(s, None, " "), None) == Ok(s)
  {
    var pairs := HexPairs(s);
    var h := DataToHexString(s, None, " ");
    DecodePairs(s);
    HexPairsNoSpace(pairs);
    SplitWsJoin(pairs);
    assert SplitWs(h) == pairs;
    if |s| == 1 {
      assert h == pairs[0];
      ChunkPairs(pairs);
      assert Join(pairs, "") == pairs[0];
    }
  }

  /** The same round trip with an explicit one-character separator. */
  lemma HexRoundTripSep(s: string, sep: char)
    requires IsBytes(s)
    requires !IsUpperHexDigit(sep)
    ensures HexStringToData(DataToHexString(s, None, [sep]), Some(sep)) == Ok(s)
  {
    var pairs := HexPairs(s);
    var h := DataToHexString(s, None, [sep]);
    DecodePairs(s);
    if |s| == 0 {
      assert h == "";
      assert Split(h, sep) == [""];
    } else {
      assert forall k :: 0 <= k < |pairs| ==> sep !in pairs[k] by {
        forall k | 0 <= k < |pairs| ensures sep !in pairs[k] {
          assert IsHexPair(pairs[k]);
        }
      }
      SplitJoin(pairs, sep);
      if |s| == 1 {
        assert h == pairs[0];
        ChunkPairs(pairs);
        assert Join(pairs, "") == pairs[0];
      }
    }
  }

  // =====================================================================
  // pad_string

  /** `s * n` in Python: s (a string or a list) repeated n times, empty for n <= 0. */
  function Repeat<T>(s: seq<T>, n: int): (r: seq<T>)
    ensures n <= 0 ==> r == []
    ensures n > 0 ==> |r| == |s| * n
    decreases if n > 0 then n else 0
  {
    if n <= 0 then [] else s + Repeat(s, n - 1)
  }

  lemma {:induction false} RepeatChar(c: char, n: int)
    ensures forall i :: 0 <= i < |Repeat([c], n)| ==> Repeat([c], n)[i] == c
    decreases if n > 0 then n else 0
  {
    if n > 0 { RepeatChar(c, n - 1); }
  }

  /**
   * pad_string: the text followed by `length - len(text)` copies of the pad;
   * a longer text is returned whole.
   */
  function PadString(text: string, length: int, pad: string): (r: string)
    ensures text <= r
    ensures length <= |text| ==> r == text
    ensures |pad| == 1 && length >= |text| ==> |r| == length
  {
    text + Repeat(pad, length - |text|)
  }

  lemma PadStringChars(text: string, length: int, c: char)
    ensures forall i :: |text| <= i < |PadString(text, length, [c])| ==> PadString(text, length, [c])[i] == c
  {
    RepeatChar(c, length - |text|);
  }

  // =====================================================================
  // reverse_byte and bit_sum

  /** The low eight bits of an int (Python's `&` sees two's complement). */
  function ByteOf(b: int): bv8 { (b % 256) as bv8 }

  lemma ByteOfByte(y: bv8)
    ensures ByteOf(y as nat) == y
  {
    var n := y as nat;
    assert n < 256;
    assert n % 256 == n;
  }

  /** The shifts and masks of reverse_byte, on the low eight bits. */
  function Rev8(b: bv8): bv8
  {
    ((b & 0x01) << 7) | ((b & 0x02) << 5) | ((b & 0x04) << 3) | ((b & 0x08) << 1) |
    ((b & 0x10) >> 1) | ((b & 0x20) >> 3) | ((b & 0x40) >> 5) | ((b & 0x80) >> 7)
  }

  /** reverse_byte(byte) */
  function ReverseByte(b: int): (r: nat)
    ensures r < 256
  {
    Rev8(ByteOf(b)) as nat
  }

  /** Bit i (0..7) of a byte. */
  function Bit(b: bv8, i: nat): (r: nat)
    requires i < 8
    ensures r <= 1
  {
    if (b >> i) & 1 == 1 then 1 else 0
  }

  lemma Rev8Bits(b: bv8)
    ensures forall i :: 0 <= i < 8 ==> Bit(Rev8(b), i) == Bit(b, 7 - i)
  {
  }

  lemma Rev8Involution(b: bv8)
    ensures Rev8(Rev8(b)) == b
  {
  }

  /** Bit i of reverse_byte(b) is bit 7 - i of b. */
  lemma ReverseByteBits(b: int)
    ensures forall i :: 0 <= i < 8 ==> Bit(ByteOf(ReverseByte(b)), i) == Bit(ByteOf(b), 7 - i)
  {
    ByteOfByte(Rev8(ByteOf(b)));
    Rev8Bits(ByteOf(b));
  }

  /** Reversing a byte twice gives its low eight bits back. */
  lemma ReverseByteInvolution(b: int)
    ensures ReverseByte(ReverseByte(b)) == ByteOf(b) as nat
  {
    var x := ByteOf(b);
    var y := Rev8(x);
    assert ReverseByte(b) == y as nat;
    ByteOfByte(y);
    Rev8Involution(x);
    assert ReverseByte(ReverseByte(b)) == Rev8(y) as nat;
  }

  /** The number of set bits among the low eight. */
  function PopCount(b: bv8): (n: nat)
    ensures n <= 8
  {
    SumBits(b, 8)
  }

  lemma PopCountBits(b: bv8)
    ensures PopCount(b) == Bit(b, 0) + Bit(b, 1) + Bit(b, 2) + Bit(b, 3) + Bit(b, 4) + Bit(b, 5) + Bit(b, 6) + Bit(b, 7)
  {
    assert SumBits(b, 1) == Bit(b, 0);
    assert SumBits(b, 2) == SumBits(b, 1) + Bit(b, 1);
    assert SumBits(b, 3) == SumBits(b, 2) + Bit(b, 2);
    assert SumBits(b, 4) == SumBits(b, 3) + Bit(b, 3);
    assert SumBits(b, 5) == SumBits(b, 4) + Bit(b, 4);
    assert SumBits(b, 6) == SumBits(b, 5) + Bit(b, 5);
    assert SumBits(b, 7) == SumBits(b, 6) + Bit(b, 6);
  }

  /** Reversal shuffles bits, so it keeps their count. */
  lemma ReverseBytePopCount(b: int)
    ensures PopCount(ByteOf(ReverseByte(b))) == PopCount(ByteOf(b))
  {
    ReverseByteBits(b);
    PopCountBits(ByteOf(b));
    PopCountBits(ByteOf(ReverseByte(b)));
  }

  /** The bit count of every char of the text, added up. */
  function BitCount(s: string): (n: nat)
    ensures n <= 8 * |s|
    decreases |s|
  {
    if |s| == 0 then 0 else BitCount(s[..|s| - 1]) + PopCount(ByteOf(s[|s| - 1] as int))
  }

  /** Counts add up over concatenation. */
  lemma {:induction false} BitCountAppend(a: string, b: string)
    ensures BitCount(a + b) == BitCount(a) + BitCount(b)
    decreases |b|
  {
    if |b| == 0 {
      assert a + b == a;
    } else {
      var c := b[|b| - 1];
      assert (a + b)[..|a + b| - 1] == a + b[..|b| - 1];
      assert (a + b)[|a + b| - 1] == c;
      BitCountAppend(a, b[..|b| - 1]);
      assert BitCount(b) == BitCount(b[..|b| - 1]) + PopCount(ByteOf(c as int));
    }
  }

  /** `_bit_sum_char`: the shift loop over one char (its cache is left out). */
  method BitSumChar(c: char) returns (byteBitSum: nat)
    ensures byteBitSum == PopCount(ByteOf(c as int))
  {
    var b := ByteOf(c as int);
    byteBitSum := 0;
    for shift := 0 to 8
      invariant byteBitSum == SumBits(b, shift)
    {
      byteBitSum := byteBitSum + Bit(b, shift);
    }
  }

  /** Bits 0 .. n-1 of a byte, added up. */
  function SumBits(b: bv8, n: nat): (s: nat)
    requires n <= 8
    ensures s <= n
  {
    if n == 0 then 0 else SumBits(b, n - 1) + Bit(b, n - 1)
  }

  /** bit_sum(chars): the total of set bits over all the chars. */
  method BitSum(chars: string) returns (result: nat)
    ensures result == BitCount(chars)
  {
    result := 0;
    for i := 0 to |chars|
      invariant result == BitCount(chars[..i])
    {
      var n := BitSumChar(chars[i]);
      assert chars[..i + 1][..i] == chars[..i];
      result := result + n;
    }
    assert chars[..|chars|] == chars;
  }
}
