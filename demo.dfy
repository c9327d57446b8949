/**
 * The demonstration stages of data_fltr_demo.py: FactorialCalc and the
 * looping Factorial route it runs in (ppln_demo.py), the bit, byte and
 * nibble counters, and the small text rewriters.
 */
module DemoStages {
  import opened Errors
  import opened Strings
  import opened Values
  import opened Packets
  import opened StageCommon
  import FilterUtils
  import Tanks
  import PlainStages

  // =====================================================================
  // FactorialCalc

  function Fact(n: nat): (r: nat)
    ensures r >= 1
  {
    if n == 0 then 1 else n * Fact(n - 1)
  }

  /**
   * The checks FactorialCalc.filter_data makes before it branches, giving x:
   * a missing x is an AttributeError; `assert packet.x > 0` (Python 2
   * ordering) is an AssertionError; the progress line formats seq_num, when
   * the packet has one, and x with `%d`, a TypeError unless both are numbers.
   */
  function FactorialInput(p: Packet): (r: Result<int>)
    ensures "x" !in p.fields ==> r == Err(AttributeError)
    ensures "x" in p.fields && !PyLess(VInt(0), p.fields["x"]) ==> r == Err(AssertionError)
    ensures r.Ok? <==> "x" in p.fields && NumberOf(p.fields["x"]).Some? && NumberOf(p.fields["x"]).value > 0 &&
                       ("seq_num" !in p.fields || NumberOf(p.fields["seq_num"]).Some?)
    ensures r.Ok? ==> r.value >= 1 && PyEq(p.fields["x"], VInt(r.value))
  {
    if "x" !in p.fields then Err(AttributeError)
    else if !PyLess(VInt(0), p.fields["x"]) then Err(AssertionError)
    else if "seq_num" in p.fields && NumberOf(p.fields["seq_num"]).None? then Err(TypeError)
    else match NumberOf(p.fields["x"])
      case None => Err(TypeError)
      case Some(x) => Ok(x)
  }

  /**
   * `pending *= x` for a whole number x: numbers multiply, a string or a
   * list is repeated x times, anything else is a TypeError.
   */
  function TimesInt(v: Value, x: int): (r: Result<Value>)
    ensures NumberOf(v).Some? ==> r == Ok(VInt(NumberOf(v).value * x))
    ensures v.VStr? && x > 0 ==> r.Ok? && r.value.VStr? && |r.value.s| == |v.s| * x
    ensures v.VNone? ==> r == Err(TypeError)
  {
    match v
    case VBool(_) => Ok(VInt(NumberOf(v).value * x))
    case VInt(i) => Ok(VInt(i * x))
    case VStr(s) => Ok(VStr(FilterUtils.Repeat(s, x)))
    case VList(items) => Ok(VList(FilterUtils.Repeat(items, x)))
    case VPackets(ps) => Ok(VPackets(FilterUtils.Repeat(ps, x)))
    case VNone => Err(TypeError)
    case VFloat(_) => Err(TypeError)
  }

  /**
   * FactorialCalc.filter_data as evidently intended: the packet, which it
   * then sends on to main. At x == 1 the result `x_factorial` is the pending
   * product, or 1 when there is none yet, and `recurse` becomes False; the
   * result line formats it with `%d`, a TypeError unless it is a number.
   * Otherwise x is folded into `pending` (which starts as x), x drops by one
   * and `recurse` becomes True.
   */
  function FactorialCalc(p: Packet): (r: Result<Packet>)
    ensures FactorialInput(p).Err? ==> r == Err(FactorialInput(p).error)
    ensures FactorialInput(p) == Ok(1) ==>
      (r.Ok? <==> "pending" !in p.fields || NumberOf(p.fields["pending"]).Some?)
    ensures FactorialInput(p) == Ok(1) && r.Ok? ==>
      "recurse" in r.value.fields && "x_factorial" in r.value.fields &&
      r.value.fields["recurse"] == VBool(false) &&
      r.value.fields["x_factorial"] == (if "pending" in p.fields then p.fields["pending"] else VInt(1))
    ensures FactorialInput(p).Ok? && FactorialInput(p).value > 1 && "pending" !in p.fields ==>
      r.Ok? && "pending" in r.value.fields && "x" in r.value.fields && "x" in p.fields &&
      r.value.fields["pending"] == p.fields["x"] && r.value.fields["x"] == VInt(FactorialInput(p).value - 1)
    ensures r.Ok? ==> "recurse" in r.value.fields && "x" in r.value.fields
    ensures r.Ok? ==> forall k :: k in p.fields && k !in {"x", "pending", "recurse", "x_factorial"} ==>
      k in r.value.fields && r.value.fields[k] == p.fields[k]
  {
    match FactorialInput(p)
    case Err(e) => Err(e)
    case Ok(x) =>
      if x == 1 then
        var result := if "pending" in p.fields then p.fields["pending"] else VInt(1);
        if NumberOf(result).None? then Err(TypeError)
        else Ok(Set(Set(p, "x_factorial", result), "recurse", VBool(false)))
      else
        var pending := if "pending" in p.fields then TimesInt(p.fields["pending"], x) else Ok(VInt(x));
        match pending
        case Err(e) => Err(e)
        case Ok(v) => Ok(Set(Set(Set(p, "pending", v), "x", VInt(x - 1)), "recurse", VBool(true)))
  }

  /**
   * FactorialCalc.filter_data as written: at x == 1 a missing `pending`
   * raises AttributeError, which the `except KeyError` does not catch.
   */
  function FactorialCalcAsWritten(p: Packet): (r: Result<Packet>)
    ensures FactorialInput(p) == Ok(1) && "pending" !in p.fields ==> r == Err(AttributeError)
    ensures !(FactorialInput(p) == Ok(1) && "pending" !in p.fields) ==> r == FactorialCalc(p)
  {
    if FactorialInput(p) == Ok(1) && "pending" !in p.fields then Err(AttributeError)
    else FactorialCalc(p)
  }

  /** `DataPacket(x=n)` */
  function XPacket(n: int): (p: Packet)
    ensures "x" in p.fields && p.fields["x"] == VInt(n) && "pending" !in p.fields && "x_factorial" !in p.fields
  {
    NewPacket(VStr(""), -1, map["x" := VInt(n)])
  }

  /** The factorial of 1 crashes as written and is 1 as intended. */
  lemma FactorialOfOne()
    ensures FactorialCalcAsWritten(XPacket(1)) == Err(AttributeError)
    ensures FactorialCalc(XPacket(1)).Ok? && FactorialCalc(XPacket(1)).value.fields["x_factorial"] == VInt(1)
  {
  }

  /**
   * The loop invariant of the factorial route for a packet started at x = n:
   * 1 <= x <= n and pending * x! == n!, pending being absent on the first
   * pass only.
   */
  ghost predicate FactInv(p: Packet, n: nat)
  {
    ("seq_num" !in p.fields || NumberOf(p.fields["seq_num"]).Some?) &&
    "x" in p.fields && p.fields["x"].VInt? && 1 <= p.fields["x"].i <= n &&
    if "pending" in p.fields then
      p.fields["pending"].VInt? && p.fields["pending"].i * Fact(p.fields["x"].i) == Fact(n)
    else p.fields["x"].i == n
  }

  /** x of a packet keeping the invariant. */
  function XOf(p: Packet): (k: nat)
    requires "x" in p.fields && p.fields["x"].VInt? && p.fields["x"].i >= 1
  {
    p.fields["x"].i
  }

  lemma MulAssoc(a: int, b: int, c: int)
    ensures (a * b) * c == a * (b * c)
  {
  }

  /**
   * One pass keeps the invariant and lowers x while x > 1 (recurse True);
   * at x == 1 it stops with `x_factorial` == n! (recurse False).
   */
  lemma {:induction false} FactorialStep(p: Packet, n: nat)
    requires FactInv(p, n)
    ensures FactorialCalc(p).Ok?
    ensures var q := FactorialCalc(p).value;
      XOf(p) > 1 ==> q.fields["recurse"] == VBool(true) && FactInv(q, n) && XOf(q) == XOf(p) - 1
    ensures var q := FactorialCalc(p).value;
      XOf(p) == 1 ==> q.fields["recurse"] == VBool(false) && q.fields["x_factorial"] == VInt(Fact(n))
  {
    var x := XOf(p);
    if x > 1 {
      var m := if "pending" in p.fields then p.fields["pending"].i else 1;
      FactorialCalcOn(p, x, m);
      FactInvNext(p, n, x, m);
    } else {
      assert "pending" in p.fields ==> p.fields["pending"].i * 1 == Fact(n);
      FactorialCalcDone(p);
    }
  }

  /** Folding x into the pending product and lowering x keeps the invariant. */
  lemma FactInvNext(p: Packet, n: nat, x: int, m: int)
    requires FactInv(p, n) && p.fields["x"] == VInt(x) && x > 1
    requires if "pending" in p.fields then p.fields["pending"] == VInt(m) else m == 1
    ensures FactInv(Set(Set(Set(p, "pending", VInt(m * x)), "x", VInt(x - 1)), "recurse", VBool(true)), n)
  {
    assert m * Fact(x) == Fact(n);
    assert Fact(x) == x * Fact(x - 1);
    MulAssoc(m, x, Fact(x - 1));
  }

  /** A pass with x > 1 over an integer (or absent) pending product m. */
  lemma FactorialCalcOn(p: Packet, x: int, m: int)
    requires "seq_num" !in p.fields || NumberOf(p.fields["seq_num"]).Some?
    requires "x" in p.fields && p.fields["x"] == VInt(x) && x > 1
    requires if "pending" in p.fields then p.fields["pending"] == VInt(m) else m == 1
    ensures FactorialCalc(p) == Ok(Set(Set(Set(p, "pending", VInt(m * x)), "x", VInt(x - 1)), "recurse", VBool(true)))
  {
    assert FactorialInput(p) == Ok(x);
    var pending := if "pending" in p.fields then TimesInt(p.fields["pending"], x) else Ok(VInt(x));
    assert pending == Ok(VInt(m * x));
  }

  /** The last pass, x == 1, over an integer (or absent) pending product. */
  lemma FactorialCalcDone(p: Packet)
    requires "seq_num" !in p.fields || NumberOf(p.fields["seq_num"]).Some?
    requires "x" in p.fields && p.fields["x"] == VInt(1)
    requires "pending" in p.fields ==> p.fields["pending"].VInt?
    ensures FactorialCalc(p) ==
      Ok(Set(Set(p, "x_factorial", if "pending" in p.fields then p.fields["pending"] else VInt(1)), "recurse", VBool(false)))
  {
    assert FactorialInput(p) == Ok(1);
  }

  /**
   * One pass of a packet through factorial_calc and `branch_if:recurse`:
   * the packet and whether it goes to the branch (back to the tank) rather
   * than on to the sink.
   */
  method FactorialPass(p: Packet, n: int) returns (r: Result<(Packet, bool)>)
    ensures n >= 1 && FactInv(p, n) ==>
      r.Ok? && (r.value.1 <==> XOf(p) > 1) &&
      (r.value.1 ==> FactInv(r.value.0, n) && XOf(r.value.0) == XOf(p) - 1) &&
      (!r.value.1 ==> "x_factorial" in r.value.0.fields && r.value.0.fields["x_factorial"] == VInt(Fact(n)))
    ensures n < 1 && p == XPacket(n) ==> r == Err(AssertionError)
  {
    var step := FactorialCalc(p);
    if step.Err? {
      return Err(step.error);
    }
    if n >= 1 && FactInv(p, n) {
      FactorialStep(p, n);
    }
    var q := step.value;
    var routed := PlainStages.BranchIf(q, map[], "recurse", "equals", VBool(true), true);
    if routed.Err? {
      return Err(routed.error);
    }
    r := Ok((q, routed.value[0].forkDest == "branch"));
  }

  /**
   * The Factorial route of ppln_demo.py for one packet DataPacket(x=n):
   * the sized-0 `tank_queue` pushes it and pops while it is over size; each
   * popped packet passes factorial_calc and `branch_if:recurse`, whose
   * branch (tank_feed) pushes it straight back onto the same tank, so the
   * loop goes on inside the one filter_data call until the packet leaves
   * by main for the sink.
   */
  method Trampoline(tank: Tanks.TankQueue, n: int) returns (r: Result<Packet>)
    requires tank.Valid() && tank.tankSize == 0 && tank.priorityFieldName == VBool(true)
    modifies tank, tank.pq
    ensures tank.Valid() && tank.tankSize == 0 && tank.priorityFieldName == VBool(true)
    ensures n >= 1 ==> r.Ok? && "x_factorial" in r.value.fields && r.value.fields["x_factorial"] == VInt(Fact(n))
    ensures n < 1 ==> r == Err(AssertionError)
  {
    r := Err(AssertionError);
    var p := XPacket(n);
    tank.Push(Some(p));
    while tank.Spare() < 0
      invariant tank.Held() && tank.tankSize == 0 && tank.priorityFieldName == VBool(true)
      invariant |tank.pq.queue| <= 1
      invariant |tank.pq.queue| == 1 ==>
        (tank.pq.queue[0].item.Some? &&
         (n >= 1 ==> FactInv(tank.pq.queue[0].item.value, n)) &&
         (n < 1 ==> tank.pq.queue[0].item.value == p))
      invariant |tank.pq.queue| == 0 ==>
        (n >= 1 && r.Ok? && "x_factorial" in r.value.fields && r.value.fields["x_factorial"] == VInt(Fact(n)))
      decreases if |tank.pq.queue| == 1 && n >= 1 then XOf(tank.pq.queue[0].item.value) else 0,
        |tank.pq.queue|
    {
      ghost var before := tank.pq.queue;
      var out := tank.Pop();
      assert out == before[0].item;
      var pass := FactorialPass(out.value, n);
      if pass.Err? {
        return Err(pass.error);
      }
      var (q, again) := pass.value;
      if again {
        // tank_feed pushes the packet back onto the tank
        Tanks.FeedPacket(tank, q);
      } else {
        r := Ok(q);
      }
    }
  }

  /**
   * The Factorial route run on DataPacket(x=n) for each n in turn: the
   * sink receives one result per packet, in submission order, each the
   * factorial of its x; a non-positive x stops the route with
   * AssertionError.
   */
  method FactorialRoute(xs: seq<int>) returns (r: Result<seq<Packet>>)
    ensures (forall i :: 0 <= i < |xs| ==> xs[i] >= 1) ==>
      r.Ok? && |r.value| == |xs| &&
      forall i :: 0 <= i < |xs| ==> "x_factorial" in r.value[i].fields && r.value[i].fields["x_factorial"] == VInt(Fact(xs[i]))
    ensures (exists i :: 0 <= i < |xs| && xs[i] < 1) ==> r == Err(AssertionError)
  {
    var tank := new Tanks.TankQueue(0, VBool(true), false);
    var sunk: seq<Packet> := [];
    for i := 0 to |xs|
      invariant tank.Valid() && tank.tankSize == 0 && tank.priorityFieldName == VBool(true)
      invariant |sunk| == i && forall j :: 0 <= j < i ==> xs[j] >= 1
      invariant forall j :: 0 <= j < i ==> "x_factorial" in sunk[j].fields && sunk[j].fields["x_factorial"] == VInt(Fact(xs[j]))
    {
      var out := Trampoline(tank, xs[i]);
      if out.Err? {
        return Err(out.error);
      }
      sunk := sunk + [out.value];
    }
    return Ok(sunk);
  }

  /** A worked run of the Factorial route: 6, 3 and 4 give 720, 6 and 24, in that order. */
  method FactorialDemo() returns (r: Result<seq<Packet>>)
    ensures r.Ok? && |r.value| == 3
    ensures "x_factorial" in r.value[0].fields && r.value[0].fields["x_factorial"] == VInt(720)
    ensures "x_factorial" in r.value[1].fields && r.value[1].fields["x_factorial"] == VInt(6)
    ensures "x_factorial" in r.value[2].fields && r.value[2].fields["x_factorial"] == VInt(24)
  {
    assert Fact(3) == 6 && Fact(4) == 24;
    assert Fact(6) == 720 by {
      assert Fact(5) == 120;
    }
    r := FactorialRoute([6, 3, 4]);
  }

  // =====================================================================
  // SumBits

  /**
   * SumBits: `bit_sum` iterates the data, so the set bits of the chars of
   * string data, or of a list of one-char strings, are added to `bit_sum`;
   * `byte_count` grows by `data_length`, the length of string data and 0
   * for anything else.
   */
  class SumBits {
    var bitSum: int
    var byteCount: int
    /** The chars whose bits were counted since zero_inputs. */
    ghost var seen: string
    /** The string data counted since zero_inputs. */
    ghost var text: string

    ghost predicate Valid()
      reads this
    {
      bitSum == FilterUtils.BitCount(seen) && byteCount == |text|
    }

    /** zero_inputs */
    constructor()
      ensures Valid() && seen == "" && text == ""
    {
      bitSum := 0;
      byteCount := 0;
      seen := "";
      text := "";
    }

    /**
     * filter_data: data that `bit_sum` cannot iterate as one-char strings
     * is a TypeError raised before either counter changes.
     */
    method FilterData(p: Packet) returns (r: Result<seq<Send>>)
      requires Valid()
      modifies this
      ensures Valid()
      ensures CharRun(Data(p)).1 ==>
        r == Ok([Send("main", p)]) && seen == old(seen) + CharRun(Data(p)).0 && text == old(text) + DataStr(p)
      ensures !CharRun(Data(p)).1 ==> r == Err(TypeError) && seen == old(seen) && text == old(text)
    {
      var (chars, whole) := CharRun(Data(p));
      if !whole {
        return Err(TypeError);
      }
      var n := FilterUtils.BitSum(chars);
      FilterUtils.BitCountAppend(seen, chars);
      bitSum := bitSum + n;
      byteCount := byteCount + DataLength(p);
      seen := seen + chars;
      text := text + DataStr(p);
      return Ok([Send("main", p)]);
    }
  }

  /** `['a', 'b']` is iterated as the chars of "ab", and whole. */
  lemma ListChars()
    ensures CharRun(VList([VStr("a"), VStr("b")])) == ("ab", true)
  {
    var items := [VStr("a"), VStr("b")];
    assert items[1..] == [VStr("b")] && items[1..][1..] == [];
    assert OneChar(VStr("a")) && OneChar(VStr("b"));
    assert LeadingChars([]) == ("", true);
    assert ['b'] + "" == "b";
    assert LeadingChars([VStr("b")]) == ("b", true);
    assert ['a'] + "b" == "ab";
  }

  /** "ab" has 3 set bits in each char. */
  lemma ListBits()
    ensures FilterUtils.BitCount("ab") == 6
  {
    assert "ab"[..1] == "a" && "a"[..0] == "";
    assert FilterUtils.ByteOf('a' as int) == 0x61 && FilterUtils.ByteOf('b' as int) == 0x62;
    FilterUtils.PopCountBits(0x61);
    FilterUtils.PopCountBits(0x62);
    assert FilterUtils.BitCount("a") == FilterUtils.PopCount(0x61);
  }

  // =====================================================================
  // SumBytes and SumNibbles

  /** The values of a sequence of counts, added up. */
  function Total(xs: seq<int>): (t: int)
  {
    if |xs| == 0 then 0 else Total(xs[..|xs| - 1]) + xs[|xs| - 1]
  }

  /** Counting one more occurrence adds one to the total. */
  lemma {:induction false} TotalBump(xs: seq<int>, b: nat)
    requires b < |xs|
    ensures Total(xs[b := xs[b] + 1]) == Total(xs) + 1
    decreases |xs|
  {
    var ys := xs[b := xs[b] + 1];
    var k := |xs| - 1;
    assert ys[..k] == if b < k then xs[..k][b := xs[b] + 1] else xs[..k];
    if b < k {
      TotalBump(xs[..k], b);
    }
  }

  /** A one-char string: all that `ord()` takes. */
  predicate OneChar(v: Value)
  {
    v.VStr? && |v.s| == 1
  }

  /**
   * What `for char in data` hands to `ord()` before `ord()` refuses one:
   * all the chars of a string, or the leading one-char strings of a list;
   * `whole` is false when some item, or the data itself, is not iterable as
   * one-char strings (TypeError once the run is used up). A list of
   * packets yields packets, which ord refuses at once.
   */
  function CharRun(v: Value): (r: (string, bool))
    ensures v.VStr? ==> r == (v.s, true)
    ensures v.VList? ==>
      |r.0| <= |v.items| && (r.1 <==> |r.0| == |v.items|) &&
      (forall i :: 0 <= i < |r.0| ==> v.items[i] == VStr([r.0[i]])) &&
      (!r.1 ==> !OneChar(v.items[|r.0|]))
    ensures v.VPackets? ==> r == ("", v.packets == [])
    ensures !v.VStr? && !v.VList? && !v.VPackets? ==> r == ("", false)
  {
    match v
    case VStr(t) => (t, true)
    case VList(items) => LeadingChars(items)
    case VPackets(ps) => ("", ps == [])
    case _ => ("", false)
  }

  /** The chars of the leading one-char strings, and whether that is all of them. */
  function LeadingChars(items: seq<Value>): (r: (string, bool))
    ensures |r.0| <= |items| && (r.1 <==> |r.0| == |items|)
    ensures forall i :: 0 <= i < |r.0| ==> items[i] == VStr([r.0[i]])
    ensures !r.1 ==> !OneChar(items[|r.0|])
  {
    if items == [] then ("", true)
    else if OneChar(items[0]) then
      var rest := LeadingChars(items[1..]);
      ([items[0].s[0]] + rest.0, rest.1)
    else ("", false)
  }

  /** The index of the first char that is not a byte (|s| when all are). */
  function FirstWide(s: string): (k: nat)
    ensures k <= |s|
    ensures forall j :: 0 <= j < k ==> s[j] as int < 256
    ensures k < |s| ==> s[k] as int >= 256
  {
    if |s| == 0 || s[0] as int >= 256 then 0 else 1 + FirstWide(s[1..])
  }

  /** The sum of the char codes. */
  function OrdSum(s: string): (n: nat)
  {
    if |s| == 0 then 0 else OrdSum(s[..|s| - 1]) + s[|s| - 1] as int
  }

  /** How many chars of s have code b. */
  function Tally(s: string, b: int): (n: nat)
  {
    if |s| == 0 then 0 else Tally(s[..|s| - 1], b) + if s[|s| - 1] as int == b then 1 else 0
  }

  /**
   * The histogram of the chars seen: one count per byte value, the counts
   * adding up to the number of chars.
   */
  ghost predicate Histogram(counts: seq<int>, seen: string)
  {
    |counts| == 256 && Total(counts) == |seen| &&
    forall b :: 0 <= b < 256 ==> counts[b] == Tally(seen, b)
  }

  /** One byte more in the histogram. */
  lemma HistogramStep(counts: seq<int>, seen: string, c: char, counts2: seq<int>, seen2: string)
    requires Histogram(counts, seen) && c as int < 256
    requires counts2 == counts[c as int := counts[c as int] + 1] && seen2 == seen + [c]
    ensures Histogram(counts2, seen2)
  {
    TotalBump(counts, c as int);
    assert seen2[..|seen|] == seen;
  }

  /** The state SumBytes keeps for the chars it has seen. */
  ghost predicate ByteTotals(count: int, sum: int, dict: seq<int>, seen: string)
  {
    count == |seen| && sum == OrdSum(seen) && Histogram(dict, seen)
  }

  /** Counting one byte more keeps the totals. */
  lemma ByteTotalsStep(count: int, sum: int, dict: seq<int>, seen: string, c: char)
    requires ByteTotals(count, sum, dict, seen) && c as int < 256
    ensures ByteTotals(count + 1, sum + c as int, dict[c as int := dict[c as int] + 1], seen + [c])
  {
    HistogramStep(dict, seen, c, dict[c as int := dict[c as int] + 1], seen + [c]);
    assert (seen + [c])[..|seen|] == seen;
  }

  /**
   * SumBytes: the codes of all chars are added up in `byte_sum`, counted in
   * `byte_count` and tallied by value in `byte_dict` (the dict keyed 0 to
   * 255, here a list indexed by key). A char above 255 has no key: it is
   * summed and counted, then raises KeyError.
   */
  class SumBytes {
    var byteCount: int
    var byteSum: int
    var byteDict: seq<int>
    /** The chars tallied since zero_inputs. */
    ghost var seen: string

    ghost predicate Valid()
      reads this
    {
      ByteTotals(byteCount, byteSum, byteDict, seen)
    }

    /** zero_inputs */
    constructor()
      ensures Valid() && seen == ""
    {
      byteCount := 0;
      byteSum := 0;
      byteDict := seq(256, b => 0);
      seen := "";
      new;
      ZeroTotal(byteDict);
    }

    /** One byte counted: summed, counted and tallied. */
    method Count(c: char)
      requires Valid() && c as int < 256
      modifies this
      ensures Valid() && seen == old(seen) + [c]
    {
      ByteTotalsStep(byteCount, byteSum, byteDict, seen, c);
      var b := c as int;
      byteSum, byteCount, byteDict, seen := byteSum + b, byteCount + 1, byteDict[b := byteDict[b] + 1], seen + [c];
    }

    /** The loop of filter_data over the chars `ord()` takes: false when a wide char stops it with KeyError. */
    method Tally(s: string) returns (complete: bool)
      requires Valid()
      modifies this
      ensures complete <==> FirstWide(s) == |s|
      ensures complete ==> Valid() && seen == old(seen) + s
      ensures !complete ==>
        var k := FirstWide(s);
        seen == old(seen) + s[..k] && ByteTotals(byteCount - 1, byteSum - s[k] as int, byteDict, seen)
    {
      for i := 0 to |s|
        invariant i <= FirstWide(s) && seen == old(seen) + s[..i] && Valid()
      {
        var b := s[i] as int;
        if b >= 256 {
          // byte_dict has no such key: the sum and count are already bumped
          byteSum, byteCount := byteSum + b, byteCount + 1;
          return false;
        }
        assert s[..i + 1] == s[..i] + [s[i]];
        Count(s[i]);
      }
      assert s[..|s|] == s;
      return true;
    }

    /** filter_data */
    method FilterData(p: Packet) returns (r: Result<seq<Send>>)
      requires Valid()
      modifies this
      ensures var (s, whole) := CharRun(Data(p));
        FirstWide(s) == |s| ==>
          Valid() && seen == old(seen) + s && r == if whole then Ok([Send("main", p)]) else Err(TypeError)
      ensures var s := CharRun(Data(p)).0;
        FirstWide(s) < |s| ==>
          var k := FirstWide(s);
          r == Err(KeyError) && seen == old(seen) + s[..k] &&
          ByteTotals(byteCount - 1, byteSum - s[k] as int, byteDict, seen)
    {
      var (s, whole) := CharRun(Data(p));
      var complete := Tally(s);
      if !complete {
        return Err(KeyError);
      }
      if !whole {
        // the item after the run is not a one-char string: ord raises
        return Err(TypeError);
      }
      return Ok([Send("main", p)]);
    }
  }

  lemma {:induction false} ZeroTotal(xs: seq<int>)
    requires forall i :: 0 <= i < |xs| ==> xs[i] == 0
    ensures Total(xs) == 0 && forall b :: 0 <= b < |xs| ==> xs[b] == Tally("", b)
    decreases |xs|
  {
    if |xs| > 0 {
      ZeroTotal(xs[..|xs| - 1]);
    }
  }

  /** The sum of the high and low nibbles of every char. */
  function NibbleSum(s: string): (n: nat)
  {
    if |s| == 0 then 0 else NibbleSum(s[..|s| - 1]) + (s[|s| - 1] as int) / 16 + (s[|s| - 1] as int) % 16
  }

  /** How many nibbles (high and low) of the chars of s have value v. */
  function NibbleTally(s: string, v: int): (n: nat)
  {
    if |s| == 0 then 0
    else
      var o := s[|s| - 1] as int;
      NibbleTally(s[..|s| - 1], v) + (if o / 16 == v then 1 else 0) + (if o % 16 == v then 1 else 0)
  }

  /** The nibble histogram: sixteen counts adding up to two per char. */
  ghost predicate NibbleHistogram(counts: seq<int>, seen: string)
  {
    |counts| == 16 && Total(counts) == 2 * |seen| &&
    forall v :: 0 <= v < 16 ==> counts[v] == NibbleTally(seen, v)
  }

  /** `nibble_dict` after both nibbles of c are counted. */
  function CountNibbles(counts: seq<int>, c: char): (r: seq<int>)
    requires |counts| == 16 && c as int < 256
    ensures |r| == 16
  {
    var hi, lo := (c as int) / 16, (c as int) % 16;
    var mid := counts[hi := counts[hi] + 1];
    mid[lo := mid[lo] + 1]
  }

  /** The state SumNibbles keeps for the chars it has seen. */
  ghost predicate NibbleTotals(count: int, sum: int, dict: seq<int>, seen: string)
  {
    count == |seen| && sum == NibbleSum(seen) && NibbleHistogram(dict, seen)
  }

  /** Counting the two nibbles of one byte more keeps the totals. */
  lemma NibbleTotalsStep(count: int, sum: int, dict: seq<int>, seen: string, c: char)
    requires NibbleTotals(count, sum, dict, seen) && c as int < 256
    ensures NibbleTotals(count + 1, sum + (c as int) / 16 + (c as int) % 16, CountNibbles(dict, c), seen + [c])
  {
    var hi, lo := (c as int) / 16, (c as int) % 16;
    var mid := dict[hi := dict[hi] + 1];
    TotalBump(dict, hi);
    TotalBump(mid, lo);
    assert (seen + [c])[..|seen|] == seen;
  }

  /**
   * SumNibbles: the high and low nibbles of all chars are added up in
   * `nibble_sum`, the chars counted in `byte_count` and the nibbles tallied
   * by value in `nibble_dict` (keyed 0 to 15). A char above 255 has a high
   * nibble with no key: it is summed and counted, then raises KeyError.
   */
  class SumNibbles {
    var byteCount: int
    var nibbleSum: int
    var nibbleDict: seq<int>
    /** The chars tallied since zero_inputs. */
    ghost var seen: string

    ghost predicate Valid()
      reads this
    {
      NibbleTotals(byteCount, nibbleSum, nibbleDict, seen)
    }

    /** zero_inputs */
    constructor()
      ensures Valid() && seen == ""
    {
      byteCount := 0;
      nibbleSum := 0;
      nibbleDict := seq(16, v => 0);
      seen := "";
      new;
      ZeroTotal(nibbleDict);
      assert forall v :: 0 <= v < 16 ==> NibbleTally("", v) == 0;
    }

    /** One byte counted: both nibbles summed and tallied, the byte counted. */
    method Count(c: char)
      requires Valid() && c as int < 256
      modifies this
      ensures Valid() && seen == old(seen) + [c]
    {
      NibbleTotalsStep(byteCount, nibbleSum, nibbleDict, seen, c);
      var o := c as int;
      nibbleSum, byteCount, nibbleDict, seen := nibbleSum + o / 16 + o % 16, byteCount + 1, CountNibbles(nibbleDict, c), seen + [c];
    }

    /** The loop of filter_data over the chars `ord()` takes: false when a wide char stops it with KeyError. */
    method Tally(s: string) returns (complete: bool)
      requires Valid()
      modifies this
      ensures complete <==> FirstWide(s) == |s|
      ensures complete ==> Valid() && seen == old(seen) + s
      ensures !complete ==>
        var k := FirstWide(s);
        var o := s[k] as int;
        seen == old(seen) + s[..k] && NibbleTotals(byteCount - 1, nibbleSum - o / 16 - o % 16, nibbleDict, seen)
    {
      for i := 0 to |s|
        invariant i <= FirstWide(s) && seen == old(seen) + s[..i] && Valid()
      {
        var o := s[i] as int;
        var hi, lo := o / 16, o % 16;
        if hi >= 16 {
          // nibble_dict has no such key: the sum and count are already bumped
          nibbleSum, byteCount := nibbleSum + hi + lo, byteCount + 1;
          return false;
        }
        assert s[..i + 1] == s[..i] + [s[i]];
        Count(s[i]);
      }
      assert s[..|s|] == s;
      return true;
    }

    /** filter_data */
    method FilterData(p: Packet) returns (r: Result<seq<Send>>)
      requires Valid()
      modifies this
      ensures var (s, whole) := CharRun(Data(p));
        FirstWide(s) == |s| ==>
          Valid() && seen == old(seen) + s && r == if whole then Ok([Send("main", p)]) else Err(TypeError)
      ensures var s := CharRun(Data(p)).0;
        FirstWide(s) < |s| ==>
          var k := FirstWide(s);
          var o := s[k] as int;
          r == Err(KeyError) && seen == old(seen) + s[..k] &&
          NibbleTotals(byteCount - 1, nibbleSum - o / 16 - o % 16, nibbleDict, seen)
    {
      var (s, whole) := CharRun(Data(p));
      var complete := Tally(s);
      if !complete {
        return Err(KeyError);
      }
      if !whole {
        // the item after the run is not a one-char string: ord raises
        return Err(TypeError);
      }
      return Ok([Send("main", p)]);
    }
  }

  // The promise of both counters: however the bytes are shuffled, the sums
  // do not change.

  /** The sum of f over the chars of s. */
  function SumBy(s: string, f: char -> int): (n: int)
  {
    if |s| == 0 then 0 else SumBy(s[..|s| - 1], f) + f(s[|s| - 1])
  }

  lemma {:induction false} SumByAppend(a: string, b: string, f: char -> int)
    ensures SumBy(a + b, f) == SumBy(a, f) + SumBy(b, f)
    decreases |b|
  {
    if |b| > 0 {
      assert (a + b)[..|a + b| - 1] == a + b[..|b| - 1];
      SumByAppend(a, b[..|b| - 1], f);
    } else {
      assert a + b == a;
    }
  }

  /** A sum over the chars depends only on which chars there are, not their order. */
  lemma {:induction false} SumByShuffle(a: string, b: string, f: char -> int)
    requires multiset(a) == multiset(b)
    ensures SumBy(a, f) == SumBy(b, f)
    decreases |a|
  {
    if |a| == 0 {
      assert |multiset(b)| == 0;
    } else {
      var n := |a| - 1;
      var x := a[n];
      assert a == a[..n] + [x];
      assert x in multiset(b);
      var j :| 0 <= j < |b| && b[j] == x;
      var rest := b[..j] + b[j + 1..];
      assert b == b[..j] + [x] + b[j + 1..];
      assert multiset(a) == multiset(a[..n]) + multiset{x};
      assert multiset(b) == multiset(b[..j]) + multiset{x} + multiset(b[j + 1..]);
      assert multiset(rest) == multiset(b[..j]) + multiset(b[j + 1..]);
      assert multiset(a[..n]) == multiset(a) - multiset{x};
      assert multiset(rest) == multiset(b) - multiset{x};
      SumByShuffle(a[..n], rest, f);
      SumByAppend(b[..j] + [x], b[j + 1..], f);
      SumByAppend(b[..j], [x], f);
      SumByAppend(b[..j], b[j + 1..], f);
      assert SumBy([x], f) == f(x) by {
        assert [x][..0] == [];
      }
    }
  }

  function Ord(c: char): int { c as int }

  function Nibbles(c: char): int { (c as int) / 16 + (c as int) % 16 }

  lemma {:induction false} OrdSumIsSum(s: string)
    ensures OrdSum(s) == SumBy(s, Ord)
    decreases |s|
  {
    if |s| > 0 {
      OrdSumIsSum(s[..|s| - 1]);
    }
  }

  lemma {:induction false} NibbleSumIsSum(s: string)
    ensures NibbleSum(s) == SumBy(s, Nibbles)
    decreases |s|
  {
    if |s| > 0 {
      NibbleSumIsSum(s[..|s| - 1]);
    }
  }

  /** SumBytes: however the bytes are shuffled, their sum does not change. */
  lemma ByteSumShuffled(a: string, b: string)
    requires multiset(a) == multiset(b)
    ensures OrdSum(a) == OrdSum(b)
  {
    OrdSumIsSum(a);
    OrdSumIsSum(b);
    SumByShuffle(a, b, Ord);
  }

  /** SumNibbles: however the bytes are shuffled, their nibble sum does not change. */
  lemma NibbleSumShuffled(a: string, b: string)
    requires multiset(a) == multiset(b)
    ensures NibbleSum(a) == NibbleSum(b)
  {
    NibbleSumIsSum(a);
    NibbleSumIsSum(b);
    SumByShuffle(a, b, Nibbles);
  }

  // =====================================================================
  // SwitchBits

  function Pow2(k: nat): (r: nat)
    ensures r >= 1
  {
    if k == 0 then 1 else 2 * Pow2(k - 1)
  }

  /** The low k bits of `a ^ b`, bit by bit from the lowest. */
  function XorBits(a: nat, b: nat, k: nat): (r: nat)
    ensures r < Pow2(k)
  {
    if k == 0 then 0 else 2 * XorBits(a / 2, b / 2, k - 1) + if a % 2 == b % 2 then 0 else 1
  }

  /** XOR with the same b twice gives back a number of k bits. */
  lemma {:induction false} XorBitsTwice(a: nat, b: nat, k: nat)
    requires a < Pow2(k)
    ensures XorBits(XorBits(a, b, k), b, k) == a
  {
    if k > 0 {
      var c1 := XorBits(a / 2, b / 2, k - 1);
      var c := XorBits(a, b, k);
      assert c / 2 == c1 && c % 2 == if a % 2 == b % 2 then 0 else 1;
      XorBitsTwice(a / 2, b / 2, k - 1);
    }
  }

  /**
   * `chr(ord(c) ^ mask)`: None where chr would raise ValueError. The XOR
   * lands in 0..255 exactly when the mask is not negative and has the same
   * bits above the low byte as the char, which the XOR then cancels; what
   * is left is the XOR of the two low bytes.
   */
  function XorChar(c: char, mask: int): (r: Option<char>)
    ensures r.Some? <==> mask >= 0 && c as int / 256 == mask / 256
    ensures r.Some? ==> r.value as int < 256
  {
    if mask >= 0 && c as int / 256 == mask / 256 then Some(XorBits(c as int % 256, mask % 256, 8) as char)
    else None
  }

  /** XOR with the same byte mask twice gives the char back. */
  lemma XorCharTwice(c: char, mask: int)
    requires XorChar(c, mask).Some? && mask < 256
    ensures XorChar(XorChar(c, mask).value, mask) == Some(c)
  {
    var b := c as int;
    assert 0 <= b < 256 && 0 <= mask < 256;
    assert b % 256 == b && mask % 256 == mask;
    var v := XorBits(b, mask, 8);
    assert Pow2(8) == 256;
    assert v / 256 == 0 && v % 256 == v;
    assert XorChar(c, mask).value as int == v;
    XorBitsTwice(b, mask, 8);
  }

  /** A mask of 256 or more switches only chars above 255, and its result cannot be switched again. */
  lemma XorCharWideMask(c: char, mask: int)
    requires XorChar(c, mask).Some? && mask >= 256
    ensures c as int >= 256
    ensures XorChar(XorChar(c, mask).value, mask).None?
  {
  }

  /** XOR with zero keeps a number of k bits. */
  lemma {:induction false} XorBitsZero(a: nat, k: nat)
    requires a < Pow2(k)
    ensures XorBits(a, 0, k) == a
  {
    if k > 0 {
      XorBitsZero(a / 2, k - 1);
    }
  }

  /** `unichr(0x141) ^ 0x100`: the mask cancels the high bit, leaving `A`. */
  lemma WideCharSwitched()
    ensures XorChar('\U{0141}', 0x100) == Some('A')
  {
    assert '\U{0141}' as int == 0x141;
    assert 0x141 / 256 == 1 && 0x141 % 256 == 0x41 && 0x100 / 256 == 1 && 0x100 % 256 == 0;
    assert Pow2(8) == 256;
    XorBitsZero(0x41, 8);
  }

  /** Every char switched, when all can be. */
  ghost function Switched(s: string, mask: int): (r: Option<string>)
    ensures r.Some? <==> forall i :: 0 <= i < |s| ==> XorChar(s[i], mask).Some?
    ensures r.Some? ==> |r.value| == |s| && forall i :: 0 <= i < |s| ==> Some(r.value[i]) == XorChar(s[i], mask)
  {
    if exists i :: 0 <= i < |s| && XorChar(s[i], mask).None? then None
    else Some(seq(|s|, i requires 0 <= i < |s| => XorChar(s[i], mask).value))
  }

  /**
   * Switching twice with the same mask restores the data when the mask is
   * below 256; with a wider mask the switched data cannot be switched again.
   */
  lemma SwitchedTwice(s: string, mask: int)
    requires Switched(s, mask).Some?
    ensures mask < 256 ==> Switched(Switched(s, mask).value, mask) == Some(s)
    ensures mask >= 256 && |s| > 0 ==> Switched(Switched(s, mask).value, mask).None?
  {
    var t := Switched(s, mask).value;
    if mask < 256 {
      forall i | 0 <= i < |s|
        ensures XorChar(t[i], mask) == Some(s[i])
      {
        XorCharTwice(s[i], mask);
      }
      assert Switched(t, mask).value == s;
    } else if |s| > 0 {
      XorCharWideMask(s[0], mask);
      assert XorChar(t[0], mask).None?;
    }
  }

  /**
   * SwitchBits: every char of the data is XORed with `bit_switch_mask`; a
   * result outside 0..255 is a ValueError from chr. The data is iterated:
   * a string gives its chars, a list its items, and an item that is not a
   * one-char string is a TypeError from ord, as is data that cannot be
   * iterated. The first failure in order decides the error.
   */
  method SwitchBits(p: Packet, mask: int) returns (r: Result<seq<Send>>)
    ensures Switched(CharRun(Data(p)).0, mask).None? ==> r == Err(ValueError)
    ensures Switched(CharRun(Data(p)).0, mask).Some? && !CharRun(Data(p)).1 ==> r == Err(TypeError)
    ensures Switched(CharRun(Data(p)).0, mask).Some? && CharRun(Data(p)).1 ==>
      r == Ok([Send("main", Set(p, "data", VStr(Switched(CharRun(Data(p)).0, mask).value)))])
  {
    var (s, whole) := CharRun(Data(p));
    var switched := SwitchChars(s, mask);
    if switched.None? {
      return Err(ValueError);
    }
    if !whole {
      // the item after the run is not a one-char string: ord raises
      return Err(TypeError);
    }
    return Ok([Send("main", Set(p, "data", VStr(switched.value)))]);
  }

  /** The loop of switch_bits over the chars `ord()` takes: None at the first char chr refuses. */
  method SwitchChars(s: string, mask: int) returns (r: Option<string>)
    ensures r == Switched(s, mask)
  {
    var newData: string := [];
    for i := 0 to |s|
      invariant |newData| == i && forall j :: 0 <= j < i ==> Some(newData[j]) == XorChar(s[j], mask)
    {
      var c := XorChar(s[i], mask);
      if c.None? {
        return None;
      }
      newData := newData + [c.value];
    }
    assert Switched(s, mask).Some?;
    assert Switched(s, mask).value == newData;
    return Some(newData);
  }

  // =====================================================================
  // TempTextAfter, TempTextBefore, TempSpace, Capitalise

  /** TempTextAfter: `text_after` goes after string data; other data is a TypeError. */
  function TempTextAfter(p: Packet, textAfter: string): (r: Result<seq<Send>>)
    ensures !Data(p).VStr? <==> r == Err(TypeError)
    ensures r.Ok? ==>
      (|r.value| == 1 && r.value[0].forkDest == "main" &&
       r.value[0].packet.fields.Keys == p.fields.Keys + {"data"} &&
       var d := DataStr(r.value[0].packet);
       |d| == |DataStr(p)| + |textAfter| && d[..|DataStr(p)|] == DataStr(p) && d[|DataStr(p)|..] == textAfter)
  {
    if !Data(p).VStr? then Err(TypeError)
    else Ok([Send("main", Set(p, "data", VStr(Data(p).s + textAfter)))])
  }

  /** TempTextBefore: `text_before` goes before string data; other data is a TypeError. */
  function TempTextBefore(p: Packet, textBefore: string): (r: Result<seq<Send>>)
    ensures !Data(p).VStr? <==> r == Err(TypeError)
    ensures r.Ok? ==>
      (|r.value| == 1 && r.value[0].forkDest == "main" &&
       r.value[0].packet.fields.Keys == p.fields.Keys + {"data"} &&
       var d := DataStr(r.value[0].packet);
       |d| == |textBefore| + |DataStr(p)| && d[..|textBefore|] == textBefore && d[|textBefore|..] == DataStr(p))
  {
    if !Data(p).VStr? then Err(TypeError)
    else Ok([Send("main", Set(p, "data", VStr(textBefore + Data(p).s)))])
  }

  /** The chars of s, each as a one-char string. */
  function Chars(s: string): (cs: seq<string>)
    ensures |cs| == |s| && forall i :: 0 <= i < |s| ==> cs[i] == [s[i]]
  {
    seq(|s|, i requires 0 <= i < |s| => [s[i]])
  }

  /** Joining one part more. */
  lemma {:induction false} JoinAppend(parts: seq<string>, x: string, sep: string)
    requires |parts| > 0
    ensures Join(parts + [x], sep) == Join(parts, sep) + sep + x
    decreases |parts|
  {
    var all := parts + [x];
    if |parts| == 1 {
      assert all[1..] == [x];
    } else {
      assert all[1..] == parts[1..] + [x];
      JoinAppend(parts[1..], x, sep);
      ConcatAssoc(parts[0] + sep, Join(parts[1..], sep), sep + x);
    }
  }

  /**
   * The parts `' '.join(char for char in data)` joins: the chars of a
   * string or the items of a list of strings; None (TypeError) when the data
   * cannot be iterated or an item is not a string.
   */
  function SpaceParts(v: Value): (r: Option<seq<string>>)
    ensures v.VStr? ==> r == Some(Chars(v.s))
    ensures v.VList? ==> (r.Some? <==> forall i :: 0 <= i < |v.items| ==> v.items[i].VStr?)
    ensures v.VList? && r.Some? ==> |r.value| == |v.items| && forall i :: 0 <= i < |v.items| ==> r.value[i] == v.items[i].s
    ensures v.VPackets? ==> r == if v.packets == [] then Some([]) else None
    ensures !v.VStr? && !v.VList? && !v.VPackets? ==> r.None?
  {
    match v
    case VStr(t) => Some(Chars(t))
    case VList(items) =>
      if forall i :: 0 <= i < |items| ==> items[i].VStr? then Some(seq(|items|, i requires 0 <= i < |items| => items[i].s))
      else None
    case VPackets(ps) => if ps == [] then Some([]) else None
    case _ => None
  }

  /**
   * TempSpace: the parts of the data joined with single spaces (for
   * string data, its chars); data that gives no parts is a TypeError.
   */
  method TempSpace(p: Packet) returns (r: Result<seq<Send>>)
    ensures SpaceParts(Data(p)).None? ==> r == Err(TypeError)
    ensures SpaceParts(Data(p)).Some? ==> r == Ok([Send("main", Set(p, "data", VStr(Join(SpaceParts(Data(p)).value, " "))))])
  {
    var parts := SpaceParts(Data(p));
    if parts.None? {
      return Err(TypeError);
    }
    var xs := parts.value;
    var spaced: string := "";
    for i := 0 to |xs|
      invariant spaced == Join(xs[..i], " ")
    {
      assert xs[..i + 1] == xs[..i] + [xs[i]];
      if i == 0 {
        spaced := xs[i];
      } else {
        JoinAppend(xs[..i], xs[i], " ");
        spaced := spaced + " " + xs[i];
      }
    }
    assert xs[..|xs|] == xs;
    return Ok([Send("main", Set(p, "data", VStr(spaced)))]);
  }

  /** When the data has no spaces, splitting the spaced text on spaces gives back its chars. */
  lemma TempSpaceSplits(s: string)
    requires |s| > 0 && ' ' !in s
    ensures Split(Join(Chars(s), " "), ' ') == Chars(s)
  {
    SplitJoin(Chars(s), ' ');
  }

  /** `s.capitalize()`: the first char upper case, all the others lower case. */
  function Capitalize(s: string): (r: string)
  {
    if |s| == 0 then "" else [Upper(s[0])] + LowerStr(s[1..])
  }

  /**
   * What capitalize promises: same length, an upper-case (or non-letter)
   * first char, no upper-case letter after it; and doing it twice changes
   * nothing more.
   */
  lemma CapitalizeShape(s: string)
    ensures |Capitalize(s)| == |s|
    ensures |s| > 0 ==> !IsLower(Capitalize(s)[0])
    ensures forall i :: 1 <= i < |s| ==> !IsUpper(Capitalize(s)[i])
    ensures Capitalize(Capitalize(s)) == Capitalize(s)
  {
  }

  /** Capitalise: string data capitalized; other data has no capitalize (AttributeError). */
  function Capitalise(p: Packet): (r: Result<seq<Send>>)
    ensures !Data(p).VStr? <==> r == Err(AttributeError)
    ensures r.Ok? ==>
      (|r.value| == 1 && r.value[0].forkDest == "main" &&
       r.value[0].packet == Set(p, "data", VStr(Capitalize(Data(p).s))))
  {
    if !Data(p).VStr? then Err(AttributeError)
    else Ok([Send("main", Set(p, "data", VStr(Capitalize(Data(p).s))))])
  }

  // =====================================================================
  // MultiplyIfInteger

  /** A run of decimal digits, perhaps signed. */
  predicate IsSignedDigits(t: string)
  {
    IsDigits(t) || (|t| > 1 && (t[0] == '-' || t[0] == '+') && IsDigits(t[1..]))
  }

  /**
   * `int(v)`: an int as it is, a bool as 0 or 1, a string of (signed)
   * decimal digits between blanks as its value, another string a
   * ValueError, anything else a TypeError.
   */
  function PyInt(v: Value): (r: Result<int>)
    ensures v.VInt? ==> r == Ok(v.i)
    ensures v.VStr? ==> (r.Ok? <==> IsSignedDigits(Strip(v.s)))
    ensures v.VStr? && r.Err? ==> r.error == ValueError
    ensures (v.VNone? || v.VList? || v.VPackets? || v.VFloat?) ==> r == Err(TypeError)
  {
    match v
    case VInt(i) => Ok(i)
    case VBool(b) => Ok(if b then 1 else 0)
    case VStr(s) =>
      var t := Strip(s);
      if IsDigits(t) then Ok(DecimalValue(t))
      else if IsSignedDigits(t) then
        var magnitude: int := DecimalValue(t[1..]);
        Ok(if t[0] == '-' then -magnitude else magnitude)
      else Err(ValueError)
    case _ => Err(TypeError)
  }

  /** `str(n)` */
  function IntStr(n: int): (s: string)
  {
    if n < 0 then "-" + Decimal(-n) else Decimal(n)
  }

  /** `int(str(n)) == n` */
  lemma IntStrRoundTrip(n: int)
    ensures PyInt(VStr(IntStr(n))) == Ok(n)
  {
    var s := IntStr(n);
    if n < 0 {
      DecimalRoundTrip(-n);
      assert s[1..] == Decimal(-n);
      StripDigits(s);
    } else {
      DecimalRoundTrip(n);
      StripDigits(s);
    }
  }

  /** A (signed) number text has no blanks to strip. */
  lemma StripDigits(s: string)
    requires IsSignedDigits(s)
    ensures Strip(s) == s
  {
    assert !IsSpace(s[0]) && !IsSpace(s[|s| - 1]);
    StripKeeps(s);
  }

  lemma StripKeeps(s: string)
    requires |s| > 0 && !IsSpace(s[0]) && !IsSpace(s[|s| - 1])
    ensures Strip(s) == s
  {
  }

  /**
   * MultiplyIfInteger: data that int() reads becomes the text of its
   * product with `multiply_by`; a string int() rejects (ValueError) leaves
   * the packet alone; data int() cannot take at all is a TypeError.
   */
  function MultiplyIfInteger(p: Packet, multiplyBy: int): (r: Result<seq<Send>>)
    ensures PyInt(Data(p)).Ok? ==>
      r == Ok([Send("main", Set(p, "data", VStr(IntStr(PyInt(Data(p)).value * multiplyBy))))])
    ensures PyInt(Data(p)) == Err(ValueError) ==> r == Ok([Send("main", p)])
    ensures PyInt(Data(p)) == Err(TypeError) ==> r == Err(TypeError)
  {
    match PyInt(Data(p))
    case Ok(n) => Ok([Send("main", Set(p, "data", VStr(IntStr(n * multiplyBy))))])
    case Err(e) => if e == ValueError then Ok([Send("main", p)]) else Err(e)
  }

  /** The new data reads back as the product. */
  lemma MultiplyReadsBack(p: Packet, multiplyBy: int)
    requires PyInt(Data(p)).Ok?
    ensures PyInt(Data(MultiplyIfInteger(p, multiplyBy).value[0].packet)) == Ok(PyInt(Data(p)).value * multiplyBy)
  {
    IntStrRoundTrip(PyInt(Data(p)).value * multiplyBy);
  }
}
