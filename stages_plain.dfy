/**
 * The stages of data_filter.py that keep no state between packets: each
 * filter_data is a function from the packet (and the stage's keys) to the
 * sends it makes, or to the exception it raises.
 */
module PlainStages {
  import opened Errors
  import opened Strings
  import opened Values
  import opened Packets
  import opened StageCommon

  // =====================================================================
  // Forwarding

  /** PassThrough forwards every packet, unchanged, to main. */
  function PassThrough(p: Packet): (r: seq<Send>)
    ensures |r| == 1 && r[0].forkDest == "main" && r[0].packet == p
  {
    [Send("main", p)]
  }

  /** Waste throws every packet away. */
  function Waste(p: Packet): (r: seq<Send>)
    ensures |r| == 0
  {
    []
  }

  /**
   * BranchRef sends the very same packet object to the branch first, then
   * to main. The branch runs to completion before main is sent to, and
   * whatever it does to the packet it was given (`branch`, the packet as the
   * branch leaves it) is what main receives: the two sends share one object.
   */
  function BranchRef(p: Packet, branch: Packet -> Packet): (r: seq<Send>)
    ensures |r| == 2 && r[0].forkDest == "branch" && r[1].forkDest == "main"
    ensures r[0].packet == p
    ensures r[1].packet == branch(r[0].packet)
  {
    [Send("branch", p), Send("main", branch(p))]
  }

  /**
   * The difference between the two branching stages: after a branch that
   * changes the packet it receives, main gets the changed packet from
   * BranchRef and the untouched one from BranchClone.
   */
  lemma BranchRefSeesBranchChanges(p: Packet, branch: Packet -> Packet)
    requires branch(p) != p
    ensures BranchRef(p, branch)[1].packet != p
    ensures BranchClone(p)[1].packet == p
  {
  }

  /**
   * BranchClone sends a clone to the branch first, then the packet itself to
   * main. The clone carries the same attributes, so for a packet with the
   * standard attributes it equals the original.
   */
  function BranchClone(p: Packet): (r: seq<Send>)
    ensures |r| == 2 && r[0].forkDest == "branch" && r[1] == Send("main", p)
    ensures r[0].packet.fields.Keys == StandardFields + p.fields.Keys
    ensures StandardFields <= p.fields.Keys ==> r[0].packet == p
  {
    CloneIsCopy2(p);
    [Send("branch", Clone(p, VStr(""), map[])), Send("main", p)]
  }

  lemma CloneIsCopy2(p: Packet)
    ensures StandardFields <= p.fields.Keys ==> Clone(p, VStr(""), map[]) == p
  {
    if StandardFields <= p.fields.Keys {
      CloneIsCopy(p);
    }
  }

  // =====================================================================
  // Splitting a packet between branch and main

  /**
   * BranchFirstPart: when the packet's `branch_up_to` is positive and its
   * data true, a clone holding the first branch_up_to items goes to the
   * branch and the packet, holding the rest, to main; otherwise the packet
   * goes to main as it is.
   */
  function BranchFirstPart(p: Packet): (r: Result<seq<Send>>)
    ensures "branch_up_to" !in p.fields ==> r == Err(AttributeError)
    ensures r.Ok? ==> 1 <= |r.value| <= 2 && r.value[|r.value| - 1].forkDest == "main"
    ensures r.Ok? && |r.value| == 2 ==> r.value[0].forkDest == "branch"
    ensures r.Ok? && |r.value| == 1 ==> r.value[0].packet == p
    ensures "branch_up_to" in p.fields && !PyLess(VInt(0), p.fields["branch_up_to"]) ==>
      r == Ok([Send("main", p)])
  {
    if "branch_up_to" !in p.fields then Err(AttributeError)
    else
      var b := p.fields["branch_up_to"];
      if !(PyLess(VInt(0), b) && Truthy(Data(p))) then Ok([Send("main", p)])
      else
        match NumberOf(b)
        case None => Err(TypeError)
        case Some(upTo) =>
          match (HeadValue(Data(p), upTo), TailValue(Data(p), upTo))
          case (Some(first), Some(rest)) =>
            Ok([Send("branch", Clone(p, first, map[])), Send("main", Set(p, "data", rest))])
          case _ => Err(TypeError)
  }

  /**
   * With string data and a positive `branch_up_to`, the branch gets the
   * first branch_up_to chars, main gets the rest, and together they are the
   * data; everything else about the packet is kept on both.
   */
  lemma BranchFirstPartSplits(p: Packet, s: string, b: int)
    requires Data(p) == VStr(s) && s != "" && "branch_up_to" in p.fields
    requires p.fields["branch_up_to"] == VInt(b) && b > 0
    ensures var r := BranchFirstPart(p);
      r.Ok? && |r.value| == 2 &&
      DataStr(r.value[0].packet) + DataStr(r.value[1].packet) == s &&
      |DataStr(r.value[0].packet)| == (if b <= |s| then b else |s|) &&
      r.value[1].packet == WithData(p, s[|DataStr(r.value[0].packet)|..]) &&
      (forall k :: k in p.fields && k != "data" ==> r.value[0].packet.fields[k] == p.fields[k])
  {
    var first := Head(s, b);
    assert first != [] by { assert first == s[..if b <= |s| then b else |s|]; }
    CloneWithStr(p, first);
    HeadTail(s, b);
  }

  // =====================================================================
  // BranchIf

  /**
   * The comparison BranchIf makes between the looked-up value and
   * compare_value, as the code evidently intends: an unknown comparison
   * raises FilterLogicError.
   */
  function Compare(lhs: Value, comparison: string, compareValue: Value): (r: Result<bool>)
    ensures r.Err? <==> comparison !in {"equals", "less_than", "greater_than", "not_equals"}
    ensures r.Err? ==> r.error == FilterLogicError && IsFilterError(r.error)
    ensures comparison == "equals" ==> r == Ok(PyEq(lhs, compareValue))
    ensures comparison == "not_equals" ==> r == Ok(!PyEq(lhs, compareValue))
    ensures comparison == "less_than" ==> r == Ok(PyLess(lhs, compareValue))
    ensures comparison == "greater_than" ==> r == Ok(PyLess(compareValue, lhs))
  {
    if comparison == "equals" then Ok(PyEq(lhs, compareValue))
    else if comparison == "less_than" then Ok(PyLess(lhs, compareValue))
    else if comparison == "greater_than" then Ok(PyLess(compareValue, lhs))
    else if comparison == "not_equals" then Ok(!PyEq(lhs, compareValue))
    else Err(FilterLogicError)
  }

  /**
   * The comparison as data_filter.py writes it: the else branch names
   * `FilterLogicError` and `comparison` without qualification, neither of
   * which exists in the module, so evaluating the raise statement is a
   * NameError.
   */
  function CompareAsWritten(lhs: Value, comparison: string, compareValue: Value): (r: Result<bool>)
    ensures r.Err? ==> r.error == NameError
    ensures r.Ok? <==> Compare(lhs, comparison, compareValue).Ok?
  {
    if comparison == "equals" then Ok(PyEq(lhs, compareValue))
    else if comparison == "less_than" then Ok(PyLess(lhs, compareValue))
    else if comparison == "greater_than" then Ok(PyLess(compareValue, lhs))
    else if comparison == "not_equals" then Ok(!PyEq(lhs, compareValue))
    else Err(NameError)
  }

  /**
   * An unknown comparison: the code as written raises NameError, which is
   * not a FilterError, so the closer would not swallow it during shutdown;
   * the intended FilterLogicError is one.
   */
  lemma UnknownComparisonIsNameError(lhs: Value, compareValue: Value)
    ensures CompareAsWritten(lhs, "greater_or_equal", compareValue) == Err(NameError)
    ensures !IsFilterError(NameError)
    ensures Compare(lhs, "greater_or_equal", compareValue) == Err(FilterLogicError)
  {
  }

  /**
   * BranchIf: the value of branch_key is taken from the packet, or from the
   * stage's own attributes when branch_on_packet is false (AttributeError
   * if absent); the packet goes, unchanged, to the branch when the
   * comparison holds and to main otherwise.
   */
  function BranchIf(p: Packet, stageAttrs: map<string, Value>, branchKey: string, comparison: string,
                    compareValue: Value, branchOnPacket: bool): (r: Result<seq<Send>>)
    ensures var source := if branchOnPacket then p.fields else stageAttrs;
      branchKey !in source ==> r == Err(AttributeError)
    ensures var source := if branchOnPacket then p.fields else stageAttrs;
      branchKey in source ==>
        match Compare(source[branchKey], comparison, compareValue)
        case Err(e) => r == Err(e)
        case Ok(b) => r.Ok? && |r.value| == 1 && r.value[0].packet == p &&
                      r.value[0].forkDest == (if b then "branch" else "main")
  {
    var source := if branchOnPacket then p.fields else stageAttrs;
    if branchKey !in source then Err(AttributeError)
    else
      match Compare(source[branchKey], comparison, compareValue)
      case Err(e) => Err(e)
      case Ok(b) => Ok([Send(if b then "branch" else "main", p)])
  }

  /** `not_equals` sends every packet the other way from `equals`. */
  lemma NotEqualsOpposite(p: Packet, stageAttrs: map<string, Value>, branchKey: string,
                          compareValue: Value, branchOnPacket: bool)
    requires branchKey in (if branchOnPacket then p.fields else stageAttrs)
    ensures var e := BranchIf(p, stageAttrs, branchKey, "equals", compareValue, branchOnPacket);
      var n := BranchIf(p, stageAttrs, branchKey, "not_equals", compareValue, branchOnPacket);
      e.Ok? && n.Ok? && (e.value[0].forkDest == "branch" <==> n.value[0].forkDest == "main")
  {
  }

  // =====================================================================
  // Reading parts of the data into attributes

  /**
   * GetBytes: an attribute param_name that the packet already has cannot
   * be reset (FilterAttributeError); otherwise it is set to
   * data[start_byte:start_byte + bytes_to_get] and the packet goes to main.
   */
  function GetBytes(p: Packet, startByte: int, bytesToGet: int, paramName: string): (r: Result<seq<Send>>)
    ensures paramName in p.fields ==> r == Err(FilterAttributeError)
    ensures r.Ok? ==> |r.value| == 1 && r.value[0].forkDest == "main"
    ensures r.Ok? ==> r.value[0].packet.fields.Keys == p.fields.Keys + {paramName}
    ensures r.Ok? ==> forall k :: k in p.fields ==> r.value[0].packet.fields[k] == p.fields[k]
    ensures paramName !in p.fields && Data(p).VStr? ==>
      r == Ok([Send("main", Set(p, paramName, VStr(PySlice(Data(p).s, startByte, startByte + bytesToGet))))])
  {
    if paramName in p.fields then Err(FilterAttributeError)
    else
      match Attr(p, "data")
      case Err(e) => Err(e)
      case Ok(d) =>
        match SliceValue(d, startByte, startByte + bytesToGet)
        case None => Err(TypeError)
        case Some(v) => Ok([Send("main", Set(p, paramName, v))])
  }

  /**
   * Within the data, the attribute holds exactly bytes_to_get chars from
   * start_byte on; and a second GetBytes into the same attribute fails.
   */
  lemma GetBytesWithin(p: Packet, s: string, start: nat, n: nat, paramName: string)
    requires Data(p) == VStr(s) && "data" in p.fields && paramName !in p.fields && start + n <= |s|
    ensures var r := GetBytes(p, start, n, paramName);
      r.Ok? && r.value[0].packet.fields[paramName] == VStr(s[start..start + n]) &&
      GetBytes(r.value[0].packet, start, n, paramName) == Err(FilterAttributeError)
  {
  }

  /**
   * HeaderAsAttribute: unless send_on_if_only_header is set, a packet with
   * no more than header_size chars is dropped; otherwise the first
   * header_size items of the data go to the attribute header_attribute and
   * the data keeps the rest.
   */
  function HeaderAsAttribute(p: Packet, headerSize: int, headerAttribute: string,
                             sendOnIfOnlyHeader: bool): (r: Result<seq<Send>>)
    ensures !sendOnIfOnlyHeader && DataLength(p) <= headerSize ==> r == Ok([])
    ensures r.Ok? && r.value != [] ==> |r.value| == 1 && r.value[0].forkDest == "main"
    ensures r.Ok? && r.value != [] ==> r.value[0].packet.fields.Keys == p.fields.Keys + {headerAttribute}
  {
    if !sendOnIfOnlyHeader && DataLength(p) <= headerSize then Ok([])
    else
      match Attr(p, "data")
      case Err(e) => Err(e)
      case Ok(d) =>
        match HeadValue(d, headerSize)
        case None => Err(TypeError)
        case Some(header) =>
          var p1 := Set(p, headerAttribute, header);
          match TailValue(p1.fields["data"], headerSize)
          case None => Err(TypeError)
          case Some(rest) => Ok([Send("main", Set(p1, "data", rest))])
  }

  /** The header attribute followed by the new data is the old data; nothing else changes. */
  lemma HeaderAsAttributeSplits(p: Packet, s: string, h: int, attr: string, sendOnIfOnlyHeader: bool)
    requires Data(p) == VStr(s) && "data" in p.fields && attr != "data"
    requires sendOnIfOnlyHeader || h < |s|
    ensures var r := HeaderAsAttribute(p, h, attr, sendOnIfOnlyHeader);
      r.Ok? && |r.value| == 1 &&
      r.value[0].packet.fields[attr].VStr? &&
      r.value[0].packet.fields[attr].s + DataStr(r.value[0].packet) == s &&
      forall k :: k in p.fields && k != attr && k != "data" ==> r.value[0].packet.fields[k] == p.fields[k]
  {
    HeadTail(s, h);
  }

  // =====================================================================
  // Splitting data into words and lines

  /**
   * SplitWords: `data.split(split_on_str)`, each word sent to main in a new
   * packet. A split_on_str of None splits on runs of whitespace; an empty
   * one is a ValueError; data that is not a string has no split
   * (AttributeError) and a separator that is not a string is a TypeError.
   */
  function SplitWords(p: Packet, splitOn: Value): (r: Result<seq<Send>>)
    ensures !Data(p).VStr? ==> r == Err(AttributeError)
    ensures Data(p).VStr? && splitOn == VStr("") ==> r == Err(ValueError)
    ensures r.Ok? ==> forall i :: 0 <= i < |r.value| ==>
      r.value[i].forkDest == "main" && r.value[i].packet.fields.Keys == StandardFields &&
      !IsMessage(r.value[i].packet) && Data(r.value[i].packet).VStr?
    ensures r.Ok? && splitOn.VStr? ==> |r.value| >= 1
  {
    if !Data(p).VStr? then Err(AttributeError)
    else
      var words :=
        if splitOn.VNone? then Ok(SplitWs(Data(p).s))
        else if !splitOn.VStr? then Err(TypeError)
        else if splitOn.s == "" then Err(ValueError)
        else Ok(SplitOn(Data(p).s, splitOn.s));
      match words
      case Err(e) => Err(e)
      case Ok(ws) => Ok(seq(|ws|, i requires 0 <= i < |ws| => Send("main", PacketOf(VStr(ws[i])))))
  }

  /** The words SplitWords sends, joined by the separator, give back the data. */
  lemma SplitWordsRejoin(p: Packet, s: string, sep: string)
    requires Data(p) == VStr(s) && sep != ""
    ensures var r := SplitWords(p, VStr(sep));
      r.Ok? && Join(seq(|r.value|, i requires 0 <= i < |r.value| => DataStr(r.value[i].packet)), sep) == s
  {
    var ws := SplitOn(s, sep);
    var r := SplitWords(p, VStr(sep));
    var back := seq(|r.value|, i requires 0 <= i < |r.value| => DataStr(r.value[i].packet));
    assert |back| == |ws|;
    forall i | 0 <= i < |ws|
      ensures back[i] == ws[i]
    {
      assert r.value[i].packet == PacketOf(VStr(ws[i]));
    }
    assert back == ws;
    JoinSplitOn(s, sep);
  }

  predicate IsLineBreak(c: char) { c == '\n' || c == '\r' }

  /** Length of the text up to the first line break. */
  function LineLen(s: string): (n: nat)
    ensures n <= |s|
    ensures forall i :: 0 <= i < n ==> !IsLineBreak(s[i])
    ensures n < |s| ==> IsLineBreak(s[n])
  {
    if |s| == 0 || IsLineBreak(s[0]) then 0 else 1 + LineLen(s[1..])
  }

  /**
   * `s.splitlines()` on a byte string: lines end at `\n`, `\r` or `\r\n`,
   * which are dropped; a final line break does not start another line.
   */
  function Lines(s: string): (ls: seq<string>)
    ensures forall i, k :: 0 <= i < |ls| && 0 <= k < |ls[i]| ==> !IsLineBreak(ls[i][k])
    decreases |s|
  {
    if |s| == 0 then []
    else
      var n := LineLen(s);
      if n == |s| then [s]
      else
        var skip := if s[n] == '\r' && n + 1 < |s| && s[n + 1] == '\n' then 2 else 1;
        [s[..n]] + Lines(s[n + skip..])
  }

  /** Text with `\n` line ends only and no final line break: the lines joined by `\n` give it back. */
  lemma {:induction false} LinesRejoin(s: string)
    requires '\r' !in s && (|s| == 0 || s[|s| - 1] != '\n')
    ensures Join(Lines(s), "\n") == s
    decreases |s|
  {
    if |s| > 0 {
      var n := LineLen(s);
      if n < |s| {
        assert s[n] == '\n';
        var rest := s[n + 1..];
        assert |rest| > 0 && rest[|rest| - 1] == s[|s| - 1];
        assert '\r' !in rest by {
          forall i | 0 <= i < |rest| ensures rest[i] != '\r' { assert rest[i] == s[n + 1 + i]; }
        }
        LinesRejoin(rest);
        var ls := Lines(s);
        assert ls == [s[..n]] + Lines(rest);
        assert Lines(rest) != [];
        assert ls[0] == s[..n] && ls[1..] == Lines(rest) && |ls| > 1;
        assert Join(ls, "\n") == s[..n] + "\n" + Join(Lines(rest), "\n");
        assert s[n..n + 1] == "\n";
        Pieces(s, n, n + 1);
      }
    }
  }

  /** The lines that hold something besides whitespace, in order. */
  function NonBlank(ls: seq<string>): (r: seq<string>)
    ensures |r| <= |ls|
    ensures forall i :: 0 <= i < |r| ==> Strip(r[i]) != "" && r[i] in ls
    ensures forall x :: x in ls && Strip(x) != "" ==> x in r
    decreases |ls|
  {
    if |ls| == 0 then []
    else
      var rest := NonBlank(ls[1..]);
      assert forall x :: x in ls[1..] ==> x in ls;
      assert forall x :: x in ls ==> x == ls[0] || x in ls[1..];
      if Strip(ls[0]) != "" then [ls[0]] + rest else rest
  }

  /**
   * SplitLines: each line of the data that holds more than whitespace goes
   * to main in a clone of the packet carrying that line; blank lines are
   * skipped. Data that is not a string has no splitlines (AttributeError).
   */
  function SplitLines(p: Packet): (r: Result<seq<Send>>)
    ensures !Data(p).VStr? <==> r == Err(AttributeError)
    ensures r.Ok? ==> var kept := NonBlank(Lines(Data(p).s));
      |r.value| == |kept| &&
      forall i :: 0 <= i < |kept| ==> r.value[i] == Send("main", Clone(p, VStr(kept[i]), map[]))
  {
    if !Data(p).VStr? then Err(AttributeError)
    else
      var kept := NonBlank(Lines(Data(p).s));
      Ok(seq(|kept|, i requires 0 <= i < |kept| => Send("main", Clone(p, VStr(kept[i]), map[]))))
  }

  /**
   * Every packet SplitLines sends carries one line of the data: not blank,
   * without a line break, and with the packet's other attributes.
   */
  lemma SplitLinesSendsLines(p: Packet, i: nat)
    requires SplitLines(p).Ok? && i < |SplitLines(p).value|
    ensures var d := DataStr(SplitLines(p).value[i].packet);
      d in Lines(Data(p).s) && Strip(d) != "" && forall k :: 0 <= k < |d| ==> !IsLineBreak(d[k])
    ensures IsMessage(SplitLines(p).value[i].packet) <==> IsMessage(p)
  {
    var line := NonBlank(Lines(Data(p).s))[i];
    assert line != "";
    CloneWithStr(p, line);
  }

  // =====================================================================
  // Rewriting the data

  /** The chars of s with each pair swapped; an odd last char stays where it is. */
  function SwapPairs(s: string): (r: string)
    ensures |r| == |s|
    ensures |s| >= 2 ==> r[..2] == [s[1], s[0]]
    decreases |s|
  {
    if |s| < 2 then s else [s[1], s[0]] + SwapPairs(s[2..])
  }

  /** Swapping works pair by pair: an even-length front is swapped on its own. */
  lemma {:induction false} SwapPairsAppend(a: string, b: string)
    requires |a| % 2 == 0
    ensures SwapPairs(a + b) == SwapPairs(a) + SwapPairs(b)
    decreases |a|
  {
    if |a| == 0 {
      assert a + b == b;
    } else {
      assert (a + b)[2..] == a[2..] + b;
      SwapPairsAppend(a[2..], b);
      assert SwapPairs(a + b) == [a[1], a[0]] + (SwapPairs(a[2..]) + SwapPairs(b));
    }
  }

  /** Swapping the pairs twice gives back the data. */
  lemma {:induction false} SwapPairsTwice(s: string)
    ensures SwapPairs(SwapPairs(s)) == s
    decreases |s|
  {
    if |s| >= 2 {
      var rest := SwapPairs(s[2..]);
      SwapPairsTwice(s[2..]);
      assert ([s[1], s[0]] + rest)[2..] == rest;
    }
  }

  /**
   * SwapTwoBytes: the data with each pair of chars swapped (an odd last
   * char is cropped, then put back); data that is not a string is a
   * TypeError.
   */
  function SwapTwoBytes(p: Packet): (r: Result<seq<Send>>)
    ensures !Data(p).VStr? <==> r == Err(TypeError)
    ensures r.Ok? ==> r.value == [Send("main", WithData(p, SwapPairs(Data(p).s)))]
  {
    if !Data(p).VStr? then Err(TypeError)
    else
      var s := Data(p).s;
      var even := if |s| % 2 != 0 then s[..|s| - 1] else s;
      var swapped := SwapPairs(even);
      var out := if |s| % 2 != 0 then swapped + [s[|s| - 1]] else swapped;
      assert out == SwapPairs(s) by {
        if |s| % 2 != 0 {
          assert s == even + [s[|s| - 1]];
          SwapPairsAppend(even, [s[|s| - 1]]);
        }
      }
      Ok([Send("main", WithData(p, out))])
  }

  /** SwapTwoBytes twice gives back the packet's data. */
  lemma SwapTwoBytesTwice(p: Packet, s: string)
    requires Data(p) == VStr(s)
    ensures var once := SwapTwoBytes(p).value[0].packet;
      SwapTwoBytes(once).Ok? && DataStr(SwapTwoBytes(once).value[0].packet) == s
  {
    SwapPairsTwice(s);
  }

  function Reverse(s: string): (r: string)
    ensures |r| == |s|
    ensures forall i :: 0 <= i < |s| ==> r[i] == s[|s| - 1 - i]
  {
    seq(|s|, i requires 0 <= i < |s| => s[|s| - 1 - i])
  }

  /** ReverseString: the data reversed; data that is not a string is a TypeError. */
  function ReverseString(p: Packet): (r: Result<seq<Send>>)
    ensures !Data(p).VStr? <==> r == Err(TypeError)
    ensures r.Ok? ==> |r.value| == 1 && r.value[0].forkDest == "main"
    ensures r.Ok? ==> r.value[0].packet == WithData(p, Reverse(Data(p).s))
  {
    if !Data(p).VStr? then Err(TypeError)
    else Ok([Send("main", WithData(p, Reverse(Data(p).s)))])
  }

  /** Reversing twice gives back the data. */
  lemma ReverseStringTwice(p: Packet, s: string)
    requires Data(p) == VStr(s)
    ensures var once := ReverseString(p).value[0].packet;
      ReverseString(once).Ok? && DataStr(ReverseString(once).value[0].packet) == s
  {
    assert Reverse(Reverse(s)) == s;
  }

  /**
   * Wrap: `''.join([data_prefix, data, data_suffix])`; any part that is not
   * a string is a TypeError.
   */
  function Wrap(p: Packet, prefix: Value, suffix: Value): (r: Result<seq<Send>>)
    ensures r.Ok? <==> prefix.VStr? && suffix.VStr? && Data(p).VStr?
    ensures r.Err? ==> r.error == TypeError
    ensures r.Ok? ==> |r.value| == 1 && r.value[0].forkDest == "main"
    ensures r.Ok? ==> var w := DataStr(r.value[0].packet);
      |w| == |prefix.s| + |Data(p).s| + |suffix.s| &&
      w[..|prefix.s|] == prefix.s && w[|w| - |suffix.s|..] == suffix.s &&
      w[|prefix.s|..|w| - |suffix.s|] == Data(p).s
  {
    if !(prefix.VStr? && suffix.VStr? && Data(p).VStr?) then Err(TypeError)
    else
      var w := prefix.s + Data(p).s + suffix.s;
      assert w[|prefix.s|..|w| - |suffix.s|] == Data(p).s;
      Ok([Send("main", WithData(p, w))])
  }

  // =====================================================================
  // Dropping blank data

  /** `n * chr(c)`: empty for n <= 0. */
  function Repeat(c: char, n: int): (r: string)
    ensures |r| == (if n <= 0 then 0 else n)
    ensures forall i :: 0 <= i < |r| ==> r[i] == c
  {
    if n <= 0 then "" else seq(n, i => c)
  }

  /**
   * PassNonZero: the attribute (data by default) is passed on unless it
   * starts with check_byte_count 0x00 chars or check_byte_count 0xFF
   * chars. A missing attribute, or one that is not a string (no
   * startswith), is an AttributeError.
   */
  function PassNonZero(p: Packet, checkByteCount: int, attribute: string): (r: Result<seq<Send>>)
    ensures attribute !in p.fields ==> r == Err(AttributeError)
    ensures r.Ok? ==> r.value == [] || r.value == [Send("main", p)]
    ensures r.Ok? ==> p.fields[attribute].VStr?
    ensures r.Ok? && r.value != [] <==>
      attribute in p.fields && p.fields[attribute].VStr? &&
      !StartsWith(p.fields[attribute].s, Repeat(0 as char, checkByteCount)) &&
      !StartsWith(p.fields[attribute].s, Repeat(0xFF as char, checkByteCount))
  {
    match Attr(p, attribute)
    case Err(e) => Err(e)
    case Ok(v) =>
      if !v.VStr? then Err(AttributeError)
      else if !StartsWith(v.s, Repeat(0 as char, checkByteCount)) &&
              !StartsWith(v.s, Repeat(0xFF as char, checkByteCount)) then Ok([Send("main", p)])
      else Ok([])
  }

  /**
   * A string shorter than check_byte_count always passes; with a count of
   * zero or less nothing passes, since every string starts with "".
   */
  lemma PassNonZeroShortPasses(p: Packet, n: int, attribute: string)
    requires attribute in p.fields && p.fields[attribute].VStr?
    ensures n >= 1 && |p.fields[attribute].s| < n ==> PassNonZero(p, n, attribute) == Ok([Send("main", p)])
    ensures n <= 0 ==> PassNonZero(p, n, attribute) == Ok([])
  {
    if n <= 0 {
      assert Repeat(0 as char, n) == "";
      assert StartsWith(p.fields[attribute].s, "");
    }
  }

  /** Data whose first check_byte_count chars hold both a non-0x00 and a non-0xFF char passes. */
  lemma PassNonZeroMixedPasses(p: Packet, n: int, attribute: string, i: nat, j: nat)
    requires attribute in p.fields && p.fields[attribute].VStr?
    requires i < n && i < |p.fields[attribute].s| && p.fields[attribute].s[i] != 0 as char
    requires j < n && j < |p.fields[attribute].s| && p.fields[attribute].s[j] != 0xFF as char
    ensures PassNonZero(p, n, attribute) == Ok([Send("main", p)])
  {
    var s := p.fields[attribute].s;
    var zeros := Repeat(0 as char, n);
    var ones := Repeat(0xFF as char, n);
    assert !StartsWith(s, zeros) by {
      if |zeros| <= |s| { assert s[..|zeros|][i] != zeros[i]; }
    }
    assert !StartsWith(s, ones) by {
      if |ones| <= |s| { assert s[..|ones|][j] != ones[j]; }
    }
  }

  // =====================================================================
  // Counting loops

  /**
   * CountLoops: the packet's count_loops_field_name is set to 1 the first
   * time and increased by 1 on every later pass; a value that is not a
   * number cannot be increased (TypeError).
   */
  function CountLoops(p: Packet, fieldName: string): (r: Result<seq<Send>>)
    ensures fieldName !in p.fields ==> r == Ok([Send("main", Set(p, fieldName, VInt(1)))])
    ensures fieldName in p.fields && NumberOf(p.fields[fieldName]).Some? ==>
      r == Ok([Send("main", Set(p, fieldName, VInt(NumberOf(p.fields[fieldName]).value + 1)))])
    ensures fieldName in p.fields && NumberOf(p.fields[fieldName]).None? ==> r == Err(TypeError)
  {
    if fieldName !in p.fields then Ok([Send("main", Set(p, fieldName, VInt(1)))])
    else
      match NumberOf(p.fields[fieldName])
      case None => Err(TypeError)
      case Some(n) => Ok([Send("main", Set(p, fieldName, VInt(n + 1)))])
  }

  /** After k passes through CountLoops a fresh packet carries the count k. */
  function Loops(p: Packet, fieldName: string, k: nat): (q: Packet)
    requires fieldName !in p.fields
    ensures k > 0 ==> fieldName in q.fields && q.fields[fieldName] == VInt(k)
    ensures k == 0 ==> q == p
    ensures forall f :: f in p.fields && f != fieldName ==> f in q.fields && q.fields[f] == p.fields[f]
  {
    if k == 0 then p
    else
      var prev := Loops(p, fieldName, k - 1);
      CountLoops(prev, fieldName).value[0].packet
  }

  lemma {:induction false} LoopsCount(p: Packet, fieldName: string, k: nat)
    requires fieldName !in p.fields
    ensures CountLoops(Loops(p, fieldName, k), fieldName).Ok?
    ensures CountLoops(Loops(p, fieldName, k), fieldName).value[0].packet == Loops(p, fieldName, k + 1)
  {
  }

  // =====================================================================
  // Messages sent by a stage

  /**
   * SendMessage as written: `MessageBottle(self.message, value=...)` gives
   * the message text as the destination and no message at all, so the call
   * itself is a TypeError (a required argument is missing) for every packet.
   */
  function SendMessageAsWritten(p: Packet, message: string, values: Value): (r: Result<seq<Send>>)
    ensures r == Err(TypeError)
  {
    Err(TypeError)
  }

  /**
   * SendMessage as its commented-out key list describes it: a bottle for
   * target_filter_name carrying the message and its values goes to the
   * branch first, then the packet goes to main.
   */
  function SendMessage(p: Packet, targetFilterName: string, message: string, values: Value,
                       singleUse: bool): (r: Result<seq<Send>>)
    ensures message == "" ==> r == Err(MessageError)
    ensures r.Ok? ==> |r.value| == 2 && r.value[0].forkDest == "branch" && r.value[1] == Send("main", p)
    ensures r.Ok? ==> var fs := r.value[0].packet.fields;
      "destination" in fs && fs["destination"] == VStr(targetFilterName) &&
      "value" in fs && fs["value"] == values
  {
    var kwargs := map["value" := values];
    match MessageBottle(VStr(targetFilterName), message, singleUse, kwargs)
    case Err(e) => Err(e)
    case Ok(bottle) =>
      BottleKeepsKwargs(VStr(targetFilterName), message, singleUse, kwargs, "value");
      Ok([Send("branch", bottle), Send("main", p)])
  }

  /** A message without a leading ':' always goes out; as written, nothing ever does. */
  lemma SendMessageDelivers(p: Packet, target: string, message: string, values: Value)
    requires message != "" && message[0] != ':'
    ensures SendMessage(p, target, message, values, true).Ok?
    ensures IsMessage(SendMessage(p, target, message, values, true).value[0].packet)
    ensures SendMessageAsWritten(p, message, values).Err?
  {
  }
}
