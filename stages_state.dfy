/**
 * The stages of data_filter.py that keep state from one packet to the next
 * in a counter, a flag or stored values: SeqPacket, CountBytes,
 * CountPackets, Sink, BranchOnceTriggered, BranchUntilValue,
 * AttributeChangeDetection, InitialValueChangeDetection and Reset.
 */
module StateStages {
  import opened Errors
  import opened Strings
  import opened Values
  import opened Packets
  import opened StageCommon
  import StageRouting

  // =====================================================================
  // SeqPacket

  /** A packet SeqPacket numbers: its number field is missing or negative. */
  predicate Unnumbered(p: Packet, field: string)
  {
    field !in p.fields || PyLess(p.fields[field], VInt(0))
  }

  /**
   * SeqPacket: packets without a number get the next number of the
   * stage's counter in the field `seq_packet_field_name`; numbered packets
   * pass as they are.
   */
  class SeqPacket {
    /** The `seq_packet_field_name` key. */
    var field: string
    /** The stage's counter, kept as its attribute `seq_packet_field_name`. */
    var counter: int
    /** The value the counter was last reset to. */
    ghost var resetTo: int
    /** The numbers given since then, in order. */
    ghost var issued: seq<int>

    /** The numbers given are consecutive, from the reset value on. */
    ghost predicate Valid()
      reads this
    {
      counter == resetTo + |issued| &&
      forall i :: 0 <= i < |issued| ==> issued[i] == resetTo + i
    }

    /** init_filter: the counter starts at 0. */
    constructor(field: string)
      ensures Valid() && this.field == field && counter == 0 && issued == []
    {
      this.field := field;
      counter := 0;
      resetTo := 0;
      issued := [];
    }

    /** reset_counter(reset_to) */
    method ResetCounter(resetTo: int)
      modifies this`counter, this`resetTo, this`issued
      ensures Valid() && counter == resetTo && issued == []
    {
      counter := resetTo;
      this.resetTo := resetTo;
      issued := [];
    }

    /** filter_data */
    method FilterData(p: Packet) returns (r: seq<Send>)
      requires Valid()
      modifies this`counter, this`issued
      ensures Valid()
      ensures Unnumbered(p, field) ==>
        r == [Send("main", Set(p, field, VInt(old(counter))))] &&
        counter == old(counter) + 1 && issued == old(issued) + [old(counter)]
      ensures !Unnumbered(p, field) ==> r == [Send("main", p)] && counter == old(counter) && issued == old(issued)
    {
      if Unnumbered(p, field) {
        var q := Set(p, field, VInt(counter));
        issued := issued + [counter];
        counter := counter + 1;
        return [Send("main", q)];
      }
      return [Send("main", p)];
    }
  }

  /** A numbered packet carries exactly the number it was given. */
  lemma NumberCarried(p: Packet, field: string, n: int)
    ensures var q := Set(p, field, VInt(n)); !Unnumbered(q, field) <==> n >= 0
  {
  }

  // =====================================================================
  // CountBytes and CountPackets

  /** The sum of the data lengths of the packets. */
  function TotalLength(ps: seq<Packet>): (n: nat)
    ensures |ps| > 0 ==> n == TotalLength(ps[..|ps| - 1]) + DataLength(ps[|ps| - 1])
  {
    if |ps| == 0 then 0 else TotalLength(ps[..|ps| - 1]) + DataLength(ps[|ps| - 1])
  }

  /** A packet more adds its length. */
  lemma TotalLengthAppend(ps: seq<Packet>, p: Packet)
    ensures TotalLength(ps + [p]) == TotalLength(ps) + DataLength(p)
  {
    assert (ps + [p])[..|ps|] == ps;
  }

  /**
   * CountBytes: the stage counts the chars of string data passing it (in
   * its attribute `count_bytes_field_name`) and the packets; the packets
   * pass unchanged.
   */
  class CountBytes {
    /** The attribute named by `count_bytes_field_name`. */
    var countedBytes: int
    /** `counted_packets` */
    var countedPackets: int
    /** The packets seen since zero_inputs. */
    ghost var seen: seq<Packet>

    ghost predicate Valid()
      reads this
    {
      countedBytes == TotalLength(seen) && countedPackets == |seen|
    }

    /** zero_inputs */
    constructor()
      ensures Valid() && seen == []
    {
      countedBytes := 0;
      countedPackets := 0;
      seen := [];
    }

    /** filter_data */
    method FilterData(p: Packet) returns (r: seq<Send>)
      requires Valid()
      modifies this`countedBytes, this`countedPackets, this`seen
      ensures Valid() && seen == old(seen) + [p]
      ensures countedBytes == old(countedBytes) + DataLength(p) && countedPackets == old(countedPackets) + 1
      ensures r == [Send("main", p)]
    {
      TotalLengthAppend(seen, p);
      countedBytes := countedBytes + DataLength(p);
      countedPackets := countedPackets + 1;
      seen := seen + [p];
      return [Send("main", p)];
    }
  }

  /**
   * CountPackets: the stage counts the packets passing it, in its attribute
   * `count_packets_field_name`.
   */
  class CountPackets {
    /** The attribute named by `count_packets_field_name`. */
    var counted: int
    /** The packets seen since zero_inputs. */
    ghost var seen: seq<Packet>

    ghost predicate Valid()
      reads this
    {
      counted == |seen|
    }

    /** zero_inputs */
    constructor()
      ensures Valid() && seen == []
    {
      counted := 0;
      seen := [];
    }

    /** filter_data */
    method FilterData(p: Packet) returns (r: seq<Send>)
      requires Valid()
      modifies this`counted, this`seen
      ensures Valid() && seen == old(seen) + [p] && counted == old(counted) + 1
      ensures r == [Send("main", p)]
    {
      counted := counted + 1;
      seen := seen + [p];
      return [Send("main", p)];
    }
  }

  // =====================================================================
  // Sink

  /**
   * The packets a Sink holds after saving `saved`, one by one: all of them
   * when `max_results` is 0, the last max_results when it is positive, and
   * none when it is negative (each save pops at once).
   */
  function Kept<T>(saved: seq<T>, maxResults: int): (r: seq<T>)
  {
    if maxResults == 0 then saved
    else if maxResults < 0 then []
    else if |saved| > maxResults then saved[|saved| - maxResults..]
    else saved
  }

  /** What a Sink keeps is the newest of what it saved, as many as max_results allows. */
  lemma KeptIsNewest<T>(saved: seq<T>, maxResults: int)
    requires maxResults > 0
    ensures var r := Kept(saved, maxResults);
      |r| == if |saved| < maxResults then |saved| else maxResults
    ensures var r := Kept(saved, maxResults);
      forall i :: 0 <= i < |r| ==> r[i] == saved[|saved| - |r| + i]
  {
  }

  /** One save more: append, then pop the oldest if over the limit. */
  lemma KeptStep<T>(saved: seq<T>, p: T, maxResults: int)
    ensures var held := Kept(saved, maxResults) + [p];
      Kept(saved + [p], maxResults) == if maxResults != 0 && |held| > maxResults then held[1..] else held
  {
    var all := saved + [p];
    if maxResults > 0 && |saved| >= maxResults {
      assert all[|all| - maxResults..] == saved[|saved| - maxResults..][1..] + [p];
    }
  }

  /**
   * Sink: the packets passing it are kept in `results`, the oldest dropped
   * beyond `max_results`; message bottles are kept too when `capture_msgs`
   * is set.
   */
  class Sink {
    /** The `max_results` key. */
    var maxResults: int
    /** The `capture_msgs` key. */
    var captureMsgs: bool
    /** `results` */
    var results: seq<Packet>
    /** Every packet saved since zero_inputs. */
    ghost var saved: seq<Packet>

    ghost predicate Valid()
      reads this
    {
      results == Kept(saved, maxResults)
    }

    /** init_filter */
    constructor(maxResults: int, captureMsgs: bool)
      ensures Valid() && this.maxResults == maxResults && this.captureMsgs == captureMsgs
      ensures results == [] && saved == []
    {
      this.maxResults := maxResults;
      this.captureMsgs := captureMsgs;
      results := [];
      saved := [];
    }

    /** `_save_data` */
    method SaveData(p: Packet)
      requires Valid()
      modifies this`results, this`saved
      ensures Valid() && saved == old(saved) + [p]
    {
      KeptStep(saved, p, maxResults);
      results := results + [p];
      if maxResults != 0 && |results| > maxResults {
        results := results[1..];
      }
      saved := saved + [p];
    }

    /** The overridden send_on: a message bottle going to main is saved first when captured. */
    method SendOn(p: Packet, forkDest: string) returns (r: seq<Send>)
      requires Valid()
      modifies this`results, this`saved
      ensures Valid() && r == [Send(forkDest, p)]
      ensures IsMessage(p) && captureMsgs && forkDest == "main" ==> saved == old(saved) + [p]
      ensures !(IsMessage(p) && captureMsgs && forkDest == "main") ==> saved == old(saved) && results == old(results)
    {
      if IsMessage(p) && captureMsgs && forkDest == "main" {
        SaveData(p);
      }
      return [Send(forkDest, p)];
    }

    /** filter_data: save, then send on to main. */
    method FilterData(p: Packet) returns (r: seq<Send>)
      requires Valid()
      modifies this`results, this`saved
      ensures Valid() && r == [Send("main", p)]
      ensures saved == old(saved) + (if IsMessage(p) && captureMsgs then [p, p] else [p])
    {
      SaveData(p);
      r := SendOn(p, "main");
    }

    /** open_message_bottle: save the bottle when messages are captured. */
    method OpenMessageBottle(p: Packet)
      requires Valid()
      modifies this`results, this`saved
      ensures Valid()
      ensures saved == old(saved) + if captureMsgs then [p] else []
    {
      if captureMsgs {
        SaveData(p);
      }
    }

    /** `all_data`: the data of the packets held, in order. */
    function AllData(): (r: seq<Value>)
      reads this
      ensures |r| == |results| && forall i :: 0 <= i < |r| ==> r[i] == Data(results[i])
    {
      var held := results;
      seq(|held|, i requires 0 <= i < |held| => Data(held[i]))
    }
  }

  // =====================================================================
  // BranchOnceTriggered

  /**
   * BranchOnceTriggered: packets go to main until the first whose attribute
   * `watch_attribute` equals `watch_value`; from that one on, every packet
   * goes to the branch.
   */
  class BranchOnceTriggered {
    /** The `watch_attribute` key. */
    var watchAttribute: string
    /** The `watch_value` key. */
    var watchValue: Value
    /** `_send_to_branch` */
    var sendToBranch: bool

    /** init_filter */
    constructor(watchAttribute: string, watchValue: Value)
      ensures this.watchAttribute == watchAttribute && this.watchValue == watchValue && !sendToBranch
    {
      this.watchAttribute := watchAttribute;
      this.watchValue := watchValue;
      sendToBranch := false;
    }

    /**
     * filter_data: once triggered, always to the branch; a packet without
     * the watched attribute before then is an AttributeError.
     */
    method FilterData(p: Packet) returns (r: Result<seq<Send>>)
      modifies this`sendToBranch
      ensures old(sendToBranch) ==> sendToBranch
      ensures old(sendToBranch) ==> r == Ok([Send("branch", p)])
      ensures !old(sendToBranch) && watchAttribute !in p.fields ==> r == Err(AttributeError) && !sendToBranch
      ensures !old(sendToBranch) && watchAttribute in p.fields ==>
        (sendToBranch <==> PyEq(p.fields[watchAttribute], watchValue)) &&
        r == Ok([Send(if sendToBranch then "branch" else "main", p)])
    {
      if sendToBranch {
        return Ok([Send("branch", p)]);
      }
      if watchAttribute !in p.fields {
        return Err(AttributeError);
      }
      if PyEq(p.fields[watchAttribute], watchValue) {
        sendToBranch := true;
        return Ok([Send("branch", p)]);
      }
      return Ok([Send("main", p)]);
    }
  }

  // =====================================================================
  // BranchUntilValue

  /**
   * The sends of BranchUntilValue once `value` is found at k in the stored
   * data: what comes before goes to the branch, the rest to main, each
   * only when non-empty.
   */
  function UntilSends(p: Packet, stored: string, k: nat): (r: seq<Send>)
    requires k <= |stored|
    ensures |r| <= 2
    ensures |r| == (if k > 0 then 1 else 0) + (if k < |stored| then 1 else 0)
    ensures k > 0 ==> r[0].forkDest == "branch"
    ensures k < |stored| ==> r[|r| - 1].forkDest == "main"
  {
    var branch := Send("branch", Clone(p, VStr(stored[..k]), map[]));
    var main := Send("main", Clone(p, VStr(stored[k..]), map[]));
    if k > 0 && k < |stored| then [branch, main]
    else if k > 0 then [branch]
    else if k < |stored| then [main]
    else []
  }

  /**
   * The branch gets the data before the first occurrence of the value,
   * main gets the data from it on: together they are the stored data, and
   * the main part starts with the value.
   */
  lemma UntilSplits(p: Packet, stored: string, value: string, k: nat)
    requires Find(stored, value) == Some(k) && value != ""
    ensures var r := UntilSends(p, stored, k);
      |r| >= 1 && r[|r| - 1].forkDest == "main" &&
      DataStr(r[|r| - 1].packet) == stored[k..] && StartsWith(stored[k..], value) &&
      (k > 0 ==> r[0].forkDest == "branch" && DataStr(r[0].packet) == stored[..k] && stored[..k] + stored[k..] == stored)
    ensures forall j: nat :: j < k ==> !OccursAt(stored, value, j)
  {
    assert OccursAt(stored, value, k);
    var mainSend := Send("main", Clone(p, VStr(stored[k..]), map[]));
    assert DataStr(mainSend.packet) == stored[k..] by {
      CloneWithStr(p, stored[k..]);
    }
    assert StartsWith(stored[k..], value) by {
      assert stored[k..][..|value|] == stored[k..k + |value|];
    }
    if k > 0 {
      var branchSend := Send("branch", Clone(p, VStr(stored[..k]), map[]));
      assert DataStr(branchSend.packet) == stored[..k] by {
        CloneWithStr(p, stored[..k]);
      }
      assert UntilSends(p, stored, k) == [branchSend, mainSend];
    } else {
      assert UntilSends(p, stored, k) == [mainSend];
    }
  }

  /**
   * BranchUntilValue: string data is stored until `value` occurs in it; then
   * the stored data is split there between branch and main, and every later
   * packet goes straight to main.
   */
  class BranchUntilValue {
    /** The `value` key. */
    var value: string
    /** `__value_seen` */
    var valueSeen: bool
    /** `__stored_data` */
    var storedData: string

    /** init_filter */
    constructor(value: string)
      ensures this.value == value && !valueSeen && storedData == ""
    {
      this.value := value;
      valueSeen := false;
      storedData := "";
    }

    /** filter_data: data that is not a string cannot be added to the stored data (TypeError). */
    method FilterData(p: Packet) returns (r: Result<seq<Send>>)
      modifies this`valueSeen, this`storedData
      ensures old(valueSeen) ==> r == Ok([Send("main", p)]) && valueSeen && storedData == old(storedData)
      ensures !old(valueSeen) && !Data(p).VStr? ==> r == Err(TypeError) && !valueSeen && storedData == old(storedData)
      ensures !old(valueSeen) && Data(p).VStr? ==>
        storedData == old(storedData) + Data(p).s &&
        (valueSeen <==> Find(storedData, value).Some?) &&
        r == Ok(if valueSeen then UntilSends(p, storedData, Find(storedData, value).value) else [])
    {
      if valueSeen {
        return Ok([Send("main", p)]);
      }
      if !Data(p).VStr? {
        return Err(TypeError);
      }
      storedData := storedData + Data(p).s;
      var index := Find(storedData, value);
      if index.None? {
        return Ok([]);
      }
      valueSeen := true;
      r := Ok(UntilSends(p, storedData, index.value));
    }
  }

  // =====================================================================
  // AttributeChangeDetection

  /**
   * The loop of AttributeChangeDetection over `attributes`, from the front:
   * the first time an attribute is seen its value is stored; the first one
   * whose stored value differs ends the loop as a change (storing the new
   * value unless initial values are kept). The result is the change flag,
   * or AttributeError for a packet lacking an attribute, with the stored
   * values as they are then.
   */
  function Detect(attrs: seq<string>, stored: map<string, Value>, p: Packet, compareInitial: bool)
    : (r: (Result<bool>, map<string, Value>))
    ensures r.0.Err? ==> r.0.error == AttributeError
    ensures stored.Keys <= r.1.Keys
    decreases |attrs|
  {
    if |attrs| == 0 then (Ok(false), stored)
    else
      var a := attrs[0];
      if a !in p.fields then (Err(AttributeError), stored)
      else if a !in stored then Detect(attrs[1..], stored[a := p.fields[a]], p, compareInitial)
      else if !PyEq(stored[a], p.fields[a]) then
        (Ok(true), if compareInitial then stored else stored[a := p.fields[a]])
      else Detect(attrs[1..], stored, p, compareInitial)
  }

  /** Some attribute of the list holds a stored value the packet differs from. */
  ghost predicate SomeChanged(attrs: seq<string>, stored: map<string, Value>, p: Packet)
  {
    exists i :: 0 <= i < |attrs| && attrs[i] in stored && attrs[i] in p.fields &&
      !PyEq(stored[attrs[i]], p.fields[attrs[i]])
  }

  /**
   * Once every attribute is stored and present in the packet, the flag is
   * set exactly when some attribute differs from its stored value.
   */
  lemma {:induction false} DetectChanged(attrs: seq<string>, stored: map<string, Value>, p: Packet, compareInitial: bool)
    requires forall i :: 0 <= i < |attrs| ==> attrs[i] in stored && attrs[i] in p.fields
    ensures Detect(attrs, stored, p, compareInitial).0 == Ok(SomeChanged(attrs, stored, p))
    decreases |attrs|
  {
    if |attrs| > 0 {
      var a := attrs[0];
      if PyEq(stored[a], p.fields[a]) {
        DetectChanged(attrs[1..], stored, p, compareInitial);
        if SomeChanged(attrs, stored, p) {
          var i :| 0 <= i < |attrs| && attrs[i] in stored && attrs[i] in p.fields &&
            !PyEq(stored[attrs[i]], p.fields[attrs[i]]);
          assert attrs[1..][i - 1] == attrs[i];
        }
        if SomeChanged(attrs[1..], stored, p) {
          var i :| 0 <= i < |attrs[1..]| && attrs[1..][i] in stored && attrs[1..][i] in p.fields &&
            !PyEq(stored[attrs[1..][i]], p.fields[attrs[1..][i]]);
          assert attrs[i + 1] == attrs[1..][i];
        }
      } else {
        assert !PyEq(stored[attrs[0]], p.fields[attrs[0]]);
      }
    }
  }

  /** With `compare_initial_value`, a stored value is never replaced. */
  lemma {:induction false} DetectKeepsInitial(attrs: seq<string>, stored: map<string, Value>, p: Packet)
    ensures forall k :: k in stored ==> Detect(attrs, stored, p, true).1[k] == stored[k]
    decreases |attrs|
  {
    if |attrs| > 0 {
      var a := attrs[0];
      if a in p.fields && a !in stored {
        DetectKeepsInitial(attrs[1..], stored[a := p.fields[a]], p);
      } else if a in p.fields && PyEq(stored[a], p.fields[a]) {
        DetectKeepsInitial(attrs[1..], stored, p);
      }
    }
  }

  /**
   * AttributeChangeDetection: each packet is flagged, in its attribute
   * `packet_change_flag`, as changed when one of `attributes` differs from
   * the value the stage stored for it.
   */
  class AttributeChangeDetection {
    /** The `attributes` key. */
    var attributes: seq<string>
    /** The `packet_change_flag` key. */
    var flagName: string
    /** The `compare_initial_value` key. */
    var compareInitial: bool
    /**
     * The stage's own attributes, where `getattr(self, attribute)` looks:
     * those it has from the start (`own`: its keys, name, ftype and the
     * rest) and the values it stored. An attribute name the stage already
     * has is compared against that attribute from the first packet on.
     */
    var stored: map<string, Value>

    constructor(attributes: seq<string>, flagName: string, compareInitial: bool, own: map<string, Value>)
      ensures this.attributes == attributes && this.flagName == flagName
      ensures this.compareInitial == compareInitial && stored == own
    {
      this.attributes := attributes;
      this.flagName := flagName;
      this.compareInitial := compareInitial;
      stored := own;
    }

    /** filter_data */
    method FilterData(p: Packet) returns (r: Result<seq<Send>>)
      modifies this`stored
      ensures var d := Detect(attributes, old(stored), p, compareInitial);
        stored == d.1 &&
        r == if d.0.Err? then Err(d.0.error) else Ok([Send("main", Set(p, flagName, VBool(d.0.value)))])
    {
      var i := 0;
      var changed := false;
      while i < |attributes|
        invariant 0 <= i <= |attributes|
        invariant Detect(attributes, old(stored), p, compareInitial) == Detect(attributes[i..], stored, p, compareInitial)
      {
        var a := attributes[i];
        assert attributes[i..][1..] == attributes[i + 1..];
        if a !in p.fields {
          return Err(AttributeError);
        }
        if a !in stored {
          stored := stored[a := p.fields[a]];
        } else if !PyEq(stored[a], p.fields[a]) {
          if !compareInitial {
            stored := stored[a := p.fields[a]];
          }
          changed := true;
          break;
        }
        i := i + 1;
      }
      return Ok([Send("main", Set(p, flagName, VBool(changed)))]);
    }
  }

  // =====================================================================
  // InitialValueChangeDetection

  /**
   * The packet differs from the expected attribute values: one is missing
   * from it or has another value.
   */
  ghost predicate Differs(expected: seq<(string, Value)>, p: Packet)
  {
    exists i :: 0 <= i < |expected| &&
      (expected[i].0 !in p.fields || !PyEq(p.fields[expected[i].0], expected[i].1))
  }

  /**
   * InitialValueChangeDetection: each packet is flagged as changed when it
   * lacks one of the attributes of `attribute_map` or has another value
   * for it. The map's items are taken in its iteration order.
   */
  method InitialValueChangeDetection(attributeMap: seq<(string, Value)>, flagName: string, p: Packet)
    returns (r: seq<Send>)
    ensures r == [Send("main", Set(p, flagName, VBool(Differs(attributeMap, p))))]
  {
    var changed := false;
    for i := 0 to |attributeMap|
      invariant !changed && forall j :: 0 <= j < i ==>
        attributeMap[j].0 in p.fields && PyEq(p.fields[attributeMap[j].0], attributeMap[j].1)
    {
      var (name, value) := attributeMap[i];
      if name !in p.fields || !PyEq(p.fields[name], value) {
        changed := true;
        break;
      }
    }
    return [Send("main", Set(p, flagName, VBool(changed)))];
  }

  // =====================================================================
  // Reset

  /** The `reset` bottle Reset sends to the stage named target. */
  function ResetBottle(target: string, paramName: string, newValue: Value): (r: Result<Packet>)
    ensures r.Ok? && IsMessage(r.value)
    ensures r.Ok? ==> {"message", "param_name", "new_value"} <= r.value.fields.Keys
    ensures r.Ok? ==> r.value.fields["message"] == VStr("reset")
    ensures r.Ok? ==> r.value.fields["param_name"] == VStr(paramName) && r.value.fields["new_value"] == newValue
  {
    var kwargs := map["param_name" := VStr(paramName), "new_value" := newValue];
    assert kwargs.Keys == {"param_name", "new_value"};
    assert ':' !in "reset";
    MessageBottle(VStr(target), "reset", true, kwargs)
  }

  /**
   * Opening the bottle at its target sets the parameter to the new value
   * and leaves the stage's other attributes as they were.
   */
  lemma ResetDelivers(target: string, paramName: string, newValue: Value, attrs: map<string, Value>)
    ensures StageRouting.OpenMessageBottle(attrs, ResetBottle(target, paramName, newValue).value)
      == Ok(attrs[paramName := newValue])
  {
    var b := ResetBottle(target, paramName, newValue).value;
    assert StageRouting.FieldOr(b, "message") == VStr("reset");
  }

  /**
   * Reset: each packet is preceded by a `reset` bottle for the stage
   * `target_filter_name`, setting `param_name` to a new value: the packet's
   * own attribute param_name when `value` is None, else the packet's
   * attribute named by `value` when `value` is a string naming one (which
   * then also replaces `value`), else `value` itself.
   */
  class Reset {
    /** The `target_filter_name` key. */
    var targetFilterName: string
    /** The `param_name` key. */
    var paramName: string
    /** The `value` key. */
    var value: Value

    constructor(targetFilterName: string, paramName: string, value: Value)
      ensures this.targetFilterName == targetFilterName && this.paramName == paramName && this.value == value
    {
      this.targetFilterName := targetFilterName;
      this.paramName := paramName;
      this.value := value;
    }

    /** filter_data */
    method FilterData(p: Packet) returns (r: Result<seq<Send>>)
      modifies this`value
      ensures old(value).VNone? && paramName !in p.fields ==> r == Err(AttributeError) && value == old(value)
      ensures old(value).VNone? && paramName in p.fields ==>
        value == old(value) &&
        r == Ok([Send("main", ResetBottle(targetFilterName, paramName, p.fields[paramName]).value), Send("main", p)])
      ensures !old(value).VNone? ==>
        value == (if old(value).VStr? && old(value).s in p.fields then p.fields[old(value).s] else old(value)) &&
        r == Ok([Send("main", ResetBottle(targetFilterName, paramName, value).value), Send("main", p)])
    {
      var newValue: Value;
      if value.VNone? {
        if paramName !in p.fields {
          return Err(AttributeError);
        }
        newValue := p.fields[paramName];
      } else {
        if value.VStr? && value.s in p.fields {
          value := p.fields[value.s];
        }
        newValue := value;
      }
      var bottle := ResetBottle(targetFilterName, paramName, newValue).value;
      return Ok([Send("main", bottle), Send("main", p)]);
    }
  }
}
