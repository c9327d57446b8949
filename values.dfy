/**
 * The Python values that FilterPype stores in stage attributes and packet
 * dictionaries, with Python's truth test, equality and ordering as far as
 * the modelled code relies on them.
 */
module Values {
  import opened Strings
  import opened Errors

  datatype Value =
    | VNone
    | VBool(b: bool)
    | VInt(i: int)
    /** a `float()` literal, kept as its (stripped) text */
    | VFloat(text: string)
    | VStr(s: string)
    | VList(items: seq<Value>)
    /** a list of packets, as `TankBranch` sends down its branch */
    | VPackets(packets: seq<Packet>)

  /**
   * A `DataPacket` (or `MessageBottle`) is its instance dictionary: `data`,
   * `message`, `fork_dest`, `sent_from`, `seq_num`, `branch_up_to` and
   * whatever attributes stages have added.
   */
  datatype Packet = Packet(fields: map<string, Value>)

  /** The mantissa of a float literal: the text before any exponent. */
  function Mantissa(t: string): (m: string)
    ensures m <= t
    ensures 'e' !in m && 'E' !in m
  {
    if |t| == 0 || t[0] == 'e' || t[0] == 'E' then [] else [t[0]] + Mantissa(t[1..])
  }

  /**
   * Python's truth test. A float literal is false exactly when its mantissa
   * holds nothing but signs, points and zeros (`0.0`, `-0`, `0e5`).
   */
  predicate Truthy(v: Value)
  {
    match v
    case VNone => false
    case VBool(b) => b
    case VInt(i) => i != 0
    case VFloat(t) =>
      var m := Mantissa(t);
      exists k :: 0 <= k < |m| && m[k] != '+' && m[k] != '-' && m[k] != '.' && m[k] != '0'
    case VStr(s) => s != ""
    case VList(items) => items != []
    case VPackets(ps) => ps != []
  }

  /** `bool` compares as the integer 0 or 1, inside lists too. */
  function Normal(v: Value): (r: Value)
    ensures !r.VBool?
    decreases v
  {
    match v
    case VBool(b) => VInt(if b then 1 else 0)
    case VList(items) => VList(seq(|items|, k requires 0 <= k < |items| => Normal(items[k])))
    case _ => v
  }

  /**
   * Python `==`, as far as the model follows it: bools equal the ints 0
   * and 1, inside lists too. Two simplifications: floats compare by their
   * text, so `1.0` differs from `1` and from `1.00`, and packets compare by
   * their attributes, where Python compares two packets by identity.
   */
  predicate PyEq(a: Value, b: Value) { Normal(a) == Normal(b) }

  function NumberOf(v: Value): (n: Option<int>)
  {
    match v
    case VInt(i) => Some(i)
    case VBool(b) => Some(if b then 1 else 0)
    case _ => None
  }

  /**
   * Where Python 2 puts a value when it orders values of different kinds:
   * None below everything, numbers below every other type, and the rest by
   * type name (`list` before `str`).
   */
  function KindRank(v: Value): (k: nat)
    ensures k <= 3
  {
    match v
    case VNone => 0
    case VBool(_) => 1
    case VInt(_) => 1
    case VFloat(_) => 1
    case VList(_) => 2
    case VPackets(_) => 2
    case VStr(_) => 3
  }

  /**
   * Python 2 `<`: values of different kinds compare by KindRank; two numbers
   * (int or bool) numerically, two strings lexicographically. Comparisons
   * involving a float literal's value, and between two lists, answer false.
   */
  predicate PyLess(a: Value, b: Value)
  {
    if KindRank(a) != KindRank(b) then KindRank(a) < KindRank(b)
    else if NumberOf(a).Some? && NumberOf(b).Some? then NumberOf(a).value < NumberOf(b).value
    else if a.VStr? && b.VStr? then StrLess(a.s, b.s)
    else false
  }

  /** None is below every other value, and a string above every number. */
  lemma PyLessAcrossKinds(v: Value, n: int)
    ensures !v.VNone? ==> PyLess(VNone, v) && !PyLess(v, VNone)
    ensures v.VStr? ==> PyLess(VInt(n), v) && !PyLess(v, VInt(n))
  {
  }

  /** No value is below itself. */
  lemma PyLessIrreflexive(v: Value)
    ensures !PyLess(v, v)
  {
    if v.VStr? { StrLessIrreflexive(v.s); }
  }

  /** `getattr(packet, name)` when the attribute exists. */
  function Get(p: Packet, name: string): Value
    requires name in p.fields
  {
    p.fields[name]
  }

  /** `packet.name = v` */
  function Set(p: Packet, name: string, v: Value): (r: Packet)
    ensures name in r.fields && r.fields[name] == v
    ensures forall k :: k in p.fields && k != name ==> k in r.fields && r.fields[k] == p.fields[k]
    ensures r.fields.Keys == p.fields.Keys + {name}
  {
    Packet(p.fields[name := v])
  }

  function Data(p: Packet): Value
  {
    if "data" in p.fields then p.fields["data"] else VNone
  }

  /** `packet.data` as a string; a packet holding other data reads as "". */
  function DataStr(p: Packet): string
  {
    if Data(p).VStr? then Data(p).s else ""
  }

  function WithData(p: Packet, s: string): (r: Packet)
    ensures DataStr(r) == s
  {
    Set(p, "data", VStr(s))
  }
}
