/**
 * What the stages of data_filter.py have in common: the sends a stage makes
 * while handling one packet, and the Python slicing, `str.index` and
 * `str.split(sep)` they rely on.
 */
module StageCommon {
  import opened Errors
  import opened Strings
  import opened Values

  /**
   * One `self.send_on(packet, fork_dest)` call made by a stage. A stage's
   * filter_data is modelled by the list of these calls, in the order made;
   * what send_on then does with each is StageRouting.SendOn.
   */
  datatype Send = Send(forkDest: string, packet: Packet)

  /** `getattr(packet, name)`: AttributeError when the packet has no such attribute. */
  function Attr(p: Packet, name: string): (r: Result<Value>)
    ensures r.Ok? <==> name in p.fields
    ensures r.Ok? ==> r.value == p.fields[name]
    ensures r.Err? ==> r.error == AttributeError
  {
    if name in p.fields then Ok(p.fields[name]) else Err(AttributeError)
  }

  // ---------------------------------------------------------------------
  // Python slicing

  /** A slice bound as Python normalises it: negative counts from the end, then clipped. */
  function Bound(k: int, n: nat): (b: nat)
    ensures b <= n
    ensures 0 <= k <= n ==> b == k
    ensures k > n ==> b == n
    ensures k < 0 && -k <= n ==> b == n + k
    ensures k < 0 && -k > n ==> b == 0
  {
    if k < 0 then (if n + k < 0 then 0 else n + k) else if k > n then n else k
  }

  /** `s[i:j]`: empty when the normalised bounds cross. */
  function PySlice<T>(s: seq<T>, i: int, j: int): (r: seq<T>)
    ensures |r| <= |s|
    ensures Bound(i, |s|) <= Bound(j, |s|) ==> r == s[Bound(i, |s|)..Bound(j, |s|)]
    ensures Bound(i, |s|) > Bound(j, |s|) ==> r == []
  {
    var lo := Bound(i, |s|);
    var hi := Bound(j, |s|);
    if lo <= hi then s[lo..hi] else []
  }

  /** `s[:k]` */
  function Head<T>(s: seq<T>, k: int): (r: seq<T>)
    ensures 0 <= k ==> r == s[..if k <= |s| then k else |s|]
  {
    PySlice(s, 0, k)
  }

  /** `s[k:]` */
  function Tail<T>(s: seq<T>, k: int): (r: seq<T>)
    ensures 0 <= k ==> r == s[if k <= |s| then k else |s|..]
  {
    PySlice(s, k, |s|)
  }

  /** `s[:k] + s[k:] == s` for every integer k, negative ones included. */
  lemma HeadTail<T>(s: seq<T>, k: int)
    ensures Head(s, k) + Tail(s, k) == s
  {
    var b := Bound(k, |s|);
    assert Head(s, k) == s[..b];
    assert Tail(s, k) == s[b..];
    assert s[..b] + s[b..] == s;
  }

  /**
   * Slicing packet data: strings and lists slice; any other value has no
   * `__getitem__` and slicing it is a TypeError (None here).
   */
  function SliceValue(v: Value, i: int, j: int): (r: Option<Value>)
    ensures r.Some? <==> v.VStr? || v.VList? || v.VPackets?
    ensures v.VStr? ==> r == Some(VStr(PySlice(v.s, i, j)))
  {
    match v
    case VStr(s) => Some(VStr(PySlice(s, i, j)))
    case VList(items) => Some(VList(PySlice(items, i, j)))
    case VPackets(ps) => Some(VPackets(PySlice(ps, i, j)))
    case _ => None
  }

  /** `v[:k]` on packet data. */
  function HeadValue(v: Value, k: int): (r: Option<Value>)
    ensures r.Some? <==> v.VStr? || v.VList? || v.VPackets?
    ensures v.VStr? ==> r == Some(VStr(Head(v.s, k)))
  {
    SliceValue(v, 0, k)
  }

  /** `v[k:]` on packet data. */
  function TailValue(v: Value, k: int): (r: Option<Value>)
    ensures r.Some? <==> v.VStr? || v.VList? || v.VPackets?
    ensures v.VStr? ==> r == Some(VStr(Tail(v.s, k)))
  {
    match v
    case VStr(s) => Some(VStr(Tail(s, k)))
    case VList(items) => Some(VList(Tail(items, k)))
    case VPackets(ps) => Some(VPackets(Tail(ps, k)))
    case _ => None
  }

  // ---------------------------------------------------------------------
  // str.index and str.split(sep)

  /** `t` occurs in `s` at position k. */
  predicate OccursAt(s: string, t: string, k: nat)
  {
    k + |t| <= |s| && s[k..k + |t|] == t
  }

  /** `s.index(t)`: the first position where t occurs; None where Python raises ValueError. */
  function Find(s: string, t: string): (r: Option<nat>)
    ensures r.Some? ==> OccursAt(s, t, r.value)
    ensures r.Some? ==> forall k: nat :: k < r.value ==> !OccursAt(s, t, k)
    ensures r.None? ==> forall k: nat :: !OccursAt(s, t, k)
    decreases |s|
  {
    if StartsWith(s, t) then Some(0)
    else if |s| == 0 then None
    else
      var rest := Find(s[1..], t);
      FindShift(s, t);
      if rest.None? then None else Some(rest.value + 1)
  }

  /**
   * Occurrences in s other than at its head are the occurrences in s[1..],
   * one place later.
   */
  lemma FindShift(s: string, t: string)
    requires |s| > 0 && !StartsWith(s, t)
    ensures !OccursAt(s, t, 0)
    ensures forall k: nat :: OccursAt(s[1..], t, k) ==> OccursAt(s, t, k + 1)
    ensures forall k: nat :: 0 < k && OccursAt(s, t, k) ==> OccursAt(s[1..], t, k - 1)
  {
    forall k: nat | OccursAt(s[1..], t, k)
      ensures OccursAt(s, t, k + 1)
    {
      assert s[1..][k..k + |t|] == s[k + 1..k + 1 + |t|];
    }
    forall k: nat | 0 < k && OccursAt(s, t, k)
      ensures OccursAt(s[1..], t, k - 1)
    {
      assert s[1..][k - 1..k - 1 + |t|] == s[k..k + |t|];
    }
  }

  /**
   * `s.split(sep)` for a non-empty separator: the pieces between the
   * occurrences of sep, found from the left.
   */
  function SplitOn(s: string, sep: string): (parts: seq<string>)
    requires sep != ""
    ensures |parts| >= 1
    decreases |s|
  {
    match Find(s, sep)
    case None => [s]
    case Some(k) => [s[..k]] + SplitOn(s[k + |sep|..], sep)
  }

  /** Joining the pieces of `s.split(sep)` with sep gives back s. */
  lemma {:induction false} JoinSplitOn(s: string, sep: string)
    requires sep != ""
    ensures Join(SplitOn(s, sep), sep) == s
    decreases |s|
  {
    match Find(s, sep)
    case None =>
    case Some(k) =>
      var rest := s[k + |sep|..];
      var tail := SplitOn(rest, sep);
      JoinSplitOn(rest, sep);
      var parts := SplitOn(s, sep);
      assert parts == [s[..k]] + tail;
      assert parts[0] == s[..k] && parts[1..] == tail && |parts| > 1;
      assert Join(parts, sep) == s[..k] + sep + Join(tail, sep);
      Pieces(s, k, k + |sep|);
  }

  lemma Pieces<T>(s: seq<T>, k: nat, m: nat)
    requires k <= m <= |s|
    ensures s == s[..k] + s[k..m] + s[m..]
  {
  }

  /** No piece of `s.split(sep)` but the last can contain sep. */
  lemma {:induction false} SplitOnPiecesFree(s: string, sep: string, i: nat)
    requires sep != "" && i + 1 < |SplitOn(s, sep)|
    ensures forall k: nat :: !OccursAt(SplitOn(s, sep)[i], sep, k)
    decreases |s|
  {
    var k := Find(s, sep).value;
    var rest := s[k + |sep|..];
    if i == 0 {
      forall j: nat
        ensures !OccursAt(s[..k], sep, j)
      {
        if j + |sep| <= k {
          assert s[..k][j..j + |sep|] == s[j..j + |sep|];
          assert !OccursAt(s, sep, j);
        }
      }
    } else {
      SplitOnPiecesFree(rest, sep, i - 1);
    }
  }
}
