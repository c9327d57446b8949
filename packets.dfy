/**
 * DataPacket and MessageBottle (data_fltr_base.py): a packet is its instance
 * dictionary; a message bottle is a packet whose `message` attribute is set.
 */
module Packets {
  import opened Errors
  import opened Strings
  import opened Values
  import opened FilterUtils

  /** The attributes `DataPacket.__init__` gives every packet. */
  const StandardFields: set<string> :=
    {"data", "message", "fork_dest", "sent_from", "seq_num", "branch_up_to"}

  function InitFields(data: Value, seqNum: int): (m: map<string, Value>)
    ensures m.Keys == StandardFields
  {
    map["data" := data, "message" := VNone, "fork_dest" := VNone, "sent_from" := VNone,
        "seq_num" := VInt(seqNum), "branch_up_to" := VInt(0)]
  }

  /**
   * DataPacket(data, seq_num, **kwargs): the standard attributes, then the
   * keyword arguments on top of them.
   */
  function NewPacket(data: Value, seqNum: int, kwargs: map<string, Value>): (p: Packet)
    ensures p.fields.Keys == StandardFields + kwargs.Keys
    ensures forall k :: k in kwargs ==> p.fields[k] == kwargs[k]
    ensures "data" !in kwargs ==> Data(p) == data
    ensures "seq_num" !in kwargs ==> p.fields["seq_num"] == VInt(seqNum)
    ensures "message" !in kwargs ==> p.fields["message"] == VNone
    ensures "fork_dest" !in kwargs ==> p.fields["fork_dest"] == VNone
  {
    Packet(InitFields(data, seqNum) + kwargs)
  }

  /** `DataPacket(d)` with no other arguments. */
  function PacketOf(data: Value): (p: Packet)
    ensures Data(p) == data && !IsMessage(p)
    ensures p.fields.Keys == StandardFields
  {
    NewPacket(data, -1, map[])
  }

  /**
   * The coroutine takes the message path exactly when `packet.message` is
   * true in Python's sense.
   */
  predicate IsMessage(p: Packet)
  {
    "message" in p.fields && Truthy(p.fields["message"])
  }

  /**
   * clone(data, **kwargs): a fresh packet's attributes, overwritten by a copy
   * of this packet's dictionary; the data replaced only when the new data is
   * true; the keyword arguments applied last.
   */
  function Clone(p: Packet, data: Value, kwargs: map<string, Value>): (c: Packet)
    ensures c.fields.Keys == StandardFields + p.fields.Keys + kwargs.Keys
    ensures forall k :: k in kwargs ==> c.fields[k] == kwargs[k]
    ensures forall k :: k in p.fields && k !in kwargs && k != "data" ==> c.fields[k] == p.fields[k]
    ensures "data" !in kwargs && Truthy(data) ==> Data(c) == data
    ensures "data" !in kwargs && !Truthy(data) && "data" in p.fields ==> Data(c) == Data(p)
  {
    var copied := InitFields(VStr(""), -1) + p.fields;
    var withData := if Truthy(data) then copied["data" := data] else copied;
    Packet(withData + kwargs)
  }

  /** A clone with no arguments of a packet that has the standard attributes is equal to it. */
  lemma CloneIsCopy(p: Packet)
    requires StandardFields <= p.fields.Keys
    ensures Clone(p, VStr(""), map[]) == p
  {
    var c := Clone(p, VStr(""), map[]);
    assert c.fields.Keys == p.fields.Keys;
    assert forall k :: k in p.fields ==> c.fields[k] == p.fields[k];
    assert c.fields == p.fields;
  }

  /** Cloning with new string data keeps every other attribute and carries that data. */
  lemma CloneWithStr(p: Packet, s: string)
    requires s != ""
    ensures DataStr(Clone(p, VStr(s), map[])) == s
    ensures IsMessage(Clone(p, VStr(s), map[])) <==> IsMessage(p)
  {
    var c := Clone(p, VStr(s), map[]);
    assert Truthy(VStr(s));
    if "message" !in p.fields {
      assert c.fields["message"] == VNone;
    }
  }

  /** data_length: the length of the data when it is a string, else 0. */
  function DataLength(p: Packet): (n: nat)
    ensures Data(p).VStr? ==> n == |Data(p).s|
    ensures !Data(p).VStr? ==> n == 0
  {
    |DataStr(p)|
  }

  lemma DataLengthClone(p: Packet, s: string)
    requires s != ""
    ensures DataLength(Clone(p, VStr(s), map[])) == |s|
  {
    CloneWithStr(p, s);
  }

  /**
   * MessageBottle(destination, message, single_use, **kwargs). Python binds
   * the arguments first (a keyword repeating `destination`, `message` or
   * `single_use` is a TypeError), then the body raises MessageError for an
   * empty message or a `data` keyword; passing `values` again to
   * DataPacket.__init__ is a TypeError. The message text is split by
   * get_values_from_name into the message name and its values.
   */
  function MessageBottle(destination: Value, message: string, singleUse: bool,
                         kwargs: map<string, Value>): (r: Result<Packet>)
    ensures r.Err? <==> ("destination" in kwargs || message == "" || "data" in kwargs
                         || "message" in kwargs || "values" in kwargs || "single_use" in kwargs)
    ensures ("destination" in kwargs || "message" in kwargs || "single_use" in kwargs) ==>
              r == Err(TypeError)
    ensures r.Err? && !("destination" in kwargs || "message" in kwargs || "single_use" in kwargs)
            && (message == "" || "data" in kwargs) ==>
              r.error == MessageError
    ensures r.Err? && !(r.error == MessageError) ==> r.error == TypeError
    ensures r.Ok? ==> DataStr(r.value) == "" && Data(r.value) == VStr("")
    ensures r.Ok? ==> StandardFields + {"destination", "values", "single_use"} <= r.value.fields.Keys
    ensures r.Ok? ==> r.value.fields["destination"] == destination
    ensures r.Ok? ==> r.value.fields["message"] == VStr(GetValuesFromName(message).0)
    ensures r.Ok? ==> r.value.fields["values"] == VList(GetValuesFromName(message).1)
    ensures r.Ok? ==> r.value.fields["single_use"] == VBool(singleUse)
    ensures r.Ok? ==> (IsMessage(r.value) <==> GetValuesFromName(message).0 != "")
  {
    if "destination" in kwargs || "message" in kwargs || "single_use" in kwargs then Err(TypeError)
    else if message == "" || "data" in kwargs then Err(MessageError)
    else if "values" in kwargs then Err(TypeError)
    else
      var (name, values) := GetValuesFromName(message);
      Ok(Bottled(destination, name, values, singleUse, kwargs))
  }

  /** The bottle DataPacket.__init__ builds once the arguments are accepted. */
  function Bottled(destination: Value, name: string, values: seq<Value>, singleUse: bool,
                   kwargs: map<string, Value>): (p: Packet)
    requires "message" !in kwargs && "values" !in kwargs && "single_use" !in kwargs
    requires "destination" !in kwargs && "data" !in kwargs
    ensures Data(p) == VStr("") && DataStr(p) == ""
    ensures p.fields.Keys == StandardFields + kwargs.Keys + {"destination", "values", "single_use"}
    ensures p.fields["destination"] == destination
    ensures p.fields["message"] == VStr(name)
    ensures p.fields["values"] == VList(values)
    ensures p.fields["single_use"] == VBool(singleUse)
    ensures forall k :: k in kwargs ==> p.fields[k] == kwargs[k]
  {
    var init := InitFields(VStr(""), -1);
    var named := init["message" := VStr(name)]["values" := VList(values)]
                     ["single_use" := VBool(singleUse)];
    Packet((named + kwargs)["destination" := destination])
  }

  /** The keyword arguments of a bottle other than `destination` become its attributes. */
  lemma BottleKeepsKwargs(destination: Value, message: string, singleUse: bool,
                          kwargs: map<string, Value>, k: string)
    requires MessageBottle(destination, message, singleUse, kwargs).Ok? && k in kwargs
    ensures k in MessageBottle(destination, message, singleUse, kwargs).value.fields
    ensures MessageBottle(destination, message, singleUse, kwargs).value.fields[k] == kwargs[k]
  {
  }

  /** A message without a leading ':' always makes a bottle that takes the message path. */
  lemma BottleIsMessage(destination: Value, message: string, singleUse: bool)
    requires message != "" && message[0] != ':'
    ensures MessageBottle(destination, message, singleUse, map[]).Ok?
    ensures IsMessage(MessageBottle(destination, message, singleUse, map[]).value)
  {
  }
}
