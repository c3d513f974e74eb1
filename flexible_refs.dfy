/**
 * References to VPCs and subnets inside a routing table. The API sends either
 * a bare ID string or an `{id, name}` object; both decode to one `{ID, Name}`
 * record, and encoding writes the bare string back whenever the record holds
 * only an ID. `FlexibleVPCInfo` and `FlexibleSubnetInfo` are the same codec on
 * two record types, so the record takes the kind of resource as a parameter.
 */
module FlexibleRefs {
  import opened Wrappers
  import opened Json

  /** The kinds of resource a reference can point to. */
  datatype Vpc = Vpc
  datatype Subnet = Subnet

  datatype FlexibleInfo<Kind> = FlexibleInfo(id: string, name: string)

  type FlexibleVPCInfo = FlexibleInfo<Vpc>
  type FlexibleSubnetInfo = FlexibleInfo<Subnet>

  function Empty<Kind>(): FlexibleInfo<Kind> {
    FlexibleInfo("", "")
  }

  /** The two fields of the object form, both tagged `omitempty`. */
  predicate FieldsDecode(fields: map<string, Json>) {
    DecodeString("", fields, "id").Success? && DecodeString("", fields, "name").Success?
  }

  /**
   * `UnmarshalJSON`: decoding into a string is tried first, and it succeeds on
   * a string and on `null` (which leaves the string empty); otherwise the
   * value is decoded as an object into the record as it stands, so an absent
   * or `null` field keeps its value and a mistyped one is an error that does
   * not undo the other field.
   */
  function DecodeInfo<Kind>(prior: FlexibleInfo<Kind>, data: Json): (r: (FlexibleInfo<Kind>, Option<JsonError>))
    ensures data.JString? ==> r == (FlexibleInfo(data.s, ""), None)
    ensures data.JNull? ==> r == (Empty(), None)
    ensures r.1.None? <==> data.JString? || data.JNull? || (data.JObject? && FieldsDecode(data.fields))
    ensures !data.JObject? && r.1.Some? ==> r.0 == prior
    ensures data.JObject? ==>
      (r.0.id == if "id" in data.fields && data.fields["id"].JString? then data.fields["id"].s else prior.id) &&
      (r.0.name == if "name" in data.fields && data.fields["name"].JString? then data.fields["name"].s else prior.name)
  {
    match data
    case JString(s) => (FlexibleInfo(s, ""), None)
    case JNull => (Empty(), None)
    case JObject(fields) =>
      var id := DecodeString(prior.id, fields, "id");
      var name := DecodeString(prior.name, fields, "name");
      var next := FlexibleInfo(if id.Success? then id.value else prior.id,
                               if name.Success? then name.value else prior.name);
      if id.Failure? then (next, Some(id.error))
      else if name.Failure? then (next, Some(name.error))
      else (next, None)
    case _ => (prior, Some(TypeMismatch("FlexibleInfo")))
  }

  /**
   * `MarshalJSON`: a record with an ID and no name is the bare ID string;
   * any other record is an object without its empty fields. Decoding the
   * result into a fresh record gives the record back, the empty one included.
   */
  function EncodeInfo<Kind>(info: FlexibleInfo<Kind>): (r: Json)
    ensures r.JString? <==> info.name == "" && info.id != ""
    ensures r.JString? || r.JObject?
    ensures r.JObject? ==> ("id" in r.fields <==> info.id != "") && ("name" in r.fields <==> info.name != "")
    ensures DecodeInfo(Empty(), r) == (info, None)
  {
    if info.name == "" && info.id != "" then JString(info.id)
    else if info.name == "" then JObject(map[])
    else if info.id == "" then JObject(map["name" := JString(info.name)])
    else JObject(map["id" := JString(info.id), "name" := JString(info.name)])
  }

  /** The receiver of `UnmarshalJSON`, whose two fields decoding overwrites. */
  class FlexibleInfoVar<Kind> {
    var id: string
    var name: string

    constructor ()
      ensures id == "" && name == ""
    {
      id := "";
      name := "";
    }

    function Value(): FlexibleInfo<Kind>
      reads this
    {
      FlexibleInfo(id, name)
    }

    method UnmarshalJSON(data: Json) returns (err: Option<JsonError>)
      modifies this
      ensures (Value(), err) == DecodeInfo(old(Value()), data)
    {
      if data.JString? {
        id := data.s;
        name := "";
        return None;
      }
      if data.JNull? {
        id := "";
        name := "";
        return None;
      }
      if !data.JObject? {
        return Some(TypeMismatch("FlexibleInfo"));
      }
      var idField := DecodeString(id, data.fields, "id");
      var nameField := DecodeString(name, data.fields, "name");
      if idField.Success? {
        id := idField.value;
      }
      if nameField.Success? {
        name := nameField.value;
      }
      if idField.Failure? {
        return Some(idField.error);
      }
      if nameField.Failure? {
        return Some(nameField.error);
      }
      return None;
    }
  }

  // ---------------------------------------------------------------------------
  // What the codec promises
  // ---------------------------------------------------------------------------

  /** A record with an ID survives encoding and decoding, whatever the receiver held before. */
  lemma RoundTrip<Kind>(info: FlexibleInfo<Kind>, prior: FlexibleInfo<Kind>)
    requires info.id != ""
    ensures DecodeInfo(prior, EncodeInfo(info)) == (info, None)
  {
    if info.name != "" {
      var fields := EncodeInfo(info).fields;
      assert fields["id"] == JString(info.id);
      assert fields["name"] == JString(info.name);
    }
  }

  /**
   * Without an ID the object written has no `id` field (and, for the empty
   * record, no `name` field either), so decoding it into a receiver that
   * already held values keeps them.
   */
  lemma NoIdKeepsPriorId<Kind>(info: FlexibleInfo<Kind>, prior: FlexibleInfo<Kind>)
    requires info.id == ""
    ensures DecodeInfo(prior, EncodeInfo(info)) ==
      (FlexibleInfo(prior.id, if info.name != "" then info.name else prior.name), None)
  {
    if info.name != "" {
      assert EncodeInfo(info).fields == map["name" := JString(info.name)];
    } else {
      assert EncodeInfo(info).fields == map[];
    }
  }

  /** Decoding a bare string and encoding the record gives the string back, unless it is empty. */
  lemma BareStringBack<Kind>(prior: FlexibleInfo<Kind>, s: string)
    ensures EncodeInfo(DecodeInfo(prior, JString(s)).0) == JString(s) <==> s != ""
  {
    if s == "" {
      assert EncodeInfo(DecodeInfo(prior, JString(s)).0).JObject?;
    }
  }
}
