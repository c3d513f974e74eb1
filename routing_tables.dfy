/**
 * Routing tables and the tolerant way a routing-table response is read.
 *
 * `Extract` first decodes the response strictly, the way `json.Unmarshal`
 * fills a tagged struct. When that fails it falls back: the raw
 * `routingtable` value is decoded strictly once more and, if that fails too
 * and the value is an object, it is read field by field, each field taken only
 * when it has the expected JSON kind, and each list keeping only its
 * well-formed elements, in order.
 */
module RoutingTables {
  import opened Wrappers
  import opened Json
  import opened Timestamps
  import opened FlexibleRefs

  // ---------------------------------------------------------------------------
  // Records
  // ---------------------------------------------------------------------------

  datatype Route = Route(
    id: string,
    cidr: string,
    mask: int,
    gateway: string,
    gatewayId: string,
    description: Option<string>,
    routingTableId: string,
    tenantId: string,
    hidden: bool)

  const EmptyRoute: Route := Route("", "", 0, "", "", None, "", "", false)

  datatype RoutingTable = RoutingTable(
    id: string,
    name: string,
    defaultTable: bool,
    distributed: bool,
    gatewayId: string,
    gatewayName: string,
    tenantId: string,
    state: string,
    createTime: Time,
    vpcs: seq<FlexibleVPCInfo>,
    subnets: seq<FlexibleSubnetInfo>,
    routes: seq<Route>)
  {
    /** The ID of every subnet, position by position. */
    method GetSubnetIDs() returns (ids: seq<string>)
      ensures |ids| == |subnets| && forall i :: 0 <= i < |subnets| ==> ids[i] == subnets[i].id
    {
      ids := CollectIds(subnets);
    }

    /** The subnet names that are not empty, in order. */
    method GetSubnetNames() returns (names: seq<string>)
      ensures names == NonEmptyNames(subnets)
      ensures |names| <= |subnets| && "" !in names
    {
      names := CollectNames(subnets);
    }

    /** The ID of every VPC, position by position. */
    method GetVPCIDs() returns (ids: seq<string>)
      ensures |ids| == |vpcs| && forall i :: 0 <= i < |vpcs| ==> ids[i] == vpcs[i].id
    {
      ids := CollectIds(vpcs);
    }

    /** The VPC names that are not empty, in order. */
    method GetVPCNames() returns (names: seq<string>)
      ensures names == NonEmptyNames(vpcs)
      ensures |names| <= |vpcs| && "" !in names
    {
      names := CollectNames(vpcs);
    }
  }

  const EmptyTable: RoutingTable := RoutingTable("", "", false, false, "", "", "", "", Zero, [], [], [])

  // ---------------------------------------------------------------------------
  // Projections
  // ---------------------------------------------------------------------------

  /** Fills a slice of the list's length, one ID per position. */
  method CollectIds<Kind>(infos: seq<FlexibleInfo<Kind>>) returns (ids: seq<string>)
    ensures |ids| == |infos| && forall i :: 0 <= i < |infos| ==> ids[i] == infos[i].id
  {
    var buffer := new string[|infos|];
    for i := 0 to |infos|
      invariant forall j :: 0 <= j < i ==> buffer[j] == infos[j].id
    {
      buffer[i] := infos[i].id;
    }
    ids := buffer[..];
  }

  function NameOf<Kind>(info: FlexibleInfo<Kind>): (r: Option<string>)
    ensures r.Some? <==> info.name != ""
    ensures r.Some? ==> r.value == info.name
  {
    if info.name != "" then Some(info.name) else None
  }

  /** The names that are set, in the order of their references. */
  function NonEmptyNames<Kind>(infos: seq<FlexibleInfo<Kind>>): seq<string> {
    FilterMap(infos, NameOf)
  }

  /** Appends each name that is not empty. */
  method CollectNames<Kind>(infos: seq<FlexibleInfo<Kind>>) returns (names: seq<string>)
    ensures names == NonEmptyNames(infos)
    ensures |names| <= |infos| && "" !in names
  {
    names := [];
    for i := 0 to |infos|
      invariant names == FilterMap(infos[..i], NameOf)
    {
      FilterMapSnoc(infos[..i], infos[i], NameOf);
      assert infos[..i + 1] == infos[..i] + [infos[i]];
      if infos[i].name != "" {
        names := names + [infos[i].name];
      }
    }
    assert infos[..|infos|] == infos;
    FilterMapLength(infos, NameOf);
    FilterMapMembers(infos, NameOf, "");
  }

  // ---------------------------------------------------------------------------
  // Lenient list readers: elements of `[]interface{}` matched by kind
  // ---------------------------------------------------------------------------

  /** A bare string is an ID; an object gives whichever of `id` and `name` are strings; anything else is dropped. */
  function InfoFromElement<Kind>(element: Json): (r: Option<FlexibleInfo<Kind>>)
    ensures r.Some? <==> element.JString? || element.JObject?
    ensures element.JString? ==> r == Some(FlexibleInfo(element.s, ""))
    ensures element.JObject? ==>
      r == Some(FlexibleInfo(StringAt(element.fields, "id").GetOr(""), StringAt(element.fields, "name").GetOr("")))
  {
    match element
    case JString(s) => Some(FlexibleInfo(s, ""))
    case JObject(fields) => Some(FlexibleInfo(StringAt(fields, "id").GetOr(""), StringAt(fields, "name").GetOr("")))
    case _ => None
  }

  /** What `parseFlexibleVPCs` and `parseFlexibleSubnets` return for a value. */
  function FlexibleList<Kind>(value: Json): (r: seq<FlexibleInfo<Kind>>)
    ensures !value.JArray? ==> r == []
    ensures value.JArray? ==> |r| <= |value.items|
    ensures forall info :: info in r ==> exists i :: 0 <= i < |value.items| && InfoFromElement(value.items[i]) == Some(info)
  {
    if value.JArray? then
      FilterMapLength(value.items, InfoFromElement<Kind>);
      forall info | info in FilterMap(value.items, InfoFromElement<Kind>)
        ensures exists i :: 0 <= i < |value.items| && InfoFromElement(value.items[i]) == Some(info)
      {
        FilterMapMembers(value.items, InfoFromElement<Kind>, info);
      }
      FilterMap(value.items, InfoFromElement<Kind>)
    else []
  }

  method ParseFlexibleList<Kind>(value: Json) returns (result: seq<FlexibleInfo<Kind>>)
    ensures result == FlexibleList(value)
  {
    result := [];
    if value.JArray? {
      var items := value.items;
      for i := 0 to |items|
        invariant result == FilterMap(items[..i], InfoFromElement<Kind>)
      {
        FilterMapSnoc(items[..i], items[i], InfoFromElement<Kind>);
        assert items[..i + 1] == items[..i] + [items[i]];
        match items[i]
        case JString(s) =>
          result := result + [FlexibleInfo(s, "")];
        case JObject(fields) =>
          var info: FlexibleInfo<Kind> := Empty();
          if StringAt(fields, "id").Some? {
            info := info.(id := StringAt(fields, "id").value);
          }
          if StringAt(fields, "name").Some? {
            info := info.(name := StringAt(fields, "name").value);
          }
          result := result + [info];
        case _ =>
      }
      assert items[..|items|] == items;
    }
  }

  /**
   * An object becomes a route: a field is copied when its entry has the
   * expected kind and otherwise keeps its zero value; anything else is dropped.
   */
  function RouteFromElement(element: Json): (r: Option<Route>)
    ensures r.Some? <==> element.JObject?
    ensures element.JObject? ==> var m := element.fields;
      (StringAt(m, "id").Some? ==> r.value.id == StringAt(m, "id").value) &&
      (StringAt(m, "cidr").Some? ==> r.value.cidr == StringAt(m, "cidr").value) &&
      (NumberAt(m, "mask").Some? ==> r.value.mask == NumberAt(m, "mask").value) &&
      (StringAt(m, "gateway").Some? ==> r.value.gateway == StringAt(m, "gateway").value) &&
      (StringAt(m, "gateway_id").Some? ==> r.value.gatewayId == StringAt(m, "gateway_id").value) &&
      (StringAt(m, "description").Some? ==> r.value.description == StringAt(m, "description")) &&
      (StringAt(m, "routingtable_id").Some? ==> r.value.routingTableId == StringAt(m, "routingtable_id").value) &&
      (StringAt(m, "tenant_id").Some? ==> r.value.tenantId == StringAt(m, "tenant_id").value) &&
      (BoolAt(m, "hidden").Some? ==> r.value.hidden == BoolAt(m, "hidden").value)
    ensures element.JObject? ==> var m := element.fields;
      (StringAt(m, "id").None? ==> r.value.id == "") &&
      (StringAt(m, "cidr").None? ==> r.value.cidr == "") &&
      (NumberAt(m, "mask").None? ==> r.value.mask == 0) &&
      (StringAt(m, "gateway").None? ==> r.value.gateway == "") &&
      (StringAt(m, "gateway_id").None? ==> r.value.gatewayId == "") &&
      (StringAt(m, "description").None? ==> r.value.description.None?) &&
      (StringAt(m, "routingtable_id").None? ==> r.value.routingTableId == "") &&
      (StringAt(m, "tenant_id").None? ==> r.value.tenantId == "") &&
      (BoolAt(m, "hidden").None? ==> !r.value.hidden)
  {
    match element
    case JObject(m) =>
      Some(Route(
        StringAt(m, "id").GetOr(""),
        StringAt(m, "cidr").GetOr(""),
        NumberAt(m, "mask").GetOr(0),
        StringAt(m, "gateway").GetOr(""),
        StringAt(m, "gateway_id").GetOr(""),
        StringAt(m, "description"),
        StringAt(m, "routingtable_id").GetOr(""),
        StringAt(m, "tenant_id").GetOr(""),
        BoolAt(m, "hidden").GetOr(false)))
    case _ => None
  }

  /** `if v, ok := data[key].(string); ok { field = v }` on a field still at its zero value. */
  method TakeString(data: map<string, Json>, key: string) returns (field: string)
    ensures field == StringAt(data, key).GetOr("")
  {
    field := "";
    if StringAt(data, key).Some? {
      field := StringAt(data, key).value;
    }
  }

  /** `if v, ok := data[key].(bool); ok { field = v }` on a field still at its zero value. */
  method TakeBool(data: map<string, Json>, key: string) returns (field: bool)
    ensures field == BoolAt(data, key).GetOr(false)
  {
    field := false;
    if BoolAt(data, key).Some? {
      field := BoolAt(data, key).value;
    }
  }

  /** One route object: each field of the expected kind is copied onto a zero route. */
  method ParseRoute(m: map<string, Json>) returns (r: Route)
    ensures Some(r) == RouteFromElement(JObject(m))
  {
    var id := TakeString(m, "id");
    var cidr := TakeString(m, "cidr");
    var mask := 0;
    if NumberAt(m, "mask").Some? {
      mask := NumberAt(m, "mask").value;
    }
    var gateway := TakeString(m, "gateway");
    var gatewayId := TakeString(m, "gateway_id");
    var description: Option<string> := None;
    if StringAt(m, "description").Some? {
      description := Some(StringAt(m, "description").value);
    }
    var routingTableId := TakeString(m, "routingtable_id");
    var tenantId := TakeString(m, "tenant_id");
    var hidden := TakeBool(m, "hidden");
    r := Route(id, cidr, mask, gateway, gatewayId, description, routingTableId, tenantId, hidden);
  }

  method ParseRoutes(routes: seq<Json>) returns (result: seq<Route>)
    ensures result == FilterMap(routes, RouteFromElement)
  {
    result := [];
    for i := 0 to |routes|
      invariant result == FilterMap(routes[..i], RouteFromElement)
    {
      FilterMapSnoc(routes[..i], routes[i], RouteFromElement);
      assert routes[..i + 1] == routes[..i] + [routes[i]];
      if routes[i].JObject? {
        var r := ParseRoute(routes[i].fields);
        result := result + [r];
      }
    }
    assert routes[..|routes|] == routes;
  }

  // ---------------------------------------------------------------------------
  // The field-by-field fallback
  // ---------------------------------------------------------------------------

  /**
   * `create_time` in the fallback: the decoded string is put back between two
   * quotes unescaped, so it is read only when that forms a JSON string literal;
   * then the timestamp codec decodes it into a zero time, and any failure
   * leaves the time unset.
   */
  function LooseTime(s: string): (t: Time)
    ensures t != Zero ==> ValidStringBody(s) && UnmarshalTime("\"" + s + "\"", Zero) == Success(t)
  {
    if !ValidStringBody(s) then Zero
    else match UnmarshalTime("\"" + s + "\"", Zero)
      case Success(t) => t
      case Failure(_) => Zero
  }

  function LooseCreateTime(data: map<string, Json>): Time {
    if StringAt(data, "create_time").Some? then LooseTime(StringAt(data, "create_time").value) else Zero
  }

  /** A reference list is read from any value under its key; only an array gives elements. */
  function LooseReferences<Kind>(data: map<string, Json>, key: string): seq<FlexibleInfo<Kind>> {
    if key in data then FlexibleList(data[key]) else []
  }

  /** Routes are read only from an array. */
  function LooseRoutes(data: map<string, Json>): seq<Route> {
    if ArrayAt(data, "routes").Some? then FilterMap(ArrayAt(data, "routes").value, RouteFromElement) else []
  }

  /**
   * What `parseRoutingTableFromMap` builds from a generic map: every field
   * that differs from its zero value was read from an entry of the expected
   * kind.
   */
  function FromMap(data: map<string, Json>): (r: RoutingTable)
    ensures r.id != "" ==> StringAt(data, "id") == Some(r.id)
    ensures r.name != "" ==> StringAt(data, "name") == Some(r.name)
    ensures r.defaultTable ==> BoolAt(data, "default_table") == Some(true)
    ensures r.distributed ==> BoolAt(data, "distributed") == Some(true)
    ensures r.gatewayId != "" ==> StringAt(data, "gateway_id") == Some(r.gatewayId)
    ensures r.gatewayName != "" ==> StringAt(data, "gateway_name") == Some(r.gatewayName)
    ensures r.tenantId != "" ==> StringAt(data, "tenant_id") == Some(r.tenantId)
    ensures r.state != "" ==> StringAt(data, "state") == Some(r.state)
    ensures r.createTime != Zero ==> StringAt(data, "create_time").Some?
    ensures r.vpcs != [] ==> ArrayAt(data, "vpcs").Some?
    ensures r.subnets != [] ==> ArrayAt(data, "subnets").Some?
    ensures r.routes != [] ==> ArrayAt(data, "routes").Some?
  {
    RoutingTable(
      StringAt(data, "id").GetOr(""),
      StringAt(data, "name").GetOr(""),
      BoolAt(data, "default_table").GetOr(false),
      BoolAt(data, "distributed").GetOr(false),
      StringAt(data, "gateway_id").GetOr(""),
      StringAt(data, "gateway_name").GetOr(""),
      StringAt(data, "tenant_id").GetOr(""),
      StringAt(data, "state").GetOr(""),
      LooseCreateTime(data),
      LooseReferences(data, "vpcs"),
      LooseReferences(data, "subnets"),
      LooseRoutes(data))
  }

  /**
   * `create_time`, when it is a string: a fresh timestamp receives the text,
   * and it is kept only when decoding succeeds.
   */
  method ParseCreateTime(data: map<string, Json>) returns (t: Time)
    ensures t == LooseCreateTime(data)
  {
    t := Zero;
    if StringAt(data, "create_time").Some? {
      var s := StringAt(data, "create_time").value;
      var createTime := new CloudTime();
      if ValidStringBody(s) {
        var err := createTime.UnmarshalJSON("\"" + s + "\"");
        if err.None? {
          t := createTime.time;
        }
      }
    }
  }

  method ParseReferenceField<Kind>(data: map<string, Json>, key: string) returns (infos: seq<FlexibleInfo<Kind>>)
    ensures infos == LooseReferences(data, key)
  {
    infos := [];
    if key in data {
      infos := ParseFlexibleList(data[key]);
    }
  }

  method ParseRouteField(data: map<string, Json>) returns (routes: seq<Route>)
    ensures routes == LooseRoutes(data)
  {
    routes := [];
    if ArrayAt(data, "routes").Some? {
      routes := ParseRoutes(ArrayAt(data, "routes").value);
    }
  }

  method ParseRoutingTableFromMap(data: map<string, Json>) returns (rt: RoutingTable)
    ensures rt == FromMap(data)
  {
    var id := TakeString(data, "id");
    var name := TakeString(data, "name");
    var defaultTable := TakeBool(data, "default_table");
    var distributed := TakeBool(data, "distributed");
    var gatewayId := TakeString(data, "gateway_id");
    var gatewayName := TakeString(data, "gateway_name");
    var tenantId := TakeString(data, "tenant_id");
    var state := TakeString(data, "state");
    var createTime := ParseCreateTime(data);
    var vpcs := ParseReferenceField(data, "vpcs");
    var subnets := ParseReferenceField(data, "subnets");
    var routes := ParseRouteField(data);
    rt := RoutingTable(id, name, defaultTable, distributed, gatewayId, gatewayName, tenantId, state,
                       createTime, vpcs, subnets, routes);
  }

  // ---------------------------------------------------------------------------
  // Strict decoding: json.Unmarshal into a zero-valued struct
  // ---------------------------------------------------------------------------

  /** Every element decoded with `decode`, or the first error. */
  function DecodeAll<T>(items: seq<Json>, decode: Json -> Result<T, JsonError>): (r: Result<seq<T>, JsonError>)
    ensures r.Success? ==> |r.value| == |items| && forall i :: 0 <= i < |items| ==> decode(items[i]) == Success(r.value[i])
    ensures r.Failure? <==> exists i :: 0 <= i < |items| && decode(items[i]).Failure?
  {
    if items == [] then Success([])
    else
      var head :- decode(items[0]);
      var tail :- DecodeAll(items[1..], decode);
      assert forall i :: 1 <= i < |items| ==> items[i] == items[1..][i - 1];
      Success([head] + tail)
  }

  /** A slice field: absent or `null` keeps the empty slice, an array is decoded element by element. */
  function DecodeList<T>(fields: map<string, Json>, key: string, decode: Json -> Result<T, JsonError>): (r: Result<seq<T>, JsonError>)
    ensures key !in fields || fields[key].JNull? ==> r == Success([])
    ensures key in fields && !(fields[key].JNull? || fields[key].JArray?) ==> r.Failure?
    ensures key in fields && fields[key].JArray? ==> r == DecodeAll(fields[key].items, decode)
  {
    if key !in fields then Success([])
    else match fields[key]
      case JNull => Success([])
      case JArray(items) => DecodeAll(items, decode)
      case _ => Failure(TypeMismatch(key))
  }

  /** A list element that is a reference: its own `UnmarshalJSON` on a zero record. */
  function DecodeInfoElement<Kind>(element: Json): (r: Result<FlexibleInfo<Kind>, JsonError>)
    ensures r.Success? <==> DecodeInfo(Empty<Kind>(), element).1.None?
    ensures r.Success? ==> r.value == DecodeInfo(Empty<Kind>(), element).0
  {
    var (info, err) := DecodeInfo(Empty<Kind>(), element);
    if err.Some? then Failure(err.value) else Success(info)
  }

  /** Every route field of a route object holds an entry its strict decoder accepts. */
  predicate RouteFits(m: map<string, Json>) {
    StringFits(m, "id") && StringFits(m, "cidr") && NumberFits(m, "mask") && StringFits(m, "gateway") &&
    StringFits(m, "gateway_id") && StringFits(m, "description") && StringFits(m, "routingtable_id") &&
    StringFits(m, "tenant_id") && BoolFits(m, "hidden")
  }

  /**
   * A list element that is a route: `null` leaves the zero route, an object
   * fills it and fails on the first field of the wrong kind; what it fills in
   * is what the lenient reader takes from the same object.
   */
  function DecodeRoute(element: Json): (r: Result<Route, JsonError>)
    ensures element.JNull? ==> r == Success(EmptyRoute)
    ensures !(element.JNull? || element.JObject?) ==> r.Failure?
    ensures element.JObject? ==> (r.Success? <==> RouteFits(element.fields))
    ensures element.JObject? && r.Success? ==> RouteFromElement(element) == Some(r.value)
  {
    match element
    case JNull => Success(EmptyRoute)
    case JObject(m) =>
      var id :- DecodeString("", m, "id");
      var cidr :- DecodeString("", m, "cidr");
      var mask :- DecodeInt(0, m, "mask");
      var gateway :- DecodeString("", m, "gateway");
      var gatewayId :- DecodeString("", m, "gateway_id");
      var description :- DecodeStringPointer(None, m, "description");
      var routingTableId :- DecodeString("", m, "routingtable_id");
      var tenantId :- DecodeString("", m, "tenant_id");
      var hidden :- DecodeBool(false, m, "hidden");
      Success(Route(id, cidr, mask, gateway, gatewayId, description, routingTableId, tenantId, hidden))
    case _ => Failure(TypeMismatch("Route"))
  }

  /**
   * `create_time`: the timestamp's own `UnmarshalJSON` gets the raw JSON
   * text. A string reaches it re-encoded by the client (escaped and quoted),
   * `null` as the text `null`; the text of a number, boolean, array or object
   * matches no layout.
   */
  function DecodeTimeField(current: Time, fields: map<string, Json>, key: string): (r: Result<Time, JsonError>)
    ensures key !in fields || fields[key].JNull? ==> r == Success(current)
    ensures key in fields && fields[key].JString? ==>
      (r.Success? <==> UnmarshalTime(Quote(fields[key].s), current).Success?)
    ensures r.Success? && key in fields && fields[key].JString? ==> r.value == UnmarshalTime(Quote(fields[key].s), current).value
    ensures key in fields && !(fields[key].JNull? || fields[key].JString?) ==> r.Failure?
  {
    if key !in fields then Success(current)
    else match fields[key]
      case JNull =>
        assert TrimQuotes("null") == "null" by {
          assert "null"[..4] == "null";
        }
        (match UnmarshalTime("null", current)
         case Success(t) => Success(t)
         case Failure(e) => Failure(InvalidTime(e.text)))
      case JString(s) =>
        (match UnmarshalTime(Quote(s), current)
         case Success(t) => Success(t)
         case Failure(e) => Failure(InvalidTime(e.text)))
      case _ => Failure(InvalidTime(key))
  }

  /** `json.Unmarshal` of a routing-table value into a zero `RoutingTable`. */
  function DecodeTable(value: Json): (r: Result<RoutingTable, JsonError>)
    ensures value.JNull? ==> r == Success(EmptyTable)
    ensures !(value.JNull? || value.JObject?) ==> r.Failure?
  {
    match value
    case JNull => Success(EmptyTable)
    case JObject(f) =>
      var id :- DecodeString("", f, "id");
      var name :- DecodeString("", f, "name");
      var defaultTable :- DecodeBool(false, f, "default_table");
      var distributed :- DecodeBool(false, f, "distributed");
      var gatewayId :- DecodeString("", f, "gateway_id");
      var gatewayName :- DecodeString("", f, "gateway_name");
      var tenantId :- DecodeString("", f, "tenant_id");
      var state :- DecodeString("", f, "state");
      var createTime :- DecodeTimeField(Zero, f, "create_time");
      var vpcs :- DecodeList(f, "vpcs", DecodeInfoElement<Vpc>);
      var subnets :- DecodeList(f, "subnets", DecodeInfoElement<Subnet>);
      var routes :- DecodeList(f, "routes", DecodeRoute);
      Success(RoutingTable(id, name, defaultTable, distributed, gatewayId, gatewayName, tenantId, state,
                           createTime, vpcs, subnets, routes))
    case _ => Failure(TypeMismatch("RoutingTable"))
  }

  // ---------------------------------------------------------------------------
  // Extraction
  // ---------------------------------------------------------------------------

  /** A finished request: the decoded JSON body, or the error the request ended with. */
  datatype Response = Response(body: Json, err: Option<string>)

  datatype ExtractError =
    | RequestFailed(message: string)
    | ExtractResponseFailed(cause: JsonError)
    | UnmarshalFailed(cause: JsonError)

  /** Strict decoding into `struct { RoutingTable *RoutingTable }`: `null` or a missing key is a nil table. */
  function DecodeEnvelope(body: Json): (r: Result<Option<RoutingTable>, JsonError>)
    ensures r.Success? <==>
      body.JNull? ||
      (body.JObject? && ("routingtable" !in body.fields || body.fields["routingtable"].JNull? ||
        (body.fields["routingtable"].JObject? && DecodeTable(body.fields["routingtable"]).Success?)))
    ensures r.Success? && r.value.Some? ==>
      body.JObject? && "routingtable" in body.fields && DecodeTable(body.fields["routingtable"]) == Success(r.value.value)
  {
    match body
    case JNull => Success(None)
    case JObject(f) =>
      if "routingtable" !in f || f["routingtable"].JNull? then Success(None)
      else if f["routingtable"].JObject? then
        var table :- DecodeTable(f["routingtable"]);
        Success(Some(table))
      else Failure(TypeMismatch("routingtable"))
    case _ => Failure(TypeMismatch("response"))
  }

  /**
   * Decoding into `struct { RoutingTable json.RawMessage }`: the raw value
   * under `routingtable`, or nothing when the key is missing (an empty raw
   * message, which no decoder accepts).
   */
  function RawRoutingTable(body: Json): (r: Result<Option<Json>, JsonError>)
    ensures r.Success? <==> body.JNull? || body.JObject?
    ensures r.Success? && r.value.Some? <==> body.JObject? && "routingtable" in body.fields
    ensures r.Success? && r.value.Some? ==> r.value.value == body.fields["routingtable"]
  {
    match body
    case JNull => Success(None)
    case JObject(f) => Success(if "routingtable" in f then Some(f["routingtable"]) else None)
    case _ => Failure(TypeMismatch("response"))
  }

  /** `ExtractRoutingTableWithFallback`. */
  function ExtractWithFallback(response: Response): (r: Result<Option<RoutingTable>, ExtractError>)
    ensures response.err.Some? ==> r == Failure(RequestFailed(response.err.value))
    ensures r.Success? ==> r.value.Some?
  {
    if response.err.Some? then Failure(RequestFailed(response.err.value))
    else match RawRoutingTable(response.body)
      case Failure(e) => Failure(ExtractResponseFailed(e))
      case Success(None) => Failure(UnmarshalFailed(UnexpectedEnd))
      case Success(Some(raw)) =>
        (match DecodeTable(raw)
         case Success(table) => Success(Some(table))
         case Failure(e) =>
           if raw.JObject? then Success(Some(FromMap(raw.fields)))
           else Failure(UnmarshalFailed(e)))
  }

  /** `Extract`: the strict result when strict decoding succeeds, otherwise the fallback's. */
  function Extract(response: Response): (r: Result<Option<RoutingTable>, ExtractError>)
    ensures response.err.Some? ==> r == Failure(RequestFailed(response.err.value))
    ensures response.err.None? && DecodeEnvelope(response.body).Success? ==>
      r == Success(DecodeEnvelope(response.body).value)
    ensures response.err.None? && DecodeEnvelope(response.body).Failure? ==> r == ExtractWithFallback(response)
  {
    if response.err.Some? then Failure(RequestFailed(response.err.value))
    else match DecodeEnvelope(response.body)
      case Success(table) => Success(table)
      case Failure(_) => ExtractWithFallback(response)
  }

  // ---------------------------------------------------------------------------
  // Encoding, as `json.Marshal` writes the structs
  // ---------------------------------------------------------------------------

  /** The JSON value `MarshalJSON` writes for a timestamp. */
  function EncodeTime(t: Time): Json {
    if IsZero(t) then JNull else JString(Format(t))
  }

  function EncodeAll<T>(items: seq<T>, encode: T -> Json): (r: seq<Json>)
    ensures |r| == |items| && forall i :: 0 <= i < |items| ==> r[i] == encode(items[i])
  {
    if items == [] then [] else [encode(items[0])] + EncodeAll(items[1..], encode)
  }

  /** The route fields written always. */
  function RouteFields(r: Route): map<string, Json> {
    map[
      "id" := JString(r.id),
      "cidr" := JString(r.cidr),
      "mask" := JNumber(r.mask),
      "gateway" := JString(r.gateway),
      "description" := (if r.description.Some? then JString(r.description.value) else JNull),
      "routingtable_id" := JString(r.routingTableId),
      "tenant_id" := JString(r.tenantId)]
  }

  /** The route fields tagged `omitempty`. */
  function OptionalRouteFields(r: Route): map<string, Json> {
    (if r.gatewayId != "" then map["gateway_id" := JString(r.gatewayId)] else map[])
      + (if r.hidden then map["hidden" := JBool(true)] else map[])
  }

  /** `json.Marshal` of a route. */
  function EncodeRoute(r: Route): Json {
    JObject(RouteFields(r) + OptionalRouteFields(r))
  }

  /** The fields written for every routing table. */
  function ScalarFields(t: RoutingTable): map<string, Json> {
    map[
      "id" := JString(t.id),
      "name" := JString(t.name),
      "default_table" := JBool(t.defaultTable),
      "distributed" := JBool(t.distributed),
      "gateway_id" := JString(t.gatewayId),
      "gateway_name" := JString(t.gatewayName),
      "tenant_id" := JString(t.tenantId),
      "state" := JString(t.state),
      "create_time" := EncodeTime(t.createTime)]
  }

  /** A list field tagged `omitempty`: written only when it has elements. */
  function ListEntry(key: string, items: seq<Json>): map<string, Json> {
    if items != [] then map[key := JArray(items)] else map[]
  }

  /** The three lists, each under `omitempty`. */
  function ListFields(t: RoutingTable): map<string, Json> {
    ListEntry("vpcs", EncodeAll(t.vpcs, EncodeInfo))
      + ListEntry("subnets", EncodeAll(t.subnets, EncodeInfo))
      + ListEntry("routes", EncodeAll(t.routes, EncodeRoute))
  }

  /** `json.Marshal` of a routing table. */
  function EncodeTable(t: RoutingTable): Json {
    JObject(ListFields(t) + ScalarFields(t))
  }
}
