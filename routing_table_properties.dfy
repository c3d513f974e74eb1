/**
 * What the routing-table decoder promises: the projections keep positions or
 * filter in order, the fallback ignores every entry it cannot use, `Extract`
 * fails only on responses no path can read, and a routing table written the
 * way `json.Marshal` writes it is read back unchanged by the strict path, by
 * the fallback and by `Extract`.
 */
module RoutingTableProperties {
  import opened Wrappers
  import opened Json
  import opened Timestamps
  import opened TimestampProperties
  import opened FlexibleRefs
  import opened RoutingTables

  // ---------------------------------------------------------------------------
  // Projections
  // ---------------------------------------------------------------------------

  /** A name is listed exactly when some reference carries it and it is not empty. */
  lemma NonEmptyNamesMembers<Kind>(infos: seq<FlexibleInfo<Kind>>, n: string)
    ensures n in NonEmptyNames(infos) <==> n != "" && exists i :: 0 <= i < |infos| && infos[i].name == n
  {
    FilterMapMembers(infos, NameOf, n);
    if n in NonEmptyNames(infos) {
      var i :| 0 <= i < |infos| && NameOf(infos[i]) == Some(n);
      assert infos[i].name == n;
    }
    if n != "" && exists i :: 0 <= i < |infos| && infos[i].name == n {
      var i :| 0 <= i < |infos| && infos[i].name == n;
      assert NameOf(infos[i]) == Some(n);
    }
  }

  /** Names of a concatenation are the names of each part, in order. */
  lemma NonEmptyNamesConcat<Kind>(a: seq<FlexibleInfo<Kind>>, b: seq<FlexibleInfo<Kind>>)
    ensures NonEmptyNames(a + b) == NonEmptyNames(a) + NonEmptyNames(b)
  {
    FilterMapConcat(a, b, NameOf);
  }

  /** No name is lost exactly when every reference has one. */
  lemma NonEmptyNamesComplete<Kind>(infos: seq<FlexibleInfo<Kind>>)
    ensures |NonEmptyNames(infos)| == |infos| <==> forall i :: 0 <= i < |infos| ==> infos[i].name != ""
  {
    FilterMapLength(infos, NameOf);
  }

  // ---------------------------------------------------------------------------
  // Lenient list readers
  // ---------------------------------------------------------------------------

  /**
   * A reference list: nothing unless the value is an array; then one
   * reference per string or object element, in order, the rest dropped.
   */
  lemma FlexibleListShape<Kind>(value: Json)
    ensures !value.JArray? ==> FlexibleList<Kind>(value) == []
    ensures value.JArray? ==> |FlexibleList<Kind>(value)| <= |value.items|
    ensures value.JArray? ==>
      (|FlexibleList<Kind>(value)| == |value.items| <==>
        forall i :: 0 <= i < |value.items| ==> value.items[i].JString? || value.items[i].JObject?)
  {
    if value.JArray? {
      FilterMapLength(value.items, InfoFromElement<Kind>);
    }
  }

  /** Elements are read one at a time: the list of a concatenation is the concatenation of the lists. */
  lemma FlexibleListConcat<Kind>(a: seq<Json>, b: seq<Json>)
    ensures FlexibleList<Kind>(JArray(a + b)) == FlexibleList<Kind>(JArray(a)) + FlexibleList<Kind>(JArray(b))
  {
    FilterMapConcat(a, b, InfoFromElement<Kind>);
  }

  /** Routes: one per object element, in order; other elements are dropped. */
  lemma RoutesShape(items: seq<Json>)
    ensures |FilterMap(items, RouteFromElement)| <= |items|
    ensures |FilterMap(items, RouteFromElement)| == |items| <==> forall i :: 0 <= i < |items| ==> items[i].JObject?
    ensures forall a, b :: items == a + b ==>
      FilterMap(items, RouteFromElement) == FilterMap(a, RouteFromElement) + FilterMap(b, RouteFromElement)
  {
    FilterMapLength(items, RouteFromElement);
    forall a, b | items == a + b
      ensures FilterMap(items, RouteFromElement) == FilterMap(a, RouteFromElement) + FilterMap(b, RouteFromElement)
    {
      FilterMapConcat(a, b, RouteFromElement);
    }
  }

  /** A scalar the fallback reads: a string or boolean under its own key. */
  predicate ScalarReads(key: string, value: Json) {
    (key in ["id", "name", "gateway_id", "gateway_name", "tenant_id", "state"] && value.JString?) ||
    (key in ["default_table", "distributed"] && value.JBool?)
  }

  /** A list the fallback reads: an array under `vpcs`, `subnets` or `routes`. */
  predicate ListReads(key: string, value: Json) {
    key in ["vpcs", "subnets", "routes"] && value.JArray?
  }

  /** Which JSON kind each key the routing-table fallback reads must have. */
  predicate ReadsAs(key: string, value: Json) {
    ScalarReads(key, value) || (key == "create_time" && value.JString?) || ListReads(key, value)
  }

  /** Which JSON kind each key of a route object must have. */
  predicate RouteReadsAs(key: string, value: Json) {
    if key in ["id", "cidr", "gateway", "gateway_id", "description", "routingtable_id", "tenant_id"] then value.JString?
    else if key == "mask" then value.JNumber?
    else if key == "hidden" then value.JBool?
    else false
  }

  /** A route field of the wrong kind (or an unknown key) is the same as a missing one. */
  lemma RouteIgnoresMistyped(m: map<string, Json>, key: string)
    requires key in m && !RouteReadsAs(key, m[key])
    ensures RouteFromElement(JObject(m)) == RouteFromElement(JObject(m - {key}))
  {
    var n := m - {key};
    assert StringAt(m, "id") == StringAt(n, "id");
    assert StringAt(m, "cidr") == StringAt(n, "cidr");
    assert NumberAt(m, "mask") == NumberAt(n, "mask");
    assert StringAt(m, "gateway") == StringAt(n, "gateway");
    assert StringAt(m, "gateway_id") == StringAt(n, "gateway_id");
    assert StringAt(m, "description") == StringAt(n, "description");
    assert StringAt(m, "routingtable_id") == StringAt(n, "routingtable_id");
    assert StringAt(m, "tenant_id") == StringAt(n, "tenant_id");
    assert BoolAt(m, "hidden") == BoolAt(n, "hidden");
  }

  /** A reference object's `id` or `name` of the wrong kind (or any other key) is the same as a missing one. */
  lemma ReferenceIgnoresMistyped<Kind>(m: map<string, Json>, key: string)
    requires key in m && !((key == "id" || key == "name") && m[key].JString?)
    ensures InfoFromElement<Kind>(JObject(m)) == InfoFromElement<Kind>(JObject(m - {key}))
  {
    var n := m - {key};
    assert StringAt(m, "id") == StringAt(n, "id");
    assert StringAt(m, "name") == StringAt(n, "name");
  }

  // ---------------------------------------------------------------------------
  // The field-by-field fallback
  // ---------------------------------------------------------------------------

  /** An empty map gives the zero routing table. */
  lemma FromEmptyMap()
    ensures FromMap(map[]) == EmptyTable
  {
  }

  /**
   * An entry the fallback cannot use, because its key is unknown or its value
   * has the wrong kind, changes nothing: the field keeps its zero value.
   */
  lemma FromMapIgnoresMistyped(data: map<string, Json>, key: string)
    requires key in data && !ReadsAs(key, data[key])
    ensures FromMap(data) == FromMap(data - {key})
  {
    ScalarsIgnore(data, key);
    ListsIgnore(data, key);
    CreateTimeIgnores(data, key);
    FromMapOfReadings(data, data - {key});
  }

  lemma CreateTimeIgnores(data: map<string, Json>, key: string)
    requires key in data && !ReadsAs(key, data[key])
    ensures LooseCreateTime(data) == LooseCreateTime(data - {key})
  {
    assert StringAt(data, "create_time") == StringAt(data - {key}, "create_time");
  }

  /** What the fallback reads from a map, field by field, agrees between `a` and `b`. */
  predicate ScalarReadingsAgree(a: map<string, Json>, b: map<string, Json>) {
    StringAt(a, "id") == StringAt(b, "id") && StringAt(a, "name") == StringAt(b, "name") &&
    BoolAt(a, "default_table") == BoolAt(b, "default_table") &&
    BoolAt(a, "distributed") == BoolAt(b, "distributed") &&
    StringAt(a, "gateway_id") == StringAt(b, "gateway_id") &&
    StringAt(a, "gateway_name") == StringAt(b, "gateway_name") &&
    StringAt(a, "tenant_id") == StringAt(b, "tenant_id") && StringAt(a, "state") == StringAt(b, "state")
  }

  predicate ListReadingsAgree(a: map<string, Json>, b: map<string, Json>) {
    LooseReferences<Vpc>(a, "vpcs") == LooseReferences<Vpc>(b, "vpcs") &&
    LooseReferences<Subnet>(a, "subnets") == LooseReferences<Subnet>(b, "subnets") &&
    LooseRoutes(a) == LooseRoutes(b)
  }

  lemma FromMapOfReadings(a: map<string, Json>, b: map<string, Json>)
    requires ScalarReadingsAgree(a, b) && ListReadingsAgree(a, b) && LooseCreateTime(a) == LooseCreateTime(b)
    ensures FromMap(a) == FromMap(b)
  {
  }

  lemma ScalarsIgnore(data: map<string, Json>, key: string)
    requires key in data && !ScalarReads(key, data[key])
    ensures ScalarReadingsAgree(data, data - {key})
  {
  }

  lemma ListsIgnore(data: map<string, Json>, key: string)
    requires key in data && !ListReads(key, data[key])
    ensures ListReadingsAgree(data, data - {key})
  {
  }

  /** A `create_time` string that no layout parses leaves the creation time unset. */
  lemma FromMapIgnoresBadTime(data: map<string, Json>)
    requires "create_time" in data && data["create_time"].JString?
    requires var s := data["create_time"].s;
      !ValidStringBody(s) || UnmarshalTime("\"" + s + "\"", Zero).Failure?
    ensures FromMap(data) == FromMap(data - {"create_time"})
    ensures FromMap(data).createTime == Zero
  {
    ScalarsIgnore(data, "create_time");
    ListsIgnore(data, "create_time");
    FromMapOfReadings(data, data - {"create_time"});
  }

  // ---------------------------------------------------------------------------
  // Strict decoding of a routing-table object
  // ---------------------------------------------------------------------------

  /** `create_time` is absent, `null`, or a string some layout parses. */
  predicate TimeFits(f: map<string, Json>) {
    "create_time" !in f || f["create_time"].JNull? ||
    (f["create_time"].JString? && UnmarshalTime(Quote(f["create_time"].s), Zero).Success?)
  }

  /** A slice field is absent, `null`, or an array whose every element decodes. */
  predicate ElementsFit<T>(f: map<string, Json>, key: string, decode: Json -> Result<T, JsonError>) {
    key !in f || f[key].JNull? ||
    (f[key].JArray? && forall i :: 0 <= i < |f[key].items| ==> decode(f[key].items[i]).Success?)
  }

  /** Every field of a routing-table object holds an entry its strict decoder accepts. */
  predicate TableFits(f: map<string, Json>) {
    ScalarsFit(f) && TimeFits(f) &&
    ElementsFit(f, "vpcs", DecodeInfoElement<Vpc>) && ElementsFit(f, "subnets", DecodeInfoElement<Subnet>) &&
    ElementsFit(f, "routes", DecodeRoute)
  }

  predicate ScalarsFit(f: map<string, Json>) {
    StringFits(f, "id") && StringFits(f, "name") && BoolFits(f, "default_table") && BoolFits(f, "distributed") &&
    StringFits(f, "gateway_id") && StringFits(f, "gateway_name") && StringFits(f, "tenant_id") && StringFits(f, "state")
  }

  lemma StrictTableSteps(f: map<string, Json>)
    ensures DecodeTable(JObject(f)).Success? <==>
      ScalarsFit(f) && DecodeTimeField(Zero, f, "create_time").Success? &&
      DecodeList(f, "vpcs", DecodeInfoElement<Vpc>).Success? &&
      DecodeList(f, "subnets", DecodeInfoElement<Subnet>).Success? &&
      DecodeList(f, "routes", DecodeRoute).Success?
  {
  }

  lemma ListFits<T>(f: map<string, Json>, key: string, decode: Json -> Result<T, JsonError>)
    ensures DecodeList(f, key, decode).Success? <==> ElementsFit(f, key, decode)
  {
  }

  lemma TimeFieldFits(f: map<string, Json>)
    ensures DecodeTimeField(Zero, f, "create_time").Success? <==> TimeFits(f)
  {
  }

  /**
   * The strict decode of an object succeeds exactly when every known field
   * fits its Go type; a single field of the wrong kind (a number for `name`,
   * a list with one element that does not decode) fails it, and that failure
   * is what sends `Extract` to the fallback.
   */
  lemma StrictTableAccepts(f: map<string, Json>)
    ensures DecodeTable(JObject(f)).Success? <==> TableFits(f)
  {
    StrictTableSteps(f);
    TimeFieldFits(f);
    ListFits(f, "vpcs", DecodeInfoElement<Vpc>);
    ListFits(f, "subnets", DecodeInfoElement<Subnet>);
    ListFits(f, "routes", DecodeRoute);
  }

  /** A decoded slice: empty unless the entry is an array, otherwise each element's decoding in order. */
  predicate DecodedFrom<T(==)>(f: map<string, Json>, key: string, items: seq<T>, decode: Json -> Result<T, JsonError>) {
    if ArrayAt(f, key).Some? then
      |items| == |f[key].items| && forall i :: 0 <= i < |items| ==> decode(f[key].items[i]) == Success(items[i])
    else items == []
  }

  lemma DecodedList<T>(f: map<string, Json>, key: string, decode: Json -> Result<T, JsonError>)
    requires DecodeList(f, key, decode).Success?
    ensures DecodedFrom(f, key, DecodeList(f, key, decode).value, decode)
  {
  }

  /**
   * What a successful strict decode holds: every scalar field as the fallback
   * would read it, the creation time the layouts give for a string (zero
   * otherwise), and each list element by element.
   */
  lemma StrictTableValues(f: map<string, Json>, t: RoutingTable)
    requires DecodeTable(JObject(f)) == Success(t)
    ensures var loose := FromMap(f);
      t.id == loose.id && t.name == loose.name && t.defaultTable == loose.defaultTable &&
      t.distributed == loose.distributed && t.gatewayId == loose.gatewayId &&
      t.gatewayName == loose.gatewayName && t.tenantId == loose.tenantId && t.state == loose.state
    ensures StringAt(f, "create_time").Some? ==>
      UnmarshalTime(Quote(StringAt(f, "create_time").value), Zero) == Success(t.createTime)
    ensures StringAt(f, "create_time").None? ==> t.createTime == Zero
    ensures DecodedFrom(f, "vpcs", t.vpcs, DecodeInfoElement<Vpc>) &&
      DecodedFrom(f, "subnets", t.subnets, DecodeInfoElement<Subnet>) &&
      DecodedFrom(f, "routes", t.routes, DecodeRoute)
  {
    StrictTableParts(f, t);
    ScalarsAsLoose(f, t);
    TimeOfPart(f, t.createTime);
    DecodedList(f, "vpcs", DecodeInfoElement<Vpc>);
    DecodedList(f, "subnets", DecodeInfoElement<Subnet>);
    DecodedList(f, "routes", DecodeRoute);
  }

  lemma ScalarsAsLoose(f: map<string, Json>, t: RoutingTable)
    requires Success(t.id) == DecodeString("", f, "id") && Success(t.name) == DecodeString("", f, "name")
    requires Success(t.defaultTable) == DecodeBool(false, f, "default_table")
    requires Success(t.distributed) == DecodeBool(false, f, "distributed")
    requires Success(t.gatewayId) == DecodeString("", f, "gateway_id")
    requires Success(t.gatewayName) == DecodeString("", f, "gateway_name")
    requires Success(t.tenantId) == DecodeString("", f, "tenant_id") && Success(t.state) == DecodeString("", f, "state")
    ensures var loose := FromMap(f);
      t.id == loose.id && t.name == loose.name && t.defaultTable == loose.defaultTable &&
      t.distributed == loose.distributed && t.gatewayId == loose.gatewayId &&
      t.gatewayName == loose.gatewayName && t.tenantId == loose.tenantId && t.state == loose.state
  {
  }

  lemma TimeOfPart(f: map<string, Json>, t: Time)
    requires Success(t) == DecodeTimeField(Zero, f, "create_time")
    ensures StringAt(f, "create_time").Some? ==>
      UnmarshalTime(Quote(StringAt(f, "create_time").value), Zero) == Success(t)
    ensures StringAt(f, "create_time").None? ==> t == Zero
  {
  }

  /** A successful strict decode is made of its field decoders' results. */
  lemma StrictTableParts(f: map<string, Json>, t: RoutingTable)
    requires DecodeTable(JObject(f)) == Success(t)
    ensures Success(t.id) == DecodeString("", f, "id") && Success(t.name) == DecodeString("", f, "name") &&
      Success(t.defaultTable) == DecodeBool(false, f, "default_table") &&
      Success(t.distributed) == DecodeBool(false, f, "distributed") &&
      Success(t.gatewayId) == DecodeString("", f, "gateway_id") &&
      Success(t.gatewayName) == DecodeString("", f, "gateway_name") &&
      Success(t.tenantId) == DecodeString("", f, "tenant_id") && Success(t.state) == DecodeString("", f, "state") &&
      Success(t.createTime) == DecodeTimeField(Zero, f, "create_time") &&
      Success(t.vpcs) == DecodeList(f, "vpcs", DecodeInfoElement<Vpc>) &&
      Success(t.subnets) == DecodeList(f, "subnets", DecodeInfoElement<Subnet>) &&
      Success(t.routes) == DecodeList(f, "routes", DecodeRoute)
  {
  }

  // ---------------------------------------------------------------------------
  // Extraction
  // ---------------------------------------------------------------------------

  /** The value under `routingtable` when the body is an object that has one. */
  predicate HasTable(body: Json) {
    body.JObject? && "routingtable" in body.fields
  }

  /**
   * `Extract` fails exactly when the request failed, the body is neither an
   * object nor `null`, or `routingtable` holds something other than an
   * object or `null`: every object is read, strictly or by the fallback.
   */
  lemma ExtractFailsExactly(response: Response)
    ensures Extract(response).Failure? <==>
      response.err.Some? ||
      !(response.body.JNull? || response.body.JObject?) ||
      (HasTable(response.body) &&
        !(response.body.fields["routingtable"].JNull? || response.body.fields["routingtable"].JObject?))
  {
    if response.err.None? && HasTable(response.body) {
      var value := response.body.fields["routingtable"];
      if value.JObject? && DecodeTable(value).Failure? {
        assert ExtractWithFallback(response) == Success(Some(FromMap(value.fields)));
      }
    }
  }

  /**
   * What `Extract` returns for a routing-table object: the strict decoding
   * when it succeeds, and the field-by-field reading when it does not.
   */
  lemma ExtractReadsObjects(response: Response)
    requires response.err.None? && HasTable(response.body) && response.body.fields["routingtable"].JObject?
    ensures var value := response.body.fields["routingtable"];
      Extract(response) ==
        Success(Some(if DecodeTable(value).Success? then DecodeTable(value).value else FromMap(value.fields)))
  {
  }

  /** `ExtractRoutingTableWithFallback` on its own reads an object table the same way. */
  lemma FallbackReadsObjects(response: Response)
    requires response.err.None? && HasTable(response.body) && response.body.fields["routingtable"].JObject?
    ensures var value := response.body.fields["routingtable"];
      ExtractWithFallback(response) ==
        Success(Some(if DecodeTable(value).Success? then DecodeTable(value).value else FromMap(value.fields)))
  {
  }

  /** A table whose `name` is a number and whose one route is `null`. */
  const NumberName: map<string, Json> := map["name" := JNumber(5), "routes" := JArray([JNull])]

  /** Strict decoding refuses a number under `name`. */
  lemma StrictRejectsNumberName()
    ensures DecodeTable(JObject(NumberName)).Failure?
  {
    assert !StringFits(NumberName, "name");
    StrictTableAccepts(NumberName);
  }

  /**
   * So `Extract` falls back, and the fallback drops the `null` route that
   * strict decoding would have kept as a zero route.
   */
  lemma MistypedNameFallsBack()
    ensures Extract(Response(JObject(map["routingtable" := JObject(NumberName)]), None)) == Success(Some(EmptyTable))
  {
    var response := Response(JObject(map["routingtable" := JObject(NumberName)]), None);
    StrictRejectsNumberName();
    NumberNameReadsEmpty();
    ExtractReadsObjects(response);
  }

  lemma NumberNameReadsEmpty()
    ensures FromMap(NumberName) == EmptyTable
  {
    FromMapIgnoresMistyped(NumberName, "name");
    NullRoutesDropped(NumberName - {"name"});
  }

  lemma NullRoutesDropped(f: map<string, Json>)
    requires f == map["routes" := JArray([JNull])]
    ensures FromMap(f) == EmptyTable
  {
    assert FilterMap([JNull], RouteFromElement) == [];
  }

  /** No table (a nil pointer, no error) when the body is `null` or has no `routingtable`, or it is `null`. */
  lemma ExtractNil(response: Response)
    requires response.err.None?
    requires response.body.JNull? ||
      (response.body.JObject? && (!HasTable(response.body) || response.body.fields["routingtable"].JNull?))
    ensures Extract(response) == Success(None)
  {
  }

  /**
   * The fallback on its own fails exactly when the request failed, the body
   * is not an object, there is no `routingtable`, or it is neither an object
   * nor `null`.
   */
  lemma FallbackFailsExactly(response: Response)
    ensures ExtractWithFallback(response).Failure? <==>
      response.err.Some? || !response.body.JObject? || !HasTable(response.body) ||
      !(response.body.fields["routingtable"].JNull? || response.body.fields["routingtable"].JObject?)
  {
  }

  /** On `routingtable: null` the fallback, unlike `Extract`, gives a zero table rather than none. */
  lemma FallbackOnNullTable(body: map<string, Json>)
    requires "routingtable" in body && body["routingtable"].JNull?
    ensures ExtractWithFallback(Response(JObject(body), None)) == Success(Some(EmptyTable))
    ensures Extract(Response(JObject(body), None)) == Success(None)
  {
  }

  // ---------------------------------------------------------------------------
  // Round trips through the encoder
  // ---------------------------------------------------------------------------

  /** The times the encoder writes without loss: the zero time and whole-second UTC times in years 0 to 9999. */
  predicate RepresentableTime(t: Time) {
    t == Zero || (ValidClock(t) && t.offset == 0 && t.nanos == 0 && 0 <= t.year <= 9999)
  }

  predicate Plain(s: string) {
    forall i :: 0 <= i < |s| ==> !NeedsEscape(s[i])
  }

  lemma PlainConcat(a: string, b: string)
    requires Plain(a) && Plain(b)
    ensures Plain(a + b)
  {
    forall i | 0 <= i < |a + b|
      ensures !NeedsEscape((a + b)[i])
    {
      if i >= |a| {
        assert (a + b)[i] == b[i - |a|];
      }
    }
  }

  lemma PadPlain(n: nat, width: nat)
    ensures Plain(Pad(n, width))
  {
    PadDigits(n, width);
  }

  /** `Format` writes only digits, `-`, `:` and a space, none of which `json.Marshal` escapes. */
  lemma FormatPlain(t: Time)
    ensures Plain(Format(t))
  {
    if t.year < 0 {
      PadPlain(-t.year, 4);
      PlainConcat("-", Pad(-t.year, 4));
    } else {
      PadPlain(t.year, 4);
    }
    PadPlain(t.month, 2);
    PadPlain(t.day, 2);
    PadPlain(t.hour, 2);
    PadPlain(t.minute, 2);
    PadPlain(t.second, 2);
    PlainConcat(":", Pad(t.second, 2));
    PlainConcat(Pad(t.minute, 2), ":" + Pad(t.second, 2));
    PlainConcat(":", Pad(t.minute, 2) + (":" + Pad(t.second, 2)));
    var clock := Pad(t.hour, 2) + (":" + (Pad(t.minute, 2) + (":" + Pad(t.second, 2))));
    PlainConcat(Pad(t.hour, 2), ":" + (Pad(t.minute, 2) + (":" + Pad(t.second, 2))));
    PlainConcat(" ", clock);
    PlainConcat(Pad(t.day, 2), " " + clock);
    PlainConcat("-", Pad(t.day, 2) + (" " + clock));
    PlainConcat(Pad(t.month, 2), "-" + (Pad(t.day, 2) + (" " + clock)));
    PlainConcat("-", Pad(t.month, 2) + ("-" + (Pad(t.day, 2) + (" " + clock))));
    PlainConcat(YearText(t.year), "-" + (Pad(t.month, 2) + ("-" + (Pad(t.day, 2) + (" " + clock)))));
  }

  /** The JSON value the encoder gives a time is the text `MarshalJSON` writes. */
  lemma EncodeTimeIsMarshal(t: Time)
    ensures MarshalTime(t) == if IsZero(t) then "null" else Quote(Format(t))
  {
    FormatPlain(t);
    EscapePlain(Format(t));
  }

  /** A representable time goes through the strict `create_time` field unchanged. */
  lemma StrictTimeRoundTrip(t: Time, fields: map<string, Json>)
    requires RepresentableTime(t)
    requires "create_time" in fields && fields["create_time"] == EncodeTime(t)
    ensures DecodeTimeField(Zero, fields, "create_time") == Success(t)
  {
    if t != Zero {
      ZeroIsUnique(t);
      EncodeTimeIsMarshal(t);
      MarshalThenUnmarshal(t, Zero);
      assert WholeSeconds(t) == t;
    }
  }

  /** A representable time goes through the fallback's `create_time` reading unchanged. */
  lemma LooseTimeRoundTrip(t: Time, data: map<string, Json>)
    requires RepresentableTime(t)
    requires "create_time" in data && data["create_time"] == EncodeTime(t)
    ensures LooseCreateTime(data) == t
  {
    if t != Zero {
      ZeroIsUnique(t);
      FormatPlain(t);
      PlainIsValidBody(Format(t));
      MarshalThenUnmarshal(t, Zero);
      assert WholeSeconds(t) == t;
    }
  }

  lemma {:induction false} DecodeAllEncodeAll<T>(items: seq<T>, encode: T -> Json, decode: Json -> Result<T, JsonError>)
    requires forall x :: decode(encode(x)) == Success(x)
    ensures DecodeAll(EncodeAll(items, encode), decode) == Success(items)
  {
    if items != [] {
      DecodeAllEncodeAll(items[1..], encode, decode);
      assert EncodeAll(items, encode)[1..] == EncodeAll(items[1..], encode);
      assert [items[0]] + items[1..] == items;
    }
  }

  lemma {:induction false} FilterMapEncodeAll<T>(items: seq<T>, encode: T -> Json, convert: Json -> Option<T>)
    requires forall x :: convert(encode(x)) == Some(x)
    ensures FilterMap(EncodeAll(items, encode), convert) == items
  {
    if items != [] {
      FilterMapEncodeAll(items[1..], encode, convert);
      assert EncodeAll(items, encode)[1..] == EncodeAll(items[1..], encode);
      assert [items[0]] + items[1..] == items;
    }
  }

  /** What an encoded route's fields say: each field under its key, the `omitempty` ones only when set. */
  predicate RouteEncodes(m: map<string, Json>, r: Route) {
    "id" in m && m["id"] == JString(r.id) && "cidr" in m && m["cidr"] == JString(r.cidr) &&
    "mask" in m && m["mask"] == JNumber(r.mask) && "gateway" in m && m["gateway"] == JString(r.gateway) &&
    "description" in m && m["description"] == (if r.description.Some? then JString(r.description.value) else JNull) &&
    "routingtable_id" in m && m["routingtable_id"] == JString(r.routingTableId) &&
    "tenant_id" in m && m["tenant_id"] == JString(r.tenantId) &&
    ("gateway_id" in m <==> r.gatewayId != "") && ("gateway_id" in m ==> m["gateway_id"] == JString(r.gatewayId)) &&
    ("hidden" in m <==> r.hidden) && ("hidden" in m ==> m["hidden"] == JBool(true))
  }

  lemma RouteFieldValues(r: Route)
    ensures var m := RouteFields(r);
      m.Keys == {"id", "cidr", "mask", "gateway", "description", "routingtable_id", "tenant_id"} &&
      m["id"] == JString(r.id) && m["cidr"] == JString(r.cidr) && m["mask"] == JNumber(r.mask) &&
      m["gateway"] == JString(r.gateway) &&
      m["description"] == (if r.description.Some? then JString(r.description.value) else JNull) &&
      m["routingtable_id"] == JString(r.routingTableId) && m["tenant_id"] == JString(r.tenantId)
  {
  }

  lemma OptionalRouteFieldValues(r: Route)
    ensures var m := OptionalRouteFields(r);
      m.Keys <= {"gateway_id", "hidden"} &&
      ("gateway_id" in m <==> r.gatewayId != "") && ("gateway_id" in m ==> m["gateway_id"] == JString(r.gatewayId)) &&
      ("hidden" in m <==> r.hidden) && ("hidden" in m ==> m["hidden"] == JBool(true))
  {
  }

  /** The encoder writes every route field under its key and the `omitempty` ones only when set. */
  lemma EncodedRouteFields(r: Route)
    ensures RouteEncodes(EncodeRoute(r).fields, r)
  {
    RouteFieldValues(r);
    OptionalRouteFieldValues(r);
  }

  lemma DecodeRouteOfFields(m: map<string, Json>, r: Route)
    requires RouteEncodes(m, r)
    ensures DecodeRoute(JObject(m)) == Success(r)
  {
  }

  lemma RouteFromFields(m: map<string, Json>, r: Route)
    requires RouteEncodes(m, r)
    ensures RouteFromElement(JObject(m)) == Some(r)
  {
  }

  lemma StrictRouteRoundTrip(r: Route)
    ensures DecodeRoute(EncodeRoute(r)) == Success(r)
  {
    EncodedRouteFields(r);
    DecodeRouteOfFields(EncodeRoute(r).fields, r);
  }

  lemma LooseRouteRoundTrip(r: Route)
    ensures RouteFromElement(EncodeRoute(r)) == Some(r)
  {
    EncodedRouteFields(r);
    RouteFromFields(EncodeRoute(r).fields, r);
  }

  lemma LooseReferenceRoundTrip<Kind>(info: FlexibleInfo<Kind>)
    ensures InfoFromElement<Kind>(EncodeInfo(info)) == Some(info)
  {
    if !(info.name == "" && info.id != "") {
      var m := EncodeInfo(info).fields;
      assert "id" in m <==> info.id != "";
      assert "name" in m <==> info.name != "";
    }
  }

  /** How the encoder lays out a list field: present, as an array of encoded items, only when not empty. */
  predicate ListField<T>(f: map<string, Json>, key: string, items: seq<T>, encode: T -> Json) {
    (key in f <==> items != []) && (key in f ==> f[key] == JArray(EncodeAll(items, encode)))
  }

  /** The scalar fields of an encoded routing table, each under its key. */
  predicate ScalarsEncode(f: map<string, Json>, t: RoutingTable) {
    "id" in f && f["id"] == JString(t.id) && "name" in f && f["name"] == JString(t.name) &&
    "default_table" in f && f["default_table"] == JBool(t.defaultTable) &&
    "distributed" in f && f["distributed"] == JBool(t.distributed) &&
    "gateway_id" in f && f["gateway_id"] == JString(t.gatewayId) &&
    "gateway_name" in f && f["gateway_name"] == JString(t.gatewayName) &&
    "tenant_id" in f && f["tenant_id"] == JString(t.tenantId) && "state" in f && f["state"] == JString(t.state) &&
    "create_time" in f && f["create_time"] == EncodeTime(t.createTime)
  }

  /** What an encoded routing table's fields say: the scalars, and each list laid out as `ListField`. */
  predicate Encodes(f: map<string, Json>, t: RoutingTable) {
    ScalarsEncode(f, t) &&
    ListField(f, "vpcs", t.vpcs, EncodeInfo) &&
    ListField(f, "subnets", t.subnets, EncodeInfo) &&
    ListField(f, "routes", t.routes, EncodeRoute)
  }

  lemma ScalarFieldValues(t: RoutingTable)
    ensures var f := ScalarFields(t);
      f.Keys == {"id", "name", "default_table", "distributed", "gateway_id", "gateway_name",
                 "tenant_id", "state", "create_time"} &&
      f["id"] == JString(t.id) && f["name"] == JString(t.name) &&
      f["default_table"] == JBool(t.defaultTable) && f["distributed"] == JBool(t.distributed) &&
      f["gateway_id"] == JString(t.gatewayId) && f["gateway_name"] == JString(t.gatewayName) &&
      f["tenant_id"] == JString(t.tenantId) && f["state"] == JString(t.state) &&
      f["create_time"] == EncodeTime(t.createTime)
  {
  }

  lemma ListEntryOwn<T>(key: string, items: seq<T>, encode: T -> Json)
    ensures ListEntry(key, EncodeAll(items, encode)).Keys <= {key}
    ensures ListField(ListEntry(key, EncodeAll(items, encode)), key, items, encode)
  {
  }

  lemma ListFieldBefore<T>(a: map<string, Json>, b: map<string, Json>, key: string, items: seq<T>, encode: T -> Json)
    requires key !in b && ListField(a, key, items, encode)
    ensures ListField(a + b, key, items, encode)
  {
  }

  lemma ListFieldAfter<T>(a: map<string, Json>, b: map<string, Json>, key: string, items: seq<T>, encode: T -> Json)
    requires key !in a && ListField(b, key, items, encode)
    ensures ListField(a + b, key, items, encode)
  {
  }

  lemma ListFieldsLayout(t: RoutingTable)
    ensures ListFields(t).Keys <= {"vpcs", "subnets", "routes"}
    ensures ListField(ListFields(t), "vpcs", t.vpcs, EncodeInfo)
    ensures ListField(ListFields(t), "subnets", t.subnets, EncodeInfo)
    ensures ListField(ListFields(t), "routes", t.routes, EncodeRoute)
  {
    var vpcs := ListEntry("vpcs", EncodeAll(t.vpcs, EncodeInfo));
    var subnets := ListEntry("subnets", EncodeAll(t.subnets, EncodeInfo));
    var routes := ListEntry("routes", EncodeAll(t.routes, EncodeRoute));
    ListEntryOwn("vpcs", t.vpcs, EncodeInfo);
    ListEntryOwn("subnets", t.subnets, EncodeInfo);
    ListEntryOwn("routes", t.routes, EncodeRoute);
    ListFieldBefore(vpcs, subnets, "vpcs", t.vpcs, EncodeInfo);
    ListFieldBefore(vpcs + subnets, routes, "vpcs", t.vpcs, EncodeInfo);
    ListFieldAfter(vpcs, subnets, "subnets", t.subnets, EncodeInfo);
    ListFieldBefore(vpcs + subnets, routes, "subnets", t.subnets, EncodeInfo);
    ListFieldAfter(vpcs + subnets, routes, "routes", t.routes, EncodeRoute);
  }

  lemma ScalarsOfEncoding(t: RoutingTable)
    ensures ScalarsEncode(EncodeTable(t).fields, t)
  {
    ScalarFieldValues(t);
  }

  lemma VpcsNotScalar(t: RoutingTable)
    ensures "vpcs" !in ScalarFields(t)
  {
  }

  lemma SubnetsNotScalar(t: RoutingTable)
    ensures "subnets" !in ScalarFields(t)
  {
  }

  lemma RoutesNotScalar(t: RoutingTable)
    ensures "routes" !in ScalarFields(t)
  {
  }

  lemma ListsOfEncoding(t: RoutingTable)
    ensures ListField(EncodeTable(t).fields, "vpcs", t.vpcs, EncodeInfo)
    ensures ListField(EncodeTable(t).fields, "subnets", t.subnets, EncodeInfo)
    ensures ListField(EncodeTable(t).fields, "routes", t.routes, EncodeRoute)
  {
    VpcsNotScalar(t);
    SubnetsNotScalar(t);
    RoutesNotScalar(t);
    ListFieldsLayout(t);
    ListFieldBefore(ListFields(t), ScalarFields(t), "vpcs", t.vpcs, EncodeInfo);
    ListFieldBefore(ListFields(t), ScalarFields(t), "subnets", t.subnets, EncodeInfo);
    ListFieldBefore(ListFields(t), ScalarFields(t), "routes", t.routes, EncodeRoute);
  }

  /** The encoder writes every scalar under its key and each list only when it is not empty. */
  lemma EncodedTableFields(t: RoutingTable)
    ensures Encodes(EncodeTable(t).fields, t)
  {
    ScalarsOfEncoding(t);
    ListsOfEncoding(t);
  }

  lemma StrictListRoundTrip<T>(f: map<string, Json>, key: string, items: seq<T>, encode: T -> Json, decode: Json -> Result<T, JsonError>)
    requires ListField(f, key, items, encode)
    requires forall x :: decode(encode(x)) == Success(x)
    ensures DecodeList(f, key, decode) == Success(items)
  {
    DecodeAllEncodeAll(items, encode, decode);
  }

  lemma LooseReferencesRoundTrip<Kind>(f: map<string, Json>, key: string, items: seq<FlexibleInfo<Kind>>)
    requires ListField(f, key, items, EncodeInfo)
    ensures LooseReferences<Kind>(f, key) == items
  {
    forall x: FlexibleInfo<Kind>
      ensures InfoFromElement<Kind>(EncodeInfo(x)) == Some(x)
    {
      LooseReferenceRoundTrip(x);
    }
    FilterMapEncodeAll(items, EncodeInfo, InfoFromElement<Kind>);
  }

  lemma LooseRoutesRoundTrip(f: map<string, Json>, items: seq<Route>)
    requires ListField(f, "routes", items, EncodeRoute)
    ensures LooseRoutes(f) == items
  {
    forall r: Route
      ensures RouteFromElement(EncodeRoute(r)) == Some(r)
    {
      LooseRouteRoundTrip(r);
    }
    FilterMapEncodeAll(items, EncodeRoute, RouteFromElement);
  }

  lemma StrictListsRoundTrip(f: map<string, Json>, t: RoutingTable)
    requires Encodes(f, t)
    ensures DecodeList(f, "vpcs", DecodeInfoElement<Vpc>) == Success(t.vpcs)
    ensures DecodeList(f, "subnets", DecodeInfoElement<Subnet>) == Success(t.subnets)
    ensures DecodeList(f, "routes", DecodeRoute) == Success(t.routes)
  {
    forall x: FlexibleVPCInfo
      ensures DecodeInfoElement<Vpc>(EncodeInfo(x)) == Success(x)
    {
      assert DecodeInfo(Empty<Vpc>(), EncodeInfo(x)) == (x, None);
    }
    forall x: FlexibleSubnetInfo
      ensures DecodeInfoElement<Subnet>(EncodeInfo(x)) == Success(x)
    {
      assert DecodeInfo(Empty<Subnet>(), EncodeInfo(x)) == (x, None);
    }
    forall r: Route
      ensures DecodeRoute(EncodeRoute(r)) == Success(r)
    {
      StrictRouteRoundTrip(r);
    }
    StrictListRoundTrip(f, "vpcs", t.vpcs, EncodeInfo, DecodeInfoElement<Vpc>);
    StrictListRoundTrip(f, "subnets", t.subnets, EncodeInfo, DecodeInfoElement<Subnet>);
    StrictListRoundTrip(f, "routes", t.routes, EncodeRoute, DecodeRoute);
  }

  /** Strict decoding of an object whose every field decodes to the matching field of `t`. */
  lemma DecodeTableOfFields(f: map<string, Json>, t: RoutingTable)
    requires DecodeString("", f, "id") == Success(t.id)
    requires DecodeString("", f, "name") == Success(t.name)
    requires DecodeBool(false, f, "default_table") == Success(t.defaultTable)
    requires DecodeBool(false, f, "distributed") == Success(t.distributed)
    requires DecodeString("", f, "gateway_id") == Success(t.gatewayId)
    requires DecodeString("", f, "gateway_name") == Success(t.gatewayName)
    requires DecodeString("", f, "tenant_id") == Success(t.tenantId)
    requires DecodeString("", f, "state") == Success(t.state)
    requires DecodeTimeField(Zero, f, "create_time") == Success(t.createTime)
    requires DecodeList(f, "vpcs", DecodeInfoElement<Vpc>) == Success(t.vpcs)
    requires DecodeList(f, "subnets", DecodeInfoElement<Subnet>) == Success(t.subnets)
    requires DecodeList(f, "routes", DecodeRoute) == Success(t.routes)
    ensures DecodeTable(JObject(f)) == Success(t)
  {
  }

  /** The fallback on a map whose every field reads as the matching field of `t`. */
  lemma FromMapOfFields(f: map<string, Json>, t: RoutingTable)
    requires StringAt(f, "id") == Some(t.id) && StringAt(f, "name") == Some(t.name)
    requires BoolAt(f, "default_table") == Some(t.defaultTable) && BoolAt(f, "distributed") == Some(t.distributed)
    requires StringAt(f, "gateway_id") == Some(t.gatewayId) && StringAt(f, "gateway_name") == Some(t.gatewayName)
    requires StringAt(f, "tenant_id") == Some(t.tenantId) && StringAt(f, "state") == Some(t.state)
    requires LooseCreateTime(f) == t.createTime
    requires LooseReferences<Vpc>(f, "vpcs") == t.vpcs
    requires LooseReferences<Subnet>(f, "subnets") == t.subnets
    requires LooseRoutes(f) == t.routes
    ensures FromMap(f) == t
  {
  }

  /** Strict decoding reads back any fields laid out the way the encoder writes them. */
  lemma StrictDecodesEncoded(f: map<string, Json>, t: RoutingTable)
    requires Encodes(f, t) && RepresentableTime(t.createTime)
    ensures DecodeTable(JObject(f)) == Success(t)
  {
    StrictTimeRoundTrip(t.createTime, f);
    StrictListsRoundTrip(f, t);
    DecodeTableOfFields(f, t);
  }

  /** So does the field-by-field fallback. */
  lemma LooseReadsEncoded(f: map<string, Json>, t: RoutingTable)
    requires Encodes(f, t) && RepresentableTime(t.createTime)
    ensures FromMap(f) == t
  {
    LooseTimeRoundTrip(t.createTime, f);
    LooseReferencesRoundTrip(f, "vpcs", t.vpcs);
    LooseReferencesRoundTrip(f, "subnets", t.subnets);
    LooseRoutesRoundTrip(f, t.routes);
    FromMapOfFields(f, t);
  }

  /** Strict decoding reads back what the encoder wrote. */
  lemma StrictRoundTrip(t: RoutingTable)
    requires RepresentableTime(t.createTime)
    ensures DecodeTable(EncodeTable(t)) == Success(t)
  {
    EncodedTableFields(t);
    StrictDecodesEncoded(EncodeTable(t).fields, t);
  }

  /** The field-by-field fallback reads back what the encoder wrote, too. */
  lemma LooseRoundTrip(t: RoutingTable)
    requires RepresentableTime(t.createTime)
    ensures FromMap(EncodeTable(t).fields) == t
  {
    EncodedTableFields(t);
    LooseReadsEncoded(EncodeTable(t).fields, t);
  }

  /** A body wrapping a routing-table object that strict decoding reads is extracted as that table. */
  lemma ExtractOfStrictTable(value: Json, t: RoutingTable)
    requires value.JObject? && DecodeTable(value) == Success(t)
    ensures Extract(Response(JObject(map["routingtable" := value]), None)) == Success(Some(t))
  {
  }

  /** A response wrapping an encoded routing table is extracted as that table. */
  lemma ExtractRoundTrip(t: RoutingTable)
    requires RepresentableTime(t.createTime)
    ensures Extract(Response(JObject(map["routingtable" := EncodeTable(t)]), None)) == Success(Some(t))
  {
    StrictRoundTrip(t);
    ExtractOfStrictTable(EncodeTable(t), t);
  }
}
