# Routing-table response decoding, modelled in Dafny

This project models the client-side decoding of NHN Cloud routing-table
responses in the Go package `openstack/networking/v2/extensions/layer3/routingtables`
(file `results.go`). The model has four parts:

- **Flexible references** (`FlexibleVPCInfo`, `FlexibleSubnetInfo`). The API sends a
  VPC or subnet either as a bare ID string or as an `{id, name}` object. Both Go
  types are one parametrised datatype, `FlexibleInfo<Kind>`
  (`flexible_refs.dfy`). Decoding overwrites a receiver object's fields in place,
  as a class does.
- **Timestamps** (`NHNCloudTime`). Decoding strips quotes and treats `null` or an
  empty string as unset. Otherwise it tries six layouts in order; the first that
  parses wins. Encoding writes `YYYY-MM-DD HH:MM:SS`, or `null` for the zero time
  (`timestamps.dfy`, with the properties in `timestamp_properties.dfy`).
  All six layouts are parsed concretely, including the quirks of Go's
  `time.Parse` that matter for them:
  - a one-or-two digit hour;
  - runs of spaces;
  - a year of four characters that must start with a digit, so a sign is refused;
  - a lenient fraction after the seconds.
- **Projections** on a `RoutingTable`: the ID list and the non-empty-name list of its
  VPCs and subnets.
- **Extraction**:
  - `Extract` first decodes strictly, the way `json.Unmarshal` does into the
    structs.
  - On failure it falls back to `ExtractRoutingTableWithFallback`. That reads the
    raw object field by field, keeps each field only when its JSON kind is the
    expected one, and filters the nested lists down to their well-formed
    elements, in order.
  - The strict decoder, the fallback and the encoder (`json.Marshal` of the
    structs) are in `routing_tables.dfy`; the properties are in
    `routing_table_properties.dfy`.

JSON is an abstract value (null, bool, number, string, array, object), in
`json.dfy`. Key for the Go decoding rules: an absent key or `null` keeps the
field's current value; a value of the wrong kind is an error. `wrappers.dfy` holds
`Option` and `Result`.

The Go loops become methods proved against specification functions:
- the layout loop of `NHNCloudTime.UnmarshalJSON`;
- the append loops of the name projections and of `parseFlexibleVPCs`,
  `parseFlexibleSubnets` and `parseRoutes`;
- the index-filling loop of the ID projections;
- the field-by-field assignments of `parseRoutingTableFromMap`.

The properties proved about those functions are the ones below.

All source paths below are relative to the repository root; `results.go` stands for
`openstack/networking/v2/extensions/layer3/routingtables/results.go`.

## Model

| member | source | states |
|---|---|---|
| FlexibleRefs.DecodeInfo | openstack/networking/v2/extensions/layer3/routingtables/results.go:27-40 | a bare string `s` gives `{id: s, name: ""}`; `null` gives the empty reference; an object fills `id`/`name` from its string fields and keeps the prior values of absent ones; decoding succeeds exactly for a string, `null` or an object whose `id`/`name` are strings or null; on any other kind it fails and leaves the receiver unchanged |
| FlexibleRefs.FlexibleInfoVar.UnmarshalJSON | openstack/networking/v2/extensions/layer3/routingtables/results.go:61-74 | the receiver's new fields and the returned error are exactly those of `DecodeInfo` applied to its old fields |
| FlexibleRefs.EncodeInfo | openstack/networking/v2/extensions/layer3/routingtables/results.go:43-52 | `MarshalJSON` gives a bare string exactly when the name is empty and the ID is not, otherwise an object carrying `id` exactly when the ID is set and `name` exactly when the name is set; decoding the result into a zero receiver gives every reference back, the empty one included |
| FlexibleRefs.RoundTrip | openstack/networking/v2/extensions/layer3/routingtables/results.go:77-86 | decoding the encoding of a reference with a non-empty ID gives that reference back, whatever the receiver held before, with no error |
| FlexibleRefs.NoIdKeepsPriorId | openstack/networking/v2/extensions/layer3/routingtables/results.go:43-52 | a reference with an empty ID is encoded without `id`, so decoding it into a used receiver keeps that receiver's old ID |
| FlexibleRefs.BareStringBack | openstack/networking/v2/extensions/layer3/routingtables/results.go:27-52 | a bare string decodes and re-encodes to the same bare string exactly when it is not empty |
| Timestamps.CloudTime.UnmarshalJSON | openstack/networking/v2/extensions/layer3/routingtables/results.go:95-125 | the layout loop ends in the state `UnmarshalTime` describes: on success the new time and no error, on failure the error naming the trimmed input and the last layout, with the time unchanged |
| Timestamps.UnmarshalTime | openstack/networking/v2/extensions/layer3/routingtables/results.go:95-125 | after trimming quotes, `null` or empty succeeds and keeps the current time; otherwise decoding fails exactly when none of the six layouts parses, with an error naming the trimmed text and the last layout, and a success is the reading of one of the layouts |
| TimestampProperties.DecodeOutcome | openstack/networking/v2/extensions/layer3/routingtables/results.go:97-124 | after trimming quotes, `null` or empty leaves the time unchanged; otherwise the result is the first layout that parses, or an error naming the trimmed input when none does |
| Timestamps.ParseFirstWins | openstack/networking/v2/extensions/layer3/routingtables/results.go:114-122 | the layout search returns `t` exactly when some layout parses to `t` and every earlier layout fails |
| Timestamps.ParseFirstFails | openstack/networking/v2/extensions/layer3/routingtables/results.go:114-124 | the layout search fails exactly when every layout fails |
| TimestampProperties.UnsetInputs | openstack/networking/v2/extensions/layer3/routingtables/results.go:97-102 | `null`, `"null"`, `""` and the empty text all decode successfully and leave the time as it was |
| TimestampProperties.ParsedIsValid | openstack/networking/v2/extensions/layer3/routingtables/results.go:105-116 | every time a layout accepts is a calendar time: valid month, day, hour, minute and second, a year from 0 to 9999, an offset within 25 hours, and a zero offset unless the layout carries a zone |
| TimestampProperties.FormatParsesWithLayoutOne | openstack/networking/v2/extensions/layer3/routingtables/results.go:106-116 | the `String`/`MarshalJSON` text of a valid time with year 0 to 9999 parses with the first layout back to that time without its fraction and offset |
| Timestamps.Format | openstack/networking/v2/extensions/layer3/routingtables/results.go:137-139 | `String`: a valid time with a year from 0 to 9999 is written as nineteen characters `YYYY-MM-DD HH:MM:SS`, digits everywhere but the separators |
| Timestamps.MarshalTime | openstack/networking/v2/extensions/layer3/routingtables/results.go:128-134 | `MarshalJSON` writes `null` exactly for the zero instant, and otherwise the format between one pair of quotes |
| TimestampProperties.SameInstantOtherText | openstack/networking/v2/extensions/layer3/routingtables/results.go:133-139 | the text is the wall clock of the parsed zone: moving the clock one hour ahead together with the offset keeps the instant and changes the text |
| TimestampProperties.MarshalThenUnmarshal | openstack/networking/v2/extensions/layer3/routingtables/results.go:128-134 | decoding what `MarshalJSON` writes leaves the time unchanged for the zero time and otherwise gives back the whole-second time |
| TimestampProperties.ZeroIsUnique | openstack/networking/v2/extensions/layer3/routingtables/results.go:129 | among valid UTC times, `IsZero` holds exactly for 0001-01-01 00:00:00 |
| RoutingTableProperties.FormatPlain | openstack/networking/v2/extensions/layer3/routingtables/results.go:133 | the formatted time has no character JSON must escape |
| RoutingTableProperties.EncodeTimeIsMarshal | openstack/networking/v2/extensions/layer3/routingtables/results.go:128-134 | the JSON text of a timestamp field is `null` for the zero time and otherwise the quoted format, with nothing escaped |
| RoutingTables.RoutingTable.GetSubnetIDs | openstack/networking/v2/extensions/layer3/routingtables/results.go:144-150 | one ID per subnet: same length, and position `i` holds subnet `i`'s ID |
| RoutingTables.RoutingTable.GetSubnetNames | openstack/networking/v2/extensions/layer3/routingtables/results.go:153-161 | the non-empty subnet names in order: never longer than the list, never containing `""` |
| RoutingTables.RoutingTable.GetVPCIDs | openstack/networking/v2/extensions/layer3/routingtables/results.go:166-172 | one ID per VPC: same length, and position `i` holds VPC `i`'s ID |
| RoutingTables.RoutingTable.GetVPCNames | openstack/networking/v2/extensions/layer3/routingtables/results.go:175-183 | the non-empty VPC names in order: never longer than the list, never containing `""` |
| RoutingTables.CollectIds | openstack/networking/v2/extensions/layer3/routingtables/results.go:144-150 | the preallocated slice filled by index holds every reference's ID at its position |
| RoutingTables.CollectNames | openstack/networking/v2/extensions/layer3/routingtables/results.go:153-161 | the append loop yields exactly the non-empty names in order, no more names than references and never `""` |
| RoutingTableProperties.NonEmptyNamesMembers | openstack/networking/v2/extensions/layer3/routingtables/results.go:175-183 | a string is among the names exactly when it is non-empty and the name of some reference |
| RoutingTableProperties.NonEmptyNamesConcat | openstack/networking/v2/extensions/layer3/routingtables/results.go:175-183 | the names of a concatenation are the names of the first list followed by those of the second (order is kept) |
| RoutingTableProperties.NonEmptyNamesComplete | openstack/networking/v2/extensions/layer3/routingtables/results.go:153-161 | the names list is as long as the references exactly when every reference has a name |
| RoutingTables.InfoFromElement | openstack/networking/v2/extensions/layer3/routingtables/results.go:471-485 | an element is kept exactly when it is a string or an object; a string `s` becomes `{id: s, name: ""}`, and an object gives the `id` and `name` entries that are strings, empty otherwise |
| RoutingTables.FlexibleList | openstack/networking/v2/extensions/layer3/routingtables/results.go:465-528 | `parseFlexibleVPCs`/`parseFlexibleSubnets`: a non-array gives the empty list, an array at most one reference per element, each the reading of some element |
| RoutingTables.ParseFlexibleList | openstack/networking/v2/extensions/layer3/routingtables/results.go:465-495 | the append loop of `parseFlexibleVPCs`/`parseFlexibleSubnets` yields the filtered list its specification function defines |
| RoutingTableProperties.FlexibleListShape | openstack/networking/v2/extensions/layer3/routingtables/results.go:498-528 | a non-array gives the empty list; an array gives at most as many references as it has elements, and exactly as many when every element is a string or an object |
| RoutingTableProperties.FlexibleListConcat | openstack/networking/v2/extensions/layer3/routingtables/results.go:498-528 | the kept references of a concatenation are those of each part, in order |
| RoutingTableProperties.ReferenceIgnoresMistyped | openstack/networking/v2/extensions/layer3/routingtables/results.go:477-483 | inside a reference object, a key other than a string `id` or `name` has no effect on the result |
| RoutingTables.RouteFromElement | openstack/networking/v2/extensions/layer3/routingtables/results.go:535-567 | a route element is kept exactly when it is an object; each field is copied when its entry has the expected kind and otherwise keeps its zero value |
| RoutingTables.TakeString | openstack/networking/v2/extensions/layer3/routingtables/results.go:538-540 | a string field is copied when present as a string and otherwise left empty |
| RoutingTables.TakeBool | openstack/networking/v2/extensions/layer3/routingtables/results.go:562-564 | a boolean field is copied when present as a boolean and otherwise left false |
| RoutingTables.ParseRoute | openstack/networking/v2/extensions/layer3/routingtables/results.go:535-567 | the field-by-field assignments build the route its specification function defines |
| RoutingTables.ParseRoutes | openstack/networking/v2/extensions/layer3/routingtables/results.go:531-571 | the append loop keeps the object elements, converted, in their original order |
| RoutingTableProperties.RoutesShape | openstack/networking/v2/extensions/layer3/routingtables/results.go:531-571 | no more routes than elements, exactly as many when every element is an object, and the routes of a concatenation are those of each part in order |
| RoutingTableProperties.RouteIgnoresMistyped | openstack/networking/v2/extensions/layer3/routingtables/results.go:536-566 | inside a route object, a key whose value does not have that field's expected kind has no effect on the route |
| RoutingTables.LooseTime | openstack/networking/v2/extensions/layer3/routingtables/results.go:439-444 | a non-zero result is what the timestamp decoder gives on the quoted string, and only a valid JSON string body can give one |
| RoutingTables.ParseCreateTime | openstack/networking/v2/extensions/layer3/routingtables/results.go:439-444 | the create time is read as its specification function defines |
| RoutingTables.ParseReferenceField | openstack/networking/v2/extensions/layer3/routingtables/results.go:447-454 | a `vpcs` or `subnets` entry is read through the flexible list reader whatever its kind |
| RoutingTables.ParseRouteField | openstack/networking/v2/extensions/layer3/routingtables/results.go:457-459 | `routes` is read only when it is an array |
| RoutingTables.FromMap | openstack/networking/v2/extensions/layer3/routingtables/results.go:409-462 | every field of the record that differs from its zero value was read from an entry of the expected kind: strings from strings, flags from booleans, the create time from a string and the lists from arrays |
| RoutingTables.ParseRoutingTableFromMap | openstack/networking/v2/extensions/layer3/routingtables/results.go:409-462 | the field-by-field assignments build the record its specification function defines; there is no error result |
| RoutingTableProperties.FromEmptyMap | openstack/networking/v2/extensions/layer3/routingtables/results.go:409-462 | an empty map gives the zero record |
| RoutingTableProperties.FromMapIgnoresMistyped | openstack/networking/v2/extensions/layer3/routingtables/results.go:413-459 | removing a key whose value does not have that field's expected kind leaves the record unchanged, so a mistyped field keeps its zero value |
| RoutingTableProperties.FromMapIgnoresBadTime | openstack/networking/v2/extensions/layer3/routingtables/results.go:439-444 | a `create_time` string that is not valid JSON text or that no layout parses leaves the create time unset, as if the key were absent |
| RoutingTables.DecodeAll | openstack/networking/v2/extensions/layer3/routingtables/results.go:215-221 | a list decodes exactly when every element does, position by position |
| RoutingTables.DecodeList | openstack/networking/v2/extensions/layer3/routingtables/results.go:215-221 | an absent or `null` slice decodes to the empty list, an array element by element, any other kind fails |
| RoutingTables.DecodeInfoElement | openstack/networking/v2/extensions/layer3/routingtables/results.go:27-40 | a list element decodes exactly when a reference decoder on a zero record reports no error, to that record |
| RoutingTables.DecodeRoute | openstack/networking/v2/extensions/layer3/routingtables/results.go:243-270 | a `null` route element is the zero route and a kind other than null or object fails; an object decodes exactly when every route field is absent, `null` or of its Go type, and then gives the route the lenient reader takes from it |
| RoutingTables.DecodeTimeField | openstack/networking/v2/extensions/layer3/routingtables/results.go:95-125 | an absent or `null` create time keeps the current value; a string decodes exactly when the timestamp decoder accepts its quoted text, to that time; any other kind fails |
| RoutingTables.DecodeTable | openstack/networking/v2/extensions/layer3/routingtables/results.go:186-222 | `null` gives the zero record and a kind other than null or object fails; for an object see `StrictTableAccepts` and `StrictTableValues` |
| RoutingTableProperties.StrictTableAccepts | openstack/networking/v2/extensions/layer3/routingtables/results.go:186-222 | strict decoding of an object succeeds exactly when every scalar field is absent, `null` or of its Go type, `create_time` is absent, `null` or a string some layout parses, and every list is absent, `null` or an array whose elements all decode |
| RoutingTableProperties.StrictTableValues | openstack/networking/v2/extensions/layer3/routingtables/results.go:186-222 | a successful strict decode holds each scalar field as the fallback reads it, the creation time the layouts give for a string and zero otherwise, and each list element by element |
| RoutingTableProperties.StrictRejectsNumberName | openstack/networking/v2/extensions/layer3/routingtables/results.go:191 | a number under `name` fails strict decoding |
| RoutingTableProperties.MistypedNameFallsBack | openstack/networking/v2/extensions/layer3/routingtables/results.go:358-406 | for a table with a number under `name` and one `null` route, `Extract` falls back and returns the zero record, with the `null` route dropped |
| RoutingTables.DecodeEnvelope | openstack/networking/v2/extensions/layer3/routingtables/results.go:364-368 | the strict envelope decode succeeds exactly for a null body or an object whose `routingtable` is absent, null or a strictly decodable object, and a table it returns is that object's decoding |
| RoutingTables.RawRoutingTable | openstack/networking/v2/extensions/layer3/routingtables/results.go:384-391 | the raw extraction succeeds exactly for a null or object body and returns the `routingtable` value exactly when that key is present |
| RoutingTables.ExtractWithFallback | openstack/networking/v2/extensions/layer3/routingtables/results.go:378-406 | a request error is returned unchanged, and success always carries a record |
| RoutingTables.Extract | openstack/networking/v2/extensions/layer3/routingtables/results.go:358-375 | a request error is returned unchanged; a successful strict decode is returned as is (nil for an absent table); otherwise the fallback's result |
| RoutingTableProperties.ExtractFailsExactly | openstack/networking/v2/extensions/layer3/routingtables/results.go:358-406 | `Extract` fails exactly when the request failed, the body is neither null nor an object, or the table value is neither null nor an object |
| RoutingTableProperties.ExtractReadsObjects | openstack/networking/v2/extensions/layer3/routingtables/results.go:358-406 | for an object table `Extract` returns the strict record when that decode succeeds and otherwise the field-by-field reading of the object |
| RoutingTableProperties.FallbackReadsObjects | openstack/networking/v2/extensions/layer3/routingtables/results.go:378-406 | for an object table `ExtractWithFallback` returns the strict record when that decode succeeds and otherwise the field-by-field reading of the object |
| RoutingTableProperties.ExtractNil | openstack/networking/v2/extensions/layer3/routingtables/results.go:365-374 | a null body, or a body with no or a null `routingtable`, gives a nil record without error |
| RoutingTableProperties.FallbackFailsExactly | openstack/networking/v2/extensions/layer3/routingtables/results.go:378-406 | the fallback fails exactly when the request failed, the body is not an object, the `routingtable` key is missing, or its value is neither null nor an object |
| RoutingTableProperties.FallbackOnNullTable | openstack/networking/v2/extensions/layer3/routingtables/results.go:358-406 | on a null table the fallback alone would give the zero record, while `Extract` gives a nil record |
| RoutingTableProperties.StrictTimeRoundTrip | openstack/networking/v2/extensions/layer3/routingtables/results.go:128-134 | a representable create time survives encoding and strict decoding |
| RoutingTableProperties.LooseTimeRoundTrip | openstack/networking/v2/extensions/layer3/routingtables/results.go:439-444 | a representable create time survives encoding and the fallback's reading |
| RoutingTableProperties.StrictRouteRoundTrip | openstack/networking/v2/extensions/layer3/routingtables/results.go:243-270 | every route survives encoding and strict decoding |
| RoutingTableProperties.LooseRouteRoundTrip | openstack/networking/v2/extensions/layer3/routingtables/results.go:531-571 | every route survives encoding and the fallback's route reader |
| RoutingTableProperties.LooseReferenceRoundTrip | openstack/networking/v2/extensions/layer3/routingtables/results.go:465-495 | every reference survives encoding and the fallback's reference reader |
| RoutingTableProperties.EncodedTableFields | openstack/networking/v2/extensions/layer3/routingtables/results.go:186-222 | the encoded record carries every scalar field under its JSON key and each non-empty list as an array of its encoded elements, with empty lists omitted |
| RoutingTableProperties.StrictRoundTrip | openstack/networking/v2/extensions/layer3/routingtables/results.go:186-222 | every record with a representable create time survives encoding and strict decoding |
| RoutingTableProperties.LooseRoundTrip | openstack/networking/v2/extensions/layer3/routingtables/results.go:409-462 | every record with a representable create time survives encoding and the field-by-field reading |
| RoutingTableProperties.ExtractRoundTrip | openstack/networking/v2/extensions/layer3/routingtables/results.go:358-375 | a response whose `routingtable` is an encoded record extracts to that record |

## Left out

- Pagination (`NextPageURL`, `IsEmpty`, `ExtractRoutingTables`, `ExtractRoutes`,
  `results.go:291-350`): it rests on the pager and link helpers of the client
  library, which are not part of this model.
- `RouteResult.Extract`, `ExtractRoute` and `GatewayResult.Extract` (`results.go:584-638`):
  plain `json.Unmarshal` calls. The strict route decoder covers their logic.
- `ExtractRoutingTable` (`results.go:574-576`) only calls
  `ExtractRoutingTableWithFallback`, so `ExtractWithFallback` is that operation.
- `requests.go`, `urls.go`, the `internetgateways` package and `openstack/errors.go`:
  HTTP plumbing, URL building and fixed error strings, outside the decoder.
- Byte-level JSON: the model works on decoded JSON values. Go's case-insensitive
  key matching, duplicate keys and the choice of which error `json.Unmarshal`
  reports first are not modelled. Only success or failure matters downstream,
  because `Extract` falls back on any error.
- Numbers are integers. The `float64` to `int` conversion of a route's `mask`
  (`results.go:544-545`) and fractional numbers are not modelled.
- The `[]string` branches of `parseFlexibleVPCs`/`parseFlexibleSubnets`
  (`results.go:487`, `:520`) cannot be taken after decoding into `interface{}`, so
  they are not modelled.
- Pointers and slices:
  - a nil slice and an empty slice are both the empty sequence;
  - a `*RoutingTable` is an `Option`;
  - `RoutingTable` and `Route` are values, not shared objects.
- Time zones are a fixed UTC offset in seconds; Go's `time.Location` names are not
  modelled.
- JSON escaping of a string writes `\"`, `\\`, `\n`, `\r` and `\t`. It writes `\u00XX`
  for the other control characters and `\u2028`/`\u2029` for the two line
  separators. Where it differs from Go's encoder:
  - backspace and form feed are written as `\u0008` and `\u000c`, not `\b` and `\f`;
  - `<`, `>` and `&` are never escaped.
  A formatted time contains none of these characters.
- Error texts are reduced to the input string and the last layout tried.
- RoutingTableProperties.StrictRoundTrip, LooseRoundTrip, ExtractRoundTrip,
  StrictTimeRoundTrip, LooseTimeRoundTrip: these hold for a create time that is
  zero or a whole-second UTC time with a year from 0 to 9999. The encoder keeps
  only the fields of the `2006-01-02 15:04:05` layout. A fraction, an offset or a
  wider year therefore cannot come back.
- FlexibleRefs.RoundTrip: requires a non-empty ID. A reference without an ID
  is encoded without an `id` key, so decoding it into a used receiver keeps
  the old ID (`NoIdKeepsPriorId`).
- ParseRoutingTableFromMap has no error result, because the Go function
  (`results.go:409-462`) never returns a non-nil error.
