/**
 * JSON values as the decoder sees them once the text is parsed, the two ways Go
 * reads a field out of them (strict struct decoding and the comma-ok type
 * assertion on `map[string]interface{}`), the quoting of strings, and the
 * order-preserving filter that every lenient list parser is built from.
 */
module Json {
  import opened Wrappers

  /** The value kinds of section 3 of RFC 8259; numbers are integers here. */
  datatype Json =
    | JNull
    | JBool(b: bool)
    | JNumber(n: int)
    | JString(s: string)
    | JArray(items: seq<Json>)
    | JObject(fields: map<string, Json>)

  /** What strict decoding reports when a value does not fit its target. */
  datatype JsonError =
    | TypeMismatch(target: string)
    | InvalidTime(text: string)
    | UnexpectedEnd

  // ---------------------------------------------------------------------------
  // Strict decoding of one struct field (json.Unmarshal into a tagged field):
  // an absent key or a JSON null leaves the field as it was, a value of the
  // field's kind replaces it, any other value is a type error.
  // ---------------------------------------------------------------------------

  function DecodeString(current: string, fields: map<string, Json>, key: string): (r: Result<string, JsonError>)
    ensures r.Failure? <==> key in fields && !(fields[key].JString? || fields[key].JNull?)
    ensures r.Success? && (key !in fields || fields[key].JNull?) ==> r.value == current
    ensures key in fields && fields[key].JString? ==> r == Success(fields[key].s)
  {
    if key !in fields then Success(current)
    else match fields[key]
      case JString(s) => Success(s)
      case JNull => Success(current)
      case _ => Failure(TypeMismatch(key))
  }

  function DecodeBool(current: bool, fields: map<string, Json>, key: string): (r: Result<bool, JsonError>)
    ensures r.Failure? <==> key in fields && !(fields[key].JBool? || fields[key].JNull?)
    ensures r.Success? && (key !in fields || fields[key].JNull?) ==> r.value == current
    ensures key in fields && fields[key].JBool? ==> r == Success(fields[key].b)
  {
    if key !in fields then Success(current)
    else match fields[key]
      case JBool(b) => Success(b)
      case JNull => Success(current)
      case _ => Failure(TypeMismatch(key))
  }

  function DecodeInt(current: int, fields: map<string, Json>, key: string): (r: Result<int, JsonError>)
    ensures r.Failure? <==> key in fields && !(fields[key].JNumber? || fields[key].JNull?)
    ensures r.Success? && (key !in fields || fields[key].JNull?) ==> r.value == current
    ensures key in fields && fields[key].JNumber? ==> r == Success(fields[key].n)
  {
    if key !in fields then Success(current)
    else match fields[key]
      case JNumber(n) => Success(n)
      case JNull => Success(current)
      case _ => Failure(TypeMismatch(key))
  }

  /** A `*string` field: null resets the pointer to nil, a string allocates one. */
  function DecodeStringPointer(current: Option<string>, fields: map<string, Json>, key: string): (r: Result<Option<string>, JsonError>)
    ensures r.Failure? <==> key in fields && !(fields[key].JString? || fields[key].JNull?)
    ensures key !in fields ==> r == Success(current)
    ensures key in fields && fields[key].JNull? ==> r == Success(None)
    ensures key in fields && fields[key].JString? ==> r == Success(Some(fields[key].s))
  {
    if key !in fields then Success(current)
    else match fields[key]
      case JString(s) => Success(Some(s))
      case JNull => Success(None)
      case _ => Failure(TypeMismatch(key))
  }

  /** The entries a strict string field accepts: none, `null`, or a string. */
  predicate StringFits(fields: map<string, Json>, key: string) {
    key !in fields || fields[key].JNull? || fields[key].JString?
  }

  predicate BoolFits(fields: map<string, Json>, key: string) {
    key !in fields || fields[key].JNull? || fields[key].JBool?
  }

  predicate NumberFits(fields: map<string, Json>, key: string) {
    key !in fields || fields[key].JNull? || fields[key].JNumber?
  }

  // ---------------------------------------------------------------------------
  // The comma-ok assertion `data[key].(T)` on a generic map: it succeeds only
  // when the key is present and holds a value of that kind (a JSON null is a
  // nil interface and matches no kind).
  // ---------------------------------------------------------------------------

  function StringAt(fields: map<string, Json>, key: string): (r: Option<string>)
    ensures r.Some? <==> key in fields && fields[key].JString?
    ensures r.Some? ==> fields[key] == JString(r.value)
  {
    if key in fields && fields[key].JString? then Some(fields[key].s) else None
  }

  function BoolAt(fields: map<string, Json>, key: string): (r: Option<bool>)
    ensures r.Some? <==> key in fields && fields[key].JBool?
    ensures r.Some? ==> fields[key] == JBool(r.value)
  {
    if key in fields && fields[key].JBool? then Some(fields[key].b) else None
  }

  function NumberAt(fields: map<string, Json>, key: string): (r: Option<int>)
    ensures r.Some? <==> key in fields && fields[key].JNumber?
    ensures r.Some? ==> fields[key] == JNumber(r.value)
  {
    if key in fields && fields[key].JNumber? then Some(fields[key].n) else None
  }

  function ArrayAt(fields: map<string, Json>, key: string): (r: Option<seq<Json>>)
    ensures r.Some? <==> key in fields && fields[key].JArray?
    ensures r.Some? ==> fields[key] == JArray(r.value)
  {
    if key in fields && fields[key].JArray? then Some(fields[key].items) else None
  }

  // ---------------------------------------------------------------------------
  // Quoting. The client library hands a decoder the re-marshalled text of a
  // string value: the characters between the quotes are escaped with a
  // backslash wherever JSON requires it (and at U+2028, U+2029).
  // ---------------------------------------------------------------------------

  predicate NeedsEscape(c: char) {
    c == '"' || c == '\\' || c < ' ' || c as int == 0x2028 || c as int == 0x2029
  }

  function HexDigit(n: nat): char
    requires n < 16
  {
    if n < 10 then ('0' as int + n) as char else ('a' as int + n - 10) as char
  }

  function EscapeChar(c: char): (r: string)
    ensures NeedsEscape(c) ==> |r| >= 2 && r[0] == '\\'
    ensures !NeedsEscape(c) ==> r == [c]
  {
    if c == '"' || c == '\\' then ['\\', c]
    else if c == '\n' then ['\\', 'n']
    else if c == '\r' then ['\\', 'r']
    else if c == '\t' then ['\\', 't']
    else if NeedsEscape(c) then
      var n := c as int;
      ['\\', 'u', HexDigit(n / 4096 % 16), HexDigit(n / 256 % 16), HexDigit(n / 16 % 16), HexDigit(n % 16)]
    else [c]
  }

  function Escape(s: string): string {
    if s == [] then [] else EscapeChar(s[0]) + Escape(s[1..])
  }

  /** The text json.Marshal produces for the string `s`. */
  function Quote(s: string): string {
    "\"" + Escape(s) + "\""
  }

  lemma {:induction false} EscapePlain(s: string)
    requires forall i :: 0 <= i < |s| ==> !NeedsEscape(s[i])
    ensures Escape(s) == s
  {
    if s != [] {
      EscapePlain(s[1..]);
    }
  }

  // ---------------------------------------------------------------------------
  // Which texts between two quotes form a valid JSON string literal: no raw
  // quote or control character, and every backslash starts one of the escapes
  // of section 7 of RFC 8259.
  // ---------------------------------------------------------------------------

  predicate IsHex(c: char) {
    '0' <= c <= '9' || 'a' <= c <= 'f' || 'A' <= c <= 'F'
  }

  predicate ValidStringBody(s: string)
    decreases |s|
  {
    if s == [] then true
    else if s[0] == '"' || s[0] < ' ' then false
    else if s[0] == '\\' then
      if |s| >= 2 && s[1] in "\"\\/bfnrt" then ValidStringBody(s[2..])
      else if |s| >= 6 && s[1] == 'u' && IsHex(s[2]) && IsHex(s[3]) && IsHex(s[4]) && IsHex(s[5]) then ValidStringBody(s[6..])
      else false
    else ValidStringBody(s[1..])
  }

  lemma {:induction false} PlainIsValidBody(s: string)
    requires forall i :: 0 <= i < |s| ==> !NeedsEscape(s[i])
    ensures ValidStringBody(s)
  {
    if s != [] {
      PlainIsValidBody(s[1..]);
    }
  }

  // ---------------------------------------------------------------------------
  // The `append` loop of every lenient list parser: keep, in order, the image
  // of each element the conversion accepts, and drop the others.
  // ---------------------------------------------------------------------------

  function Keep<A, B>(x: A, convert: A -> Option<B>): seq<B> {
    if convert(x).Some? then [convert(x).value] else []
  }

  function FilterMap<A, B>(s: seq<A>, convert: A -> Option<B>): seq<B> {
    if s == [] then [] else Keep(s[0], convert) + FilterMap(s[1..], convert)
  }

  /** Filtering a concatenation filters each part: kept elements stay in order, without gaps. */
  lemma {:induction false} FilterMapConcat<A, B>(s: seq<A>, t: seq<A>, convert: A -> Option<B>)
    ensures FilterMap(s + t, convert) == FilterMap(s, convert) + FilterMap(t, convert)
  {
    if s == [] {
      assert s + t == t;
    } else {
      assert (s + t)[1..] == s[1..] + t;
      FilterMapConcat(s[1..], t, convert);
    }
  }

  /** One more element appends its image, or nothing if it is dropped. */
  lemma FilterMapSnoc<A, B>(s: seq<A>, x: A, convert: A -> Option<B>)
    ensures FilterMap(s + [x], convert) == FilterMap(s, convert) + Keep(x, convert)
  {
    FilterMapConcat(s, [x], convert);
    assert FilterMap([x], convert) == Keep(x, convert) + FilterMap([], convert);
  }

  lemma {:induction false} FilterMapLength<A, B>(s: seq<A>, convert: A -> Option<B>)
    ensures |FilterMap(s, convert)| <= |s|
    ensures |FilterMap(s, convert)| == |s| <==> forall i :: 0 <= i < |s| ==> convert(s[i]).Some?
  {
    if s != [] {
      FilterMapLength(s[1..], convert);
      assert forall i :: 1 <= i < |s| ==> s[1..][i - 1] == s[i];
    }
  }

  /** An element is in the result exactly when some input element converts to it. */
  lemma {:induction false} FilterMapMembers<A, B>(s: seq<A>, convert: A -> Option<B>, y: B)
    ensures y in FilterMap(s, convert) <==> exists i :: 0 <= i < |s| && convert(s[i]) == Some(y)
  {
    if s != [] {
      FilterMapMembers(s[1..], convert, y);
      if y in FilterMap(s[1..], convert) {
        var i :| 0 <= i < |s[1..]| && convert(s[1..][i]) == Some(y);
        assert convert(s[i + 1]) == Some(y);
      }
      if exists i :: 0 <= i < |s| && convert(s[i]) == Some(y) {
        var i :| 0 <= i < |s| && convert(s[i]) == Some(y);
        if i > 0 {
          assert convert(s[1..][i - 1]) == Some(y);
        }
      }
    }
  }
}
