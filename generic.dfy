/**
 The generic request operation: the URL join, the body check for write
 methods, the parsing of a string response body, and the `simplify` cap that
 keeps the first ten entries of every array and object.
 */
module GenericRequest {
  import opened JsValues

  // ---------------------------------------------------------------- URL join

  /** ASCII lower-casing, the only case folding the `i` flag applies to these letters. */
  function LowerAscii(c: char): char {
    if 'A' <= c <= 'Z' then (c as int - 'A' as int + 'a' as int) as char else c
  }

  /** `s` starts with `prefix`, ignoring ASCII case (`prefix` is lower-case). */
  predicate StartsWithCI(s: string, prefix: string) {
    |prefix| <= |s| && forall i :: 0 <= i < |prefix| ==> LowerAscii(s[i]) == prefix[i]
  }

  /** `/^https?:\/\//i.test(url)` */
  predicate IsAbsoluteUrl(url: string) {
    StartsWithCI(url, "http://") || StartsWithCI(url, "https://")
  }

  /** One leading `/` removed, if there is one. */
  function DropLeadingSlash(s: string): (r: string)
    ensures |s| > 0 && s[0] == '/' ==> s == "/" + r
    ensures !(|s| > 0 && s[0] == '/') ==> s == r
  {
    if |s| > 0 && s[0] == '/' then s[1..] else s
  }

  /**
   The request URL: an absolute `http(s)://` input is used verbatim; any other
   input is appended to the tenant base with exactly one `/` in between,
   whether or not the input brought its own leading slash.
   */
  function JoinUrl(baseUrl: string, input: string): (r: string)
    ensures IsAbsoluteUrl(input) ==> r == input
    ensures !IsAbsoluteUrl(input) ==> r == baseUrl + "/" + DropLeadingSlash(input)
  {
    if IsAbsoluteUrl(input) then input
    else baseUrl + (if |input| > 0 && input[0] == '/' then "" else "/") + input
  }

  /** `targets/` is joined to the base with one `/` inserted. */
  lemma JoinUrlRelativeExample()
    ensures JoinUrl("https://acme.legacy-use.com/api", "targets/") == "https://acme.legacy-use.com/api/targets/"
  {
  }

  /** An absolute URL, in any letter case, ignores the tenant base. */
  lemma JoinUrlAbsoluteExample()
    ensures JoinUrl("https://acme.legacy-use.com/api", "HTTPS://other.example/x") == "HTTPS://other.example/x"
  {
  }

  // ---------------------------------------------------------------- request body

  /** The methods for which a JSON body is sent. */
  predicate IsWriteMethod(verb: string) {
    verb in ["POST", "PUT", "PATCH", "DELETE"]
  }

  /** The white space and line terminators that `String.prototype.trim` removes. */
  predicate IsJsWhitespace(c: char) {
    || c == '\t' || c == '\n' || c == '\U{000B}' || c == '\U{000C}' || c == '\r' || c == ' '
    || c == '\U{00A0}' || c == '\U{1680}' || ('\U{2000}' <= c <= '\U{200A}')
    || c == '\U{2028}' || c == '\U{2029}' || c == '\U{202F}' || c == '\U{205F}' || c == '\U{3000}' || c == '\U{FEFF}'
  }

  /** `!(s && s.trim())`: empty, or nothing but white space. */
  predicate Blank(s: string) {
    forall i :: 0 <= i < |s| ==> IsJsWhitespace(s[i])
  }

  const InvalidBodyMessage: string := "Body (JSON) must be valid JSON. For example: {\"key\":\"value\"}"

  /**
   The body sent with the request: none for a method that is not a write
   method or for a blank body text, the parsed value otherwise, and the
   validation error when a non-blank body text of a write method does not parse.
   */
  function RequestBody(verb: string, bodyJson: string, parse: string -> Option<Js>): (r: Result<Option<Js>, string>)
    ensures r.Err? <==> IsWriteMethod(verb) && !Blank(bodyJson) && parse(bodyJson).None?
    ensures r.Err? ==> r.error == InvalidBodyMessage
    ensures r.Ok? && r.value.Some? <==> IsWriteMethod(verb) && !Blank(bodyJson) && parse(bodyJson).Some?
    ensures r.Ok? && r.value.Some? ==> r.value.value == parse(bodyJson).value
  {
    if IsWriteMethod(verb) && !Blank(bodyJson) then
      match parse(bodyJson)
      case Some(v) => Ok(Some(v))
      case None => Err(InvalidBodyMessage)
    else Ok(None)
  }

  /** A method other than POST, PUT, PATCH and DELETE never looks at the body text. */
  lemma ReadOnlyMethodIgnoresBody(verb: string, bodyJson: string, parse: string -> Option<Js>)
    requires !IsWriteMethod(verb)
    ensures RequestBody(verb, bodyJson, parse) == Ok(None)
  {
  }

  // ---------------------------------------------------------------- response body

  /**
   With the `json` format a string body is replaced by what it parses to, and
   kept as it is when it does not parse. Every other body, and every body
   with another format, passes through.
   */
  function ParseResponseBody(format: string, body: Js, parse: string -> Option<Js>): (r: Js)
    ensures format != "json" || !body.Str? ==> r == body
    ensures format == "json" && body.Str? && parse(body.s).None? ==> r == body
    ensures format == "json" && body.Str? && parse(body.s).Some? ==> r == parse(body.s).value
  {
    if format == "json" && body.Str? then
      match parse(body.s)
      case Some(v) => v
      case None => body
    else body
  }

  const SimplifyCap: nat := 10

  function Min(a: nat, b: nat): nat {
    if a < b then a else b
  }

  /** The message of the `TypeError` `Object.entries` throws on `null` and `undefined`. */
  const NullToObjectMessage: string := "Cannot convert undefined or null to object"

  /** A field value that `simplifyObject` recurses into: `typeof v === 'object' && v !== null`. */
  predicate IsNested(v: Js) {
    v.Arr? || v.Obj?
  }

  /** The key `Object.entries` gives the `i`-th character of a string (`i` below ten). */
  function IndexKey(i: nat): string
    requires i < 10
  {
    [('0' as int + i) as char]
  }

  /**
   `simplifyObject`: an array keeps its first ten elements, each of them
   simplified (so a number or boolean element becomes `{}` and a string
   element an object of its first ten characters keyed by index); an object
   keeps its first ten entries, simplifying the nested arrays and objects and
   keeping every other value. `null` or `undefined` as an array element makes
   `Object.entries` throw.
   */
  function Simplify(v: Js): (r: Result<Js, string>)
    decreases v
    ensures r.Err? ==> r.error == NullToObjectMessage
    ensures IsNullish(v) ==> r.Err?
    ensures r.Ok? ==> Simplified(r.value)
    ensures r.Ok? ==> (r.value.Arr? <==> v.Arr?)
    ensures r.Ok? && v.Arr? ==> |r.value.items| == Min(|v.items|, SimplifyCap)
    ensures r.Ok? && v.Obj? ==> r.value.Obj? && |r.value.fields| == Min(|v.fields|, SimplifyCap)
    ensures r.Ok? && v.Obj? ==> forall i :: 0 <= i < |r.value.fields| ==>
              r.value.fields[i].0 == v.fields[i].0 && (!IsNested(v.fields[i].1) ==> r.value.fields[i].1 == v.fields[i].1)
  {
    match v
    case Undefined => Err(NullToObjectMessage)
    case Null => Err(NullToObjectMessage)
    case Bool(_) => Ok(Obj([]))
    case Num(_) => Ok(Obj([]))
    case Str(s) =>
      var k := Min(|s|, SimplifyCap);
      Ok(Obj(seq(k, i requires 0 <= i < k => (IndexKey(i), Str([s[i]])))))
    case Arr(items) =>
      var k := Min(|items|, SimplifyCap);
      var rs := seq(k, i requires 0 <= i < k => Simplify(items[i]));
      if exists i :: 0 <= i < k && rs[i].Err? then Err(NullToObjectMessage)
      else Ok(Arr(seq(k, i requires 0 <= i < k => rs[i].value)))
    case Obj(fields) =>
      var k := Min(|fields|, SimplifyCap);
      var rs := seq(k, i requires 0 <= i < k =>
                      if IsNested(fields[i].1) then Simplify(fields[i].1) else Ok(fields[i].1));
      if exists i :: 0 <= i < k && rs[i].Err? then Err(NullToObjectMessage)
      else Ok(Obj(seq(k, i requires 0 <= i < k => (fields[i].0, rs[i].value))))
  }

  /**
   The shape `Simplify` produces, which it also leaves unchanged: an array of
   at most ten arrays/objects, or an object of at most ten entries whose
   nested values are again of this shape.
   */
  predicate Simplified(v: Js)
    decreases v
  {
    match v
    case Arr(items) =>
      |items| <= SimplifyCap && forall i :: 0 <= i < |items| ==> IsNested(items[i]) && Simplified(items[i])
    case Obj(fields) =>
      |fields| <= SimplifyCap && forall i :: 0 <= i < |fields| ==> IsNested(fields[i].1) ==> Simplified(fields[i].1)
    case _ => false
  }

  /** Every array and every object, at any depth, has at most ten entries. */
  predicate Capped(v: Js)
    decreases v
  {
    match v
    case Arr(items) => |items| <= SimplifyCap && forall i :: 0 <= i < |items| ==> Capped(items[i])
    case Obj(fields) => |fields| <= SimplifyCap && forall i :: 0 <= i < |fields| ==> Capped(fields[i].1)
    case _ => true
  }

  lemma {:induction false} SimplifiedIsCapped(v: Js)
    requires Simplified(v)
    ensures Capped(v)
    decreases v
  {
    match v
    case Arr(items) =>
      forall i | 0 <= i < |items| ensures Capped(items[i]) {
        SimplifiedIsCapped(items[i]);
      }
    case Obj(fields) =>
      forall i | 0 <= i < |fields| ensures Capped(fields[i].1) {
        if IsNested(fields[i].1) {
          SimplifiedIsCapped(fields[i].1);
        }
      }
  }

  /** A value already of the simplified shape is left exactly as it is. */
  lemma {:induction false} SimplifyFixpoint(v: Js)
    requires Simplified(v)
    ensures Simplify(v) == Ok(v)
    decreases v
  {
    match v
    case Arr(items) =>
      var k := Min(|items|, SimplifyCap);
      var rs := seq(k, i requires 0 <= i < k => Simplify(items[i]));
      forall i | 0 <= i < k ensures rs[i] == Ok(items[i]) {
        SimplifyFixpoint(items[i]);
      }
      assert seq(k, i requires 0 <= i < k => rs[i].value) == items;
    case Obj(fields) =>
      var k := Min(|fields|, SimplifyCap);
      var rs := seq(k, i requires 0 <= i < k =>
                      if IsNested(fields[i].1) then Simplify(fields[i].1) else Ok(fields[i].1));
      forall i | 0 <= i < k ensures rs[i] == Ok(fields[i].1) {
        if IsNested(fields[i].1) {
          SimplifyFixpoint(fields[i].1);
        }
      }
      assert seq(k, i requires 0 <= i < k => (fields[i].0, rs[i].value)) == fields;
  }

  /** Simplifying twice is simplifying once; the result is capped at every depth. */
  lemma SimplifyIdempotent(v: Js)
    requires Simplify(v).Ok?
    ensures Simplify(Simplify(v).value) == Simplify(v)
    ensures Capped(Simplify(v).value)
  {
    SimplifyFixpoint(Simplify(v).value);
    SimplifiedIsCapped(Simplify(v).value);
  }

  /**
   The values `simplifyObject` accepts: no `null` or `undefined` at the top
   or among the first ten elements of any array it reaches. Field values are
   exempt, since only nested field values are passed on.
   */
  ghost predicate NoNullishElement(v: Js)
    decreases v
  {
    match v
    case Undefined => false
    case Null => false
    case Arr(items) => forall i :: 0 <= i < Min(|items|, SimplifyCap) ==> NoNullishElement(items[i])
    case Obj(fields) =>
      forall i :: 0 <= i < Min(|fields|, SimplifyCap) ==> IsNested(fields[i].1) ==> NoNullishElement(fields[i].1)
    case _ => true
  }

  /** Simplification succeeds exactly on the values without a `null` or `undefined` element it would reach. */
  lemma {:induction false} SimplifyOkIff(v: Js)
    ensures Simplify(v).Ok? <==> NoNullishElement(v)
    decreases v
  {
    match v
    case Arr(items) =>
      var k := Min(|items|, SimplifyCap);
      var rs := seq(k, i requires 0 <= i < k => Simplify(items[i]));
      forall i | 0 <= i < k ensures rs[i].Ok? <==> NoNullishElement(items[i]) {
        SimplifyOkIff(items[i]);
      }
    case Obj(fields) =>
      var k := Min(|fields|, SimplifyCap);
      var rs := seq(k, i requires 0 <= i < k =>
                      if IsNested(fields[i].1) then Simplify(fields[i].1) else Ok(fields[i].1));
      forall i | 0 <= i < k ensures rs[i].Ok? <==> (IsNested(fields[i].1) ==> NoNullishElement(fields[i].1)) {
        if IsNested(fields[i].1) {
          SimplifyOkIff(fields[i].1);
        }
      }
    case _ =>
  }

  /**
   How a simplified value `r` stands to the value `v` it came from, at every
   depth: an array keeps its first ten elements, in order, each standing so
   to its source element; an object keeps its first ten keys, in order, with
   every non-nested value unchanged and every nested one standing so to its
   source; a number or boolean becomes `{}`, and a string the object of its
   first ten characters keyed by index.
   */
  ghost predicate KeysKept(v: Js, r: Js)
    decreases v
  {
    match v
    case Undefined => false
    case Null => false
    case Bool(_) => r == Obj([])
    case Num(_) => r == Obj([])
    case Str(s) =>
      && r.Obj? && |r.fields| == Min(|s|, SimplifyCap)
      && forall i :: 0 <= i < |r.fields| ==> r.fields[i] == (IndexKey(i), Str([s[i]]))
    case Arr(items) =>
      && r.Arr? && |r.items| == Min(|items|, SimplifyCap)
      && forall i :: 0 <= i < |r.items| ==> KeysKept(items[i], r.items[i])
    case Obj(fields) =>
      && r.Obj? && |r.fields| == Min(|fields|, SimplifyCap)
      && forall i :: 0 <= i < |r.fields| ==>
           && r.fields[i].0 == fields[i].0
           && (IsNested(fields[i].1) ==> KeysKept(fields[i].1, r.fields[i].1))
           && (!IsNested(fields[i].1) ==> r.fields[i].1 == fields[i].1)
  }

  /** `simplifyObject` keeps keys, order and primitive values at every depth. */
  lemma {:induction false} SimplifyKeepsKeys(v: Js)
    requires Simplify(v).Ok?
    ensures KeysKept(v, Simplify(v).value)
    decreases v
  {
    match v
    case Arr(items) =>
      var k := Min(|items|, SimplifyCap);
      var rs := seq(k, i requires 0 <= i < k => Simplify(items[i]));
      assert forall i :: 0 <= i < k ==> rs[i].Ok?;
      forall i | 0 <= i < k ensures KeysKept(items[i], rs[i].value) {
        assert rs[i] == Simplify(items[i]) && rs[i].Ok?;
        SimplifyKeepsKeys(items[i]);
      }
    case Obj(fields) =>
      var k := Min(|fields|, SimplifyCap);
      var rs := seq(k, i requires 0 <= i < k =>
                      if IsNested(fields[i].1) then Simplify(fields[i].1) else Ok(fields[i].1));
      assert forall i :: 0 <= i < k ==> rs[i].Ok?;
      forall i | 0 <= i < k && IsNested(fields[i].1) ensures KeysKept(fields[i].1, rs[i].value) {
        assert rs[i] == Simplify(fields[i].1) && rs[i].Ok?;
        SimplifyKeepsKeys(fields[i].1);
      }
    case _ =>
  }

  /**
   `{a: [1..20], b: "x"}` simplifies to `{a: [{} x 10], b: "x"}`: the number
   elements of an array are themselves passed to `simplifyObject`.
   */
  lemma SimplifyNumberArrayExample()
    ensures Simplify(Obj([("a", Arr(seq(20, i => Num(i + 1)))), ("b", Str("x"))]))
         == Ok(Obj([("a", Arr(seq(10, i => Obj([])))), ("b", Str("x"))]))
  {
    var items := seq(20, i => Num(i + 1));
    var rs := seq(10, i requires 0 <= i < 10 => Simplify(items[i]));
    assert forall i :: 0 <= i < 10 ==> rs[i] == Ok(Obj([]));
    assert seq(10, i requires 0 <= i < 10 => rs[i].value) == seq(10, i => Obj([]));
    assert Simplify(Arr(items)) == Ok(Arr(seq(10, i => Obj([]))));
    var fields := [("a", Arr(items)), ("b", Str("x"))];
    var frs := seq(2, i requires 0 <= i < 2 =>
                     if IsNested(fields[i].1) then Simplify(fields[i].1) else Ok(fields[i].1));
    assert frs[0] == Ok(Arr(seq(10, i => Obj([])))) && frs[1] == Ok(Str("x"));
    assert seq(2, i requires 0 <= i < 2 => (fields[i].0, frs[i].value)) == [("a", Arr(seq(10, i => Obj([])))), ("b", Str("x"))];
  }

  /** An array holding `null` among its first ten elements makes the cap throw. */
  lemma SimplifyNullElementExample()
    ensures Simplify(Arr([Num(1), Null])) == Err(NullToObjectMessage)
  {
    assert Simplify(Arr([Num(1), Null])).Err? by {
      var rs := seq(2, i requires 0 <= i < 2 => Simplify([Num(1), Null][i]));
      assert rs[1].Err?;
    }
  }

  /**
   The body of a generic response: parsed when the format is `json`, then
   capped when `simplify` is on and the body is a truthy object. Only a
   `json` body that is an array or object changes under `simplify`; a `text`
   body passes through as it came, and a capped body is at most ten entries
   wide at every depth.
   */
  function NormalizeBody(format: string, simplify: bool, body: Js, parse: string -> Option<Js>): (r: Result<Js, string>)
    ensures format != "json" ==> r == Ok(body)
    ensures var b := ParseResponseBody(format, body, parse);
            !(format == "json" && simplify && IsNested(b)) ==> r == Ok(b)
    ensures var b := ParseResponseBody(format, body, parse);
            format == "json" && simplify && IsNested(b) ==> r == Simplify(b)
    ensures var b := ParseResponseBody(format, body, parse);
            format == "json" && simplify && IsNested(b) && r.Ok? ==> Capped(r.value) && KeysKept(b, r.value)
    ensures r.Err? ==> format == "json" && simplify && IsNested(ParseResponseBody(format, body, parse)) && r.error == NullToObjectMessage
    ensures var b := ParseResponseBody(format, body, parse);
            format == "json" && simplify && IsNested(b) ==> (r.Err? <==> !NoNullishElement(b))
  {
    var b := ParseResponseBody(format, body, parse);
    if format == "json" && simplify && Truthy(b) && IsObjectType(b) then
      var s := Simplify(b);
      SimplifyOkIff(b);
      if s.Ok? then SimplifiedIsCapped(s.value); SimplifyKeepsKeys(b); s else s
    else Ok(b)
  }
}
