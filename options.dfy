/**
 The option loaders that fill the property panel's drop-downs: the API names,
 the parameters of the chosen API, and the targets. Each maps the remote list
 to display name / value pairs; a missing list gives no options. The remote
 responses are inputs, typed as the loaders declare them; `None` stands for a
 `null` or `undefined` response (or a missing `parameters` list).
 */
module OptionLoaders {
  import opened JsValues

  /** One entry of a drop-down; `description` is `None` when it is `undefined`. */
  datatype PropertyOption = PropertyOption(name: string, value: string, description: Option<string>)

  /** The options a loader returns and the URLs it requested, in order. */
  datatype Loaded = Loaded(options: seq<PropertyOption>, requests: seq<string>)

  datatype ApiSummary = ApiSummary(name: string)

  /** A declared parameter as listed; an absent `description` or `default` reads as `""`. */
  datatype ParamSummary = ParamSummary(name: string, description: string, default: string)

  /** Target ids arrive as strings or numbers. */
  datatype TargetId = IdText(text: string) | IdNumber(number: int)

  datatype TargetSummary = TargetSummary(id: TargetId, name: string)

  /** `https://{subdomain}.legacy-use.com/api` */
  function BaseUrl(subdomain: string): string {
    "https://" + subdomain + ".legacy-use.com/api"
  }

  /** `getApis`: one option per API definition, its name serving as both label and value. */
  function GetApis(subdomain: string, res: Option<seq<ApiSummary>>): (r: Loaded)
    ensures r.requests == [BaseUrl(subdomain) + "/api/definitions"]
    ensures res.None? ==> r.options == []
    ensures res.Some? ==> |r.options| == |res.value| && forall i :: 0 <= i < |res.value| ==>
              r.options[i] == PropertyOption(res.value[i].name, res.value[i].name, None)
  {
    var apis := if res.Some? then res.value else [];
    Loaded(seq(|apis|, i requires 0 <= i < |apis| => PropertyOption(apis[i].name, apis[i].name, None)),
           [BaseUrl(subdomain) + "/api/definitions"])
  }

  /**
   The description of a parameter option: the description with
   ` (default: …)` appended when there is a default, `Default: …` when there
   is only a default, and none when there is neither.
   */
  function Describe(description: string, default: string): (r: Option<string>)
    ensures r.None? <==> description == "" && default == ""
    ensures description != "" ==> |description| <= |r.value| && r.value[..|description|] == description
    ensures description != "" && default == "" ==> r.value == description
    ensures default != "" ==> |default| < |r.value| && default <= r.value[|r.value| - |default| - (if description != "" then 1 else 0)..]
  {
    if description != "" then
      Some(description + (if default != "" then " (default: " + default + ")" else ""))
    else if default != "" then Some("Default: " + default)
    else None
  }

  /**
   `getApiParameters`: no API chosen gives no options and no request;
   otherwise the definition of that API is fetched (its name is put into the
   URL as it is, without escaping) and each declared parameter becomes an
   option named and valued by the parameter's name.
   */
  function GetApiParameters(subdomain: string, apiName: string, fetch: string -> Option<seq<ParamSummary>>): (r: Loaded)
    ensures apiName == "" ==> r == Loaded([], [])
    ensures apiName != "" ==> r.requests == [BaseUrl(subdomain) + "/api/definitions/" + apiName]
    ensures apiName != "" ==> var ps := fetch(r.requests[0]);
              && (ps.None? ==> r.options == [])
              && (ps.Some? ==> |r.options| == |ps.value| && forall i :: 0 <= i < |ps.value| ==>
                    r.options[i] == PropertyOption(ps.value[i].name, ps.value[i].name, Describe(ps.value[i].description, ps.value[i].default)))
  {
    if apiName == "" then Loaded([], [])
    else
      var url := BaseUrl(subdomain) + "/api/definitions/" + apiName;
      var ps := if fetch(url).Some? then fetch(url).value else [];
      Loaded(seq(|ps|, i requires 0 <= i < |ps| =>
                   PropertyOption(ps[i].name, ps[i].name, Describe(ps[i].description, ps[i].default))),
             [url])
  }

  // ---------------------------------------------------------------- String(id)

  function Digit(d: nat): char
    requires d < 10
  {
    ('0' as int + d) as char
  }

  predicate IsDigit(c: char) {
    '0' <= c <= '9'
  }

  /** The decimal numeral of a natural number, without leading zeros. */
  function NatToString(n: nat): (s: string)
    ensures |s| >= 1 && forall i :: 0 <= i < |s| ==> IsDigit(s[i])
    ensures |s| > 1 ==> s[0] != '0'
    ensures s[0] == '0' <==> n == 0
  {
    if n < 10 then [Digit(n)] else NatToString(n / 10) + [Digit(n % 10)]
  }

  /**
   A numeral as `String` writes an integer: an optional `-`, then at least
   one digit, with no leading `0` except in `0` itself, and no `-0`.
   */
  predicate Canonical(s: string) {
    var d := if |s| > 0 && s[0] == '-' then s[1..] else s;
    && |d| >= 1
    && (forall i :: 0 <= i < |d| ==> IsDigit(d[i]))
    && (d[0] == '0' ==> d == s && |s| == 1)
  }

  /** `String(n)` for an integer: its decimal numeral, with `-` for a negative one. */
  function IntToString(n: int): (s: string)
    ensures Canonical(s)
    ensures |s| >= 1 && (s[0] == '-' <==> n < 0)
  {
    if n < 0 then
      var s := "-" + NatToString(-n);
      assert s[1..] == NatToString(-n);
      s
    else NatToString(n)
  }

  function DigitValue(c: char): nat
    requires IsDigit(c)
  {
    c as int - '0' as int
  }

  /** The value of a string of decimal digits. */
  function DigitsValue(s: string): nat
    requires forall i :: 0 <= i < |s| ==> IsDigit(s[i])
  {
    if s == [] then 0 else DigitsValue(s[..|s| - 1]) * 10 + DigitValue(s[|s| - 1])
  }

  /** Reading a numeral back: an optional `-` followed by digits. */
  function ParseInt(s: string): Option<int> {
    if |s| > 1 && s[0] == '-' && forall i :: 1 <= i < |s| ==> IsDigit(s[i]) then Some(-(DigitsValue(s[1..]) as int))
    else if |s| > 0 && forall i :: 0 <= i < |s| ==> IsDigit(s[i]) then Some(DigitsValue(s))
    else None
  }

  lemma {:induction false} NatToStringRoundTrip(n: nat)
    ensures DigitsValue(NatToString(n)) == n
  {
    if n >= 10 {
      NatToStringRoundTrip(n / 10);
      var s := NatToString(n);
      assert s[..|s| - 1] == NatToString(n / 10);
    }
  }

  /** The numeral `String(id)` produces reads back as the same number. */
  lemma IntToStringRoundTrip(n: int)
    ensures ParseInt(IntToString(n)) == Some(n)
  {
    if n < 0 {
      NegativeRoundTrip(n);
    } else {
      NatToStringRoundTrip(n);
      assert NatToString(n)[0] != '-';
    }
  }

  lemma NegativeRoundTrip(n: int)
    requires n < 0
    ensures ParseInt("-" + NatToString(-n)) == Some(n)
  {
    var d := NatToString(-n);
    NatToStringRoundTrip(-n);
    var s := "-" + d;
    assert s[1..] == d;
  }

  /** A string of digits that does not start with `0` stands for a positive number. */
  lemma {:induction false} LeadingDigitPositive(s: string)
    requires |s| >= 1 && forall i :: 0 <= i < |s| ==> IsDigit(s[i])
    requires s[0] != '0'
    ensures DigitsValue(s) > 0
    decreases |s|
  {
    if |s| > 1 {
      LeadingDigitPositive(s[..|s| - 1]);
    }
  }

  /** Two digit strings without leading zeros that have the same value are equal. */
  lemma {:induction false} DigitsInjective(s: string, t: string)
    requires |s| >= 1 && forall i :: 0 <= i < |s| ==> IsDigit(s[i])
    requires |t| >= 1 && forall i :: 0 <= i < |t| ==> IsDigit(t[i])
    requires |s| > 1 ==> s[0] != '0'
    requires |t| > 1 ==> t[0] != '0'
    requires DigitsValue(s) == DigitsValue(t)
    ensures s == t
    decreases |s|
  {
    var s', t' := s[..|s| - 1], t[..|t| - 1];
    assert DigitsValue(s) % 10 == DigitValue(s[|s| - 1]) && DigitsValue(s) / 10 == DigitsValue(s');
    assert DigitsValue(t) % 10 == DigitValue(t[|t| - 1]) && DigitsValue(t) / 10 == DigitsValue(t');
    if |s| > 1 && |t| > 1 {
      DigitsInjective(s', t');
      assert s == s' + [s[|s| - 1]] && t == t' + [t[|t| - 1]];
    } else if |s| > 1 {
      LeadingDigitPositive(s');
    } else if |t| > 1 {
      LeadingDigitPositive(t');
    }
  }

  /** A canonical numeral is the only one that reads back as its value. */
  lemma CanonicalUnique(s: string, t: string)
    requires Canonical(s) && Canonical(t)
    requires ParseInt(s) == ParseInt(t)
    ensures s == t
  {
    var ds := if s[0] == '-' then s[1..] else s;
    var dt := if t[0] == '-' then t[1..] else t;
    assert ParseInt(s) == Some(if s[0] == '-' then -(DigitsValue(ds) as int) else DigitsValue(ds));
    assert ParseInt(t) == Some(if t[0] == '-' then -(DigitsValue(dt) as int) else DigitsValue(dt));
    if s[0] == '-' && t[0] != '-' {
      LeadingDigitPositive(ds);
    } else if t[0] == '-' && s[0] != '-' {
      LeadingDigitPositive(dt);
    }
    DigitsInjective(ds, dt);
    assert s == (if s[0] == '-' then "-" + ds else ds);
    assert t == (if t[0] == '-' then "-" + dt else dt);
  }

  /** `String(t.id)` */
  function IdString(id: TargetId): string {
    match id
    case IdText(t) => t
    case IdNumber(n) => IntToString(n)
  }

  /** `getTargets`: one option per target, labelled by its name and valued by its id as a string. */
  function GetTargets(subdomain: string, res: Option<seq<TargetSummary>>): (r: Loaded)
    ensures r.requests == [BaseUrl(subdomain) + "/targets/"]
    ensures res.None? ==> r.options == []
    ensures res.Some? ==> |r.options| == |res.value| && forall i :: 0 <= i < |res.value| ==>
              && r.options[i].name == res.value[i].name
              && r.options[i].description == None
              && (res.value[i].id.IdText? ==> r.options[i].value == res.value[i].id.text)
              && (res.value[i].id.IdNumber? ==> Canonical(r.options[i].value) && ParseInt(r.options[i].value) == Some(res.value[i].id.number))
  {
    var ts := if res.Some? then res.value else [];
    var options := seq(|ts|, i requires 0 <= i < |ts| => PropertyOption(ts[i].name, IdString(ts[i].id), None));
    assert forall i :: 0 <= i < |ts| && ts[i].id.IdNumber? ==> ParseInt(options[i].value) == Some(ts[i].id.number) by {
      forall i | 0 <= i < |ts| && ts[i].id.IdNumber? ensures ParseInt(options[i].value) == Some(ts[i].id.number) {
        IntToStringRoundTrip(ts[i].id.number);
      }
    }
    Loaded(options, [BaseUrl(subdomain) + "/targets/"])
  }
}
