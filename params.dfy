/**
 The parameter resolver of the job `start`/`run` operations: the user's
 parameter dictionary is checked against the parameter list the remote API
 definition declares; a declared parameter without a usable value adopts the
 declared default when there is one, and otherwise its name is recorded as
 missing. A value is usable when it is an own key whose value is neither
 `''` nor `undefined`.
 */
module ParameterResolver {
  import opened JsValues

  /** A declared parameter; `default` is `Undefined` when the definition gives none. */
  datatype ParamDecl = ParamDecl(name: string, default: Js)

  /** The `has` test of the default loop. */
  predicate Usable(m: map<string, Js>, k: string) {
    k in m && m[k] != Str("") && m[k] != Undefined
  }

  /** One iteration of the default loop on the dictionary. */
  function Step(m: map<string, Js>, p: ParamDecl): map<string, Js> {
    if Usable(m, p.name) then m
    else if p.default != Undefined then m[p.name := p.default]
    else m
  }

  /** The dictionary after the first `n` declarations have been visited. */
  function FillUpTo(m0: map<string, Js>, decls: seq<ParamDecl>, n: nat): map<string, Js>
    requires n <= |decls|
  {
    if n == 0 then m0 else Step(FillUpTo(m0, decls, n - 1), decls[n - 1])
  }

  /** The parameters submitted with the start request (when nothing is missing). */
  function Filled(m0: map<string, Js>, decls: seq<ParamDecl>): map<string, Js> {
    FillUpTo(m0, decls, |decls|)
  }

  /**
   The independent description of when `name` holds a usable value before
   declaration `i` is visited: the user supplied one, or an earlier
   declaration of the same name brought a usable default.
   */
  predicate FilledBefore(m0: map<string, Js>, decls: seq<ParamDecl>, i: nat, name: string)
    requires i <= |decls|
  {
    || Usable(m0, name)
    || exists j :: 0 <= j < i && decls[j].name == name && decls[j].default != Undefined && decls[j].default != Str("")
  }

  /** Declaration `i` is reported missing. */
  predicate MissingAt(m0: map<string, Js>, decls: seq<ParamDecl>, i: nat)
    requires i < |decls|
  {
    !FilledBefore(m0, decls, i, decls[i].name) && decls[i].default == Undefined
  }

  /** The names reported missing among the first `n` declarations, in declaration order. */
  function MissingUpTo(m0: map<string, Js>, decls: seq<ParamDecl>, n: nat): seq<string>
    requires n <= |decls|
  {
    if n == 0 then []
    else MissingUpTo(m0, decls, n - 1) + (if MissingAt(m0, decls, n - 1) then [decls[n - 1].name] else [])
  }

  function Missing(m0: map<string, Js>, decls: seq<ParamDecl>): seq<string> {
    MissingUpTo(m0, decls, |decls|)
  }

  /** The message of the validation error raised when names are missing. */
  function MissingMessage(missing: seq<string>): string {
    "Missing parameters: " + Join(missing, ", ")
  }

  /** The loop's `has` test agrees with the independent description. */
  lemma {:induction false} UsableIffFilledBefore(m0: map<string, Js>, decls: seq<ParamDecl>, i: nat, name: string)
    requires i <= |decls|
    ensures Usable(FillUpTo(m0, decls, i), name) <==> FilledBefore(m0, decls, i, name)
  {
    if i > 0 {
      UsableIffFilledBefore(m0, decls, i - 1, name);
      var p := decls[i - 1];
      if FilledBefore(m0, decls, i, name) && !FilledBefore(m0, decls, i - 1, name) {
        assert p.name == name && p.default != Undefined && p.default != Str("");
      }
    }
  }

  /** The default loop as the node runs it: it updates the dictionary and pushes missing names. */
  method ApplyDefaults(params: map<string, Js>, expected: seq<ParamDecl>) returns (filled: map<string, Js>, missing: seq<string>)
    ensures filled == Filled(params, expected)
    ensures missing == Missing(params, expected)
  {
    filled := params;
    missing := [];
    for i := 0 to |expected|
      invariant filled == FillUpTo(params, expected, i)
      invariant missing == MissingUpTo(params, expected, i)
    {
      var p := expected[i];
      UsableIffFilledBefore(params, expected, i, p.name);
      var has := p.name in filled && filled[p.name] != Str("") && filled[p.name] != Undefined;
      if !has {
        if p.default != Undefined {
          filled := filled[p.name := p.default];
        } else {
          missing := missing + [p.name];
        }
      }
    }
  }

  /** A usable value the user supplied is never replaced by a default. */
  lemma {:induction false} UserValueKept(m0: map<string, Js>, decls: seq<ParamDecl>, n: nat, k: string)
    requires n <= |decls|
    requires Usable(m0, k)
    ensures k in FillUpTo(m0, decls, n) && FillUpTo(m0, decls, n)[k] == m0[k]
  {
    if n > 0 {
      UserValueKept(m0, decls, n - 1, k);
    }
  }

  /** A key that no declaration names is left exactly as the user supplied it (or absent). */
  lemma {:induction false} UndeclaredUntouched(m0: map<string, Js>, decls: seq<ParamDecl>, n: nat, k: string)
    requires n <= |decls|
    requires forall j :: 0 <= j < n ==> decls[j].name != k
    ensures k in FillUpTo(m0, decls, n) <==> k in m0
    ensures k in m0 ==> FillUpTo(m0, decls, n)[k] == m0[k]
  {
    if n > 0 {
      UndeclaredUntouched(m0, decls, n - 1, k);
    }
  }

  /**
   A name with no usable value of the user's, once some declaration of it has
   brought a default, holds one of the defaults declared for it, and never
   one that was left undefined.
   */
  lemma {:induction false} DefaultOrigin(m0: map<string, Js>, decls: seq<ParamDecl>, n: nat, k: string)
    requires n <= |decls|
    requires !Usable(m0, k)
    requires exists j :: 0 <= j < n && decls[j].name == k && decls[j].default != Undefined
    ensures k in FillUpTo(m0, decls, n)
    ensures exists j :: 0 <= j < n && decls[j].name == k && decls[j].default != Undefined && FillUpTo(m0, decls, n)[k] == decls[j].default
  {
    var prev := FillUpTo(m0, decls, n - 1);
    var p := decls[n - 1];
    if p.name == k && p.default != Undefined && !Usable(prev, k) {
      assert FillUpTo(m0, decls, n)[k] == p.default;
    } else if p.name == k && p.default != Undefined {
      UsableIffFilledBefore(m0, decls, n - 1, k);
      DefaultOrigin(m0, decls, n - 1, k);
    } else {
      DefaultOrigin(m0, decls, n - 1, k);
    }
  }

  /** Keys are only ever added. */
  lemma {:induction false} KeysGrow(m0: map<string, Js>, decls: seq<ParamDecl>, a: nat, b: nat, k: string)
    requires a <= b <= |decls|
    requires k in FillUpTo(m0, decls, a)
    ensures k in FillUpTo(m0, decls, b)
  {
    if a < b {
      KeysGrow(m0, decls, a, b - 1, k);
    }
  }

  /** A declaration that is not reported missing has its name in the dictionary from then on. */
  lemma NotMissingPresent(m0: map<string, Js>, decls: seq<ParamDecl>, i: nat)
    requires i < |decls|
    requires !MissingAt(m0, decls, i)
    ensures decls[i].name in Filled(m0, decls)
  {
    UsableIffFilledBefore(m0, decls, i, decls[i].name);
    assert decls[i].name in FillUpTo(m0, decls, i + 1);
    KeysGrow(m0, decls, i + 1, |decls|, decls[i].name);
  }

  /** Names are reported missing exactly at the declarations where `MissingAt` holds. */
  lemma {:induction false} MissingMembers(m0: map<string, Js>, decls: seq<ParamDecl>, n: nat)
    requires n <= |decls|
    ensures MissingUpTo(m0, decls, n) == [] <==> forall i :: 0 <= i < n ==> !MissingAt(m0, decls, i)
    ensures forall i :: 0 <= i < n && MissingAt(m0, decls, i) ==> decls[i].name in MissingUpTo(m0, decls, n)
    ensures forall x :: x in MissingUpTo(m0, decls, n) ==> exists i :: 0 <= i < n && MissingAt(m0, decls, i) && decls[i].name == x
  {
    if n > 0 {
      MissingMembers(m0, decls, n - 1);
    }
  }

  /**
   When nothing is missing, every declared name is a key of the submitted
   parameters, holding the user's usable value if there was one, and
   otherwise a default declared for it; none of them is sent as `undefined`.
   */
  lemma ResolvedComplete(m0: map<string, Js>, decls: seq<ParamDecl>, i: nat)
    requires Missing(m0, decls) == []
    requires i < |decls|
    ensures decls[i].name in Filled(m0, decls)
    ensures Usable(m0, decls[i].name) ==> Filled(m0, decls)[decls[i].name] == m0[decls[i].name]
    ensures !Usable(m0, decls[i].name) ==>
              exists j :: 0 <= j < |decls| && decls[j].name == decls[i].name && decls[j].default != Undefined &&
                Filled(m0, decls)[decls[i].name] == decls[j].default
    ensures Filled(m0, decls)[decls[i].name] != Undefined
  {
    var name := decls[i].name;
    MissingMembers(m0, decls, |decls|);
    NotMissingPresent(m0, decls, i);
    if Usable(m0, name) {
      UserValueKept(m0, decls, |decls|, name);
    } else {
      UsableIffFilledBefore(m0, decls, i, name);
      assert exists j :: 0 <= j <= i && decls[j].name == name && decls[j].default != Undefined;
      DefaultOrigin(m0, decls, |decls|, name);
    }
  }

  /** No two declarations share a name. */
  predicate DistinctNames(decls: seq<ParamDecl>) {
    forall i, j :: 0 <= i < j < |decls| ==> decls[i].name != decls[j].name
  }

  /** The missing list when names are distinct: declared names with no usable value and no default. */
  function NoValueNoDefault(m0: map<string, Js>, decls: seq<ParamDecl>): (r: seq<string>)
    ensures |r| <= |decls|
  {
    if decls == [] then []
    else
      var p := decls[|decls| - 1];
      NoValueNoDefault(m0, decls[..|decls| - 1]) + (if !Usable(m0, p.name) && p.default == Undefined then [p.name] else [])
  }

  /**
   With distinct names, the missing list is exactly the declared names that
   have no usable value and no default, in declaration order.
   */
  lemma {:induction false} MissingForDistinctNames(m0: map<string, Js>, decls: seq<ParamDecl>, n: nat)
    requires n <= |decls|
    requires DistinctNames(decls)
    ensures MissingUpTo(m0, decls, n) == NoValueNoDefault(m0, decls[..n])
  {
    if n > 0 {
      MissingForDistinctNames(m0, decls, n - 1);
      assert decls[..n][..n - 1] == decls[..n - 1];
      assert FilledBefore(m0, decls, n - 1, decls[n - 1].name) <==> Usable(m0, decls[n - 1].name);
    }
  }
}
