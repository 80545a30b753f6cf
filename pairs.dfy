/**
 The key/value collections of the node's property panel (job parameters,
 query parameters, headers) and the loop that turns them into a dictionary:
 a pair with an empty key is skipped, and a later pair overwrites an earlier
 one with the same key.
 */
module Pairs {
  import opened JsValues

  /**
   One row of a fixed collection. A row without a key reads as key `""`, a
   row without a value as `Undefined`; an absent collection reads as no rows.
   */
  datatype Pair = Pair(key: string, value: Js)

  /** True when no pair after index `i` carries the same key as pair `i`. */
  ghost predicate LastWithKey(pairs: seq<Pair>, i: int)
    requires 0 <= i < |pairs|
  {
    forall j :: i < j < |pairs| ==> pairs[j].key != pairs[i].key
  }

  /**
   The dictionary the pairs build. Its keys are exactly the non-empty keys
   that occur, and each key holds the value of its last occurrence.
   */
  function PairsToMap(pairs: seq<Pair>): (r: map<string, Js>)
    ensures forall k :: k in r <==> k != "" && exists i :: 0 <= i < |pairs| && pairs[i].key == k
    ensures forall i :: 0 <= i < |pairs| && pairs[i].key != "" && LastWithKey(pairs, i) ==>
              pairs[i].key in r && r[pairs[i].key] == pairs[i].value
  {
    if pairs == [] then map[]
    else
      var last := pairs[|pairs| - 1];
      var m := PairsToMap(pairs[..|pairs| - 1]);
      AddPairKeeps(pairs, m);
      if last.key != "" then m[last.key := last.value] else m
  }

  /** One more pair keeps both properties of the dictionary built so far. */
  lemma AddPairKeeps(pairs: seq<Pair>, m: map<string, Js>)
    requires pairs != []
    requires forall k :: k in m <==> k != "" && exists i :: 0 <= i < |pairs| - 1 && pairs[i].key == k
    requires forall i :: 0 <= i < |pairs| - 1 && pairs[i].key != "" && LastWithKey(pairs[..|pairs| - 1], i) ==>
               pairs[i].key in m && m[pairs[i].key] == pairs[i].value
    ensures var last := pairs[|pairs| - 1];
            var r := if last.key != "" then m[last.key := last.value] else m;
            && (forall k :: k in r <==> k != "" && exists i :: 0 <= i < |pairs| && pairs[i].key == k)
            && (forall i :: 0 <= i < |pairs| && pairs[i].key != "" && LastWithKey(pairs, i) ==>
                  pairs[i].key in r && r[pairs[i].key] == pairs[i].value)
  {
    var n := |pairs| - 1;
    var last := pairs[n];
    var r := if last.key != "" then m[last.key := last.value] else m;
    forall k
      ensures k in r <==> k != "" && exists i :: 0 <= i < |pairs| && pairs[i].key == k
    {
      if k == last.key && k != "" {
        assert pairs[n].key == k;
      } else if k != last.key {
        assert (exists i :: 0 <= i < |pairs| && pairs[i].key == k) ==> exists i :: 0 <= i < n && pairs[i].key == k;
      }
    }
    forall i | 0 <= i < |pairs| && pairs[i].key != "" && LastWithKey(pairs, i)
      ensures pairs[i].key in r && r[pairs[i].key] == pairs[i].value
    {
      if i < n {
        assert pairs[n].key != pairs[i].key;
        assert LastWithKey(pairs[..n], i);
      }
    }
  }

  /** The builder loop itself, written as the node writes it. */
  method BuildMap(pairs: seq<Pair>) returns (m: map<string, Js>)
    ensures m == PairsToMap(pairs)
  {
    m := map[];
    var i := 0;
    while i < |pairs|
      invariant 0 <= i <= |pairs|
      invariant m == PairsToMap(pairs[..i])
    {
      var pair := pairs[i];
      if pair.key != "" {
        m := m[pair.key := pair.value];
      }
      assert pairs[..i + 1][..i] == pairs[..i];
      i := i + 1;
    }
    assert pairs[..i] == pairs;
  }
}
