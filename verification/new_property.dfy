/** The parameter list of `addProperty` (server/database.js): the property
    record's fields read in a fixed key order, one per column of the INSERT. */
module NewProperty {
  import opened JsValues

  /** The `keys` array: the order in which fields are read. */
  const PropertyKeys: seq<string> := [
    "owner_id", "title", "description", "thumbnail_photo_url", "cover_photo_url",
    "cost_per_night", "street", "city", "province", "post_code", "country",
    "parking_spaces", "number_of_bathrooms", "number_of_bedrooms"]

  /** The column list of the INSERT statement, whose VALUES are `$1` to `$14`. */
  const InsertColumns: seq<string> := [
    "owner_id", "title", "description", "thumbnail_photo_url", "cover_photo_url",
    "cost_per_night", "street", "city", "province", "post_code", "country",
    "parking_spaces", "number_of_bathrooms", "number_of_bedrooms"]

  /** `property[key]`: `undefined` (bound as NULL) when the key is missing. */
  function Lookup<V>(property: map<string, V>, key: string): (r: Option<V>)
    ensures r.Some? <==> key in property
    ensures r.Some? ==> r.value == property[key]
  {
    if key in property then Some(property[key]) else None
  }

  /** The parameter list, as a value. */
  function PropertyInput<V>(property: map<string, V>): seq<Option<V>> {
    seq(|PropertyKeys|, i requires 0 <= i < |PropertyKeys| => Lookup(property, PropertyKeys[i]))
  }

  /** The loop that pushes `property[key]` for each key in order. */
  method CollectInput<V>(property: map<string, V>) returns (input: seq<Option<V>>)
    ensures |input| == 14
    ensures forall i :: 0 <= i < 14 ==> (input[i].Some? <==> PropertyKeys[i] in property)
    ensures forall i :: 0 <= i < 14 && input[i].Some? ==> input[i].value == property[PropertyKeys[i]]
    ensures input == PropertyInput(property)
  {
    input := [];
    var n := 0;
    while n < |PropertyKeys|
      invariant 0 <= n <= |PropertyKeys|
      invariant |input| == n
      invariant forall i :: 0 <= i < n ==> input[i] == Lookup(property, PropertyKeys[i])
    {
      input := input + [Lookup(property, PropertyKeys[n])];
      n := n + 1;
    }
  }

  /** No field is read twice. */
  lemma KeysDistinct()
    ensures forall i, j :: 0 <= i < j < |PropertyKeys| ==> PropertyKeys[i] != PropertyKeys[j]
  {
  }

  /** Placeholder `$i+1` sits in the column named by the i-th key, so every
      column receives the record's field of the same name. */
  lemma ColumnsMatchKeys<V>(property: map<string, V>)
    ensures |InsertColumns| == |PropertyInput(property)| == 14
    ensures forall i :: 0 <= i < 14 ==> PropertyInput(property)[i] == Lookup(property, InsertColumns[i])
  {
    assert InsertColumns == PropertyKeys;
  }

  /** Two records give the same parameter list exactly when they agree on
      the fourteen fields: extra fields are ignored, missing ones are NULL. */
  lemma InputAgreesIff<V>(p: map<string, V>, q: map<string, V>)
    ensures PropertyInput(p) == PropertyInput(q)
            <==> forall k :: k in PropertyKeys ==> Lookup(p, k) == Lookup(q, k)
  {
    if PropertyInput(p) == PropertyInput(q) {
      forall k | k in PropertyKeys
        ensures Lookup(p, k) == Lookup(q, k)
      {
        var i :| 0 <= i < |PropertyKeys| && PropertyKeys[i] == k;
        assert PropertyInput(p)[i] == PropertyInput(q)[i];
      }
    }
  }
}
