/** JSON-like values as the browser hands them to the remote store, including
    JavaScript's `undefined`, and the cleaner every remote write goes through
    (`removeUndefinedValues` in BaseCommand.ts). */
module JsonData {
  import opened Wrappers

  datatype Json =
    | Undefined
    | Null
    | Bool(b: bool)
    | Num(n: real)
    | Str(s: string)
    | Arr(items: seq<Json>)
    | Object(fields: seq<Field>)

  /** One own property of a plain object, in insertion order. */
  datatype Field = Field(key: string, value: Json)

  /** JavaScript truthiness (NaN is not representable here). */
  predicate Truthy(j: Json) {
    match j
    case Undefined => false
    case Null => false
    case Bool(b) => b
    case Num(n) => n != 0.0
    case Str(s) => s != ""
    case _ => true
  }

  /** No `undefined` occurs anywhere inside the value. */
  predicate Defined(j: Json) {
    match j
    case Undefined => false
    case Arr(items) => forall i | 0 <= i < |items| :: Defined(items[i])
    case Object(fields) => forall i | 0 <= i < |fields| :: Defined(fields[i].value)
    case _ => true
  }

  /** The property names of a record, in order. */
  function FieldKeys(fields: seq<Field>): (r: seq<string>)
    ensures |r| == |fields|
    ensures forall i | 0 <= i < |fields| :: r[i] == fields[i].key
  {
    seq(|fields|, i requires 0 <= i < |fields| => fields[i].key)
  }

  /** The properties whose value is not `undefined`, in their original order. */
  function DropUndefined(fields: seq<Field>): (r: seq<Field>)
    ensures |r| <= |fields|
    ensures forall i | 0 <= i < |r| :: r[i] in fields && r[i].value != Undefined
    ensures forall i | 0 <= i < |fields| && fields[i].value != Undefined :: fields[i] in r
    ensures (forall i | 0 <= i < |fields| :: fields[i].value != Undefined) ==> r == fields
  {
    if fields == [] then []
    else if fields[0].value == Undefined then DropUndefined(fields[1..])
    else [fields[0]] + DropUndefined(fields[1..])
  }

  /** `removeUndefinedValues`: null and undefined become null, arrays are cleaned
      element by element, object properties holding undefined are dropped and
      the others cleaned, every other value is returned as it is. */
  function Clean(j: Json): (r: Json)
    ensures Defined(r)
    ensures j.Undefined? || j.Null? ==> r == Null
    ensures j.Arr? ==> r.Arr? && |r.items| == |j.items|
    ensures j.Object? ==> r.Object? && FieldKeys(r.fields) == FieldKeys(DropUndefined(j.fields))
    ensures j.Bool? || j.Num? || j.Str? ==> r == j
  {
    match j
    case Undefined => Null
    case Null => Null
    case Arr(items) => Arr(seq(|items|, i requires 0 <= i < |items| => Clean(items[i])))
    case Object(fields) =>
      var kept := DropUndefined(fields);
      Object(seq(|kept|, i requires 0 <= i < |kept| => Field(kept[i].key, Clean(kept[i].value))))
    case _ => j
  }

  /** Filtering distributes over concatenation: together with the one-property
      cases this fixes the result, so the kept properties stay in their order. */
  lemma {:induction false} DropUndefinedAppend(a: seq<Field>, b: seq<Field>)
    ensures DropUndefined(a + b) == DropUndefined(a) + DropUndefined(b)
  {
    if a == [] {
      assert a + b == b;
    } else {
      assert (a + b)[1..] == a[1..] + b;
      DropUndefinedAppend(a[1..], b);
    }
  }

  /** A value without `undefined` is a fixed point of the cleaner. */
  lemma {:induction false} CleanKeepsDefined(j: Json)
    requires Defined(j)
    ensures Clean(j) == j
  {
    match j
    case Arr(items) =>
      forall i | 0 <= i < |items| ensures Clean(items[i]) == items[i] {
        CleanKeepsDefined(items[i]);
      }
      assert Clean(j).items == items;
    case Object(fields) =>
      assert DropUndefined(fields) == fields;
      forall i | 0 <= i < |fields| ensures Clean(fields[i].value) == fields[i].value {
        CleanKeepsDefined(fields[i].value);
      }
      assert Clean(j).fields == fields;
    case _ =>
  }

  /** The cleaner changes a value exactly when the value contains `undefined`. */
  lemma CleanFixedPoints(j: Json)
    ensures Clean(j) == j <==> Defined(j)
  {
    if Defined(j) {
      CleanKeepsDefined(j);
    }
  }

  /** Cleaning twice is cleaning once. */
  lemma CleanIdempotent(j: Json)
    ensures Clean(Clean(j)) == Clean(j)
  {
    CleanKeepsDefined(Clean(j));
  }

  /** The position of the first property named `key`, or the record's length
      when there is none. */
  function KeyIndex(fields: seq<Field>, key: string): (i: nat)
    ensures i <= |fields|
    ensures forall j | 0 <= j < i :: fields[j].key != key
    ensures i < |fields| ==> fields[i].key == key
  {
    if fields == [] then 0
    else if fields[0].key == key then 0
    else
      var rest := KeyIndex(fields[1..], key);
      assert forall j | 1 <= j <= rest :: fields[j] == fields[1..][j - 1];
      1 + rest
  }

  /** The value of the first property named `key`, if any (property read). */
  function Lookup(fields: seq<Field>, key: string): Option<Json> {
    if fields == [] then None
    else if fields[0].key == key then Some(fields[0].value)
    else Lookup(fields[1..], key)
  }

  /** A property read yields the value of the first property with the name. */
  lemma {:induction false} LookupFirst(fields: seq<Field>, key: string)
    ensures Lookup(fields, key) ==
      if KeyIndex(fields, key) < |fields| then Some(fields[KeyIndex(fields, key)].value) else None
  {
    if fields != [] && fields[0].key != key {
      LookupFirst(fields[1..], key);
      assert KeyIndex(fields, key) == 1 + KeyIndex(fields[1..], key);
    }
  }

  /** `{...record, key: v}`: an existing property keeps its position and takes
      the new value, a missing one is appended. */
  function Assign(fields: seq<Field>, key: string, v: Json): (r: seq<Field>)
    ensures Lookup(r, key) == Some(v)
    ensures forall k | k != key :: Lookup(r, k) == Lookup(fields, k)
    ensures |r| == if Lookup(fields, key).Some? then |fields| else |fields| + 1
  {
    if fields == [] then [Field(key, v)]
    else if fields[0].key == key then
      LookupCons(Field(key, v), fields[1..], key);
      [Field(key, v)] + fields[1..]
    else
      var rest := Assign(fields[1..], key, v);
      LookupCons(fields[0], rest, key);
      assert forall k | k != key :: Lookup([fields[0]] + rest, k) == Lookup(fields, k) by {
        forall k | k != key ensures Lookup([fields[0]] + rest, k) == Lookup(fields, k) {
          LookupCons(fields[0], rest, k);
        }
      }
      [fields[0]] + rest
  }

  /** A property read finds a value exactly when some property has the name. */
  lemma {:induction false} LookupFound(fields: seq<Field>, key: string)
    ensures Lookup(fields, key).Some? <==> key in FieldKeys(fields)
  {
    LookupFirst(fields, key);
    var i := KeyIndex(fields, key);
    if i < |fields| {
      assert FieldKeys(fields)[i] == key;
    }
  }

  /** A property read finds the first property with the name. */
  lemma LookupAt(fields: seq<Field>, i: nat, key: string)
    requires i < |fields| && fields[i].key == key
    requires forall j | 0 <= j < i :: fields[j].key != key
    ensures Lookup(fields, key) == Some(fields[i].value)
  {
    LookupFirst(fields, key);
  }

  /** Reading a record that starts with one given property. */
  lemma LookupCons(f: Field, rest: seq<Field>, key: string)
    ensures Lookup([f] + rest, key) == if f.key == key then Some(f.value) else Lookup(rest, key)
  {
    assert ([f] + rest)[1..] == rest;
  }
}
