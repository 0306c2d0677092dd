/** JSON values as JSON.parse builds them, and the object operations the sources use. */
module Json {
  import opened Texts

  /** A member of an object, in insertion order. */
  datatype Field = Field(key: Text, val: Json)

  /**
   * A finite number is identified with the text Number::toString prints for it, with "-0" for
   * negative zero; that text is one to one on finite numbers.
   */
  datatype Json =
    | Null
    | Bool(b: bool)
    | Num(digits: Text)
    | Str(s: Text)
    | Arr(elems: seq<Json>)
    | Obj(fields: seq<Field>)

  /** Object.keys has no duplicates. */
  predicate DistinctKeys(fs: seq<Field>) {
    forall i, j :: 0 <= i < j < |fs| ==> fs[i].key != fs[j].key
  }

  predicate NumberChar(c: CodeUnit) {
    IsDigit(c) || c == 43 || c == 45 || c == 46 || c == 101
  }

  /** What Number::toString can print: starts with a digit or '-', then digits, '.', 'e', '+', '-'. */
  predicate NumberText(t: Text) {
    && |t| > 0
    && (IsDigit(t[0]) || t[0] == 45)
    && forall i :: 0 <= i < |t| ==> NumberChar(t[i])
  }

  predicate WellFormed(v: Json) {
    match v
    case Null => true
    case Bool(_) => true
    case Num(d) => NumberText(d)
    case Str(_) => true
    case Arr(es) => forall i :: 0 <= i < |es| ==> WellFormed(es[i])
    case Obj(fs) => DistinctKeys(fs) && forall i :: 0 <= i < |fs| ==> WellFormed(fs[i].val)
  }

  /** The position of a key, or the length when the object does not have it. */
  function KeyIndex(fs: seq<Field>, key: Text): (i: nat)
    ensures i <= |fs|
    ensures i < |fs| ==> fs[i].key == key
    ensures forall j :: 0 <= j < i ==> fs[j].key != key
  {
    if fs == [] then 0
    else if fs[0].key == key then 0
    else 1 + KeyIndex(fs[1..], key)
  }

  /** obj[key]; None stands for undefined. Arrays and primitives have no such own property here. */
  function Get(v: Json, key: Text): Option<Json> {
    if v.Obj? && KeyIndex(v.fields, key) < |v.fields|
    then Some(v.fields[KeyIndex(v.fields, key)].val)
    else None
  }

  /** { ...obj, [key]: val }: an existing key keeps its place, a new one goes last. */
  function Put(v: Json, key: Text, val: Json): (r: Json)
    requires v.Obj?
    ensures r.Obj?
  {
    var i := KeyIndex(v.fields, key);
    if i < |v.fields| then Obj(v.fields[i := Field(key, val)]) else Obj(v.fields + [Field(key, val)])
  }

  lemma KeyIndexIs(fs: seq<Field>, key: Text, i: nat)
    requires i <= |fs|
    requires i < |fs| ==> fs[i].key == key
    requires forall j :: 0 <= j < i ==> fs[j].key != key
    ensures KeyIndex(fs, key) == i
  {
  }

  /** Reading back what a spread wrote, and leaving every other key alone. */
  lemma GetPut(v: Json, key: Text, val: Json, other: Text)
    requires v.Obj?
    ensures Get(Put(v, key, val), key) == Some(val)
    ensures other != key ==> Get(Put(v, key, val), other) == Get(v, other)
  {
    var i := KeyIndex(v.fields, key);
    var r := Put(v, key, val).fields;
    KeyIndexIs(r, key, i);
    if other != key {
      var j := KeyIndex(v.fields, other);
      if j < |v.fields| {
        KeyIndexIs(r, other, j);
      } else {
        KeyIndexIs(r, other, |r|);
      }
    }
  }

  /** Overwriting a key twice is overwriting it once. */
  lemma PutPut(v: Json, key: Text, a: Json, b: Json)
    requires v.Obj?
    ensures Put(Put(v, key, a), key, b) == Put(v, key, b)
  {
    var i := KeyIndex(v.fields, key);
    KeyIndexIs(Put(v, key, a).fields, key, i);
  }

  lemma PutWellFormed(v: Json, key: Text, val: Json)
    requires v.Obj? && WellFormed(v) && WellFormed(val)
    ensures WellFormed(Put(v, key, val))
  {
  }

  lemma GetWellFormed(v: Json, key: Text)
    requires WellFormed(v) && Get(v, key).Some?
    ensures WellFormed(Get(v, key).value)
  {
  }
}
