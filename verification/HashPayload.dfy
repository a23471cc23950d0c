/**
 The canonical form of a request payload.  Object fields are kept in their enumeration order; numbers are
 kept as the text `JSON.stringify` writes for them.
 */
module HashPayload {
  import opened Wrappers

  datatype Json =
    | Null
    | Boolean(value: bool)
    | Number(numeral: string)
    | Text(text: string)
    | Array(items: seq<Json>)
    | Object(fields: seq<Field>)

  datatype Field = Field(key: string, value: Json)

  /** Whether the first key does not compare greater than the second. */
  type Order = (string, string) -> bool

  // ---------------------------------------------------------------- the code

  /** Insertion behind every field that does not compare greater: a stable sort. */
  function InsertField(le: Order, fields: seq<Field>, f: Field): seq<Field> {
    if fields == [] then [f]
    else
      var init, last := fields[..|fields| - 1], fields[|fields| - 1];
      if le(last.key, f.key) then fields + [f] else InsertField(le, init, f) + [last]
  }

  /** The fields ordered by key; those whose keys compare equal keep their order. */
  function SortFields(le: Order, fields: seq<Field>): seq<Field> {
    if fields == [] then []
    else InsertField(le, SortFields(le, fields[..|fields| - 1]), fields[|fields| - 1])
  }

  /** Each value is replaced by its own sorted form; `SortedThenMapped` says it does not matter when. */
  function SortKeysDeep(le: Order, v: Json): Json {
    match v
    case Array(items) => Array(seq(|items|, i requires 0 <= i < |items| => SortKeysDeep(le, items[i])))
    case Object(fields) => Object(SortFields(le, SortValues(le, fields)))
    case _ => v
  }

  function SortValues(le: Order, fields: seq<Field>): (r: seq<Field>)
    ensures |r| == |fields|
    ensures forall i :: 0 <= i < |fields| ==> r[i] == Field(fields[i].key, SortKeysDeep(le, fields[i].value))
  {
    seq(|fields|, i requires 0 <= i < |fields| => Field(fields[i].key, SortKeysDeep(le, fields[i].value)))
  }

  /** The payload, or null if there is none, made canonical, serialised and hashed. */
  function Hash(le: Order, serialise: Json -> string, digest: string -> string, payload: Option<Json>): string {
    digest(serialise(SortKeysDeep(le, OrNull(payload))))
  }

  function OrNull(payload: Option<Json>): Json {
    if payload.Some? then payload.value else Null
  }

  // ---------------------------------------------------------------- what it is to be the same payload

  function Lookup(fields: seq<Field>, key: string): Option<Json> {
    if fields == [] then None
    else if fields[|fields| - 1].key == key then Some(fields[|fields| - 1].value)
    else Lookup(fields[..|fields| - 1], key)
  }

  /** Equal up to the order of object keys at every level; arrays keep their order. */
  ghost predicate Same(x: Json, y: Json) {
    match x
    case Array(items) =>
      && y.Array? && |items| == |y.items|
      && forall i :: 0 <= i < |items| ==> Same(items[i], y.items[i])
    case Object(fields) =>
      && y.Object?
      && (forall key :: Lookup(fields, key).Some? <==> Lookup(y.fields, key).Some?)
      && forall i :: 0 <= i < |fields| ==>
           && Lookup(y.fields, fields[i].key).Some?
           && Same(fields[i].value, Lookup(y.fields, fields[i].key).value)
    case _ => x == y
  }

  predicate Distinct(fields: seq<Field>) {
    forall i, j :: 0 <= i < j < |fields| ==> fields[i].key != fields[j].key
  }

  /** A parsed document: no object has a key twice, and all keys are among `keys`. */
  predicate Parsed(v: Json, keys: set<string>) {
    match v
    case Array(items) => forall i :: 0 <= i < |items| ==> Parsed(items[i], keys)
    case Object(fields) =>
      && Distinct(fields)
      && forall i :: 0 <= i < |fields| ==> fields[i].key in keys && Parsed(fields[i].value, keys)
    case _ => true
  }

  /** The comparator orders these keys totally, and no two of them compare equal. */
  ghost predicate OrderOn(le: Order, keys: set<string>) {
    && (forall a, b :: a in keys && b in keys ==> le(a, b) || le(b, a))
    && (forall a, b :: a in keys && b in keys && le(a, b) && le(b, a) ==> a == b)
    && (forall a, b, c :: a in keys && b in keys && c in keys && le(a, b) && le(b, c) ==> le(a, c))
  }

  predicate Sorted(le: Order, fields: seq<Field>) {
    forall i, j :: 0 <= i < j < |fields| ==> le(fields[i].key, fields[j].key)
  }

  predicate KeysIn(fields: seq<Field>, keys: set<string>) {
    forall i :: 0 <= i < |fields| ==> fields[i].key in keys
  }

  // ---------------------------------------------------------------- looking up

  lemma {:induction false} LookupAt(fields: seq<Field>, i: nat)
    requires Distinct(fields) && i < |fields|
    ensures Lookup(fields, fields[i].key) == Some(fields[i].value)
  {
    if i < |fields| - 1 {
      assert fields[..|fields| - 1][i] == fields[i];
      LookupAt(fields[..|fields| - 1], i);
    }
  }

  lemma {:induction false} LookupFinds(fields: seq<Field>, key: string) returns (i: nat)
    requires Lookup(fields, key).Some?
    ensures i < |fields| && fields[i] == Field(key, Lookup(fields, key).value)
  {
    if fields[|fields| - 1].key == key {
      i := |fields| - 1;
    } else {
      i := LookupFinds(fields[..|fields| - 1], key);
    }
  }

  /** Rearranged fields with distinct keys look up the same. */
  lemma LookupRearranged(fields: seq<Field>, r: seq<Field>, key: string)
    requires multiset(r) == multiset(fields) && Distinct(fields) && Distinct(r)
    ensures Lookup(r, key) == Lookup(fields, key)
  {
    if Lookup(fields, key).Some? {
      Carried(fields, r, key);
    } else if Lookup(r, key).Some? {
      Carried(r, fields, key);
    }
  }

  lemma Carried(fields: seq<Field>, r: seq<Field>, key: string)
    requires multiset(r) == multiset(fields) && Distinct(r) && Lookup(fields, key).Some?
    ensures Lookup(r, key) == Lookup(fields, key)
  {
    var i := LookupFinds(fields, key);
    assert fields[i] in multiset(r);
    var j :| 0 <= j < |r| && r[j] == fields[i];
    LookupAt(r, j);
  }

  lemma {:induction false} LookupValues(le: Order, fields: seq<Field>, key: string)
    ensures Lookup(SortValues(le, fields), key) ==
            match Lookup(fields, key)
            case None => None
            case Some(v) => Some(SortKeysDeep(le, v))
  {
    if fields != [] {
      var n := |fields| - 1;
      assert SortValues(le, fields)[..n] == SortValues(le, fields[..n]);
      LookupValues(le, fields[..n], key);
    }
  }

  // ---------------------------------------------------------------- sorting

  lemma {:induction false} InsertRearranges(le: Order, fields: seq<Field>, f: Field)
    ensures multiset(InsertField(le, fields, f)) == multiset(fields) + multiset{f}
  {
    if fields != [] {
      var init, last := fields[..|fields| - 1], fields[|fields| - 1];
      assert fields == init + [last];
      InsertRearranges(le, init, f);
    }
  }

  /** Sorting keeps every field, once. */
  lemma {:induction false} SortRearranges(le: Order, fields: seq<Field>)
    ensures multiset(SortFields(le, fields)) == multiset(fields)
  {
    if fields != [] {
      var init, last := fields[..|fields| - 1], fields[|fields| - 1];
      assert fields == init + [last];
      SortRearranges(le, init);
      InsertRearranges(le, SortFields(le, init), last);
    }
  }

  lemma {:induction false} InsertSorted(le: Order, keys: set<string>, fields: seq<Field>, f: Field)
    requires OrderOn(le, keys) && KeysIn(fields, keys) && f.key in keys && Sorted(le, fields)
    ensures Sorted(le, InsertField(le, fields, f))
  {
    if fields != [] {
      var n := |fields| - 1;
      var init, last := fields[..n], fields[n];
      if le(last.key, f.key) {
        assert forall i :: 0 <= i < n ==> le(fields[i].key, last.key);
      } else {
        InsertSorted(le, keys, init, f);
        InsertRearranges(le, init, f);
        var r := InsertField(le, init, f);
        forall i | 0 <= i < |r| ensures le(r[i].key, last.key) {
          assert r[i] in multiset(r);
          assert r[i] == f || r[i] in init;
        }
      }
    }
  }

  lemma {:induction false} SortSorted(le: Order, keys: set<string>, fields: seq<Field>)
    requires OrderOn(le, keys) && KeysIn(fields, keys)
    ensures Sorted(le, SortFields(le, fields)) && KeysIn(SortFields(le, fields), keys)
  {
    SortRearranges(le, fields);
    Rearranged(fields, SortFields(le, fields), keys);
    if fields != [] {
      var n := |fields| - 1;
      SortSorted(le, keys, fields[..n]);
      InsertSorted(le, keys, SortFields(le, fields[..n]), fields[n]);
    }
  }

  lemma Rearranged(fields: seq<Field>, r: seq<Field>, keys: set<string>)
    requires multiset(r) == multiset(fields) && KeysIn(fields, keys)
    ensures KeysIn(r, keys)
  {
    forall i | 0 <= i < |r| ensures r[i].key in keys {
      assert r[i] in multiset(r);
      assert r[i] in fields;
    }
  }

  lemma {:induction false} InsertDistinct(le: Order, fields: seq<Field>, f: Field)
    requires Distinct(fields) && forall i :: 0 <= i < |fields| ==> fields[i].key != f.key
    ensures Distinct(InsertField(le, fields, f))
  {
    if fields != [] {
      var n := |fields| - 1;
      InsertDistinct(le, fields[..n], f);
      InsertRearranges(le, fields[..n], f);
      var r := InsertField(le, fields[..n], f);
      forall i | 0 <= i < |r| ensures r[i].key != fields[n].key {
        assert r[i] in multiset(r);
        assert r[i] == f || r[i] in fields[..n];
      }
    }
  }

  lemma {:induction false} SortDistinct(le: Order, fields: seq<Field>)
    requires Distinct(fields)
    ensures Distinct(SortFields(le, fields))
  {
    if fields != [] {
      var n := |fields| - 1;
      SortDistinct(le, fields[..n]);
      SortRearranges(le, fields[..n]);
      var r := SortFields(le, fields[..n]);
      forall i | 0 <= i < |r| ensures r[i].key != fields[n].key {
        assert r[i] in multiset(r);
        assert r[i] in fields[..n];
      }
      InsertDistinct(le, r, fields[n]);
    }
  }

  /** Sorted fields with distinct keys are determined by what they map each key to. */
  lemma {:induction false} SortedUnique(le: Order, keys: set<string>, r: seq<Field>, s: seq<Field>)
    requires OrderOn(le, keys) && KeysIn(r, keys) && KeysIn(s, keys)
    requires Sorted(le, r) && Sorted(le, s) && Distinct(r) && Distinct(s)
    requires forall key :: Lookup(r, key) == Lookup(s, key)
    ensures r == s
  {
    if r == [] || s == [] {
      if r != [] { LookupAt(r, 0); }
      if s != [] { LookupAt(s, 0); }
    } else {
      var m, n := |r| - 1, |s| - 1;
      SameLast(le, keys, r, s);
      forall key ensures Lookup(r[..m], key) == Lookup(s[..n], key) {
        DropLast(r, key);
        DropLast(s, key);
      }
      SortedUnique(le, keys, r[..m], s[..n]);
      assert r == r[..m] + [r[m]] && s == s[..n] + [s[n]];
    }
  }

  lemma DropLast(r: seq<Field>, key: string)
    requires r != [] && Distinct(r)
    ensures Lookup(r[..|r| - 1], key) == if key == r[|r| - 1].key then None else Lookup(r, key)
  {
    if key == r[|r| - 1].key && Lookup(r[..|r| - 1], key).Some? {
      var i := LookupFinds(r[..|r| - 1], key);
    }
  }

  lemma SameLast(le: Order, keys: set<string>, r: seq<Field>, s: seq<Field>)
    requires OrderOn(le, keys) && KeysIn(r, keys) && KeysIn(s, keys) && r != [] && s != []
    requires Sorted(le, r) && Sorted(le, s) && Distinct(r) && Distinct(s)
    requires forall key :: Lookup(r, key) == Lookup(s, key)
    ensures r[|r| - 1] == s[|s| - 1]
  {
    var m, n := |r| - 1, |s| - 1;
    LookupAt(r, m);
    LookupAt(s, n);
    var i := LookupFinds(s, r[m].key);
    var j := LookupFinds(r, s[n].key);
  }

  // ---------------------------------------------------------------- the canonical form

  lemma ValuesSnoc(le: Order, fields: seq<Field>, f: Field)
    ensures SortValues(le, fields + [f]) == SortValues(le, fields) + SortValues(le, [f])
  {
    hide SortKeysDeep;
  }

  lemma {:induction false} MappedThenInserted(le: Order, fields: seq<Field>, f: Field)
    ensures InsertField(le, SortValues(le, fields), SortValues(le, [f])[0]) == SortValues(le, InsertField(le, fields, f))
  {
    hide SortKeysDeep, SortValues;
    if fields != [] {
      var n := |fields| - 1;
      var last := fields[n];
      assert fields == fields[..n] + [last];
      ValuesSnoc(le, fields[..n], last);
      assert SortValues(le, fields)[..n] == SortValues(le, fields[..n]);
      assert SortValues(le, [f]) == [SortValues(le, [f])[0]];
      if le(last.key, f.key) {
        ValuesSnoc(le, fields, f);
      } else {
        MappedThenInserted(le, fields[..n], f);
        ValuesSnoc(le, InsertField(le, fields[..n], f), last);
        assert SortValues(le, [last]) == [SortValues(le, fields)[n]];
      }
    } else {
      assert SortValues(le, [f]) == [SortValues(le, [f])[0]];
    }
  }

  /** Whether values are canonicalised before or after their keys are sorted makes no difference. */
  lemma {:induction false} SortedThenMapped(le: Order, fields: seq<Field>)
    ensures SortFields(le, SortValues(le, fields)) == SortValues(le, SortFields(le, fields))
  {
    hide SortKeysDeep, SortValues, InsertField;
    if fields != [] {
      var n := |fields| - 1;
      SortedThenMapped(le, fields[..n]);
      assert SortValues(le, fields)[..n] == SortValues(le, fields[..n]);
      MappedThenInserted(le, SortFields(le, fields[..n]), fields[n]);
    }
  }

  lemma SortKeepsParsed(le: Order, keys: set<string>, v: Json)
    requires Parsed(v, keys)
    ensures Parsed(SortKeysDeep(le, v), keys)
  {
    match v
    case Array(items) =>
      forall i | 0 <= i < |items| ensures Parsed(SortKeysDeep(le, items[i]), keys) {
        SortKeepsParsed(le, keys, items[i]);
      }
    case Object(fields) =>
      var mapped := SortValues(le, fields);
      var r := SortFields(le, mapped);
      assert Distinct(mapped);
      SortDistinct(le, mapped);
      SortRearranges(le, mapped);
      forall i | 0 <= i < |mapped| ensures Parsed(mapped[i].value, keys) {
        SortKeepsParsed(le, keys, fields[i].value);
      }
      forall i | 0 <= i < |r| ensures r[i].key in keys && Parsed(r[i].value, keys) {
        assert r[i] in multiset(r);
        assert r[i] in mapped;
      }
    case _ =>
  }

  /** What the canonical form of an object maps a key to. */
  lemma SortLookup(le: Order, fields: seq<Field>, key: string)
    requires Distinct(fields)
    ensures Lookup(SortFields(le, SortValues(le, fields)), key) ==
            match Lookup(fields, key)
            case None => None
            case Some(v) => Some(SortKeysDeep(le, v))
  {
    var mapped := SortValues(le, fields);
    assert Distinct(mapped);
    SortDistinct(le, mapped);
    SortRearranges(le, mapped);
    LookupRearranged(mapped, SortFields(le, mapped), key);
    LookupValues(le, fields, key);
  }

  /**
   Two payloads have the same canonical form exactly when they are equal up to key order at every level.
   */
  lemma {:induction false} SameFormIff(le: Order, keys: set<string>, x: Json, y: Json)
    requires OrderOn(le, keys) && Parsed(x, keys) && Parsed(y, keys)
    ensures SortKeysDeep(le, x) == SortKeysDeep(le, y) <==> Same(x, y)
    decreases x
  {
    match x
    case Array(items) =>
      if y.Array? && |y.items| == |items| {
        ItemsIff(le, keys, x, y);
      } else if y.Array? {
        assert |SortKeysDeep(le, x).items| != |SortKeysDeep(le, y).items|;
      }
    case Object(fields) =>
      if y.Object? {
        forall i | 0 <= i < |fields| && Lookup(y.fields, fields[i].key).Some?
          ensures SortKeysDeep(le, fields[i].value) == SortKeysDeep(le, Lookup(y.fields, fields[i].key).value) <==>
                  Same(fields[i].value, Lookup(y.fields, fields[i].key).value)
        {
          var j := LookupFinds(y.fields, fields[i].key);
          SameFormIff(le, keys, fields[i].value, y.fields[j].value);
        }
        FieldsIff(le, keys, fields, y.fields);
      }
    case _ =>
  }

  lemma {:induction false} ItemsIff(le: Order, keys: set<string>, x: Json, y: Json)
    requires OrderOn(le, keys) && Parsed(x, keys) && Parsed(y, keys)
    requires x.Array? && y.Array? && |x.items| == |y.items|
    ensures SortKeysDeep(le, x) == SortKeysDeep(le, y) <==> Same(x, y)
    decreases x, 0
  {
    var s, t := SortKeysDeep(le, x).items, SortKeysDeep(le, y).items;
    forall i | 0 <= i < |x.items| ensures s[i] == t[i] <==> Same(x.items[i], y.items[i]) {
      SameFormIff(le, keys, x.items[i], y.items[i]);
    }
    assert s == t <==> forall i :: 0 <= i < |s| ==> s[i] == t[i];
  }

  /** The two objects' values, key by key, have equal forms exactly when they are the same. */
  ghost predicate ValuesDecided(le: Order, fields: seq<Field>, others: seq<Field>) {
    forall i :: 0 <= i < |fields| && Lookup(others, fields[i].key).Some? ==>
      (SortKeysDeep(le, fields[i].value) == SortKeysDeep(le, Lookup(others, fields[i].key).value) <==>
       Same(fields[i].value, Lookup(others, fields[i].key).value))
  }

  lemma SameFields(le: Order, fields: seq<Field>, others: seq<Field>)
    requires Distinct(fields) && Distinct(others) && ValuesDecided(le, fields, others)
    requires SortFields(le, SortValues(le, fields)) == SortFields(le, SortValues(le, others))
    ensures Same(Object(fields), Object(others))
  {
    hide SortKeysDeep, SortFields, SortValues;
    forall key ensures Lookup(fields, key).Some? <==> Lookup(others, key).Some? {
      SortLookup(le, fields, key);
      SortLookup(le, others, key);
    }
    forall i | 0 <= i < |fields|
      ensures Lookup(others, fields[i].key).Some? && Same(fields[i].value, Lookup(others, fields[i].key).value)
    {
      LookupAt(fields, i);
      SortLookup(le, fields, fields[i].key);
      SortLookup(le, others, fields[i].key);
    }
  }

  lemma SameLookups(le: Order, fields: seq<Field>, others: seq<Field>, key: string)
    requires Distinct(fields) && Distinct(others) && ValuesDecided(le, fields, others)
    requires Same(Object(fields), Object(others))
    ensures Lookup(SortFields(le, SortValues(le, fields)), key) == Lookup(SortFields(le, SortValues(le, others)), key)
  {
    hide SortKeysDeep, SortFields, SortValues;
    SortLookup(le, fields, key);
    SortLookup(le, others, key);
    if Lookup(fields, key).Some? {
      var i := LookupFinds(fields, key);
      assert Same(fields[i].value, Lookup(others, fields[i].key).value);
    }
  }

  lemma FieldsIff(le: Order, keys: set<string>, fields: seq<Field>, others: seq<Field>)
    requires OrderOn(le, keys) && Parsed(Object(fields), keys) && Parsed(Object(others), keys)
    requires ValuesDecided(le, fields, others)
    ensures SortKeysDeep(le, Object(fields)) == SortKeysDeep(le, Object(others)) <==> Same(Object(fields), Object(others))
  {
    hide Same, SortFields, SortValues, ValuesDecided, OrderOn;
    var r, s := SortFields(le, SortValues(le, fields)), SortFields(le, SortValues(le, others));
    if r == s {
      SameFields(le, fields, others);
    }
    if Same(Object(fields), Object(others)) {
      forall key ensures Lookup(r, key) == Lookup(s, key) {
        SameLookups(le, fields, others, key);
      }
      FormSorted(le, keys, fields);
      FormSorted(le, keys, others);
      SortedUnique(le, keys, r, s);
    }
  }

  lemma FormSorted(le: Order, keys: set<string>, fields: seq<Field>)
    requires OrderOn(le, keys) && Parsed(Object(fields), keys)
    ensures var r := SortFields(le, SortValues(le, fields)); Sorted(le, r) && Distinct(r) && KeysIn(r, keys)
  {
    var mapped := SortValues(le, fields);
    assert KeysIn(mapped, keys) && Distinct(mapped);
    SortSorted(le, keys, mapped);
    SortDistinct(le, mapped);
  }

  /** A payload is the same as its canonical form. */
  lemma {:induction false} SortKeepsMeaning(le: Order, keys: set<string>, v: Json)
    requires Parsed(v, keys)
    ensures Same(v, SortKeysDeep(le, v))
  {
    match v
    case Array(items) =>
      forall i | 0 <= i < |items| ensures Same(items[i], SortKeysDeep(le, items[i])) {
        SortKeepsMeaning(le, keys, items[i]);
      }
    case Object(fields) =>
      var r := SortFields(le, SortValues(le, fields));
      forall key ensures Lookup(fields, key).Some? <==> Lookup(r, key).Some? {
        SortLookup(le, fields, key);
      }
      forall i | 0 <= i < |fields|
        ensures Lookup(r, fields[i].key).Some? && Same(fields[i].value, Lookup(r, fields[i].key).value)
      {
        LookupAt(fields, i);
        SortLookup(le, fields, fields[i].key);
        SortKeepsMeaning(le, keys, fields[i].value);
      }
    case _ =>
  }

  /** Sorting a canonical form changes nothing. */
  lemma SortIdempotent(le: Order, keys: set<string>, v: Json)
    requires OrderOn(le, keys) && Parsed(v, keys)
    ensures SortKeysDeep(le, SortKeysDeep(le, v)) == SortKeysDeep(le, v)
  {
    SortKeepsParsed(le, keys, v);
    SortKeepsMeaning(le, keys, v);
    SameFormIff(le, keys, v, SortKeysDeep(le, v));
  }

  /** Two requests under one key pass as the same exactly when their payloads are. */
  lemma SameHashIff(le: Order, keys: set<string>, serialise: Json -> string, digest: string -> string,
                    x: Option<Json>, y: Option<Json>)
    requires OrderOn(le, keys) && Parsed(OrNull(x), keys) && Parsed(OrNull(y), keys)
    requires forall v, w :: serialise(v) == serialise(w) ==> v == w
    requires forall s, t :: digest(s) == digest(t) ==> s == t
    ensures Hash(le, serialise, digest, x) == Hash(le, serialise, digest, y) <==> Same(OrNull(x), OrNull(y))
  {
    SameFormIff(le, keys, OrNull(x), OrNull(y));
  }

  /** Keys that compare equal keep the order they came in: then the same payload has two forms. */
  lemma TiedKeysKeepTheirOrder(le: Order, a: string, b: string, v: Json, w: Json)
    requires a != b && le(a, b) && le(b, a)
    ensures var x, y := Object([Field(a, v), Field(b, w)]), Object([Field(b, w), Field(a, v)]);
            SortKeysDeep(le, x) != SortKeysDeep(le, y)
  {
    PairForm(le, Field(a, v), Field(b, w));
    PairForm(le, Field(b, w), Field(a, v));
  }

  lemma TwoInOrder(le: Order, p: Field, q: Field)
    requires le(p.key, q.key)
    ensures SortFields(le, [p, q]) == [p, q]
  {
    hide SortKeysDeep;
    assert [p, q][..1] == [p] && [p][..0] == [];
    assert SortFields(le, [p]) == [p];
  }

  lemma PairForm(le: Order, f: Field, g: Field)
    requires le(f.key, g.key)
    ensures SortKeysDeep(le, Object([f, g])) ==
            Object([Field(f.key, SortKeysDeep(le, f.value)), Field(g.key, SortKeysDeep(le, g.value))])
  {
    var p, q := Field(f.key, SortKeysDeep(le, f.value)), Field(g.key, SortKeysDeep(le, g.value));
    assert SortValues(le, [f, g]) == [p, q];
    TwoInOrder(le, p, q);
  }
}
