/** The canonical form of a JSON value (runtime-guard.js, lines 6-12): object keys sorted at every
    depth. Two values have one canonical form exactly when they differ only in key order. */
module Canonical {
  import opened Text

  datatype Json =
    | Null
    | Bool(b: bool)
    | Num(n: real)
    | Str(s: string)
    | Arr(items: seq<Json>)
    | Obj(fields: seq<Field>)

  datatype Field = Field(key: string, value: Json)

  // ---------- the order of an object's own keys ----------

  /** The first UTF-16 code unit of a character: a lead surrogate beyond the basic plane. */
  function LeadUnit(c: char): int {
    if c as int < 0x1_0000 then c as int else 0xD800 + (c as int - 0x1_0000) / 0x400
  }

  /** Code-unit order of characters; it differs from their own order beyond the basic plane. */
  predicate UnitLess(a: char, b: char) {
    LeadUnit(a) < LeadUnit(b) || (LeadUnit(a) == LeadUnit(b) && a < b)
  }

  /** Code-unit order of strings, as JavaScript sorts them. */
  predicate LexLe(a: string, b: string) {
    if a == "" then true
    else if b == "" then false
    else if a[0] != b[0] then UnitLess(a[0], b[0])
    else LexLe(a[1..], b[1..])
  }

  predicate AllDigits(s: string) {
    forall c :: c in s ==> '0' <= c <= '9'
  }

  /** Keys JavaScript treats as array indices: canonical decimals below 2^32 - 1. */
  predicate IsIndex(s: string) {
    && s != "" && AllDigits(s) && (s == "0" || s[0] != '0')
    && (|s| < 10 || (|s| == 10 && LexLe(s, "4294967294")))
  }

  /** The order in which the canonical object lists its keys: sorted by code units, except that
      JavaScript lists index keys first and by value (shorter decimals are smaller). */
  predicate KeyLe(a: string, b: string) {
    if IsIndex(a) && IsIndex(b) then |a| < |b| || (|a| == |b| && LexLe(a, b))
    else if IsIndex(a) != IsIndex(b) then IsIndex(a)
    else LexLe(a, b)
  }

  lemma {:induction false} LexTotal(a: string, b: string)
    ensures LexLe(a, b) || LexLe(b, a)
    ensures LexLe(a, b) && LexLe(b, a) ==> a == b
  {
    if a != "" && b != "" && a[0] == b[0] {
      LexTotal(a[1..], b[1..]);
      assert a == [a[0]] + a[1..] && b == [b[0]] + b[1..];
    }
  }

  lemma {:induction false} LexTransitive(a: string, b: string, c: string)
    requires LexLe(a, b) && LexLe(b, c)
    ensures LexLe(a, c)
  {
    if a != "" && b != "" && c != "" && a[0] == b[0] && b[0] == c[0] {
      LexTransitive(a[1..], b[1..], c[1..]);
    }
  }

  lemma KeyOrder(a: string, b: string, c: string)
    ensures KeyLe(a, b) || KeyLe(b, a)
    ensures KeyLe(a, b) && KeyLe(b, a) ==> a == b
    ensures KeyLe(a, b) && KeyLe(b, c) ==> KeyLe(a, c)
  {
    LexTotal(a, b);
    if LexLe(a, b) && LexLe(b, c) {
      LexTransitive(a, b, c);
    }
  }

  // ---------- canonical form ----------

  function Insert(f: Field, fields: seq<Field>): seq<Field> {
    if fields == [] then [f]
    else if KeyLe(f.key, fields[0].key) then [f] + fields
    else [fields[0]] + Insert(f, fields[1..])
  }

  function Sort(fields: seq<Field>): seq<Field> {
    if fields == [] then [] else Insert(fields[0], Sort(fields[1..]))
  }

  function CanonItems(items: seq<Json>): (r: seq<Json>)
    ensures |r| == |items|
    ensures forall i :: 0 <= i < |items| ==> r[i] == Canon(items[i])
  {
    if items == [] then [] else [Canon(items[0])] + CanonItems(items[1..])
  }

  function CanonFields(fields: seq<Field>): (r: seq<Field>)
    ensures |r| == |fields|
    ensures forall i :: 0 <= i < |fields| ==> r[i] == Field(fields[i].key, Canon(fields[i].value))
  {
    if fields == [] then [] else [Field(fields[0].key, Canon(fields[0].value))] + CanonFields(fields[1..])
  }

  function Canon(v: Json): Json {
    match v
    case Arr(items) => Arr(CanonItems(items))
    case Obj(fields) => Obj(Sort(CanonFields(fields)))
    case _ => v
  }

  // ---------- well-formed values, and the reference equivalence ----------

  predicate DistinctKeys(fields: seq<Field>) {
    forall i, j :: 0 <= i < j < |fields| ==> fields[i].key != fields[j].key
  }

  /** Keys are distinct in every object, as in any JavaScript object. */
  predicate WellFormed(v: Json) {
    match v
    case Arr(items) => forall i :: 0 <= i < |items| ==> WellFormed(items[i])
    case Obj(fields) => DistinctKeys(fields) && forall i :: 0 <= i < |fields| ==> WellFormed(fields[i].value)
    case _ => true
  }

  predicate HasKey(fields: seq<Field>, key: string) {
    exists i :: 0 <= i < |fields| && fields[i].key == key
  }

  /** The two values differ at most in the order of object keys, at any depth. */
  ghost predicate SameUpToKeyOrder(v: Json, w: Json)
    decreases v
  {
    match (v, w)
    case (Arr(a), Arr(b)) => |a| == |b| && forall i :: 0 <= i < |a| ==> SameUpToKeyOrder(a[i], b[i])
    case (Obj(f), Obj(g)) =>
      && (forall i {:trigger SameField(f[i], g)} :: 0 <= i < |f| ==> SameField(f[i], g))
      && (forall j {:trigger HasKey(f, g[j].key)} :: 0 <= j < |g| ==> HasKey(f, g[j].key))
    case (_, _) => v == w
  }

  ghost predicate SameField(x: Field, g: seq<Field>)
    decreases x
  {
    exists j :: 0 <= j < |g| && x.key == g[j].key && SameUpToKeyOrder(x.value, g[j].value)
  }

  // ---------- sorting by key ----------

  predicate KeySorted(fields: seq<Field>) {
    forall i, j :: 0 <= i < j < |fields| ==> KeyLe(fields[i].key, fields[j].key)
  }

  lemma {:induction false} InsertMeaning(f: Field, fields: seq<Field>)
    ensures forall x :: x in Insert(f, fields) <==> x in fields || x == f
    ensures KeySorted(fields) ==> KeySorted(Insert(f, fields))
  {
    if fields != [] && !KeyLe(f.key, fields[0].key) {
      var rest := Insert(f, fields[1..]);
      InsertMeaning(f, fields[1..]);
      KeyOrder(f.key, fields[0].key, f.key);
      assert forall x :: x in rest ==> x in fields || x == f;
      assert KeySorted(fields) ==> forall x :: x in rest ==> KeyLe(fields[0].key, x.key);
    } else if fields != [] {
      forall x | x in fields && KeySorted(fields) ensures KeyLe(f.key, x.key) {
        KeyOrder(f.key, fields[0].key, x.key);
        KeyOrder(x.key, x.key, x.key);
      }
    }
  }

  lemma {:induction false} InsertDistinct(f: Field, fields: seq<Field>)
    requires DistinctKeys(fields) && forall x :: x in fields ==> x.key != f.key
    ensures DistinctKeys(Insert(f, fields))
  {
    if fields != [] {
      if KeyLe(f.key, fields[0].key) {
        assert forall i :: 0 <= i < |fields| ==> fields[i] in fields;
      } else {
        var rest := Insert(f, fields[1..]);
        InsertDistinct(f, fields[1..]);
        InsertMeaning(f, fields[1..]);
        forall i | 0 <= i < |rest| ensures rest[i].key != fields[0].key {
          assert rest[i] in rest;
          assert fields[0] in fields;
        }
      }
    }
  }

  lemma {:induction false} SortMeaning(fields: seq<Field>)
    ensures forall x :: x in Sort(fields) <==> x in fields
    ensures KeySorted(Sort(fields))
    ensures DistinctKeys(fields) ==> DistinctKeys(Sort(fields))
  {
    if fields != [] {
      SortMeaning(fields[1..]);
      InsertMeaning(fields[0], Sort(fields[1..]));
      assert fields == [fields[0]] + fields[1..];
      if DistinctKeys(fields) {
        forall x | x in fields[1..] ensures x.key != fields[0].key {
          var i :| 0 <= i < |fields[1..]| && fields[1..][i] == x;
          assert fields[i + 1] == x;
        }
        InsertDistinct(fields[0], Sort(fields[1..]));
      }
    }
  }

  /** Sorting a list that is already sorted changes nothing. */
  lemma {:induction false} SortSorted(fields: seq<Field>)
    requires KeySorted(fields)
    ensures Sort(fields) == fields
  {
    if fields != [] {
      SortSorted(fields[1..]);
      assert fields == [fields[0]] + fields[1..];
    }
  }

  /** A sorted list with distinct keys is determined by its members. */
  lemma {:induction false} SortedUnique(a: seq<Field>, b: seq<Field>)
    requires KeySorted(a) && KeySorted(b) && DistinctKeys(a) && DistinctKeys(b)
    requires forall x :: x in a <==> x in b
    ensures a == b
  {
    EmptyOrMember(a);
    EmptyOrMember(b);
    if a != [] {
      assert a[0] in b && b != [] && b[0] in a;
      HeadIsLeast(a, b[0]);
      HeadIsLeast(b, a[0]);
      KeyOrder(a[0].key, b[0].key, a[0].key);
      SameHead(a, b);
      forall x ensures x in a[1..] <==> x in b[1..] {
        TailMember(a, x);
        TailMember(b, x);
      }
      SortedUnique(a[1..], b[1..]);
      assert a == [a[0]] + a[1..] && b == [b[0]] + b[1..];
    }
  }

  lemma HeadIsLeast(a: seq<Field>, x: Field)
    requires KeySorted(a) && x in a
    ensures KeyLe(a[0].key, x.key)
  {
    KeyOrder(x.key, x.key, x.key);
  }

  lemma SameHead(a: seq<Field>, b: seq<Field>)
    requires a != [] && b != [] && a[0].key == b[0].key && b[0] in a && DistinctKeys(a)
    ensures a[0] == b[0]
  {
  }

  lemma TailMember(a: seq<Field>, x: Field)
    requires a != [] && DistinctKeys(a)
    ensures x in a[1..] <==> x in a && x != a[0]
  {
    assert a == [a[0]] + a[1..];
    if x in a[1..] {
      var i :| 0 <= i < |a[1..]| && a[1..][i] == x;
      assert a[i + 1] == x;
    }
  }

  // ---------- idempotence ----------

  /** Canonicalising twice is canonicalising once. */
  lemma {:induction false} CanonIdempotent(v: Json)
    ensures Canon(Canon(v)) == Canon(v)
  {
    match v
    case Arr(items) =>
      forall i | 0 <= i < |items| ensures Canon(Canon(items[i])) == Canon(items[i]) {
        CanonIdempotent(items[i]);
      }
      assert CanonItems(CanonItems(items)) == CanonItems(items);
    case Obj(fields) =>
      var c := CanonFields(fields);
      forall x | x in c ensures Canon(x.value) == x.value {
        var i :| 0 <= i < |c| && c[i] == x;
        CanonIdempotent(fields[i].value);
      }
      SortMeaning(c);
      var s := Sort(c);
      assert CanonFields(s) == s by {
        forall i | 0 <= i < |s| ensures CanonFields(s)[i] == s[i] {
          assert s[i] in s;
        }
      }
      SortSorted(s);
    case _ =>
  }

  // ---------- equal canonical forms ----------

  lemma CanonFieldsDistinct(fields: seq<Field>)
    requires DistinctKeys(fields)
    ensures DistinctKeys(CanonFields(fields))
  {
  }

  lemma SortsEqualIff(a: seq<Field>, b: seq<Field>)
    requires DistinctKeys(a) && DistinctKeys(b)
    ensures Sort(a) == Sort(b) <==> forall x :: x in a <==> x in b
  {
    SortMeaning(a);
    SortMeaning(b);
    if forall x :: x in a <==> x in b {
      SortedUnique(Sort(a), Sort(b));
    }
  }

  /** `c` is the list `f` with every value canonicalised. */
  ghost predicate Pointwise(c: seq<Field>, f: seq<Field>, canon: Json -> Json) {
    |c| == |f| && forall i :: 0 <= i < |f| ==> c[i] == Field(f[i].key, canon(f[i].value))
  }

  /** Some field of `g` has the key of `x` and a value with the same canonical form. */
  ghost predicate Partner(x: Field, g: seq<Field>, canon: Json -> Json) {
    exists j :: 0 <= j < |g| && x.key == g[j].key && canon(x.value) == canon(g[j].value)
  }

  ghost predicate Matches(f: seq<Field>, g: seq<Field>, canon: Json -> Json) {
    && (forall i {:trigger Partner(f[i], g, canon)} :: 0 <= i < |f| ==> Partner(f[i], g, canon))
    && (forall j {:trigger HasKey(f, g[j].key)} :: 0 <= j < |g| ==> HasKey(f, g[j].key))
  }

  lemma MemberPartner(f: seq<Field>, g: seq<Field>, cf: seq<Field>, cg: seq<Field>, canon: Json -> Json, i: nat)
    requires Pointwise(cf, f, canon) && Pointwise(cg, g, canon) && i < |f|
    ensures Partner(f[i], g, canon) <==> cf[i] in cg
  {
    if Partner(f[i], g, canon) {
      var j :| 0 <= j < |g| && f[i].key == g[j].key && canon(f[i].value) == canon(g[j].value);
      assert cg[j] == cf[i];
    }
    if cf[i] in cg {
      var j :| 0 <= j < |cg| && cg[j] == cf[i];
    }
  }

  lemma SameMembersMatch(f: seq<Field>, g: seq<Field>, cf: seq<Field>, cg: seq<Field>, canon: Json -> Json)
    requires Pointwise(cf, f, canon) && Pointwise(cg, g, canon)
    requires forall x :: x in cf <==> x in cg
    ensures Matches(f, g, canon)
  {
    forall i | 0 <= i < |f| ensures Partner(f[i], g, canon) {
      MemberPartner(f, g, cf, cg, canon, i);
      assert cf[i] in cf;
    }
    forall j | 0 <= j < |g| ensures HasKey(f, g[j].key) {
      assert cg[j] in cf;
      var i :| 0 <= i < |cf| && cf[i] == cg[j];
    }
  }

  lemma MatchBackward(f: seq<Field>, g: seq<Field>, cf: seq<Field>, cg: seq<Field>, canon: Json -> Json, j: nat)
    requires Pointwise(cf, f, canon) && Pointwise(cg, g, canon) && Matches(f, g, canon) && DistinctKeys(g) && j < |g|
    ensures cg[j] in cf
  {
    assert HasKey(f, g[j].key);
    var i :| 0 <= i < |f| && f[i].key == g[j].key;
    assert Partner(f[i], g, canon);
    var k :| 0 <= k < |g| && f[i].key == g[k].key && canon(f[i].value) == canon(g[k].value);
    assert k == j;
    assert cf[i] == cg[j];
  }

  lemma MatchSameMembers(f: seq<Field>, g: seq<Field>, cf: seq<Field>, cg: seq<Field>, canon: Json -> Json)
    requires Pointwise(cf, f, canon) && Pointwise(cg, g, canon) && Matches(f, g, canon) && DistinctKeys(g)
    ensures forall x :: x in cf <==> x in cg
  {
    forall i | 0 <= i < |cf| ensures cf[i] in cg {
      assert Partner(f[i], g, canon);
      MemberPartner(f, g, cf, cg, canon, i);
    }
    forall j | 0 <= j < |cg| ensures cg[j] in cf {
      MatchBackward(f, g, cf, cg, canon, j);
    }
  }

  lemma MatchesIffSame(f: seq<Field>, g: seq<Field>, canon: Json -> Json)
    requires forall i, j :: 0 <= i < |f| && 0 <= j < |g| ==>
      (canon(f[i].value) == canon(g[j].value) <==> SameUpToKeyOrder(f[i].value, g[j].value))
    ensures Matches(f, g, canon) <==> SameUpToKeyOrder(Obj(f), Obj(g))
  {
    forall i | 0 <= i < |f| ensures Partner(f[i], g, canon) <==> SameField(f[i], g) {
    }
  }

  lemma FieldsEqualIff(f: seq<Field>, g: seq<Field>, cf: seq<Field>, cg: seq<Field>, canon: Json -> Json)
    requires DistinctKeys(g) && Pointwise(cf, f, canon) && Pointwise(cg, g, canon)
    ensures (forall x :: x in cf <==> x in cg) <==> Matches(f, g, canon)
  {
    if forall x :: x in cf <==> x in cg {
      SameMembersMatch(f, g, cf, cg, canon);
    }
    if Matches(f, g, canon) {
      MatchSameMembers(f, g, cf, cg, canon);
    }
  }

  lemma ObjectsEqualIff(f: seq<Field>, g: seq<Field>)
    requires DistinctKeys(f) && DistinctKeys(g)
    requires forall i, j :: 0 <= i < |f| && 0 <= j < |g| ==>
      (Canon(f[i].value) == Canon(g[j].value) <==> SameUpToKeyOrder(f[i].value, g[j].value))
    ensures Canon(Obj(f)) == Canon(Obj(g)) <==> SameUpToKeyOrder(Obj(f), Obj(g))
  {
    var cf, cg, canon := CanonFields(f), CanonFields(g), v => Canon(v);
    CanonFieldsDistinct(f);
    CanonFieldsDistinct(g);
    SortsEqualIff(cf, cg);
    FieldsEqualIff(f, g, cf, cg, canon);
    MatchesIffSame(f, g, canon);
  }

  lemma ArraysEqualIff(a: seq<Json>, b: seq<Json>)
    requires forall i :: 0 <= i < |a| && i < |b| ==> (Canon(a[i]) == Canon(b[i]) <==> SameUpToKeyOrder(a[i], b[i]))
    ensures Canon(Arr(a)) == Canon(Arr(b)) <==> SameUpToKeyOrder(Arr(a), Arr(b))
  {
    var ca, cb := CanonItems(a), CanonItems(b);
    if ca == cb {
      forall i | 0 <= i < |a| ensures Canon(a[i]) == Canon(b[i]) {
        assert ca[i] == cb[i];
      }
    }
  }

  /** Two values have equal canonical forms exactly when they differ only in key order, at any depth. */
  lemma {:induction false} CanonIff(v: Json, w: Json)
    requires WellFormed(v) && WellFormed(w)
    ensures Canon(v) == Canon(w) <==> SameUpToKeyOrder(v, w)
    decreases v
  {
    match (v, w)
    case (Arr(a), Arr(b)) =>
      forall i | 0 <= i < |a| && i < |b| ensures Canon(a[i]) == Canon(b[i]) <==> SameUpToKeyOrder(a[i], b[i]) {
        CanonIff(a[i], b[i]);
      }
      ArraysEqualIff(a, b);
    case (Obj(f), Obj(g)) =>
      forall i, j | 0 <= i < |f| && 0 <= j < |g|
        ensures Canon(f[i].value) == Canon(g[j].value) <==> SameUpToKeyOrder(f[i].value, g[j].value)
      {
        CanonIff(f[i].value, g[j].value);
      }
      ObjectsEqualIff(f, g);
    case (_, _) =>
  }
}
