/** Canonical JSON: object fields in key order at every depth. */
module StableHash {
  import opened Json

  // ----- key order -----

  /** Lexicographic order of code points, which is the order of Rust strings. */
  predicate KeyLess(a: string, b: string) {
    b != [] && (a == [] || a[0] < b[0] || (a[0] == b[0] && KeyLess(a[1..], b[1..])))
  }

  lemma {:induction false} KeyOrderTotal(a: string, b: string)
    ensures KeyLess(a, b) || a == b || KeyLess(b, a)
    ensures !(KeyLess(a, b) && KeyLess(b, a)) && !KeyLess(a, a)
  {
    if a != [] {
      KeyOrderTotal(a[1..], a[1..]);
      if b != [] && a[0] == b[0] {
        KeyOrderTotal(a[1..], b[1..]);
        assert a == [a[0]] + a[1..] && b == [b[0]] + b[1..];
      }
    }
  }

  lemma {:induction false} KeyOrderTransitive(a: string, b: string, c: string)
    requires KeyLess(a, b) && KeyLess(b, c)
    ensures KeyLess(a, c)
  {
    if a != [] && a[0] == b[0] && b[0] == c[0] {
      KeyOrderTransitive(a[1..], b[1..], c[1..]);
    }
  }

  // ----- canonicalize_json -----

  /** Insertion into an ordered map: a field with the key is replaced. */
  function InsertField(sorted: seq<Field>, f: Field): seq<Field> {
    if sorted == [] then [f]
    else if KeyLess(f.key, sorted[0].key) then [f] + sorted
    else if f.key == sorted[0].key then [f] + sorted[1..]
    else [sorted[0]] + InsertField(sorted[1..], f)
  }

  function SortFields(fields: seq<Field>): seq<Field> {
    if fields == [] then [] else InsertField(SortFields(fields[..|fields| - 1]), fields[|fields| - 1])
  }

  function Canonical(v: Value): Value {
    match v
    case Obj(fields) => Obj(SortFields(CanonicalFields(fields)))
    case Arr(items) => Arr(CanonicalItems(items))
    case _ => v
  }

  function CanonicalFields(fields: seq<Field>): (out: seq<Field>)
    ensures |out| == |fields|
    ensures forall i :: 0 <= i < |fields| ==> out[i] == Field(fields[i].key, Canonical(fields[i].value))
  {
    if fields == [] then []
    else [Field(fields[0].key, Canonical(fields[0].value))] + CanonicalFields(fields[1..])
  }

  function CanonicalItems(items: seq<Value>): (out: seq<Value>)
    ensures |out| == |items|
    ensures forall i :: 0 <= i < |items| ==> out[i] == Canonical(items[i])
  {
    if items == [] then [] else [Canonical(items[0])] + CanonicalItems(items[1..])
  }

  method CanonicalizeJson(v: Value) returns (out: Value)
    ensures out == Canonical(v)
    decreases v
  {
    match v {
      case Obj(fields) =>
        var sorted: seq<Field> := [];
        for i := 0 to |fields|
          invariant sorted == SortFields(CanonicalFields(fields)[..i])
        {
          var c := CanonicalizeJson(fields[i].value);
          sorted := InsertField(sorted, Field(fields[i].key, c));
          ghost var done := CanonicalFields(fields)[..i + 1];
          assert done[..i] == CanonicalFields(fields)[..i] && done[i] == Field(fields[i].key, c);
        }
        assert CanonicalFields(fields)[..|fields|] == CanonicalFields(fields);
        out := Obj(sorted);
      case Arr(items) =>
        var list: seq<Value> := [];
        for i := 0 to |items|
          invariant |list| == i && forall j :: 0 <= j < i ==> list[j] == Canonical(items[j])
        {
          var c := CanonicalizeJson(items[i]);
          list := list + [c];
        }
        assert list == CanonicalItems(items);
        out := Arr(list);
      case _ =>
        out := v;
    }
  }

  // ----- equality up to the order of fields -----

  predicate UniqueKeys(fields: seq<Field>) {
    forall i, j :: 0 <= i < j < |fields| ==> fields[i].key != fields[j].key
  }

  /** No object of the tree has a key twice; a JSON map cannot. */
  ghost predicate WellFormed(v: Value) {
    match v
    case Obj(fields) => UniqueKeys(fields) && forall i :: 0 <= i < |fields| ==> WellFormed(fields[i].value)
    case Arr(items) => forall i :: 0 <= i < |items| ==> WellFormed(items[i])
    case _ => true
  }

  /** Every field of one object has a partner in the other, and the other way round; arrays agree item by item. */
  ghost predicate SameUpToOrder(a: Value, b: Value)
    decreases a, 1
  {
    match a
    case Obj(_) =>
      && b.Obj?
      && (forall i: nat :: i < |a.fields| ==> PartnerToTheRight(a, b, i))
      && (forall j: nat :: j < |b.fields| ==> PartnerToTheLeft(a, b, j))
    case Arr(items) =>
      && b.Arr? && |items| == |b.items|
      && forall i :: 0 <= i < |items| ==> SameUpToOrder(items[i], b.items[i])
    case _ => a == b
  }

  ghost predicate PartnerToTheRight(a: Value, b: Value, i: nat)
    requires a.Obj? && b.Obj? && i < |a.fields|
    decreases a, 0
  {
    exists j :: 0 <= j < |b.fields| && a.fields[i].key == b.fields[j].key
                && SameUpToOrder(a.fields[i].value, b.fields[j].value)
  }

  ghost predicate PartnerToTheLeft(a: Value, b: Value, j: nat)
    requires a.Obj? && b.Obj? && j < |b.fields|
    decreases a, 0
  {
    exists i :: 0 <= i < |a.fields| && a.fields[i].key == b.fields[j].key
                && SameUpToOrder(a.fields[i].value, b.fields[j].value)
  }

  // ----- sorting fields -----

  ghost predicate Sorted(fields: seq<Field>) {
    forall i, j :: 0 <= i < j < |fields| ==> KeyLess(fields[i].key, fields[j].key)
  }

  lemma {:induction false} InsertFieldSorts(sorted: seq<Field>, f: Field)
    requires Sorted(sorted)
    ensures var out := InsertField(sorted, f);
            && Sorted(out)
            && forall g :: g in out <==> g == f || (g in sorted && g.key != f.key)
  {
    if sorted != [] {
      var out := InsertField(sorted, f);
      KeyOrderTotal(f.key, sorted[0].key);
      if KeyLess(f.key, sorted[0].key) {
        forall j | 0 < j < |out| ensures KeyLess(f.key, out[j].key) {
          if j > 1 {
            KeyOrderTransitive(f.key, sorted[0].key, out[j].key);
          }
        }
        forall g | g in sorted ensures g.key != f.key {
          var j :| 0 <= j < |sorted| && sorted[j] == g;
          assert out[j + 1] == g;
          KeyOrderTotal(f.key, g.key);
        }
      } else if f.key == sorted[0].key {
        forall g | g in sorted[1..] ensures g.key != f.key {
          var j :| 0 < j < |sorted| && sorted[j] == g;
          KeyOrderTotal(f.key, g.key);
        }
      } else {
        InsertFieldSorts(sorted[1..], f);
        var tail := InsertField(sorted[1..], f);
        forall j | 0 <= j < |tail| ensures KeyLess(sorted[0].key, tail[j].key) {
          assert tail[j] in tail;
        }
      }
    }
  }

  lemma {:induction false} SortFieldsSorts(fields: seq<Field>)
    ensures Sorted(SortFields(fields))
    ensures UniqueKeys(fields) ==> forall g :: g in SortFields(fields) <==> g in fields
    ensures forall g :: g in SortFields(fields) ==> g in fields
  {
    if fields != [] {
      var n := |fields| - 1;
      SortFieldsSorts(fields[..n]);
      InsertFieldSorts(SortFields(fields[..n]), fields[n]);
      assert fields == fields[..n] + [fields[n]];
      if UniqueKeys(fields) {
        forall g | g in fields[..n] ensures g.key != fields[n].key {
          var i :| 0 <= i < n && fields[i] == g;
        }
      }
    }
  }

  lemma HeadIsMember(b: seq<Field>)
    ensures b != [] ==> b[0] in b
  {
  }

  /** A sorted list is determined by its members. */
  lemma {:induction false} SortedIsDetermined(a: seq<Field>, b: seq<Field>)
    requires Sorted(a) && Sorted(b) && forall g :: g in a <==> g in b
    ensures a == b
  {
    HeadIsMember(b);
    if a != [] {
      assert a[0] in a && a[0] in b && b[0] in b && b[0] in a;
      var i :| 0 <= i < |b| && b[i] == a[0];
      var j :| 0 <= j < |a| && a[j] == b[0];
      KeyOrderTotal(a[0].key, b[0].key);
      assert a[0] == b[0];
      forall g ensures g in a[1..] <==> g in b[1..] {
        TailMember(a, g);
        TailMember(b, g);
      }
      SortedIsDetermined(a[1..], b[1..]);
      assert a == [a[0]] + a[1..] && b == [b[0]] + b[1..];
    }
  }

  lemma TailMember(a: seq<Field>, g: Field)
    requires a != [] && Sorted(a)
    ensures g in a[1..] <==> g in a && g != a[0]
  {
    if g in a[1..] {
      var i :| 0 < i < |a| && a[i] == g;
      KeyOrderTotal(a[0].key, g.key);
    }
  }

  /** Sorting what is sorted changes nothing. */
  lemma SortedIsFixed(fields: seq<Field>)
    requires Sorted(fields)
    ensures SortFields(fields) == fields
  {
    forall i, j | 0 <= i < j < |fields| ensures fields[i].key != fields[j].key {
      KeyOrderTotal(fields[i].key, fields[j].key);
    }
    SortFieldsSorts(fields);
    SortedIsDetermined(SortFields(fields), fields);
  }

  // ----- canonicalisation decides equality -----

  lemma {:induction false} CanonicalIdempotent(v: Value)
    ensures Canonical(Canonical(v)) == Canonical(v)
    decreases v
  {
    match v {
      case Obj(fields) =>
        var once := CanonicalFields(fields);
        SortFieldsSorts(once);
        var sorted := SortFields(once);
        forall k | 0 <= k < |sorted| ensures Canonical(sorted[k].value) == sorted[k].value {
          assert sorted[k] in sorted && sorted[k] in once;
          var i :| 0 <= i < |once| && once[i] == sorted[k];
          CanonicalIdempotent(fields[i].value);
        }
        assert CanonicalFields(sorted) == sorted;
        SortedIsFixed(sorted);
      case Arr(items) =>
        forall i | 0 <= i < |items| ensures Canonical(Canonical(items[i])) == Canonical(items[i]) {
          CanonicalIdempotent(items[i]);
        }
        assert CanonicalItems(CanonicalItems(items)) == CanonicalItems(items);
      case _ =>
    }
  }

  /** Two JSON trees have the same canonical form exactly when they are equal up to the order of object fields. */
  lemma {:induction false} CanonicalDecidesEquality(a: Value, b: Value)
    requires WellFormed(a) && WellFormed(b)
    ensures Canonical(a) == Canonical(b) <==> SameUpToOrder(a, b)
    decreases a
  {
    match a {
      case Obj(f) =>
        if b.Obj? {
          ObjectsDecided(a, b);
        }
      case Arr(items) =>
        if b.Arr? {
          ArraysDecided(a, b);
        }
      case _ =>
    }
  }

  lemma {:induction false} ArraysDecided(a: Value, b: Value)
    requires a.Arr? && b.Arr? && WellFormed(a) && WellFormed(b)
    ensures Canonical(a) == Canonical(b) <==> SameUpToOrder(a, b)
    decreases a, 0
  {
    var x, y := CanonicalItems(a.items), CanonicalItems(b.items);
    if |a.items| == |b.items| {
      forall i | 0 <= i < |a.items| ensures x[i] == y[i] <==> SameUpToOrder(a.items[i], b.items[i]) {
        CanonicalDecidesEquality(a.items[i], b.items[i]);
      }
      if SameUpToOrder(a, b) {
        assert x == y;
      }
    }
  }

  /** Fields have partners in both directions exactly when their canonical forms are the same set. */
  lemma PartnersAreMembers(a: Value, b: Value, x: seq<Field>, y: seq<Field>)
    requires a.Obj? && b.Obj? && |x| == |a.fields| && |y| == |b.fields|
    requires forall i, j :: 0 <= i < |x| && 0 <= j < |y| ==>
      (x[i] == y[j] <==> a.fields[i].key == b.fields[j].key && SameUpToOrder(a.fields[i].value, b.fields[j].value))
    ensures SameUpToOrder(a, b) <==> (forall h :: h in x <==> h in y)
  {
    forall i: nat | i < |x| ensures PartnerToTheRight(a, b, i) <==> x[i] in y {
      if x[i] in y {
        var j :| 0 <= j < |y| && y[j] == x[i];
        assert a.fields[i].key == b.fields[j].key && SameUpToOrder(a.fields[i].value, b.fields[j].value);
      }
    }
    forall j: nat | j < |y| ensures PartnerToTheLeft(a, b, j) <==> y[j] in x {
      if y[j] in x {
        var i :| 0 <= i < |x| && x[i] == y[j];
        assert a.fields[i].key == b.fields[j].key && SameUpToOrder(a.fields[i].value, b.fields[j].value);
      }
    }
    if forall h :: h in x <==> h in y {
      forall i: nat | i < |x| ensures PartnerToTheRight(a, b, i) {
        assert x[i] in x;
      }
      forall j: nat | j < |y| ensures PartnerToTheLeft(a, b, j) {
        assert y[j] in y;
      }
    }
  }

  lemma SortingForgetsOrder(x: seq<Field>, y: seq<Field>)
    requires UniqueKeys(x) && UniqueKeys(y)
    ensures SortFields(x) == SortFields(y) <==> (forall h :: h in x <==> h in y)
  {
    SortFieldsSorts(x);
    SortFieldsSorts(y);
    if forall h :: h in x <==> h in y {
      SortedIsDetermined(SortFields(x), SortFields(y));
    } else {
      var h :| !(h in x <==> h in y);
      assert !(h in SortFields(x) <==> h in SortFields(y));
    }
  }

  lemma {:induction false} ObjectsDecided(a: Value, b: Value)
    requires a.Obj? && b.Obj? && WellFormed(a) && WellFormed(b)
    ensures Canonical(a) == Canonical(b) <==> SameUpToOrder(a, b)
    decreases a, 0
  {
    var x, y := CanonicalFields(a.fields), CanonicalFields(b.fields);
    forall i, j | 0 <= i < |x| && 0 <= j < |y|
      ensures x[i] == y[j] <==>
              a.fields[i].key == b.fields[j].key && SameUpToOrder(a.fields[i].value, b.fields[j].value)
    {
      CanonicalDecidesEquality(a.fields[i].value, b.fields[j].value);
    }
    PartnersAreMembers(a, b, x, y);
    SortingForgetsOrder(x, y);
  }
}
