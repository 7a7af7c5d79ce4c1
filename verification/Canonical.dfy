/**
  The canonical form used to compare schema fixtures: arrays whose items all have a
  sort key are sorted, every other array keeps its order.
 */
module Canonical {
  import opened Text
  import opened JsonValue
  import opened Serializer
  import opened PrettyText

  /** The key an item is sorted by; arrays and untitled, unreferencing objects have none. */
  function SortKey(item: Json): Option<string> {
    match item
    case Null => Some("null")
    case Bool(b) => Some(if b then "b:true" else "b:false")
    case Num(n) => Some("n:" + n)
    case Str(s) => Some("s:" + s)
    case Obj(_) =>
      (match GetStr(item, "$ref")
       case Some(reference) => Some("ref:" + reference)
       case None =>
         match GetStr(item, "title")
         case Some(title) => Some("title:" + title)
         case None => None)
    case Arr(_) => None
  }

  predicate AllKeyed(xs: seq<Json>) {
    forall i | 0 <= i < |xs| :: SortKey(xs[i]).Some?
  }

  // ---- What the keys mean ----

  predicate HasText(m: map<string, Json>, key: string) { key in m && m[key].Str? }

  /** The items whose order is not significant: scalars, and objects that refer to something or have a title. */
  predicate Orderable(item: Json) {
    match item
    case Arr(_) => false
    case Obj(m) => HasText(m, "$ref") || HasText(m, "title")
    case _ => true
  }

  predicate AllOrderable(xs: seq<Json>) { forall i | 0 <= i < |xs| :: Orderable(xs[i]) }

  /** The kinds in order: booleans, numbers, null, refs, strings, titled objects. */
  function Kind(item: Json): nat {
    match item
    case Bool(_) => 0
    case Num(_) => 1
    case Null => 2
    case Obj(m) => if HasText(m, "$ref") then 3 else 5
    case Str(_) => 4
    case Arr(_) => 6
  }

  /** What an item is ordered by within its kind; a ref goes before a title. */
  function Label(item: Json): string {
    match item
    case Bool(b) => if b then "true" else "false"
    case Num(n) => n
    case Str(s) => s
    case Obj(m) => if HasText(m, "$ref") then m["$ref"].text else if HasText(m, "title") then m["title"].text else ""
    case _ => ""
  }

  /** By kind, then by label, then by the whole text. */
  predicate Ahead(a: Json, b: Json) {
    if Kind(a) != Kind(b) then Kind(a) < Kind(b)
    else if Label(a) != Label(b) then Leq(Label(a), Label(b))
    else Leq(JsonText(a), JsonText(b))
  }

  lemma KeyedExactly(item: Json)
    ensures SortKey(item).Some? <==> Orderable(item)
  {
  }

  lemma AllKeyedExactly(xs: seq<Json>)
    ensures AllKeyed(xs) <==> AllOrderable(xs)
  {
    forall i | 0 <= i < |xs| ensures SortKey(xs[i]).Some? <==> Orderable(xs[i]) { KeyedExactly(xs[i]); }
  }

  /** The prefix the source writes before each kind of key. */
  function Prefix(kind: nat): string {
    if kind == 0 then "b:" else if kind == 1 then "n:" else if kind == 2 then "null"
    else if kind == 3 then "ref:" else if kind == 4 then "s:" else "title:"
  }

  lemma KeyShape(item: Json)
    requires Orderable(item)
    ensures SortKey(item) == Some(Prefix(Kind(item)) + Label(item))
  {
    match item
    case Bool(b) => assert "b:" + "true" == "b:true" && "b:" + "false" == "b:false";
    case Null => assert "null" + "" == "null";
    case _ =>
  }

  lemma {:induction false} LeqPrefix(p: string, x: string, y: string)
    ensures Leq(p + x, p + y) <==> Leq(x, y)
  {
    if p == [] {
      assert p + x == x && p + y == y;
    } else {
      assert (p + x)[0] == p[0] && (p + y)[0] == p[0] && (p + x)[1..] == p[1..] + x && (p + y)[1..] == p[1..] + y;
      LeqPrefix(p[1..], x, y);
    }
  }

  /** Keys of different kinds are ordered by their first two characters. */
  lemma KindsApart(i: nat, j: nat, x: string, y: string)
    requires i < j < 6
    ensures Leq(Prefix(i) + x, Prefix(j) + y) && !Leq(Prefix(j) + y, Prefix(i) + x)
  {
    var a, b := Prefix(i) + x, Prefix(j) + y;
    assert a[0] == Prefix(i)[0] && b[0] == Prefix(j)[0] && a[1] == Prefix(i)[1] && b[1] == Prefix(j)[1];
    assert a[1..][0] == a[1] && b[1..][0] == b[1];
  }

  /** MAIN: the order on keys is the order on kinds and labels. */
  lemma BeforeExactly(a: Json, b: Json)
    requires Orderable(a) && Orderable(b)
    ensures SortKey(a).Some? && SortKey(b).Some? && (Before(a, b) <==> Ahead(a, b))
  {
    KeyShape(a); KeyShape(b);
    var p, q := Prefix(Kind(a)), Prefix(Kind(b));
    if Kind(a) == Kind(b) {
      LeqPrefix(p, Label(a), Label(b));
      assert p + Label(a) == p + Label(b) <==> Label(a) == Label(b) by {
        assert (p + Label(a))[|p|..] == Label(a) && (p + Label(b))[|p|..] == Label(b);
      }
    } else if Kind(a) < Kind(b) {
      KindsApart(Kind(a), Kind(b), Label(a), Label(b));
    } else {
      KindsApart(Kind(b), Kind(a), Label(b), Label(a));
    }
  }

  // ---- The order: sort key first, then the item's text ----

  predicate Before(a: Json, b: Json)
    requires SortKey(a).Some? && SortKey(b).Some?
  {
    var ka, kb := SortKey(a).value, SortKey(b).value;
    if ka == kb then Leq(JsonText(a), JsonText(b)) else Leq(ka, kb)
  }

  lemma BeforeTotal(a: Json, b: Json)
    requires SortKey(a).Some? && SortKey(b).Some?
    ensures Before(a, b) || Before(b, a)
  {
    LeqTotal(SortKey(a).value, SortKey(b).value);
    LeqTotal(JsonText(a), JsonText(b));
  }

  lemma BeforeTrans(a: Json, b: Json, c: Json)
    requires SortKey(a).Some? && SortKey(b).Some? && SortKey(c).Some?
    requires Before(a, b) && Before(b, c)
    ensures Before(a, c)
  {
    var ka, kb, kc := SortKey(a).value, SortKey(b).value, SortKey(c).value;
    if ka == kb && kb == kc {
      LeqTrans(JsonText(a), JsonText(b), JsonText(c));
    } else if ka != kb && kb != kc {
      LeqTrans(ka, kb, kc);
      if ka == kc { LeqAntisym(ka, kb); }
    }
  }

  /** Ties are broken by the text, and the text determines the item. */
  lemma BeforeAntisym(a: Json, b: Json)
    requires SortKey(a).Some? && SortKey(b).Some?
    requires Before(a, b) && Before(b, a)
    ensures a == b
  {
    var ka, kb := SortKey(a).value, SortKey(b).value;
    if ka != kb { LeqAntisym(ka, kb); }
    LeqAntisym(JsonText(a), JsonText(b));
    JsonTextInjective(a, b);
  }

  // ---- Sorting ----

  ghost predicate Sorted(xs: seq<Json>)
    requires AllKeyed(xs)
  {
    forall i, j | 0 <= i < j < |xs| :: Before(xs[i], xs[j])
  }

  function Insert(x: Json, xs: seq<Json>): (r: seq<Json>)
    requires SortKey(x).Some? && AllKeyed(xs)
    ensures multiset(r) == multiset{x} + multiset(xs)
    ensures AllKeyed(r)
  {
    if xs == [] then [x]
    else if Before(x, xs[0]) then [x] + xs
    else
      assert xs == [xs[0]] + xs[1..];
      [xs[0]] + Insert(x, xs[1..])
  }

  lemma {:induction false} InsertSorted(x: Json, xs: seq<Json>)
    requires SortKey(x).Some? && AllKeyed(xs) && Sorted(xs)
    ensures Sorted(Insert(x, xs))
  {
    if xs != [] {
      if Before(x, xs[0]) {
        forall i | 0 <= i < |xs| ensures Before(x, xs[i]) {
          if i > 0 { BeforeTrans(x, xs[0], xs[i]); }
        }
      } else {
        BeforeTotal(x, xs[0]);
        var rest := Insert(x, xs[1..]);
        InsertSorted(x, xs[1..]);
        forall i | 0 <= i < |rest| ensures Before(xs[0], rest[i]) {
          assert rest[i] in multiset(rest);
          if rest[i] != x {
            assert rest[i] in xs[1..];
          }
        }
      }
    }
  }

  /** The items in order; by `SortedUnique` any sorting algorithm yields the same list. */
  function Sort(xs: seq<Json>): (r: seq<Json>)
    requires AllKeyed(xs)
    ensures multiset(r) == multiset(xs) && AllKeyed(r)
  {
    if xs == [] then []
    else
      assert xs == [xs[0]] + xs[1..];
      Insert(xs[0], Sort(xs[1..]))
  }

  lemma {:induction false} SortSorted(xs: seq<Json>)
    requires AllKeyed(xs)
    ensures Sorted(Sort(xs))
  {
    if xs != [] {
      SortSorted(xs[1..]);
      InsertSorted(xs[0], Sort(xs[1..]));
    }
  }

  lemma HeadTail<T>(xs: seq<T>)
    requires xs != []
    ensures multiset(xs) == multiset{xs[0]} + multiset(xs[1..])
  {
    assert xs == [xs[0]] + xs[1..];
  }

  lemma HeadLeast(xs: seq<Json>, y: Json)
    requires AllKeyed(xs) && Sorted(xs) && y in xs
    ensures Before(xs[0], y)
  {
    BeforeTotal(y, y);
  }

  lemma HeadsAgree(xs: seq<Json>, ys: seq<Json>)
    requires xs != [] && ys != []
    requires AllKeyed(xs) && AllKeyed(ys) && Sorted(xs) && Sorted(ys)
    requires multiset(xs) == multiset(ys)
    ensures xs[0] == ys[0]
  {
    assert xs[0] in multiset(ys) && ys[0] in multiset(xs);
    HeadLeast(xs, ys[0]); HeadLeast(ys, xs[0]);
    BeforeAntisym(xs[0], ys[0]);
  }

  /** There is one sorted arrangement of a multiset of items. */
  lemma {:induction false} SortedUnique(xs: seq<Json>, ys: seq<Json>)
    requires AllKeyed(xs) && AllKeyed(ys) && Sorted(xs) && Sorted(ys)
    requires multiset(xs) == multiset(ys)
    ensures xs == ys
    decreases |xs|, 1
  {
    assert |multiset(xs)| == |xs| && |multiset(ys)| == |ys|;
    if xs != [] {
      HeadsAgree(xs, ys);
      HeadTail(xs); HeadTail(ys);
      CancelOne(xs[0], multiset(xs[1..]), multiset(ys[1..]));
      TailsUnique(xs, ys);
    }
  }

  lemma {:induction false} TailsUnique(xs: seq<Json>, ys: seq<Json>)
    requires xs != [] && ys != [] && xs[0] == ys[0]
    requires AllKeyed(xs) && AllKeyed(ys) && Sorted(xs) && Sorted(ys)
    requires multiset(xs[1..]) == multiset(ys[1..])
    ensures xs == ys
    decreases |xs|, 0
  {
    SortedUnique(xs[1..], ys[1..]);
    assert xs == [xs[0]] + xs[1..] && ys == [ys[0]] + ys[1..];
  }

  lemma SortOfPermutation(xs: seq<Json>, ys: seq<Json>)
    requires AllKeyed(xs) && AllKeyed(ys)
    ensures Sort(xs) == Sort(ys) <==> multiset(xs) == multiset(ys)
  {
    SortSorted(xs); SortSorted(ys);
    if multiset(xs) == multiset(ys) { SortedUnique(Sort(xs), Sort(ys)); }
  }

  /** MAIN: sorting gives the items, each as often as before, in that order. */
  lemma SortExactly(xs: seq<Json>)
    requires AllKeyed(xs)
    ensures multiset(Sort(xs)) == multiset(xs)
    ensures forall i, j | 0 <= i < j < |Sort(xs)| :: Ahead(Sort(xs)[i], Sort(xs)[j])
  {
    var r := Sort(xs);
    SortSorted(xs);
    AllKeyedExactly(r);
    forall i, j | 0 <= i < j < |r| ensures Ahead(r[i], r[j]) { BeforeExactly(r[i], r[j]); }
  }

  // ---- The canonical form ----

  function Canon(v: Json): Json
    decreases v, 1
  {
    match v
    case Arr(xs) => Arr(Arranged(CanonAll(xs)))
    case Obj(m) => Obj(map k | k in m :: Canon(m[k]))
    case _ => v
  }

  function CanonAll(xs: seq<Json>): (r: seq<Json>)
    ensures |r| == |xs| && forall i | 0 <= i < |xs| :: r[i] == Canon(xs[i])
    decreases xs, 0
  {
    seq(|xs|, i requires 0 <= i < |xs| => Canon(xs[i]))
  }

  function Arranged(xs: seq<Json>): seq<Json> {
    if AllKeyed(xs) then Sort(xs) else xs
  }

  /** The recursion as written in the source. */
  method Canonicalize(v: Json) returns (r: Json)
    ensures r == Canon(v)
    decreases v, 2
  {
    match v
    case Arr(xs) => r := CanonicalizeArray(xs);
    case Obj(m) => r := CanonicalizeObject(v);
    case _ => r := v;
  }

  /** Canonicalise the items; give up sorting at the first one without a key. */
  method CanonicalizeArray(xs: seq<Json>) returns (r: Json)
    ensures r == Canon(Arr(xs))
    decreases xs, 1
  {
    var items := CanonicalizeItems(xs);
    items := SortIfKeyed(items);
    r := Arr(items);
  }

  method CanonicalizeItems(xs: seq<Json>) returns (items: seq<Json>)
    ensures items == CanonAll(xs)
    decreases xs, 0
  {
    items := [];
    for i := 0 to |xs|
      invariant |items| == i && forall k | 0 <= k < i :: items[k] == Canon(xs[k])
    {
      var item := Canonicalize(xs[i]);
      items := items + [item];
    }
  }

  /** Sorting is given up at the first item without a key. */
  method SortIfKeyed(items: seq<Json>) returns (r: seq<Json>)
    ensures r == Arranged(items)
  {
    for i := 0 to |items|
      invariant forall k | 0 <= k < i :: SortKey(items[k]).Some?
    {
      if SortKey(items[i]).None? { return items; }
    }
    r := Sort(items);
  }

  method CanonicalizeObject(v: Json) returns (r: Json)
    requires v.Obj?
    ensures r == Canon(v)
    decreases v, 1
  {
    var entries := SortedKeys(v.fields.Keys);
    var sorted: map<string, Json> := map[];
    for i := 0 to |entries|
      invariant forall k | 0 <= k < i :: entries[k] in sorted
      invariant forall k | k in sorted :: k in v.fields && sorted[k] == Canon(v.fields[k])
    {
      var child := Canonicalize(v.fields[entries[i]]);
      sorted := sorted[entries[i] := child];
    }
    assert forall k | k in v.fields :: k in entries;
    assert sorted == Canon(v).fields;
    r := Obj(sorted);
  }

  // ---- What the canonical form forgets ----

  /** The two values differ only in the order of arrays of orderable items, at any depth. */
  ghost predicate Equiv(v: Json, w: Json)
    decreases v, 1
  {
    match v
    case Arr(xs) =>
      w.Arr? && (AllOrderable(xs) <==> AllOrderable(w.items)) &&
      if AllOrderable(xs) then Reordered(xs, w.items) else Pointwise(xs, w.items)
    case Obj(m) => w.Obj? && w.fields.Keys == m.Keys && forall k | k in m :: Equiv(m[k], w.fields[k])
    case _ => v == w
  }

  ghost predicate Pointwise(xs: seq<Json>, ys: seq<Json>)
    decreases xs, 0
  {
    |xs| == |ys| && forall i | 0 <= i < |xs| :: Equiv(xs[i], ys[i])
  }

  /** The items of `xs` can be matched one by one with those of `ys`. */
  ghost predicate Reordered(xs: seq<Json>, ys: seq<Json>)
    decreases xs, 0
  {
    if xs == [] then ys == []
    else exists j | 0 <= j < |ys| :: Equiv(xs[0], ys[j]) && Reordered(xs[1..], Without(ys, j))
  }

  ghost function Without<T>(xs: seq<T>, j: nat): seq<T>
    requires j < |xs|
  {
    xs[..j] + xs[j + 1..]
  }

  lemma WithoutMultiset<T>(xs: seq<T>, j: nat)
    requires j < |xs|
    ensures multiset(xs) == multiset{xs[j]} + multiset(Without(xs, j))
  {
    assert xs == xs[..j] + ([xs[j]] + xs[j + 1..]);
  }

  lemma WithoutAt<T>(xs: seq<T>, j: nat, i: nat)
    requires j < |xs| && i < |xs| - 1
    ensures |Without(xs, j)| == |xs| - 1
    ensures Without(xs, j)[i] == if i < j then xs[i] else xs[i + 1]
  {
  }

  lemma WithoutCanonAll(xs: seq<Json>, j: nat)
    requires j < |xs|
    ensures CanonAll(Without(xs, j)) == Without(CanonAll(xs), j)
  {
    var a, b := CanonAll(Without(xs, j)), Without(CanonAll(xs), j);
    forall i | 0 <= i < |a| ensures a[i] == b[i] {
      WithoutAt(xs, j, i); WithoutAt(CanonAll(xs), j, i);
    }
  }

  /** Canonicalising an item does not move its sort key. */
  lemma CanonKeepsKey(v: Json)
    ensures SortKey(Canon(v)) == SortKey(v)
  {
    if v.Obj? {
      assert forall k | k in v.fields && v.fields[k].Str? :: Canon(v.fields[k]) == v.fields[k];
      assert forall k | k in v.fields && Canon(v.fields[k]).Str? :: v.fields[k].Str?;
    }
  }

  lemma CanonKeepsKeyed(xs: seq<Json>)
    ensures AllKeyed(CanonAll(xs)) <==> AllKeyed(xs)
  {
    forall i | 0 <= i < |xs| ensures SortKey(CanonAll(xs)[i]) == SortKey(xs[i]) { CanonKeepsKey(xs[i]); }
  }

  /** MAIN: equal canonical forms mean exactly "the same up to reordering arrays of orderable items". */
  lemma {:induction false} CanonCompleteInvariant(v: Json, w: Json)
    ensures Canon(v) == Canon(w) <==> Equiv(v, w)
    decreases v, 2
  {
    match v
    case Arr(xs) =>
      if w.Arr? { ArraysAgree(xs, w.items); }
    case Obj(m) =>
      if w.Obj? {
        forall k | k in m && k in w.fields ensures Canon(m[k]) == Canon(w.fields[k]) <==> Equiv(m[k], w.fields[k]) {
          CanonCompleteInvariant(m[k], w.fields[k]);
        }
        var c, d := Canon(v).fields, Canon(w).fields;
        assert c.Keys == m.Keys && d.Keys == w.fields.Keys;
        if Canon(v) == Canon(w) {
          forall k | k in m ensures k in w.fields && Equiv(m[k], w.fields[k]) { assert c[k] == d[k]; }
        }
        if Equiv(v, w) { assert c == d; }
      }
    case _ =>
  }

  lemma {:induction false} ArraysAgree(xs: seq<Json>, ys: seq<Json>)
    ensures Canon(Arr(xs)) == Canon(Arr(ys)) <==> Equiv(Arr(xs), Arr(ys))
    decreases xs, 1
  {
    var cx, cy := CanonAll(xs), CanonAll(ys);
    CanonKeepsKeyed(xs); CanonKeepsKeyed(ys);
    AllKeyedExactly(xs); AllKeyedExactly(ys);
    if AllKeyed(xs) && AllKeyed(ys) {
      SortOfPermutation(cx, cy);
      ReorderedIsPermutation(xs, ys);
    } else if !AllKeyed(xs) && !AllKeyed(ys) {
      if |xs| == |ys| {
        forall i | 0 <= i < |xs| ensures cx[i] == cy[i] <==> Equiv(xs[i], ys[i]) {
          CanonCompleteInvariant(xs[i], ys[i]);
        }
      }
    } else if AllKeyed(xs) {
      assert AllKeyed(Sort(cx));
    } else {
      assert AllKeyed(Sort(cy));
    }
  }

  lemma {:induction false} ReorderedIsPermutation(xs: seq<Json>, ys: seq<Json>)
    ensures Reordered(xs, ys) <==> multiset(CanonAll(xs)) == multiset(CanonAll(ys))
    decreases xs, 0
  {
    var cx, cy := CanonAll(xs), CanonAll(ys);
    if xs == [] {
      assert |multiset(cy)| == |ys|;
    } else {
      HeadTail(cx);
      assert cx[1..] == CanonAll(xs[1..]);
      forall j | 0 <= j < |ys|
        ensures Equiv(xs[0], ys[j]) <==> cx[0] == cy[j]
        ensures Reordered(xs[1..], Without(ys, j)) <==> multiset(cx[1..]) == multiset(Without(cy, j))
      {
        CanonCompleteInvariant(xs[0], ys[j]);
        ReorderedIsPermutation(xs[1..], Without(ys, j));
        WithoutCanonAll(ys, j);
      }
      FirstMatched(cx, cy);
    }
  }

  /** Two lists are permutations when the head of one can be matched and the rests are. */
  lemma FirstMatched<T>(xs: seq<T>, ys: seq<T>)
    requires xs != []
    ensures multiset(xs) == multiset(ys) <==>
            exists j | 0 <= j < |ys| :: xs[0] == ys[j] && multiset(xs[1..]) == multiset(Without(ys, j))
  {
    HeadTail(xs);
    forall j | 0 <= j < |ys| ensures multiset(ys) == multiset{ys[j]} + multiset(Without(ys, j)) {
      WithoutMultiset(ys, j);
    }
    if multiset(xs) == multiset(ys) {
      assert xs[0] in multiset(ys);
      var j :| 0 <= j < |ys| && ys[j] == xs[0];
      CancelOne(xs[0], multiset(xs[1..]), multiset(Without(ys, j)));
    }
  }

  lemma CancelOne<T>(x: T, m: multiset<T>, n: multiset<T>)
    requires multiset{x} + m == multiset{x} + n
    ensures m == n
  {
    assert m == (multiset{x} + m) - multiset{x};
  }

  /**
    MAIN: a canonical array has the canonical items: in order if all are orderable, else
    in the places they had.
   */
  lemma CanonArrayExactly(xs: seq<Json>)
    ensures var c := Canon(Arr(xs));
            && c.Arr? && |c.items| == |xs|
            && (!AllOrderable(xs) ==> forall i | 0 <= i < |xs| :: c.items[i] == Canon(xs[i]))
            && (AllOrderable(xs) ==>
                  && multiset(c.items) == multiset(seq(|xs|, i requires 0 <= i < |xs| => Canon(xs[i])))
                  && forall i, j | 0 <= i < j < |xs| :: Ahead(c.items[i], c.items[j]))
  {
    var cx := CanonAll(xs);
    CanonKeepsKeyed(xs);
    AllKeyedExactly(xs);
    assert cx == seq(|xs|, i requires 0 <= i < |xs| => Canon(xs[i]));
    if AllKeyed(cx) {
      SortExactly(cx);
      assert |multiset(Sort(cx))| == |Sort(cx)| && |multiset(cx)| == |cx|;
    }
  }

  /** A canonical form is its own canonical form. */
  lemma {:induction false} CanonIdempotent(v: Json)
    ensures Canon(Canon(v)) == Canon(v)
  {
    match v
    case Arr(xs) =>
      var cx := CanonAll(xs);
      forall i | 0 <= i < |xs| ensures Canon(cx[i]) == cx[i] { CanonIdempotent(xs[i]); }
      var out := Arranged(cx);
      assert multiset(out) == multiset(cx);
      forall i | 0 <= i < |out| ensures Canon(out[i]) == out[i] {
        assert out[i] in multiset(cx);
      }
      assert CanonAll(out) == out;
      if AllKeyed(cx) { SortOfPermutation(out, cx); }
    case Obj(m) =>
      forall k | k in m ensures Canon(Canon(m[k])) == Canon(m[k]) { CanonIdempotent(m[k]); }
      assert Canon(Canon(v)).fields == Canon(v).fields;
    case _ =>
  }

  /** Canonicalising only reorders: it stays within the class it decides. */
  lemma CanonOnlyReorders(v: Json)
    ensures Equiv(v, Canon(v))
  {
    CanonIdempotent(v);
    CanonCompleteInvariant(v, Canon(v));
  }

  /** The fixture comparison, which compares written canonical forms, decides `Equiv`. */
  lemma CanonicalTextDecides(v: Json, w: Json)
    ensures JsonPretty(Canon(v)) == JsonPretty(Canon(w)) <==> Equiv(v, w)
  {
    CanonCompleteInvariant(v, w);
    if JsonPretty(Canon(v)) == JsonPretty(Canon(w)) { JsonPrettyInjective(Canon(v), Canon(w)); }
  }
}
