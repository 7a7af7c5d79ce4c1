/**
  `$ref`s inside a schema: collecting them, rewriting them, and resolving them as
  JSON Pointers into a definitions map.
 */
module SchemaRefs {
  import opened Text
  import opened JsonValue

  type Defs = map<string, Json>

  const DEFS: string := "#/definitions/"
  const V2: string := DEFS + "v2/"

  // ---- Every `$ref` string of a document ----

  function RefHere(j: Json): set<string> {
    match GetStr(j, "$ref")
    case Some(r) => {r}
    case None => {}
  }

  function Refs(j: Json): set<string> {
    RefHere(j) +
    match j
    case Arr(xs) => set i, r | 0 <= i < |xs| && r in Refs(xs[i]) :: r
    case Obj(m) => set k, r | k in m && r in Refs(m[k]) :: r
    case _ => {}
  }

  /** The document with every `$ref` string rewritten by `f`. */
  function MapRefs(j: Json, f: string -> string): Json {
    match j
    case Arr(xs) => Arr(seq(|xs|, i requires 0 <= i < |xs| => MapRefs(xs[i], f)))
    case Obj(m) => Obj(map k | k in m :: if k == "$ref" && m[k].Str? then Str(f(m[k].text)) else MapRefs(m[k], f))
    case _ => j
  }

  lemma RefsOfField(m: Defs, k: string)
    requires k in m
    ensures Refs(m[k]) <= Refs(Obj(m))
  {
  }

  lemma RefsOfItem(xs: seq<Json>, i: nat)
    requires i < |xs|
    ensures Refs(xs[i]) <= Refs(Arr(xs))
  {
  }

  /** A ref of a rewritten document is a rewritten ref of the document. */
  lemma {:induction false} MappedRefFrom(j: Json, f: string -> string, s: string) returns (r: string)
    requires s in Refs(MapRefs(j, f))
    ensures r in Refs(j) && s == f(r)
  {
    match j
    case Arr(xs) =>
      var ys := MapRefs(j, f).items;
      var i :| 0 <= i < |ys| && s in Refs(ys[i]);
      r := MappedRefFrom(xs[i], f, s);
    case Obj(m) =>
      var n := MapRefs(j, f).fields;
      if s in RefHere(Obj(n)) {
        r := m["$ref"].text;
      } else {
        var k :| k in n && s in Refs(n[k]);
        assert !(k == "$ref" && m[k].Str?);
        r := MappedRefFrom(m[k], f, s);
      }
  }

  /** Each ref of a document appears rewritten in the rewritten document. */
  lemma {:induction false} RefMapped(j: Json, f: string -> string, r: string)
    requires r in Refs(j)
    ensures f(r) in Refs(MapRefs(j, f))
  {
    match j
    case Arr(xs) =>
      var i :| 0 <= i < |xs| && r in Refs(xs[i]);
      RefMapped(xs[i], f, r);
      RefsOfItem(MapRefs(j, f).items, i);
    case Obj(m) =>
      var n := MapRefs(j, f).fields;
      if r in RefHere(j) {
        assert f(r) in RefHere(Obj(n));
      } else {
        var k :| k in m && r in Refs(m[k]);
        RefMapped(m[k], f, r);
        RefsOfField(n, k);
      }
  }

  /** Only what is done to the refs that occur matters. */
  lemma {:induction false} MapAgree(j: Json, f: string -> string, g: string -> string)
    requires forall r | r in Refs(j) :: f(r) == g(r)
    ensures MapRefs(j, f) == MapRefs(j, g)
  {
    match j
    case Arr(xs) =>
      var a, b := MapRefs(j, f).items, MapRefs(j, g).items;
      forall i | 0 <= i < |xs| ensures a[i] == b[i] {
        RefsOfItem(xs, i);
        MapAgree(xs[i], f, g);
      }
    case Obj(m) =>
      var a, b := MapRefs(j, f).fields, MapRefs(j, g).fields;
      forall k | k in m ensures a[k] == b[k] {
        if k == "$ref" && m[k].Str? {
          assert m[k].text in RefHere(j);
        } else {
          RefsOfField(m, k);
          MapAgree(m[k], f, g);
        }
      }
      assert a == b;
    case _ =>
  }

  function Unchanged(r: string): string { r }

  lemma {:induction false} MapUnchanged(j: Json)
    ensures MapRefs(j, Unchanged) == j
  {
    match j
    case Arr(xs) =>
      forall i | 0 <= i < |xs| ensures MapRefs(j, Unchanged).items[i] == xs[i] { MapUnchanged(xs[i]); }
      assert MapRefs(j, Unchanged).items == xs;
    case Obj(m) =>
      forall k | k in m ensures MapRefs(j, Unchanged).fields[k] == m[k] {
        if !(k == "$ref" && m[k].Str?) { MapUnchanged(m[k]); }
      }
      assert MapRefs(j, Unchanged).fields == m;
    case _ =>
  }

  lemma MapFixed(j: Json, f: string -> string)
    requires forall r | r in Refs(j) :: f(r) == r
    ensures MapRefs(j, f) == j
  {
    MapAgree(j, f, Unchanged);
    MapUnchanged(j);
  }

  // ---- Names and pointers ----

  /** A name that is one pointer segment and means itself (RFC 6901, sections 4 and 6). */
  predicate Plain(name: string) {
    '/' !in name && '~' !in name && '%' !in name
  }

  /** The segments of a pointer, split at '/'. */
  function Segments(s: string): seq<string>
    decreases |s|
  {
    match IndexOf(s, '/')
    case None => [s]
    case Some(i) => [s[..i]] + Segments(s[i + 1..])
  }

  function FirstSegment(s: string): string {
    match IndexOf(s, '/')
    case None => s
    case Some(i) => s[..i]
  }

  function Walk(j: Json, path: seq<string>): Option<Json>
    decreases |path|
  {
    if path == [] then Some(j)
    else match Get(j, path[0])
      case None => None
      case Some(child) => Walk(child, path[1..])
  }

  /** What a local `$ref` points at. */
  function Resolve(defs: Defs, ref: string): Option<Json> {
    if DEFS <= ref then Walk(Obj(defs), Segments(ref[|DEFS|..])) else None
  }

  lemma WalkStep(j: Json, key: string, rest: seq<string>)
    ensures Walk(j, [key] + rest) ==
            match Get(j, key) case None => None case Some(child) => Walk(child, rest)
  {
    assert ([key] + rest)[1..] == rest;
  }

  lemma ResolveRoot(defs: Defs, name: string)
    requires Plain(name)
    ensures Resolve(defs, DEFS + name) == if name in defs then Some(defs[name]) else None
  {
    assert (DEFS + name)[|DEFS|..] == name;
    assert Segments(name) == [name] + [];
    WalkStep(Obj(defs), name, []);
  }

  lemma SegmentsV2(name: string)
    requires Plain(name)
    ensures Segments("v2/" + name) == ["v2"] + [name]
  {
    var suffix := "v2/" + name;
    assert suffix == "v2" + ['/'] + name;
    IndexOfFirst("v2", '/', name);
    assert suffix[..2] == "v2" && suffix[3..] == name;
    assert Segments(name) == [name];
  }

  lemma ResolveV2(defs: Defs, name: string)
    requires Plain(name) && "v2" in defs && defs["v2"].Obj?
    ensures Resolve(defs, V2 + name)
            == if name in defs["v2"].fields then Some(defs["v2"].fields[name]) else None
  {
    assert V2 + name == DEFS + ("v2/" + name);
    assert (V2 + name)[|DEFS|..] == "v2/" + name;
    SegmentsV2(name);
    WalkStep(Obj(defs), "v2", [name]);
    assert [name] == [name] + [];
    WalkStep(defs["v2"], name, []);
  }

  /** A plain root name is not in the v2 namespace. */
  lemma RootNotV2(name: string)
    ensures V2 <= DEFS + name ==> '/' in name
  {
    if V2 <= DEFS + name {
      assert (DEFS + name)[|DEFS| + 2] == V2[|DEFS| + 2];
      assert name[2] == '/';
    }
  }

  // ---- What a ref means: unfold it to a given depth ----

  /** The document with every ref replaced by what `mean` says of it. */
  ghost function Expand(j: Json, mean: string -> Json): Json {
    match j
    case Arr(xs) => Arr(seq(|xs|, i requires 0 <= i < |xs| => Expand(xs[i], mean)))
    case Obj(m) => Obj(map k | k in m :: if k == "$ref" && m[k].Str? then mean(m[k].text) else Expand(m[k], mean))
    case _ => j
  }

  type Resolver = string -> Option<Json>

  /** What a ref stands for, `n` levels of refs deep; deeper refs are cut off. */
  ghost function Meaning(look: Resolver, ref: string, n: nat): Json
    decreases n, 0
  {
    if n == 0 then Null
    else match look(ref)
      case None => Str(ref)
      case Some(target) => Expand(target, MeaningAt(look, n - 1))
  }

  ghost function MeaningAt(look: Resolver, n: nat): string -> Json
    decreases n, 1
  {
    (r: string) => Meaning(look, r, n)
  }

  function Look(defs: Defs): Resolver { (r: string) => Resolve(defs, r) }

  /** A document with its refs unfolded `n` levels deep. */
  ghost function Unfold(defs: Defs, j: Json, n: nat): Json { Expand(j, MeaningAt(Look(defs), n)) }

  /** Rewriting refs and giving the new ones the old meanings changes nothing. */
  lemma {:induction false} ExpandMapped(j: Json, u: string -> string, f: string -> Json, g: string -> Json)
    requires forall r | r in Refs(j) :: f(u(r)) == g(r)
    ensures Expand(MapRefs(j, u), f) == Expand(j, g)
  {
    match j
    case Arr(xs) =>
      var a, b := Expand(MapRefs(j, u), f).items, Expand(j, g).items;
      forall i | 0 <= i < |xs| ensures a[i] == b[i] {
        RefsOfItem(xs, i);
        ExpandMapped(xs[i], u, f, g);
      }
    case Obj(m) =>
      var a, b := Expand(MapRefs(j, u), f).fields, Expand(j, g).fields;
      forall k | k in m ensures a[k] == b[k] {
        if k == "$ref" && m[k].Str? {
          assert m[k].text in RefHere(j);
        } else {
          RefsOfField(m, k);
          ExpandMapped(m[k], u, f, g);
        }
      }
      assert a == b;
    case _ =>
  }

  // ---- Simulation ----

  /** From the refs in `p`, following `u(r)` with `a` leads where following `r` with `b` does, refs rewritten by `u`. */
  ghost predicate Simulates(a: Resolver, b: Resolver, u: string -> string, p: iset<string>) {
    forall r | r in p ::
      match b(r)
      case None => a(u(r)) == None && u(r) == r
      case Some(target) => a(u(r)) == Some(MapRefs(target, u)) && forall s | s in Refs(target) :: s in p
  }

  lemma {:induction false} SimulatedMeaning(a: Resolver, b: Resolver, u: string -> string, p: iset<string>, r: string, n: nat)
    requires Simulates(a, b, u, p) && r in p
    ensures Meaning(a, u(r), n) == Meaning(b, r, n)
    decreases n, 0
  {
    if n > 0 && b(r).Some? { SimulatedExpansion(a, b, u, p, b(r).value, n - 1); }
  }

  lemma {:induction false} SimulatedExpansion(a: Resolver, b: Resolver, u: string -> string, p: iset<string>, j: Json, n: nat)
    requires Simulates(a, b, u, p) && forall r | r in Refs(j) :: r in p
    ensures Expand(MapRefs(j, u), MeaningAt(a, n)) == Expand(j, MeaningAt(b, n))
    decreases n, 1
  {
    var f, g := MeaningAt(a, n), MeaningAt(b, n);
    forall r | r in Refs(j) ensures f(u(r)) == g(r) { SimulatedMeaning(a, b, u, p, r, n); }
    ExpandMapped(j, u, f, g);
  }

  /** MAIN: what simulates unfolds alike, to every depth. */
  lemma SimulatedUnfolding(a: Defs, b: Defs, u: string -> string, p: iset<string>, j: Json, n: nat)
    requires Simulates(Look(a), Look(b), u, p) && forall r | r in Refs(j) :: r in p
    ensures Unfold(a, MapRefs(j, u), n) == Unfold(b, j, n)
  {
    SimulatedExpansion(Look(a), Look(b), u, p, j, n);
  }

  // ---- Rust's `str::replace` ----

  function Replace(s: string, pat: string, to: string): string
    requires pat != []
    decreases |s|
  {
    if pat <= s then to + Replace(s[|pat|..], pat, to)
    else if s == [] then []
    else [s[0]] + Replace(s[1..], pat, to)
  }

  lemma {:induction false} ReplaceAbsent(s: string, pat: string, to: string)
    requires pat != [] && !Occurs(pat, s)
    ensures Replace(s, pat, to) == s
  {
    if s != [] {
      ReplaceAbsent(s[1..], pat, to);
      assert s == [s[0]] + s[1..];
    }
  }

  lemma {:induction false} OccursBounds(pat: string, text: string)
    requires Occurs(pat, text)
    ensures multiset(pat) <= multiset(text)
  {
    if pat <= text {
      assert text == pat + text[|pat|..];
    } else {
      OccursBounds(pat, text[1..]);
      assert text == [text[0]] + text[1..];
    }
  }

  function Unversioned(ref: string): string { Replace(ref, V2, DEFS) }

  lemma UnversionedV2(name: string)
    requires Plain(name)
    ensures Unversioned(V2 + name) == DEFS + name
  {
    var r := V2 + name;
    assert V2 <= r && r[|V2|..] == name;
    assert '/' in V2 by { assert V2[|DEFS| + 2] == '/'; }
    assert '/' in multiset(V2);
    if Occurs(V2, name) { OccursBounds(V2, name); }
    ReplaceAbsent(name, V2, DEFS);
  }

  lemma UnversionedRoot(name: string)
    requires Plain(name)
    ensures Unversioned(DEFS + name) == DEFS + name
  {
    if Occurs(V2, DEFS + name) {
      OccursBounds(V2, DEFS + name);
      SlashCounts(name);
    }
    ReplaceAbsent(DEFS + name, V2, DEFS);
  }

  lemma SlashCounts(name: string)
    requires '/' !in name
    ensures multiset(DEFS + name)['/'] < multiset(V2)['/']
  {
    assert multiset(DEFS + name) == multiset(DEFS) + multiset(name);
    assert multiset(V2) == multiset(DEFS) + multiset("v2/");
    assert "v2/"[2] == '/' && '/' in "v2/";
  }
}
