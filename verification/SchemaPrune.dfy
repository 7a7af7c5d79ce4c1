/**
  Removing method variants from a schema's `oneOf`, and then every definition the
  rest of the schema no longer reaches.
 */
module SchemaPrune {
  import opened Text
  import opened JsonValue
  import opened SchemaRefs
  import opened Reachability

  // ---- Variants ----

  function StringLiteralOf(j: Json): Option<string> {
    match GetStr(j, "const")
    case Some(s) => Some(s)
    case None =>
      match Get(j, "enum")
      case Some(Arr(xs)) => if xs != [] && xs[0].Str? then Some(xs[0].text) else None
      case _ => None
  }

  predicate IsMethodVariant(variant: Json, methods: set<string>) {
    match GetObj(variant, "properties")
    case None => false
    case Some(props) =>
      match Get(Obj(props), "method")
      case None => false
      case Some(schema) =>
        match StringLiteralOf(schema) case Some(m) => m in methods case None => false
  }

  function Retained(variants: seq<Json>, methods: set<string>): seq<Json> {
    if variants == [] then []
    else (if IsMethodVariant(variants[0], methods) then [] else [variants[0]]) + Retained(variants[1..], methods)
  }

  // ---- What is removed ----

  /** The field is present and is this string. */
  predicate Says(m: Defs, key: string, text: string) { key in m && m[key] == Str(text) }

  predicate SaysText(m: Defs, key: string) { key in m && m[key].Str? }

  /** A schema that allows this one string: by `const`, or failing that first in its `enum`. */
  predicate Fixes(j: Json, text: string) {
    j.Obj? &&
    (|| Says(j.fields, "const", text)
     || (&& !SaysText(j.fields, "const") && "enum" in j.fields && j.fields["enum"].Arr?
         && j.fields["enum"].items != [] && j.fields["enum"].items[0] == Str(text)))
  }

  /** The variant of a request or notification with this method. */
  predicate VariantFor(v: Json, name: string) {
    && v.Obj? && "properties" in v.fields && v.fields["properties"].Obj?
    && "method" in v.fields["properties"].fields
    && Fixes(v.fields["properties"].fields["method"], name)
  }

  /** The variants for none of the methods, in order. */
  ghost function Others(variants: seq<Json>, methods: set<string>): seq<Json> {
    if variants == [] then []
    else (if exists m :: m in methods && VariantFor(variants[0], m) then [] else [variants[0]]) + Others(variants[1..], methods)
  }

  lemma StringLiteralExactly(j: Json, text: string)
    ensures StringLiteralOf(j) == Some(text) <==> Fixes(j, text)
  {
  }

  lemma MethodVariantExactly(v: Json, methods: set<string>)
    ensures IsMethodVariant(v, methods) <==> exists m :: m in methods && VariantFor(v, m)
  {
    if v.Obj? && "properties" in v.fields && v.fields["properties"].Obj? && "method" in v.fields["properties"].fields {
      var schema := v.fields["properties"].fields["method"];
      forall m ensures StringLiteralOf(schema) == Some(m) <==> Fixes(schema, m) { StringLiteralExactly(schema, m); }
    }
  }

  lemma {:induction false} RetainedExactly(variants: seq<Json>, methods: set<string>)
    ensures Retained(variants, methods) == Others(variants, methods)
  {
    if variants != [] {
      MethodVariantExactly(variants[0], methods);
      RetainedExactly(variants[1..], methods);
    }
  }

  // ---- Local names ----

  function LocalNames(refs: set<string>): set<string> {
    set r | r in refs && DEFS <= r :: FirstSegment(r[|DEFS|..])
  }

  predicate IsDefsKey(key: string) { key == "definitions" || key == "$defs" }

  /** The refs outside every `definitions` and `$defs` map, as the source walks the root. */
  function OuterRefs(j: Json): set<string> {
    RefHere(j) +
    match j
    case Arr(xs) => set i, r | 0 <= i < |xs| && r in OuterRefs(xs[i]) :: r
    case Obj(m) => set k, r | k in m && !IsDefsKey(k) && r in OuterRefs(m[k]) :: r
    case _ => {}
  }

  /** No definitions map at any depth. */
  predicate NoDefsInside(j: Json) {
    match j
    case Arr(xs) => forall i | 0 <= i < |xs| :: NoDefsInside(xs[i])
    case Obj(m) => forall k | k in m :: !IsDefsKey(k) && NoDefsInside(m[k])
    case _ => true
  }

  lemma {:induction false} OuterIsAll(j: Json, r: string)
    requires NoDefsInside(j) && r in Refs(j)
    ensures r in OuterRefs(j)
  {
    if r !in RefHere(j) {
      match j
      case Arr(xs) =>
        var i :| 0 <= i < |xs| && r in Refs(xs[i]);
        OuterIsAll(xs[i], r);
      case Obj(m) =>
        var k :| k in m && r in Refs(m[k]);
        OuterIsAll(m[k], r);
      case _ =>
    }
  }

  function DefsOf(j: Json): Defs {
    match GetObj(j, "definitions") case Some(m) => m case None => map[]
  }

  function Succ(defs: Defs): string -> set<string> {
    n => if n in defs then LocalNames(Refs(defs[n])) else {}
  }

  ghost function Universe(schema: Json): set<string> {
    LocalNames(OuterRefs(schema)) + set n, d | n in DefsOf(schema) && d in Succ(DefsOf(schema))(n) :: d
  }

  method ReachableLocalDefinitions(schema: Json) returns (r: set<string>)
    ensures GetObj(schema, "definitions").None? ==> r == {}
    ensures GetObj(schema, "definitions").Some? ==> IsReachable(Succ(DefsOf(schema)), LocalNames(OuterRefs(schema)), r)
  {
    if GetObj(schema, "definitions").None? { return {}; }
    r := MarkOnPush(Succ(DefsOf(schema)), LocalNames(OuterRefs(schema)), Universe(schema));
  }

  // ---- Stripping ----

  predicate Strippable(schema: Json) {
    match Get(schema, "oneOf") case Some(Arr(_)) => true case _ => false
  }

  function WithoutVariants(schema: Json, methods: set<string>): Json
    requires Strippable(schema)
  {
    Obj(schema.fields["oneOf" := Arr(Retained(schema.fields["oneOf"].items, methods))])
  }

  function Pruned(schema: Json, keep: set<string>): Json
    requires schema.Obj?
  {
    if GetObj(schema, "definitions").None? then schema
    else Obj(schema.fields["definitions" := Obj(map k | k in DefsOf(schema) && k in keep :: DefsOf(schema)[k])])
  }

  /** Outside its one top-level definitions map the schema has none. */
  predicate OneDefsMap(schema: Json) {
    && schema.Obj? && NoDefsInside(Obj(schema.fields - {"definitions"}))
    && ("definitions" in schema.fields ==> schema.fields["definitions"].Obj?) && "$ref" !in DefsOf(schema)
  }

  ghost predicate AllResolve(schema: Json) {
    forall r | r in Refs(schema) && DEFS <= r :: Resolve(DefsOf(schema), r).Some?
  }

  // ---- Surviving refs name kept definitions ----

  lemma {:induction false} RetainedFrom(variants: seq<Json>, methods: set<string>, v: Json)
    requires v in Retained(variants, methods)
    ensures v in variants && !IsMethodVariant(v, methods)
  {
    if variants != [] && v in Retained(variants[1..], methods) {
      RetainedFrom(variants[1..], methods, v);
    }
  }

  lemma RetainedRefs(before: seq<Json>, methods: set<string>)
    ensures Refs(Arr(Retained(before, methods))) <= Refs(Arr(before))
  {
    var kept := Retained(before, methods);
    forall x | x in Refs(Arr(kept)) ensures x in Refs(Arr(before)) {
      var i :| 0 <= i < |kept| && x in Refs(kept[i]);
      RetainedFrom(before, methods, kept[i]);
      var j :| 0 <= j < |before| && before[j] == kept[i];
      RefsOfItem(before, j);
    }
  }

  lemma WithoutVariantsOneMap(schema: Json, methods: set<string>)
    requires Strippable(schema) && OneDefsMap(schema)
    ensures OneDefsMap(WithoutVariants(schema, methods))
  {
    var before, s := schema.fields["oneOf"].items, WithoutVariants(schema, methods);
    var kept := Retained(before, methods);
    forall i | 0 <= i < |kept| ensures kept[i] in before { RetainedFrom(before, methods, kept[i]); }
    var m, n := schema.fields - {"definitions"}, s.fields - {"definitions"};
    assert NoDefsInside(m["oneOf"]);
    forall k | k in n ensures !IsDefsKey(k) && NoDefsInside(n[k]) { assert k in m; }
  }

  lemma WithoutVariantsRefs(schema: Json, methods: set<string>)
    requires Strippable(schema)
    ensures Refs(WithoutVariants(schema, methods)) <= Refs(schema)
    ensures OneDefsMap(schema) ==> OneDefsMap(WithoutVariants(schema, methods))
  {
    var s := WithoutVariants(schema, methods);
    RetainedRefs(schema.fields["oneOf"].items, methods);
    forall x | x in Refs(s) ensures x in Refs(schema) {
      if x !in RefHere(s) {
        var k :| k in s.fields && x in Refs(s.fields[k]);
        RefsOfField(schema.fields, k);
      }
    }
    if OneDefsMap(schema) { WithoutVariantsOneMap(schema, methods); }
  }

  /** The first segment of a surviving ref is a kept name. */
  lemma SurvivorKept(s: Json, keep: set<string>, x: string)
    requires OneDefsMap(s) && IsReachable(Succ(DefsOf(s)), LocalNames(OuterRefs(s)), keep)
    requires x in Refs(Pruned(s, keep))
    ensures x in Refs(s) && (DEFS <= x ==> FirstSegment(x[|DEFS|..]) in keep)
  {
    var r, defs := Pruned(s, keep), DefsOf(s);
    if x in RefHere(r) {
      assert x in RefHere(s);
    } else {
      var k :| k in r.fields && x in Refs(r.fields[k]);
      RefsOfField(s.fields, k);
      if k == "definitions" {
        var n := KeptDefRef(defs, keep, x);
        RefsOfField(defs, n);
        assert DEFS <= x ==> FirstSegment(x[|DEFS|..]) in Succ(defs)(n);
      } else {
        assert k in s.fields - {"definitions"};
        OuterIsAll(s.fields[k], x);
        assert x in OuterRefs(s);
      }
    }
  }

  lemma KeptDefRef(defs: Defs, keep: set<string>, x: string) returns (n: string)
    requires "$ref" !in defs && x in Refs(Obj(map k | k in defs && k in keep :: defs[k]))
    ensures n in defs && n in keep && x in Refs(defs[n])
  {
    var kept := map k | k in defs && k in keep :: defs[k];
    assert x !in RefHere(Obj(kept));
    n :| n in kept && x in Refs(kept[n]);
  }

  // ---- Surviving refs mean what they meant ----

  lemma SegmentsHead(s: string)
    ensures Segments(s) == [FirstSegment(s)] + Segments(s)[1..]
  {
  }

  /** `kept` is `defs` cut down to `keep`, and nothing kept refers outside `keep`. */
  ghost predicate Cut(defs: Defs, keep: set<string>, kept: Defs) {
    && kept.Keys == defs.Keys * keep
    && (forall k | k in kept :: kept[k] == defs[k])
    && (forall k | k in kept :: LocalNames(Refs(defs[k])) <= keep)
  }

  lemma CutResolves(defs: Defs, keep: set<string>, kept: Defs, x: string)
    requires Cut(defs, keep, kept) && (DEFS <= x ==> FirstSegment(x[|DEFS|..]) in keep)
    ensures Resolve(kept, x) == Resolve(defs, x)
  {
    if DEFS <= x {
      var path := Segments(x[|DEFS|..]);
      SegmentsHead(x[|DEFS|..]);
      WalkStep(Obj(defs), path[0], path[1..]);
      WalkStep(Obj(kept), path[0], path[1..]);
    }
  }

  /** A piece of a document has only refs of the document. */
  lemma {:induction false} WalkRefs(j: Json, path: seq<string>)
    requires Walk(j, path).Some?
    ensures Refs(Walk(j, path).value) <= Refs(j)
    decreases |path|
  {
    if path != [] {
      RefsOfField(j.fields, path[0]);
      WalkRefs(j.fields[path[0]], path[1..]);
    }
  }

  lemma CutTarget(defs: Defs, keep: set<string>, kept: Defs, x: string)
    requires Cut(defs, keep, kept) && Resolve(defs, x).Some? && FirstSegment(x[|DEFS|..]) in keep
    ensures LocalNames(Refs(Resolve(defs, x).value)) <= keep
  {
    var path := Segments(x[|DEFS|..]);
    SegmentsHead(x[|DEFS|..]);
    WalkStep(Obj(defs), path[0], path[1..]);
    WalkRefs(defs[path[0]], path[1..]);
    assert path[0] in kept;
  }

  /** Content that refers only to kept names unfolds as before, to every depth. */
  /** Refs of a schema whose local names are kept are refs to kept names. */
  ghost predicate IsKept(keep: set<string>, r: string) { DEFS <= r ==> FirstSegment(r[|DEFS|..]) in keep }

  lemma RefsAreKept(j: Json, keep: set<string>)
    requires LocalNames(Refs(j)) <= keep
    ensures forall r | r in Refs(j) :: IsKept(keep, r)
  {
  }

  lemma CutFollows(defs: Defs, keep: set<string>, kept: Defs, x: string) returns (found: bool, target: Json)
    requires Cut(defs, keep, kept) && IsKept(keep, x)
    ensures found ==> Resolve(kept, x) == Some(target) && Resolve(defs, x) == Some(target)
    ensures !found ==> Resolve(kept, x) == None && Resolve(defs, x) == None
    ensures found ==> forall r | r in Refs(target) :: IsKept(keep, r)
  {
    CutResolves(defs, keep, kept, x);
    found, target := Resolve(defs, x).Some?, Null;
    if found {
      target := Resolve(defs, x).value;
      CutTarget(defs, keep, kept, x);
      RefsAreKept(target, keep);
    }
  }

  ghost function KeptRefs(keep: set<string>): iset<string> { iset r | IsKept(keep, r) }

  lemma CutSimulates(defs: Defs, keep: set<string>, kept: Defs)
    requires Cut(defs, keep, kept)
    ensures Simulates(Look(kept), Look(defs), Unchanged, KeptRefs(keep))
  {
    forall r | r in KeptRefs(keep)
      ensures Look(kept)(r) == Look(defs)(r)
      ensures Look(defs)(r).Some? ==>
                MapRefs(Look(defs)(r).value, Unchanged) == Look(defs)(r).value
                && forall s | s in Refs(Look(defs)(r).value) :: s in KeptRefs(keep)
    {
      var found, target := CutFollows(defs, keep, kept, r);
      MapUnchanged(target);
    }
  }

  lemma CutUnfolds(defs: Defs, keep: set<string>, kept: Defs, j: Json, n: nat)
    requires Cut(defs, keep, kept) && forall r | r in Refs(j) :: IsKept(keep, r)
    ensures Unfold(kept, j, n) == Unfold(defs, j, n)
  {
    CutSimulates(defs, keep, kept);
    MapUnchanged(j);
    SimulatedUnfolding(kept, defs, Unchanged, KeptRefs(keep), j, n);
  }

  /** The schema without its definitions map. */
  function Body(schema: Json): Json
    requires schema.Obj?
  {
    Obj(schema.fields - {"definitions"})
  }

  /** What remains means what it meant: refs resolve alike and content unfolds alike. */
  ghost predicate MeansAsBefore(schema: Json, r: Json) {
    var defs, kept := DefsOf(schema), DefsOf(r);
    && r.Obj?
    && (forall x | x in Refs(r) :: x in Refs(schema) && Resolve(kept, x) == Resolve(defs, x))
    && (forall n: nat :: Unfold(kept, Body(r), n) == Unfold(defs, Body(r), n))
    && (forall k, n: nat | k in kept :: k in defs && Unfold(kept, kept[k], n) == Unfold(defs, defs[k], n))
    && (AllResolve(schema) ==> AllResolve(r))
  }

  lemma PrunedDefs(s: Json, keep: set<string>)
    requires s.Obj?
    ensures DefsOf(Pruned(s, keep)) == map k | k in DefsOf(s) && k in keep :: DefsOf(s)[k]
    ensures Body(Pruned(s, keep)) == Body(s)
    ensures Pruned(s, keep).fields.Keys == s.fields.Keys
  {
    if GetObj(s, "definitions").Some? {
      assert Body(Pruned(s, keep)).fields == Body(s).fields;
    }
  }

  lemma CutMeansAsBefore(schema: Json, keep: set<string>, r: Json)
    requires r.Obj? && Cut(DefsOf(schema), keep, DefsOf(r))
    requires forall x | x in Refs(r) :: x in Refs(schema) && (DEFS <= x ==> FirstSegment(x[|DEFS|..]) in keep)
    ensures MeansAsBefore(schema, r)
  {
    var defs, kept := DefsOf(schema), DefsOf(r);
    forall x | x in Refs(r) ensures Resolve(kept, x) == Resolve(defs, x) { CutResolves(defs, keep, kept, x); }
    BodyNames(r, keep);
    RefsAreKept(Body(r), keep);
    forall n: nat ensures Unfold(kept, Body(r), n) == Unfold(defs, Body(r), n) {
      CutUnfolds(defs, keep, kept, Body(r), n);
    }
    forall k, n: nat | k in kept ensures k in defs && Unfold(kept, kept[k], n) == Unfold(defs, defs[k], n) {
      RefsAreKept(defs[k], keep);
      CutUnfolds(defs, keep, kept, defs[k], n);
    }
  }

  lemma PrunedIsCut(defs: Defs, roots: set<string>, keep: set<string>)
    requires IsReachable(Succ(defs), roots, keep)
    ensures Cut(defs, keep, map k | k in defs && k in keep :: defs[k])
  {
    forall k | k in defs && k in keep ensures LocalNames(Refs(defs[k])) <= keep { assert Succ(defs)(k) <= keep; }
  }

  /** The stripped schema's definitions, cut down to the kept names, are a cut of the original's. */
  lemma PrunedCuts(schema: Json, s: Json, methods: set<string>, keep: set<string>)
    requires Strippable(schema) && s == WithoutVariants(schema, methods)
    requires IsReachable(Succ(DefsOf(s)), LocalNames(OuterRefs(s)), keep)
    ensures Cut(DefsOf(schema), keep, DefsOf(Pruned(s, keep)))
  {
    PrunedDefs(s, keep);
    PrunedIsCut(DefsOf(s), LocalNames(OuterRefs(s)), keep);
  }

  lemma PrunedMeaning(schema: Json, s: Json, methods: set<string>, keep: set<string>)
    requires Strippable(schema) && OneDefsMap(schema) && s == WithoutVariants(schema, methods)
    requires IsReachable(Succ(DefsOf(s)), LocalNames(OuterRefs(s)), keep)
    ensures MeansAsBefore(schema, Pruned(s, keep))
  {
    PrunedRefs(schema, methods, keep);
    PrunedCuts(schema, s, methods, keep);
    CutMeansAsBefore(schema, keep, Pruned(s, keep));
  }

  lemma PrunedMeansAsBefore(schema: Json, methods: set<string>, keep: set<string>)
    requires Strippable(schema) && OneDefsMap(schema)
    requires var s := WithoutVariants(schema, methods);
             IsReachable(Succ(DefsOf(s)), LocalNames(OuterRefs(s)), keep)
    ensures MeansAsBefore(schema, Pruned(WithoutVariants(schema, methods), keep))
  {
    PrunedMeaning(schema, WithoutVariants(schema, methods), methods, keep);
  }

  lemma PrunedRefs(schema: Json, methods: set<string>, keep: set<string>)
    requires Strippable(schema) && OneDefsMap(schema)
    requires var s := WithoutVariants(schema, methods);
             IsReachable(Succ(DefsOf(s)), LocalNames(OuterRefs(s)), keep)
    ensures forall x | x in Refs(Pruned(WithoutVariants(schema, methods), keep)) ::
              x in Refs(schema) && (DEFS <= x ==> FirstSegment(x[|DEFS|..]) in keep)
  {
    var s := WithoutVariants(schema, methods);
    WithoutVariantsRefs(schema, methods);
    forall x | x in Refs(Pruned(s, keep))
      ensures x in Refs(schema) && (DEFS <= x ==> FirstSegment(x[|DEFS|..]) in keep)
    {
      SurvivorKept(s, keep, x);
    }
  }

  lemma BodyNames(r: Json, keep: set<string>)
    requires r.Obj? && forall x | x in Refs(r) :: DEFS <= x ==> FirstSegment(x[|DEFS|..]) in keep
    ensures LocalNames(Refs(Body(r))) <= keep
  {
    forall x | x in Refs(Body(r)) ensures x in Refs(r) {
      if x !in RefHere(Body(r)) {
        var k :| k in Body(r).fields && x in Refs(Body(r).fields[k]);
        RefsOfField(r.fields, k);
      }
    }
  }

  /** MAIN: exactly the reachable definitions stay, and what stays means what it meant. */
  /** A ref anywhere in the document names the definition `k`, or something inside it. */
  ghost predicate Mentions(j: Json, k: string) {
    '/' !in k && exists r :: r in Refs(j) && (r == DEFS + k || DEFS + k + "/" <= r)
  }

  /** The definitions each definition mentions. */
  ghost predicate Leads(defs: Defs, from: string, to: string) { from in defs && Mentions(defs[from], to) }

  lemma LocalNameExactly(refs: set<string>, k: string)
    ensures k in LocalNames(refs) <==> '/' !in k && exists r :: r in refs && (r == DEFS + k || DEFS + k + "/" <= r)
  {
    forall r | r in refs && DEFS <= r && '/' !in k
      ensures FirstSegment(r[|DEFS|..]) == k <==> r == DEFS + k || DEFS + k + "/" <= r
    {
      SegmentNamed(r, k);
    }
    forall r | r in refs && DEFS <= r ensures '/' !in FirstSegment(r[|DEFS|..]) { SegmentHasNoSlash(r[|DEFS|..]); }
  }

  lemma SegmentHasNoSlash(s: string)
    ensures '/' !in FirstSegment(s)
  {
  }

  lemma SegmentNamed(r: string, k: string)
    requires DEFS <= r && '/' !in k
    ensures FirstSegment(r[|DEFS|..]) == k <==> r == DEFS + k || DEFS + k + "/" <= r
  {
    var s := r[|DEFS|..];
    assert r == DEFS + s;
    assert r == DEFS + k <==> s == k;
    assert DEFS + k + "/" <= r <==> k + "/" <= s by {
      assert DEFS + k + "/" == DEFS + (k + "/");
      if DEFS + (k + "/") <= r { assert s[..|k| + 1] == r[|DEFS|..|DEFS| + |k| + 1]; }
    }
    if k + "/" <= s {
      var rest := s[|k| + 1..];
      assert s == k + ['/'] + rest;
      IndexOfFirst(k, '/', rest);
    }
    if FirstSegment(s) == k && s != k { assert s[..|k| + 1] == k + "/"; }
  }

  method StripMethodVariants(schema: Json, methods: set<string>) returns (r: Json)
    ensures !Strippable(schema) ==> r == schema
    ensures Strippable(schema) ==>
              && r.Obj? && r.fields.Keys == schema.fields.Keys
              && r.fields["oneOf"] == Arr(Others(schema.fields["oneOf"].items, methods))
              && (forall k | k in schema.fields && k != "oneOf" && k != "definitions" :: r.fields[k] == schema.fields[k])
    ensures Strippable(schema) ==>
              && (forall k :: k in DefsOf(r) <==>
                    k in DefsOf(schema) && Reach(Succ(DefsOf(schema)), LocalNames(OuterRefs(r)), k))
              && (forall k | k in DefsOf(r) :: DefsOf(r)[k] == DefsOf(schema)[k])
              && (GetObj(schema, "definitions").None? ==> Get(r, "definitions") == Get(schema, "definitions"))
    ensures Strippable(schema) && OneDefsMap(schema) ==> MeansAsBefore(schema, r)
  {
    if !Strippable(schema) { return schema; }
    var s := WithoutVariants(schema, methods);
    var keep := ReachableLocalDefinitions(s);
    ghost var reached := keep;
    if GetObj(s, "definitions").None? {
      reached := LocalNames(OuterRefs(s));
      RootsAreAll(LocalNames(OuterRefs(s)));
    }
    r := Pruned(s, keep);
    StripMeaning(schema, methods, reached);
    RetainedExactly(schema.fields["oneOf"].items, methods);
    StrippedFields(schema, methods, reached);
  }

  lemma StrippedFields(schema: Json, methods: set<string>, keep: set<string>)
    requires Strippable(schema)
    ensures var s := WithoutVariants(schema, methods);
            var r := Pruned(s, keep);
            && OuterRefs(r) == OuterRefs(s)
            && r.fields["oneOf"] == Arr(Retained(schema.fields["oneOf"].items, methods))
            && forall k | k in schema.fields && k != "oneOf" && k != "definitions" :: r.fields[k] == schema.fields[k]
  {
    var s := WithoutVariants(schema, methods);
    var r := Pruned(s, keep);
    assert forall k | k in s.fields && k != "definitions" :: r.fields[k] == s.fields[k];
    assert RefHere(r) == RefHere(s);
  }

  /** Without definitions nothing follows from the roots. */
  lemma RootsAreAll(roots: set<string>)
    ensures IsReachable(Succ(map[]), roots, roots)
  {
    forall x | x in roots ensures Reach(Succ(map[]), roots, x) { ReachRoot(Succ(map[]), roots, x); }
    ClosedIsReachable(Succ(map[]), roots, roots);
  }

  /** The definitions kept by name: those mentioned from outside the map, and what they lead to. */
  lemma SuccExactly(defs: Defs, from: string, to: string)
    ensures to in Succ(defs)(from) <==> Leads(defs, from, to)
  {
    if from in defs { LocalNameExactly(Refs(defs[from]), to); }
  }

  /** In a schema with one definitions map the roots are the names mentioned around it. */
  lemma RootsExactly(schema: Json, k: string)
    requires OneDefsMap(schema)
    ensures k in LocalNames(OuterRefs(schema)) <==> Mentions(Body(schema), k)
  {
    OuterIsBody(schema);
    LocalNameExactly(OuterRefs(schema), k);
  }

  lemma OuterIsBody(schema: Json)
    requires OneDefsMap(schema)
    ensures OuterRefs(schema) == Refs(Body(schema))
  {
    var body := Body(schema);
    forall r | r in Refs(body) ensures r in OuterRefs(schema) {
      if r in RefHere(body) {
        assert r in RefHere(schema);
      } else {
        var k :| k in body.fields && r in Refs(body.fields[k]);
        OuterIsAll(body.fields[k], r);
      }
    }
    forall r | r in OuterRefs(schema) ensures r in Refs(body) {
      if r in RefHere(schema) {
        assert r in RefHere(body);
      } else {
        var k :| k in schema.fields && !IsDefsKey(k) && r in OuterRefs(schema.fields[k]);
        OuterWithin(schema.fields[k], r);
        RefsOfField(body.fields, k);
      }
    }
  }

  lemma {:induction false} OuterWithin(j: Json, r: string)
    requires r in OuterRefs(j)
    ensures r in Refs(j)
  {
    if r !in RefHere(j) {
      match j
      case Arr(xs) =>
        var i :| 0 <= i < |xs| && r in OuterRefs(xs[i]);
        OuterWithin(xs[i], r);
        RefsOfItem(xs, i);
      case Obj(m) =>
        var k :| k in m && !IsDefsKey(k) && r in OuterRefs(m[k]);
        OuterWithin(m[k], r);
        RefsOfField(m, k);
      case _ =>
    }
  }

  lemma StripMeaning(schema: Json, methods: set<string>, keep: set<string>)
    requires Strippable(schema)
    requires var s := WithoutVariants(schema, methods);
             IsReachable(Succ(DefsOf(s)), LocalNames(OuterRefs(s)), keep)
    ensures var s := WithoutVariants(schema, methods);
            var r := Pruned(s, keep);
            && DefsOf(s) == DefsOf(schema)
            && r.Obj? && Body(r) == Body(s) && r.fields.Keys == s.fields.Keys
            && (forall k :: k in DefsOf(r) <==>
                  k in DefsOf(schema) && Reach(Succ(DefsOf(schema)), LocalNames(OuterRefs(s)), k))
            && (forall k | k in DefsOf(r) :: DefsOf(r)[k] == DefsOf(schema)[k])
            && (OneDefsMap(schema) ==> MeansAsBefore(schema, r))
  {
    var s := WithoutVariants(schema, methods);
    PrunedDefs(s, keep);
    if OneDefsMap(schema) { PrunedMeansAsBefore(schema, methods, keep); }
  }
}
