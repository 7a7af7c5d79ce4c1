/**
  What a bundle holds: under every name the schema or definition that was put there, field
  by field, with its refs sent to their owners and nothing else changed.
 */
module BundleContent {
  import opened Text
  import opened JsonValue
  import opened Serializer
  import opened SchemaRefs
  import opened SchemaBundle

  // ---- Where refs go ----

  /** A ref to a v2-owned name goes to v2; any other ref stays. */
  function Relocate(types: map<string, string>): string -> string {
    (r: string) => if DEFS <= r && r[|DEFS|..] in types then V2 + r[|DEFS|..] else r
  }

  /** The ref rewriters of the bundler do just that to the refs of a ready schema. */
  lemma RewritersAgree(s: Schema, types: map<string, string>, r: string)
    requires ReadyRef(s, types, r) && OneNamespace(types) && (s.namespace == None || s.namespace == Some("v2"))
    requires s.namespace.Some? ==> Brings(s) <= types.Keys
    ensures s.namespace.Some? ==> ToNamespace("v2", r) == Relocate(types)(r)
    ensures s.namespace.None? ==> ToKnown(types, r) == Relocate(types)(r)
  {
    var name :| Plain(name) && r == DEFS + name && !Skipped(name) && Undigited(name, types)
      && (name in OwnDefs(s.value) || name in types);
    assert r[|DEFS|..] == name;
    ToNamespaceFixes(name);
    ToKnownPlain(types, name);
  }

  lemma RetargetedExactly(s: Schema, types: map<string, string>)
    requires Ready(s, types) && OneNamespace(types) && (s.namespace.Some? ==> Brings(s) <= types.Keys)
    ensures Retargeted(s, types) == MapRefs(s.value, Relocate(types))
  {
    forall r | r in Refs(s.value)
      ensures s.namespace.Some? ==> ToNamespace("v2", r) == Relocate(types)(r)
      ensures s.namespace.None? ==> ToKnown(types, r) == Relocate(types)(r)
    {
      RewritersAgree(s, types, r);
    }
    match s.namespace
    case Some(ns) => MapAgree(s.value, r => ToNamespace(ns, r), Relocate(types));
    case None => MapAgree(s.value, r => ToKnown(types, r), Relocate(types));
  }

  /** Giving definitions up changes nothing in a schema whose refs are already right. */
  lemma {:induction false} SurrenderedExactly(value: Json, s: Schema, types: map<string, string>, keys: seq<string>)
    requires OneNamespace(types) && s.namespace != Some("v2")
    requires forall k | k in keys :: Plain(k) && k != "v2"
    requires AllIn(value, Local(s, types), Owned(types))
    ensures Surrendered(value, s, types, keys) == value
    decreases |keys|
  {
    if keys != [] {
      var moved := keys[0];
      assert moved in keys;
      match TargetOf(s, types, moved)
      case Some(ns) =>
        if !Skipped(moved) && s.namespace != Some(ns) {
          assert moved !in Local(s, types);
          forall r | r in Refs(value) ensures NamedToNamespace(ns, moved, r) == r {
            NamedFixes(moved, Local(s, types), Owned(types), r);
          }
          MapFixed(value, r => NamedToNamespace(ns, moved, r));
        }
        SurrenderedExactly(value, s, types, keys[1..]);
      case None => SurrenderedExactly(value, s, types, keys[1..]);
    }
  }

  // ---- What is placed ----

  /** A field with its refs relocated. */
  function MovedField(m: Defs, k: string, types: map<string, string>): Json
    requires k in m
  {
    if k == "$ref" && m[k].Str? then Str(Relocate(types)(m[k].text)) else MapRefs(m[k], Relocate(types))
  }

  /** The schema without its definitions, every other field kept and only its refs relocated. */
  ghost predicate IsBodyOf(placed: Json, value: Json, types: map<string, string>) {
    if !value.Obj? then placed == MapRefs(value, Relocate(types))
    else
      && placed.Obj? && placed.fields.Keys == value.fields.Keys - {"definitions"}
      && forall k | k in placed.fields :: placed.fields[k] == MovedField(value.fields, k, types)
  }

  /** A definition with its refs relocated and its titles added. */
  function PlacedDef(def: Json, name: string, types: map<string, string>, annotate: Annotator): Json {
    annotate(MapRefs(def, Relocate(types)), name)
  }

  function OwnDef(s: Schema, d: string): Json
    requires d in OwnDefs(s.value)
  {
    OwnDefs(s.value)[d]
  }

  ghost function Body(s: Schema, types: map<string, string>): Json {
    Surrendered(WithoutDefs(Retargeted(s, types)), s, types, SortedKeys(OwnDefs(Retargeted(s, types)).Keys))
  }

  lemma BodyExactly(s: Schema, types: map<string, string>)
    requires Ready(s, types) && OneNamespace(types) && (s.namespace.Some? ==> Brings(s) <= types.Keys)
    ensures IsBodyOf(Body(s, types), s.value, types)
  {
    var value := Retargeted(s, types);
    var keys := SortedKeys(OwnDefs(value).Keys);
    RetargetedExactly(s, types);
    RetargetedOwnDefs(s, types);
    if s.namespace.Some? {
      NothingSurrendered(WithoutDefs(value), s, types, keys);
    } else {
      RetargetedRefs(s, types);
      WithoutDefsRefs(value);
      SurrenderedExactly(WithoutDefs(value), s, types, keys);
    }
  }

  lemma OwnDefsMapped(s: Schema, types: map<string, string>, d: string)
    requires Ready(s, types) && OneNamespace(types) && (s.namespace.Some? ==> Brings(s) <= types.Keys)
    requires d in OwnDefs(s.value)
    ensures d in OwnDefs(Retargeted(s, types))
    ensures OwnDefs(Retargeted(s, types))[d] == MapRefs(OwnDef(s, d), Relocate(types))
  {
    RetargetedExactly(s, types);
    assert d != "$ref";
    var w := MapRefs(s.value, Relocate(types));
    assert w.fields["definitions"] == MapRefs(s.value.fields["definitions"], Relocate(types));
  }

  /** The second pass over a namespaced definition finds its refs already right. */
  lemma NamespacedDefExactly(s: Schema, types: map<string, string>, annotate: Annotator, d: string)
    requires Ready(s, types) && OneNamespace(types) && s.namespace == Some("v2") && Brings(s) <= types.Keys
    requires RefPreserving(annotate) && d in OwnDefs(s.value)
    ensures var def := OwnDefs(Retargeted(s, types));
            d in def && MapRefs(annotate(def[d], d), r => ToNamespace("v2", r)) == PlacedDef(OwnDef(s, d), d, types, annotate)
  {
    OwnDefsMapped(s, types, d);
    RetargetedRefs(s, types);
    RetargetedOwnDefs(s, types);
    var def := OwnDefs(Retargeted(s, types))[d];
    assert Local(s, types) == {};
    forall r | r in Refs(annotate(def, d)) ensures ToNamespace("v2", r) == r {
      assert RefIn({}, Owned(types), r);
      var x :| x in Owned(types) && Plain(x) && r == V2 + x;
      ToNamespaceFixes(x);
    }
    MapFixed(annotate(def, d), r => ToNamespace("v2", r));
  }

  // ---- Placing one thing after another ----

  /** Nothing already under v2 is lost or changed. */
  ghost predicate V2Kept(a: Defs, b: Defs) {
    forall n | n in V2Defs(a) :: n in V2Defs(b) && V2Defs(b)[n] == V2Defs(a)[n]
  }

  ghost predicate RootKept(a: Defs, b: Defs, k: string) {
    (k in a <==> k in b) && (k in a ==> b[k] == a[k])
  }

  lemma InsertStep(defs: Defs, name: string, schema: Json)
    requires InsertIntoNamespace(defs, "v2", name, schema).Ok?
    ensures var next := InsertIntoNamespace(defs, "v2", name, schema).value;
            && V2Kept(defs, next) && name in V2Defs(next) && V2Defs(next)[name] == schema
            && (forall n | n in V2Defs(next) :: n == name || n in V2Defs(defs))
            && (forall k | k != "v2" :: RootKept(defs, next, k))
  {
    var next := InsertIntoNamespace(defs, "v2", name, schema).value;
    if "v2" in defs { assert V2Defs(next) == defs["v2"].fields[name := schema]; }
  }

  /** The definitions a root schema keeps at the root: all that a v1 schema has, else those without an owner. */
  predicate StaysAtRoot(s: Schema, types: map<string, string>, d: string) {
    !Skipped(d) && s.namespace.None? && (s.inV1 || NamespaceFor(d, types).None?)
  }

  lemma DefStep(defs: Defs, s: Schema, types: map<string, string>, annotate: Annotator, name: string, def: Json)
    requires (s.namespace == None || s.namespace == Some("v2")) && name != "v2"
    requires PlaceDef(defs, s, types, annotate, name, def).Ok?
    ensures var next := PlaceDef(defs, s, types, annotate, name, def).value;
            && V2Kept(defs, next)
            && (forall k | k != "v2" && !(k == name && StaysAtRoot(s, types, name)) :: RootKept(defs, next, k))
            && (StaysAtRoot(s, types, name) ==> name in next && next[name] == annotate(def, name))
            && (s.namespace.Some? && !Skipped(name) ==>
                  name in V2Defs(next) && V2Defs(next)[name] == MapRefs(annotate(def, name), r => ToNamespace("v2", r)))
            && (forall n | n in V2Defs(next) :: n in V2Defs(defs) || (n == name && s.namespace.Some? && !Skipped(name)))
  {
    if !Skipped(name) && s.namespace.Some? {
      InsertStep(defs, name, MapRefs(annotate(def, name), r => ToNamespace("v2", r)));
    }
  }

  lemma {:induction false} DefsStep(defs: Defs, s: Schema, types: map<string, string>, annotate: Annotator, own: Defs, keys: seq<string>)
    requires (s.namespace == None || s.namespace == Some("v2")) && forall k | k in keys :: k in own && k != "v2"
    requires PlaceDefs(defs, s, types, annotate, own, keys).Ok?
    ensures var next := PlaceDefs(defs, s, types, annotate, own, keys).value;
            && V2Kept(defs, next)
            && (forall k | k != "v2" && !(k in keys && StaysAtRoot(s, types, k)) :: RootKept(defs, next, k))
            && (forall k | k in keys && StaysAtRoot(s, types, k) :: k in next && next[k] == annotate(own[k], k))
            && (forall k | k in keys && s.namespace.Some? && !Skipped(k) ::
                  k in V2Defs(next) && V2Defs(next)[k] == MapRefs(annotate(own[k], k), r => ToNamespace("v2", r)))
            && (forall n | n in V2Defs(next) :: n in V2Defs(defs) || (n in keys && s.namespace.Some? && !Skipped(n)))
    decreases |keys|
  {
    if keys != [] {
      var name, rest := keys[0], keys[1..];
      assert name in keys;
      DefStep(defs, s, types, annotate, name, own[name]);
      var mid := PlaceDef(defs, s, types, annotate, name, own[name]).value;
      assert forall k | k in rest :: k in keys;
      DefsStep(mid, s, types, annotate, own, rest);
      assert forall k | k in keys :: k == name || k in rest;
      if StaysAtRoot(s, types, name) && name !in rest {
        assert RootKept(mid, PlaceDefs(mid, s, types, annotate, own, rest).value, name);
      }
    }
  }

  /** The names a schema puts at the root. */
  ghost function Writes(s: Schema, types: map<string, string>): set<string> {
    if s.namespace.Some? || s.name in IGNORED then {}
    else {s.name} + set d | d in OwnDefs(s.value) && StaysAtRoot(s, types, d)
  }

  /** What a schema puts under one of its names: its body under its own, a definition under another. */
  ghost predicate IsPlaced(j: Json, s: Schema, k: string, types: map<string, string>, annotate: Annotator) {
    if k == s.name then IsBodyOf(j, s.value, types)
    else k in OwnDefs(s.value) && j == PlacedDef(OwnDef(s, k), k, types, annotate)
  }

  /** The conditions under which all of this is stated. */
  ghost predicate Placeable(s: Schema, types: map<string, string>, annotate: Annotator) {
    Ready(s, types) && OneNamespace(types) && RefPreserving(annotate) && (s.namespace.Some? ==> Brings(s) <= types.Keys)
  }

  ghost predicate V2Holds(defs: Defs, s: Schema, types: map<string, string>, annotate: Annotator) {
    && (forall k | k in Delivered(s) :: k in V2Defs(defs) && IsPlaced(V2Defs(defs)[k], s, k, types, annotate))
    && (s.namespace.Some? ==> forall d | d in OwnDefs(s.value) && !Skipped(d) ::
          d in V2Defs(defs) && V2Defs(defs)[d] == PlacedDef(OwnDef(s, d), d, types, annotate))
  }

  /** What placing the definitions of a schema does. */
  ghost predicate DefsPlaced(defs: Defs, next: Defs, s: Schema, types: map<string, string>, annotate: Annotator) {
    && V2Kept(defs, next)
    && (forall n | n in V2Defs(next) :: n in V2Defs(defs) || n in Delivered(s))
    && (forall k | k != "v2" && !(k in OwnDefs(s.value) && StaysAtRoot(s, types, k)) :: RootKept(defs, next, k))
    && (forall d | d in OwnDefs(s.value) && StaysAtRoot(s, types, d) ::
          d in next && next[d] == PlacedDef(OwnDef(s, d), d, types, annotate))
    && (s.namespace.Some? ==> forall d | d in OwnDefs(s.value) && !Skipped(d) ::
          d in V2Defs(next) && V2Defs(next)[d] == PlacedDef(OwnDef(s, d), d, types, annotate))
  }

  lemma OwnPlaced(defs: Defs, s: Schema, types: map<string, string>, annotate: Annotator)
    requires Placeable(s, types, annotate)
    requires PlaceDefs(defs, s, types, annotate, OwnDefs(Retargeted(s, types)), SortedKeys(OwnDefs(Retargeted(s, types)).Keys)).Ok?
    ensures var own := OwnDefs(Retargeted(s, types));
            DefsPlaced(defs, PlaceDefs(defs, s, types, annotate, own, SortedKeys(own.Keys)).value, s, types, annotate)
  {
    var own := OwnDefs(Retargeted(s, types));
    var keys := SortedKeys(own.Keys);
    RetargetedOwnDefs(s, types);
    assert forall k :: k in keys <==> k in OwnDefs(s.value);
    DefsStep(defs, s, types, annotate, own, keys);
    forall d | d in OwnDefs(s.value) ensures own[d] == MapRefs(OwnDef(s, d), Relocate(types)) {
      OwnDefsMapped(s, types, d);
    }
    if s.namespace.Some? {
      forall d | d in OwnDefs(s.value)
        ensures MapRefs(annotate(own[d], d), r => ToNamespace("v2", r)) == PlacedDef(OwnDef(s, d), d, types, annotate)
      {
        NamespacedDefExactly(s, types, annotate, d);
      }
    }
  }

  /** What placing a schema does: it puts its names there and leaves the others alone. */
  ghost predicate Stepped(defs: Defs, out: Defs, s: Schema, types: map<string, string>, annotate: Annotator) {
    SteppedV2(defs, out, s, types, annotate) && SteppedRoot(defs, out, s, types, annotate)
  }

  ghost predicate SteppedV2(defs: Defs, out: Defs, s: Schema, types: map<string, string>, annotate: Annotator) {
    && V2Kept(defs, out) && V2Holds(out, s, types, annotate)
    && (forall n | n in V2Defs(out) :: n in V2Defs(defs) || n in Delivered(s))
  }

  ghost predicate SteppedRoot(defs: Defs, out: Defs, s: Schema, types: map<string, string>, annotate: Annotator) {
    && (forall k | k != "v2" && k !in Writes(s, types) :: RootKept(defs, out, k))
    && (forall k | k in Writes(s, types) :: k in out && IsPlaced(out[k], s, k, types, annotate))
  }

  lemma V2BodyStep(defs: Defs, next: Defs, body: Json, s: Schema, types: map<string, string>, annotate: Annotator)
    requires s.namespace == Some("v2") && DefsPlaced(defs, next, s, types, annotate) && IsBodyOf(body, s.value, types)
    requires InsertIntoNamespace(next, "v2", s.name, body).Ok?
    ensures Stepped(defs, InsertIntoNamespace(next, "v2", s.name, body).value, s, types, annotate)
  {
    InsertStep(next, s.name, body);
    var out := InsertIntoNamespace(next, "v2", s.name, body).value;
    assert SteppedRoot(defs, out, s, types, annotate) by {
      forall k | k != "v2" ensures RootKept(defs, out, k) { assert RootKept(defs, next, k) && RootKept(next, out, k); }
    }
    V2BodyHolds(defs, next, out, body, s, types, annotate);
  }

  lemma V2BodyHolds(defs: Defs, next: Defs, out: Defs, body: Json, s: Schema, types: map<string, string>, annotate: Annotator)
    requires s.namespace == Some("v2") && DefsPlaced(defs, next, s, types, annotate) && IsBodyOf(body, s.value, types)
    requires V2Kept(next, out) && s.name in V2Defs(out) && V2Defs(out)[s.name] == body
    requires forall n | n in V2Defs(out) :: n == s.name || n in V2Defs(next)
    ensures SteppedV2(defs, out, s, types, annotate)
  {
  }

  lemma RootBodyStep(defs: Defs, next: Defs, body: Json, s: Schema, types: map<string, string>, annotate: Annotator)
    requires s.namespace == None && s.name !in IGNORED && s.name != "v2"
    requires DefsPlaced(defs, next, s, types, annotate) && IsBodyOf(body, s.value, types)
    ensures Stepped(defs, next[s.name := body], s, types, annotate)
  {
    var out := next[s.name := body];
    assert V2Defs(out) == V2Defs(next);
    forall k | k != "v2" && k !in Writes(s, types) ensures RootKept(defs, out, k) { assert RootKept(defs, next, k); }
    forall k | k in Writes(s, types) ensures k in out && IsPlaced(out[k], s, k, types, annotate) {}
  }

  lemma SchemaStep(defs: Defs, s: Schema, types: map<string, string>, annotate: Annotator)
    requires Placeable(s, types, annotate) && PlaceSchema(defs, s, types, annotate).Ok?
    ensures Stepped(defs, PlaceSchema(defs, s, types, annotate).value, s, types, annotate)
  {
    if s.name !in IGNORED {
      var own := OwnDefs(Retargeted(s, types));
      var next := PlaceDefs(defs, s, types, annotate, own, SortedKeys(own.Keys)).value;
      OwnPlaced(defs, s, types, annotate);
      BodyExactly(s, types);
      if s.namespace.Some? {
        V2BodyStep(defs, next, Body(s, types), s, types, annotate);
      } else {
        RootBodyStep(defs, next, Body(s, types), s, types, annotate);
      }
    }
  }

  // ---- Placing all schemas ----

  ghost predicate AllPlaceable(schemas: seq<Schema>, types: map<string, string>, annotate: Annotator) {
    forall s | s in schemas :: Placeable(s, types, annotate)
  }

  lemma V2Remains(a: Defs, b: Defs, s: Schema, types: map<string, string>, annotate: Annotator)
    requires V2Kept(a, b) && V2Holds(a, s, types, annotate)
    ensures V2Holds(b, s, types, annotate)
  {
  }

  lemma {:induction false} V2Step(defs: Defs, schemas: seq<Schema>, types: map<string, string>, annotate: Annotator)
    requires AllPlaceable(schemas, types, annotate) && PlaceAll(defs, schemas, types, annotate).Ok?
    ensures var out := PlaceAll(defs, schemas, types, annotate).value;
            && V2Kept(defs, out) && (forall s | s in schemas :: V2Holds(out, s, types, annotate))
            && (forall n | n in V2Defs(out) :: n in V2Defs(defs) || exists s :: s in schemas && n in Delivered(s))
    decreases |schemas|
  {
    if schemas != [] {
      var first, rest := schemas[0], schemas[1..];
      assert first in schemas;
      SchemaStep(defs, first, types, annotate);
      var next := PlaceSchema(defs, first, types, annotate).value;
      V2Step(next, rest, types, annotate);
      var out := PlaceAll(next, rest, types, annotate).value;
      forall s | s in schemas ensures V2Holds(out, s, types, annotate) {
        if s !in rest {
          assert s == first;
          V2Remains(next, out, first, types, annotate);
        }
      }
    }
  }

  ghost predicate Writer(schemas: seq<Schema>, types: map<string, string>, k: string) {
    exists s :: s in schemas && k in Writes(s, types)
  }

  lemma {:induction false} RootStep(defs: Defs, schemas: seq<Schema>, types: map<string, string>, annotate: Annotator, k: string)
    requires AllPlaceable(schemas, types, annotate) && PlaceAll(defs, schemas, types, annotate).Ok?
    requires k != "v2" && !Writer(schemas, types, k)
    ensures RootKept(defs, PlaceAll(defs, schemas, types, annotate).value, k)
    decreases |schemas|
  {
    if schemas != [] {
      assert schemas[0] in schemas;
      SchemaStep(defs, schemas[0], types, annotate);
      RootStep(PlaceSchema(defs, schemas[0], types, annotate).value, schemas[1..], types, annotate, k);
    }
  }

  lemma {:induction false} PlaceAllSplits(defs: Defs, a: seq<Schema>, b: seq<Schema>, types: map<string, string>, annotate: Annotator)
    ensures PlaceAll(defs, a + b, types, annotate) ==
            match PlaceAll(defs, a, types, annotate) case Ok(mid) => PlaceAll(mid, b, types, annotate) case Err(e) => Err(e)
    decreases |a|
  {
    if a == [] {
      assert a + b == b;
    } else {
      assert (a + b)[1..] == a[1..] + b;
      match PlaceSchema(defs, a[0], types, annotate)
      case Ok(next) => PlaceAllSplits(next, a[1..], b, types, annotate);
      case Err(e) =>
    }
  }

  // ---- The bundle ----

  ghost predicate Bundled(schemas: seq<Schema>, annotate: Annotator, out: Defs) {
    && RefPreserving(annotate) && (forall s | s in schemas :: Ready(s, CollectTypes(schemas)))
    && PlaceAll(map[], schemas, CollectTypes(schemas), annotate) == Ok(out)
  }

  lemma ReadyPlaceable(schemas: seq<Schema>, annotate: Annotator)
    requires RefPreserving(annotate) && forall s | s in schemas :: Ready(s, CollectTypes(schemas))
    ensures AllPlaceable(schemas, CollectTypes(schemas), annotate)
  {
    TypesBrought(schemas);
    TypesOfReady(schemas);
  }

  lemma V2HoldsEach(schemas: seq<Schema>, annotate: Annotator, out: Defs, s: Schema)
    requires Bundled(schemas, annotate, out) && s in schemas
    ensures V2Holds(out, s, CollectTypes(schemas), annotate)
  {
    ReadyPlaceable(schemas, annotate);
    V2Step(map[], schemas, CollectTypes(schemas), annotate);
  }

  lemma V2Only(schemas: seq<Schema>, annotate: Annotator, out: Defs, n: string)
    requires Bundled(schemas, annotate, out) && n in V2Defs(out)
    ensures exists s :: s in schemas && n in Delivered(s)
  {
    ReadyPlaceable(schemas, annotate);
    V2Step(map[], schemas, CollectTypes(schemas), annotate);
  }

  /**
    MAIN: v2 holds every namespaced schema under its name, field by field without its definitions,
    and every definition of it that is not skipped; it holds nothing else.
   */
  lemma V2Content(schemas: seq<Schema>, annotate: Annotator, out: Defs)
    requires Bundled(schemas, annotate, out)
    ensures forall s | s in schemas && s.namespace.Some? ::
              s.name in V2Defs(out) && IsBodyOf(V2Defs(out)[s.name], s.value, CollectTypes(schemas))
    ensures forall s, d | s in schemas && s.namespace.Some? && d in OwnDefs(s.value) && !Skipped(d) ::
              d in V2Defs(out) && V2Defs(out)[d] == PlacedDef(OwnDef(s, d), d, CollectTypes(schemas), annotate)
    ensures forall n | n in V2Defs(out) :: exists s :: s in schemas && n in Delivered(s)
  {
    forall s | s in schemas && s.namespace.Some?
      ensures s.name in V2Defs(out) && IsBodyOf(V2Defs(out)[s.name], s.value, CollectTypes(schemas))
      ensures forall d | d in OwnDefs(s.value) && !Skipped(d) ::
                d in V2Defs(out) && V2Defs(out)[d] == PlacedDef(OwnDef(s, d), d, CollectTypes(schemas), annotate)
    {
      V2HoldsEach(schemas, annotate, out, s);
      assert s.name in Delivered(s);
    }
    forall n | n in V2Defs(out) ensures exists s :: s in schemas && n in Delivered(s) {
      V2Only(schemas, annotate, out, n);
    }
  }

  /** MAIN: a root name holds what the last schema to write it put there. */
  lemma RootContent(before: seq<Schema>, s: Schema, after: seq<Schema>, annotate: Annotator, out: Defs, k: string)
    requires Bundled(before + [s] + after, annotate, out)
    requires k in Writes(s, CollectTypes(before + [s] + after)) && !Writer(after, CollectTypes(before + [s] + after), k)
    ensures k in out && IsPlaced(out[k], s, k, CollectTypes(before + [s] + after), annotate)
  {
    var schemas := before + [s] + after;
    var types := CollectTypes(schemas);
    ReadyPlaceable(schemas, annotate);
    assert s in schemas && forall x | x in after :: x in schemas;
    assert k != "v2" by { assert Ready(s, types); }
    assert schemas == before + ([s] + after);
    PlaceAllSplits(map[], before, [s] + after, types, annotate);
    var mid := PlaceAll(map[], before, types, annotate).value;
    assert ([s] + after)[0] == s && ([s] + after)[1..] == after;
    SchemaStep(mid, s, types, annotate);
    RootStep(PlaceSchema(mid, s, types, annotate).value, after, types, annotate, k);
  }

  /** A root name that no schema writes is not there. */
  lemma RootOnly(schemas: seq<Schema>, annotate: Annotator, out: Defs, k: string)
    requires Bundled(schemas, annotate, out) && k in out && k != "v2"
    ensures Writer(schemas, CollectTypes(schemas), k)
  {
    ReadyPlaceable(schemas, annotate);
    if !Writer(schemas, CollectTypes(schemas), k) {
      RootStep(map[], schemas, CollectTypes(schemas), annotate, k);
    }
  }

  /** `name` is `base` with a number appended. */
  ghost predicate Numbered(name: string, base: string) {
    && base <= name && base != name
    && (forall i | |base| <= i < |name| :: '0' <= name[i] <= '9')
    && (base != [] ==> !('0' <= base[|base| - 1] <= '9'))
  }

  lemma {:induction false} TrimDigitsNumbered(name: string)
    ensures TrimDigits(name) == name || Numbered(name, TrimDigits(name))
    ensures TrimDigits(name) != [] ==> !IsDigit(TrimDigits(name)[|TrimDigits(name)| - 1])
  {
    if name != [] && IsDigit(name[|name| - 1]) {
      var shorter := name[..|name| - 1];
      TrimDigitsNumbered(shorter);
      forall i | |TrimDigits(name)| <= i < |name| ensures '0' <= name[i] <= '9' {
        if i < |name| - 1 { assert name[i] == shorter[i]; }
      }
    }
  }

  lemma {:induction false} NumberedTrims(name: string, base: string)
    requires Numbered(name, base)
    ensures TrimDigits(name) == base
  {
    var shorter := name[..|name| - 1];
    if |base| == |shorter| {
      assert shorter == base;
    } else {
      assert Numbered(shorter, base);
      NumberedTrims(shorter, base);
    }
  }

  /** A name belongs to the namespace that brings it, or else to the one that brings it without its number. */
  lemma NamespaceForExactly(name: string, types: map<string, string>, ns: string)
    ensures NamespaceFor(name, types) == Some(ns) <==>
            if name in types then types[name] == ns
            else exists base :: Numbered(name, base) && base in types && types[base] == ns
  {
    TrimDigitsNumbered(name);
    forall base | Numbered(name, base) ensures TrimDigits(name) == base { NumberedTrims(name, base); }
  }

  // ---- What a schema means in the bundle ----

  /** Adding titles does not look at refs. */
  ghost predicate Commutes(annotate: Annotator, u: string -> string) {
    forall j, base :: annotate(MapRefs(j, u), base) == MapRefs(annotate(j, base), u)
  }

  /** A schema's definitions with their titles. */
  ghost function Titled(s: Schema, annotate: Annotator): Defs {
    map d | d in OwnDefs(s.value) :: annotate(OwnDefs(s.value)[d], d)
  }

  /** Every ref is to one of the schema's own definitions. */
  ghost predicate SelfContained(s: Schema) {
    forall r | r in Refs(s.value) :: DEFS <= r && r[|DEFS|..] in OwnDefs(s.value)
  }

  /** Where a ref now leads, the bundle holds this schema's version of the definition. */
  ghost predicate Settled(s: Schema, types: map<string, string>, annotate: Annotator, out: Defs, d: string)
    requires d in OwnDefs(s.value)
  {
    var at := if d in types then V2Defs(out) else out;
    d in at && at[d] == PlacedDef(OwnDef(s, d), d, types, annotate)
  }

  ghost predicate AllSettled(s: Schema, types: map<string, string>, annotate: Annotator, out: Defs)
    requires SelfContained(s)
  {
    forall r | r in Refs(s.value) :: Settled(s, types, annotate, out, r[|DEFS|..])
  }

  ghost function RefSet(j: Json): iset<string> { iset r | r in Refs(j) }

  lemma DefRefs(s: Schema, annotate: Annotator, d: string)
    requires RefPreserving(annotate) && d in OwnDefs(s.value)
    ensures Refs(annotate(OwnDef(s, d), d)) <= Refs(s.value)
  {
    RefsOfField(OwnDefs(s.value), d);
    RefsOfField(s.value.fields, "definitions");
  }

  lemma RefFollowed(s: Schema, types: map<string, string>, annotate: Annotator, out: Defs, r: string)
    requires DEFS <= r && r[|DEFS|..] in OwnDefs(s.value) && Plain(r[|DEFS|..])
    requires Settled(s, types, annotate, out, r[|DEFS|..]) && Commutes(annotate, Relocate(types))
    ensures var d := r[|DEFS|..];
            && Look(Titled(s, annotate))(r) == Some(annotate(OwnDef(s, d), d))
            && Look(out)(Relocate(types)(r)) == Some(MapRefs(annotate(OwnDef(s, d), d), Relocate(types)))
  {
    var d := r[|DEFS|..];
    assert r == DEFS + d;
    ResolveRoot(Titled(s, annotate), d);
    if d in types { ResolveV2(out, d); } else { ResolveRoot(out, d); }
  }

  lemma BundleSimulates(s: Schema, types: map<string, string>, annotate: Annotator, out: Defs)
    requires RefPreserving(annotate) && Commutes(annotate, Relocate(types))
    requires SelfContained(s) && AllSettled(s, types, annotate, out)
    requires forall d | d in OwnDefs(s.value) :: Plain(d)
    ensures Simulates(Look(out), Look(Titled(s, annotate)), Relocate(types), RefSet(s.value))
  {
    var a, b := Look(out), Look(Titled(s, annotate));
    forall r | r in RefSet(s.value)
      ensures b(r).Some? && a(Relocate(types)(r)) == Some(MapRefs(b(r).value, Relocate(types)))
      ensures forall t | t in Refs(b(r).value) :: t in RefSet(s.value)
    {
      RefFollowed(s, types, annotate, out, r);
      DefRefs(s, annotate, r[|DEFS|..]);
    }
  }

  /** A schema without its definitions. */
  ghost function Outside(value: Json): Json {
    if value.Obj? then Obj(map k | k in value.fields && k != "definitions" :: value.fields[k]) else value
  }

  lemma BodyIsOutside(placed: Json, value: Json, types: map<string, string>)
    requires IsBodyOf(placed, value, types)
    ensures placed == MapRefs(Outside(value), Relocate(types))
  {
    if value.Obj? {
      assert placed.fields == MapRefs(Outside(value), Relocate(types)).fields;
    }
  }

  lemma OutsideRefs(value: Json)
    ensures Refs(Outside(value)) <= Refs(value)
  {
    if value.Obj? {
      var m := Outside(value).fields;
      forall r | r in Refs(Outside(value)) ensures r in Refs(value) {
        if r !in RefHere(Outside(value)) {
          var k :| k in m && r in Refs(m[k]);
          RefsOfField(value.fields, k);
        }
      }
    }
  }

  /** What is placed for a schema unfolds in the bundle as the schema did against its own definitions. */
  lemma UnfoldsInBundle(s: Schema, types: map<string, string>, annotate: Annotator, out: Defs, placed: Json, n: nat)
    requires RefPreserving(annotate) && Commutes(annotate, Relocate(types))
    requires SelfContained(s) && AllSettled(s, types, annotate, out) && IsBodyOf(placed, s.value, types)
    requires forall d | d in OwnDefs(s.value) :: Plain(d)
    ensures Unfold(out, placed, n) == Unfold(Titled(s, annotate), Outside(s.value), n)
  {
    BundleSimulates(s, types, annotate, out);
    BodyIsOutside(placed, s.value, types);
    OutsideRefs(s.value);
    SimulatedUnfolding(out, Titled(s, annotate), Relocate(types), RefSet(s.value), Outside(s.value), n);
  }

  lemma ReadyTarget(s: Schema, types: map<string, string>, r: string)
    requires Ready(s, types) && r in Refs(s.value) && DEFS <= r
    ensures !Skipped(r[|DEFS|..]) && Undigited(r[|DEFS|..], types)
  {
    assert ReadyRef(s, types, r);
    var name :| Plain(name) && r == DEFS + name && !Skipped(name) && Undigited(name, types)
      && (name in OwnDefs(s.value) || name in types);
    assert r[|DEFS|..] == name;
  }

  lemma OwnBrought(schemas: seq<Schema>, s: Schema, d: string)
    requires s in schemas && s.namespace.Some? && d in OwnDefs(s.value)
    ensures d in CollectTypes(schemas)
  {
    TypesBrought(schemas);
    assert d in Brings(s);
  }

  lemma V2Settled(schemas: seq<Schema>, annotate: Annotator, out: Defs, s: Schema, d: string)
    requires Bundled(schemas, annotate, out) && s in schemas && s.namespace.Some?
    requires d in OwnDefs(s.value) && !Skipped(d)
    ensures Settled(s, CollectTypes(schemas), annotate, out, d)
  {
    OwnBrought(schemas, s, d);
    V2HoldsEach(schemas, annotate, out, s);
  }

  /** MAIN: a self-contained namespaced schema means in the bundle what it meant on its own, to every depth. */
  lemma V2Meaning(schemas: seq<Schema>, annotate: Annotator, out: Defs, s: Schema, n: nat)
    requires Bundled(schemas, annotate, out) && Commutes(annotate, Relocate(CollectTypes(schemas)))
    requires s in schemas && s.namespace.Some? && SelfContained(s)
    ensures s.name in V2Defs(out)
    ensures Unfold(out, V2Defs(out)[s.name], n) == Unfold(Titled(s, annotate), Outside(s.value), n)
  {
    var types := CollectTypes(schemas);
    V2HoldsEach(schemas, annotate, out, s);
    assert s.name in Delivered(s);
    forall r | r in Refs(s.value) ensures Settled(s, types, annotate, out, r[|DEFS|..]) {
      ReadyTarget(s, types, r);
      V2Settled(schemas, annotate, out, s, r[|DEFS|..]);
    }
    assert Ready(s, types);
    UnfoldsInBundle(s, types, annotate, out, V2Defs(out)[s.name], n);
  }

  // ---- Root schemas share their definitions ----

  predicate SameDef(s: Schema, t: Schema, d: string) {
    d in OwnDefs(s.value) && d in OwnDefs(t.value) && OwnDef(s, d) == OwnDef(t, d)
  }

  /**
    The others agree with a schema on a definition: the v2 schema that brings it has the same one,
    or, if none brings it, every later schema that writes it at the root has.
   */
  ghost predicate Agreed(schemas: seq<Schema>, s: Schema, after: seq<Schema>, d: string) {
    var types := CollectTypes(schemas);
    if d in types then exists t :: t in schemas && t.namespace.Some? && SameDef(s, t, d)
    else d != s.name && forall t | t in after && d in Writes(t, types) :: d != t.name && SameDef(s, t, d)
  }

  lemma {:induction false} LastWriter(schemas: seq<Schema>, types: map<string, string>, k: string) returns (i: nat)
    requires Writer(schemas, types, k)
    ensures i < |schemas| && k in Writes(schemas[i], types) && !Writer(schemas[i + 1..], types, k)
    decreases |schemas|
  {
    var rest := schemas[1..];
    if Writer(rest, types, k) {
      var j := LastWriter(rest, types, k);
      i := j + 1;
      assert schemas[i + 1..] == rest[j + 1..];
    } else {
      i := 0;
      var s :| s in schemas && k in Writes(s, types);
      assert s == schemas[0] || s in rest;
    }
  }

  lemma RootAgreed(before: seq<Schema>, s: Schema, after: seq<Schema>, annotate: Annotator, out: Defs, d: string)
    requires Bundled(before + [s] + after, annotate, out) && d in OwnDefs(s.value) && d != s.name
    requires d in Writes(s, CollectTypes(before + [s] + after))
    requires forall t | t in after && d in Writes(t, CollectTypes(before + [s] + after)) :: d != t.name && SameDef(s, t, d)
    ensures d in out && out[d] == PlacedDef(OwnDef(s, d), d, CollectTypes(before + [s] + after), annotate)
  {
    var types := CollectTypes(before + [s] + after);
    if Writer(after, types, d) {
      var i := LastWriter(after, types, d);
      var t, earlier, later := after[i], before + [s] + after[..i], after[i + 1..];
      assert before + [s] + after == earlier + [t] + later;
      RootContent(earlier, t, later, annotate, out, d);
      assert SameDef(s, t, d);
    } else {
      RootContent(before, s, after, annotate, out, d);
    }
  }

  lemma RootSettled(before: seq<Schema>, s: Schema, after: seq<Schema>, annotate: Annotator, out: Defs, r: string)
    requires Bundled(before + [s] + after, annotate, out) && s.namespace.None? && s.name !in IGNORED
    requires SelfContained(s) && r in Refs(s.value) && Agreed(before + [s] + after, s, after, r[|DEFS|..])
    ensures Settled(s, CollectTypes(before + [s] + after), annotate, out, r[|DEFS|..])
  {
    var schemas, d := before + [s] + after, r[|DEFS|..];
    var types := CollectTypes(schemas);
    assert s in schemas;
    ReadyTarget(s, types, r);
    if d in types {
      var t :| t in schemas && t.namespace.Some? && SameDef(s, t, d);
      V2Settled(schemas, annotate, out, t, d);
    } else {
      RootAgreed(before, s, after, annotate, out, d);
    }
  }

  /**
    MAIN: a self-contained root schema that is the last to write its name means in the bundle what
    it meant on its own, when the others agree with it on the definitions it refers to.
   */
  lemma RootMeaning(before: seq<Schema>, s: Schema, after: seq<Schema>, annotate: Annotator, out: Defs, n: nat)
    requires Bundled(before + [s] + after, annotate, out)
    requires Commutes(annotate, Relocate(CollectTypes(before + [s] + after)))
    requires s.namespace.None? && s.name !in IGNORED && SelfContained(s)
    requires !Writer(after, CollectTypes(before + [s] + after), s.name)
    requires forall r | r in Refs(s.value) :: Agreed(before + [s] + after, s, after, r[|DEFS|..])
    ensures s.name in out
    ensures Unfold(out, out[s.name], n) == Unfold(Titled(s, annotate), Outside(s.value), n)
  {
    var types := CollectTypes(before + [s] + after);
    RootContent(before, s, after, annotate, out, s.name);
    assert s in before + [s] + after;
    forall r | r in Refs(s.value) ensures Settled(s, types, annotate, out, r[|DEFS|..]) {
      RootSettled(before, s, after, annotate, out, r);
    }
    UnfoldsInBundle(s, types, annotate, out, out[s.name], n);
  }

  // ---- When bundling fails ----

  /** A namespaced schema puts `j` under `k`: its body under its name, a definition under the definition's. */
  ghost predicate Puts(s: Schema, types: map<string, string>, annotate: Annotator, k: string, j: Json) {
    && s.namespace.Some?
    && ((k == s.name && IsBodyOf(j, s.value, types))
        || (k in OwnDefs(s.value) && !Skipped(k) && j == PlacedDef(OwnDef(s, k), k, types, annotate)))
  }

  /** Two different things are put under one name. */
  ghost predicate Clash(schemas: seq<Schema>, types: map<string, string>, annotate: Annotator, k: string) {
    exists s, t, a, b :: s in schemas && t in schemas && Puts(s, types, annotate, k, a) && Puts(t, types, annotate, k, b) && a != b
  }

  /** What is under v2 was put there by one of the schemas. */
  ghost predicate Originates(schemas: seq<Schema>, types: map<string, string>, annotate: Annotator, defs: Defs) {
    && ("v2" in defs ==> defs["v2"].Obj?)
    && forall k | k in V2Defs(defs) :: exists s :: s in schemas && Puts(s, types, annotate, k, V2Defs(defs)[k])
  }

  ghost predicate Accounted(schemas: seq<Schema>, types: map<string, string>, annotate: Annotator, r: Placed) {
    match r
    case Ok(next) => Originates(schemas, types, annotate, next)
    case Err(e) => e.Collision? && e.namespace == "v2" && Clash(schemas, types, annotate, e.name)
  }

  lemma InsertAccounted(schemas: seq<Schema>, types: map<string, string>, annotate: Annotator, defs: Defs, s: Schema, k: string, j: Json)
    requires Originates(schemas, types, annotate, defs) && s in schemas && Puts(s, types, annotate, k, j)
    ensures Accounted(schemas, types, annotate, InsertIntoNamespace(defs, "v2", k, j))
  {
    match InsertIntoNamespace(defs, "v2", k, j)
    case Ok(next) =>
      InsertStep(defs, k, j);
      forall n | n in V2Defs(next) ensures exists t :: t in schemas && Puts(t, types, annotate, n, V2Defs(next)[n]) {
        if n != k { assert V2Defs(next)[n] == V2Defs(defs)[n]; }
      }
    case Err(e) =>
      var t :| t in schemas && Puts(t, types, annotate, k, V2Defs(defs)[k]);
  }

  lemma DefAccounted(schemas: seq<Schema>, types: map<string, string>, annotate: Annotator, defs: Defs, s: Schema, d: string)
    requires Originates(schemas, types, annotate, defs) && s in schemas && Placeable(s, types, annotate)
    requires d in OwnDefs(s.value) && d in OwnDefs(Retargeted(s, types))
    ensures Accounted(schemas, types, annotate, PlaceDef(defs, s, types, annotate, d, OwnDefs(Retargeted(s, types))[d]))
  {
    if s.namespace.Some? && !Skipped(d) {
      NamespacedDefExactly(s, types, annotate, d);
      InsertAccounted(schemas, types, annotate, defs, s, d, PlacedDef(OwnDef(s, d), d, types, annotate));
    } else {
      RootAccounted(schemas, types, annotate, defs, d, annotate(OwnDefs(Retargeted(s, types))[d], d));
    }
  }

  lemma RootAccounted(schemas: seq<Schema>, types: map<string, string>, annotate: Annotator, defs: Defs, k: string, j: Json)
    requires Originates(schemas, types, annotate, defs) && k != "v2"
    ensures Originates(schemas, types, annotate, defs[k := j])
  {
    assert V2Defs(defs[k := j]) == V2Defs(defs);
  }

  lemma {:induction false} DefsAccounted(schemas: seq<Schema>, types: map<string, string>, annotate: Annotator, defs: Defs, s: Schema, keys: seq<string>)
    requires Originates(schemas, types, annotate, defs) && s in schemas && Placeable(s, types, annotate)
    requires forall k | k in keys :: k in OwnDefs(s.value) && k in OwnDefs(Retargeted(s, types))
    ensures Accounted(schemas, types, annotate, PlaceDefs(defs, s, types, annotate, OwnDefs(Retargeted(s, types)), keys))
    decreases |keys|
  {
    if keys != [] {
      var own := OwnDefs(Retargeted(s, types));
      assert keys[0] in keys;
      DefAccounted(schemas, types, annotate, defs, s, keys[0]);
      match PlaceDef(defs, s, types, annotate, keys[0], own[keys[0]])
      case Ok(next) => DefsAccounted(schemas, types, annotate, next, s, keys[1..]);
      case Err(_) =>
    }
  }

  lemma SchemaAccounted(schemas: seq<Schema>, types: map<string, string>, annotate: Annotator, defs: Defs, s: Schema)
    requires Originates(schemas, types, annotate, defs) && s in schemas && Placeable(s, types, annotate)
    ensures Accounted(schemas, types, annotate, PlaceSchema(defs, s, types, annotate))
  {
    if s.name !in IGNORED {
      var own := OwnDefs(Retargeted(s, types));
      var keys := SortedKeys(own.Keys);
      RetargetedOwnDefs(s, types);
      DefsAccounted(schemas, types, annotate, defs, s, keys);
      BodyExactly(s, types);
      match PlaceDefs(defs, s, types, annotate, own, keys)
      case Ok(next) =>
        if s.namespace.Some? {
          InsertAccounted(schemas, types, annotate, next, s, s.name, Body(s, types));
        } else {
          RootAccounted(schemas, types, annotate, next, s.name, Body(s, types));
        }
      case Err(_) =>
    }
  }

  lemma {:induction false} AllAccounted(schemas: seq<Schema>, types: map<string, string>, annotate: Annotator, defs: Defs, rest: seq<Schema>)
    requires Originates(schemas, types, annotate, defs) && forall s | s in rest :: s in schemas && Placeable(s, types, annotate)
    ensures Accounted(schemas, types, annotate, PlaceAll(defs, rest, types, annotate))
    decreases |rest|
  {
    if rest != [] {
      assert rest[0] in rest;
      SchemaAccounted(schemas, types, annotate, defs, rest[0]);
      match PlaceSchema(defs, rest[0], types, annotate)
      case Ok(next) => AllAccounted(schemas, types, annotate, next, rest[1..]);
      case Err(_) =>
    }
  }

  /** In a finished bundle a name holds whatever is put under it. */
  lemma PutIsThere(schemas: seq<Schema>, annotate: Annotator, out: Defs, s: Schema, k: string, j: Json)
    requires Bundled(schemas, annotate, out) && s in schemas && Puts(s, CollectTypes(schemas), annotate, k, j)
    ensures k in V2Defs(out) && V2Defs(out)[k] == j
  {
    var types := CollectTypes(schemas);
    V2HoldsEach(schemas, annotate, out, s);
    if k == s.name && IsBodyOf(j, s.value, types) {
      assert k in Delivered(s);
      BodyIsOutside(j, s.value, types);
      BodyIsOutside(V2Defs(out)[k], s.value, types);
    }
  }

  /**
    MAIN: bundling ready schemas succeeds if and only if no two of them, nor one of them twice, put
    different things under one v2 name; the error names such a collision.
   */
  lemma BundleFailsExactlyWhen(schemas: seq<Schema>, annotate: Annotator)
    requires RefPreserving(annotate) && forall s | s in schemas :: Ready(s, CollectTypes(schemas))
    ensures var types := CollectTypes(schemas);
            var r := PlaceAll(map[], schemas, types, annotate);
            && (r.Ok? <==> forall k :: !Clash(schemas, types, annotate, k))
            && (r.Err? ==> r.error.Collision? && r.error.namespace == "v2" && Clash(schemas, types, annotate, r.error.name))
  {
    var types := CollectTypes(schemas);
    var r := PlaceAll(map[], schemas, types, annotate);
    ReadyPlaceable(schemas, annotate);
    AllAccounted(schemas, types, annotate, map[], schemas);
    if r.Ok? {
      forall k ensures !Clash(schemas, types, annotate, k) { NoClash(schemas, annotate, r.value, k); }
    }
  }

  lemma NoClash(schemas: seq<Schema>, annotate: Annotator, out: Defs, k: string)
    requires Bundled(schemas, annotate, out)
    ensures !Clash(schemas, CollectTypes(schemas), annotate, k)
  {
    forall s, j | s in schemas && Puts(s, CollectTypes(schemas), annotate, k, j) ensures k in V2Defs(out) && V2Defs(out)[k] == j {
      PutIsThere(schemas, annotate, out, s, k, j);
    }
  }
}
