/**
  Bundling followed by flattening, as the export runs them: what bundling guarantees is
  what flattening needs.
 */
module SchemaPipeline {
  import opened Text
  import opened JsonValue
  import opened SchemaRefs
  import opened SchemaBundle
  import SchemaFlat

  /** The root and the v2 namespace of the bundle have no name in common. */
  ghost predicate NoSharedNames(out: Defs) { V2Defs(out).Keys !! out.Keys }

  lemma PlacedRefIsFlat(out: Defs, roots: set<string>, owned: set<string>, r: string)
    requires RefIn(roots, owned, r) && owned <= V2Defs(out).Keys
    ensures SchemaFlat.IsV2Ref(V2Defs(out), r) || SchemaFlat.IsRootRef(roots, r)
  {
    if exists name :: name in owned && Plain(name) && r == V2 + name {
      var name :| name in owned && Plain(name) && r == V2 + name;
      assert name in V2Defs(out);
    }
  }

  lemma NoOuterRefs(out: Defs)
    ensures Refs(SchemaFlat.Outer(Document(out))) == {}
  {
    var outer := SchemaFlat.Outer(Document(out)).fields;
    assert RefHere(Obj(outer)) == {};
    assert forall f | f in outer :: Refs(outer[f]) == {};
  }

  lemma GoodIsFlatReady(out: Defs, owned: set<string>)
    requires Good(out, Roots(out), owned) && owned <= V2Defs(out).Keys && "v2" in out && NoSharedNames(out)
    ensures SchemaFlat.FlatReady(Document(out)) && SchemaFlat.OuterRefsReached(Document(out))
  {
    var v2 := V2Defs(out);
    NoOuterRefs(out);
    assert out["v2"] == Obj(v2);
    forall k, r | k in v2 && r in Refs(v2[k]) ensures SchemaFlat.IsV2Ref(v2, r) {
      RefsOfField(v2, k);
      PlacedRefIsFlat(out, {}, owned, r);
    }
    forall k, r | k in out && k != "v2" && r in Refs(out[k])
      ensures SchemaFlat.IsV2Ref(v2, r) || SchemaFlat.IsRootRef(out.Keys - {"v2"}, r)
    {
      PlacedRefIsFlat(out, Roots(out), owned, r);
    }
  }

  /**
    MAIN: a successful bundle of ready schemas, one of them in v2, whose root and v2 share
    no name, is ready to be flattened.
   */
  lemma BundleIsFlatReady(schemas: seq<Schema>, annotate: Annotator, s: Schema)
    requires RefPreserving(annotate)
    requires forall x | x in schemas :: Ready(x, CollectTypes(schemas))
    requires s in schemas && s.namespace.Some?
    requires PlaceAll(map[], schemas, CollectTypes(schemas), annotate).Ok?
    requires NoSharedNames(PlaceAll(map[], schemas, CollectTypes(schemas), annotate).value)
    ensures var bundle := Document(PlaceAll(map[], schemas, CollectTypes(schemas), annotate).value);
            SchemaFlat.FlatReady(bundle) && SchemaFlat.OuterRefsReached(bundle)
  {
    TypesBrought(schemas);
    TypesOfReady(schemas);
    ReadyWith(schemas, CollectTypes(schemas), annotate, s);
  }

  lemma ReadyWith(schemas: seq<Schema>, types: map<string, string>, annotate: Annotator, s: Schema)
    requires RefPreserving(annotate) && OneNamespace(types)
    requires forall x | x in schemas :: Ready(x, types) && (x.namespace.Some? ==> Brings(x) <= types.Keys)
    requires forall n | n in types :: exists x :: x in schemas && BringsAs(x, n, types[n])
    requires s in schemas && s.namespace.Some? && PlaceAll(map[], schemas, types, annotate).Ok?
    requires NoSharedNames(PlaceAll(map[], schemas, types, annotate).value)
    ensures var bundle := Document(PlaceAll(map[], schemas, types, annotate).value);
            SchemaFlat.FlatReady(bundle) && SchemaFlat.OuterRefsReached(bundle)
  {
    GoodBundle(schemas, types, annotate);
    DeliveredIsFlatReady(PlaceAll(map[], schemas, types, annotate).value, Owned(types), s);
  }

  lemma DeliveredIsFlatReady(out: Defs, owned: set<string>, s: Schema)
    requires Good(out, Roots(out), owned) && owned <= V2Defs(out).Keys && NoSharedNames(out)
    requires s.namespace.Some? && Delivered(s) <= V2Defs(out).Keys
    ensures SchemaFlat.FlatReady(Document(out)) && SchemaFlat.OuterRefsReached(Document(out))
  {
    assert s.name in Delivered(s);
    GoodIsFlatReady(out, owned);
  }

  /** Both passes: the flat bundle exists and every definition means what it meant in the mixed one. */
  method BundleAndFlatten(schemas: seq<Schema>, annotate: Annotator)
    returns (mixed: Result<Json, BundleError>, flat: Option<Result<Json, SchemaFlat.FlatError>>)
    ensures mixed.Ok? <==> flat.Some?
    ensures RefPreserving(annotate) && (forall x | x in schemas :: Ready(x, CollectTypes(schemas)))
            && (exists s :: s in schemas && s.namespace.Some?) && mixed.Ok? && NoSharedNames(OwnDefs(mixed.value)) ==>
              flat.value.Ok? && SchemaFlat.PreservesMeaning(mixed.value, flat.value.value)
  {
    mixed := BuildSchemaBundle(schemas, annotate);
    if mixed.Err? { return mixed, None; }
    var r := SchemaFlat.BuildFlatV2Schema(mixed.value);
    flat := Some(r);
    if RefPreserving(annotate) && (forall x | x in schemas :: Ready(x, CollectTypes(schemas)))
       && (exists s :: s in schemas && s.namespace.Some?) && NoSharedNames(OwnDefs(mixed.value)) {
      var s :| s in schemas && s.namespace.Some?;
      BundleIsFlatReady(schemas, annotate, s);
    }
  }
}
