/**
  Bundling generated schemas into one document: namespaced schemas go under their
  namespace, root schemas to the root map, and every `$ref` follows its target.
 */
module SchemaBundle {
  import opened Text
  import opened JsonValue
  import opened Serializer
  import opened SchemaRefs

  datatype Schema = Schema(namespace: Option<string>, name: string, value: Json, inV1: bool)

  datatype BundleError = Collision(namespace: string, name: string) | NotAMap(namespace: string)

  type Placed = Result<Defs, BundleError>

  const IGNORED: set<string> := {"Option<()>"}
  const SPECIAL: set<string> := {"ClientNotification", "ClientRequest", "ServerNotification", "ServerRequest"}

  /** Definitions with these names are not copied out of a schema. */
  predicate Skipped(name: string) { name in IGNORED || name in SPECIAL }

  /** Titles are added by a step that is not modelled; it is a parameter here. */
  type Annotator = (Json, string) -> Json

  ghost predicate RefPreserving(annotate: Annotator) {
    forall j, base :: Refs(annotate(j, base)) == Refs(j)
  }

  // ---- Who owns a type ----

  function OwnDefs(value: Json): Defs {
    match GetObj(value, "definitions") case Some(m) => m case None => map[]
  }

  function DollarDefs(value: Json): Defs {
    match GetObj(value, "$defs") case Some(m) => m case None => map[]
  }

  /** The names a namespaced schema brings along. */
  function Brings(s: Schema): set<string> {
    {s.name} + OwnDefs(s.value).Keys + DollarDefs(s.value).Keys
  }

  /** Which namespace owns a name; the first schema to bring it decides. */
  function CollectTypes(schemas: seq<Schema>): map<string, string> {
    if schemas == [] then map[]
    else
      var s, rest := schemas[0], CollectTypes(schemas[1..]);
      if s.namespace.None? then rest else rest + map n | n in Brings(s) :: s.namespace.value
  }

  predicate IsDigit(c: char) { '0' <= c <= '9' }

  function TrimDigits(name: string): string {
    if name != [] && IsDigit(name[|name| - 1]) then TrimDigits(name[..|name| - 1]) else name
  }

  /** A generated name such as `Foo2` belongs to the owner of `Foo`. */
  function NamespaceFor(name: string, types: map<string, string>): Option<string> {
    if name in types then Some(types[name])
    else if TrimDigits(name) != name && TrimDigits(name) in types then Some(types[TrimDigits(name)])
    else None
  }

  // ---- Rewriting refs ----

  function ToNamespace(ns: string, r: string): string {
    if DEFS <= r && !(ns + "/" <= r[|DEFS|..]) then DEFS + ns + "/" + r[|DEFS|..] else r
  }

  function ToKnown(types: map<string, string>, r: string): string {
    if !(DEFS <= r) then r
    else match NamespaceFor(FirstSegment(r[|DEFS|..]), types)
      case Some(ns) => DEFS + ns + "/" + r[|DEFS|..]
      case None => r
  }

  function NamedToNamespace(ns: string, name: string, r: string): string {
    if r == DEFS + name then DEFS + ns + "/" + name
    else if DEFS + name + "/" <= r then DEFS + ns + "/" + r[|DEFS|..]
    else r
  }

  function Retargeted(s: Schema, types: map<string, string>): Json {
    match s.namespace
    case Some(ns) => MapRefs(s.value, r => ToNamespace(ns, r))
    case None => MapRefs(s.value, r => ToKnown(types, r))
  }

  // ---- Placing definitions ----

  function InsertIntoNamespace(defs: Defs, ns: string, name: string, schema: Json): Placed {
    var entry := if ns in defs then defs[ns] else Obj(map[]);
    if !entry.Obj? then Err(NotAMap(ns))
    else if name in entry.fields && entry.fields[name] != schema then Err(Collision(ns, name))
    else Ok(defs[ns := Obj(entry.fields[name := schema])])
  }

  /** The namespace a definition of a root schema belongs to, if it is to be moved there. */
  function TargetOf(s: Schema, types: map<string, string>, name: string): Option<string> {
    if s.namespace.Some? then s.namespace
    else if s.inV1 then None else NamespaceFor(name, types)
  }

  function PlaceDef(defs: Defs, s: Schema, types: map<string, string>, annotate: Annotator, name: string, def: Json): Placed {
    if Skipped(name) then Ok(defs)
    else
      match TargetOf(s, types, name)
      case None => Ok(defs[name := annotate(def, name)])
      case Some(ns) =>
        if s.namespace == Some(ns)
        then InsertIntoNamespace(defs, ns, name, MapRefs(annotate(def, name), r => ToNamespace(ns, r)))
        else Ok(defs)
  }

  function PlaceDefs(defs: Defs, s: Schema, types: map<string, string>, annotate: Annotator, own: Defs, keys: seq<string>): Placed
    requires forall k | k in keys :: k in own
    decreases |keys|
  {
    if keys == [] then Ok(defs)
    else match PlaceDef(defs, s, types, annotate, keys[0], own[keys[0]])
      case Err(e) => Err(e)
      case Ok(next) => PlaceDefs(next, s, types, annotate, own, keys[1..])
  }

  /** Refs of a root schema to definitions it gave up are sent to the new owner. */
  function Surrendered(value: Json, s: Schema, types: map<string, string>, keys: seq<string>): Json
    decreases |keys|
  {
    if keys == [] then value
    else
      match TargetOf(s, types, keys[0])
      case Some(ns) =>
        if Skipped(keys[0]) || s.namespace == Some(ns) then Surrendered(value, s, types, keys[1..])
        else
          var moved := keys[0];
          Surrendered(MapRefs(value, r => NamedToNamespace(ns, moved, r)), s, types, keys[1..])
      case None => Surrendered(value, s, types, keys[1..])
  }

  function WithoutDefs(value: Json): Json {
    if value.Obj? then Obj(value.fields - {"definitions"}) else value
  }

  function PlaceSchema(defs: Defs, s: Schema, types: map<string, string>, annotate: Annotator): Placed {
    if s.name in IGNORED then Ok(defs)
    else
      var value := Retargeted(s, types);
      var own := OwnDefs(value);
      var keys := SortedKeys(own.Keys);
      match PlaceDefs(defs, s, types, annotate, own, keys)
      case Err(e) => Err(e)
      case Ok(next) =>
        var body := Surrendered(WithoutDefs(value), s, types, keys);
        match s.namespace
        case Some(ns) => InsertIntoNamespace(next, ns, s.name, body)
        case None => Ok(next[s.name := body])
  }

  function PlaceAll(defs: Defs, schemas: seq<Schema>, types: map<string, string>, annotate: Annotator): Placed
    decreases |schemas|
  {
    if schemas == [] then Ok(defs)
    else match PlaceSchema(defs, schemas[0], types, annotate)
      case Err(e) => Err(e)
      case Ok(next) => PlaceAll(next, schemas[1..], types, annotate)
  }

  function Document(defs: Defs): Json {
    Obj(map["$schema" := Str("http://json-schema.org/draft-07/schema#"),
            "title" := Str("CodexAppServerProtocol"),
            "type" := Str("object"),
            "definitions" := Obj(defs)])
  }

  /** The loop over the schemas; it stops at the first definition that cannot be placed. */
  method BuildSchemaBundle(schemas: seq<Schema>, annotate: Annotator) returns (r: Result<Json, BundleError>)
    ensures r == match PlaceAll(map[], schemas, CollectTypes(schemas), annotate)
                 case Ok(defs) => Ok(Document(defs))
                 case Err(e) => Err(e)
    ensures RefPreserving(annotate) && (forall s | s in schemas :: Ready(s, CollectTypes(schemas))) && r.Ok? ==>
              NothingDangles(r.value)
  {
    if RefPreserving(annotate) && (forall s | s in schemas :: Ready(s, CollectTypes(schemas)))
       && PlaceAll(map[], schemas, CollectTypes(schemas), annotate).Ok? {
      BundleClosed(schemas, annotate);
    }
    var types := CollectTypes(schemas);
    var defs: Defs := map[];
    assert schemas[0..] == schemas;
    for i := 0 to |schemas|
      invariant PlaceAll(map[], schemas, types, annotate) == PlaceAll(defs, schemas[i..], types, annotate)
    {
      assert schemas[i..][0] == schemas[i] && schemas[i..][1..] == schemas[i + 1..];
      match PlaceSchema(defs, schemas[i], types, annotate) {
        case Err(e) => return Err(e);
        case Ok(next) => defs := next;
      }
    }
    return Ok(Document(defs));
  }

  // ---- Bundles of one namespace ----

  /** A ref to a v2-owned name under v2, or to a name in `roots` at the root. */
  ghost predicate RefIn(roots: set<string>, owned: set<string>, r: string) {
    || (exists name :: name in owned && Plain(name) && r == V2 + name)
    || (exists name :: name in roots && Plain(name) && r == DEFS + name)
  }

  ghost predicate AllIn(j: Json, roots: set<string>, owned: set<string>) {
    forall r | r in Refs(j) :: RefIn(roots, owned, r)
  }

  ghost function Owned(types: map<string, string>): set<string> {
    set n | n in types && !Skipped(n)
  }

  /** The stripped form of a numbered name is not what makes it v2-owned. */
  predicate Undigited(name: string, types: map<string, string>) {
    name in types || TrimDigits(name) !in types
  }

  /** A ref to one of the schema's own definitions or to a v2-owned type. */
  ghost predicate ReadyRef(s: Schema, types: map<string, string>, r: string) {
    exists name :: Plain(name) && r == DEFS + name && !Skipped(name) && Undigited(name, types)
      && (name in OwnDefs(s.value) || name in types)
  }

  ghost predicate Ready(s: Schema, types: map<string, string>) {
    && (s.namespace == None || s.namespace == Some("v2"))
    && (s.namespace.Some? ==> s.name !in IGNORED)
    && Plain(s.name) && s.name != "v2" && s.name != "$ref"
    && DollarDefs(s.value) == map[]
    && (forall d | d in OwnDefs(s.value) :: Plain(d) && d != "v2" && d != "$ref")
    && (forall r | r in Refs(s.value) :: ReadyRef(s, types, r))
  }

  /** The definitions of a root schema that stay at the root. */
  ghost function Local(s: Schema, types: map<string, string>): set<string> {
    set k | k in OwnDefs(s.value) && !Skipped(k) && TargetOf(s, types, k).None?
  }

  ghost predicate OneNamespace(types: map<string, string>) {
    forall n | n in types :: types[n] == "v2"
  }

  // ---- Refs after rewriting ----

  lemma ToNamespaceFixes(name: string)
    ensures ToNamespace("v2", V2 + name) == V2 + name
    ensures Plain(name) ==> ToNamespace("v2", DEFS + name) == V2 + name
  {
    assert (V2 + name)[|DEFS|..] == "v2/" + name && "v2" + "/" == "v2/";
    assert (DEFS + name)[|DEFS|..] == name;
    if "v2/" <= name { assert name[2] == '/'; }
    assert DEFS + "v2" + "/" + name == V2 + name;
  }

  lemma ToKnownPlain(types: map<string, string>, name: string)
    requires Plain(name) && OneNamespace(types) && Undigited(name, types)
    ensures ToKnown(types, DEFS + name) == if name in types then V2 + name else DEFS + name
  {
    assert (DEFS + name)[|DEFS|..] == name && FirstSegment(name) == name;
    assert DEFS + "v2" + "/" + name == V2 + name;
  }

  lemma RetargetedRefs(s: Schema, types: map<string, string>)
    requires Ready(s, types) && OneNamespace(types) && (s.namespace.Some? ==> Brings(s) <= types.Keys)
    ensures AllIn(Retargeted(s, types), Local(s, types), Owned(types))
  {
    forall t | t in Refs(Retargeted(s, types)) ensures RefIn(Local(s, types), Owned(types), t) {
      var r: string;
      if s.namespace.Some? {
        r := MappedRefFrom(s.value, r => ToNamespace(s.namespace.value, r), t);
      } else {
        r := MappedRefFrom(s.value, r => ToKnown(types, r), t);
      }
      var name :| Plain(name) && r == DEFS + name && !Skipped(name) && Undigited(name, types)
        && (name in OwnDefs(s.value) || name in types);
      ToNamespaceFixes(name);
      ToKnownPlain(types, name);
      if s.namespace.Some? || name in types {
        assert name in Owned(types);
      } else {
        assert name in Local(s, types);
      }
    }
  }

  lemma MappedOwnDefs(value: Json, f: string -> string)
    ensures OwnDefs(MapRefs(value, f)).Keys == OwnDefs(value).Keys
    ensures forall k, r | k in OwnDefs(MapRefs(value, f)) && r in Refs(OwnDefs(MapRefs(value, f))[k]) :: r in Refs(MapRefs(value, f))
  {
    var w := MapRefs(value, f);
    if GetObj(value, "definitions").Some? {
      assert w.fields["definitions"] == MapRefs(value.fields["definitions"], f);
      RefsOfField(w.fields, "definitions");
      forall k | k in OwnDefs(w) ensures Refs(OwnDefs(w)[k]) <= Refs(w) { RefsOfField(OwnDefs(w), k); }
    } else if Get(value, "definitions").Some? {
      assert w.fields["definitions"] == MapRefs(value.fields["definitions"], f);
    }
  }

  lemma RetargetedOwnDefs(s: Schema, types: map<string, string>)
    ensures var w := Retargeted(s, types);
            && OwnDefs(w).Keys == OwnDefs(s.value).Keys
            && forall k, r | k in OwnDefs(w) && r in Refs(OwnDefs(w)[k]) :: r in Refs(w)
  {
    match s.namespace
    case Some(ns) => MappedOwnDefs(s.value, r => ToNamespace(ns, r));
    case None => MappedOwnDefs(s.value, r => ToKnown(types, r));
  }

  lemma WithoutDefsRefs(value: Json)
    ensures Refs(WithoutDefs(value)) <= Refs(value)
  {
    if value.Obj? {
      var w := WithoutDefs(value);
      forall r | r in Refs(w) ensures r in Refs(value) {
        if r !in RefHere(w) {
          var k :| k in w.fields && r in Refs(w.fields[k]);
          RefsOfField(value.fields, k);
        }
      }
    }
  }

  // ---- Giving definitions up changes no ref that is already right ----

  lemma HeadSegment(a: string, rest: string)
    requires '/' !in a
    ensures FirstSegment(a) == a && FirstSegment(a + ['/'] + rest) == a
  {
    IndexOfFirst(a, '/', rest);
  }

  lemma NamedOnly(ns: string, moved: string, r: string)
    requires Plain(moved) && DEFS <= r
    ensures NamedToNamespace(ns, moved, r) == r || FirstSegment(r[|DEFS|..]) == moved
  {
    var suffix := r[|DEFS|..];
    HeadSegment(moved, []);
    assert r == DEFS + moved ==> suffix == moved;
    if DEFS + moved + "/" <= r {
      var rest := r[|DEFS + moved + "/"|..];
      assert r == DEFS + moved + "/" + rest;
      assert suffix == moved + ['/'] + rest;
      HeadSegment(moved, rest);
    }
  }

  lemma NamedFixes(moved: string, roots: set<string>, owned: set<string>, r: string)
    requires Plain(moved) && moved != "v2" && moved !in roots && RefIn(roots, owned, r)
    ensures NamedToNamespace("v2", moved, r) == r
  {
    if exists name :: name in owned && Plain(name) && r == V2 + name {
      var name :| name in owned && Plain(name) && r == V2 + name;
      assert r[|DEFS|..] == "v2" + ['/'] + name;
      HeadSegment("v2", name);
    } else {
      var name :| name in roots && Plain(name) && r == DEFS + name;
      assert r[|DEFS|..] == name;
      HeadSegment(name, []);
    }
    NamedOnly("v2", moved, r);
  }

  lemma {:induction false} SurrenderedRefs(value: Json, s: Schema, types: map<string, string>, keys: seq<string>)
    requires OneNamespace(types) && s.namespace != Some("v2")
    requires forall k | k in keys :: Plain(k) && k != "v2"
    requires AllIn(value, Local(s, types), Owned(types))
    ensures AllIn(Surrendered(value, s, types, keys), Local(s, types), Owned(types))
    decreases |keys|
  {
    if keys != [] {
      var moved := keys[0];
      assert moved in keys;
      match TargetOf(s, types, moved)
      case Some(ns) =>
        if Skipped(moved) || s.namespace == Some(ns) {
          SurrenderedRefs(value, s, types, keys[1..]);
        } else {
          assert moved !in Local(s, types);
          var next := MapRefs(value, r => NamedToNamespace(ns, moved, r));
          forall t | t in Refs(next) ensures RefIn(Local(s, types), Owned(types), t) {
            var r := MappedRefFrom(value, r => NamedToNamespace(ns, moved, r), t);
            NamedFixes(moved, Local(s, types), Owned(types), r);
          }
          SurrenderedRefs(next, s, types, keys[1..]);
        }
      case None => SurrenderedRefs(value, s, types, keys[1..]);
    }
  }

  /** A namespaced schema gives nothing up. */
  lemma {:induction false} NothingSurrendered(value: Json, s: Schema, types: map<string, string>, keys: seq<string>)
    requires s.namespace.Some?
    ensures Surrendered(value, s, types, keys) == value
    decreases |keys|
  {
    if keys != [] { NothingSurrendered(value, s, types, keys[1..]); }
  }

  // ---- Placing keeps the definitions closed ----

  function V2Defs(defs: Defs): Defs {
    match GetObj(Obj(defs), "v2") case Some(m) => m case None => map[]
  }

  /** Every ref placed so far is to a v2-owned name or, from outside v2, to a name in `roots`. */
  ghost predicate Good(defs: Defs, roots: set<string>, owned: set<string>) {
    && "$ref" !in defs && "$ref" !in V2Defs(defs)
    && ("v2" in defs ==> defs["v2"].Obj?)
    && (forall k | k in defs && k != "v2" :: AllIn(defs[k], roots, owned))
    && ("v2" in defs ==> AllIn(defs["v2"], {}, owned))
  }

  lemma RootInsertGood(defs: Defs, roots: set<string>, owned: set<string>, name: string, schema: Json)
    requires Good(defs, roots, owned) && name != "v2" && name != "$ref" && AllIn(schema, roots, owned)
    ensures Good(defs[name := schema], roots, owned)
    ensures V2Defs(defs[name := schema]) == V2Defs(defs)
  {
  }

  lemma NamespaceInsertGood(defs: Defs, roots: set<string>, owned: set<string>, name: string, schema: Json)
    requires Good(defs, roots, owned) && name != "$ref" && AllIn(schema, {}, owned)
    requires InsertIntoNamespace(defs, "v2", name, schema).Ok?
    ensures var next := InsertIntoNamespace(defs, "v2", name, schema).value;
            && Good(next, roots, owned)
            && next.Keys == defs.Keys + {"v2"}
            && V2Defs(next).Keys == V2Defs(defs).Keys + {name}
  {
    var next := InsertIntoNamespace(defs, "v2", name, schema).value;
    var m := V2Defs(defs)[name := schema];
    assert next == defs["v2" := Obj(m)];
    forall r | r in Refs(Obj(m)) ensures RefIn({}, owned, r) {
      assert r !in RefHere(Obj(m));
      var k :| k in m && r in Refs(m[k]);
      if k != name { RefsOfField(V2Defs(defs), k); }
    }
  }

  lemma WiderRefs(j: Json, a: set<string>, b: set<string>, owned: set<string>)
    requires AllIn(j, a, owned) && a <= b
    ensures AllIn(j, b, owned)
  {
  }

  /** One definition of a ready schema goes where its refs expect it. */
  lemma PlaceDefGood(defs: Defs, s: Schema, types: map<string, string>, annotate: Annotator, name: string, def: Json, roots: set<string>)
    requires RefPreserving(annotate) && OneNamespace(types)
    requires s.namespace == None || s.namespace == Some("v2")
    requires Good(defs, roots, Owned(types)) && name != "v2" && name != "$ref"
    requires Local(s, types) <= roots && AllIn(def, Local(s, types), Owned(types))
    requires PlaceDef(defs, s, types, annotate, name, def).Ok?
    ensures var next := PlaceDef(defs, s, types, annotate, name, def).value;
            && Good(next, roots, Owned(types)) && defs.Keys <= next.Keys
            && V2Defs(defs).Keys <= V2Defs(next).Keys
            && (!Skipped(name) && TargetOf(s, types, name).None? ==> name in next)
            && (!Skipped(name) && s.namespace.Some? ==> name in V2Defs(next))
  {
    var owned := Owned(types);
    if !Skipped(name) {
      match TargetOf(s, types, name)
      case None =>
        WiderRefs(def, Local(s, types), roots, owned);
        RootInsertGood(defs, roots, owned, name, annotate(def, name));
      case Some(ns) =>
        if s.namespace == Some(ns) {
          NamespacedDefRefs(def, s, types, annotate, name);
          NamespaceInsertGood(defs, roots, owned, name, MapRefs(annotate(def, name), r => ToNamespace(ns, r)));
        }
    }
  }

  lemma NamespacedDefRefs(def: Json, s: Schema, types: map<string, string>, annotate: Annotator, name: string)
    requires RefPreserving(annotate) && s.namespace == Some("v2")
    requires AllIn(def, Local(s, types), Owned(types))
    ensures AllIn(MapRefs(annotate(def, name), r => ToNamespace("v2", r)), {}, Owned(types))
  {
    var placed := MapRefs(annotate(def, name), r => ToNamespace("v2", r));
    assert Local(s, types) == {};
    forall t | t in Refs(placed) ensures RefIn({}, Owned(types), t) {
      var r := MappedRefFrom(annotate(def, name), r => ToNamespace("v2", r), t);
      assert RefIn({}, Owned(types), r);
      var x :| x in Owned(types) && Plain(x) && r == V2 + x;
      ToNamespaceFixes(x);
    }
  }

  lemma {:induction false} PlaceDefsGood(defs: Defs, s: Schema, types: map<string, string>, annotate: Annotator,
                                         own: Defs, keys: seq<string>, roots: set<string>)
    requires RefPreserving(annotate) && OneNamespace(types)
    requires s.namespace == None || s.namespace == Some("v2")
    requires Good(defs, roots, Owned(types)) && Local(s, types) <= roots
    requires forall k | k in keys :: k in own && k != "v2" && k != "$ref" && AllIn(own[k], Local(s, types), Owned(types))
    requires PlaceDefs(defs, s, types, annotate, own, keys).Ok?
    ensures var next := PlaceDefs(defs, s, types, annotate, own, keys).value;
            && Good(next, roots, Owned(types)) && defs.Keys <= next.Keys
            && V2Defs(defs).Keys <= V2Defs(next).Keys
            && (forall k | k in keys && !Skipped(k) && TargetOf(s, types, k).None? :: k in next)
            && (forall k | k in keys && !Skipped(k) && s.namespace.Some? :: k in V2Defs(next))
    decreases |keys|
  {
    if keys != [] {
      var name := keys[0];
      assert name in keys;
      PlaceDefGood(defs, s, types, annotate, name, own[name], roots);
      var mid := PlaceDef(defs, s, types, annotate, name, own[name]).value;
      assert forall k | k in keys[1..] :: k in keys;
      PlaceDefsGood(mid, s, types, annotate, own, keys[1..], roots);
      assert forall k | k in keys :: k == name || k in keys[1..];
    }
  }

  /** What a namespaced schema puts under v2. */
  ghost function Delivered(s: Schema): set<string> {
    if s.namespace.None? then {} else {s.name} + set k | k in OwnDefs(s.value) && !Skipped(k)
  }

  lemma WiderGood(defs: Defs, a: set<string>, b: set<string>, owned: set<string>)
    requires Good(defs, a, owned) && a <= b
    ensures Good(defs, b, owned)
  {
    forall k | k in defs && k != "v2" ensures AllIn(defs[k], b, owned) { WiderRefs(defs[k], a, b, owned); }
  }

  ghost function Roots(defs: Defs): set<string> { defs.Keys - {"v2"} }

  lemma PlaceSchemaGood(defs: Defs, s: Schema, types: map<string, string>, annotate: Annotator)
    requires RefPreserving(annotate) && OneNamespace(types) && Ready(s, types)
    requires s.namespace.Some? ==> Brings(s) <= types.Keys
    requires Good(defs, Roots(defs), Owned(types)) && PlaceSchema(defs, s, types, annotate).Ok?
    ensures var out := PlaceSchema(defs, s, types, annotate).value;
            && Good(out, Roots(out), Owned(types)) && defs.Keys <= out.Keys
            && V2Defs(defs).Keys + Delivered(s) <= V2Defs(out).Keys
  {
    if s.name !in IGNORED {
      var owned, value := Owned(types), Retargeted(s, types);
      var own := OwnDefs(value);
      var keys := SortedKeys(own.Keys);
      var roots := Roots(defs) + Local(s, types);
      RetargetedRefs(s, types);
      RetargetedOwnDefs(s, types);
      WiderGood(defs, Roots(defs), roots, owned);
      PlaceDefsGood(defs, s, types, annotate, own, keys, roots);
      var next := PlaceDefs(defs, s, types, annotate, own, keys).value;
      assert roots <= Roots(next) by {
        forall k | k in Local(s, types) ensures k in next && k != "v2" { assert k in keys; }
      }
      WiderGood(next, roots, Roots(next), owned);
      WithoutDefsRefs(value);
      PlaceBodyGood(next, s, types, keys, WithoutDefs(value));
      forall k | k in OwnDefs(s.value) ensures k in keys {}
    }
  }

  lemma PlaceBodyGood(next: Defs, s: Schema, types: map<string, string>, keys: seq<string>, value: Json)
    requires OneNamespace(types) && Ready(s, types) && forall k | k in keys :: Plain(k) && k != "v2"
    requires Good(next, Roots(next), Owned(types)) && Local(s, types) <= Roots(next)
    requires AllIn(value, Local(s, types), Owned(types))
    requires s.namespace.Some? ==> InsertIntoNamespace(next, "v2", s.name, Surrendered(value, s, types, keys)).Ok?
    ensures var body := Surrendered(value, s, types, keys);
            var out := if s.namespace.Some? then InsertIntoNamespace(next, "v2", s.name, body).value else next[s.name := body];
            && Good(out, Roots(out), Owned(types)) && next.Keys <= out.Keys
            && V2Defs(next).Keys + (if s.namespace.Some? then {s.name} else {}) <= V2Defs(out).Keys
  {
    var owned, body := Owned(types), Surrendered(value, s, types, keys);
    if s.namespace.Some? {
      NothingSurrendered(value, s, types, keys);
      assert Local(s, types) == {};
      NamespaceInsertGood(next, Roots(next), owned, s.name, body);
      var out := InsertIntoNamespace(next, "v2", s.name, body).value;
      WiderGood(out, Roots(next), Roots(out), owned);
    } else {
      SurrenderedRefs(value, s, types, keys);
      WiderRefs(body, Local(s, types), Roots(next), owned);
      RootInsertGood(next, Roots(next), owned, s.name, body);
      WiderGood(next[s.name := body], Roots(next), Roots(next[s.name := body]), owned);
    }
  }

  lemma {:induction false} PlaceAllGood(defs: Defs, schemas: seq<Schema>, types: map<string, string>, annotate: Annotator)
    requires RefPreserving(annotate) && OneNamespace(types)
    requires forall s | s in schemas :: Ready(s, types) && (s.namespace.Some? ==> Brings(s) <= types.Keys)
    requires Good(defs, Roots(defs), Owned(types)) && PlaceAll(defs, schemas, types, annotate).Ok?
    ensures var out := PlaceAll(defs, schemas, types, annotate).value;
            && Good(out, Roots(out), Owned(types)) && V2Defs(defs).Keys <= V2Defs(out).Keys
            && forall s | s in schemas :: Delivered(s) <= V2Defs(out).Keys
    decreases |schemas|
  {
    if schemas != [] {
      assert schemas[0] in schemas;
      PlaceSchemaGood(defs, schemas[0], types, annotate);
      var next := PlaceSchema(defs, schemas[0], types, annotate).value;
      PlaceAllGood(next, schemas[1..], types, annotate);
      assert forall s | s in schemas :: s == schemas[0] || s in schemas[1..];
    }
  }

  // ---- Who brings what ----

  predicate BringsAs(s: Schema, n: string, ns: string) { s.namespace == Some(ns) && n in Brings(s) }

  lemma FirstBrings(s: Schema, schemas: seq<Schema>, n: string)
    requires n in CollectTypes([s] + schemas)
    ensures BringsAs(s, n, CollectTypes([s] + schemas)[n])
            || (n in CollectTypes(schemas) && CollectTypes(schemas)[n] == CollectTypes([s] + schemas)[n])
  {
    assert ([s] + schemas)[1..] == schemas;
  }

  lemma AllBrought(s: Schema, schemas: seq<Schema>)
    ensures s.namespace.Some? ==> Brings(s) <= CollectTypes([s] + schemas).Keys
    ensures CollectTypes(schemas).Keys <= CollectTypes([s] + schemas).Keys
  {
    assert ([s] + schemas)[1..] == schemas;
  }

  lemma {:induction false} TypesBrought(schemas: seq<Schema>)
    ensures var types := CollectTypes(schemas);
            && (forall n | n in types :: exists s :: s in schemas && BringsAs(s, n, types[n]))
            && (forall s | s in schemas && s.namespace.Some? :: Brings(s) <= types.Keys)
  {
    if schemas != [] {
      var first, others := schemas[0], schemas[1..];
      assert schemas == [first] + others;
      TypesBrought(others);
      AllBrought(first, others);
      var types, rest := CollectTypes(schemas), CollectTypes(others);
      forall n | n in types ensures exists s :: s in schemas && BringsAs(s, n, types[n]) {
        FirstBrings(first, others, n);
        if BringsAs(first, n, types[n]) {
          assert first in schemas;
        } else {
          var s :| s in others && BringsAs(s, n, rest[n]);
          assert s in schemas;
        }
      }
    }
  }

  lemma DocumentRef(defs: Defs, r: string) returns (k: string)
    requires "$ref" !in defs && r in Refs(Document(defs))
    ensures k in defs && r in Refs(defs[k])
  {
    var doc := Document(defs).fields;
    assert RefHere(Document(defs)) == {};
    var f :| f in doc && r in Refs(doc[f]);
    assert f == "definitions";
    assert RefHere(Obj(defs)) == {};
    k :| k in defs && r in Refs(defs[k]);
  }

  lemma DocumentDefs(defs: Defs)
    ensures OwnDefs(Document(defs)) == defs
  {
  }

  ghost predicate NothingDangles(doc: Json) {
    forall r | r in Refs(doc) :: Resolve(OwnDefs(doc), r).Some?
  }

  /** Each v2-owned name that can be referred to was put under v2. */
  lemma OwnedDelivered(schemas: seq<Schema>, types: map<string, string>, out: Defs, name: string)
    requires forall s | s in schemas :: Ready(s, types) && Delivered(s) <= V2Defs(out).Keys
    requires name in types && exists s :: s in schemas && BringsAs(s, name, types[name])
    requires !Skipped(name)
    ensures name in V2Defs(out)
  {
    var s :| s in schemas && BringsAs(s, name, types[name]);
    assert Ready(s, types);
    assert name in Delivered(s);
  }

  lemma PlacedRefResolves(out: Defs, owned: set<string>, r: string)
    requires owned <= V2Defs(out).Keys && RefIn(Roots(out), owned, r)
    ensures Resolve(out, r).Some?
  {
    if exists name :: name in owned && Plain(name) && r == V2 + name {
      var name :| name in owned && Plain(name) && r == V2 + name;
      assert name in V2Defs(out);
      ResolveV2(out, name);
    } else {
      var name :| name in Roots(out) && Plain(name) && r == DEFS + name;
      ResolveRoot(out, name);
    }
  }

  lemma GoodRefResolves(out: Defs, owned: set<string>, k: string, r: string)
    requires Good(out, Roots(out), owned) && owned <= V2Defs(out).Keys && k in out && r in Refs(out[k])
    ensures Resolve(out, r).Some?
  {
    if k == "v2" { WiderRefs(out[k], {}, Roots(out), owned); }
    assert AllIn(out[k], Roots(out), owned);
    PlacedRefResolves(out, owned, r);
  }

  lemma GoodNothingDangles(out: Defs, owned: set<string>)
    requires Good(out, Roots(out), owned) && owned <= V2Defs(out).Keys
    ensures NothingDangles(Document(out))
  {
    DocumentDefs(out);
    forall r | r in Refs(Document(out)) ensures Resolve(out, r).Some? {
      var k := DocumentRef(out, r);
      GoodRefResolves(out, owned, k, r);
    }
  }

  /** MAIN: a successful bundle of ready schemas has no dangling ref. */
  lemma BundleClosed(schemas: seq<Schema>, annotate: Annotator)
    requires RefPreserving(annotate)
    requires forall s | s in schemas :: Ready(s, CollectTypes(schemas))
    requires PlaceAll(map[], schemas, CollectTypes(schemas), annotate).Ok?
    ensures NothingDangles(Document(PlaceAll(map[], schemas, CollectTypes(schemas), annotate).value))
  {
    TypesBrought(schemas);
    TypesOfReady(schemas);
    GoodBundle(schemas, CollectTypes(schemas), annotate);
    GoodNothingDangles(PlaceAll(map[], schemas, CollectTypes(schemas), annotate).value, Owned(CollectTypes(schemas)));
  }

  /** Under these conditions every placed ref is accounted for, and every v2-owned name is under v2. */
  lemma GoodBundle(schemas: seq<Schema>, types: map<string, string>, annotate: Annotator)
    requires RefPreserving(annotate) && OneNamespace(types)
    requires forall s | s in schemas :: Ready(s, types) && (s.namespace.Some? ==> Brings(s) <= types.Keys)
    requires forall n | n in types :: exists s :: s in schemas && BringsAs(s, n, types[n])
    requires PlaceAll(map[], schemas, types, annotate).Ok?
    ensures var out := PlaceAll(map[], schemas, types, annotate).value;
            && Good(out, Roots(out), Owned(types)) && Owned(types) <= V2Defs(out).Keys
            && forall s | s in schemas :: Delivered(s) <= V2Defs(out).Keys
  {
    PlaceAllGood(map[], schemas, types, annotate);
    var out := PlaceAll(map[], schemas, types, annotate).value;
    forall name | name in Owned(types) ensures name in V2Defs(out) {
      OwnedDelivered(schemas, types, out, name);
    }
  }

  lemma TypesOfReady(schemas: seq<Schema>)
    requires forall s | s in schemas :: Ready(s, CollectTypes(schemas))
    ensures OneNamespace(CollectTypes(schemas))
  {
    TypesBrought(schemas);
  }
}
