/**
  Flattening the mixed bundle: every `v2` definition moves to the root map, together
  with the shared root schemas and the root definitions those still reach.
 */
module SchemaFlat {
  import opened Text
  import opened JsonValue
  import opened SchemaRefs
  import opened Reachability

  const SHARED: set<string> := {"ClientRequest", "ServerNotification"}

  // ---- Dependencies of the shared schemas ----

  /** The root definitions a schema refers to. */
  function NonV2Refs(j: Json): set<string> {
    set r | r in Refs(j) && DEFS <= r && !(V2 <= r) :: r[|DEFS|..]
  }

  function Deps(defs: Defs, name: string): set<string> {
    if name in defs then NonV2Refs(defs[name]) else {}
  }

  function DepsOf(defs: Defs): string -> set<string> { n => Deps(defs, n) }

  /** Everything the worklist can ever hold. */
  ghost function Universe(defs: Defs, names: set<string>): set<string> {
    names + set n, d | n in defs && d in Deps(defs, n) :: d
  }

  method CollectDefinitionDependencies(defs: Defs, names: set<string>) returns (seen: set<string>)
    ensures IsReachable(DepsOf(defs), names, seen)
  {
    seen := MarkOnPop(DepsOf(defs), names, Universe(defs, names));
  }

  // ---- The flattening ----

  datatype FlatError =
    | NotAnObject
    | NoDefinitions
    | NoV2Namespace
    | StillNamespaced(reference: string)
    | Missing(names: set<string>)

  function SharedDefs(defs: Defs): Defs {
    map name | name in SHARED && name in defs :: defs[name]
  }

  /** The definitions before their refs are rewritten. */
  function Gathered(defs: Defs, v2: Defs, deps: set<string>): Defs {
    v2 + (map name | name in deps && name != "v2" && name !in v2 && name in defs :: defs[name]) + SharedDefs(defs)
  }

  function SharedRefs(defs: Defs): set<string> {
    set name, d | name in SHARED && name in defs && d in NonV2Refs(defs[name]) :: d
  }

  function FlatTitle(root: Json): string {
    (match GetStr(root, "title") case Some(t) => t case None => "CodexAppServerProtocol") + "V2"
  }

  function MissingNames(doc: Json, defs: Defs): set<string> {
    set r | r in Refs(doc) && DEFS <= r && FirstSegment(r[|DEFS|..]) !in defs :: FirstSegment(r[|DEFS|..])
  }

  ghost predicate IsV2Ref(v2: Defs, r: string) {
    exists name :: name in v2 && Plain(name) && r == V2 + name
  }

  ghost predicate IsRootRef(names: set<string>, r: string) {
    exists name :: name in names && Plain(name) && r == DEFS + name
  }

  /** The document without its definitions and its title, which is replaced. */
  function Outer(root: Json): Json
    requires root.Obj?
  {
    Obj(root.fields - {"definitions", "title"})
  }

  /**
    Bundles whose refs are plain and all resolve, whose v2 definitions stay inside v2,
    and which share no name between the root and v2.
   */
  ghost predicate FlatReady(root: Json) {
    && root.Obj? && Get(root, "definitions").Some? && root.fields["definitions"].Obj?
    && var defs := root.fields["definitions"].fields;
    && "v2" in defs && defs["v2"].Obj?
    && var v2 := defs["v2"].fields;
    && "$ref" !in defs && "$ref" !in v2
    && v2.Keys !! defs.Keys
    && (forall k, r | k in v2 && r in Refs(v2[k]) :: IsV2Ref(v2, r))
    && (forall k, r | k in defs && k != "v2" && r in Refs(defs[k]) ::
          IsV2Ref(v2, r) || IsRootRef(defs.Keys - {"v2"}, r))
    && (forall r | r in Refs(Outer(root)) :: IsV2Ref(v2, r) || IsRootRef(defs.Keys - {"v2"}, r))
  }

  /** Every definition kept in `flat` is the original one with its refs rewritten. */
  ghost predicate Linked(defs: Defs, v2: Defs, live: set<string>, flat: Defs) {
    && "v2" in defs && defs["v2"] == Obj(v2) && live <= defs.Keys && "v2" !in live
    && flat.Keys == v2.Keys + live
    && (forall k | k in v2 :: flat[k] == MapRefs(v2[k], Unversioned))
    && (forall k | k in live :: flat[k] == MapRefs(defs[k], Unversioned))
    && (forall k, r | k in v2 && r in Refs(v2[k]) :: IsV2Ref(v2, r))
    && (forall k, r | k in live && r in Refs(defs[k]) :: IsV2Ref(v2, r) || IsRootRef(live, r))
  }

  /** A ref and its rewritten form resolve to corresponding definitions. */
  lemma RefLinked(defs: Defs, v2: Defs, live: set<string>, flat: Defs, r: string) returns (target: Json)
    requires Linked(defs, v2, live, flat)
    requires IsV2Ref(v2, r) || IsRootRef(live, r)
    ensures Resolve(defs, r) == Some(target)
    ensures Resolve(flat, Unversioned(r)) == Some(MapRefs(target, Unversioned))
    ensures forall s | s in Refs(target) :: IsV2Ref(v2, s) || IsRootRef(live, s)
  {
    if IsV2Ref(v2, r) {
      var name :| name in v2 && Plain(name) && r == V2 + name;
      UnversionedV2(name);
      ResolveV2(defs, name);
      ResolveRoot(flat, name);
      target := v2[name];
    } else {
      var name :| name in live && Plain(name) && r == DEFS + name;
      UnversionedRoot(name);
      ResolveRoot(defs, name);
      ResolveRoot(flat, name);
      target := defs[name];
    }
  }

  ghost function Followed(v2: Defs, live: set<string>): iset<string> {
    iset r | IsV2Ref(v2, r) || IsRootRef(live, r)
  }

  lemma LinkedSimulates(defs: Defs, v2: Defs, live: set<string>, flat: Defs)
    requires Linked(defs, v2, live, flat)
    ensures Simulates(Look(flat), Look(defs), Unversioned, Followed(v2, live))
  {
    forall r | r in Followed(v2, live)
      ensures exists target :: Look(defs)(r) == Some(target) && Look(flat)(Unversioned(r)) == Some(MapRefs(target, Unversioned))
                               && forall s | s in Refs(target) :: s in Followed(v2, live)
    {
      var target := RefLinked(defs, v2, live, flat, r);
    }
  }

  /** The heart of the matter: rewriting a schema keeps its unfolding, to every depth. */
  lemma SameUnfolding(defs: Defs, v2: Defs, live: set<string>, flat: Defs, j: Json, n: nat)
    requires Linked(defs, v2, live, flat)
    requires forall r | r in Refs(j) :: IsV2Ref(v2, r) || IsRootRef(live, r)
    ensures Unfold(flat, MapRefs(j, Unversioned), n) == Unfold(defs, j, n)
  {
    LinkedSimulates(defs, v2, live, flat);
    SimulatedUnfolding(flat, defs, Unversioned, Followed(v2, live), j, n);
  }

  // ---- The whole function ----

  function DefsOf(root: Json): Defs {
    match GetObj(root, "definitions") case Some(m) => m case None => map[]
  }

  function V2Of(root: Json): Defs {
    match GetObj(Obj(DefsOf(root)), "v2") case Some(m) => m case None => map[]
  }

  /** The refs around the definitions are to v2 or to a root definition that the shared schemas reach. */
  ghost predicate OuterRefsReached(root: Json)
    requires root.Obj?
  {
    var defs := DefsOf(root);
    forall r | r in Refs(Outer(root)) :: IsV2Ref(V2Of(root), r) || IsRootRef(Reached(defs), r)
  }

  /** The two root schemas that v2 clients need as well. */
  predicate IsShared(k: string) { k == "ClientRequest" || k == "ServerNotification" }

  /** The shared schemas and the root definitions they reach. */
  ghost function Reached(defs: Defs): set<string> {
    set k | k in defs && k != "v2" && (IsShared(k) || Reach(DepsOf(defs), SharedRefs(defs), k))
  }

  /** A root definition depends on just the root definitions its refs outside v2 name. */
  lemma DepsExactly(defs: Defs, name: string, d: string)
    ensures d in Deps(defs, name) <==> name in defs && DEFS + d in Refs(defs[name]) && !(V2 <= DEFS + d)
    ensures d in SharedRefs(defs) <==> d in Deps(defs, "ClientRequest") || d in Deps(defs, "ServerNotification")
  {
    assert (DEFS + d)[|DEFS|..] == d;
    forall r: string | DEFS <= r && r[|DEFS|..] == d ensures r == DEFS + d {}
  }

  /** The root definitions that stay: the shared ones and what they reach. */
  ghost function Live(defs: Defs, deps: set<string>): set<string> {
    set k | k in defs && k != "v2" && (k in deps || k in SHARED)
  }

  lemma NonV2RefNamed(j: Json, name: string)
    requires DEFS + name in Refs(j) && Plain(name)
    ensures name in NonV2Refs(j)
  {
    RootNotV2(name);
    assert (DEFS + name)[|DEFS|..] == name;
  }

  lemma LiveClosed(defs: Defs, v2: Defs, deps: set<string>, k: string, r: string)
    requires IsReachable(DepsOf(defs), SharedRefs(defs), deps)
    requires k in Live(defs, deps) && r in Refs(defs[k]) && IsRootRef(defs.Keys - {"v2"}, r)
    ensures IsRootRef(Live(defs, deps), r)
  {
    var name :| name in defs.Keys - {"v2"} && Plain(name) && r == DEFS + name;
    NonV2RefNamed(defs[k], name);
    if k in deps {
      assert name in DepsOf(defs)(k);
    } else {
      assert name in SharedRefs(defs);
    }
    assert name in deps;
  }

  lemma MappedField(m: Defs, f: string -> string, k: string)
    requires k in m && k != "$ref"
    ensures MapRefs(Obj(m), f).fields[k] == MapRefs(m[k], f)
  {
  }

  lemma GatheredKeys(defs: Defs, v2: Defs, deps: set<string>)
    requires v2.Keys !! defs.Keys && "v2" in defs
    ensures Gathered(defs, v2, deps).Keys == v2.Keys + Live(defs, deps)
    ensures forall k | k in v2 :: Gathered(defs, v2, deps)[k] == v2[k]
    ensures forall k | k in Live(defs, deps) :: Gathered(defs, v2, deps)[k] == defs[k]
  {
  }

  lemma GatheredLinked(root: Json, deps: set<string>)
    requires FlatReady(root) && IsReachable(DepsOf(DefsOf(root)), SharedRefs(DefsOf(root)), deps)
    ensures var defs, v2 := DefsOf(root), V2Of(root);
            Linked(defs, v2, Live(defs, deps), MapRefs(Obj(Gathered(defs, v2, deps)), Unversioned).fields)
  {
    var defs, v2 := DefsOf(root), V2Of(root);
    var live, gathered := Live(defs, deps), Gathered(defs, v2, deps);
    GatheredKeys(defs, v2, deps);
    forall k | k in gathered ensures MapRefs(Obj(gathered), Unversioned).fields[k] == MapRefs(gathered[k], Unversioned) {
      MappedField(gathered, Unversioned, k);
    }
    forall k, r | k in live && r in Refs(defs[k]) ensures IsV2Ref(v2, r) || IsRootRef(live, r) {
      if !IsV2Ref(v2, r) { LiveClosed(defs, v2, deps, k, r); }
    }
  }

  /** A ref of the flat document, at the root of its definitions. */
  lemma FlatRef(defs: Defs, v2: Defs, live: set<string>, flat: Defs, r: string)
    requires Linked(defs, v2, live, flat) && (IsV2Ref(v2, r) || IsRootRef(live, r))
    ensures var s := Unversioned(r);
            DEFS <= s && !(V2 <= s) && FirstSegment(s[|DEFS|..]) in flat
  {
    var name: string;
    if IsV2Ref(v2, r) {
      name :| name in v2 && Plain(name) && r == V2 + name;
      UnversionedV2(name);
    } else {
      name :| name in live && Plain(name) && r == DEFS + name;
      UnversionedRoot(name);
    }
    RootNotV2(name);
    assert (DEFS + name)[|DEFS|..] == name;
  }

  /** The document to be rewritten. */
  function Whole(root: Json, title: string, gathered: Defs): Defs
    requires root.Obj?
  {
    root.fields["title" := Str(title)]["definitions" := Obj(gathered)]
  }

  /** Its refs are those around the definitions and those of the gathered ones. */
  lemma RootRefs(root: Json, title: string, gathered: Defs, r: string)
    requires root.Obj? && "$ref" !in gathered && r in Refs(Obj(Whole(root, title, gathered)))
    ensures r in Refs(Outer(root)) || exists k | k in gathered :: r in Refs(gathered[k])
  {
    var outer, whole := Outer(root).fields, Whole(root, title, gathered);
    assert RefHere(Obj(whole)) == RefHere(Obj(outer)) && RefHere(Obj(outer)) <= Refs(Obj(outer));
    if r !in RefHere(Obj(whole)) {
      var f :| f in whole && r in Refs(whole[f]);
      if f == "definitions" {
        assert r !in RefHere(Obj(gathered));
      } else {
        assert f != "title";
        RefsOfField(outer, f);
      }
    }
  }

  lemma OuterInWhole(root: Json, title: string, gathered: Defs)
    requires root.Obj?
    ensures Refs(Outer(root)) <= Refs(Obj(Whole(root, title, gathered)))
  {
    var outer, whole := Outer(root).fields, Whole(root, title, gathered);
    forall r | r in Refs(Outer(root)) ensures r in Refs(Obj(whole)) {
      if r in RefHere(Obj(outer)) {
        assert r in RefHere(Obj(whole));
      } else {
        var f :| f in outer && r in Refs(outer[f]);
        RefsOfField(whole, f);
      }
    }
  }

  /** The definition under `k` unfolds as `j` did, to every depth. */
  ghost predicate SameMeaning(fdefs: Defs, k: string, defs: Defs, j: Json) {
    k in fdefs && forall n: nat :: Unfold(fdefs, fdefs[k], n) == Unfold(defs, j, n)
  }

  ghost predicate PreservesMeaning(root: Json, flat: Json) {
    var defs, v2, fdefs := DefsOf(root), V2Of(root), DefsOf(flat);
    && root.Obj? && flat.Obj? && "v2" !in fdefs
    && (forall n: nat :: Unfold(fdefs, Outer(flat), n) == Unfold(defs, Outer(root), n))
    && (forall k | k in v2 :: SameMeaning(fdefs, k, defs, v2[k]))
    && (forall k | k in Reached(defs) :: SameMeaning(fdefs, k, defs, defs[k]))
    && ("ClientRequest" in defs ==> SameMeaning(fdefs, "ClientRequest", defs, defs["ClientRequest"]))
    && ("ServerNotification" in defs ==> SameMeaning(fdefs, "ServerNotification", defs, defs["ServerNotification"]))
    && fdefs.Keys == v2.Keys + Reached(defs)
  }

  lemma LinkedPreserves(root: Json, live: set<string>, flat: Json)
    requires FlatReady(root) && flat.Obj? && Outer(flat) == MapRefs(Outer(root), Unversioned)
    requires Linked(DefsOf(root), V2Of(root), live, DefsOf(flat)) && live == Reached(DefsOf(root))
    requires forall r | r in Refs(Outer(root)) :: IsV2Ref(V2Of(root), r) || IsRootRef(live, r)
    ensures PreservesMeaning(root, flat)
  {
    var defs, v2, fdefs := DefsOf(root), V2Of(root), DefsOf(flat);
    forall n: nat ensures Unfold(fdefs, Outer(flat), n) == Unfold(defs, Outer(root), n) {
      SameUnfolding(defs, v2, live, fdefs, Outer(root), n);
    }
    forall k | k in v2 ensures SameMeaning(fdefs, k, defs, v2[k]) {
      forall n: nat ensures Unfold(fdefs, fdefs[k], n) == Unfold(defs, v2[k], n) {
        SameUnfolding(defs, v2, live, fdefs, v2[k], n);
      }
    }
    forall k | k in live ensures SameMeaning(fdefs, k, defs, defs[k]) {
      forall n: nat ensures Unfold(fdefs, fdefs[k], n) == Unfold(defs, defs[k], n) {
        SameUnfolding(defs, v2, live, fdefs, defs[k], n);
      }
    }
    assert "ClientRequest" in defs ==> "ClientRequest" in live;
    assert "ServerNotification" in defs ==> "ServerNotification" in live;
  }

  /** Every ref of an accepted flat bundle names a definition in its one map. */
  ghost predicate RefsLand(flat: Json) {
    forall r | r in Refs(flat) :: !(V2 <= r) && (DEFS <= r ==> FirstSegment(r[|DEFS|..]) in DefsOf(flat))
  }

  /** The two final checks of the source. */
  method CheckFlat(flat: Json) returns (r: Result<Json, FlatError>)
    ensures r.Ok? <==> RefsLand(flat)
    ensures r.Ok? ==> r.value == flat
    ensures r.Err? ==> r.error.StillNamespaced? || r.error.Missing?
  {
    var namespaced := set s | s in Refs(flat) && V2 <= s;
    if namespaced != {} {
      var reference :| reference in namespaced;
      return Err(StillNamespaced(reference));
    }
    assert forall s | s in Refs(flat) && V2 <= s :: s in namespaced;
    var missing := MissingNames(flat, DefsOf(flat));
    MissingIff(flat);
    if missing != {} { return Err(Missing(missing)); }
    return Ok(flat);
  }

  lemma MissingIff(flat: Json)
    requires forall s | s in Refs(flat) :: !(V2 <= s)
    ensures MissingNames(flat, DefsOf(flat)) == {} <==> RefsLand(flat)
  {
    var missing := MissingNames(flat, DefsOf(flat));
    assert forall s | s in Refs(flat) && DEFS <= s && FirstSegment(s[|DEFS|..]) !in DefsOf(flat) ::
        FirstSegment(s[|DEFS|..]) in missing;
  }

  /** The title says that this is the v2 bundle. */
  ghost predicate Titled(bundle: Json, flat: Json) {
    && flat.Obj? && "title" in flat.fields && flat.fields["title"].Str?
    && var was := GetStr(bundle, "title");
    flat.fields["title"].text == if was.Some? then was.value + "V2" else "CodexAppServerProtocolV2"
  }

  method BuildFlatV2Schema(bundle: Json) returns (r: Result<Json, FlatError>)
    ensures r.Ok? ==> RefsLand(r.value)
    ensures FlatReady(bundle) ==> (r.Ok? <==> OuterRefsReached(bundle))
    ensures FlatReady(bundle) && r.Ok? ==> PreservesMeaning(bundle, r.value)
    ensures r.Ok? ==> Titled(bundle, r.value)
    ensures r == Err(NotAnObject) <==> !bundle.Obj?
    ensures r == Err(NoDefinitions) <==> bundle.Obj? && GetObj(bundle, "definitions").None?
    ensures r == Err(NoV2Namespace) <==>
            GetObj(bundle, "definitions").Some? && GetObj(Obj(DefsOf(bundle)), "v2").None?
  {
    if !bundle.Obj? { return Err(NotAnObject); }
    if GetObj(bundle, "definitions").None? { return Err(NoDefinitions); }
    var defs, v2 := DefsOf(bundle), V2Of(bundle);
    if GetObj(Obj(defs), "v2").None? { return Err(NoV2Namespace); }
    var deps := CollectDefinitionDependencies(defs, SharedRefs(defs));
    var flat := Flattened(bundle, deps);
    r := CheckFlat(flat);
    if FlatReady(bundle) { FlattensExactlyWhen(bundle, deps); }
    MappedField(Whole(bundle, FlatTitle(bundle), Gathered(defs, v2, deps)), Unversioned, "title");
  }

  /** The rewritten document, before it is checked. */
  function Flattened(bundle: Json, deps: set<string>): Json
    requires bundle.Obj?
  {
    MapRefs(Obj(Whole(bundle, FlatTitle(bundle), Gathered(DefsOf(bundle), V2Of(bundle), deps))), Unversioned)
  }

  lemma FlattenedParts(bundle: Json, deps: set<string>)
    requires bundle.Obj?
    ensures var gathered, flat := Gathered(DefsOf(bundle), V2Of(bundle), deps), Flattened(bundle, deps);
            DefsOf(flat) == MapRefs(Obj(gathered), Unversioned).fields && Outer(flat) == MapRefs(Outer(bundle), Unversioned)
  {
    var gathered := Gathered(DefsOf(bundle), V2Of(bundle), deps);
    MappedField(Whole(bundle, FlatTitle(bundle), gathered), Unversioned, "definitions");
    var a, b := Outer(Flattened(bundle, deps)).fields, MapRefs(Outer(bundle), Unversioned).fields;
    assert a == b;
  }

  lemma LiveIsReached(defs: Defs, deps: set<string>)
    requires IsReachable(DepsOf(defs), SharedRefs(defs), deps)
    ensures Live(defs, deps) == Reached(defs)
  {
  }

  /** MAIN: a ready bundle flattens exactly if the refs around its definitions are reached, and then everything keeps its meaning. */
  lemma FlattensExactlyWhen(bundle: Json, deps: set<string>)
    requires FlatReady(bundle) && IsReachable(DepsOf(DefsOf(bundle)), SharedRefs(DefsOf(bundle)), deps)
    ensures RefsLand(Flattened(bundle, deps)) <==> OuterRefsReached(bundle)
    ensures OuterRefsReached(bundle) ==> PreservesMeaning(bundle, Flattened(bundle, deps))
  {
    var defs := DefsOf(bundle);
    var live, flat := Live(defs, deps), Flattened(bundle, deps);
    FlattenedParts(bundle, deps);
    GatheredLinked(bundle, deps);
    LiveIsReached(defs, deps);
    if OuterRefsReached(bundle) {
      LinkedPreserves(bundle, live, flat);
      FlatRefsLand(bundle, deps, live);
    } else {
      var r :| r in Refs(Outer(bundle)) && !IsV2Ref(V2Of(bundle), r) && !IsRootRef(live, r);
      UnreachedDangles(bundle, deps, live, r);
    }
  }

  lemma FlatRefsLand(root: Json, deps: set<string>, live: set<string>)
    requires FlatReady(root) && live == Live(DefsOf(root), deps)
    requires Linked(DefsOf(root), V2Of(root), live, DefsOf(Flattened(root, deps)))
    requires forall r | r in Refs(Outer(root)) :: IsV2Ref(V2Of(root), r) || IsRootRef(live, r)
    ensures RefsLand(Flattened(root, deps))
  {
    var flat := Flattened(root, deps);
    forall s | s in Refs(flat) ensures DEFS <= s && !(V2 <= s) && FirstSegment(s[|DEFS|..]) in DefsOf(flat) {
      GatheredKeys(DefsOf(root), V2Of(root), deps);
      var r := FlatRefFrom(root, deps, s);
      GatheredRef(root, deps, live, r);
      FlatRef(DefsOf(root), V2Of(root), live, DefsOf(flat), r);
    }
  }

  lemma GatheredRef(root: Json, deps: set<string>, live: set<string>, r: string)
    requires FlatReady(root) && live == Live(DefsOf(root), deps)
    requires forall k, x | k in live && x in Refs(DefsOf(root)[k]) :: IsV2Ref(V2Of(root), x) || IsRootRef(live, x)
    requires forall x | x in Refs(Outer(root)) :: IsV2Ref(V2Of(root), x) || IsRootRef(live, x)
    requires var gathered := Gathered(DefsOf(root), V2Of(root), deps);
             r in Refs(Outer(root)) || exists k | k in gathered :: r in Refs(gathered[k])
    ensures IsV2Ref(V2Of(root), r) || IsRootRef(live, r)
  {
    if r !in Refs(Outer(root)) { GatheredKeys(DefsOf(root), V2Of(root), deps); }
  }

  lemma FlatRefFrom(root: Json, deps: set<string>, s: string) returns (r: string)
    requires root.Obj? && "$ref" !in Gathered(DefsOf(root), V2Of(root), deps) && s in Refs(Flattened(root, deps))
    ensures s == Unversioned(r)
    ensures var gathered := Gathered(DefsOf(root), V2Of(root), deps);
            r in Refs(Outer(root)) || exists k | k in gathered :: r in Refs(gathered[k])
  {
    var gathered := Gathered(DefsOf(root), V2Of(root), deps);
    r := MappedRefFrom(Obj(Whole(root, FlatTitle(root), gathered)), Unversioned, s);
    RootRefs(root, FlatTitle(root), gathered, r);
  }

  /** A ref around the definitions to a root definition that was left behind is reported missing. */
  lemma UnreachedDangles(root: Json, deps: set<string>, live: set<string>, r: string)
    requires FlatReady(root) && live == Live(DefsOf(root), deps)
    requires Linked(DefsOf(root), V2Of(root), live, DefsOf(Flattened(root, deps)))
    requires r in Refs(Outer(root)) && !IsV2Ref(V2Of(root), r) && !IsRootRef(live, r)
    ensures !RefsLand(Flattened(root, deps))
  {
    var defs := DefsOf(root);
    var name :| name in defs.Keys - {"v2"} && Plain(name) && r == DEFS + name;
    assert name !in live && name !in V2Of(root);
    OuterMapped(root, deps, r);
    UnversionedRoot(name);
    assert (DEFS + name)[|DEFS|..] == name;
  }

  lemma OuterMapped(root: Json, deps: set<string>, r: string)
    requires root.Obj? && r in Refs(Outer(root))
    ensures Unversioned(r) in Refs(Flattened(root, deps))
  {
    var gathered := Gathered(DefsOf(root), V2Of(root), deps);
    OuterInWhole(root, FlatTitle(root), gathered);
    RefMapped(Obj(Whole(root, FlatTitle(root), gathered)), Unversioned, r);
  }
}
