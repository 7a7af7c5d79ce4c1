/**
  The analytics reducer: five maps that join facts arriving in any order into at most
  one event per turn, and the pending requests that tie responses to their requests.
 */
module AnalyticsReducer {
  import opened Text

  type Connection = nat
  type Key = (Connection, string)

  datatype Pending =
    | TurnStart(thread: string, images: nat)
    | TurnSteer(thread: string, expected: string, images: nat, createdAt: nat)

  datatype Completion = Completion(status: nat, error: Option<nat>, at: nat, duration: Option<nat>)

  datatype TurnState = TurnState(
    connection: Option<Connection>, thread: Option<string>, images: Option<nat>, config: Option<nat>,
    startedAt: Option<nat>, usage: Option<nat>, completed: Option<Completion>, steers: nat)

  const BLANK: TurnState := TurnState(None, None, None, None, None, None, None, 0)

  datatype Mode = New | Resumed | Forked

  /** What is ingested; `client`, `config`, `usage` and the like stand for opaque payloads. */
  datatype Fact =
    | Initialize(conn: Connection, client: nat)
    | StartRequest(key: Key, thread: string, images: nat)
    | SteerRequest(key: Key, thread: string, expected: string, images: nat, now: nat)
    | OtherRequest(key: Key)
    | ThreadResponse(conn: Connection, thread: string, mode: Mode)
    | StartResponse(key: Key, turn: string)
    | SteerResponse(key: Key, turn: string)
    | ErrorResponse(key: Key, reason: Option<nat>)
    | TurnStarted(turn: string, at: Option<int>)
    | TurnCompleted(turn: string, status: nat, error: Option<nat>, completedAt: Option<int>, duration: Option<int>)
    | ResolvedConfig(turn: string, thread: string, images: nat, config: nat)
    | TokenUsage(turn: string, thread: string, usage: nat)

  datatype Track =
    | ThreadInitialized(thread: string, client: nat, mode: Mode)
    | SteerEvent(request: Pending, accepted: Option<string>, reason: Option<nat>, client: nat, mode: Mode)
    | TurnEvent(turn: string, state: TurnState, client: nat, mode: Mode)

  datatype State = State(
    requests: map<Key, Pending>, turns: map<string, TurnState>, connections: map<Connection, nat>,
    threadConnections: map<string, Connection>, threadMetadata: map<string, Mode>, out: seq<Track>)

  const EMPTY: State := State(map[], map[], map[], map[], map[], [])

  // ---- One fact ----

  /** `u64::try_from`, on values that always fit. */
  function Unsigned(n: Option<int>): Option<nat> {
    match n case Some(i) => (if 0 <= i then Some(i) else None) case None => None
  }

  function AtOrZero(at: Option<nat>): nat {
    match at case Some(n) => n case None => 0
  }

  function Turn(s: State, t: string): TurnState {
    if t in s.turns then s.turns[t] else BLANK
  }

  function Put(s: State, t: string, turn: TurnState): State {
    s.(turns := s.turns[t := turn])
  }

  /** The maps that only `Initialize` and thread responses change. */
  function Owners(s: State): (map<Connection, nat>, map<string, Connection>, map<string, Mode>) {
    (s.connections, s.threadConnections, s.threadMetadata)
  }

  predicate Emittable(s: State, turn: TurnState) {
    && turn.thread.Some? && turn.images.Some? && turn.config.Some? && turn.completed.Some?
    && turn.connection.Some? && turn.connection.value in s.connections
    && turn.thread.value in s.threadMetadata
  }

  function MaybeEmit(s: State, t: string): (r: State)
    ensures r.requests == s.requests && Owners(r) == Owners(s)
  {
    if t in s.turns && Emittable(s, s.turns[t]) then
      var turn := s.turns[t];
      var event := TurnEvent(t, turn, s.connections[turn.connection.value], s.threadMetadata[turn.thread.value]);
      s.(turns := s.turns - {t}, out := s.out + [event])
    else s
  }

  function Taken(s: State, k: Key): State {
    s.(requests := s.requests - {k})
  }

  function EmitSteer(s: State, c: Connection, request: Pending, accepted: Option<string>, reason: Option<nat>): (r: State)
    ensures r.requests == s.requests && Owners(r) == Owners(s)
  {
    if c in s.connections && request.thread in s.threadMetadata then
      s.(out := s.out + [SteerEvent(request, accepted, reason, s.connections[c], s.threadMetadata[request.thread])])
    else s
  }

  function Steered(s: State, t: string): State {
    if t in s.turns then Put(s, t, s.turns[t].(steers := s.turns[t].steers + 1)) else s
  }

  function Ingest(s: State, f: Fact): State {
    match f
    case Initialize(c, client) => s.(connections := s.connections[c := client])
    case StartRequest(k, thread, images) => s.(requests := s.requests[k := TurnStart(thread, images)])
    case SteerRequest(k, thread, expected, images, now) =>
      s.(requests := s.requests[k := TurnSteer(thread, expected, images, now)])
    case OtherRequest(_) => s
    case ThreadResponse(c, thread, mode) =>
      if c in s.connections then
        s.(threadConnections := s.threadConnections[thread := c],
           threadMetadata := s.threadMetadata[thread := mode],
           out := s.out + [ThreadInitialized(thread, s.connections[c], mode)])
      else s
    case StartResponse(k, t) =>
      if k in s.requests && s.requests[k].TurnStart? then
        var turn := Turn(s, t).(connection := Some(k.0), thread := Some(s.requests[k].thread), images := Some(s.requests[k].images));
        MaybeEmit(Put(Taken(s, k), t, turn), t)
      else Taken(s, k)
    case SteerResponse(k, t) =>
      if k in s.requests && s.requests[k].TurnSteer?
      then EmitSteer(Steered(Taken(s, k), t), k.0, s.requests[k], Some(t), None)
      else Taken(s, k)
    case ErrorResponse(k, reason) =>
      if k in s.requests && s.requests[k].TurnSteer?
      then EmitSteer(Taken(s, k), k.0, s.requests[k], None, reason)
      else Taken(s, k)
    case TurnStarted(t, at) => Put(s, t, Turn(s, t).(startedAt := Unsigned(at)))
    case TurnCompleted(t, status, error, at, duration) =>
      MaybeEmit(Put(s, t, Turn(s, t).(completed := Some(Completion(status, error, AtOrZero(Unsigned(at)), Unsigned(duration))))), t)
    case ResolvedConfig(t, thread, images, config) =>
      MaybeEmit(Put(s, t, Turn(s, t).(thread := Some(thread), images := Some(images), config := Some(config))), t)
    case TokenUsage(t, thread, usage) =>
      MaybeEmit(Put(s, t, Turn(s, t).(thread := Some(thread), usage := Some(usage))), t)
  }

  function After(facts: seq<Fact>): State {
    if facts == [] then EMPTY else Ingest(After(facts[..|facts| - 1]), facts[|facts| - 1])
  }

  // ---- What the facts mean for turns, independently of the maps ----

  /** What a fact contributes: a response counts only if it matches a pending request of its kind. */
  datatype Effect =
    | Nothing
    | Attached(turn: string, conn: Connection, thread: string, images: nat)
    | Configured(turn: string, thread: string, images: nat, config: nat)
    | Finished(turn: string, completion: Completion)
    | Used(turn: string, thread: string, usage: nat)
    | Began(turn: string, at: Option<nat>)
    | SteerTaken(turn: string)

  function EffectOf(s: State, f: Fact): Effect {
    match f
    case StartResponse(k, t) =>
      if k in s.requests && s.requests[k].TurnStart?
      then Attached(t, k.0, s.requests[k].thread, s.requests[k].images) else Nothing
    case SteerResponse(k, t) => if k in s.requests && s.requests[k].TurnSteer? then SteerTaken(t) else Nothing
    case TurnStarted(t, at) => Began(t, Unsigned(at))
    case TurnCompleted(t, status, error, at, duration) =>
      Finished(t, Completion(status, error, AtOrZero(Unsigned(at)), Unsigned(duration)))
    case ResolvedConfig(t, thread, images, config) => Configured(t, thread, images, config)
    case TokenUsage(t, thread, usage) => Used(t, thread, usage)
    case _ => Nothing
  }

  predicate Emits(s: State, f: Fact, t: string) {
    var o := Ingest(s, f).out;
    |s.out| < |o| && o[|o| - 1].TurnEvent? && o[|o| - 1].turn == t
  }

  function Effects(facts: seq<Fact>): (r: seq<Effect>)
    ensures |r| == |facts|
  {
    if facts == [] then [] else
      var before := facts[..|facts| - 1];
      Effects(before) + [EffectOf(After(before), facts[|facts| - 1])]
  }

  /** Which facts brought out an event for turn `t`. */
  function Emissions(facts: seq<Fact>, t: string): (r: seq<bool>)
    ensures |r| == |facts|
  {
    if facts == [] then [] else
      var before := facts[..|facts| - 1];
      Emissions(before, t) + [Emits(After(before), facts[|facts| - 1], t)]
  }

  /** What follows the last mark. */
  function Since<T>(xs: seq<T>, marks: seq<bool>): seq<T>
    requires |xs| == |marks|
  {
    if xs == [] || marks[|xs| - 1] then [] else
      var n := |xs| - 1;
      Since(xs[..n], marks[..n]) + [xs[n]]
  }

  /** The effects since the last event for turn `t`. */
  function Epoch(facts: seq<Fact>, t: string): seq<Effect> {
    Since(Effects(facts), Emissions(facts, t))
  }

  /** The latest element that says anything, and what it says. */
  function Latest<A, B>(xs: seq<A>, says: A -> Option<B>): Option<B> {
    if xs == [] then None else
      match says(xs[|xs| - 1])
      case Some(b) => Some(b)
      case None => Latest(xs[..|xs| - 1], says)
  }

  function ConnectionOf(t: string): Effect -> Option<Connection> {
    (e: Effect) => if e.Attached? && e.turn == t then Some(e.conn) else None
  }

  function ThreadOf(t: string): Effect -> Option<string> {
    (e: Effect) => if (e.Attached? || e.Configured? || e.Used?) && e.turn == t then Some(e.thread) else None
  }

  function ImagesOf(t: string): Effect -> Option<nat> {
    (e: Effect) => if (e.Attached? || e.Configured?) && e.turn == t then Some(e.images) else None
  }

  function ConfigOf(t: string): Effect -> Option<nat> {
    (e: Effect) => if e.Configured? && e.turn == t then Some(e.config) else None
  }

  function UsageOf(t: string): Effect -> Option<nat> {
    (e: Effect) => if e.Used? && e.turn == t then Some(e.usage) else None
  }

  function CompletionOf(t: string): Effect -> Option<Completion> {
    (e: Effect) => if e.Finished? && e.turn == t then Some(e.completion) else None
  }

  /** A later start without a time erases an earlier one. */
  function StartOf(t: string): Effect -> Option<Option<nat>> {
    (e: Effect) => if e.Began? && e.turn == t then Some(e.at) else None
  }

  function Joined<T>(o: Option<Option<T>>): Option<T> {
    match o case Some(x) => x case None => None
  }

  predicate Touches(e: Effect, t: string) {
    !e.Nothing? && !e.SteerTaken? && e.turn == t
  }

  predicate Touched(epoch: seq<Effect>, t: string) {
    exists e | e in epoch :: Touches(e, t)
  }

  /** The steers taken for a turn already known of. */
  function Steers(epoch: seq<Effect>, t: string): nat {
    if epoch == [] then 0 else
      var before := epoch[..|epoch| - 1];
      Steers(before, t) + if epoch[|epoch| - 1] == SteerTaken(t) && Touched(before, t) then 1 else 0
  }

  function Summary(epoch: seq<Effect>, t: string): TurnState {
    TurnState(
      Latest(epoch, ConnectionOf(t)), Latest(epoch, ThreadOf(t)), Latest(epoch, ImagesOf(t)), Latest(epoch, ConfigOf(t)),
      Joined(Latest(epoch, StartOf(t))), Latest(epoch, UsageOf(t)), Latest(epoch, CompletionOf(t)), Steers(epoch, t))
  }

  lemma LatestMore<A, B>(xs: seq<A>, x: A, says: A -> Option<B>)
    ensures Latest(xs + [x], says) == if says(x).Some? then says(x) else Latest(xs, says)
  {
    assert (xs + [x])[..|xs|] == xs;
  }

  lemma TouchedMore(epoch: seq<Effect>, e: Effect, t: string)
    ensures Touched(epoch + [e], t) <==> Touched(epoch, t) || Touches(e, t)
  {
    var more := epoch + [e];
    if Touches(e, t) { assert more[|epoch|] == e; assert e in more; }
    if Touched(epoch, t) { var x :| x in epoch && Touches(x, t); assert x in more; }
  }

  lemma SteersMore(epoch: seq<Effect>, e: Effect, t: string)
    ensures Steers(epoch + [e], t) == Steers(epoch, t) + if e == SteerTaken(t) && Touched(epoch, t) then 1 else 0
  {
    assert (epoch + [e])[..|epoch|] == epoch;
  }

  /** How one effect changes what is known of a turn. */
  function Noted(turn: TurnState, e: Effect): TurnState {
    match e
    case Attached(_, c, thread, images) => turn.(connection := Some(c), thread := Some(thread), images := Some(images))
    case Configured(_, thread, images, config) => turn.(thread := Some(thread), images := Some(images), config := Some(config))
    case Finished(_, completion) => turn.(completed := Some(completion))
    case Used(_, thread, usage) => turn.(thread := Some(thread), usage := Some(usage))
    case Began(_, at) => turn.(startedAt := at)
    case _ => turn
  }

  lemma SummaryMore(epoch: seq<Effect>, e: Effect, t: string)
    ensures Summary(epoch + [e], t) ==
            var was := Summary(epoch, t);
            if Touches(e, t) then Noted(was, e)
            else if e == SteerTaken(t) && Touched(epoch, t) then was.(steers := was.steers + 1)
            else was
  {
    LatestMore(epoch, e, ConnectionOf(t));
    LatestMore(epoch, e, ThreadOf(t));
    LatestMore(epoch, e, ImagesOf(t));
    LatestMore(epoch, e, ConfigOf(t));
    LatestMore(epoch, e, StartOf(t));
    LatestMore(epoch, e, UsageOf(t));
    LatestMore(epoch, e, CompletionOf(t));
    SteersMore(epoch, e, t);
  }

  // ---- The maps hold exactly that ----

  predicate Triggers(e: Effect, t: string) { Touches(e, t) && !e.Began? }

  lemma MaybeEmitTurn(s: State, t: string, turn: TurnState)
    ensures var r := MaybeEmit(Put(s, t, turn), t);
            if Emittable(s, turn)
            then r.turns == s.turns - {t} && |r.out| == |s.out| + 1 && r.out[|s.out|].TurnEvent? && r.out[|s.out|].turn == t
            else r.turns == s.turns[t := turn] && r.out == s.out
  {
  }

  lemma EpochMore(facts: seq<Fact>, t: string)
    requires facts != []
    ensures var before, f := facts[..|facts| - 1], facts[|facts| - 1];
            Epoch(facts, t) ==
            if Emits(After(before), f, t) then [] else Epoch(before, t) + [EffectOf(After(before), f)]
  {
    var before := facts[..|facts| - 1];
    assert Effects(facts)[..|before|] == Effects(before);
    assert Emissions(facts, t)[..|before|] == Emissions(before, t);
  }

  /** One fact, seen from one turn. */
  lemma IngestTurn(s: State, f: Fact, t: string)
    ensures var e, r := EffectOf(s, f), Ingest(s, f);
            && (Emits(s, f, t) <==> Triggers(e, t) && Emittable(s, Noted(Turn(s, t), e)))
            && (t in r.turns <==> !Emits(s, f, t) && (t in s.turns || Touches(e, t)))
            && (!Emits(s, f, t) ==>
                  Turn(r, t) == if Touches(e, t) then Noted(Turn(s, t), e)
                                else if e == SteerTaken(t) && t in s.turns then Turn(s, t).(steers := Turn(s, t).steers + 1)
                                else Turn(s, t))
  {
    var e := EffectOf(s, f);
    if !e.Nothing? && !e.SteerTaken? && !e.Began? {
      TriggerStep(s, f);
      var before := if f.StartResponse? then Taken(s, f.key) else s;
      MaybeEmitTurn(before, e.turn, Noted(Turn(s, e.turn), e));
    } else {
      QuietStep(s, f);
    }
  }

  /** A fact that may complete a turn notes its part and looks whether the turn is complete. */
  lemma TriggerStep(s: State, f: Fact)
    requires var e := EffectOf(s, f); !e.Nothing? && !e.SteerTaken? && !e.Began?
    ensures var e := EffectOf(s, f);
            var before := if f.StartResponse? then Taken(s, f.key) else s;
            Ingest(s, f) == MaybeEmit(Put(before, e.turn, Noted(Turn(s, e.turn), e)), e.turn)
  {
  }

  /** Any other fact brings out no turn event. */
  lemma QuietStep(s: State, f: Fact)
    requires var e := EffectOf(s, f); e.Nothing? || e.SteerTaken? || e.Began?
    ensures var e, r := EffectOf(s, f), Ingest(s, f);
            && r.turns == (if e.Began? then s.turns[e.turn := Noted(Turn(s, e.turn), e)]
                           else if e.SteerTaken? then Steered(s, e.turn).turns else s.turns)
            && (r.out == s.out || (|r.out| == |s.out| + 1 && !r.out[|s.out|].TurnEvent?))
  {
  }

  /** MAIN: at any time the maps know of a turn exactly what the facts since its last event say. */
  lemma {:induction false} TurnIsSummary(facts: seq<Fact>, t: string)
    ensures var s, epoch := After(facts), Epoch(facts, t);
            (t in s.turns <==> Touched(epoch, t)) && Turn(s, t) == Summary(epoch, t)
  {
    if facts != [] {
      var before, f := facts[..|facts| - 1], facts[|facts| - 1];
      TurnIsSummary(before, t);
      IngestTurn(After(before), f, t);
      var epoch, e := Epoch(before, t), EffectOf(After(before), f);
      SummaryMore(epoch, e, t);
      TouchedMore(epoch, e, t);
      EpochMore(facts, t);
    }
  }

  /** A configured turn has a thread and a number of images. */
  lemma {:induction false} ConfigurationIsComplete(epoch: seq<Effect>, t: string)
    requires Latest(epoch, ConfigOf(t)).Some?
    ensures Latest(epoch, ThreadOf(t)).Some? && Latest(epoch, ImagesOf(t)).Some?
  {
    var e := epoch[|epoch| - 1];
    if !(e.Configured? && e.turn == t) { ConfigurationIsComplete(epoch[..|epoch| - 1], t); }
  }

  /** Start response, configuration and completion have all been seen, and their owners are known. */
  predicate Ready(s: State, epoch: seq<Effect>, t: string) {
    && Latest(epoch, ConfigOf(t)).Some? && Latest(epoch, CompletionOf(t)).Some?
    && Latest(epoch, ConnectionOf(t)).Some? && Latest(epoch, ConnectionOf(t)).value in s.connections
    && Latest(epoch, ThreadOf(t)).Some? && Latest(epoch, ThreadOf(t)).value in s.threadMetadata
  }

  /**
    MAIN: a turn event appears exactly when a fact about the turn finds all three parts
    seen since the last one, whatever their order; it carries their latest values.
   */
  lemma TurnEventExactlyWhen(facts: seq<Fact>, f: Fact, t: string)
    ensures var s := After(facts);
            var epoch := Epoch(facts, t) + [EffectOf(s, f)];
            && (Emits(s, f, t) <==> Triggers(EffectOf(s, f), t) && Ready(s, epoch, t))
            && (Emits(s, f, t) ==>
                  var turn := Summary(epoch, t);
                  && turn.connection.Some? && turn.connection.value in s.connections
                  && turn.thread.Some? && turn.thread.value in s.threadMetadata
                  && After(facts + [f]).out ==
                     s.out + [TurnEvent(t, turn, s.connections[turn.connection.value], s.threadMetadata[turn.thread.value])])
  {
    var s := After(facts);
    var e := EffectOf(s, f);
    var epoch := Epoch(facts, t) + [e];
    TurnIsSummary(facts, t);
    IngestTurn(s, f, t);
    SummaryMore(Epoch(facts, t), e, t);
    if Latest(epoch, ConfigOf(t)).Some? { ConfigurationIsComplete(epoch, t); }
    assert (facts + [f])[..|facts|] == facts;
    if Emits(s, f, t) { EmittedEvent(s, f, t); }
  }

  lemma EmittedEvent(s: State, f: Fact, t: string)
    requires Emits(s, f, t)
    ensures var turn := Noted(Turn(s, t), EffectOf(s, f));
            && Emittable(s, turn)
            && Ingest(s, f).out ==
               s.out + [TurnEvent(t, turn, s.connections[turn.connection.value], s.threadMetadata[turn.thread.value])]
  {
    IngestTurn(s, f, t);
  }

  // ---- Events of one turn are separated by fresh facts ----

  lemma {:induction false} SinceIsLater<T>(xs: seq<T>, marks: seq<bool>, i: nat)
    requires |xs| == |marks| && i < |xs| && marks[i]
    ensures forall x | x in Since(xs, marks) :: x in xs[i + 1..]
  {
    var n := |xs| - 1;
    if !marks[n] {
      SinceIsLater(xs[..n], marks[..n], i);
      assert xs[i + 1..] == xs[..n][i + 1..] + [xs[n]];
    }
  }

  lemma {:induction false} LatestIsSaid<A, B>(xs: seq<A>, says: A -> Option<B>)
    requires Latest(xs, says).Some?
    ensures exists x | x in xs :: says(x) == Latest(xs, says)
  {
    var n := |xs| - 1;
    if says(xs[n]).None? { LatestIsSaid(xs[..n], says); } else { assert xs[n] in xs; }
  }

  ghost predicate Said<A(!new), B>(xs: seq<A>, says: A -> Option<B>) {
    exists x | x in xs :: says(x).Some?
  }

  lemma SaidSince<B>(xs: seq<Effect>, marks: seq<bool>, e: Effect, i: nat, says: Effect -> Option<B>)
    requires |xs| == |marks| && i < |xs| && marks[i] && Latest(Since(xs, marks) + [e], says).Some?
    ensures Said(xs[i + 1..] + [e], says)
  {
    SinceIsLater(xs, marks, i);
    LatestIsSaid(Since(xs, marks) + [e], says);
    var x :| x in Since(xs, marks) + [e] && says(x) == Latest(Since(xs, marks) + [e], says);
    assert x in xs[i + 1..] + [e];
  }

  /** MAIN: between two events for one turn there are a new start, a new configuration and a new completion. */
  lemma EventsNeedFreshFacts(facts: seq<Fact>, i: nat, f: Fact, t: string)
    requires i < |facts| && Emissions(facts, t)[i] && Emits(After(facts), f, t)
    ensures var later := Effects(facts)[i + 1..] + [EffectOf(After(facts), f)];
            Said(later, ConnectionOf(t)) && Said(later, ConfigOf(t)) && Said(later, CompletionOf(t))
  {
    var xs, marks, e := Effects(facts), Emissions(facts, t), EffectOf(After(facts), f);
    TurnEventExactlyWhen(facts, f, t);
    SaidSince(xs, marks, e, i, ConnectionOf(t));
    SaidSince(xs, marks, e, i, ConfigOf(t));
    SaidSince(xs, marks, e, i, CompletionOf(t));
  }

  function Count(marks: seq<bool>): nat {
    if marks == [] then 0 else Count(marks[..|marks| - 1]) + if marks[|marks| - 1] then 1 else 0
  }

  function Times<A, B>(xs: seq<A>, says: A -> Option<B>): nat {
    if xs == [] then 0 else Times(xs[..|xs| - 1], says) + if says(xs[|xs| - 1]).Some? then 1 else 0
  }

  ghost function Owed<B>(facts: seq<Fact>, t: string, says: Effect -> Option<B>): nat {
    Count(Emissions(facts, t)) + if Latest(Epoch(facts, t), says).Some? then 1 else 0
  }

  lemma OwedStep<B>(facts: seq<Fact>, t: string, says: Effect -> Option<B>)
    requires facts != []
    requires var before, f := facts[..|facts| - 1], facts[|facts| - 1];
             && Owed(before, t, says) <= Times(Effects(before), says)
             && (Emits(After(before), f, t) ==> Latest(Epoch(before, t) + [EffectOf(After(before), f)], says).Some?)
    ensures Owed(facts, t, says) <= Times(Effects(facts), says)
  {
    var before, f := facts[..|facts| - 1], facts[|facts| - 1];
    var e, emits := EffectOf(After(before), f), Emits(After(before), f, t);
    EpochMore(facts, t);
    LatestMore(Epoch(before, t), e, says);
    assert Effects(facts) == Effects(before) + [e] && Effects(facts)[..|before|] == Effects(before);
    assert Emissions(facts, t) == Emissions(before, t) + [emits] && Emissions(facts, t)[..|before|] == Emissions(before, t);
  }

  /** MAIN: a turn never has more events than start responses, configurations or completions. */
  lemma {:induction false} EventsBounded(facts: seq<Fact>, t: string)
    ensures Owed(facts, t, ConnectionOf(t)) <= Times(Effects(facts), ConnectionOf(t))
    ensures Owed(facts, t, ConfigOf(t)) <= Times(Effects(facts), ConfigOf(t))
    ensures Owed(facts, t, CompletionOf(t)) <= Times(Effects(facts), CompletionOf(t))
  {
    if facts != [] {
      var before, f := facts[..|facts| - 1], facts[|facts| - 1];
      EventsBounded(before, t);
      TurnEventExactlyWhen(before, f, t);
      OwedStep(facts, t, ConnectionOf(t));
      OwedStep(facts, t, ConfigOf(t));
      OwedStep(facts, t, CompletionOf(t));
    }
  }

  // ---- One of each is one event ----

  lemma {:induction false} UnmarkedIsAll<T>(xs: seq<T>, marks: seq<bool>)
    requires |xs| == |marks| && Count(marks) == 0
    ensures Since(xs, marks) == xs
  {
    if xs != [] {
      var n := |xs| - 1;
      UnmarkedIsAll(xs[..n], marks[..n]);
      assert xs == xs[..n] + [xs[n]];
    }
  }

  lemma {:induction false} SaidIsLatest<A, B>(xs: seq<A>, says: A -> Option<B>)
    requires Times(xs, says) != 0
    ensures Latest(xs, says).Some?
  {
    var n := |xs| - 1;
    if says(xs[n]).None? { SaidIsLatest(xs[..n], says); }
  }

  lemma TimesMore<A, B>(xs: seq<A>, x: A, says: A -> Option<B>)
    ensures Times(xs + [x], says) == Times(xs, says) + if says(x).Some? then 1 else 0
  {
    assert (xs + [x])[..|xs|] == xs;
  }

  lemma {:induction false} CountHasRoom(marks: seq<bool>, i: nat)
    requires i < |marks| && marks[i]
    ensures 1 <= Count(marks)
  {
    var n := |marks| - 1;
    if i < n { CountHasRoom(marks[..n], i); }
  }

  lemma {:induction false} EmissionsKept(before: seq<Fact>, after: seq<Fact>, t: string)
    ensures Emissions(before, t) <= Emissions(before + after, t)
  {
    if after == [] {
      assert before + after == before;
    } else {
      var n := |after| - 1;
      assert (before + after)[..|before| + n] == before + after[..n];
      EmissionsKept(before, after[..n], t);
    }
  }

  /** `f` is the last to arrive of one start response, one configuration and one completion. */
  ghost predicate CompletesSet(facts: seq<Fact>, f: Fact, t: string) {
    var seen, e := Effects(facts), EffectOf(After(facts), f);
    && Triggers(e, t) && !e.Used?
    && Times(seen + [e], ConnectionOf(t)) == 1
    && Times(seen + [e], ConfigOf(t)) == 1
    && Times(seen + [e], CompletionOf(t)) == 1
  }

  /** The connection is initialised and the facts agree on a thread that is registered. */
  ghost predicate OwnersKnown(facts: seq<Fact>, f: Fact, t: string) {
    var s := After(facts);
    forall e | e in Effects(facts) + [EffectOf(s, f)] ::
      && (ConnectionOf(t)(e).Some? ==> ConnectionOf(t)(e).value in s.connections)
      && (ThreadOf(t)(e).Some? ==> ThreadOf(t)(e).value in s.threadMetadata)
  }

  lemma NoneBefore(facts: seq<Fact>, f: Fact, t: string)
    requires CompletesSet(facts, f, t)
    ensures Epoch(facts, t) == Effects(facts)
  {
    var seen, e := Effects(facts), EffectOf(After(facts), f);
    EventsBounded(facts, t);
    TimesMore(seen, e, ConnectionOf(t));
    TimesMore(seen, e, ConfigOf(t));
    TimesMore(seen, e, CompletionOf(t));
    UnmarkedIsAll(seen, Emissions(facts, t));
  }

  lemma SetIsReady(facts: seq<Fact>, f: Fact, t: string)
    requires CompletesSet(facts, f, t) && OwnersKnown(facts, f, t)
    ensures Ready(After(facts), Effects(facts) + [EffectOf(After(facts), f)], t)
  {
    var epoch := Effects(facts) + [EffectOf(After(facts), f)];
    SaidIsLatest(epoch, ConnectionOf(t));
    SaidIsLatest(epoch, ConfigOf(t));
    SaidIsLatest(epoch, CompletionOf(t));
    ConfigurationIsComplete(epoch, t);
    LatestIsSaid(epoch, ConnectionOf(t));
    LatestIsSaid(epoch, ThreadOf(t));
  }

  /**
    MAIN: one start response, one configuration and one completion, in any order and among
    any other facts, bring out exactly one event, at the last of the three.
   */
  lemma OneTurnEvent(before: seq<Fact>, f: Fact, after: seq<Fact>, t: string)
    requires CompletesSet(before, f, t) && OwnersKnown(before, f, t)
    requires Times(Effects(before + [f] + after), ConfigOf(t)) == 1
    ensures var marks := Emissions(before + [f] + after, t);
            Count(marks) == 1 && marks[|before|]
  {
    NoneBefore(before, f, t);
    SetIsReady(before, f, t);
    TurnEventExactlyWhen(before, f, t);
    assert (before + [f])[..|before|] == before;
    EmissionsKept(before + [f], after, t);
    var all := before + [f] + after;
    assert Emissions(all, t)[|before|] == Emissions(before + [f], t)[|before|];
    CountHasRoom(Emissions(all, t), |before|);
    EventsBounded(all, t);
  }

  // ---- A pending request is answered at most once ----

  /** What a fact says about a key: a request fills it, any answer empties it. */
  function UseOf(k: Key): Fact -> Option<Option<Pending>> {
    (f: Fact) =>
      match f
      case StartRequest(key, thread, images) => if key == k then Some(Some(TurnStart(thread, images))) else None
      case SteerRequest(key, thread, expected, images, now) =>
        if key == k then Some(Some(TurnSteer(thread, expected, images, now))) else None
      case StartResponse(key, _) => if key == k then Some(None) else None
      case SteerResponse(key, _) => if key == k then Some(None) else None
      case ErrorResponse(key, _) => if key == k then Some(None) else None
      case _ => None
  }

  function Request(s: State, k: Key): Option<Pending> {
    if k in s.requests then Some(s.requests[k]) else None
  }

  lemma IngestRequest(s: State, f: Fact, k: Key)
    ensures Request(Ingest(s, f), k) == if UseOf(k)(f).Some? then UseOf(k)(f).value else Request(s, k)
  {
    var r := Ingest(s, f);
    match f
    case StartRequest(key, _, _) => assert k != key ==> (k in r.requests <==> k in s.requests);
    case SteerRequest(key, _, _, _, _) => assert k != key ==> (k in r.requests <==> k in s.requests);
    case StartResponse(key, _) => assert r.requests == s.requests - {key};
    case SteerResponse(key, _) => assert r.requests == s.requests - {key};
    case ErrorResponse(key, _) => assert r.requests == s.requests - {key};
    case _ => assert r.requests == s.requests;
  }

  /** MAIN: a request is pending exactly while it is the latest use of its key. */
  lemma {:induction false} PendingIsLatestUse(facts: seq<Fact>, k: Key)
    ensures Request(After(facts), k) == Joined(Latest(facts, UseOf(k)))
  {
    if facts != [] {
      PendingIsLatestUse(facts[..|facts| - 1], k);
      IngestRequest(After(facts[..|facts| - 1]), facts[|facts| - 1], k);
    }
  }

  lemma {:induction false} LatestOfQuiet<A, B>(xs: seq<A>, x: A, ys: seq<A>, says: A -> Option<B>)
    requires says(x).Some? && forall y | y in ys :: says(y).None?
    ensures Latest(xs + [x] + ys, says) == says(x)
  {
    if ys == [] {
      assert xs + [x] + ys == xs + [x];
      LatestMore(xs, x, says);
    } else {
      var n := |ys| - 1;
      assert ys[n] in ys;
      assert xs + [x] + ys == (xs + [x] + ys[..n]) + [ys[n]];
      LatestMore(xs + [x] + ys[..n], ys[n], says);
      LatestOfQuiet(xs, x, ys[..n], says);
    }
  }

  /**
    MAIN: once a key has been answered or has failed, any further response or error for it
    changes nothing and brings out nothing until it is requested again.
   */
  lemma AnsweredOnce(facts: seq<Fact>, answer: Fact, quiet: seq<Fact>, again: Fact)
    requires answer.StartResponse? || answer.SteerResponse? || answer.ErrorResponse?
    requires again.StartResponse? || again.SteerResponse? || again.ErrorResponse?
    requires again.key == answer.key
    requires forall f | f in quiet :: UseOf(answer.key)(f).None?
    ensures var s := After(facts + [answer] + quiet);
            Ingest(s, again) == s && EffectOf(s, again) == Nothing
  {
    LatestOfQuiet(facts, answer, quiet, UseOf(answer.key));
    PendingIsLatestUse(facts + [answer] + quiet, answer.key);
    var s := After(facts + [answer] + quiet);
    assert s.requests - {again.key} == s.requests;
  }

  // ---- Everything that comes out, told from the facts alone ----

  function ClientOf(c: Connection): Fact -> Option<nat> {
    (f: Fact) => if f.Initialize? && f.conn == c then Some(f.client) else None
  }

  /** The client that last introduced itself on the connection. */
  function Client(facts: seq<Fact>, c: Connection): Option<nat> { Latest(facts, ClientOf(c)) }

  /** How the thread was last opened over a connection that had a client by then, and over which. */
  function Opening(facts: seq<Fact>, thread: string): Option<(Connection, Mode)> {
    if facts == [] then None
    else
      var before, f := facts[..|facts| - 1], facts[|facts| - 1];
      if f.ThreadResponse? && f.thread == thread && Client(before, f.conn).Some? then Some((f.conn, f.mode))
      else Opening(before, thread)
  }

  /** The request still waiting under a key. */
  function WaitingFor(facts: seq<Fact>, k: Key): Option<Pending> { Joined(Latest(facts, UseOf(k))) }

  /** A steer is reported if its connection has a client and its thread is open. */
  function SteerReport(facts: seq<Fact>, k: Key, accepted: Option<string>, reason: Option<nat>): seq<Track> {
    match (WaitingFor(facts, k), Client(facts, k.0))
    case (Some(request), Some(client)) =>
      if request.TurnStart? then []
      else (match Opening(facts, request.thread)
            case Some((_, mode)) => [SteerEvent(request, accepted, reason, client, mode)]
            case None => [])
    case _ => []
  }

  /** What a fact contributes to a turn, told from the facts before it. */
  function EffectFrom(facts: seq<Fact>, f: Fact): Effect {
    match f
    case StartResponse(k, t) =>
      (match WaitingFor(facts, k)
       case Some(TurnStart(thread, images)) => Attached(t, k.0, thread, images)
       case _ => Nothing)
    case SteerResponse(k, t) =>
      (match WaitingFor(facts, k) case Some(TurnSteer(_, _, _, _)) => SteerTaken(t) case _ => Nothing)
    case TurnStarted(t, at) => Began(t, Unsigned(at))
    case TurnCompleted(t, status, error, at, duration) =>
      Finished(t, Completion(status, error, AtOrZero(Unsigned(at)), Unsigned(duration)))
    case ResolvedConfig(t, thread, images, config) => Configured(t, thread, images, config)
    case TokenUsage(t, thread, usage) => Used(t, thread, usage)
    case _ => Nothing
  }

  /** A turn is reported once start, configuration and completion are there and their owners known. */
  function TurnReport(facts: seq<Fact>, e: Effect): seq<Track> {
    if e.Nothing? || e.SteerTaken? || e.Began? then []
    else
      var turn := Summary(Epoch(facts, e.turn) + [e], e.turn);
      if turn.config.None? || turn.completed.None? || turn.connection.None? || turn.thread.None? then []
      else
        match (Client(facts, turn.connection.value), Opening(facts, turn.thread.value))
        case (Some(client), Some((_, mode))) => [TurnEvent(e.turn, turn, client, mode)]
        case _ => []
  }

  /** All that a fact brings out. */
  function Reports(facts: seq<Fact>, f: Fact): seq<Track> {
    match f
    case ThreadResponse(c, thread, mode) =>
      (match Client(facts, c) case Some(client) => [ThreadInitialized(thread, client, mode)] case None => [])
    case SteerResponse(k, t) => SteerReport(facts, k, Some(t), None)
    case ErrorResponse(k, reason) => SteerReport(facts, k, None, reason)
    case _ => TurnReport(facts, EffectFrom(facts, f))
  }

  lemma IngestOwners(s: State, f: Fact)
    ensures Owners(Ingest(s, f)) ==
            if f.Initialize? then (s.connections[f.conn := f.client], s.threadConnections, s.threadMetadata)
            else if f.ThreadResponse? && f.conn in s.connections
            then (s.connections, s.threadConnections[f.thread := f.conn], s.threadMetadata[f.thread := f.mode])
            else Owners(s)
  {
  }

  lemma {:induction false} ClientExactly(facts: seq<Fact>, c: Connection)
    ensures var s := After(facts);
            (if c in s.connections then Some(s.connections[c]) else None) == Client(facts, c)
  {
    if facts != [] {
      ClientExactly(facts[..|facts| - 1], c);
      IngestOwners(After(facts[..|facts| - 1]), facts[|facts| - 1]);
    }
  }

  /** MAIN: the thread maps hold exactly how each thread was last opened. */
  lemma {:induction false} OpeningExactly(facts: seq<Fact>, thread: string)
    ensures var s := After(facts);
            && (thread in s.threadMetadata <==> Opening(facts, thread).Some?)
            && (thread in s.threadConnections <==> Opening(facts, thread).Some?)
            && (thread in s.threadMetadata && thread in s.threadConnections ==>
                  Opening(facts, thread) == Some((s.threadConnections[thread], s.threadMetadata[thread])))
  {
    if facts != [] {
      var before, f := facts[..|facts| - 1], facts[|facts| - 1];
      OpeningExactly(before, thread);
      if f.ThreadResponse? { ClientExactly(before, f.conn); }
      IngestOwners(After(before), f);
    }
  }

  lemma EffectExactly(facts: seq<Fact>, f: Fact)
    ensures EffectOf(After(facts), f) == EffectFrom(facts, f)
  {
    match f
    case StartResponse(k, _) => PendingIsLatestUse(facts, k);
    case SteerResponse(k, _) => PendingIsLatestUse(facts, k);
    case _ =>
  }

  lemma SteerOut(s: State, c: Connection, request: Pending, accepted: Option<string>, reason: Option<nat>)
    ensures EmitSteer(s, c, request, accepted, reason).out ==
            s.out + if c in s.connections && request.thread in s.threadMetadata
                    then [SteerEvent(request, accepted, reason, s.connections[c], s.threadMetadata[request.thread])] else []
  {
    assert s.out + [] == s.out;
  }

  lemma SteerExactly(facts: seq<Fact>, k: Key, f: Fact, accepted: Option<string>, reason: Option<nat>)
    requires f == match accepted case Some(t) => SteerResponse(k, t) case None => ErrorResponse(k, reason)
    requires accepted.Some? ==> reason.None?
    ensures Ingest(After(facts), f).out == After(facts).out + SteerReport(facts, k, accepted, reason)
  {
    var s := After(facts);
    PendingIsLatestUse(facts, k);
    ClientExactly(facts, k.0);
    assert s.out + [] == s.out;
    if k in s.requests && s.requests[k].TurnSteer? {
      var request := s.requests[k];
      OpeningExactly(facts, request.thread);
      var t := if accepted.Some? then Steered(Taken(s, k), accepted.value) else Taken(s, k);
      assert t.out == s.out && t.connections == s.connections && t.threadMetadata == s.threadMetadata;
      SteerOut(t, k.0, request, accepted, reason);
    }
  }

  /** The report of a turn is due exactly when the maps are ready for it. */
  lemma ReportIsReady(facts: seq<Fact>, e: Effect, t: string)
    requires Triggers(e, t)
    ensures TurnReport(facts, e) != [] <==> Ready(After(facts), Epoch(facts, t) + [e], t)
    ensures TurnReport(facts, e) != [] ==>
              var s, turn := After(facts), Summary(Epoch(facts, t) + [e], t);
              && turn.connection.Some? && turn.connection.value in s.connections
              && turn.thread.Some? && turn.thread.value in s.threadMetadata
              && TurnReport(facts, e) == [TurnEvent(t, turn, s.connections[turn.connection.value], s.threadMetadata[turn.thread.value])]
  {
    var turn := Summary(Epoch(facts, t) + [e], t);
    if turn.connection.Some? { ClientExactly(facts, turn.connection.value); }
    if turn.thread.Some? { OpeningExactly(facts, turn.thread.value); }
  }

  /** A fact that reports neither a thread nor a steer adds at most one event for its turn. */
  lemma OnlyTurnEvents(s: State, f: Fact)
    requires !f.ThreadResponse? && !f.SteerResponse? && !f.ErrorResponse?
    ensures var e := EffectOf(s, f);
            if e.Nothing? || e.Began? then Ingest(s, f).out == s.out
            else !e.SteerTaken? && (Ingest(s, f).out == s.out || Emits(s, f, e.turn))
  {
  }

  lemma TurnFactExactly(facts: seq<Fact>, f: Fact)
    requires !f.ThreadResponse? && !f.SteerResponse? && !f.ErrorResponse?
    ensures After(facts + [f]).out == After(facts).out + TurnReport(facts, EffectFrom(facts, f))
  {
    var s, e := After(facts), EffectFrom(facts, f);
    EffectExactly(facts, f);
    OnlyTurnEvents(s, f);
    assert (facts + [f])[..|facts|] == facts && s.out + [] == s.out;
    if !e.Nothing? && !e.Began? {
      TurnEventExactlyWhen(facts, f, e.turn);
      ReportIsReady(facts, e, e.turn);
    }
  }

  /** MAIN: what a fact brings out is exactly what the facts so far say it should. */
  lemma OutputExactly(facts: seq<Fact>, f: Fact)
    ensures After(facts + [f]).out == After(facts).out + Reports(facts, f)
  {
    var s := After(facts);
    assert (facts + [f])[..|facts|] == facts && s.out + [] == s.out;
    if f.ThreadResponse? { ClientExactly(facts, f.conn); }
    else if f.SteerResponse? { SteerExactly(facts, f.key, f, Some(f.turn), None); }
    else if f.ErrorResponse? { SteerExactly(facts, f.key, f, None, f.reason); }
    else { TurnFactExactly(facts, f); }
  }

  // ---- The reducer ----

  class Reducer {
    var requests: map<Key, Pending>
    var turns: map<string, TurnState>
    var connections: map<Connection, nat>
    var threadConnections: map<string, Connection>
    var threadMetadata: map<string, Mode>
    var out: seq<Track>

    ghost function Abs(): State
      reads this
    {
      State(requests, turns, connections, threadConnections, threadMetadata, out)
    }

    constructor ()
      ensures Abs() == EMPTY
    {
      requests, turns, connections, threadConnections, threadMetadata, out := map[], map[], map[], map[], map[], [];
    }

    method IngestFact(f: Fact)
      modifies this
      ensures Abs() == Ingest(old(Abs()), f)
    {
      match f
      case Initialize(c, client) => connections := connections[c := client];
      case StartRequest(k, thread, images) => requests := requests[k := TurnStart(thread, images)];
      case SteerRequest(k, thread, expected, images, now) =>
        requests := requests[k := TurnSteer(thread, expected, images, now)];
      case OtherRequest(_) =>
      case ThreadResponse(c, thread, mode) => EmitThreadInitialized(c, thread, mode);
      case StartResponse(k, t) => IngestStartResponse(k, t);
      case SteerResponse(k, t) => IngestSteerResponse(k, t);
      case ErrorResponse(k, reason) => IngestErrorResponse(k, reason);
      case TurnStarted(t, at) =>
        var turn := TurnOrBlank(t);
        turns := turns[t := turn.(startedAt := Unsigned(at))];
      case TurnCompleted(t, status, error, at, duration) =>
        var turn := TurnOrBlank(t);
        turns := turns[t := turn.(completed := Some(Completion(status, error, AtOrZero(Unsigned(at)), Unsigned(duration))))];
        MaybeEmitTurnEvent(t);
      case ResolvedConfig(t, thread, images, config) =>
        var turn := TurnOrBlank(t);
        turns := turns[t := turn.(thread := Some(thread), images := Some(images), config := Some(config))];
        MaybeEmitTurnEvent(t);
      case TokenUsage(t, thread, usage) =>
        var turn := TurnOrBlank(t);
        turns := turns[t := turn.(thread := Some(thread), usage := Some(usage))];
        MaybeEmitTurnEvent(t);
    }

    method TurnOrBlank(t: string) returns (turn: TurnState)
      ensures turn == Turn(Abs(), t)
    {
      turn := if t in turns then turns[t] else BLANK;
    }

    method EmitThreadInitialized(c: Connection, thread: string, mode: Mode)
      modifies `threadConnections, `threadMetadata, `out
      ensures Abs() == Ingest(old(Abs()), ThreadResponse(c, thread, mode))
    {
      if c !in connections { return; }
      threadConnections := threadConnections[thread := c];
      threadMetadata := threadMetadata[thread := mode];
      out := out + [ThreadInitialized(thread, connections[c], mode)];
    }

    /** The entry is taken whatever its kind, and only a start request goes on. */
    method IngestStartResponse(k: Key, t: string)
      modifies `requests, `turns, `out
      ensures Abs() == Ingest(old(Abs()), StartResponse(k, t))
    {
      var request := if k in requests then Some(requests[k]) else None;
      requests := requests - {k};
      if request.None? || !request.value.TurnStart? { return; }
      var turn := TurnOrBlank(t);
      turns := turns[t := turn.(connection := Some(k.0), thread := Some(request.value.thread), images := Some(request.value.images))];
      MaybeEmitTurnEvent(t);
    }

    method IngestSteerResponse(k: Key, t: string)
      modifies `requests, `turns, `out
      ensures Abs() == Ingest(old(Abs()), SteerResponse(k, t))
    {
      var request := if k in requests then Some(requests[k]) else None;
      requests := requests - {k};
      if request.None? || !request.value.TurnSteer? { return; }
      if t in turns { turns := turns[t := turns[t].(steers := turns[t].steers + 1)]; }
      EmitSteerEvent(k.0, request.value, Some(t), None);
    }

    method IngestErrorResponse(k: Key, reason: Option<nat>)
      modifies `requests, `out
      ensures Abs() == Ingest(old(Abs()), ErrorResponse(k, reason))
    {
      var request := if k in requests then Some(requests[k]) else None;
      requests := requests - {k};
      if request.Some? && request.value.TurnSteer? { EmitSteerEvent(k.0, request.value, None, reason); }
    }

    method EmitSteerEvent(c: Connection, request: Pending, accepted: Option<string>, reason: Option<nat>)
      modifies `out
      ensures Abs() == EmitSteer(old(Abs()), c, request, accepted, reason)
    {
      if c !in connections { return; }
      if request.thread !in threadMetadata { return; }
      out := out + [SteerEvent(request, accepted, reason, connections[c], threadMetadata[request.thread])];
    }

    method MaybeEmitTurnEvent(t: string)
      modifies `turns, `out
      ensures Abs() == MaybeEmit(old(Abs()), t)
    {
      if t !in turns { return; }
      var turn := turns[t];
      if turn.thread.None? || turn.images.None? || turn.config.None? || turn.completed.None? { return; }
      if turn.connection.None? || turn.connection.value !in connections { return; }
      if turn.thread.value !in threadMetadata { return; }
      out := out + [TurnEvent(t, turn, connections[turn.connection.value], threadMetadata[turn.thread.value])];
      turns := turns - {t};
    }
  }
}
