/**
  The table of running commands: admission under a key, control requests routed by key,
  and the sweep that terminates a closed connection's commands.
 */
module CommandSessions {
  import opened Text

  type Connection = nat

  datatype ProcessId = Generated(n: nat) | Client(s: string)

  datatype Key = Key(conn: Connection, process: ProcessId)

  /** `Active` holds the sending end of one command's control channel. */
  datatype Session = Active(cmd: nat) | UnsupportedWindowsSandbox

  datatype Control = Write | Resize | Terminate

  const CONTROL_CAPACITY: nat := 32

  datatype Params = Params(
    conn: Connection, process: Option<string>, streaming: bool, windows: bool, defaultCap: bool, emptyCommand: bool)

  datatype StartError = NeedsProcessId | WindowsStreaming | WindowsOutputCap | EmptyCommand | DuplicateProcessId

  datatype ControlError = NoActiveCommand | WindowsUnsupported

  datatype Table = Table(sessions: map<Key, Session>, nextGenerated: nat)

  /** Still spawning, running its loop, past it with its entry still to be removed, or gone. */
  datatype Phase = Spawning | Running | Finished | Gone

  datatype Command = Command(key: Key, windows: bool, phase: Phase, inbox: seq<(Key, Control)>, terminated: bool)

  /** A control request on its way: looked up, not yet queued. */
  datatype Send = Send(key: Key, cmd: nat, control: Control)

  /** A call of `connection_closed`: the commands it has still to tell. */
  datatype Closing = Closing(conn: Connection, todo: set<nat>)

  datatype State = State(
    table: Table, commands: seq<Command>, sends: set<Send>, closings: seq<Closing>, closed: set<Connection>)

  const Init: State := State(Table(map[], 1), [], {}, [], {})

  // ---- The table ----

  function KeyFor(t: Table, p: Params): Key {
    Key(p.conn, match p.process case Some(s) => Client(s) case None => Generated(t.nextGenerated))
  }

  function Drawn(t: Table, p: Params): Table {
    if p.process.None? then t.(nextGenerated := t.nextGenerated + 1) else t
  }

  /** A command on the Windows sandbox is in the table only under a client's id. */
  predicate Registers(windows: bool, k: Key) { !windows || k.process.Client? }

  /** Admission of a command with number `cmd`. */
  function Admit(t: Table, p: Params, cmd: nat): (Table, Result<Key, StartError>) {
    if p.process.None? && p.streaming then (t, Err(NeedsProcessId)) else
      var k, u := KeyFor(t, p), Drawn(t, p);
      if p.windows && p.streaming then (u, Err(WindowsStreaming))
      else if p.windows && !p.defaultCap then (u, Err(WindowsOutputCap))
      else if !p.windows && p.emptyCommand then (u, Err(EmptyCommand))
      else if !Registers(p.windows, k) then (u, Ok(k))
      else if k in u.sessions then (u, Err(DuplicateProcessId))
      else (u.(sessions := u.sessions[k := if p.windows then UnsupportedWindowsSandbox else Active(cmd)]), Ok(k))
  }

  function Removed(t: Table, k: Key): Table { t.(sessions := t.sessions - {k}) }

  function Find(t: Table, k: Key): Result<nat, ControlError> {
    if k !in t.sessions then Err(NoActiveCommand)
    else match t.sessions[k] case Active(cmd) => Ok(cmd) case UnsupportedWindowsSandbox => Err(WindowsUnsupported)
  }

  function Swept(t: Table, conn: Connection): Table {
    t.(sessions := map k | k in t.sessions && k.conn != conn :: t.sessions[k])
  }

  function ToTell(t: Table, conn: Connection): set<nat> {
    set k | k in t.sessions && k.conn == conn && t.sessions[k].Active? :: t.sessions[k].cmd
  }

  // ---- Steps ----

  datatype Step =
    | StartCommand(params: Params)
    | SpawnResult(cmd: nat, ok: bool)
    | Finish(cmd: nat)
    | RemoveEntry(cmd: nat)
    | LookUp(key: Key, control: Control)
    | Queue(send: Send)
    | Take(cmd: nat)
    | CloseConnection(conn: Connection)
    | Tell(closing: nat, cmd: nat)

  predicate In(s: State, i: nat, phase: Phase) { i < |s.commands| && s.commands[i].phase == phase }

  /** The command's task still holds the receiving end of its control channel. */
  predicate Receiving(c: Command) { c.phase.Spawning? || c.phase.Running? }

  function Updated(s: State, i: nat, c: Command): State
    requires i < |s.commands|
  {
    s.(commands := s.commands[i := c])
  }

  function Started(s: State, p: Params): State {
    var (t, r) := Admit(s.table, p, |s.commands|);
    match r
    case Ok(k) => s.(table := t, commands := s.commands + [Command(k, p.windows, if p.windows then Running else Spawning, [], false)])
    case Err(_) => s.(table := t)
  }

  /** The command leaves the table, whoever holds the key by now. */
  function Left(s: State, i: nat): State
    requires i < |s.commands|
  {
    Updated(s, i, s.commands[i].(phase := Gone)).(table := Removed(s.table, s.commands[i].key))
  }

  function Queued(c: Command, k: Key, control: Control): Command { c.(inbox := c.inbox + [(k, control)]) }

  predicate Full(c: Command) { CONTROL_CAPACITY <= |c.inbox| }

  function Took(c: Command): Command
    requires c.inbox != []
  {
    c.(inbox := c.inbox[1..], terminated := c.terminated || c.inbox[0].1.Terminate?)
  }

  function Told(s: State, j: nat, i: nat): State
    requires j < |s.closings| && i < |s.commands|
  {
    var c := s.commands[i];
    var t := s.(closings := s.closings[j := s.closings[j].(todo := s.closings[j].todo - {i})]);
    if !Receiving(c) then t else if Full(c) then s else Updated(t, i, Queued(c, c.key, Terminate))
  }

  function Closed(s: State, conn: Connection): State {
    s.(table := Swept(s.table, conn), closings := s.closings + [Closing(conn, ToTell(s.table, conn))], closed := s.closed + {conn})
  }

  function Next(s: State, step: Step): State {
    match step
    case StartCommand(p) => Started(s, p)
    case SpawnResult(i, ok) =>
      if !In(s, i, Spawning) then s else if ok then Updated(s, i, s.commands[i].(phase := Running)) else Left(s, i)
    case Finish(i) => if !In(s, i, Running) then s else Updated(s, i, s.commands[i].(phase := Finished))
    case RemoveEntry(i) => if !In(s, i, Finished) then s else Left(s, i)
    case LookUp(k, control) =>
      (match Find(s.table, k) case Ok(i) => s.(sends := s.sends + {Send(k, i, control)}) case Err(_) => s)
    case Queue(m) =>
      if m !in s.sends || |s.commands| <= m.cmd then s else
        var c, t := s.commands[m.cmd], s.(sends := s.sends - {m});
        if !Receiving(c) then t else if Full(c) then s else Updated(t, m.cmd, Queued(c, m.key, m.control))
    case Take(i) =>
      if !In(s, i, Running) || s.commands[i].inbox == [] then s else Updated(s, i, Took(s.commands[i]))
    case CloseConnection(conn) => Closed(s, conn)
    case Tell(j, i) =>
      if |s.closings| <= j || i !in s.closings[j].todo || |s.commands| <= i then s else Told(s, j, i)
  }

  function Run(s: State, steps: seq<Step>): State
    decreases |steps|
  {
    if steps == [] then s else Run(Next(s, steps[0]), steps[1..])
  }

  // ---- Control requests reach only the command under their own key ----

  ghost predicate EntriesMatch(s: State) {
    forall k | k in s.table.sessions && s.table.sessions[k].Active? ::
      var i := s.table.sessions[k].cmd;
      i < |s.commands| && s.commands[i].key == k && !s.commands[i].windows
  }

  ghost predicate SendsMatch(s: State) {
    forall m | m in s.sends :: m.cmd < |s.commands| && s.commands[m.cmd].key == m.key
  }

  ghost predicate InboxesMatch(s: State) {
    forall i | 0 <= i < |s.commands| :: Own(s.commands[i])
  }

  ghost predicate Own(c: Command) { forall m | m in c.inbox :: m.0 == c.key }

  ghost predicate Routed(s: State) { EntriesMatch(s) && SendsMatch(s) && InboxesMatch(s) }

  lemma QueuedOwn(c: Command, control: Control)
    requires Own(c)
    ensures Own(Queued(c, c.key, control))
  {
  }

  lemma UpdatedRouted(s: State, i: nat, c: Command)
    requires Routed(s) && i < |s.commands| && c.key == s.commands[i].key && c.windows == s.commands[i].windows && Own(c)
    ensures Routed(Updated(s, i, c))
  {
  }

  lemma StartedRouted(s: State, p: Params)
    requires Routed(s)
    ensures Routed(Started(s, p))
  {
  }

  lemma QueueRouted(s: State, m: Send)
    requires Routed(s)
    ensures Routed(Next(s, Queue(m)))
  {
    if m in s.sends {
      var c := s.commands[m.cmd];
      QueuedOwn(c, m.control);
      UpdatedRouted(s.(sends := s.sends - {m}), m.cmd, Queued(c, m.key, m.control));
    }
  }

  lemma TellRouted(s: State, j: nat, i: nat)
    requires Routed(s)
    ensures Routed(Next(s, Tell(j, i)))
  {
    if i < |s.commands| {
      var c := s.commands[i];
      QueuedOwn(c, Terminate);
      UpdatedRouted(s, i, Queued(c, c.key, Terminate));
    }
  }

  lemma NextRouted(s: State, step: Step)
    requires Routed(s)
    ensures Routed(Next(s, step))
  {
    match step
    case StartCommand(p) => StartedRouted(s, p);
    case SpawnResult(i, ok) =>
      if In(s, i, Spawning) { UpdatedRouted(s, i, s.commands[i].(phase := if ok then Running else Gone)); }
    case Finish(i) => if In(s, i, Running) { UpdatedRouted(s, i, s.commands[i].(phase := Finished)); }
    case RemoveEntry(i) => if In(s, i, Finished) { UpdatedRouted(s, i, s.commands[i].(phase := Gone)); }
    case LookUp(k, control) =>
    case Queue(m) => QueueRouted(s, m);
    case Take(i) =>
      if In(s, i, Running) && s.commands[i].inbox != [] { UpdatedRouted(s, i, Took(s.commands[i])); }
    case CloseConnection(conn) =>
    case Tell(j, i) => TellRouted(s, j, i);
  }

  lemma {:induction false} RunRouted(s: State, steps: seq<Step>)
    requires Routed(s)
    ensures Routed(Run(s, steps))
    decreases |steps|
  {
    if steps != [] { NextRouted(s, steps[0]); RunRouted(Next(s, steps[0]), steps[1..]); }
  }

  /** Someone asked for this control of the command under this key, or its connection was closed. */
  ghost predicate Requested(past: seq<Step>, m: (Key, Control)) {
    LookUp(m.0, m.1) in past || (m.1.Terminate? && CloseConnection(m.0.conn) in past)
  }

  ghost predicate AllRequested(past: seq<Step>, c: Command) { forall m | m in c.inbox :: Requested(past, m) }

  ghost predicate Traced(s: State, past: seq<Step>) {
    && (forall m | m in s.sends :: LookUp(m.key, m.control) in past)
    && (forall i | 0 <= i < |s.commands| :: AllRequested(past, s.commands[i]))
    && (forall j | 0 <= j < |s.closings| :: CloseConnection(s.closings[j].conn) in past)
    && (forall j, i | 0 <= j < |s.closings| && i in s.closings[j].todo && i < |s.commands| ::
          s.commands[i].key.conn == s.closings[j].conn)
  }

  lemma TracedLater(s: State, past: seq<Step>, step: Step)
    requires Traced(s, past)
    ensures Traced(s, past + [step])
  {
    forall i | 0 <= i < |s.commands| ensures AllRequested(past + [step], s.commands[i]) {
      assert AllRequested(past, s.commands[i]);
    }
  }

  lemma UpdatedTraced(s: State, past: seq<Step>, i: nat, c: Command)
    requires Traced(s, past) && i < |s.commands| && c.key == s.commands[i].key && AllRequested(past, c)
    ensures Traced(Updated(s, i, c), past)
  {
  }

  lemma ToldTraced(s: State, past: seq<Step>, j: nat, i: nat)
    requires Traced(s, past) && j < |s.closings| && i < |s.commands| && i in s.closings[j].todo
    ensures Traced(Told(s, j, i), past)
  {
    var c := s.commands[i];
    var t := s.(closings := s.closings[j := s.closings[j].(todo := s.closings[j].todo - {i})]);
    assert Traced(t, past);
    assert c.key.conn == s.closings[j].conn && AllRequested(past, c);
    UpdatedTraced(t, past, i, Queued(c, c.key, Terminate));
  }

  lemma QueueTraced(s: State, past: seq<Step>, m: Send)
    requires Traced(s, past)
    ensures Traced(Next(s, Queue(m)), past)
  {
    if m in s.sends && m.cmd < |s.commands| {
      var c := s.commands[m.cmd];
      assert AllRequested(past, c);
      assert LookUp(m.key, m.control) in past;
      UpdatedTraced(s.(sends := s.sends - {m}), past, m.cmd, Queued(c, m.key, m.control));
    }
  }

  lemma ClosedTraced(s: State, past: seq<Step>, conn: Connection)
    requires Traced(s, past) && EntriesMatch(s) && CloseConnection(conn) in past
    ensures Traced(Closed(s, conn), past)
  {
  }

  /** A new command is in nobody's list. */
  ghost predicate Bounded(s: State) {
    forall j, i | 0 <= j < |s.closings| && i in s.closings[j].todo :: i < |s.commands|
  }

  lemma NextBounded(s: State, step: Step)
    requires Bounded(s) && EntriesMatch(s)
    ensures Bounded(Next(s, step))
  {
  }

  lemma StartedTraced(s: State, past: seq<Step>, p: Params)
    requires Traced(s, past) && Bounded(s)
    ensures Traced(Started(s, p), past)
  {
  }

  lemma TookTraced(s: State, past: seq<Step>, i: nat)
    requires Traced(s, past) && i < |s.commands| && s.commands[i].inbox != []
    ensures Traced(Updated(s, i, Took(s.commands[i])), past)
  {
    assert AllRequested(past, s.commands[i]);
    UpdatedTraced(s, past, i, Took(s.commands[i]));
  }

  lemma PhaseTraced(s: State, past: seq<Step>, i: nat, phase: Phase)
    requires Traced(s, past) && i < |s.commands|
    ensures Traced(Updated(s, i, s.commands[i].(phase := phase)), past)
  {
    assert AllRequested(past, s.commands[i]);
    UpdatedTraced(s, past, i, s.commands[i].(phase := phase));
  }

  lemma NextTraced(s: State, past: seq<Step>, step: Step)
    requires Traced(s, past) && EntriesMatch(s) && Bounded(s)
    ensures Traced(Next(s, step), past + [step])
  {
    var now := past + [step];
    TracedLater(s, past, step);
    match step
    case StartCommand(p) => StartedTraced(s, now, p);
    case SpawnResult(i, ok) => if In(s, i, Spawning) { PhaseTraced(s, now, i, if ok then Running else Gone); }
    case Finish(i) => if In(s, i, Running) { PhaseTraced(s, now, i, Finished); }
    case RemoveEntry(i) => if In(s, i, Finished) { PhaseTraced(s, now, i, Gone); }
    case LookUp(k, control) =>
    case Queue(m) => QueueTraced(s, now, m);
    case Take(i) => if In(s, i, Running) && s.commands[i].inbox != [] { TookTraced(s, now, i); }
    case CloseConnection(conn) => ClosedTraced(s, now, conn);
    case Tell(j, i) => if j < |s.closings| && i in s.closings[j].todo && i < |s.commands| { ToldTraced(s, now, j, i); }
  }

  lemma {:induction false} RunTraced(s: State, past: seq<Step>, steps: seq<Step>)
    requires Traced(s, past) && Routed(s) && Bounded(s)
    ensures Traced(Run(s, steps), past + steps)
    decreases |steps|
  {
    if steps == [] {
      assert past + steps == past;
    } else {
      NextTraced(s, past, steps[0]);
      NextRouted(s, steps[0]);
      NextBounded(s, steps[0]);
      RunTraced(Next(s, steps[0]), past + [steps[0]], steps[1..]);
      assert past + [steps[0]] + steps[1..] == past + steps;
    }
  }

  /**
    MAIN: in every run, whatever waits in a command's control channel was sent to its own key, so by
    its own connection, and is what was asked for there, or the termination of a closed connection.
   */
  lemma ControlsReachOwnKey(steps: seq<Step>, i: nat, m: (Key, Control))
    requires i < |Run(Init, steps).commands| && m in Run(Init, steps).commands[i].inbox
    ensures m.0 == Run(Init, steps).commands[i].key
    ensures LookUp(m.0, m.1) in steps || (m.1.Terminate? && CloseConnection(m.0.conn) in steps)
  {
    RunRouted(Init, steps);
    assert Own(Run(Init, steps).commands[i]);
    RunTraced(Init, [], steps);
    assert [] + steps == steps;
    assert AllRequested(steps, Run(Init, steps).commands[i]);
  }

  // ---- No two commands share a key ----

  ghost predicate Distinct(cs: seq<Command>) {
    forall i, j | 0 <= i < j < |cs| && !cs[i].phase.Gone? && !cs[j].phase.Gone? :: cs[i].key != cs[j].key
  }

  /** The command is on an open connection, not yet gone, and of a kind that is entered in the table. */
  predicate Tracked(c: Command, closed: set<Connection>) {
    !c.phase.Gone? && c.key.conn !in closed && Registers(c.windows, c.key)
  }

  ghost predicate Registered(s: State) {
    forall i | 0 <= i < |s.commands| && Tracked(s.commands[i], s.closed) ::
      && s.commands[i].key in s.table.sessions
      && s.table.sessions[s.commands[i].key] == if s.commands[i].windows then UnsupportedWindowsSandbox else Active(i)
  }

  ghost predicate Numbered(s: State) {
    forall i | 0 <= i < |s.commands| && s.commands[i].key.process.Generated? ::
      s.commands[i].key.process.n < s.table.nextGenerated
  }

  ghost predicate Kept(s: State) { Distinct(s.commands) && Registered(s) && Numbered(s) }

  /** A closed connection starts nothing further. */
  predicate Orderly(s: State, step: Step) { step.StartCommand? ==> step.params.conn !in s.closed }

  predicate OrderlyRun(s: State, steps: seq<Step>)
    decreases |steps|
  {
    steps == [] || (Orderly(s, steps[0]) && OrderlyRun(Next(s, steps[0]), steps[1..]))
  }

  predicate Admitted(s: State, p: Params) { Admit(s.table, p, |s.commands|).1.Ok? }

  /** A command outlives its table entry only on a closed connection. */
  ghost predicate Orphaned(s: State, k: Key) {
    k.conn in s.closed && exists i | 0 <= i < |s.commands| :: !s.commands[i].phase.Gone? && s.commands[i].key == k
  }

  /** An admitted key is held by no other command, unless by one its connection left behind. */
  lemma AdmittedIsFree(s: State, p: Params, i: nat)
    requires Kept(s) && Admitted(s, p) && i < |s.commands| && !s.commands[i].phase.Gone?
    ensures s.commands[i].key == KeyFor(s.table, p) ==> p.conn in s.closed
  {
    var c := s.commands[i];
    assert Tracked(c, s.closed) ==> c.key in s.table.sessions;
    assert c.key.process.Generated? ==> c.key.process.n < s.table.nextGenerated;
  }

  lemma DistinctMore(cs: seq<Command>, c: Command)
    requires Distinct(cs) && !c.phase.Gone?
    ensures Distinct(cs + [c]) <==> forall i | 0 <= i < |cs| && !cs[i].phase.Gone? :: cs[i].key != c.key
  {
    var more := cs + [c];
    if Distinct(more) {
      forall i | 0 <= i < |cs| && !cs[i].phase.Gone? ensures cs[i].key != c.key {
        assert more[i] == cs[i] && more[|cs|] == c;
      }
    }
  }

  /** MAIN: starting a command keeps keys distinct exactly when it is refused or its key was not left behind by a close. */
  lemma StartKeepsDistinct(s: State, p: Params)
    requires Kept(s)
    ensures Distinct(Started(s, p).commands) <==> !Admitted(s, p) || !Orphaned(s, KeyFor(s.table, p))
  {
    if Admitted(s, p) {
      var k := KeyFor(s.table, p);
      DistinctMore(s.commands, Started(s, p).commands[|s.commands|]);
      forall i | 0 <= i < |s.commands| && !s.commands[i].phase.Gone? ensures s.commands[i].key == k ==> Orphaned(s, k) {
        AdmittedIsFree(s, p, i);
      }
    }
  }

  lemma StartedKept(s: State, p: Params)
    requires Kept(s) && p.conn !in s.closed
    ensures Kept(Started(s, p))
  {
    StartKeepsDistinct(s, p);
    var t := Started(s, p);
    forall i | 0 <= i < |s.commands| && Tracked(s.commands[i], s.closed)
      ensures s.commands[i].key in t.table.sessions && t.table.sessions[s.commands[i].key] == s.table.sessions[s.commands[i].key]
    {
      assert s.commands[i].key in s.table.sessions;
      if Admitted(s, p) { AdmittedIsFree(s, p, i); }
    }
  }

  lemma UpdatedKept(s: State, i: nat, c: Command)
    requires Kept(s) && i < |s.commands| && c.key == s.commands[i].key && c.windows == s.commands[i].windows
    requires s.commands[i].phase.Gone? ==> c.phase.Gone?
    ensures Kept(Updated(s, i, c))
  {
  }

  lemma LeftKept(s: State, i: nat)
    requires Kept(s) && i < |s.commands| && !s.commands[i].phase.Gone?
    ensures Kept(Left(s, i))
  {
    var t := Left(s, i);
    forall j | 0 <= j < |t.commands| && Tracked(t.commands[j], t.closed)
      ensures t.commands[j].key in t.table.sessions
    {
      assert j != i && t.commands[j] == s.commands[j];
      assert if j < i then s.commands[j].key != s.commands[i].key else s.commands[i].key != s.commands[j].key;
    }
  }

  lemma NextKept(s: State, step: Step)
    requires Kept(s) && Orderly(s, step)
    ensures Kept(Next(s, step))
  {
    match step
    case StartCommand(p) => StartedKept(s, p);
    case SpawnResult(i, ok) =>
      if In(s, i, Spawning) {
        if ok { UpdatedKept(s, i, s.commands[i].(phase := Running)); } else { LeftKept(s, i); }
      }
    case Finish(i) => if In(s, i, Running) { UpdatedKept(s, i, s.commands[i].(phase := Finished)); }
    case RemoveEntry(i) => if In(s, i, Finished) { LeftKept(s, i); }
    case Queue(m) =>
      if m.cmd < |s.commands| { UpdatedKept(s, m.cmd, Queued(s.commands[m.cmd], m.key, m.control)); }
    case Take(i) =>
      if In(s, i, Running) && s.commands[i].inbox != [] { UpdatedKept(s, i, Took(s.commands[i])); }
    case Tell(j, i) =>
      if i < |s.commands| { UpdatedKept(s, i, Queued(s.commands[i], s.commands[i].key, Terminate)); }
    case _ =>
  }

  lemma {:induction false} RunKept(s: State, steps: seq<Step>)
    requires Kept(s) && OrderlyRun(s, steps)
    ensures Kept(Run(s, steps))
    decreases |steps|
  {
    if steps != [] { NextKept(s, steps[0]); RunKept(Next(s, steps[0]), steps[1..]); }
  }

  /** MAIN: as long as closed connections start nothing, no two commands that are not gone share a key. */
  lemma KeysAreUnique(steps: seq<Step>)
    requires OrderlyRun(Init, steps)
    ensures Distinct(Run(Init, steps).commands)
  {
    RunKept(Init, steps);
  }

  /** Without that, the same client id can be admitted twice. */
  lemma ReuseAfterClose()
    ensures var p := Params(7, Some("a"), false, false, true, false);
            var steps := [StartCommand(p), SpawnResult(0, true), CloseConnection(7), StartCommand(p)];
            var s := Run(Init, steps);
            |s.commands| == 2 && !Distinct(s.commands)
  {
    var p := Params(7, Some("a"), false, false, true, false);
    var steps := [StartCommand(p), SpawnResult(0, true), CloseConnection(7), StartCommand(p)];
    var s1 := Next(Init, steps[0]);
    var s2 := Next(s1, steps[1]);
    var s3 := Next(s2, steps[2]);
    var s4 := Next(s3, steps[3]);
    assert s2.commands[0].phase == Running && s2.commands[0].key == Key(7, Client("a"));
    assert Key(7, Client("a")) !in s3.table.sessions;
    assert s4.commands[1].key == Key(7, Client("a")) && s4.commands[0] == s2.commands[0];
    assert Run(s4, []) == s4 && steps[1..][1..][1..][1..] == [];
    assert steps[1..][0] == steps[1] && steps[1..][1..][0] == steps[2] && steps[1..][1..][1..][0] == steps[3];
    assert Run(s3, steps[1..][1..][1..]) == s4;
    assert Run(s2, steps[1..][1..]) == s4;
    assert Run(s1, steps[1..]) == s4;
  }

  // ---- Who is admitted and who is reached ----

  /** Each table entry is backed by a command that is not gone, on an open connection. */
  ghost predicate Backed(s: State) {
    forall k | k in s.table.sessions :: exists i :: Holds(s, i, k)
  }

  ghost predicate Holds(s: State, i: nat, k: Key) {
    i < |s.commands| && s.commands[i].key == k && Tracked(s.commands[i], s.closed)
  }

  lemma UpdatedBacked(s: State, i: nat, c: Command)
    requires Backed(s) && i < |s.commands| && c.key == s.commands[i].key && c.windows == s.commands[i].windows
    requires c.phase.Gone? ==> s.commands[i].phase.Gone?
    ensures Backed(Updated(s, i, c))
  {
    var t := Updated(s, i, c);
    forall k | k in t.table.sessions ensures exists x :: Holds(t, x, k) {
      var x :| Holds(s, x, k);
      assert Holds(t, x, k);
    }
  }

  lemma LeftBacked(s: State, i: nat)
    requires Backed(s) && i < |s.commands|
    ensures Backed(Left(s, i))
  {
    var t := Left(s, i);
    forall k | k in t.table.sessions ensures exists x :: Holds(t, x, k) {
      var x :| Holds(s, x, k);
      assert Holds(t, x, k);
    }
  }

  lemma StartedBacked(s: State, p: Params)
    requires Backed(s) && p.conn !in s.closed
    ensures Backed(Started(s, p))
  {
    var t := Started(s, p);
    forall k | k in t.table.sessions ensures exists x :: Holds(t, x, k) {
      if k in s.table.sessions {
        var x :| Holds(s, x, k);
        assert Holds(t, x, k);
      } else {
        assert Holds(t, |s.commands|, k);
      }
    }
  }

  lemma ClosedBacked(s: State, conn: Connection)
    requires Backed(s)
    ensures Backed(Closed(s, conn))
  {
    var t := Closed(s, conn);
    forall k | k in t.table.sessions ensures exists x :: Holds(t, x, k) {
      var x :| Holds(s, x, k);
      assert Holds(t, x, k);
    }
  }

  lemma NextBacked(s: State, step: Step)
    requires Backed(s) && Orderly(s, step)
    ensures Backed(Next(s, step))
  {
    match step
    case StartCommand(p) => StartedBacked(s, p);
    case SpawnResult(i, ok) =>
      if In(s, i, Spawning) {
        if ok { UpdatedBacked(s, i, s.commands[i].(phase := Running)); } else { LeftBacked(s, i); }
      }
    case Finish(i) => if In(s, i, Running) { UpdatedBacked(s, i, s.commands[i].(phase := Finished)); }
    case RemoveEntry(i) => if In(s, i, Finished) { LeftBacked(s, i); }
    case LookUp(k, control) => MoreSends(s, Next(s, step));
    case Queue(m) => QueueBacked(s, m);
    case Take(i) =>
      if In(s, i, Running) && s.commands[i].inbox != [] { UpdatedBacked(s, i, Took(s.commands[i])); }
    case CloseConnection(conn) => ClosedBacked(s, conn);
    case Tell(j, i) => TellBacked(s, j, i);
  }

  /** Only the table, the commands and the closed connections matter here. */
  lemma MoreSends(s: State, t: State)
    requires Backed(s) && t.table == s.table && t.commands == s.commands && t.closed == s.closed
    ensures Backed(t)
  {
    forall k | k in t.table.sessions ensures exists x :: Holds(t, x, k) {
      var x :| Holds(s, x, k);
      assert Holds(t, x, k);
    }
  }

  lemma QueueBacked(s: State, m: Send)
    requires Backed(s)
    ensures Backed(Next(s, Queue(m)))
  {
    var t := s.(sends := s.sends - {m});
    MoreSends(s, t);
    if m.cmd < |s.commands| { UpdatedBacked(t, m.cmd, Queued(s.commands[m.cmd], m.key, m.control)); }
  }

  lemma TellBacked(s: State, j: nat, i: nat)
    requires Backed(s)
    ensures Backed(Next(s, Tell(j, i)))
  {
    if j < |s.closings| && i < |s.commands| {
      var t := s.(closings := s.closings[j := s.closings[j].(todo := s.closings[j].todo - {i})]);
      MoreSends(s, t);
      UpdatedBacked(t, i, Queued(s.commands[i], s.commands[i].key, Terminate));
    }
  }

  lemma {:induction false} RunBacked(s: State, steps: seq<Step>)
    requires Backed(s) && OrderlyRun(s, steps)
    ensures Backed(Run(s, steps))
    decreases |steps|
  {
    if steps != [] { NextBacked(s, steps[0]); RunBacked(Next(s, steps[0]), steps[1..]); }
  }

  /** The checks that need no table. */
  predicate Allowed(p: Params) {
    && (p.streaming ==> p.process.Some? && !p.windows)
    && (p.windows ==> p.defaultCap)
    && (!p.windows ==> !p.emptyCommand)
  }

  /** A client id is taken while a command of the same connection has it. */
  ghost predicate Taken(s: State, p: Params) {
    p.process.Some? && exists i :: Holds(s, i, Key(p.conn, Client(p.process.value)))
  }

  lemma GeneratedIsFree(s: State, conn: Connection)
    requires Backed(s) && Numbered(s)
    ensures Key(conn, Generated(s.table.nextGenerated)) !in s.table.sessions
  {
    var k := Key(conn, Generated(s.table.nextGenerated));
    assert forall i: nat :: !Holds(s, i, k);
  }

  /**
    MAIN: in every orderly run, a command is admitted exactly when its parameters are allowed and no
    command that is not gone has its id on its connection; it then runs under that id.
   */
  lemma AdmittedExactly(steps: seq<Step>, p: Params)
    requires OrderlyRun(Init, steps) && p.conn !in Run(Init, steps).closed
    ensures var s := Run(Init, steps);
            var t := Next(s, StartCommand(p));
            if Allowed(p) && !Taken(s, p)
            then |t.commands| == |s.commands| + 1 && t.commands[..|s.commands|] == s.commands
                 && t.commands[|s.commands|].key.conn == p.conn && !t.commands[|s.commands|].phase.Gone?
                 && (p.process.Some? ==> t.commands[|s.commands|].key.process == Client(p.process.value))
            else t.commands == s.commands
  {
    var s := Run(Init, steps);
    RunBacked(Init, steps);
    RunKept(Init, steps);
    GeneratedIsFree(s, p.conn);
    if p.process.Some? {
      var k := Key(p.conn, Client(p.process.value));
      assert k in s.table.sessions <==> exists i :: Holds(s, i, k) by {
        forall i: nat | Holds(s, i, k) ensures k in s.table.sessions { assert Tracked(s.commands[i], s.closed); }
      }
    }
  }

  lemma {:induction false} RunAppend(s: State, a: seq<Step>, b: seq<Step>)
    ensures Run(s, a + b) == Run(Run(s, a), b)
    decreases |a|
  {
    if a == [] {
      assert a + b == b;
    } else {
      assert (a + b)[0] == a[0] && (a + b)[1..] == a[1..] + b;
      RunAppend(Next(s, a[0]), a[1..], b);
    }
  }

  lemma {:induction false} SendStays(s: State, m: Send, steps: seq<Step>)
    requires m in s.sends && Queue(m) !in steps
    ensures m in Run(s, steps).sends
    decreases |steps|
  {
    if steps != [] {
      assert steps[0] in steps;
      SendStays(Next(s, steps[0]), m, steps[1..]);
    }
  }

  /**
    MAIN: a control request for a live command on an open connection finds that command, is not lost
    while it waits to be queued, and then stands last in that command's channel and in no other.
   */
  lemma ControlArrives(before: seq<Step>, i: nat, control: Control, during: seq<Step>)
    requires OrderlyRun(Init, before)
    requires var s := Run(Init, before); i < |s.commands| && Tracked(s.commands[i], s.closed) && !s.commands[i].windows
    requires var k := Run(Init, before).commands[i].key;
             && Queue(Send(k, i, control)) !in during
             && var t := Run(Init, before + [LookUp(k, control)] + during);
             i < |t.commands| && Receiving(t.commands[i]) && |t.commands[i].inbox| < 32
    ensures var k := Run(Init, before).commands[i].key;
            var t := Run(Init, before + [LookUp(k, control)] + during);
            var u := Next(t, Queue(Send(k, i, control)));
            u.commands == t.commands[i := t.commands[i].(inbox := t.commands[i].inbox + [(k, control)])]
  {
    var s := Run(Init, before);
    var k := s.commands[i].key;
    var m := Send(k, i, control);
    RunKept(Init, before);
    assert s.table.sessions[k] == Active(i);
    RunAppend(Init, before + [LookUp(k, control)], during);
    RunAppend(Init, before, [LookUp(k, control)]);
    assert [LookUp(k, control)][1..] == [];
    var found := Next(s, LookUp(k, control));
    assert Run(s, [LookUp(k, control)]) == found && m in found.sends;
    SendStays(found, m, during);
  }

  // ---- From spawning to gone ----

  /** A command goes from spawning to running, finished and gone, and its key is free when it is gone. */
  lemma LifeOf(s: State, i: nat)
    requires i < |s.commands|
    ensures var next := (step: Step) => Next(s, step).commands[i].phase;
            match s.commands[i].phase
            case Spawning => next(SpawnResult(i, true)) == Running && next(SpawnResult(i, false)) == Gone
                             && s.commands[i].key !in Next(s, SpawnResult(i, false)).table.sessions
            case Running => next(Finish(i)) == Finished
            case Finished => next(RemoveEntry(i)) == Gone && s.commands[i].key !in Next(s, RemoveEntry(i)).table.sessions
            case Gone => true
  {
  }

  /** A running command takes what waits for it, oldest first. */
  lemma OldestControlTaken(s: State, i: nat)
    requires i < |s.commands| && s.commands[i].phase.Running? && s.commands[i].inbox != []
    ensures var c, d := s.commands[i], Next(s, Take(i)).commands[i];
            c.inbox == [c.inbox[0]] + d.inbox && (d.terminated <==> c.terminated || c.inbox[0].1.Terminate?)
  {
  }

  // ---- Closing a connection ----

  /** The command has been told to stop, or no longer listens. */
  predicate Warned(c: Command) { !Receiving(c) || c.terminated || (c.key, Terminate) in c.inbox }

  ghost predicate AboutToBeTold(s: State, i: nat)
    requires i < |s.commands|
  {
    exists j | 0 <= j < |s.closings| :: s.closings[j].conn == s.commands[i].key.conn && i in s.closings[j].todo
  }

  ghost predicate Sweeping(s: State) {
    forall i | 0 <= i < |s.commands| && !s.commands[i].windows && s.commands[i].key.conn in s.closed ::
      Warned(s.commands[i]) || AboutToBeTold(s, i)
  }

  lemma ClosedSweeping(s: State, conn: Connection)
    requires Kept(s) && Sweeping(s)
    ensures Sweeping(Closed(s, conn))
  {
    var t := Closed(s, conn);
    forall i | 0 <= i < |t.commands| && !t.commands[i].windows && t.commands[i].key.conn in t.closed
      ensures Warned(t.commands[i]) || AboutToBeTold(t, i)
    {
      var c := s.commands[i];
      if c.key.conn in s.closed {
        if !Warned(c) {
          var j :| 0 <= j < |s.closings| && s.closings[j].conn == c.key.conn && i in s.closings[j].todo;
          assert t.closings[j] == s.closings[j];
        }
      } else if !c.phase.Gone? {
        assert Tracked(c, s.closed);
        assert s.table.sessions[c.key] == Active(i);
        assert i in ToTell(s.table, conn);
        assert t.closings[|s.closings|].todo == ToTell(s.table, conn);
      }
    }
  }

  lemma UpdatedSweeping(s: State, i: nat, c: Command)
    requires Sweeping(s) && i < |s.commands| && c.key == s.commands[i].key && c.windows == s.commands[i].windows
    requires Warned(s.commands[i]) ==> Warned(c)
    ensures Sweeping(Updated(s, i, c))
  {
    var t := Updated(s, i, c);
    forall k | 0 <= k < |t.commands| && !t.commands[k].windows && t.commands[k].key.conn in t.closed
      ensures Warned(t.commands[k]) || AboutToBeTold(t, k)
    {
      if !Warned(t.commands[k]) {
        assert AboutToBeTold(s, k);
        var j :| 0 <= j < |s.closings| && s.closings[j].conn == s.commands[k].key.conn && k in s.closings[j].todo;
        assert t.closings[j] == s.closings[j];
      }
    }
  }

  lemma ToldSweeping(s: State, j: nat, i: nat)
    requires Sweeping(s) && j < |s.closings| && i < |s.commands|
    ensures Sweeping(Told(s, j, i))
  {
    var t := Told(s, j, i);
    assert t.closed == s.closed;
    if Receiving(s.commands[i]) && Full(s.commands[i]) {
    } else {
      forall k | 0 <= k < |t.commands| && !t.commands[k].windows && t.commands[k].key.conn in t.closed
        ensures Warned(t.commands[k]) || AboutToBeTold(t, k)
      {
        if k != i && !Warned(s.commands[k]) {
          var l :| 0 <= l < |s.closings| && s.closings[l].conn == s.commands[k].key.conn && k in s.closings[l].todo;
          assert t.closings[l].conn == s.closings[l].conn && k in t.closings[l].todo;
        }
      }
    }
  }

  lemma StartedSweeping(s: State, p: Params)
    requires Sweeping(s) && p.conn !in s.closed
    ensures Sweeping(Started(s, p))
  {
    var t := Started(s, p);
    forall i | 0 <= i < |t.commands| && !t.commands[i].windows && t.commands[i].key.conn in t.closed
      ensures Warned(t.commands[i]) || AboutToBeTold(t, i)
    {
      assert i < |s.commands| && t.commands[i] == s.commands[i];
      if !Warned(s.commands[i]) { assert AboutToBeTold(s, i); }
    }
  }

  lemma TookWarned(c: Command)
    requires c.inbox != []
    ensures Warned(c) ==> Warned(Took(c))
  {
    assert c.inbox == [c.inbox[0]] + c.inbox[1..];
  }

  lemma NextSweeping(s: State, step: Step)
    requires Kept(s) && Sweeping(s) && Orderly(s, step)
    ensures Sweeping(Next(s, step))
  {
    match step
    case StartCommand(p) => StartedSweeping(s, p);
    case SpawnResult(i, ok) =>
      if In(s, i, Spawning) { UpdatedSweeping(s, i, s.commands[i].(phase := if ok then Running else Gone)); }
    case Finish(i) => if In(s, i, Running) { UpdatedSweeping(s, i, s.commands[i].(phase := Finished)); }
    case RemoveEntry(i) => if In(s, i, Finished) { UpdatedSweeping(s, i, s.commands[i].(phase := Gone)); }
    case Queue(m) =>
      if m.cmd < |s.commands| { UpdatedSweeping(s, m.cmd, Queued(s.commands[m.cmd], m.key, m.control)); }
    case Take(i) =>
      if In(s, i, Running) && s.commands[i].inbox != [] {
        TookWarned(s.commands[i]);
        UpdatedSweeping(s, i, Took(s.commands[i]));
      }
    case CloseConnection(conn) => ClosedSweeping(s, conn);
    case Tell(j, i) => if j < |s.closings| && i < |s.commands| { ToldSweeping(s, j, i); }
    case _ =>
  }

  lemma {:induction false} RunSweeping(s: State, steps: seq<Step>)
    requires Kept(s) && Sweeping(s) && OrderlyRun(s, steps)
    ensures Sweeping(Run(s, steps))
    decreases |steps|
  {
    if steps != [] {
      NextKept(s, steps[0]);
      NextSweeping(s, steps[0]);
      RunSweeping(Next(s, steps[0]), steps[1..]);
    }
  }

  /**
    MAIN: when `connection_closed` has returned, each command of that connection has been
    told to terminate or is past listening, even one that was still being spawned.
   */
  lemma ClosedConnectionsAreSwept(steps: seq<Step>, conn: Connection, i: nat)
    requires OrderlyRun(Init, steps)
    requires var s := Run(Init, steps);
             && conn in s.closed && (forall j | 0 <= j < |s.closings| :: s.closings[j].conn == conn ==> s.closings[j].todo == {})
             && i < |s.commands| && s.commands[i].key.conn == conn && !s.commands[i].windows
    ensures Warned(Run(Init, steps).commands[i])
  {
    RunSweeping(Init, steps);
  }

  /** MAIN: in every orderly run, closing a connection sets out to tell exactly its live commands with a control channel. */
  lemma CloseTellsAll(steps: seq<Step>, conn: Connection, i: nat)
    requires OrderlyRun(Init, steps) && conn !in Run(Init, steps).closed
    ensures var s := Run(Init, steps);
            var t := Next(s, CloseConnection(conn));
            && conn in t.closed && |t.closings| == |s.closings| + 1 && t.closings[|s.closings|].conn == conn
            && (i in t.closings[|s.closings|].todo <==>
                  i < |s.commands| && s.commands[i].key.conn == conn && !s.commands[i].phase.Gone? && !s.commands[i].windows)
  {
    RunKept(Init, steps);
    RunBacked(Init, steps);
    ToTellExactly(Run(Init, steps), conn, i);
  }

  lemma ToTellExactly(s: State, conn: Connection, i: nat)
    requires Registered(s) && Backed(s) && conn !in s.closed
    ensures i in ToTell(s.table, conn) <==>
            i < |s.commands| && s.commands[i].key.conn == conn && !s.commands[i].phase.Gone? && !s.commands[i].windows
  {
    if i in ToTell(s.table, conn) {
      var k :| k in s.table.sessions && k.conn == conn && s.table.sessions[k] == Active(i);
      var x: nat :| Holds(s, x, k);
      assert Tracked(s.commands[x], s.closed);
    }
    if i < |s.commands| && s.commands[i].key.conn == conn && !s.commands[i].phase.Gone? && !s.commands[i].windows {
      assert Tracked(s.commands[i], s.closed);
      assert s.table.sessions[s.commands[i].key] == Active(i);
    }
  }

  /** Telling a command that listens and has room puts a terminate last in its channel, and it is told but once. */
  lemma TellArrives(s: State, j: nat, i: nat)
    requires j < |s.closings| && i in s.closings[j].todo && i < |s.commands| && !(Receiving(s.commands[i]) && Full(s.commands[i]))
    ensures var t := Next(s, Tell(j, i));
            && t.closings[j].todo == s.closings[j].todo - {i}
            && t.commands[i].inbox == s.commands[i].inbox + if Receiving(s.commands[i]) then [(s.commands[i].key, Terminate)] else []
  {
  }

  // ---- The manager ----

  class CommandExecManager {
    var sessions: map<Key, Session>
    var nextGeneratedProcessId: nat

    ghost function Abs(): Table reads this { Table(sessions, nextGeneratedProcessId) }

    constructor ()
      ensures Abs() == Init.table
    {
      sessions, nextGeneratedProcessId := map[], 1;
    }

    /** `start`, up to the point where the command is entered in the table. */
    method Start(p: Params, cmd: nat) returns (r: Result<Key, StartError>)
      modifies this
      ensures (Abs(), r) == Admit(old(Abs()), p, cmd)
      ensures r.Ok? && p.streaming ==> p.process.Some? && r.value == Key(p.conn, Client(p.process.value))
    {
      if p.process.None? && p.streaming { return Err(NeedsProcessId); }
      var id: ProcessId;
      if p.process.Some? {
        id := Client(p.process.value);
      } else {
        id := Generated(nextGeneratedProcessId);
        nextGeneratedProcessId := nextGeneratedProcessId + 1;
      }
      var k := Key(p.conn, id);
      if p.windows {
        if p.streaming { return Err(WindowsStreaming); }
        if !p.defaultCap { return Err(WindowsOutputCap); }
        if id.Client? {
          if k in sessions { return Err(DuplicateProcessId); }
          sessions := sessions[k := UnsupportedWindowsSandbox];
        }
        return Ok(k);
      }
      if p.emptyCommand { return Err(EmptyCommand); }
      if k in sessions { return Err(DuplicateProcessId); }
      sessions := sessions[k := Active(cmd)];
      r := Ok(k);
    }

    /** After a failed spawn, and after the command's task. */
    method Remove(k: Key)
      modifies `sessions
      ensures Abs() == Removed(old(Abs()), k)
    {
      sessions := sessions - {k};
    }

    /** The lookup of `send_control`. */
    method FindControl(k: Key) returns (r: Result<nat, ControlError>)
      ensures r == Find(Abs(), k)
    {
      if k !in sessions { return Err(NoActiveCommand); }
      match sessions[k]
      case Active(cmd) => r := Ok(cmd);
      case UnsupportedWindowsSandbox => r := Err(WindowsUnsupported);
    }

    /** The locked part of `connection_closed`: the connection's keys are collected, then removed one by one. */
    method RemoveConnection(conn: Connection) returns (controls: seq<Session>)
      modifies `sessions
      ensures Abs() == Swept(old(Abs()), conn)
      ensures forall cmd :: Active(cmd) in controls <==> cmd in ToTell(old(Abs()), conn)
    {
      ghost var was := sessions;
      controls := [];
      var keys := set k | k in sessions && k.conn == conn;
      while keys != {}
        invariant forall k :: k in sessions <==> k in was && (k.conn == conn ==> k in keys)
        invariant forall k | k in keys :: k in was && k.conn == conn
        invariant forall k | k in sessions :: sessions[k] == was[k]
        invariant forall c | c in controls :: exists k | k in was && k.conn == conn && k !in keys :: was[k] == c
        invariant forall k | k in was && k.conn == conn && k !in keys :: was[k] in controls
        invariant nextGeneratedProcessId == old(nextGeneratedProcessId)
        decreases keys
      {
        var k :| k in keys;
        keys := keys - {k};
        controls := controls + [sessions[k]];
        sessions := sessions - {k};
      }
      assert sessions == Swept(old(Abs()), conn).sessions;
      forall cmd ensures Active(cmd) in controls <==> cmd in ToTell(old(Abs()), conn) {
        if Active(cmd) in controls {
          var k :| k in was && k.conn == conn && k !in keys && was[k] == Active(cmd);
        }
      }
    }
  }
}
