/**
  The remote app-server client: the initialize handshake, the worker that multiplexes
  requests over one connection, and the event stream the caller reads.
 */
module RemoteClient {
  import opened Text

  datatype RequestId = Integer(n: int) | Named(s: string)

  const INITIALIZE: RequestId := Named("initialize")

  /** `OtherError` is an error without a kind of its own. */
  datatype ErrorKind = BrokenPipe | InvalidData | ConnectionAborted | UnexpectedEof | TimedOut | OtherError

  datatype Event = Notified(n: nat) | Asked(n: nat) | Disconnected(kind: ErrorKind)

  /** What the connection yields; `known` says whether the client can decode it. */
  datatype Wire =
    | Response(id: RequestId, result: nat)
    | Failure(id: RequestId, error: nat)
    | Notification(n: nat, known: bool)
    | ServerRequest(n: nat, known: bool)
    | InvalidText
    | CloseFrame
    | TransportError
    | EndOfStream
    | Other

  /** How a request's waiter is completed. */
  datatype Outcome =
    | Answered(id: RequestId, result: nat)
    | Rejected(id: RequestId, error: nat)
    | DuplicateId
    | WriteFailed
    | WorkerGone(kind: ErrorKind)

  datatype Stage = Handshaking | Running | Exited(kind: ErrorKind) | Failed(kind: ErrorKind)

  type Waiter = nat

  /** A request on the wire, and how many messages had been read when it was written. */
  datatype Sent = Sent(id: RequestId, waiter: Waiter, at: nat)

  /** The waiter map, and the record of requests received, completed and written. */
  datatype Ledger = Ledger(
    pending: map<RequestId, Waiter>,
    requests: seq<RequestId>, done: map<Waiter, seq<Outcome>>, written: seq<Sent>)

  /** The two queues `next_event` reads, and the record of what was read and yielded. */
  datatype EventLine = EventLine(
    pendingEvents: seq<Event>, channel: seq<Event>, receiverOpen: bool,
    read: seq<Wire>, refused: seq<nat>, yielded: seq<Event>, disconnected: Option<ErrorKind>)

  datatype State = State(stage: Stage, ledger: Ledger, line: EventLine)

  const Init: State := State(Handshaking, Ledger(map[], [], map[], []), EventLine([], [], true, [], [], [], None))

  // ---- Completing waiters ----

  function Outcomes(done: map<Waiter, seq<Outcome>>, w: Waiter): seq<Outcome> {
    if w in done then done[w] else []
  }

  function Complete(l: Ledger, w: Waiter, o: Outcome): Ledger {
    l.(done := l.done[w := Outcomes(l.done, w) + [o]])
  }

  function CompletePending(l: Ledger, id: RequestId, o: Outcome): Ledger {
    if id in l.pending then Complete(l, l.pending[id], o).(pending := l.pending - {id}) else l
  }

  /** Everyone still waiting is answered when the worker leaves its loop. */
  function Drained(l: Ledger, o: Outcome): Ledger {
    l.(pending := map[], done := AllAnswered(l.done, l.pending.Values, o))
  }

  function AllAnswered(done: map<Waiter, seq<Outcome>>, ws: set<Waiter>, o: Outcome): map<Waiter, seq<Outcome>> {
    map w | w in done.Keys + ws :: if w in ws then Outcomes(done, w) + [o] else done[w]
  }

  function Duplicated(l: Ledger, id: RequestId): Ledger {
    Complete(l.(requests := l.requests + [id]), |l.requests|, DuplicateId)
  }

  function Unwritten(l: Ledger, id: RequestId): Ledger {
    Complete(l.(requests := l.requests + [id]), |l.requests|, WriteFailed)
  }

  /** A request made after the worker has gone finds its channel closed. */
  function Refused(l: Ledger, id: RequestId): Ledger {
    Complete(l.(requests := l.requests + [id]), |l.requests|, WorkerGone(BrokenPipe))
  }

  function Written(l: Ledger, id: RequestId, at: nat): Ledger {
    var w := |l.requests|;
    l.(requests := l.requests + [id], pending := l.pending[id := w], written := l.written + [Sent(id, w, at)])
  }

  // ---- Events ----

  function Recognised(msg: Wire): seq<Event> {
    match msg
    case Notification(n, known) => if known then [Notified(n)] else []
    case ServerRequest(n, known) => if known then [Asked(n)] else []
    case _ => []
  }

  function Stream(read: seq<Wire>): seq<Event> {
    if read == [] then [] else Stream(read[..|read| - 1]) + Recognised(read[|read| - 1])
  }

  function Read(e: EventLine, msg: Wire): EventLine { e.(read := e.read + [msg]) }

  /** An unknown request has been answered with an error. */
  function Refusing(e: EventLine, msg: Wire): EventLine { Read(e, msg).(refused := e.refused + Unknown(msg)) }

  function Unknown(msg: Wire): seq<nat> {
    match msg case ServerRequest(n, known) => (if known then [] else [n]) case _ => []
  }

  function Buffered(e: EventLine, msg: Wire): EventLine {
    Read(e, msg).(pendingEvents := e.pendingEvents + Recognised(msg))
  }

  function Forwarded(e: EventLine, msg: Wire): EventLine {
    Read(e, msg).(channel := e.channel + Recognised(msg))
  }

  function Hangup(e: EventLine, kind: ErrorKind): EventLine {
    if e.receiverOpen then e.(channel := e.channel + [Disconnected(kind)], disconnected := Some(kind)) else e
  }

  function Yielded(e: EventLine): EventLine {
    if e.pendingEvents != []
    then e.(pendingEvents := e.pendingEvents[1..], yielded := e.yielded + [e.pendingEvents[0]])
    else if e.channel != []
    then e.(channel := e.channel[1..], yielded := e.yielded + [e.channel[0]])
    else e
  }

  // ---- Steps ----

  /** `writeOk` says whether a write the step needs succeeds. */
  datatype Step =
    | Incoming(msg: Wire, writeOk: bool)
    | Timeout
    | RequestCommand(id: RequestId, writeOk: bool)
    | CommandsClosed
    | NextEvent
    | DropReceiver

  function Exit(s: State, kind: ErrorKind): State {
    s.(stage := Exited(kind), ledger := Drained(s.ledger, WorkerGone(kind)))
  }

  function DisconnectAndExit(s: State, kind: ErrorKind): State {
    Exit(s.(line := Hangup(s.line, kind)), kind)
  }

  /** One message while waiting for the initialize response. */
  function HandshakeRead(s: State, msg: Wire, writeOk: bool): State {
    var t := s.(line := Read(s.line, msg));
    match msg
    case Response(id, _) => if id == INITIALIZE then t.(stage := if writeOk then Running else Failed(OtherError)) else t
    case Failure(id, _) => if id == INITIALIZE then t.(stage := Failed(OtherError)) else t
    case Notification(_, _) => s.(line := Buffered(s.line, msg))
    case ServerRequest(_, known) =>
      if known then s.(line := Buffered(s.line, msg))
      else if writeOk then s.(line := Refusing(s.line, msg)) else t.(stage := Failed(OtherError))
    case InvalidText => t.(stage := Failed(OtherError))
    case CloseFrame => t.(stage := Failed(ConnectionAborted))
    case TransportError => t.(stage := Failed(OtherError))
    case EndOfStream => t.(stage := Failed(UnexpectedEof))
    case Other => t
  }

  /** One message in the worker loop. */
  function WorkerRead(s: State, msg: Wire, writeOk: bool): State {
    var t := s.(line := Read(s.line, msg));
    match msg
    case Response(id, result) => t.(ledger := CompletePending(s.ledger, id, Answered(id, result)))
    case Failure(id, error) => t.(ledger := CompletePending(s.ledger, id, Rejected(id, error)))
    case Notification(_, known) => if known then Delivered(s, msg) else t
    case ServerRequest(_, known) =>
      if known then Delivered(s, msg)
      else if writeOk then s.(line := Refusing(s.line, msg)) else DisconnectAndExit(t, BrokenPipe)
    case InvalidText => DisconnectAndExit(t, InvalidData)
    case CloseFrame => DisconnectAndExit(t, ConnectionAborted)
    case TransportError => DisconnectAndExit(t, InvalidData)
    case EndOfStream => DisconnectAndExit(t, UnexpectedEof)
    case Other => t
  }

  /** A worker whose consumer is gone stops. */
  function Delivered(s: State, msg: Wire): State {
    if s.line.receiverOpen then s.(line := Forwarded(s.line, msg))
    else Exit(s.(line := Read(s.line, msg)), BrokenPipe)
  }

  function RequestReceived(s: State, id: RequestId, writeOk: bool): State {
    if id in s.ledger.pending then s.(ledger := Duplicated(s.ledger, id))
    else if writeOk then s.(ledger := Written(s.ledger, id, |s.line.read|))
    else DisconnectAndExit(s.(ledger := Unwritten(s.ledger, id)), BrokenPipe)
  }

  predicate HasClient(s: State) { s.stage.Running? || s.stage.Exited? }

  function Next(s: State, step: Step): State {
    match step
    case Incoming(msg, ok) =>
      (match s.stage
       case Handshaking => HandshakeRead(s, msg, ok)
       case Running => WorkerRead(s, msg, ok)
       case _ => s)
    case Timeout => if s.stage.Handshaking? then s.(stage := Failed(TimedOut)) else s
    case RequestCommand(id, ok) =>
      (match s.stage
       case Running => RequestReceived(s, id, ok)
       case Exited(_) => s.(ledger := Refused(s.ledger, id))
       case _ => s)
    case CommandsClosed => if s.stage.Running? then Exit(s, BrokenPipe) else s
    case NextEvent => if HasClient(s) && s.line.receiverOpen then s.(line := Yielded(s.line)) else s
    case DropReceiver => if HasClient(s) then s.(line := s.line.(receiverOpen := false)) else s
  }

  function Run(s: State, steps: seq<Step>): State
    decreases |steps|
  {
    if steps == [] then s else Run(Next(s, steps[0]), steps[1..])
  }

  // ---- One completion per request ----

  predicate IsPending(l: Ledger, w: Waiter)
    requires w < |l.requests|
  {
    l.requests[w] in l.pending && l.pending[l.requests[w]] == w
  }

  /** A reply reaches only a waiter for that id. */
  predicate Truthful(id: RequestId, os: seq<Outcome>) {
    forall i | 0 <= i < |os| ::
      match os[i] case Answered(x, _) => x == id case Rejected(x, _) => x == id case _ => true
  }

  ghost predicate PendingValid(l: Ledger) {
    forall id | id in l.pending :: l.pending[id] < |l.requests| && l.requests[l.pending[id]] == id
  }

  /** A waiter has no outcome while it is pending and exactly one afterwards. */
  ghost predicate OneOutcome(l: Ledger) {
    forall w: nat | w < |l.requests| ::
      |Outcomes(l.done, w)| == (if IsPending(l, w) then 0 else 1) && Truthful(l.requests[w], Outcomes(l.done, w))
  }

  ghost predicate DoneValid(l: Ledger) { forall w | w in l.done :: w < |l.requests| }

  ghost predicate WasWritten(written: seq<Sent>, id: RequestId, w: Waiter) {
    exists k | 0 <= k < |written| :: written[k].id == id && written[k].waiter == w
  }

  /** Of the requests written for one id, all but the last have been completed. */
  ghost predicate WireOrdered(l: Ledger) {
    && (forall i | 0 <= i < |l.written| :: l.written[i].waiter < |l.requests| && l.requests[l.written[i].waiter] == l.written[i].id)
    && (forall i, j | 0 <= i < j < |l.written| && l.written[i].id == l.written[j].id :: !IsPending(l, l.written[i].waiter))
    && (forall id | id in l.pending :: WasWritten(l.written, id, l.pending[id]))
  }

  ghost predicate Accounted(l: Ledger) {
    PendingValid(l) && OneOutcome(l) && DoneValid(l) && WireOrdered(l)
  }

  lemma CompletePendingAccounted(l: Ledger, id: RequestId, o: Outcome)
    requires Accounted(l) && Truthful(id, [o])
    ensures Accounted(CompletePending(l, id, o))
  {
    if id in l.pending {
      var w, m := l.pending[id], CompletePending(l, id, o);
      assert IsPending(l, w) && Outcomes(l.done, w) == [];
      forall v: nat | v < |m.requests|
        ensures |Outcomes(m.done, v)| == (if IsPending(m, v) then 0 else 1) && Truthful(m.requests[v], Outcomes(m.done, v))
      {
        assert |Outcomes(l.done, v)| == if IsPending(l, v) then 0 else 1;
      }
    }
  }

  lemma DrainedPending(l: Ledger, w: Waiter)
    requires PendingValid(l) && w < |l.requests|
    ensures w in l.pending.Values <==> IsPending(l, w)
  {
    if w in l.pending.Values { var id :| id in l.pending && l.pending[id] == w; }
    if IsPending(l, w) { assert l.requests[w] in l.pending; }
  }

  /** Answering one waiter and then the rest is answering them all. */
  lemma DrainStep(l: Ledger, id: RequestId, o: Outcome)
    requires PendingValid(l) && id in l.pending
    ensures PendingValid(CompletePending(l, id, o))
    ensures Drained(CompletePending(l, id, o), o) == Drained(l, o)
  {
    OneValueLess(l, id);
    AnsweredStep(l.done, l.pending.Values, l.pending[id], o);
  }

  lemma NothingToDrain(l: Ledger, o: Outcome)
    requires l.pending == map[]
    ensures Drained(l, o) == l
  {
    assert AllAnswered(l.done, l.pending.Values, o) == l.done;
  }

  lemma OneValueLess(l: Ledger, id: RequestId)
    requires PendingValid(l) && id in l.pending
    ensures (l.pending - {id}).Values == l.pending.Values - {l.pending[id]}
  {
    var p, w := l.pending - {id}, l.pending[id];
    forall v ensures v in p.Values <==> v in l.pending.Values - {w} {
      if v in p.Values { var x :| x in p && p[x] == v; assert x in l.pending; }
      if v in l.pending.Values - {w} { var x :| x in l.pending && l.pending[x] == v; assert x in p; }
    }
  }

  lemma AnsweredStep(done: map<Waiter, seq<Outcome>>, ws: set<Waiter>, w: Waiter, o: Outcome)
    requires w in ws
    ensures AllAnswered(done[w := Outcomes(done, w) + [o]], ws - {w}, o) == AllAnswered(done, ws, o)
  {
    var next := done[w := Outcomes(done, w) + [o]];
    assert next.Keys + (ws - {w}) == done.Keys + ws;
  }

  lemma DrainedAccounted(l: Ledger, kind: ErrorKind)
    requires Accounted(l)
    ensures Accounted(Drained(l, WorkerGone(kind)))
  {
    var m := Drained(l, WorkerGone(kind));
    forall w: nat | w < |m.requests|
      ensures |Outcomes(m.done, w)| == 1 && Truthful(m.requests[w], Outcomes(m.done, w))
    {
      DrainedPending(l, w);
      assert |Outcomes(l.done, w)| == if IsPending(l, w) then 0 else 1;
    }
    forall w | w in m.done ensures w < |m.requests| {
      if w in l.pending.Values { var id :| id in l.pending && l.pending[id] == w; }
    }
  }

  /** A request that is answered at once, without being written. */
  lemma TurnedAwayAccounted(l: Ledger, id: RequestId, o: Outcome)
    requires Accounted(l) && Truthful(id, [o])
    ensures Accounted(Complete(l.(requests := l.requests + [id]), |l.requests|, o))
  {
    var w := |l.requests|;
    var m := Complete(l.(requests := l.requests + [id]), w, o);
    assert w !in l.done;
    assert forall x | x in l.pending :: l.pending[x] != w;
    forall v: nat | v < |m.requests|
      ensures |Outcomes(m.done, v)| == (if IsPending(m, v) then 0 else 1) && Truthful(m.requests[v], Outcomes(m.done, v))
    {
      if v < w { assert |Outcomes(l.done, v)| == if IsPending(l, v) then 0 else 1; }
    }
    TurnedAwayWire(l, id, m);
  }

  lemma TurnedAwayWire(l: Ledger, id: RequestId, m: Ledger)
    requires WireOrdered(l) && m.requests == l.requests + [id] && m.pending == l.pending && m.written == l.written
    ensures WireOrdered(m)
  {
    forall i, j | 0 <= i < j < |m.written| && m.written[i].id == m.written[j].id ensures !IsPending(m, m.written[i].waiter) {
      assert !IsPending(l, l.written[i].waiter);
    }
  }

  lemma WrittenWire(l: Ledger, id: RequestId, at: nat)
    requires PendingValid(l) && WireOrdered(l) && id !in l.pending
    ensures WireOrdered(Written(l, id, at))
  {
    var w, m := |l.requests|, Written(l, id, at);
    forall i, j | 0 <= i < j < |m.written| && m.written[i].id == m.written[j].id ensures !IsPending(m, m.written[i].waiter) {
      assert m.written[i] == l.written[i];
      if j < |l.written| { assert !IsPending(l, l.written[i].waiter); }
    }
    forall x | x in m.pending ensures WasWritten(m.written, x, m.pending[x]) {
      if x == id {
        assert m.written[|l.written|] == Sent(id, w, at);
      } else {
        var k :| 0 <= k < |l.written| && l.written[k].id == x && l.written[k].waiter == l.pending[x];
        assert m.written[k] == l.written[k];
      }
    }
  }

  lemma WrittenAccounted(l: Ledger, id: RequestId, at: nat)
    requires Accounted(l) && id !in l.pending
    ensures Accounted(Written(l, id, at))
  {
    var w, m := |l.requests|, Written(l, id, at);
    assert w !in l.done;
    forall v: nat | v < |m.requests|
      ensures |Outcomes(m.done, v)| == (if IsPending(m, v) then 0 else 1) && Truthful(m.requests[v], Outcomes(m.done, v))
    {
      if v < w { assert |Outcomes(l.done, v)| == if IsPending(l, v) then 0 else 1; }
    }
    WrittenWire(l, id, at);
  }

  ghost predicate LedgerInv(s: State) {
    Accounted(s.ledger) && (!s.stage.Running? ==> s.ledger.pending == map[])
  }

  lemma WorkerReadLedger(s: State, msg: Wire, ok: bool)
    requires Accounted(s.ledger) && s.stage.Running?
    ensures LedgerInv(WorkerRead(s, msg, ok))
  {
    var l := s.ledger;
    match msg
    case Response(id, result) => CompletePendingAccounted(l, id, Answered(id, result));
    case Failure(id, error) => CompletePendingAccounted(l, id, Rejected(id, error));
    case Notification(_, known) => DrainedAccounted(l, BrokenPipe);
    case ServerRequest(_, known) => DrainedAccounted(l, BrokenPipe);
    case InvalidText => DrainedAccounted(l, InvalidData);
    case CloseFrame => DrainedAccounted(l, ConnectionAborted);
    case TransportError => DrainedAccounted(l, InvalidData);
    case EndOfStream => DrainedAccounted(l, UnexpectedEof);
    case Other =>
  }

  lemma RequestLedger(s: State, id: RequestId, ok: bool)
    requires Accounted(s.ledger) && s.stage.Running?
    ensures LedgerInv(RequestReceived(s, id, ok))
  {
    var l := s.ledger;
    if id in l.pending {
      TurnedAwayAccounted(l, id, DuplicateId);
    } else if ok {
      WrittenAccounted(l, id, |s.line.read|);
    } else {
      TurnedAwayAccounted(l, id, WriteFailed);
      DrainedAccounted(Unwritten(l, id), BrokenPipe);
    }
  }

  lemma NextLedger(s: State, step: Step)
    requires LedgerInv(s)
    ensures LedgerInv(Next(s, step))
  {
    match step
    case Incoming(msg, ok) => if s.stage.Running? { WorkerReadLedger(s, msg, ok); }
    case RequestCommand(id, ok) =>
      if s.stage.Running? { RequestLedger(s, id, ok); }
      else if s.stage.Exited? { TurnedAwayAccounted(s.ledger, id, WorkerGone(BrokenPipe)); }
    case CommandsClosed => DrainedAccounted(s.ledger, BrokenPipe);
    case _ =>
  }

  lemma {:induction false} RunLedger(s: State, steps: seq<Step>)
    requires LedgerInv(s)
    ensures LedgerInv(Run(s, steps))
    decreases |steps|
  {
    if steps != [] { NextLedger(s, steps[0]); RunLedger(Next(s, steps[0]), steps[1..]); }
  }

  /**
    MAIN: each request received has at most one outcome while the worker runs, exactly
    one once it has exited, and at most one request per id is outstanding on the wire.
   */
  lemma OneCompletionPerRequest(steps: seq<Step>)
    ensures var s := Run(Init, steps);
            var l := s.ledger;
            && (forall w: nat | w < |l.requests| ::
                  && |Outcomes(l.done, w)| <= 1 && Truthful(l.requests[w], Outcomes(l.done, w))
                  && (!s.stage.Running? ==> |Outcomes(l.done, w)| == 1))
            && (forall i, j | 0 <= i < j < |l.written| && l.written[i].id == l.written[j].id ::
                  |Outcomes(l.done, l.written[i].waiter)| == 1)
  {
    RunLedger(Init, steps);
  }

  /** In every run a duplicate id fails its own waiter and touches nothing else. */
  lemma DuplicateDisplacesNothing(steps: seq<Step>, id: RequestId, writeOk: bool)
    requires Run(Init, steps).stage.Running? && id in Run(Init, steps).ledger.pending
    ensures var s := Run(Init, steps);
            var t := Next(s, RequestCommand(id, writeOk));
            && t.stage == s.stage && t.line == s.line
            && t.ledger.pending == s.ledger.pending && t.ledger.written == s.ledger.written
            && Outcomes(t.ledger.done, |s.ledger.requests|) == [DuplicateId]
            && forall w | w != |s.ledger.requests| :: Outcomes(t.ledger.done, w) == Outcomes(s.ledger.done, w)
  {
    RunLedger(Init, steps);
  }

  // ---- What a written request gets ----

  /** A reply for `id`, as its waiter sees it. */
  function ReplyIn(msg: Wire, id: RequestId): Option<Outcome> {
    match msg
    case Response(x, result) => if x == id then Some(Answered(id, result)) else None
    case Failure(x, error) => if x == id then Some(Rejected(id, error)) else None
    case _ => None
  }

  function FirstReply(msgs: seq<Wire>, id: RequestId): Option<Outcome> {
    if msgs == [] then None
    else if ReplyIn(msgs[0], id).Some? then ReplyIn(msgs[0], id)
    else FirstReply(msgs[1..], id)
  }

  lemma {:induction false} FirstReplyMore(msgs: seq<Wire>, msg: Wire, id: RequestId)
    ensures FirstReply(msgs + [msg], id) == if FirstReply(msgs, id).Some? then FirstReply(msgs, id) else ReplyIn(msg, id)
  {
    if msgs == [] {
      assert msgs + [msg] == [msg];
    } else {
      assert (msgs + [msg])[0] == msgs[0] && (msgs + [msg])[1..] == msgs[1..] + [msg];
      FirstReplyMore(msgs[1..], msg, id);
    }
  }

  /** The first reply for its id read since it was written, else the worker's end, else nothing yet. */
  function Due(stage: Stage, read: seq<Wire>, sent: Sent): seq<Outcome>
    requires sent.at <= |read|
  {
    match FirstReply(read[sent.at..], sent.id)
    case Some(o) => [o]
    case None => if stage.Exited? then [WorkerGone(stage.kind)] else []
  }

  ghost predicate Dealt(stage: Stage, read: seq<Wire>, l: Ledger, i: nat)
    requires i < |l.written|
  {
    l.written[i].at <= |read| && Outcomes(l.done, l.written[i].waiter) == Due(stage, read, l.written[i])
  }

  ghost predicate AllDealt(stage: Stage, read: seq<Wire>, l: Ledger) {
    forall i | 0 <= i < |l.written| :: Dealt(stage, read, l, i)
  }

  lemma DueMore(stage: Stage, read: seq<Wire>, msg: Wire, sent: Sent)
    requires sent.at <= |read| && !stage.Exited?
    ensures Due(stage, read + [msg], sent) ==
            if Due(stage, read, sent) != [] then Due(stage, read, sent)
            else match ReplyIn(msg, sent.id) case Some(o) => [o] case None => []
  {
    assert (read + [msg])[sent.at..] == read[sent.at..] + [msg];
    FirstReplyMore(read[sent.at..], msg, sent.id);
  }

  /** A message that replies to nobody. */
  lemma ReadDealt(stage: Stage, read: seq<Wire>, l: Ledger, msg: Wire)
    requires AllDealt(stage, read, l) && !stage.Exited? && !msg.Response? && !msg.Failure?
    ensures AllDealt(stage, read + [msg], l)
  {
    forall i | 0 <= i < |l.written| ensures Dealt(stage, read + [msg], l, i) {
      assert Dealt(stage, read, l, i);
      DueMore(stage, read, msg, l.written[i]);
    }
  }

  lemma ReplyDealt(read: seq<Wire>, l: Ledger, msg: Wire, id: RequestId, o: Outcome)
    requires Accounted(l) && AllDealt(Running, read, l)
    requires forall x :: ReplyIn(msg, x) == if x == id then Some(o) else None
    ensures AllDealt(Running, read + [msg], CompletePending(l, id, o))
  {
    var m := CompletePending(l, id, o);
    forall i | 0 <= i < |l.written| ensures Dealt(Running, read + [msg], m, i) {
      assert Dealt(Running, read, l, i);
      DueMore(Running, read, msg, l.written[i]);
      ReplyReaches(l, id, o, i);
    }
  }

  /** Completing an id touches a written request exactly if it is the one waiting under that id. */
  lemma ReplyReaches(l: Ledger, id: RequestId, o: Outcome, i: nat)
    requires PendingValid(l) && OneOutcome(l) && WireOrdered(l) && i < |l.written|
    ensures var sent := l.written[i];
            var was := Outcomes(l.done, sent.waiter);
            Outcomes(CompletePending(l, id, o).done, sent.waiter) == if was == [] && sent.id == id then [o] else was
  {
    var w := l.written[i].waiter;
    assert |Outcomes(l.done, w)| == if IsPending(l, w) then 0 else 1;
  }

  lemma DrainedDealt(read: seq<Wire>, l: Ledger, kind: ErrorKind)
    requires Accounted(l) && AllDealt(Running, read, l)
    ensures AllDealt(Exited(kind), read, Drained(l, WorkerGone(kind)))
  {
    var m := Drained(l, WorkerGone(kind));
    forall i | 0 <= i < |l.written| ensures Dealt(Exited(kind), read, m, i) {
      var w := l.written[i].waiter;
      assert Dealt(Running, read, l, i);
      DrainedPending(l, w);
      assert |Outcomes(l.done, w)| == if IsPending(l, w) then 0 else 1;
    }
  }

  lemma TurnedAwayDealt(stage: Stage, read: seq<Wire>, l: Ledger, id: RequestId, o: Outcome)
    requires Accounted(l) && AllDealt(stage, read, l)
    ensures AllDealt(stage, read, Complete(l.(requests := l.requests + [id]), |l.requests|, o))
  {
    var m := Complete(l.(requests := l.requests + [id]), |l.requests|, o);
    forall i | 0 <= i < |l.written| ensures Dealt(stage, read, m, i) { assert Dealt(stage, read, l, i); }
  }

  lemma WrittenDealt(read: seq<Wire>, l: Ledger, id: RequestId)
    requires Accounted(l) && AllDealt(Running, read, l)
    ensures AllDealt(Running, read, Written(l, id, |read|))
  {
    var m := Written(l, id, |read|);
    assert |l.requests| !in l.done && read[|read|..] == [];
    forall i | 0 <= i < |m.written| ensures Dealt(Running, read, m, i) {
      if i < |l.written| { assert Dealt(Running, read, l, i) && m.written[i] == l.written[i]; }
    }
  }

  ghost predicate DealtInv(s: State) { AllDealt(s.stage, s.line.read, s.ledger) }

  lemma WorkerReadDealt(s: State, msg: Wire, ok: bool)
    requires Accounted(s.ledger) && DealtInv(s) && s.stage.Running?
    ensures DealtInv(WorkerRead(s, msg, ok))
  {
    var l, read := s.ledger, s.line.read;
    match msg
    case Response(id, result) => ReplyDealt(read, l, msg, id, Answered(id, result));
    case Failure(id, error) => ReplyDealt(read, l, msg, id, Rejected(id, error));
    case _ =>
      ReadDealt(Running, read, l, msg);
      var after := read + [msg];
      match msg {
        case InvalidText => DrainedDealt(after, l, InvalidData);
        case CloseFrame => DrainedDealt(after, l, ConnectionAborted);
        case TransportError => DrainedDealt(after, l, InvalidData);
        case EndOfStream => DrainedDealt(after, l, UnexpectedEof);
        case _ => DrainedDealt(after, l, BrokenPipe);
      }
  }

  lemma RequestDealt(s: State, id: RequestId, ok: bool)
    requires Accounted(s.ledger) && DealtInv(s) && s.stage.Running?
    ensures DealtInv(RequestReceived(s, id, ok))
  {
    var l, read := s.ledger, s.line.read;
    if id in l.pending {
      TurnedAwayDealt(Running, read, l, id, DuplicateId);
    } else if ok {
      WrittenDealt(read, l, id);
    } else {
      TurnedAwayAccounted(l, id, WriteFailed);
      TurnedAwayDealt(Running, read, l, id, WriteFailed);
      DrainedDealt(read, Unwritten(l, id), BrokenPipe);
    }
  }

  /** Before there is a worker nothing has been written. */
  ghost predicate Unstarted(s: State) { !HasClient(s) ==> s.ledger.written == [] }

  lemma NextDealt(s: State, step: Step)
    requires LedgerInv(s) && DealtInv(s) && Unstarted(s)
    ensures DealtInv(Next(s, step)) && Unstarted(Next(s, step))
  {
    match step
    case Incoming(msg, ok) => if s.stage.Running? { WorkerReadDealt(s, msg, ok); }
    case RequestCommand(id, ok) =>
      if s.stage.Running? { RequestDealt(s, id, ok); }
      else if s.stage.Exited? { TurnedAwayDealt(s.stage, s.line.read, s.ledger, id, WorkerGone(BrokenPipe)); }
    case CommandsClosed => if s.stage.Running? { DrainedDealt(s.line.read, s.ledger, BrokenPipe); }
    case _ =>
  }

  lemma {:induction false} RunDealt(s: State, steps: seq<Step>)
    requires LedgerInv(s) && DealtInv(s) && Unstarted(s)
    ensures DealtInv(Run(s, steps))
    decreases |steps|
  {
    if steps != [] {
      NextLedger(s, steps[0]);
      NextDealt(s, steps[0]);
      RunDealt(Next(s, steps[0]), steps[1..]);
    }
  }

  /**
    MAIN: in every run a written request has been given exactly the first reply for its id
    read since it was written, else the end of the worker with its kind, else nothing yet,
    whatever duplicates and later requests for that id came between.
   */
  lemma WrittenGetsFirstReply(steps: seq<Step>, i: nat)
    requires i < |Run(Init, steps).ledger.written|
    ensures var s := Run(Init, steps);
            var sent := s.ledger.written[i];
            sent.at <= |s.line.read| && Outcomes(s.ledger.done, sent.waiter) == Due(s.stage, s.line.read, sent)
  {
    RunDealt(Init, steps);
    var s := Run(Init, steps);
    assert Dealt(s.stage, s.line.read, s.ledger, i);
  }

  // ---- What becomes of a request ----

  /** A request for `id` is on the wire and no reply to it has been read. */
  ghost predicate Outstanding(l: Ledger, read: seq<Wire>, id: RequestId) {
    exists i | 0 <= i < |l.written| ::
      l.written[i].id == id && l.written[i].at <= |read| && FirstReply(read[l.written[i].at..], id).None?
  }

  /** The waiter map holds exactly the outstanding ids. */
  lemma PendingIsOutstanding(s: State, id: RequestId)
    requires s.stage.Running? && Accounted(s.ledger) && DealtInv(s)
    ensures id in s.ledger.pending <==> Outstanding(s.ledger, s.line.read, id)
  {
    var l, read := s.ledger, s.line.read;
    if id in l.pending {
      var w := l.pending[id];
      assert IsPending(l, w) && |Outcomes(l.done, w)| == 0;
      var k :| 0 <= k < |l.written| && l.written[k].id == id && l.written[k].waiter == w;
      assert Dealt(s.stage, read, l, k);
    }
    if Outstanding(l, read, id) {
      var k :| 0 <= k < |l.written| && l.written[k].id == id && l.written[k].at <= |read|
        && FirstReply(read[l.written[k].at..], id).None?;
      assert Dealt(s.stage, read, l, k);
      assert |Outcomes(l.done, l.written[k].waiter)| == 0;
      assert IsPending(l, l.written[k].waiter);
    }
  }

  /**
    MAIN: in every run, a request that reaches the running worker is turned away as a
    duplicate exactly while another for its id is outstanding; else it fails if it cannot
    be written; else it goes on the wire, with the messages read so far behind it.
   */
  lemma RequestFate(steps: seq<Step>, id: RequestId, writeOk: bool)
    requires Run(Init, steps).stage.Running?
    ensures var s := Run(Init, steps);
            var t, w := Next(s, RequestCommand(id, writeOk)), |s.ledger.requests|;
            var outcomes := Outcomes(t.ledger.done, w);
            && t.ledger.requests == s.ledger.requests + [id]
            && (outcomes == [DuplicateId] <==> Outstanding(s.ledger, s.line.read, id))
            && (outcomes == [WriteFailed] <==> !Outstanding(s.ledger, s.line.read, id) && !writeOk)
            && (outcomes == [] <==> !Outstanding(s.ledger, s.line.read, id) && writeOk)
            && t.ledger.written == s.ledger.written + (if outcomes == [] then [Sent(id, w, |s.line.read|)] else [])
            && t.stage == if outcomes == [WriteFailed] then Exited(BrokenPipe) else Running
  {
    var s := Run(Init, steps);
    RunLedger(Init, steps);
    RunDealt(Init, steps);
    PendingIsOutstanding(s, id);
    assert |s.ledger.requests| !in s.ledger.done;
    FateStep(s, id, writeOk);
  }

  lemma FateStep(s: State, id: RequestId, writeOk: bool)
    requires s.stage.Running? && Accounted(s.ledger)
    ensures var t, w := Next(s, RequestCommand(id, writeOk)), |s.ledger.requests|;
            var dup := id in s.ledger.pending;
            && t.ledger.requests == s.ledger.requests + [id]
            && Outcomes(t.ledger.done, w) == (if dup then [DuplicateId] else if writeOk then [] else [WriteFailed])
            && t.ledger.written == s.ledger.written + (if dup || !writeOk then [] else [Sent(id, w, |s.line.read|)])
            && t.stage == if dup || writeOk then Running else Exited(BrokenPipe)
  {
    var l, w := s.ledger, |s.ledger.requests|;
    assert w !in l.done && l.written + [] == l.written;
    if id !in l.pending && !writeOk {
      var u := Unwritten(l, id);
      assert forall x | x in u.pending :: u.pending[x] != w;
    }
  }

  // ---- Why the worker ends ----

  /** What ends the worker at this step, if anything does, and whether the caller is told. */
  ghost predicate Ends(s: State, step: Step, kind: ErrorKind, told: bool) {
    match step
    case Incoming(msg, ok) =>
      (match msg
       case InvalidText => kind == InvalidData && told
       case TransportError => kind == InvalidData && told
       case CloseFrame => kind == ConnectionAborted && told
       case EndOfStream => kind == UnexpectedEof && told
       case ServerRequest(_, known) =>
         kind == BrokenPipe && (if known then !s.line.receiverOpen && !told else !ok && told)
       case Notification(_, known) => kind == BrokenPipe && known && !s.line.receiverOpen && !told
       case _ => false)
    case RequestCommand(id, ok) => kind == BrokenPipe && told && !ok && !Outstanding(s.ledger, s.line.read, id)
    case CommandsClosed => kind == BrokenPipe && !told
    case _ => false
  }

  /** MAIN: in every run the worker ends exactly at such a step, with that kind, and the caller who listens is told last. */
  lemma WorkerEndsExactlyWhen(steps: seq<Step>, step: Step, kind: ErrorKind)
    requires Run(Init, steps).stage.Running?
    ensures var s := Run(Init, steps);
            var t := Next(s, step);
            && (t.stage == Exited(kind) <==> Ends(s, step, kind, true) || Ends(s, step, kind, false))
            && (t.stage.Running? || t.stage.Exited?)
            && (t.line.disconnected == Some(kind) <==> s.line.receiverOpen && Ends(s, step, kind, true))
  {
    var s := Run(Init, steps);
    assert s.line.disconnected.None? by { RunLine(Init, steps); }
    if step.RequestCommand? {
      RunLedger(Init, steps);
      RunDealt(Init, steps);
      PendingIsOutstanding(s, step.id);
    }
    EndsStep(s, step, kind);
  }

  lemma EndsStep(s: State, step: Step, kind: ErrorKind)
    requires s.stage.Running? && s.line.disconnected.None?
    requires step.RequestCommand? ==> (step.id in s.ledger.pending <==> Outstanding(s.ledger, s.line.read, step.id))
    ensures var t := Next(s, step);
            && (t.stage == Exited(kind) <==> Ends(s, step, kind, true) || Ends(s, step, kind, false))
            && (t.stage.Running? || t.stage.Exited?)
            && (t.line.disconnected == Some(kind) <==> s.line.receiverOpen && Ends(s, step, kind, true))
  {
    match step
    case Incoming(msg, ok) => MessageEnds(s, msg, ok, kind);
    case RequestCommand(id, ok) => RequestEnds(s, id, ok, kind);
    case _ =>
  }

  lemma MessageEnds(s: State, msg: Wire, ok: bool, kind: ErrorKind)
    requires s.stage.Running? && s.line.disconnected.None?
    ensures var step := Incoming(msg, ok);
            var t := Next(s, step);
            && (t.stage == Exited(kind) <==> Ends(s, step, kind, true) || Ends(s, step, kind, false))
            && (t.stage.Running? || t.stage.Exited?)
            && (t.line.disconnected == Some(kind) <==> s.line.receiverOpen && Ends(s, step, kind, true))
  {
  }

  lemma RequestEnds(s: State, id: RequestId, ok: bool, kind: ErrorKind)
    requires s.stage.Running? && s.line.disconnected.None?
    requires id in s.ledger.pending <==> Outstanding(s.ledger, s.line.read, id)
    ensures var step := RequestCommand(id, ok);
            var t := Next(s, step);
            && (t.stage == Exited(kind) <==> Ends(s, step, kind, true))
            && !Ends(s, step, kind, false) && (t.stage.Running? || t.stage.Exited?)
            && (t.line.disconnected == Some(kind) <==> s.line.receiverOpen && Ends(s, step, kind, true))
  {
  }

  // ---- The handshake is invisible in the event stream ----

  function Tail(d: Option<ErrorKind>): seq<Event> {
    match d case None => [] case Some(kind) => [Disconnected(kind)]
  }

  function Line(e: EventLine): seq<Event> { e.yielded + (e.pendingEvents + e.channel) }

  /** The events handed on are those recognised so far, all of them while somebody listens. */
  ghost predicate InOrder(e: EventLine) {
    var whole := Stream(e.read) + Tail(e.disconnected);
    Line(e) <= whole && (e.receiverOpen || e.disconnected.Some? ==> Line(e) == whole)
  }

  ghost predicate LineInv(s: State) {
    && InOrder(s.line)
    && (s.line.disconnected.Some? ==> s.stage.Exited?)
    && (!HasClient(s) ==> s.line.channel == [] && s.line.yielded == [] && s.line.receiverOpen)
  }

  lemma StreamMore(read: seq<Wire>, msg: Wire)
    ensures Stream(read + [msg]) == Stream(read) + Recognised(msg)
  {
    assert (read + [msg])[..|read|] == read;
  }

  lemma SilentInOrder(e: EventLine, msg: Wire)
    requires InOrder(e) && e.disconnected.None? && (e.receiverOpen ==> Recognised(msg) == [])
    ensures InOrder(Read(e, msg))
  {
    StreamMore(e.read, msg);
    var a, b := Stream(e.read), Recognised(msg);
    assert a + [] == a && (a + b) + [] == a + b && a <= a + b;
  }

  lemma ForwardedInOrder(e: EventLine, msg: Wire)
    requires InOrder(e) && e.disconnected.None? && e.receiverOpen
    ensures InOrder(Forwarded(e, msg))
  {
    StreamMore(e.read, msg);
    var a, b := Stream(e.read), Recognised(msg);
    assert a + [] == a && (a + b) + [] == a + b;
    Regroup(e.pendingEvents, e.channel, b);
    Regroup(e.yielded, e.pendingEvents + e.channel, b);
  }

  lemma HangupInOrder(e: EventLine, kind: ErrorKind)
    requires InOrder(e) && e.disconnected.None?
    ensures InOrder(Hangup(e, kind))
  {
    assert Stream(e.read) + [] == Stream(e.read);
    Regroup(e.pendingEvents, e.channel, [Disconnected(kind)]);
    Regroup(e.yielded, e.pendingEvents + e.channel, [Disconnected(kind)]);
  }

  lemma BufferedInOrder(e: EventLine, msg: Wire)
    requires InOrder(e) && e.disconnected.None? && e.receiverOpen && e.channel == [] && e.yielded == []
    ensures InOrder(Buffered(e, msg))
  {
    StreamMore(e.read, msg);
    var a, b := Stream(e.read), Recognised(msg);
    assert a + [] == a && (a + b) + [] == a + b;
    assert Line(e) == e.pendingEvents;
    assert Line(Buffered(e, msg)) == e.pendingEvents + b;
  }

  lemma HandshakeLine(s: State, msg: Wire, ok: bool)
    requires LineInv(s) && s.stage.Handshaking?
    ensures LineInv(HandshakeRead(s, msg, ok))
  {
    if msg.Notification? || (msg.ServerRequest? && msg.known) { BufferedInOrder(s.line, msg); }
    else { SilentInOrder(s.line, msg); }
  }

  lemma YieldedLine(e: EventLine)
    ensures Line(Yielded(e)) == Line(e)
  {
    if e.pendingEvents != [] {
      assert e.pendingEvents == [e.pendingEvents[0]] + e.pendingEvents[1..];
      Regroup([e.pendingEvents[0]], e.pendingEvents[1..], e.channel);
      Regroup(e.yielded, [e.pendingEvents[0]], e.pendingEvents[1..] + e.channel);
    } else if e.channel != [] {
      assert e.channel == [e.channel[0]] + e.channel[1..];
      assert [] + e.channel == e.channel && [] + e.channel[1..] == e.channel[1..];
      Regroup(e.yielded, [e.channel[0]], e.channel[1..]);
    }
  }

  lemma DeliveredLine(s: State, msg: Wire)
    requires LineInv(s) && s.stage.Running?
    ensures LineInv(Delivered(s, msg))
  {
    if s.line.receiverOpen { ForwardedInOrder(s.line, msg); } else { SilentInOrder(s.line, msg); }
  }

  lemma HangupLine(s: State, kind: ErrorKind)
    requires LineInv(s) && s.stage.Running?
    ensures LineInv(DisconnectAndExit(s, kind))
  {
    HangupInOrder(s.line, kind);
  }

  lemma WorkerLine(s: State, msg: Wire, ok: bool)
    requires LineInv(s) && s.stage.Running?
    ensures LineInv(WorkerRead(s, msg, ok))
  {
    if Recognised(msg) != [] {
      DeliveredLine(s, msg);
    } else {
      SilentInOrder(s.line, msg);
      var t := s.(line := Read(s.line, msg));
      match msg
      case ServerRequest(_, _) => HangupLine(t, BrokenPipe);
      case InvalidText => HangupLine(t, InvalidData);
      case CloseFrame => HangupLine(t, ConnectionAborted);
      case TransportError => HangupLine(t, InvalidData);
      case EndOfStream => HangupLine(t, UnexpectedEof);
      case _ =>
    }
  }

  lemma NextLine(s: State, step: Step)
    requires LineInv(s)
    ensures LineInv(Next(s, step))
  {
    match step
    case Incoming(msg, ok) =>
      if s.stage.Handshaking? { HandshakeLine(s, msg, ok); }
      else if s.stage.Running? { WorkerLine(s, msg, ok); }
    case RequestCommand(id, ok) =>
      if s.stage.Running? { HangupInOrder(s.line, BrokenPipe); }
    case NextEvent => YieldedLine(s.line);
    case _ =>
  }

  lemma {:induction false} RunLine(s: State, steps: seq<Step>)
    requires LineInv(s)
    ensures LineInv(Run(s, steps))
    decreases |steps|
  {
    if steps != [] { NextLine(s, steps[0]); RunLine(Next(s, steps[0]), steps[1..]); }
  }

  /**
    MAIN: what the caller has been given is a prefix of the recognised messages in wire
    order, from before the initialize response on, with at most one `Disconnected`, last;
    while the caller listens, the rest of them is on its way.
   */
  lemma HandshakeTransparent(steps: seq<Step>)
    ensures var e := Run(Init, steps).line;
            && e.yielded <= Stream(e.read) + Tail(e.disconnected)
            && (e.receiverOpen ==> e.yielded + (e.pendingEvents + e.channel) == Stream(e.read) + Tail(e.disconnected))
            && (forall i | 0 <= i < |e.yielded| && e.yielded[i].Disconnected? ::
                  i == |e.yielded| - 1 && e.yielded[..i] == Stream(e.read))
  {
    RunLine(Init, steps);
    var e := Run(Init, steps).line;
    assert e.yielded <= Line(e);
    var whole := Stream(e.read) + Tail(e.disconnected);
    forall i | 0 <= i < |e.yielded| && e.yielded[i].Disconnected? ensures i == |e.yielded| - 1 && e.yielded[..i] == Stream(e.read) {
      StreamHasNone(e.read);
      assert e.yielded[i] == whole[i];
      assert i == |Stream(e.read)|;
      assert e.yielded[..i] == whole[..i];
    }
  }

  /** MAIN: in every run the caller who asks is given the next event there is, and each once. */
  lemma CallerGetsNext(steps: seq<Step>)
    requires HasClient(Run(Init, steps)) && Run(Init, steps).line.receiverOpen
    ensures var e, t := Run(Init, steps).line, Next(Run(Init, steps), Step.NextEvent).line;
            && t.yielded + (t.pendingEvents + t.channel) == e.yielded + (e.pendingEvents + e.channel)
            && |t.yielded| == |e.yielded| + if e.pendingEvents == [] && e.channel == [] then 0 else 1
  {
    YieldedLine(Run(Init, steps).line);
  }

  /** While there is a connection every message is read, in order. */
  lemma MessageIsRead(steps: seq<Step>, msg: Wire, ok: bool)
    requires Run(Init, steps).stage.Handshaking? || Run(Init, steps).stage.Running?
    ensures Next(Run(Init, steps), Incoming(msg, ok)).line.read == Run(Init, steps).line.read + [msg]
  {
  }

  // ---- How the handshake ends ----

  /** What one step makes of a handshake, if it ends it. */
  function Verdict(step: Step): Option<Stage> {
    match step
    case Timeout => Some(Failed(TimedOut))
    case Incoming(Response(id, _), ok) =>
      if id != Named("initialize") then None else Some(if ok then Running else Failed(OtherError))
    case Incoming(Failure(id, _), _) => if id == Named("initialize") then Some(Failed(OtherError)) else None
    case Incoming(ServerRequest(_, known), ok) => if known || ok then None else Some(Failed(OtherError))
    case Incoming(InvalidText, _) => Some(Failed(OtherError))
    case Incoming(TransportError, _) => Some(Failed(OtherError))
    case Incoming(CloseFrame, _) => Some(Failed(ConnectionAborted))
    case Incoming(EndOfStream, _) => Some(Failed(UnexpectedEof))
    case _ => None
  }

  function FirstVerdict(steps: seq<Step>): Option<Stage> {
    if steps == [] then None else if Verdict(steps[0]).Some? then Verdict(steps[0]) else FirstVerdict(steps[1..])
  }

  lemma {:induction false} StageSettles(s: State, steps: seq<Step>)
    requires !s.stage.Handshaking?
    ensures HasClient(s) ==> HasClient(Run(s, steps))
    ensures s.stage.Failed? ==> Run(s, steps).stage == s.stage
    decreases |steps|
  {
    if steps != [] { StageSettles(Next(s, steps[0]), steps[1..]); }
  }

  lemma HandshakeStep(s: State, step: Step)
    requires s.stage.Handshaking?
    ensures Next(s, step).stage == if Verdict(step).Some? then Verdict(step).value else Handshaking
  {
  }

  lemma {:induction false} HandshakeFrom(s: State, steps: seq<Step>)
    requires s.stage.Handshaking?
    ensures match FirstVerdict(steps)
            case None => Run(s, steps).stage == Handshaking
            case Some(v) => if v == Running then HasClient(Run(s, steps)) else Run(s, steps).stage == v
    decreases |steps|
  {
    if steps != [] {
      HandshakeStep(s, steps[0]);
      var t := Next(s, steps[0]);
      if t.stage.Handshaking? { HandshakeFrom(t, steps[1..]); } else { StageSettles(t, steps[1..]); }
    }
  }

  /**
    MAIN: there is a client exactly when the first step that decides the handshake is the answer to
    `initialize`, acknowledged; any other decides for good on the error it gives.
   */
  lemma HandshakeOutcome(steps: seq<Step>)
    ensures HasClient(Run(Init, steps)) <==> FirstVerdict(steps) == Some(Running)
    ensures forall kind :: Run(Init, steps).stage == Failed(kind) <==> FirstVerdict(steps) == Some(Failed(kind))
  {
    HandshakeFrom(Init, steps);
    VerdictShape(steps);
  }

  lemma {:induction false} VerdictShape(steps: seq<Step>)
    ensures FirstVerdict(steps).Some? ==> FirstVerdict(steps).value.Running? || FirstVerdict(steps).value.Failed?
  {
    if steps != [] { VerdictShape(steps[1..]); }
  }

  lemma {:induction false} StreamHasNone(read: seq<Wire>)
    ensures forall i | 0 <= i < |Stream(read)| :: !Stream(read)[i].Disconnected?
  {
    if read != [] { StreamHasNone(read[..|read| - 1]); }
  }

  // ---- Requests the client does not know ----

  function AllUnknown(read: seq<Wire>): seq<nat> {
    if read == [] then [] else AllUnknown(read[..|read| - 1]) + Unknown(read[|read| - 1])
  }

  /** All have been refused, except the last one if its refusal could not be written. */
  ghost predicate Refusals(over: bool, read: seq<Wire>, refused: seq<nat>) {
    var all := AllUnknown(read);
    all == refused || (over && all != [] && all[..|all| - 1] == refused)
  }

  ghost predicate RefusalsInv(s: State) { Refusals(s.stage.Exited? || s.stage.Failed?, s.line.read, s.line.refused) }

  lemma ReadRefusals(read: seq<Wire>, refused: seq<nat>, msg: Wire)
    requires Refusals(false, read, refused)
    ensures Refusals(false, read + [msg], refused + Unknown(msg))
    ensures Refusals(true, read + [msg], refused)
    ensures Unknown(msg) == [] ==> Refusals(false, read + [msg], refused)
  {
    assert (read + [msg])[..|read|] == read;
    var more := Unknown(msg);
    assert more == [] ==> refused + more == refused;
    assert more != [] ==> (refused + more)[..|refused + more| - 1] == refused;
  }

  lemma WorkerRefusals(s: State, msg: Wire, ok: bool)
    requires RefusalsInv(s) && s.stage.Running?
    ensures RefusalsInv(WorkerRead(s, msg, ok))
  {
    ReadRefusals(s.line.read, s.line.refused, msg);
  }

  lemma HandshakeRefusals(s: State, msg: Wire, ok: bool)
    requires RefusalsInv(s) && s.stage.Handshaking?
    ensures RefusalsInv(HandshakeRead(s, msg, ok))
  {
    ReadRefusals(s.line.read, s.line.refused, msg);
  }

  lemma NextRefusals(s: State, step: Step)
    requires RefusalsInv(s)
    ensures RefusalsInv(Next(s, step))
  {
    if step.Incoming? {
      if s.stage.Running? { WorkerRefusals(s, step.msg, step.writeOk); }
      else if s.stage.Handshaking? { HandshakeRefusals(s, step.msg, step.writeOk); }
    }
  }

  lemma {:induction false} RunRefusals(s: State, steps: seq<Step>)
    requires RefusalsInv(s)
    ensures RefusalsInv(Run(s, steps))
    decreases |steps|
  {
    if steps != [] { NextRefusals(s, steps[0]); RunRefusals(Next(s, steps[0]), steps[1..]); }
  }

  /**
    MAIN: in every run the unknown server requests read have been refused, each once and in
    order, but for one whose refusal failed and ended the connection.
   */
  lemma UnknownRequestsRefused(steps: seq<Step>)
    ensures RefusalsInv(Run(Init, steps))
  {
    RunRefusals(Init, steps);
  }

  // ---- The worker ----

  /** `requests`, `written`, `read`, `refused`, `yielded` and `disconnected` record what has happened. */
  class RemoteWorker {
    var stage: Stage
    var pending: map<RequestId, Waiter>
    var done: map<Waiter, seq<Outcome>>
    var pendingEvents: seq<Event>
    var channel: seq<Event>
    var receiverOpen: bool
    var requests: seq<RequestId>
    var written: seq<Sent>
    var read: seq<Wire>
    var refused: seq<nat>
    var yielded: seq<Event>
    var disconnected: Option<ErrorKind>

    ghost function Book(): Ledger reads this { Ledger(pending, requests, done, written) }

    ghost function Events(): EventLine
      reads this
    {
      EventLine(pendingEvents, channel, receiverOpen, read, refused, yielded, disconnected)
    }

    ghost function Abs(): State reads this { State(stage, Book(), Events()) }

    constructor ()
      ensures Abs() == Init
    {
      stage, pending, done, pendingEvents, channel, receiverOpen := Handshaking, map[], map[], [], [], true;
      requests, written, read, refused, yielded, disconnected := [], [], [], [], [], None;
    }

    /** One waiter is answered. */
    method Send(w: Waiter, o: Outcome)
      modifies `done
      ensures Book() == Complete(old(Book()), w, o)
    {
      done := done[w := (if w in done then done[w] else []) + [o]];
    }

    method CompleteRequest(id: RequestId, o: Outcome)
      modifies `pending, `done
      ensures Book() == CompletePending(old(Book()), id, o)
    {
      if id in pending {
        var w := pending[id];
        pending := pending - {id};
        Send(w, o);
      }
    }

    /** The loop over the waiter map once the worker has left its own loop. */
    method Drain(o: Outcome)
      requires PendingValid(Book())
      modifies `pending, `done
      ensures Book() == Drained(old(Book()), o)
    {
      ghost var goal := Drained(Book(), o);
      while pending != map[]
        invariant PendingValid(Book()) && Drained(Book(), o) == goal
        decreases pending.Keys
      {
        var id :| id in pending;
        DrainStep(Book(), id, o);
        CompleteRequest(id, o);
      }
      NothingToDrain(Book(), o);
    }

    method FailPending(kind: ErrorKind)
      requires PendingValid(Book())
      modifies `stage, `pending, `done
      ensures Abs() == Exit(old(Abs()), kind)
    {
      stage := Exited(kind);
      Drain(WorkerGone(kind));
    }

    method DeliverEvent(event: Event) returns (ok: bool)
      modifies `channel
      ensures ok == receiverOpen
      ensures channel == if ok then old(channel) + [event] else old(channel)
    {
      ok := receiverOpen;
      if ok { channel := channel + [event]; }
    }

    method Disconnect(kind: ErrorKind)
      requires PendingValid(Book())
      modifies `stage, `pending, `done, `channel, `disconnected
      ensures Abs() == DisconnectAndExit(old(Abs()), kind)
    {
      var ok := DeliverEvent(Disconnected(kind));
      if ok { disconnected := Some(kind); }
      FailPending(kind);
    }

    /** The select arm for a request command. */
    method HandleRequest(id: RequestId, writeOk: bool)
      requires stage.Running? && PendingValid(Book())
      modifies this
      ensures Abs() == Next(old(Abs()), RequestCommand(id, writeOk))
    {
      var w := |requests|;
      requests := requests + [id];
      if id in pending {
        Send(w, DuplicateId);
        return;
      }
      ghost var was := pending;
      pending := pending[id := w];
      if !writeOk {
        pending := pending - {id};
        assert pending == was;
        Send(w, WriteFailed);
        assert Book() == Unwritten(old(Book()), id);
        Disconnect(BrokenPipe);
        return;
      }
      written := written + [Sent(id, w, |read|)];
    }

    /** The select arm for what the connection yields. */
    method HandleMessage(msg: Wire, writeOk: bool)
      requires stage.Running? && PendingValid(Book())
      modifies this
      ensures Abs() == Next(old(Abs()), Incoming(msg, writeOk))
    {
      read := read + [msg];
      match msg
      case Response(id, result) => CompleteRequest(id, Answered(id, result));
      case Failure(id, error) => CompleteRequest(id, Rejected(id, error));
      case Notification(n, known) => if known { Forward(Notified(n)); }
      case ServerRequest(n, known) =>
        if known { Forward(Asked(n)); }
        else if !writeOk { Disconnect(BrokenPipe); }
        else { refused := refused + [n]; }
      case InvalidText => Disconnect(InvalidData);
      case CloseFrame => Disconnect(ConnectionAborted);
      case TransportError => Disconnect(InvalidData);
      case EndOfStream => Disconnect(UnexpectedEof);
      case Other =>
    }

    method Forward(event: Event)
      requires PendingValid(Book())
      modifies `stage, `pending, `done, `channel
      ensures receiverOpen ==> Abs() == old(Abs()).(line := old(Events()).(channel := old(channel) + [event]))
      ensures !receiverOpen ==> Abs() == Exit(old(Abs()), BrokenPipe)
    {
      var ok := DeliverEvent(event);
      if !ok { FailPending(BrokenPipe); }
    }

    /** One message before the initialize response has arrived. */
    method HandshakeMessage(msg: Wire, writeOk: bool)
      requires stage.Handshaking?
      modifies this
      ensures Abs() == Next(old(Abs()), Incoming(msg, writeOk))
    {
      read := read + [msg];
      match msg
      case Response(id, _) => if id == INITIALIZE { stage := if writeOk then Running else Failed(OtherError); }
      case Failure(id, _) => if id == INITIALIZE { stage := Failed(OtherError); }
      case Notification(n, known) => pendingEvents := pendingEvents + if known then [Notified(n)] else [];
      case ServerRequest(n, known) =>
        if known { pendingEvents := pendingEvents + [Asked(n)]; }
        else if !writeOk { stage := Failed(OtherError); }
        else { refused := refused + [n]; }
      case InvalidText => stage := Failed(OtherError);
      case CloseFrame => stage := Failed(ConnectionAborted);
      case TransportError => stage := Failed(OtherError);
      case EndOfStream => stage := Failed(UnexpectedEof);
      case Other =>
    }

    /** What the caller reads: the handshake's events first, then the worker's. */
    method NextEvent() returns (event: Option<Event>)
      requires HasClient(Abs()) && receiverOpen
      modifies `pendingEvents, `channel, `yielded
      ensures Abs() == Next(old(Abs()), Step.NextEvent)
      ensures yielded == old(yielded) + (match event case Some(e) => [e] case None => [])
    {
      event := None;
      if pendingEvents != [] {
        event := Some(pendingEvents[0]);
        pendingEvents := pendingEvents[1..];
      } else if channel != [] {
        event := Some(channel[0]);
        channel := channel[1..];
      }
      if event.Some? { yielded := yielded + [event.value]; }
    }
  }
}
