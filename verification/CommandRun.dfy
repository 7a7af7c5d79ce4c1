/**
  One running command: the select loop over control requests, expiration and exit, the
  two output pumps beside it, and the single reply at the end.
 */
module CommandRun {
  import opened Text
  import opened OutputPump

  const EXEC_TIMEOUT_EXIT_CODE: int := 124

  datatype Control = Write(bytes: Bytes, closeStdin: bool) | Resize(rows: nat, cols: nat) | Terminate

  datatype Answer = Accepted | StdinNotEnabled | StdinClosed | ResizeFailed | NoLongerRunning

  /** What the process handle is asked to do. */
  datatype Op = WriteStdin(bytes: Bytes) | CloseStdin | ResizeTo(rows: nat, cols: nat) | RequestTerminate

  datatype Expiry = TimedOut | Cancelled

  /** In the loop, waiting for the pumps, reply sent, or over, with the control channel gone. */
  datatype Phase = Looping | Draining | Replied | Over

  datatype Pumping = Pumping(progress: Progress, ended: bool)

  datatype Stream = Stdout | Stderr

  datatype Out = Sends(stream: Stream, delta: Delta) | Reply(exit: int, stdout: Bytes, stderr: Bytes)

  /** `answers` pairs each answered request, by number, with its answer. */
  datatype Controls = Controls(
    requests: seq<Control>, answers: seq<(nat, Answer)>, open: bool, sendersGone: bool, ops: seq<Op>)

  datatype State = State(
    streamStdin: bool, output: Config, phase: Phase, controls: Controls, expiry: Option<Expiry>, exit: Option<int>,
    stdout: Pumping, stderr: Pumping, log: seq<Out>)

  const FRESH: Pumping := Pumping(UNREAD, false)

  function Start(streamStdin: bool, output: Config): State {
    State(streamStdin, output, Looping, Controls([], [], true, false, []), None, None, FRESH, FRESH, [])
  }

  /** `ok` is how the process handle takes what it is asked to do. */
  datatype Step =
    | SendControl(control: Control)
    | DropSenders
    | TakeControl(ok: bool)
    | SeeControlClosed
    | Expire(outcome: Expiry)
    | Exit(code: Option<int>)
    | PumpTurns(stream: Stream, batch: seq<Bytes>)
    | PumpEnds(stream: Stream)
    | SendReply
    | DropControls

  // ---- The select arms ----

  function AnswerTo(streamStdin: bool, c: Control, ok: bool): Answer {
    match c
    case Write(delta, _) => if !streamStdin then StdinNotEnabled else if delta != [] && !ok then StdinClosed else Accepted
    case Resize(_, _) => if ok then Accepted else ResizeFailed
    case Terminate => Accepted
  }

  /** A write that fails does not go on to close stdin. */
  function OpsFor(streamStdin: bool, c: Control, ok: bool): seq<Op> {
    match c
    case Write(delta, close) =>
      if !streamStdin then []
      else if delta != [] && !ok then []
      else (if delta != [] then [WriteStdin(delta)] else []) + (if close then [CloseStdin] else [])
    case Resize(rows, cols) => if ok then [ResizeTo(rows, cols)] else []
    case Terminate => [RequestTerminate]
  }

  predicate Waiting(c: Controls) { |c.answers| < |c.requests| }

  function Taken(s: State, ok: bool): Controls
    requires Waiting(s.controls)
  {
    var c := s.controls;
    var control := c.requests[|c.answers|];
    c.(answers := c.answers + [(|c.answers|, AnswerTo(s.streamStdin, control, ok))],
       ops := c.ops + OpsFor(s.streamStdin, control, ok))
  }

  function WithTerminate(c: Controls): Controls { c.(ops := c.ops + [RequestTerminate]) }

  /** Dropping the receiver fails whatever is still queued. */
  function Dropped(c: Controls): Controls
    decreases |c.requests| - |c.answers|
  {
    if Waiting(c) then Dropped(c.(answers := c.answers + [(|c.answers|, NoLongerRunning)])) else c
  }

  function ExitCode(expiry: Option<Expiry>, code: Option<int>): int {
    if expiry == Some(TimedOut) then EXEC_TIMEOUT_EXIT_CODE
    else match code case Some(n) => n case None => -1
  }

  function PumpOf(s: State, stream: Stream): Pumping { if stream.Stdout? then s.stdout else s.stderr }

  function WithPump(s: State, stream: Stream, p: Pumping): State {
    if stream.Stdout? then s.(stdout := p) else s.(stderr := p)
  }

  /** A pump stops at its cap. */
  predicate Active(p: Pumping) { !p.ended && !p.progress.capReached }

  /** One turn of a pump's loop: what it sends goes out in the same step. */
  function Turned(s: State, stream: Stream, batch: seq<Bytes>): State {
    var p := PumpOf(s, stream).progress;
    var q := Turn(s.output, p, Flat(batch), |batch|);
    WithPump(s, stream, Pumping(q, false)).(log := s.log + Emitted(stream, p, q))
  }

  /** The delta a turn has added, if any. */
  function Emitted(stream: Stream, p: Progress, q: Progress): seq<Out> {
    if |p.deltas| < |q.deltas| then [Sends(stream, q.deltas[|p.deltas|])] else []
  }

  function ReplyOf(s: State): Out
    requires s.exit.Some?
  {
    Reply(s.exit.value, s.stdout.progress.buffer, s.stderr.progress.buffer)
  }

  function Next(s: State, step: Step): State {
    var c := s.controls;
    match step
    case SendControl(control) =>
      if c.sendersGone then s else
        var d := c.(requests := c.requests + [control]);
        s.(controls := if s.phase.Over? then Dropped(d) else d)
    case DropSenders => s.(controls := c.(sendersGone := true))
    case TakeControl(ok) =>
      if s.phase.Looping? && c.open && Waiting(c) then s.(controls := Taken(s, ok)) else s
    case SeeControlClosed =>
      if s.phase.Looping? && c.open && c.sendersGone && !Waiting(c)
      then s.(controls := WithTerminate(c.(open := false))) else s
    case Expire(outcome) =>
      if s.phase.Looping? && s.expiry.None? then s.(expiry := Some(outcome), controls := WithTerminate(c)) else s
    case Exit(code) =>
      if s.phase.Looping? then s.(phase := Draining, exit := Some(ExitCode(s.expiry, code))) else s
    case PumpTurns(stream, batch) =>
      if batch == [] || !Active(PumpOf(s, stream)) then s else Turned(s, stream, batch)
    case PumpEnds(stream) => WithPump(s, stream, PumpOf(s, stream).(ended := true))
    case SendReply =>
      if s.phase.Draining? && s.exit.Some? && s.stdout.ended && s.stderr.ended
      then s.(phase := Replied, log := s.log + [ReplyOf(s)])
      else s
    case DropControls => if s.phase.Replied? then s.(phase := Over, controls := Dropped(c)) else s
  }

  function Run(s: State, steps: seq<Step>): State
    decreases |steps|
  {
    if steps == [] then s else Run(Next(s, steps[0]), steps[1..])
  }

  // ---- The exit code ----

  /** The outcome of the first expiration, if there is one. */
  function FirstExpiry(steps: seq<Step>): Option<Expiry> {
    if steps == [] then None else if steps[0].Expire? then Some(steps[0].outcome) else FirstExpiry(steps[1..])
  }

  /** The steps before the process exits, and what it exits with. */
  function FirstExit(steps: seq<Step>): Option<(seq<Step>, Option<int>)> {
    if steps == [] then None
    else if steps[0].Exit? then Some(([], steps[0].code))
    else match FirstExit(steps[1..]) case Some((before, code)) => Some(([steps[0]] + before, code)) case None => None
  }

  lemma {:induction false} ExitIsFixed(s: State, steps: seq<Step>)
    requires !s.phase.Looping?
    ensures Run(s, steps).exit == s.exit && !Run(s, steps).phase.Looping?
    decreases |steps|
  {
    if steps != [] { ExitIsFixed(Next(s, steps[0]), steps[1..]); }
  }

  lemma {:induction false} ExitFrom(s: State, steps: seq<Step>)
    requires s.phase.Looping? && s.exit.None?
    ensures Run(s, steps).exit ==
            match FirstExit(steps)
            case None => None
            case Some((before, code)) => Some(ExitCode(if s.expiry.Some? then s.expiry else FirstExpiry(before), code))
    decreases |steps|
  {
    if steps != [] {
      var n := Next(s, steps[0]);
      if steps[0].Exit? {
        ExitIsFixed(n, steps[1..]);
      } else {
        ExitFrom(n, steps[1..]);
        var rest := FirstExit(steps[1..]);
        if rest.Some? { assert ([steps[0]] + rest.value.0)[1..] == rest.value.0; }
      }
    }
  }

  /**
    MAIN: the exit code is 124 exactly when the command expired by timing out before it
    exited, else what it exited with, else -1; it is known once the process has exited.
   */
  lemma ExitCodeOf(streamStdin: bool, output: Config, steps: seq<Step>)
    ensures Run(Start(streamStdin, output), steps).exit ==
            match FirstExit(steps)
            case None => None
            case Some((before, code)) =>
              if FirstExpiry(before) == Some(TimedOut) then Some(124)
              else if code.Some? then code else Some(-1)
  {
    ExitFrom(Start(streamStdin, output), steps);
  }

  // ---- One answer for each control request, one reply after all output ----

  /** An answer that request can get: its own, or that the command is gone. */
  predicate Fitting(streamStdin: bool, c: Control, a: Answer) {
    || a == NoLongerRunning
    || match c
       case Write(bytes, _) =>
         if streamStdin then a == Accepted || (a == StdinClosed && bytes != []) else a == StdinNotEnabled
       case Resize(_, _) => a == Accepted || a == ResizeFailed
       case Terminate => a == Accepted
  }

  ghost predicate InOrder(streamStdin: bool, c: Controls) {
    && |c.answers| <= |c.requests|
    && forall i | 0 <= i < |c.answers| :: c.answers[i].0 == i && Fitting(streamStdin, c.requests[i], c.answers[i].1)
  }

  lemma {:induction false} DroppedAnswersAll(streamStdin: bool, c: Controls)
    requires InOrder(streamStdin, c)
    ensures var d := Dropped(c);
            && InOrder(streamStdin, d) && !Waiting(d) && d.requests == c.requests && d.ops == c.ops
            && c.answers <= d.answers && d.open == c.open && d.sendersGone == c.sendersGone
            && forall i | |c.answers| <= i < |d.answers| :: d.answers[i].1 == NoLongerRunning
    decreases |c.requests| - |c.answers|
  {
    if Waiting(c) { DroppedAnswersAll(streamStdin, c.(answers := c.answers + [(|c.answers|, NoLongerRunning)])); }
  }

  ghost predicate ControlsInv(s: State) {
    InOrder(s.streamStdin, s.controls) && (s.phase.Over? ==> !Waiting(s.controls))
  }

  ghost predicate ReplyInv(s: State) {
    && (s.phase.Looping? <==> s.exit.None?)
    && (forall i | 0 <= i < |s.log| :: s.log[i].Reply? ==> (s.phase.Replied? || s.phase.Over?) && i == |s.log| - 1)
    && (s.phase.Replied? || s.phase.Over? ==>
          s.exit.Some? && s.stdout.ended && s.stderr.ended && s.log != [] && s.log[|s.log| - 1] == ReplyOf(s))
  }

  ghost predicate Inv(s: State) { ControlsInv(s) && ReplyInv(s) }

  lemma TakenInOrder(s: State, ok: bool)
    requires InOrder(s.streamStdin, s.controls) && Waiting(s.controls)
    ensures InOrder(s.streamStdin, Taken(s, ok))
  {
  }

  lemma NextControls(s: State, step: Step)
    requires ControlsInv(s)
    ensures ControlsInv(Next(s, step))
  {
    match step
    case SendControl(control) =>
      DroppedAnswersAll(s.streamStdin, s.controls.(requests := s.controls.requests + [control]));
    case TakeControl(ok) => if Waiting(s.controls) { TakenInOrder(s, ok); }
    case DropControls => DroppedAnswersAll(s.streamStdin, s.controls);
    case _ =>
  }

  lemma NextReply(s: State, step: Step)
    requires ReplyInv(s)
    ensures ReplyInv(Next(s, step))
  {
  }

  lemma NextInv(s: State, step: Step)
    requires Inv(s)
    ensures Inv(Next(s, step))
  {
    NextControls(s, step);
    NextReply(s, step);
  }

  lemma {:induction false} RunInv(s: State, steps: seq<Step>)
    requires Inv(s)
    ensures Inv(Run(s, steps))
    decreases |steps|
  {
    if steps != [] { NextInv(s, steps[0]); RunInv(Next(s, steps[0]), steps[1..]); }
  }

  ghost predicate AnsweredOnce(c: Controls, r: nat) {
    && (exists i | 0 <= i < |c.answers| :: c.answers[i].0 == r)
    && forall i, j | 0 <= i < |c.answers| && 0 <= j < |c.answers| && c.answers[i].0 == r && c.answers[j].0 == r :: i == j
  }

  /** MAIN: a control request is answered at most once, and exactly once when the command is over. */
  lemma ControlsAnsweredOnce(streamStdin: bool, output: Config, steps: seq<Step>)
    ensures var s := Run(Start(streamStdin, output), steps);
            forall r: nat | r < |s.controls.requests| :: s.phase.Over? || r < |s.controls.answers| ==> AnsweredOnce(s.controls, r)
    ensures var s := Run(Start(streamStdin, output), steps);
            forall r: nat | r < |s.controls.requests| && r < |s.controls.answers| ::
              Fitting(streamStdin, s.controls.requests[r], s.controls.answers[r].1)
  {
    RunInv(Start(streamStdin, output), steps);
    StdinNeverChanges(Start(streamStdin, output), steps);
    var s := Run(Start(streamStdin, output), steps);
    forall r: nat | r < |s.controls.requests| ensures s.phase.Over? || r < |s.controls.answers| ==> AnsweredOnce(s.controls, r) {
      if s.phase.Over? || r < |s.controls.answers| { assert s.controls.answers[r].0 == r; }
    }
  }

  lemma {:induction false} StdinNeverChanges(s: State, steps: seq<Step>)
    ensures Run(s, steps).streamStdin == s.streamStdin
    decreases |steps|
  {
    if steps != [] { StdinNeverChanges(Next(s, steps[0]), steps[1..]); }
  }

  // ---- The output ----

  /** The deltas of one stream in the log, in order. */
  function DeltasIn(log: seq<Out>, stream: Stream): seq<Delta> {
    if log == [] then []
    else
      var last := log[|log| - 1];
      DeltasIn(log[..|log| - 1], stream) + if last.Sends? && last.stream == stream then [last.delta] else []
  }

  lemma DeltasInMore(log: seq<Out>, o: Out, stream: Stream)
    ensures DeltasIn(log + [o], stream) ==
            DeltasIn(log, stream) + if o.Sends? && o.stream == stream then [o.delta] else []
  {
    assert (log + [o])[..|log|] == log;
  }

  /** The log holds what the pump has sent, and the pump is faithful to what it has read. */
  ghost predicate Pumped(c: Config, log: seq<Out>, stream: Stream, p: Progress) {
    Faithful(c, p) && DeltasIn(log, stream) == p.deltas
  }

  ghost predicate OutputInv(s: State) {
    Pumped(s.output, s.log, Stdout, s.stdout.progress) && Pumped(s.output, s.log, Stderr, s.stderr.progress)
  }

  lemma TurnedPumped(c: Config, log: seq<Out>, stream: Stream, p: Progress, chunk: Bytes, n: nat)
    requires Pumped(c, log, stream, p) && !p.capReached && 0 < n
    ensures Pumped(c, log + Emitted(stream, p, Turn(c, p, chunk, n)), stream, Turn(c, p, chunk, n))
  {
    TurnFaithful(c, p, chunk, n);
    var q := Turn(c, p, chunk, n);
    if |p.deltas| < |q.deltas| {
      DeltasInMore(log, Sends(stream, q.deltas[|p.deltas|]), stream);
    } else {
      assert log + [] == log && p.deltas + [] == p.deltas;
    }
  }

  /** What one stream sends is no delta of the other. */
  lemma OtherStream(c: Config, log: seq<Out>, stream: Stream, p: Progress, sent: seq<Out>)
    requires Pumped(c, log, stream, p) && |sent| <= 1 && (sent != [] && sent[0].Sends? ==> sent[0].stream != stream)
    ensures Pumped(c, log + sent, stream, p)
  {
    if sent == [] {
      assert log + sent == log;
    } else {
      assert sent == [sent[0]];
      DeltasInMore(log, sent[0], stream);
      assert DeltasIn(log, stream) + [] == DeltasIn(log, stream);
    }
  }

  lemma StdoutTurns(s: State, p: Progress, q: Progress)
    requires Pumped(s.output, s.log + Emitted(Stdout, p, q), Stdout, q) && Pumped(s.output, s.log, Stderr, s.stderr.progress)
    ensures OutputInv(s.(stdout := Pumping(q, false), log := s.log + Emitted(Stdout, p, q)))
  {
    OtherStream(s.output, s.log, Stderr, s.stderr.progress, Emitted(Stdout, p, q));
  }

  lemma StderrTurns(s: State, p: Progress, q: Progress)
    requires Pumped(s.output, s.log + Emitted(Stderr, p, q), Stderr, q) && Pumped(s.output, s.log, Stdout, s.stdout.progress)
    ensures OutputInv(s.(stderr := Pumping(q, false), log := s.log + Emitted(Stderr, p, q)))
  {
    OtherStream(s.output, s.log, Stdout, s.stdout.progress, Emitted(Stderr, p, q));
  }

  lemma TurnOutput(s: State, stream: Stream, batch: seq<Bytes>)
    requires OutputInv(s) && batch != [] && Active(PumpOf(s, stream))
    ensures OutputInv(Turned(s, stream, batch))
  {
    var p := PumpOf(s, stream).progress;
    TurnedPumped(s.output, s.log, stream, p, Flat(batch), |batch|);
    if stream.Stdout? { StdoutTurns(s, p, Turn(s.output, p, Flat(batch), |batch|)); }
    else { StderrTurns(s, p, Turn(s.output, p, Flat(batch), |batch|)); }
  }

  lemma NextOutput(s: State, step: Step)
    requires OutputInv(s)
    ensures OutputInv(Next(s, step))
  {
    match step
    case PumpTurns(stream, batch) => if batch != [] && Active(PumpOf(s, stream)) { TurnOutput(s, stream, batch); }
    case SendReply =>
      if s.exit.Some? {
        OtherStream(s.output, s.log, Stdout, s.stdout.progress, [ReplyOf(s)]);
        OtherStream(s.output, s.log, Stderr, s.stderr.progress, [ReplyOf(s)]);
      }
    case _ =>
  }

  lemma {:induction false} RunOutput(s: State, steps: seq<Step>)
    requires OutputInv(s)
    ensures OutputInv(Run(s, steps))
    decreases |steps|
  {
    if steps != [] { NextOutput(s, steps[0]); RunOutput(Next(s, steps[0]), steps[1..]); }
  }

  lemma {:induction false} ConfigNeverChanges(s: State, steps: seq<Step>)
    ensures Run(s, steps).output == s.output
    decreases |steps|
  {
    if steps != [] { ConfigNeverChanges(Next(s, steps[0]), steps[1..]); }
  }

  /** MAIN: in every run, the deltas logged for a stream are those of what its pump has read, capped. */
  lemma OutputIsCapped(streamStdin: bool, output: Config, steps: seq<Step>, stream: Stream)
    ensures var s := Run(Start(streamStdin, output), steps);
            Pumped(output, s.log, stream, PumpOf(s, stream).progress)
  {
    RunOutput(Start(streamStdin, output), steps);
    ConfigNeverChanges(Start(streamStdin, output), steps);
  }

  /**
    MAIN: there is at most one reply and no delta follows it; it carries the exit code and,
    for each stream, what the cap keeps of all that was read, or nothing if it was streamed.
   */
  lemma OneReplyAfterOutput(streamStdin: bool, output: Config, steps: seq<Step>)
    ensures var s := Run(Start(streamStdin, output), steps);
            && (s.phase.Replied? || s.phase.Over? <==> exists i | 0 <= i < |s.log| :: s.log[i].Reply?)
            && (forall i | 0 <= i < |s.log| && s.log[i].Reply? ::
                  && i == |s.log| - 1 && s.exit.Some? && s.stdout.ended && s.stderr.ended
                  && s.log[i] == Reply(
                       s.exit.value,
                       if output.streamOutput then [] else Kept(output.cap, s.stdout.progress.data),
                       if output.streamOutput then [] else Kept(output.cap, s.stderr.progress.data)))
  {
    RunInv(Start(streamStdin, output), steps);
    RunOutput(Start(streamStdin, output), steps);
    ConfigNeverChanges(Start(streamStdin, output), steps);
    var s := Run(Start(streamStdin, output), steps);
    if s.phase.Replied? || s.phase.Over? { assert s.log[|s.log| - 1].Reply?; }
  }

  // ---- When the process is asked to terminate ----

  /** A control request to terminate that has been taken. */
  ghost predicate TerminateTaken(c: Controls) {
    exists i | 0 <= i < |c.answers| && i < |c.requests| :: c.requests[i].Terminate? && c.answers[i].1.Accepted?
  }

  ghost predicate TerminationInv(s: State) {
    && (RequestTerminate in s.controls.ops <==> TerminateTaken(s.controls) || s.expiry.Some? || !s.controls.open)
    && (!s.controls.open ==> s.controls.sendersGone)
  }

  lemma OnlyTerminateTerminates(streamStdin: bool, c: Control, ok: bool)
    ensures RequestTerminate in OpsFor(streamStdin, c, ok) <==> c.Terminate?
  {
  }

  lemma TakenTermination(s: State, ok: bool)
    requires InOrder(s.streamStdin, s.controls) && TerminationInv(s) && Waiting(s.controls)
    ensures TerminationInv(s.(controls := Taken(s, ok)))
  {
    var c, d := s.controls, Taken(s, ok);
    var n := |c.answers|;
    OnlyTerminateTerminates(s.streamStdin, c.requests[n], ok);
    if TerminateTaken(c) {
      var i :| 0 <= i < |c.answers| && c.requests[i].Terminate? && c.answers[i].1.Accepted?;
      assert d.answers[i] == c.answers[i];
    }
    if TerminateTaken(d) {
      var i :| 0 <= i < |d.answers| && d.requests[i].Terminate? && d.answers[i].1.Accepted?;
      assert i == n || d.answers[i] == c.answers[i];
    }
    if c.requests[n].Terminate? { assert d.answers[n].1.Accepted?; }
  }

  lemma DroppedTermination(streamStdin: bool, c: Controls)
    requires InOrder(streamStdin, c)
    ensures TerminateTaken(Dropped(c)) <==> TerminateTaken(c)
  {
    var d := Dropped(c);
    DroppedAnswersAll(streamStdin, c);
    if TerminateTaken(c) {
      var i :| 0 <= i < |c.answers| && c.requests[i].Terminate? && c.answers[i].1.Accepted?;
      assert d.answers[i] == c.answers[i];
    }
    if TerminateTaken(d) {
      var i :| 0 <= i < |d.answers| && d.requests[i].Terminate? && d.answers[i].1.Accepted?;
      assert i < |c.answers| && d.answers[i] == c.answers[i];
    }
  }

  lemma NextTermination(s: State, step: Step)
    requires Inv(s) && TerminationInv(s)
    ensures TerminationInv(Next(s, step))
  {
    match step
    case SendControl(control) =>
      var d := s.controls.(requests := s.controls.requests + [control]);
      assert TerminateTaken(d) <==> TerminateTaken(s.controls);
      DroppedAnswersAll(s.streamStdin, d);
      DroppedTermination(s.streamStdin, d);
    case TakeControl(ok) => if Waiting(s.controls) { TakenTermination(s, ok); }
    case DropControls => DroppedAnswersAll(s.streamStdin, s.controls); DroppedTermination(s.streamStdin, s.controls);
    case _ =>
  }

  lemma {:induction false} RunTermination(s: State, steps: seq<Step>)
    requires Inv(s) && TerminationInv(s)
    ensures TerminationInv(Run(s, steps))
    decreases |steps|
  {
    if steps != [] {
      NextInv(s, steps[0]);
      NextTermination(s, steps[0]);
      RunTermination(Next(s, steps[0]), steps[1..]);
    }
  }

  /** MAIN: the process is asked to terminate exactly by a terminate request, an expiration or the last sender going away. */
  lemma TerminatesExactlyWhen(streamStdin: bool, output: Config, steps: seq<Step>)
    ensures var s := Run(Start(streamStdin, output), steps);
            RequestTerminate in s.controls.ops <==>
              TerminateTaken(s.controls) || s.expiry.Some? || (s.controls.sendersGone && !s.controls.open)
  {
    RunTermination(Start(streamStdin, output), steps);
  }

  // ---- What the process is made to do ----

  /** What an accepted request asks of the process. */
  function Asked(c: Control): seq<Op> {
    match c
    case Write(bytes, close) => (if bytes == [] then [] else [WriteStdin(bytes)]) + (if close then [CloseStdin] else [])
    case Resize(rows, cols) => [ResizeTo(rows, cols)]
    case Terminate => [RequestTerminate]
  }

  /** What the requests that were accepted have asked for, in order. */
  function AllAsked(requests: seq<Control>, answers: seq<(nat, Answer)>): seq<Op>
    requires |answers| <= |requests|
    decreases |answers|
  {
    if answers == [] then []
    else
      var n := |answers| - 1;
      AllAsked(requests, answers[..n]) + if answers[n].1.Accepted? then Asked(requests[n]) else []
  }

  /** The operations other than termination, which also has other causes. */
  function InputOps(ops: seq<Op>): seq<Op> {
    if ops == [] then []
    else
      var n := |ops| - 1;
      InputOps(ops[..n]) + if ops[n].RequestTerminate? then [] else [ops[n]]
  }

  lemma InputOpsOne(ops: seq<Op>, op: Op)
    ensures InputOps(ops + [op]) == InputOps(ops) + if op.RequestTerminate? then [] else [op]
  {
    assert (ops + [op])[..|ops|] == ops;
  }

  lemma {:induction false} InputOpsMore(ops: seq<Op>, more: seq<Op>)
    ensures InputOps(ops + more) == InputOps(ops) + InputOps(more)
    decreases |more|
  {
    if more == [] {
      assert ops + more == ops;
    } else {
      var n := |more| - 1;
      assert more == more[..n] + [more[n]];
      Regroup(ops, more[..n], [more[n]]);
      InputOpsMore(ops, more[..n]);
      InputOpsOne(ops + more[..n], more[n]);
      InputOpsOne(more[..n], more[n]);
      Regroup(InputOps(ops), InputOps(more[..n]), if more[n].RequestTerminate? then [] else [more[n]]);
    }
  }

  /** A request is accepted exactly when it is allowed and the process takes what it needs. */
  lemma AcceptedExactly(streamStdin: bool, c: Control, ok: bool)
    ensures AnswerTo(streamStdin, c, ok) == Accepted <==>
            match c case Write(bytes, _) => streamStdin && (bytes == [] || ok) case Resize(_, _) => ok case Terminate => true
    ensures OpsFor(streamStdin, c, ok) == if AnswerTo(streamStdin, c, ok) == Accepted then Asked(c) else []
  {
  }

  lemma AskedMore(requests: seq<Control>, answers: seq<(nat, Answer)>, a: (nat, Answer))
    requires |answers| < |requests|
    ensures AllAsked(requests, answers + [a]) ==
            AllAsked(requests, answers) + if a.1.Accepted? then Asked(requests[|answers|]) else []
  {
    assert (answers + [a])[..|answers|] == answers;
  }

  lemma {:induction false} AskedGrows(requests: seq<Control>, more: seq<Control>, answers: seq<(nat, Answer)>)
    requires |answers| <= |requests|
    ensures AllAsked(requests + more, answers) == AllAsked(requests, answers)
    decreases |answers|
  {
    if answers != [] { AskedGrows(requests, more, answers[..|answers| - 1]); }
  }

  ghost predicate OpsInv(c: Controls) {
    |c.answers| <= |c.requests| && InputOps(c.ops) == InputOps(AllAsked(c.requests, c.answers))
  }

  lemma TakenOps(s: State, ok: bool)
    requires OpsInv(s.controls) && Waiting(s.controls)
    ensures OpsInv(Taken(s, ok))
  {
    var c := s.controls;
    var control := c.requests[|c.answers|];
    var done := OpsFor(s.streamStdin, control, ok);
    AcceptedExactly(s.streamStdin, control, ok);
    AskedMore(c.requests, c.answers, (|c.answers|, AnswerTo(s.streamStdin, control, ok)));
    InputOpsMore(c.ops, done);
    InputOpsMore(AllAsked(c.requests, c.answers), done);
  }

  lemma {:induction false} DroppedOps(c: Controls)
    requires OpsInv(c)
    ensures OpsInv(Dropped(c))
    decreases |c.requests| - |c.answers|
  {
    if Waiting(c) {
      var gone := (|c.answers|, NoLongerRunning);
      AskedMore(c.requests, c.answers, gone);
      assert AllAsked(c.requests, c.answers) + [] == AllAsked(c.requests, c.answers);
      DroppedOps(c.(answers := c.answers + [gone]));
    }
  }

  lemma TerminateOps(c: Controls, open: bool)
    requires OpsInv(c)
    ensures OpsInv(WithTerminate(c.(open := open)))
  {
    InputOpsOne(c.ops, RequestTerminate);
    assert InputOps(c.ops) + [] == InputOps(c.ops);
  }

  lemma SendOps(c: Controls, control: Control)
    requires OpsInv(c)
    ensures OpsInv(c.(requests := c.requests + [control])) && OpsInv(Dropped(c.(requests := c.requests + [control])))
  {
    AskedGrows(c.requests, [control], c.answers);
    DroppedOps(c.(requests := c.requests + [control]));
  }

  lemma NextOps(s: State, step: Step)
    requires OpsInv(s.controls)
    ensures OpsInv(Next(s, step).controls)
  {
    match step
    case SendControl(control) => SendOps(s.controls, control);
    case TakeControl(ok) => if Waiting(s.controls) { TakenOps(s, ok); }
    case SeeControlClosed => TerminateOps(s.controls, false);
    case Expire(_) => TerminateOps(s.controls, s.controls.open);
    case DropControls => DroppedOps(s.controls);
    case _ =>
  }

  lemma {:induction false} RunOps(s: State, steps: seq<Step>)
    requires OpsInv(s.controls)
    ensures OpsInv(Run(s, steps).controls)
    decreases |steps|
  {
    if steps != [] { NextOps(s, steps[0]); RunOps(Next(s, steps[0]), steps[1..]); }
  }

  /**
    MAIN: in every run, the bytes written to the process, the closing of its input and the sizes set
    are those of the requests that were accepted, in the order of the requests.
   */
  lemma InputIsWhatWasAsked(streamStdin: bool, output: Config, steps: seq<Step>)
    ensures var c := Run(Start(streamStdin, output), steps).controls;
            |c.answers| <= |c.requests| && InputOps(c.ops) == InputOps(AllAsked(c.requests, c.answers))
  {
    RunOps(Start(streamStdin, output), steps);
  }

  /** MAIN: in every run the loop takes the oldest request, and accepts it exactly when it can be carried out. */
  lemma OldestIsTaken(streamStdin: bool, output: Config, steps: seq<Step>, ok: bool)
    requires var s := Run(Start(streamStdin, output), steps); s.phase.Looping? && s.controls.open && Waiting(s.controls)
    ensures var s := Run(Start(streamStdin, output), steps);
            var c, d := s.controls, Next(s, TakeControl(ok)).controls;
            var request := c.requests[|c.answers|];
            var can := match request
                       case Write(bytes, _) => streamStdin && (bytes == [] || ok)
                       case Resize(_, _) => ok
                       case Terminate => true;
            && d.requests == c.requests && |d.answers| == |c.answers| + 1 && d.answers[..|c.answers|] == c.answers
            && (d.answers[|c.answers|].1 == Accepted <==> can)
            && d.ops == c.ops + if can then Asked(request) else []
  {
    var s := Run(Start(streamStdin, output), steps);
    StdinNeverChanges(Start(streamStdin, output), steps);
    AcceptedExactly(streamStdin, s.controls.requests[|s.controls.answers|], ok);
  }

  // ---- The command comes to an end ----

  lemma {:induction false} RunAppend(s: State, a: seq<Step>, b: seq<Step>)
    ensures Run(s, a + b) == Run(Run(s, a), b)
    decreases |a|
  {
    if a == [] {
      assert a + b == b;
    } else {
      assert (a + b)[0] == a[0] && (a + b)[1..] == a[1..] + b;
      RunAppend(Next(s, a[0]), a[1..], b);
    }
  }

  const ENDING: seq<Step> := [PumpEnds(Stdout), PumpEnds(Stderr), SendReply, DropControls]

  lemma EndingRuns(s: State)
    requires !s.phase.Looping? && s.exit.Some?
    ensures Run(s, ENDING).phase.Over?
  {
    assert ENDING[1..] == [PumpEnds(Stderr), SendReply, DropControls];
    assert ENDING[1..][1..] == [SendReply, DropControls];
    assert ENDING[1..][1..][1..] == [DropControls];
    var a := Next(s, PumpEnds(Stdout));
    var b := Next(a, PumpEnds(Stderr));
    var c := Next(b, SendReply);
    assert c.phase.Replied? || c.phase.Over?;
    assert Run(c, [DropControls]) == Next(c, DropControls);
    assert Run(b, [SendReply, DropControls]) == Next(c, DropControls);
    assert Run(a, [PumpEnds(Stderr), SendReply, DropControls]) == Next(c, DropControls);
  }

  /**
    MAIN: whatever has happened, once the process has exited nothing stands in the way of the end: when
    the pumps have ended the reply goes out, and every control request ever sent is answered once.
   */
  lemma EndsWithReply(streamStdin: bool, output: Config, steps: seq<Step>)
    requires FirstExit(steps).Some?
    ensures var s := Run(Start(streamStdin, output), steps + ENDING);
            && s.log != [] && s.log[|s.log| - 1].Reply?
            && forall r: nat | r < |s.controls.requests| :: AnsweredOnce(s.controls, r)
  {
    var start := Start(streamStdin, output);
    ExitCodeOf(streamStdin, output, steps);
    RunInv(start, steps);
    EndingRuns(Run(start, steps));
    RunAppend(start, steps, ENDING);
    RunInv(start, steps + ENDING);
    ControlsAnsweredOnce(streamStdin, output, steps + ENDING);
  }

  /** What a stream hands over while its pump is at work is read whole, and the other stream is left alone. */
  lemma PumpReads(s: State, stream: Stream, batch: seq<Bytes>)
    requires batch != [] && Active(PumpOf(s, stream))
    ensures var t := Next(s, PumpTurns(stream, batch));
            && PumpOf(t, stream).progress.data == PumpOf(s, stream).progress.data + Flat(batch)
            && !PumpOf(t, stream).ended
            && (if stream.Stdout? then t.stderr == s.stderr else t.stdout == s.stdout)
  {
  }

  // ---- The running command ----

  /** What runs the command; each method is one arm of its select, or what follows the loop. */
  class RunningCommand {
    const streamStdin: bool
    const output: Config
    var phase: Phase
    var requests: seq<Control>
    var answers: seq<(nat, Answer)>
    var controlOpen: bool
    var sendersGone: bool
    var ops: seq<Op>
    var expiry: Option<Expiry>
    var exit: Option<int>
    var stdout: Pumping
    var stderr: Pumping
    var log: seq<Out>

    ghost function Channel(): Controls reads this { Controls(requests, answers, controlOpen, sendersGone, ops) }

    ghost function Abs(): State
      reads this
    {
      State(streamStdin, output, phase, Channel(), expiry, exit, stdout, stderr, log)
    }

    constructor (streamStdin: bool, output: Config)
      ensures Abs() == Start(streamStdin, output)
    {
      this.streamStdin := streamStdin;
      this.output := output;
      phase, requests, answers, controlOpen, sendersGone, ops := Looping, [], [], true, false, [];
      expiry, exit, stdout, stderr, log := None, None, FRESH, FRESH, [];
    }

    method HandleWrite(delta: Bytes, closeStdin: bool, ok: bool) returns (a: Answer)
      modifies `ops
      ensures a == AnswerTo(streamStdin, Write(delta, closeStdin), ok)
      ensures ops == old(ops) + OpsFor(streamStdin, Write(delta, closeStdin), ok)
    {
      if !streamStdin { return StdinNotEnabled; }
      if delta != [] {
        if !ok { return StdinClosed; }
        ops := ops + [WriteStdin(delta)];
      }
      if closeStdin { ops := ops + [CloseStdin]; }
      a := Accepted;
    }

    method HandleControl(ok: bool)
      requires phase.Looping? && controlOpen && Waiting(Channel())
      modifies `ops, `answers
      ensures Abs() == Next(old(Abs()), TakeControl(ok))
    {
      var a: Answer;
      match requests[|answers|] {
        case Write(delta, closeStdin) => a := HandleWrite(delta, closeStdin, ok);
        case Resize(rows, cols) =>
          a := if ok then Accepted else ResizeFailed;
          if ok { ops := ops + [ResizeTo(rows, cols)]; }
        case Terminate =>
          ops := ops + [RequestTerminate];
          a := Accepted;
      }
      answers := answers + [(|answers|, a)];
    }

    method HandleControlClosed()
      requires phase.Looping? && controlOpen && sendersGone && !Waiting(Channel())
      modifies `controlOpen, `ops
      ensures Abs() == Next(old(Abs()), SeeControlClosed)
    {
      controlOpen := false;
      ops := ops + [RequestTerminate];
    }

    method HandleExpiration(outcome: Expiry)
      requires phase.Looping? && expiry.None?
      modifies `expiry, `ops
      ensures Abs() == Next(old(Abs()), Expire(outcome))
    {
      expiry := Some(outcome);
      ops := ops + [RequestTerminate];
    }

    method HandleExit(code: Option<int>)
      requires phase.Looping?
      modifies `phase, `exit
      ensures Abs() == Next(old(Abs()), Exit(code))
    {
      phase := Draining;
      exit := Some(if expiry == Some(TimedOut) then EXEC_TIMEOUT_EXIT_CODE else match code case Some(n) => n case None => -1);
    }

    /** Both pumps have been awaited: the reply goes out. */
    method Finish()
      requires phase.Draining? && exit.Some? && stdout.ended && stderr.ended
      modifies `phase, `log
      ensures Abs() == Next(old(Abs()), SendReply)
    {
      phase := Replied;
      log := log + [Reply(exit.value, stdout.progress.buffer, stderr.progress.buffer)];
    }

    /** The task ends and its control channel goes away with everything still queued. */
    method DropControlChannel()
      requires phase.Replied?
      modifies `phase, `answers
      ensures Abs() == Next(old(Abs()), DropControls)
    {
      phase := Over;
      ghost var goal := Dropped(Channel());
      while |answers| < |requests|
        invariant phase == Over && Dropped(Channel()) == goal
        decreases |requests| - |answers|
      {
        answers := answers + [(|answers|, NoLongerRunning)];
      }
    }
  }
}
