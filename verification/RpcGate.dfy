/**
  The per-connection gate in front of the RPC handlers: a flag behind a mutex and a
  tracker that counts the handlers that got past it.
 */
module RpcGate {
  datatype Gate = Gate(accepting: bool, closed: bool, tokens: nat)

  /** A caller of `run`: waiting for the mutex, turned away, inside its handler, or past it. */
  datatype Handler = Queued | Refused | Running | Done

  /** A caller of `shutdown`: waiting for the mutex, waiting for the tracker, or back. */
  datatype Shutdown = Asked | Draining | Returned

  datatype State = State(gate: Gate, handlers: seq<Handler>, shutdowns: seq<Shutdown>)

  const Init: State := State(Gate(true, false, 0), [], [])

  datatype Step =
    | CallRun
    | Enter(h: nat)
    | Finish(h: nat)
    | CallShutdown
    | Close(i: nat)
    | Return(i: nat)

  /** The tracker lets its waiters go once it is closed and no token is out. */
  predicate Drained(g: Gate) { g.closed && g.tokens == 0 }

  function Entered(g: Gate): Gate { if g.accepting then g.(tokens := g.tokens + 1) else g }

  function Left(g: Gate): Gate { if g.tokens == 0 then g else g.(tokens := g.tokens - 1) }

  function Closed(g: Gate): Gate { g.(accepting := false, closed := true) }

  predicate Has<T(==)>(s: seq<T>, i: nat, x: T) { i < |s| && s[i] == x }

  /** A step that is not enabled changes nothing. */
  function Next(s: State, step: Step): State {
    match step
    case CallRun => s.(handlers := s.handlers + [Queued])
    case Enter(h) =>
      if !Has(s.handlers, h, Queued) then s
      else s.(gate := Entered(s.gate), handlers := s.handlers[h := if s.gate.accepting then Running else Refused])
    case Finish(h) =>
      if !Has(s.handlers, h, Running) then s else s.(gate := Left(s.gate), handlers := s.handlers[h := Done])
    case CallShutdown => s.(shutdowns := s.shutdowns + [Asked])
    case Close(i) =>
      if !Has(s.shutdowns, i, Asked) then s else s.(gate := Closed(s.gate), shutdowns := s.shutdowns[i := Draining])
    case Return(i) =>
      if !Has(s.shutdowns, i, Draining) || !Drained(s.gate) then s else s.(shutdowns := s.shutdowns[i := Returned])
  }

  function Run(s: State, steps: seq<Step>): State
    decreases |steps|
  {
    if steps == [] then s else Run(Next(s, steps[0]), steps[1..])
  }

  // ---- The tokens are the running handlers ----

  function InFlight(handlers: seq<Handler>): nat {
    if handlers == [] then 0
    else InFlight(handlers[..|handlers| - 1]) + if handlers[|handlers| - 1].Running? then 1 else 0
  }

  function One(h: Handler): nat { if h.Running? then 1 else 0 }

  lemma {:induction false} InFlightUpdate(handlers: seq<Handler>, i: nat, h: Handler)
    requires i < |handlers|
    ensures InFlight(handlers[i := h]) == InFlight(handlers) - One(handlers[i]) + One(h)
    ensures One(handlers[i]) <= InFlight(handlers)
  {
    var n := |handlers| - 1;
    if i < n {
      InFlightUpdate(handlers[..n], i, h);
      assert handlers[i := h][..n] == handlers[..n][i := h];
    } else {
      assert handlers[i := h][..n] == handlers[..n];
    }
  }

  lemma InFlightMore(handlers: seq<Handler>, h: Handler)
    ensures InFlight(handlers + [h]) == InFlight(handlers) + One(h)
  {
    assert (handlers + [h])[..|handlers|] == handlers;
  }

  ghost predicate Inv(s: State) {
    && s.gate.tokens == InFlight(s.handlers)
    && s.gate.closed == !s.gate.accepting
    && (forall i | 0 <= i < |s.shutdowns| :: s.shutdowns[i] != Asked ==> !s.gate.accepting)
    && (forall i | 0 <= i < |s.shutdowns| :: s.shutdowns[i] == Returned ==> s.gate.tokens == 0)
  }

  lemma NextInv(s: State, step: Step)
    requires Inv(s)
    ensures Inv(Next(s, step))
  {
    match step
    case CallRun => InFlightMore(s.handlers, Queued);
    case Enter(h) =>
      if Has(s.handlers, h, Queued) { InFlightUpdate(s.handlers, h, if s.gate.accepting then Running else Refused); }
    case Finish(h) => if Has(s.handlers, h, Running) { InFlightUpdate(s.handlers, h, Done); }
    case _ =>
  }

  lemma {:induction false} RunInv(s: State, steps: seq<Step>)
    requires Inv(s)
    ensures Inv(Run(s, steps))
    decreases |steps|
  {
    if steps != [] { NextInv(s, steps[0]); RunInv(Next(s, steps[0]), steps[1..]); }
  }

  // ---- After closing ----

  predicate Started(s: State, h: nat) { h < |s.handlers| && (s.handlers[h].Running? || s.handlers[h].Done?) }

  ghost predicate Quieter(s: State, t: State) {
    && !t.gate.accepting
    && t.gate.tokens <= s.gate.tokens
    && forall h: nat | Started(t, h) :: Started(s, h)
  }

  lemma ClosedStep(s: State, step: Step)
    requires !s.gate.accepting
    ensures Quieter(s, Next(s, step))
  {
  }

  lemma QuieterTrans(s: State, t: State, u: State)
    requires Quieter(s, t) && Quieter(t, u)
    ensures Quieter(s, u)
  {
  }

  /** From a closed gate no handler starts and the number in flight only falls. */
  lemma {:induction false} NothingStartsAfterClose(s: State, steps: seq<Step>)
    requires Inv(s) && !s.gate.accepting
    ensures Quieter(s, Run(s, steps)) && InFlight(Run(s, steps).handlers) <= InFlight(s.handlers)
    decreases |steps|
  {
    RunInv(s, steps);
    if steps != [] {
      var n := Next(s, steps[0]);
      NextInv(s, steps[0]);
      ClosedStep(s, steps[0]);
      NothingStartsAfterClose(n, steps[1..]);
      QuieterTrans(s, n, Run(n, steps[1..]));
    }
  }

  lemma {:induction false} NoneInFlight(handlers: seq<Handler>, h: nat)
    requires InFlight(handlers) == 0 && h < |handlers|
    ensures !handlers[h].Running?
  {
    var n := |handlers| - 1;
    if h < n { NoneInFlight(handlers[..n], h); }
  }

  lemma {:induction false} RunSplits(s: State, a: seq<Step>, b: seq<Step>)
    ensures Run(s, a + b) == Run(Run(s, a), b)
    decreases |a|
  {
    if a == [] {
      assert a + b == b;
    } else {
      assert (a + b)[1..] == a[1..] + b;
      RunSplits(Next(s, a[0]), a[1..], b);
    }
  }

  /**
    MAIN: when any call of `shutdown` has returned, no handler is running, and however
    the run goes on none ever starts; what had started by then had finished.
   */
  lemma ShutdownIsFinal(steps: seq<Step>, more: seq<Step>, i: nat)
    requires Has(Run(Init, steps).shutdowns, i, Returned)
    ensures var s, t := Run(Init, steps), Run(Init, steps + more);
            && (forall h | 0 <= h < |t.handlers| :: !t.handlers[h].Running?)
            && (forall h: nat | Started(t, h) :: h < |s.handlers| && s.handlers[h].Done?)
  {
    var s := Run(Init, steps);
    RunInv(Init, steps);
    RunInv(s, more);
    RunSplits(Init, steps, more);
    NothingStartsAfterClose(s, more);
    var t := Run(Init, steps + more);
    forall h | 0 <= h < |t.handlers| ensures !t.handlers[h].Running? { NoneInFlight(t.handlers, h); }
    forall h: nat | Started(t, h) ensures h < |s.handlers| && s.handlers[h].Done? { NoneInFlight(s.handlers, h); }
  }

  /** MAIN: a shutdown can return exactly when it has closed the gate and no handler is in flight. */
  lemma ReturnsExactlyWhenQuiet(steps: seq<Step>, i: nat)
    ensures var s := Run(Init, steps);
            Has(s.shutdowns, i, Draining) ==>
              (Has(Next(s, Return(i)).shutdowns, i, Returned) <==> forall h | 0 <= h < |s.handlers| :: !s.handlers[h].Running?)
  {
    var s := Run(Init, steps);
    RunInv(Init, steps);
    if InFlight(s.handlers) == 0 {
      forall h | 0 <= h < |s.handlers| ensures !s.handlers[h].Running? { NoneInFlight(s.handlers, h); }
    } else {
      SomeInFlight(s.handlers);
    }
  }

  lemma {:induction false} SomeInFlight(handlers: seq<Handler>)
    requires InFlight(handlers) != 0
    ensures exists h | 0 <= h < |handlers| :: handlers[h].Running?
  {
    var n := |handlers| - 1;
    if !handlers[n].Running? { SomeInFlight(handlers[..n]); }
  }

  /** The object the connection holds; its mutex makes each method one step. */
  class ConnectionRpcGate {
    var accepting: bool
    var closed: bool
    var tokens: nat

    ghost function Abs(): Gate reads this { Gate(accepting, closed, tokens) }

    constructor ()
      ensures Abs() == Init.gate
    {
      accepting, closed, tokens := true, false, 0;
    }

    /** The start of `run`: a token, or nothing. */
    method AcquireToken() returns (granted: bool)
      modifies this
      ensures granted == old(accepting) && Abs() == Entered(old(Abs()))
    {
      granted := accepting;
      if granted { tokens := tokens + 1; }
    }

    /** The end of `run`. */
    method DropToken()
      requires 0 < tokens
      modifies this
      ensures Abs() == Left(old(Abs()))
    {
      tokens := tokens - 1;
    }

    /** The locked part of `shutdown`. */
    method StopAccepting()
      modifies this
      ensures Abs() == Closed(old(Abs()))
    {
      accepting := false;
      closed := true;
    }
  }

  // ---- Who is let in ----

  /** A shutdown has got hold of the gate. */
  ghost predicate Shut(s: State) { exists i | 0 <= i < |s.shutdowns| :: s.shutdowns[i] != Asked }

  lemma ShutStep(s: State, step: Step)
    requires s.gate.accepting <==> !Shut(s)
    ensures Next(s, step).gate.accepting <==> !Shut(Next(s, step))
  {
    var t := Next(s, step);
    if Shut(s) && |t.shutdowns| >= |s.shutdowns| {
      var i :| 0 <= i < |s.shutdowns| && s.shutdowns[i] != Asked;
      assert t.shutdowns[i] != Asked;
    }
    if step.Close? && Has(s.shutdowns, step.i, Asked) { assert t.shutdowns[step.i] != Asked; }
  }

  lemma {:induction false} RunShut(s: State, steps: seq<Step>)
    requires s.gate.accepting <==> !Shut(s)
    ensures Run(s, steps).gate.accepting <==> !Shut(Run(s, steps))
    decreases |steps|
  {
    if steps != [] { ShutStep(s, steps[0]); RunShut(Next(s, steps[0]), steps[1..]); }
  }

  /** MAIN: in every run a waiting handler that reaches the gate runs if and only if no shutdown has got there first. */
  lemma EntersExactlyWhen(steps: seq<Step>, h: nat)
    requires Has(Run(Init, steps).handlers, h, Queued)
    ensures var s := Run(Init, steps);
            Next(s, Enter(h)).handlers == s.handlers[h := if Shut(s) then Refused else Running]
  {
    RunShut(Init, steps);
  }

  /** A running handler that finishes leaves one fewer in flight. */
  lemma FinishLeaves(steps: seq<Step>, h: nat)
    requires Has(Run(Init, steps).handlers, h, Running)
    ensures var s, t := Run(Init, steps), Next(Run(Init, steps), Finish(h));
            t.handlers == s.handlers[h := Done] && InFlight(t.handlers) == InFlight(s.handlers) - 1 && t.gate.tokens == InFlight(t.handlers)
  {
    RunInv(Init, steps);
    NextInv(Run(Init, steps), Finish(h));
    InFlightUpdate(Run(Init, steps).handlers, h, Done);
  }
}
