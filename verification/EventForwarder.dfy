/**
  The in-process client's event forwarder: a bounded queue to the consumer, a lossless
  tier that waits for room, a best-effort tier that is dropped and counted, and lag
  markers that say how many events were dropped.
 */
module EventForwarder {
  import opened Text

  // ---- Events ----

  datatype Notification =
    | TurnCompleted(id: nat)
    | ItemCompleted(id: nat)
    | AgentMessageDelta(id: nat)
    | PlanDelta(id: nat)
    | ReasoningSummaryTextDelta(id: nat)
    | ReasoningTextDelta(id: nat)
    | OtherNotification(id: nat)

  datatype ServerRequest = ChatgptAuthTokensRefresh(id: nat) | OtherRequest(id: nat)

  datatype Event =
    | Lagged(count: nat)
    | Notify(notification: Notification)
    | Request(request: ServerRequest)

  /** The lossless tier. */
  predicate RequiresDelivery(e: Event) {
    match e
    case Notify(n) => !n.OtherNotification?
    case _ => false
  }

  const UNSUPPORTED_CODE: int := -32000
  const OVERLOADED_CODE: int := -32001

  datatype Rejection = Rejection(request: ServerRequest, code: int)

  /** An enqueued entry: an event taken from the server, or a marker made here. */
  datatype Item = Input(index: nat, event: Event) | Marker(count: nat)

  function AsEvent(item: Item): Event {
    match item
    case Input(_, e) => e
    case Marker(n) => Lagged(n)
  }

  const USIZE_MAX: nat := 0xffff_ffff_ffff_ffff

  function SaturatingSucc(n: nat): nat { if n >= USIZE_MAX then USIZE_MAX else n + 1 }

  // ---- State ----

  /** Where the forwarder stands with the event it has taken: a lag marker to send first, or the event itself. */
  datatype Phase = Idle | Flushing(event: Event) | Sending(event: Event)

  /** The last five record the run; the code itself keeps none of them. */
  datatype State = State(
    capacity: nat, queue: seq<Event>, closed: bool,
    enabled: bool, skipped: nat, phase: Phase,
    handled: seq<Event>, inputs: seq<Event>, sent: seq<Item>, rejected: seq<Rejection>, received: seq<Event>)

  function Init(capacity: nat): State {
    State(if capacity == 0 then 1 else capacity, [], false, true, 0, Idle, [], [], [], [], [])
  }

  function Disabled(s: State): State { s.(enabled := false, phase := Idle) }

  predicate Full(s: State) { |s.queue| >= s.capacity }

  function Pushed(s: State, item: Item): State {
    s.(queue := s.queue + [AsEvent(item)], sent := s.sent + [item])
  }

  function Dropped(s: State, e: Event): State {
    s.(skipped := SaturatingSucc(s.skipped), phase := Idle,
       rejected := if e.Request? then s.rejected + [Rejection(e.request, OVERLOADED_CODE)] else s.rejected)
  }

  function Flushed(s: State): State { Pushed(s, Marker(s.skipped)).(skipped := 0) }

  /** The index of the event being forwarded. */
  function Current(s: State): nat { if s.inputs == [] then 0 else |s.inputs| - 1 }

  /** The worker takes an event from the server; token refreshes are refused at once. */
  function Taken(s: State, e: Event): State {
    if !s.enabled || !s.phase.Idle? then s
    else
      var t := s.(handled := s.handled + [e]);
      if e.Request? && e.request.ChatgptAuthTokensRefresh?
      then t.(rejected := t.rejected + [Rejection(e.request, UNSUPPORTED_CODE)])
      else t.(inputs := t.inputs + [e], phase := if s.skipped > 0 then Flushing(e) else Sending(e))
  }

  /** A full queue: the lossless tier waits, the rest is dropped. */
  function Blocked(s: State, e: Event): State { if RequiresDelivery(e) then s else Dropped(s, e) }

  /** One attempt on the queue. The consumer may run between any two of them. */
  function Polled(s: State): State {
    if s.phase.Idle? then s
    else if s.closed then Disabled(s)
    else if Full(s) then Blocked(s, s.phase.event)
    else
      match s.phase
      case Flushing(e) => Flushed(s).(phase := Sending(e))
      case Sending(e) => Pushed(s, Input(Current(s), e)).(phase := Idle)
  }

  /** The consumer takes the oldest entry. */
  function Received(s: State): State {
    if s.closed || s.queue == [] then s else s.(queue := s.queue[1..], received := s.received + [s.queue[0]])
  }

  datatype Step = Take(event: Event) | Poll | Receive | Close

  function Next(s: State, step: Step): State {
    match step
    case Take(e) => Taken(s, e)
    case Poll => Polled(s)
    case Receive => Received(s)
    case Close => s.(closed := true)
  }

  /** Any interleaving of producer, scheduler and consumer. */
  function Run(s: State, steps: seq<Step>): State
    decreases |steps|
  {
    if steps == [] then s else Run(Next(s, steps[0]), steps[1..])
  }

  // ---- The code ----

  class Forwarder {
    const capacity: nat
    var queue: seq<Event>
    var closed: bool
    var enabled: bool
    var skipped: nat
    var phase: Phase
    ghost var handled: seq<Event>
    ghost var inputs: seq<Event>
    ghost var sent: seq<Item>
    ghost var rejected: seq<Rejection>
    ghost var received: seq<Event>

    ghost function Abs(): State
      reads this
    {
      State(capacity, queue, closed, enabled, skipped, phase, handled, inputs, sent, rejected, received)
    }

    constructor (channelCapacity: nat)
      ensures Abs() == Init(channelCapacity)
    {
      capacity := if channelCapacity == 0 then 1 else channelCapacity;
      queue, closed, enabled, skipped, phase := [], false, true, 0, Idle;
      handled, inputs, sent, rejected, received := [], [], [], [], [];
    }

    method Push(ghost item: Item, event: Event)
      requires event == AsEvent(item)
      modifies this`queue, this`sent
      ensures Abs() == Pushed(old(Abs()), item)
    {
      queue := queue + [event];
      sent := sent + [item];
    }

    method Drop(event: Event)
      modifies this`skipped, this`phase, this`rejected
      ensures Abs() == Dropped(old(Abs()), event)
    {
      skipped := if skipped >= USIZE_MAX then USIZE_MAX else skipped + 1;
      phase := Idle;
      if event.Request? { rejected := rejected + [Rejection(event.request, OVERLOADED_CODE)]; }
    }

    method FlushMarker()
      modifies this`queue, this`sent, this`skipped
      ensures Abs() == Flushed(old(Abs()))
    {
      Push(Marker(skipped), Lagged(skipped));
      skipped := 0;
    }

    method TakeEvent(event: Event)
      requires enabled && phase.Idle?
      modifies this
      ensures Abs() == Taken(old(Abs()), event)
    {
      handled := handled + [event];
      if event.Request? && event.request.ChatgptAuthTokensRefresh? {
        rejected := rejected + [Rejection(event.request, UNSUPPORTED_CODE)];
        return;
      }
      inputs := inputs + [event];
      phase := if skipped > 0 then Flushing(event) else Sending(event);
    }

    /** The next attempt on the queue: `send` for the lossless tier, `try_send` for the rest. */
    method Forward()
      modifies this
      ensures Abs() == Polled(old(Abs()))
    {
      if phase.Idle? { return; }
      var event := phase.event;
      if closed {
        enabled, phase := false, Idle;
      } else if |queue| >= capacity {
        if !RequiresDelivery(event) { Drop(event); }
      } else if phase.Flushing? {
        FlushMarker();
        phase := Sending(event);
      } else {
        Push(Input(Current(Abs()), event), event);
        phase := Idle;
      }
    }

    method NextEvent() returns (event: Option<Event>)
      modifies this`queue, this`received
      ensures Abs() == Received(old(Abs()))
      ensures event == if old(closed) || old(queue) == [] then None else Some(old(queue)[0])
    {
      if closed || queue == [] { return None; }
      event := Some(queue[0]);
      received := received + [queue[0]];
      queue := queue[1..];
    }
  }

  // ---- Counting ----

  function Weight(item: Item): nat {
    match item case Input(_, _) => 1 case Marker(n) => n
  }

  function Total(items: seq<Item>): nat {
    if items == [] then 0 else Total(items[..|items| - 1]) + Weight(items[|items| - 1])
  }

  /** Each enqueued event sits at the position the entries before it add up to. */
  ghost predicate Positioned(inputs: seq<Event>, sent: seq<Item>) {
    forall k | 0 <= k < |sent| && sent[k].Input? ::
      sent[k].index == Total(sent[..k]) && sent[k].index < |inputs| && inputs[sent[k].index] == sent[k].event
  }

  function Waiting(phase: Phase): seq<Event> {
    match phase case Idle => [] case Flushing(e) => [e] case Sending(e) => [e]
  }

  /** The notifications a consumer cannot do without: completions, and the text of messages, plans and reasoning. */
  predicate MustArrive(e: Event) {
    e.Notify? && (e.notification.TurnCompleted? || e.notification.ItemCompleted? || e.notification.AgentMessageDelta?
                  || e.notification.PlanDelta? || e.notification.ReasoningSummaryTextDelta? || e.notification.ReasoningTextDelta?)
  }

  /** The must-deliver events of a list, in order. */
  function Lossless(es: seq<Event>): seq<Event> {
    if es == [] then []
    else Lossless(es[..|es| - 1]) + if MustArrive(es[|es| - 1]) then [es[|es| - 1]] else []
  }

  function SentEvents(items: seq<Item>): seq<Event> {
    if items == [] then []
    else
      var last := items[|items| - 1];
      SentEvents(items[..|items| - 1]) + if last.Input? then [last.event] else []
  }

  function Requests(es: seq<Event>): multiset<ServerRequest> {
    if es == [] then multiset{}
    else
      var last := es[|es| - 1];
      Requests(es[..|es| - 1]) + if last.Request? then multiset{last.request} else multiset{}
  }

  function Refused(rs: seq<Rejection>): multiset<ServerRequest> {
    if rs == [] then multiset{} else Refused(rs[..|rs| - 1]) + multiset{rs[|rs| - 1].request}
  }

  function AsEvents(items: seq<Item>): seq<Event> {
    if items == [] then [] else AsEvents(items[..|items| - 1]) + [AsEvent(items[|items| - 1])]
  }

  /** The invariant of every run whose stream is enabled and whose counter cannot saturate. */
  ghost predicate Inv(s: State) {
    && Placed(s.phase, s.skipped, s.inputs, s.sent)
    && Balanced(s.phase, s.handled, s.sent, s.rejected)
    && RefreshesRefused(s.inputs, s.rejected)
    && Queued(s)
  }

  /** Every input is enqueued at its position, counted as lag, or waiting; the lossless ones are not counted as lag. */
  ghost predicate Placed(phase: Phase, skipped: nat, inputs: seq<Event>, sent: seq<Item>) {
    && (phase.Flushing? ==> skipped > 0)
    && (phase.Sending? ==> skipped == 0)
    && (!phase.Idle? ==> inputs != [] && inputs[|inputs| - 1] == phase.event)
    && |inputs| == Total(sent) + skipped + |Waiting(phase)|
    && Positioned(inputs, sent)
    && Lossless(SentEvents(sent)) + Lossless(Waiting(phase)) == Lossless(inputs)
  }

  /** Every request handled is enqueued, refused or waiting. */
  ghost predicate Balanced(phase: Phase, handled: seq<Event>, sent: seq<Item>, rejected: seq<Rejection>) {
    Requests(handled) == Requests(SentEvents(sent)) + Refused(rejected) + Requests(Waiting(phase))
  }

  /** Token refreshes are refused with their own code and are never forwarded. */
  ghost predicate RefreshesRefused(inputs: seq<Event>, rejected: seq<Rejection>) {
    && (forall i | 0 <= i < |inputs| && inputs[i].Request? :: !inputs[i].request.ChatgptAuthTokensRefresh?)
    && (forall i | 0 <= i < |rejected| ::
          rejected[i].code == if rejected[i].request.ChatgptAuthTokensRefresh? then UNSUPPORTED_CODE else OVERLOADED_CODE)
  }

  /** The queue is what has been sent and not yet received, within its capacity. */
  ghost predicate Queued(s: State) {
    |s.queue| <= s.capacity && AsEvents(s.sent) == s.received + s.queue
  }

  // ---- One more entry ----

  lemma MoreSent(sent: seq<Item>, item: Item)
    ensures Total(sent + [item]) == Total(sent) + Weight(item)
    ensures SentEvents(sent + [item]) == SentEvents(sent) + if item.Input? then [item.event] else []
    ensures AsEvents(sent + [item]) == AsEvents(sent) + [AsEvent(item)]
  {
    assert (sent + [item])[..|sent|] == sent;
  }

  lemma MoreEvents(es: seq<Event>, e: Event)
    ensures Lossless(es + [e]) == Lossless(es) + if RequiresDelivery(e) then [e] else []
    ensures Requests(es + [e]) == Requests(es) + if e.Request? then multiset{e.request} else multiset{}
  {
    assert (es + [e])[..|es|] == es;
  }

  lemma MoreRefused(rs: seq<Rejection>, r: Rejection)
    ensures Refused(rs + [r]) == Refused(rs) + multiset{r.request}
  {
    assert (rs + [r])[..|rs|] == rs;
  }

  lemma PushedQueued(s: State, item: Item)
    requires Queued(s) && !Full(s)
    ensures Queued(Pushed(s, item))
  {
    MoreSent(s.sent, item);
    Regroup(s.received, s.queue, [AsEvent(item)]);
  }

  lemma PositionedMore(inputs: seq<Event>, sent: seq<Item>, item: Item)
    requires Positioned(inputs, sent)
    requires item.Input? ==>
               item.index == Total(sent) && item.index < |inputs| && inputs[item.index] == item.event
    ensures Positioned(inputs, sent + [item])
  {
    var more := sent + [item];
    forall k | 0 <= k < |more| && more[k].Input?
      ensures more[k].index == Total(more[..k]) && more[k].index < |inputs| && inputs[more[k].index] == more[k].event
    {
      if k < |sent| { assert more[..k] == sent[..k]; } else { assert more[..k] == sent; }
    }
  }

  // ---- Each stage keeps the books ----

  lemma PositionedLater(inputs: seq<Event>, sent: seq<Item>, e: Event)
    requires Positioned(inputs, sent)
    ensures Positioned(inputs + [e], sent)
  {
  }

  /** The must-deliver events and requests of one event. */
  lemma OneEvent(e: Event)
    ensures Lossless([e]) == if RequiresDelivery(e) then [e] else []
    ensures Requests([e]) == if e.Request? then multiset{e.request} else multiset{}
  {
    MoreEvents([], e);
    assert [] + [e] == [e];
  }

  lemma TakenPlaced(s: State, e: Event)
    requires Placed(Idle, s.skipped, s.inputs, s.sent)
    ensures Placed(if s.skipped > 0 then Flushing(e) else Sending(e), s.skipped, s.inputs + [e], s.sent)
  {
    OneEvent(e);
    MoreEvents(s.inputs, e);
    PositionedLater(s.inputs, s.sent, e);
    assert Lossless(SentEvents(s.sent)) + [] == Lossless(SentEvents(s.sent));
  }

  lemma TakenBalanced(s: State, e: Event, phase: Phase)
    requires Balanced(Idle, s.handled, s.sent, s.rejected) && Waiting(phase) == [e]
    ensures Balanced(phase, s.handled + [e], s.sent, s.rejected)
  {
    OneEvent(e);
    MoreEvents(s.handled, e);
  }

  lemma FlushedInv(s: State)
    requires Inv(s) && s.phase.Flushing? && !Full(s)
    ensures Inv(Flushed(s).(phase := Sending(s.phase.event)))
  {
    var marker := Marker(s.skipped);
    MoreSent(s.sent, marker);
    PushedQueued(s, marker);
    PositionedMore(s.inputs, s.sent, marker);
    assert SentEvents(s.sent) + [] == SentEvents(s.sent);
  }

  lemma SentPlaced(inputs: seq<Event>, sent: seq<Item>, e: Event, item: Item)
    requires Placed(Sending(e), 0, inputs, sent) && item == Input(|inputs| - 1, e)
    ensures Placed(Idle, 0, inputs, sent + [item])
  {
    MoreSent(sent, item);
    PositionedMore(inputs, sent, item);
    OneEvent(e);
    MoreEvents(SentEvents(sent), e);
    var all := Lossless(SentEvents(sent) + [e]);
    assert all + [] == all;
  }

  lemma SentBalanced(handled: seq<Event>, sent: seq<Item>, rejected: seq<Rejection>, e: Event, item: Item)
    requires Balanced(Sending(e), handled, sent, rejected) && item.Input? && item.event == e
    ensures Balanced(Idle, handled, sent + [item], rejected)
  {
    MoreSent(sent, item);
    OneEvent(e);
    MoreEvents(SentEvents(sent), e);
  }

  lemma SentInv(s: State)
    requires Inv(s) && s.phase.Sending? && !Full(s)
    ensures Inv(Pushed(s, Input(Current(s), s.phase.event)).(phase := Idle))
  {
    var e := s.phase.event;
    var item := Input(Current(s), e);
    PushedQueued(s, item);
    SentPlaced(s.inputs, s.sent, e, item);
    SentBalanced(s.handled, s.sent, s.rejected, e, item);
  }

  lemma RefusedMore(inputs: seq<Event>, rejected: seq<Rejection>, r: Rejection)
    requires RefreshesRefused(inputs, rejected)
    requires r.code == if r.request.ChatgptAuthTokensRefresh? then UNSUPPORTED_CODE else OVERLOADED_CODE
    ensures RefreshesRefused(inputs, rejected + [r])
  {
  }

  lemma DroppedPlaced(phase: Phase, skipped: nat, inputs: seq<Event>, sent: seq<Item>)
    requires Placed(phase, skipped, inputs, sent) && !phase.Idle? && !RequiresDelivery(phase.event)
    ensures Placed(Idle, skipped + 1, inputs, sent)
  {
    OneEvent(phase.event);
    assert Lossless(SentEvents(sent)) + [] == Lossless(SentEvents(sent));
  }

  /** A request that was waiting is refused instead. */
  lemma DroppedBalanced(phase: Phase, handled: seq<Event>, sent: seq<Item>, rejected: seq<Rejection>, code: int)
    requires Balanced(phase, handled, sent, rejected) && !phase.Idle?
    ensures var e := phase.event;
            Balanced(Idle, handled, sent, if e.Request? then rejected + [Rejection(e.request, code)] else rejected)
  {
    OneEvent(phase.event);
    if phase.event.Request? { MoreRefused(rejected, Rejection(phase.event.request, code)); }
  }

  lemma DroppedInv(s: State)
    requires Inv(s) && !s.phase.Idle? && !RequiresDelivery(s.phase.event) && |s.inputs| <= USIZE_MAX
    ensures Inv(Dropped(s, s.phase.event))
  {
    var e := s.phase.event;
    assert s.inputs[|s.inputs| - 1] == e;
    DroppedPlaced(s.phase, s.skipped, s.inputs, s.sent);
    DroppedBalanced(s.phase, s.handled, s.sent, s.rejected, OVERLOADED_CODE);
    if e.Request? { RefusedMore(s.inputs, s.rejected, Rejection(e.request, OVERLOADED_CODE)); }
  }

  lemma RefreshInv(s: State, e: Event)
    requires Inv(s) && s.phase.Idle? && e.Request? && e.request.ChatgptAuthTokensRefresh?
    ensures Inv(s.(handled := s.handled + [e], rejected := s.rejected + [Rejection(e.request, UNSUPPORTED_CODE)]))
  {
    TakenBalanced(s, e, Sending(e));
    RefusedMore(s.inputs, s.rejected, Rejection(e.request, UNSUPPORTED_CODE));
    DroppedBalanced(Sending(e), s.handled + [e], s.sent, s.rejected, UNSUPPORTED_CODE);
  }

  lemma InputsMore(inputs: seq<Event>, rejected: seq<Rejection>, e: Event)
    requires RefreshesRefused(inputs, rejected) && (e.Request? ==> !e.request.ChatgptAuthTokensRefresh?)
    ensures RefreshesRefused(inputs + [e], rejected)
  {
  }

  lemma TakeInv(s: State, e: Event)
    requires Inv(s) && s.enabled && s.phase.Idle?
    ensures Inv(Taken(s, e))
  {
    if e.Request? && e.request.ChatgptAuthTokensRefresh? {
      RefreshInv(s, e);
    } else {
      TakenBalanced(s, e, if s.skipped > 0 then Flushing(e) else Sending(e));
      TakenPlaced(s, e);
      InputsMore(s.inputs, s.rejected, e);
    }
  }

  lemma PollInv(s: State)
    requires Inv(s) && |s.inputs| <= USIZE_MAX && !s.phase.Idle? && !s.closed
    ensures Inv(Polled(s))
  {
    if Full(s) {
      if !RequiresDelivery(s.phase.event) { DroppedInv(s); }
    } else if s.phase.Flushing? {
      FlushedInv(s);
    } else {
      SentInv(s);
    }
  }

  lemma ReceivedQueued(received: seq<Event>, queue: seq<Event>)
    requires queue != []
    ensures received + queue == received + [queue[0]] + queue[1..]
  {
    Regroup(received, [queue[0]], queue[1..]);
    assert queue == [queue[0]] + queue[1..];
  }

  lemma ReceiveInv(s: State)
    requires Inv(s)
    ensures Inv(Received(s))
  {
    if !s.closed && s.queue != [] {
      ReceivedQueued(s.received, s.queue);
      assert Queued(Received(s));
    }
  }

  /** While the stream is enabled and the counter cannot saturate, every step keeps the invariant. */
  lemma NextInv(s: State, step: Step)
    requires Inv(s) && s.enabled
    requires Next(s, step).enabled && |Next(s, step).inputs| <= USIZE_MAX
    ensures Inv(Next(s, step))
  {
    match step
    case Take(e) => if s.phase.Idle? { TakeInv(s, e); }
    case Poll => if !s.phase.Idle? && !s.closed { PollInv(s); }
    case Receive => ReceiveInv(s);
    case Close =>
  }

  /** A disabled stream stays disabled, and the record of inputs only grows. */
  lemma {:induction false} RunMonotone(s: State, steps: seq<Step>)
    ensures Run(s, steps).enabled ==> s.enabled
    ensures |s.inputs| <= |Run(s, steps).inputs|
    decreases |steps|
  {
    if steps != [] { RunMonotone(Next(s, steps[0]), steps[1..]); }
  }

  lemma {:induction false} RunInv(s: State, steps: seq<Step>)
    requires Inv(s) && s.enabled
    ensures Run(s, steps).enabled && |Run(s, steps).inputs| <= USIZE_MAX ==> Inv(Run(s, steps))
    decreases |steps|
  {
    if steps != [] {
      var t := Next(s, steps[0]);
      RunMonotone(t, steps[1..]);
      if t.enabled && |t.inputs| <= USIZE_MAX { NextInv(s, steps[0]); RunInv(t, steps[1..]); }
    }
  }

  // ---- What every run guarantees ----

  /** MAIN: positions can be reconstructed, and nothing goes uncounted. */
  lemma PositionsReconstructible(capacity: nat, steps: seq<Step>)
    ensures var s := Run(Init(capacity), steps);
            s.enabled && |s.inputs| <= USIZE_MAX ==>
              && (forall k | 0 <= k < |s.sent| && s.sent[k].Input? ::
                    s.sent[k].index == Total(s.sent[..k]) && s.sent[k].index < |s.inputs|
                    && s.inputs[s.sent[k].index] == s.sent[k].event)
              && |s.inputs| == Total(s.sent) + s.skipped + |Waiting(s.phase)|
              && AsEvents(s.sent) == s.received + s.queue
  {
    RunInv(Init(capacity), steps);
  }

  /** MAIN: the lossless tier is delivered whole and in order. */
  lemma LosslessDelivered(capacity: nat, steps: seq<Step>)
    ensures var s := Run(Init(capacity), steps);
            s.enabled && |s.inputs| <= USIZE_MAX ==>
              Lossless(SentEvents(s.sent)) + Lossless(Waiting(s.phase)) == Lossless(s.inputs)
  {
    RunInv(Init(capacity), steps);
  }

  /** MAIN: every server request handled is enqueued, rejected or being forwarded, once and in one way only. */
  lemma RequestsAccounted(capacity: nat, steps: seq<Step>)
    ensures var s := Run(Init(capacity), steps);
            s.enabled && |s.inputs| <= USIZE_MAX ==>
              && Requests(s.handled) == Requests(SentEvents(s.sent)) + Refused(s.rejected) + Requests(Waiting(s.phase))
              && (forall r | Requests(s.handled)[r] == 1 ::
                    Requests(SentEvents(s.sent))[r] + Refused(s.rejected)[r] + Requests(Waiting(s.phase))[r] == 1)
              && RefreshesRefused(s.inputs, s.rejected)
  {
    RunInv(Init(capacity), steps);
  }

  // ---- Full queues ----

  /** What an attempt on a full queue does: an event that must arrive waits, any other is dropped and counted. */
  lemma DropsExactlyWhen(s: State, step: Step)
    requires s.skipped < USIZE_MAX
    ensures var t := Next(s, step);
            t.skipped > s.skipped <==>
              step.Poll? && !s.phase.Idle? && !s.closed && |s.queue| >= s.capacity && !MustArrive(s.phase.event)
    ensures var t := Next(s, step);
            t.skipped > s.skipped ==>
              t.skipped == s.skipped + 1 && t.phase.Idle? && t.queue == s.queue && t.sent == s.sent && t.inputs == s.inputs
    ensures var t := Next(s, step);
            step.Poll? && !s.phase.Idle? && !s.closed && |s.queue| >= s.capacity && MustArrive(s.phase.event) ==> t == s
  {
  }

  function Polls(steps: seq<Step>): nat {
    if steps == [] then 0 else (if steps[0].Poll? then 1 else 0) + Polls(steps[1..])
  }

  /** How many attempts an event that need not arrive can still take. */
  function AttemptsLeft(phase: Phase): nat {
    match phase case Idle => 0 case Flushing(_) => 2 case Sending(_) => 1
  }

  ghost predicate Dispensable(phase: Phase) { !phase.Idle? ==> !MustArrive(phase.event) }

  lemma AttemptSpent(s: State, step: Step)
    requires Dispensable(s.phase) && !step.Take?
    ensures var t := Next(s, step);
            Dispensable(t.phase) && AttemptsLeft(t.phase) <= AttemptsLeft(s.phase)
            && (step.Poll? && !s.phase.Idle? ==> AttemptsLeft(t.phase) < AttemptsLeft(s.phase))
  {
  }

  lemma {:induction false} AttemptsEnd(s: State, steps: seq<Step>)
    requires Dispensable(s.phase) && (forall step | step in steps :: !step.Take?) && AttemptsLeft(s.phase) <= Polls(steps)
    ensures Run(s, steps).phase.Idle?
    decreases |steps|
  {
    if steps != [] {
      assert steps[0] in steps;
      AttemptSpent(s, steps[0]);
      AttemptsEnd(Next(s, steps[0]), steps[1..]);
    }
  }

  lemma {:induction false} RunAppend(s: State, a: seq<Step>, b: seq<Step>)
    ensures Run(s, a + b) == Run(Run(s, a), b)
    decreases |a|
  {
    if a == [] {
      assert a + b == b;
    } else {
      assert (a + b)[0] == a[0] && (a + b)[1..] == a[1..] + b;
      RunAppend(Next(s, a[0]), a[1..], b);
    }
  }

  /**
    MAIN: the forwarder never waits for room for an event that need not arrive. In every run, two
    attempts after taking it the forwarder is free again, whatever the consumer does meanwhile.
   */
  lemma BestEffortNeverWaits(capacity: nat, before: seq<Step>, e: Event, during: seq<Step>)
    requires !MustArrive(e) && Run(Init(capacity), before).phase.Idle?
    requires (forall step | step in during :: !step.Take?) && Polls(during) >= 2
    ensures Run(Init(capacity), before + [Take(e)] + during).phase.Idle?
  {
    var s := Run(Init(capacity), before);
    RunAppend(Init(capacity), before + [Take(e)], during);
    RunAppend(Init(capacity), before, [Take(e)]);
    assert [Take(e)][1..] == [];
    assert Run(s, [Take(e)]) == Next(s, Take(e));
    AttemptsEnd(Next(s, Take(e)), during);
  }

  // ---- Room in the queue ----

  lemma ThreeSteps(s: State, a: Step, b: Step, c: Step)
    ensures Run(s, [a, b, c]) == Next(Next(Next(s, a), b), c)
  {
    assert [a, b, c][1..] == [b, c] && [b, c][1..] == [c] && [c][1..] == [];
    assert Run(Next(Next(s, a), b), [c]) == Next(Next(Next(s, a), b), c);
    assert Run(Next(s, a), [b, c]) == Next(Next(Next(s, a), b), c);
  }

  /**
    MAIN: an event taken while there is room is enqueued behind the marker for what was skipped before
    it; a token refresh is refused instead and leaves the queue alone.
   */
  lemma TakenIsSent(capacity: nat, steps: seq<Step>, e: Event)
    requires var s := Run(Init(capacity), steps);
             s.enabled && s.phase.Idle? && !s.closed && |s.queue| + (if s.skipped > 0 then 2 else 1) <= s.capacity
    ensures var s, t := Run(Init(capacity), steps), Run(Init(capacity), steps + [Take(e), Poll, Poll]);
            && t.handled == s.handled + [e] && t.phase.Idle? && t.enabled
            && if e.Request? && e.request.ChatgptAuthTokensRefresh?
               then t.queue == s.queue && t.inputs == s.inputs && t.skipped == s.skipped
                    && t.rejected == s.rejected + [Rejection(e.request, -32000)]
               else t.queue == s.queue + (if s.skipped > 0 then [Lagged(s.skipped)] else []) + [e]
                    && t.inputs == s.inputs + [e] && t.skipped == 0 && t.rejected == s.rejected
  {
    var s := Run(Init(capacity), steps);
    RunAppend(Init(capacity), steps, [Take(e), Poll, Poll]);
    ThreeSteps(s, Take(e), Poll, Poll);
    assert s.queue + [] == s.queue;
  }

  /** The consumer gets the oldest entry and each entry once. */
  lemma OldestIsReceived(s: State)
    requires !s.closed
    ensures var t := Next(s, Receive);
            && t.received + t.queue == s.received + s.queue
            && |t.received| == |s.received| + if s.queue == [] then 0 else 1
  {
    if s.queue != [] { ReceivedQueued(s.received, s.queue); }
  }
}
