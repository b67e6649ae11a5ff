/** The streaming wrapper: a spawned run sends numbered events through a bounded channel while the stream
    yields them, and ends with one terminal or error chunk and one end marker. */
module ResponseStream {
  import opened Basics

  const STREAM_EVENT_BUFFER: nat := 1
  const U64_MAX: nat := 0xFFFF_FFFF_FFFF_FFFF

  datatype Event = Event(content: int, sequenceNumber: nat)

  datatype Chunk = Content(event: Event) | Terminal(number: nat) | Error(number: nat) | DoneMarker

  datatype RunResult = Panicked | Errored(invalidToolSearch: bool) | Succeeded | Aborted

  datatype Task = Running | Stopped(result: RunResult)

  datatype Phase =
    | Selecting                    // waiting for an event or for the run to end
    | Draining(result: RunResult)  // the run ended; whatever is queued goes first
    | Persisting(number: nat)      // the terminal chunk is built and held back
    | AwaitingMarker(last: Chunk)
    | Closed(last: Chunk)
    | Abandoned                    // the consumer dropped the stream

  /** `sent` and `delivered` are history: every event the run put into the channel, and every event the
      stream has taken out of it. `persisted` is the store's answer. */
  datatype State = State(
    task: Task,
    accumulator: nat,
    queue: seq<Event>,
    sent: seq<Event>,
    delivered: seq<Event>,
    phase: Phase,
    next: nat,
    yielded: seq<Chunk>,
    persisted: Option<bool>)

  function After(number: nat): nat {
    Min(number + 1, U64_MAX)
  }

  /** The number that follows the last of the delivered events. */
  function NextNumber(delivered: seq<Event>): nat {
    if delivered == [] then 0 else After(delivered[|delivered| - 1].sequenceNumber)
  }

  function Contents(events: seq<Event>): seq<Chunk> {
    seq(|events|, i requires 0 <= i < |events| => Content(events[i]))
  }

  const Init: State := State(Running, 0, [], [], [], Selecting, 0, [], None)

  datatype Step =
    | Emit(content: int)
    | StampThenFail                 // the event was numbered, then found too large
    | Stop(result: RunResult)
    | Receive
    | Join
    | Drain
    | Finish(fits: bool)            // whether the terminal chunk is within the size limit
    | Persist(stored: bool)
    | Mark
    | Abandon

  predicate Enabled(s: State, step: Step) {
    match step
    case Emit(_) => s.task.Running? && |s.queue| < STREAM_EVENT_BUFFER
    case StampThenFail => s.task.Running?
    case Stop(result) => s.task.Running? && !result.Aborted?
    case Receive => s.phase.Selecting? && s.queue != []
    case Join => s.phase.Selecting? && s.task.Stopped?
    case Drain => s.phase.Draining? && s.queue != []
    case Finish(_) => s.phase.Draining? && s.queue == []
    case Persist(_) => s.phase.Persisting?
    case Mark => s.phase.AwaitingMarker?
    case Abandon => !s.phase.Closed? && !s.phase.Abandoned?
  }

  function Deliver(s: State): State
    requires s.queue != []
  {
    s.(queue := s.queue[1..], delivered := s.delivered + [s.queue[0]],
       next := After(s.queue[0].sequenceNumber), yielded := s.yielded + [Content(s.queue[0])])
  }

  function Conclude(s: State, chunk: Chunk): State {
    s.(phase := AwaitingMarker(chunk), yielded := s.yielded + [chunk])
  }

  function Apply(s: State, step: Step): State
    requires Enabled(s, step)
  {
    match step
    case Emit(content) =>
      var event := Event(content, s.accumulator);
      s.(accumulator := After(s.accumulator), queue := s.queue + [event], sent := s.sent + [event])
    case StampThenFail => s.(accumulator := After(s.accumulator), task := Stopped(Errored(false)))
    case Stop(result) => s.(task := Stopped(result))
    case Receive => Deliver(s)
    case Join => s.(phase := Draining(s.task.result))
    case Drain => Deliver(s)
    case Finish(fits) =>
      (match s.phase.result
       case Errored(true) => Conclude(s, if fits then Terminal(s.accumulator) else Error(s.next))
       case Succeeded => if fits then s.(phase := Persisting(s.accumulator)) else Conclude(s, Error(s.next))
       case _ => Conclude(s, Error(s.next)))
    case Persist(stored) =>
      Conclude(s.(persisted := Some(stored)), if stored then Terminal(s.phase.number) else Error(s.next))
    case Mark => s.(phase := Closed(s.phase.last), yielded := s.yielded + [DoneMarker])
    case Abandon => s.(phase := Abandoned, task := if s.task.Running? then Stopped(Aborted) else s.task)
  }

  ghost predicate Legal(s: State, steps: seq<Step>)
    decreases |steps|
  {
    steps == [] || (Enabled(s, steps[0]) && Legal(Apply(s, steps[0]), steps[1..]))
  }

  ghost function Execute(s: State, steps: seq<Step>): State
    requires Legal(s, steps)
    decreases |steps|
  {
    if steps == [] then s else Execute(Apply(s, steps[0]), steps[1..])
  }

  /** Events leave the channel in the order they were sent, each once, and are numbered from zero. */
  predicate Fifo(queue: seq<Event>, sent: seq<Event>, delivered: seq<Event>, next: nat) {
    && |queue| <= STREAM_EVENT_BUFFER
    && delivered + queue == sent
    && next == NextNumber(delivered)
    && forall i | 0 <= i < |sent| :: sent[i].sequenceNumber == Min(i, U64_MAX)
  }

  /** Unless the last event was numbered and then lost, the accumulator's next number is the stream's. */
  predicate AccumulatorFollows(task: Task, accumulator: nat, sent: seq<Event>) {
    task.Running? || task.result.Succeeded? || task.result == Errored(true) ==> accumulator == NextNumber(sent)
  }

  /** One terminal or error chunk, numbered one past the last event sent; a success only once stored. */
  predicate Concludes(s: State, chunk: Chunk) {
    && s.queue == [] && s.task.Stopped?
    && (chunk.Terminal? || chunk.Error?) && chunk.number == NextNumber(s.sent)
    && (chunk.Terminal? ==> (s.task.result.Succeeded? && s.persisted == Some(true)) || s.task.result == Errored(true))
  }

  /** The end of what has been yielded, after the delivered events. */
  function Tail(phase: Phase): seq<Chunk> {
    match phase
    case AwaitingMarker(last) => [last]
    case Closed(last) => [last, DoneMarker]
    case _ => []
  }

  predicate Ends(s: State) {
    match s.phase
    case Selecting => s.persisted == None
    case Draining(result) => s.task == Stopped(result) && s.persisted == None
    case Persisting(number) =>
      s.queue == [] && s.task == Stopped(Succeeded) && number == s.accumulator && s.persisted == None
    case AwaitingMarker(last) => Concludes(s, last)
    case Closed(last) => Concludes(s, last)
    case Abandoned => true
  }

  predicate Ordered(s: State) {
    && Fifo(s.queue, s.sent, s.delivered, s.next) && AccumulatorFollows(s.task, s.accumulator, s.sent) && Ends(s)
    && (!s.phase.Abandoned? ==> s.yielded == Contents(s.delivered) + Tail(s.phase))
    && (s.phase.Abandoned? ==> s.task.Stopped?)
  }

  lemma StepKeepsOrder(s: State, step: Step)
    requires Ordered(s) && Enabled(s, step)
    ensures Ordered(Apply(s, step))
  {
    if step.Emit? {
      EmitKeepsFifo(s, step.content);
    } else if step.Receive? || step.Drain? {
      DeliverKeepsOrder(s);
    } else {
      EndingKeepsOrder(s, step);
    }
  }

  lemma EmitKeepsFifo(s: State, content: int)
    requires Ordered(s) && Enabled(s, Emit(content))
    ensures var s' := Apply(s, Emit(content));
      Fifo(s'.queue, s'.sent, s'.delivered, s'.next) && AccumulatorFollows(s'.task, s'.accumulator, s'.sent)
  {
    var s', event := Apply(s, Emit(content)), Event(content, s.accumulator);
    assert s'.delivered + s'.queue == (s.delivered + s.queue) + [event];
    assert s.sent != [] ==> s.sent[|s.sent| - 1].sequenceNumber == Min(|s.sent| - 1, U64_MAX);
  }

  lemma DeliverKeepsOrder(s: State)
    requires Ordered(s) && s.queue != [] && (s.phase.Selecting? || s.phase.Draining?)
    ensures Ordered(Deliver(s))
  {
    var s' := Deliver(s);
    assert s.queue == [s.queue[0]] + s.queue[1..];
    assert s'.delivered + s'.queue == s.delivered + s.queue;
    assert Contents(s'.delivered) == Contents(s.delivered) + [Content(s.queue[0])];
  }

  lemma EndingKeepsOrder(s: State, step: Step)
    requires Ordered(s) && Enabled(s, step) && !step.Emit? && !step.Receive? && !step.Drain?
    ensures Ordered(Apply(s, step))
  {
    hide Tail, Concludes, Contents, Ends, Fifo;
    EndingKeepsEnd(s, step);
    EndingLeavesQueue(s, step);
    if !s.phase.Abandoned? {
      EndingKeepsYielded(s, step);
    }
  }

  /** Only the task's own events and their delivery touch the channel. */
  lemma EndingLeavesQueue(s: State, step: Step)
    requires AccumulatorFollows(s.task, s.accumulator, s.sent) && (s.phase.Abandoned? ==> s.task.Stopped?)
    requires Enabled(s, step) && !step.Emit? && !step.Receive? && !step.Drain?
    ensures var s' := Apply(s, step);
      && s'.sent == s.sent && s'.delivered == s.delivered && s'.next == s.next
      && s'.queue == s.queue
      && AccumulatorFollows(s'.task, s'.accumulator, s'.sent) && (s'.phase.Abandoned? ==> s'.task.Stopped?)
  {
    hide Concludes, Contents;
  }

  lemma EndingKeepsEnd(s: State, step: Step)
    requires Fifo(s.queue, s.sent, s.delivered, s.next) && AccumulatorFollows(s.task, s.accumulator, s.sent) && Ends(s)
    requires Enabled(s, step) && !step.Emit? && !step.Receive? && !step.Drain?
    ensures Ends(Apply(s, step))
  {
    hide Contents, NextNumber;
    assert s.queue == [] ==> s.delivered == s.sent;
  }

  lemma EndingKeepsYielded(s: State, step: Step)
    requires Enabled(s, step) && !step.Emit? && !step.Receive? && !step.Drain? && !s.phase.Abandoned?
    requires s.yielded == Contents(s.delivered) + Tail(s.phase)
    ensures var s' := Apply(s, step);
      s'.phase.Abandoned? || s'.yielded == Contents(s'.delivered) + Tail(s'.phase)
  {
    var s' := Apply(s, step);
    assert s'.delivered == s.delivered;
  }

  lemma {:induction false} OrderInEveryRun(s: State, steps: seq<Step>)
    requires Ordered(s) && Legal(s, steps)
    ensures Ordered(Execute(s, steps))
    decreases |steps|
  {
    if steps != [] {
      StepKeepsOrder(s, steps[0]);
      OrderInEveryRun(Apply(s, steps[0]), steps[1..]);
    }
  }

  /** A stream that is read to its end yields every event the run sent, in order and numbered from zero,
      then one terminal or error chunk with the next number, then one end marker. The chunk is a success
      only if the response was stored first. */
  lemma ClosedStreamIsComplete(steps: seq<Step>)
    requires Legal(Init, steps) && Execute(Init, steps).phase.Closed?
    ensures var s := Execute(Init, steps);
      var last := s.phase.last;
      && s.yielded == Contents(s.sent) + [last, DoneMarker]
      && (last.Terminal? || last.Error?) && last.number == Min(|s.sent|, U64_MAX)
      && (last.Terminal? ==>
            s.task == Stopped(Errored(true)) || (s.task == Stopped(Succeeded) && s.persisted == Some(true)))
      && forall i | 0 <= i < |s.sent| :: s.sent[i].sequenceNumber == Min(i, U64_MAX)
  {
    OrderInEveryRun(Init, steps);
    var s := Execute(Init, steps);
    assert s.delivered == s.sent;
  }

  // ----- when a stream ends in its terminal chunk -----

  predicate HasEnded(phase: Phase) {
    phase.AwaitingMarker? || phase.Closed?
  }

  lemma {:induction false} AbandonedStays(s: State, steps: seq<Step>)
    requires Legal(s, steps) && s.phase.Abandoned?
    ensures Execute(s, steps).phase.Abandoned?
    decreases |steps|
  {
    if steps != [] {
      AbandonedStays(Apply(s, steps[0]), steps[1..]);
    }
  }

  lemma HeadOrRest(steps: seq<Step>, step: Step)
    requires steps != []
    ensures step in steps <==> steps[0] == step || step in steps[1..]
  {
    assert steps == [steps[0]] + steps[1..];
  }

  /** Once its last chunk is out a stream does not change its mind. */
  lemma {:induction false} EndingStays(s: State, steps: seq<Step>)
    requires Legal(s, steps) && HasEnded(s.phase) && s.task.Stopped? && Execute(s, steps).phase.Closed?
    ensures var s' := Execute(s, steps); s'.phase.last == s.phase.last && s'.task == s.task
    ensures Finish(true) !in steps && Persist(true) !in steps
    decreases |steps|
  {
    if steps != [] {
      HeadOrRest(steps, Finish(true));
      HeadOrRest(steps, Persist(true));
      if steps[0].Abandon? {
        AbandonedStays(Apply(s, steps[0]), steps[1..]);
      } else {
        EndingStays(Apply(s, steps[0]), steps[1..]);
      }
    }
  }

  lemma {:induction false} PersistingDecides(s: State, steps: seq<Step>)
    requires Legal(s, steps) && s.phase.Persisting? && s.task.Stopped? && Execute(s, steps).phase.Closed?
    ensures var s' := Execute(s, steps); s'.task == s.task && (s'.phase.last.Terminal? <==> Persist(true) in steps)
    ensures Finish(true) !in steps && (Persist(true) in steps || Persist(false) in steps)
    decreases |steps|
  {
    HeadOrRest(steps, Finish(true));
    HeadOrRest(steps, Persist(true));
    HeadOrRest(steps, Persist(false));
    if steps[0].Abandon? {
      AbandonedStays(Apply(s, steps[0]), steps[1..]);
    } else {
      EndingStays(Apply(s, steps[0]), steps[1..]);
    }
  }

  predicate IsOpen(s: State) {
    s.phase.Selecting? || (s.phase.Draining? && s.task == Stopped(s.phase.result))
  }

  lemma {:induction false} FinishDecides(s: State, steps: seq<Step>)
    requires Legal(s, steps) && IsOpen(s) && Execute(s, steps).phase.Closed?
    ensures var s' := Execute(s, steps);
      && s'.task.Stopped?
      && (s'.phase.last.Terminal? <==>
            && Finish(true) in steps
            && (s'.task.result == Errored(true) || (s'.task.result.Succeeded? && Persist(true) in steps)))
      && (Finish(true) in steps && s'.task.result.Succeeded? ==> Persist(true) in steps || Persist(false) in steps)
    decreases |steps|
  {
    HeadOrRest(steps, Finish(true));
    HeadOrRest(steps, Persist(true));
    HeadOrRest(steps, Persist(false));
    var s' := Apply(s, steps[0]);
    if steps[0].Abandon? {
      AbandonedStays(s', steps[1..]);
    } else if s'.phase.Persisting? {
      PersistingDecides(s', steps[1..]);
    } else if HasEnded(s'.phase) {
      EndingStays(s', steps[1..]);
    } else {
      FinishDecides(s', steps[1..]);
    }
  }

  /** A stream that is read to its end ends in a terminal chunk, and not in an error, exactly when that chunk fits and
      either the run succeeded and its response was stored, or the run ended in an answer that already says it has
      failed. Storing is tried whenever a run has succeeded and its chunk fits. */
  lemma ClosesInTerminalExactlyWhen(steps: seq<Step>)
    requires Legal(Init, steps) && Execute(Init, steps).phase.Closed?
    ensures var s := Execute(Init, steps);
      && s.task.Stopped?
      && (s.phase.last.Terminal? <==>
            && Finish(true) in steps
            && (s.task.result == Errored(true) || (s.task.result.Succeeded? && Persist(true) in steps)))
      && (Finish(true) in steps && s.task.result.Succeeded? ==> Persist(true) in steps || Persist(false) in steps)
  {
    FinishDecides(Init, steps);
  }

  /** Before its end the stream has yielded exactly a prefix of what was sent, the rest is still queued, and
      no terminal chunk is out. */
  lemma OpenStreamYieldsPrefix(steps: seq<Step>)
    requires Legal(Init, steps)
    requires var phase := Execute(Init, steps).phase; phase.Selecting? || phase.Draining? || phase.Persisting?
    ensures var s := Execute(Init, steps);
      s.yielded == Contents(s.delivered) && s.delivered + s.queue == s.sent
  {
    OrderInEveryRun(Init, steps);
    var s := Execute(Init, steps);
    assert Tail(s.phase) == [];
  }

  /** The stream never stalls: until it is closed or abandoned some step is possible without dropping it. */
  lemma StreamCanGoOn(s: State)
    requires Ordered(s) && !s.phase.Closed? && !s.phase.Abandoned?
    ensures exists step :: Enabled(s, step) && !step.Abandon?
  {
    match s.phase
    case Selecting => assert if s.task.Running? then Enabled(s, Stop(Panicked)) else Enabled(s, Join);
    case Draining(_) => assert if s.queue != [] then Enabled(s, Drain) else Enabled(s, Finish(true));
    case Persisting(_) => assert Enabled(s, Persist(true));
    case AwaitingMarker(_) => assert Enabled(s, Mark);
  }

  // ----- the panic path, as one call -----

  class Receiver {
    var queue: seq<Event>

    constructor (queue: seq<Event>)
      ensures this.queue == queue
    {
      this.queue := queue;
    }
  }

  method ConsumeStreamEvent(event: Event) returns (chunk: Chunk, next: nat)
    ensures chunk == Content(event) && next == NextNumber([event])
  {
    next := if event.sequenceNumber >= U64_MAX then U64_MAX else event.sequenceNumber + 1;
    chunk := Content(event);
  }

  /** Drains the channel and closes with an error numbered one past the last event ever delivered. */
  method PanickedStreamChunks(receiver: Receiver, delivered: seq<Event>, next: nat) returns (chunks: seq<Chunk>)
    requires next == NextNumber(delivered)
    modifies receiver
    ensures receiver.queue == []
    ensures chunks == Contents(old(receiver.queue)) + [Error(NextNumber(delivered + old(receiver.queue))), DoneMarker]
  {
    hide Contents, NextNumber;
    NothingTaken(delivered);
    chunks := [];
    var number := next;
    ghost var taken: seq<Event> := [];
    while receiver.queue != []
      invariant taken + receiver.queue == old(receiver.queue)
      invariant chunks == Contents(taken) && number == NextNumber(delivered + taken)
      decreases |receiver.queue|
    {
      var event := receiver.queue[0];
      receiver.queue := receiver.queue[1..];
      var chunk;
      chunk, number := ConsumeStreamEvent(event);
      OneMoreTaken(delivered, taken, event);
      chunks := chunks + [chunk];
      taken := taken + [event];
    }
    assert taken == old(receiver.queue);
    chunks := chunks + [Error(number), DoneMarker];
  }

  lemma NothingTaken(delivered: seq<Event>)
    ensures Contents([]) == [] && delivered + [] == delivered
  {
  }

  lemma OneMoreTaken(delivered: seq<Event>, taken: seq<Event>, event: Event)
    ensures Contents(taken + [event]) == Contents(taken) + [Content(event)]
    ensures NextNumber(delivered + (taken + [event])) == NextNumber([event])
  {
    assert delivered + (taken + [event]) == delivered + taken + [event];
  }
}
