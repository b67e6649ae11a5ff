/** Child processes and shutdown: any number of threads start children while others terminate them all. */
module ProcessSupervision {
  import opened Basics

  /** `gone`: the process group no longer exists. The flags record that a signal was sent, or that the
      group was already gone when it would have been. */
  datatype Child = Child(gone: bool, terminated: bool, killed: bool)

  /** `seen` holds the children a `terminate_all` has signalled. */
  datatype Thread =
    // the signal handler
    | Handling(signal: Option<int>)
    | Handled
    // start
    | Spawning                                  // the process is about to be listed
    | MustTerminate(child: nat)                 // listed, and shutdown was seen to be requested
    | Started(child: nat, signalled: bool)
    | StartRaised(child: nat)                   // signalling the child was refused, and the error escaped
    // terminate_all
    | Entering
    | Collecting(seen: set<nat>)                // about to list the children not yet seen
    | Signalling(seen: set<nat>, batch: seq<nat>, next: nat)
    | Waiting(seen: set<nat>, batch: seq<nat>, next: nat, pending: seq<nat>)
    | Killing(seen: set<nat>, pending: seq<nat>, next: nat)
    | Terminated(seen: set<nat>)
    | TerminateRaised(child: nat, seen: set<nat>)   // one of its signals was refused, and the error escaped

  datatype State = State(
    shutdownRequested: bool, shutdownSignal: Option<int>, children: seq<Child>, threads: seq<Thread>)

  /** The children listed from position `from` on that are not in `seen`, in list order. */
  function Unseen(count: nat, seen: set<nat>): seq<nat> {
    if count == 0 then []
    else Unseen(count - 1, seen) + (if count - 1 in seen then [] else [count - 1])
  }

  datatype Step =
    | ChildExits(c: nat)
    | Request(t: nat)         // the signal handler requests shutdown
    | Append(t: nat)          // start: list the child and read the shutdown flag, under the lock
    | Enter(t: nat)           // terminate_all: request shutdown
    | Collect(t: nat)         // list the unseen children, under the lock
    | Signal(t: nat)          // SIGTERM to one child
    | SignalDenied(t: nat)    // the operating system refuses
    | BeginWaiting(t: nat)
    | WaitFor(t: nat)         // one child is gone or the deadline passed
    | BeginKilling(t: nat)
    | Kill(t: nat)            // SIGKILL to one pending child
    | KillDenied(t: nat)
    | EndRound(t: nat)

  predicate Enabled(s: State, step: Step) {
    if step.ChildExits? then step.c < |s.children| && !s.children[step.c].gone
    else
      step.t < |s.threads| && ThreadEnabled(s.threads[step.t], s.children, step)
  }

  predicate ThreadEnabled(thread: Thread, children: seq<Child>, step: Step) {
    match step
    case ChildExits(_) => false
    case Request(_) => thread.Handling?
    case Append(_) => thread.Spawning?
    case Enter(_) => thread.Entering?
    case Collect(_) => thread.Collecting?
    case Signal(_) => thread.MustTerminate? || (thread.Signalling? && thread.next < |thread.batch|)
    case SignalDenied(_) =>
      || (thread.MustTerminate? && thread.child < |children| && !children[thread.child].gone)
      || (thread.Signalling? && thread.next < |thread.batch|
          && thread.batch[thread.next] < |children| && !children[thread.batch[thread.next]].gone)
    case BeginWaiting(_) => thread.Signalling? && thread.next == |thread.batch|
    case WaitFor(_) => thread.Waiting? && thread.next < |thread.batch|
    case BeginKilling(_) => thread.Waiting? && thread.next == |thread.batch|
    case Kill(_) => thread.Killing? && thread.next < |thread.pending|
    case KillDenied(_) =>
      && thread.Killing? && thread.next < |thread.pending|
      && thread.pending[thread.next] < |children| && !children[thread.pending[thread.next]].gone
    case EndRound(_) => thread.Killing? && thread.next == |thread.pending|
  }

  function SendTerm(children: seq<Child>, c: nat): seq<Child> {
    if c < |children| then children[c := children[c].(terminated := true)] else children
  }

  function SendKill(children: seq<Child>, c: nat): seq<Child> {
    if c < |children| then children[c := children[c].(killed := true)] else children
  }

  /** The first signal is the one remembered. */
  function Requested(s: State, signal: Option<int>): State {
    s.(shutdownRequested := true, shutdownSignal := if s.shutdownSignal.Some? then s.shutdownSignal else signal)
  }

  /** What one step does to the shared state and to the thread that takes it. */
  function ThreadStep(s: State, thread: Thread, step: Step): (State, Thread)
    requires ThreadEnabled(thread, s.children, step)
  {
    match step
    case Request(_) => (Requested(s, thread.signal), Handled)
    case Append(_) =>
      (s.(children := s.children + [Child(false, false, false)]),
       if s.shutdownRequested then MustTerminate(|s.children|) else Started(|s.children|, false))
    case Enter(_) => (Requested(s, None), Collecting({}))
    case Collect(_) =>
      var batch := Unseen(|s.children|, thread.seen);
      (s, if batch == [] then Terminated(thread.seen) else Signalling(thread.seen, batch, 0))
    case Signal(_) =>
      if thread.MustTerminate? then (s.(children := SendTerm(s.children, thread.child)), Started(thread.child, true))
      else
        var c := thread.batch[thread.next];
        (s.(children := SendTerm(s.children, c)), Signalling(thread.seen + {c}, thread.batch, thread.next + 1))
    case SignalDenied(_) =>
      (s, if thread.MustTerminate? then StartRaised(thread.child)
        else TerminateRaised(thread.batch[thread.next], thread.seen))
    case BeginWaiting(_) => (s, Waiting(thread.seen, thread.batch, 0, []))
    case WaitFor(_) =>
      var c := thread.batch[thread.next];
      var pending := if c < |s.children| && !s.children[c].gone then thread.pending + [c] else thread.pending;
      (s, Waiting(thread.seen, thread.batch, thread.next + 1, pending))
    case BeginKilling(_) => (s, Killing(thread.seen, thread.pending, 0))
    case Kill(_) =>
      (s.(children := SendKill(s.children, thread.pending[thread.next])),
        Killing(thread.seen, thread.pending, thread.next + 1))
    case KillDenied(_) => (s, TerminateRaised(thread.pending[thread.next], thread.seen))
    case EndRound(_) => (s, Collecting(thread.seen))
  }

  function Apply(s: State, step: Step): State
    requires Enabled(s, step)
  {
    if step.ChildExits? then s.(children := s.children[step.c := s.children[step.c].(gone := true)])
    else
      var (shared, thread) := ThreadStep(s, s.threads[step.t], step);
      shared.(threads := s.threads[step.t := thread])
  }

  predicate Init(s: State) {
    && !s.shutdownRequested && s.shutdownSignal.None? && s.children == []
    && forall t | 0 <= t < |s.threads| :: s.threads[t].Handling? || s.threads[t].Spawning? || s.threads[t].Entering?
  }

  ghost predicate Legal(s: State, steps: seq<Step>)
    decreases |steps|
  {
    steps == [] || (Enabled(s, steps[0]) && Legal(Apply(s, steps[0]), steps[1..]))
  }

  ghost function Execute(s: State, steps: seq<Step>): State
    requires Legal(s, steps)
    decreases |steps|
  {
    if steps == [] then s else Execute(Apply(s, steps[0]), steps[1..])
  }

  // ----- the invariant -----

  predicate Settled(child: Child) {
    child.gone || child.killed
  }

  /** What a terminating thread knows about the children it has seen, at each point of its round. */
  ghost predicate ThreadFits(s: State, thread: Thread) {
    && (thread.Collecting? || thread.Signalling? || thread.Waiting? || thread.Killing?
        || thread.Terminated? || thread.TerminateRaised? ==>
          && s.shutdownRequested
          && (forall c | c in thread.seen :: c < |s.children| && s.children[c].terminated))
    && match thread
       case MustTerminate(c) => c < |s.children|
       case StartRaised(c) => c < |s.children|
       case Started(c, signalled) => c < |s.children| && (signalled ==> s.children[c].terminated)
       case Collecting(seen) => forall c | c in seen :: Settled(s.children[c])
       case Terminated(seen) => forall c | c in seen :: Settled(s.children[c])
       case Signalling(seen, batch, next) =>
         && next <= |batch| && batch != []
         && (forall k | 0 <= k < |batch| :: batch[k] < |s.children|)
         && (forall k | 0 <= k < next :: batch[k] in seen)
         && (forall k | next <= k < |batch| :: batch[k] !in seen)
         && Increasing(batch)
         && (forall c | c in seen :: Settled(s.children[c]) || c in batch)
       case Waiting(seen, batch, next, pending) =>
         && next <= |batch| && |pending| <= next
         && (forall k | 0 <= k < |batch| :: batch[k] in seen)
         && (forall k | 0 <= k < |pending| :: pending[k] in seen)
         && (forall c | c in seen :: Settled(s.children[c]) || c in batch[next..] || c in pending)
       case Killing(seen, pending, next) =>
         && next <= |pending|
         && (forall k | 0 <= k < |pending| :: pending[k] in seen)
         && (forall c | c in seen :: Settled(s.children[c]) || c in pending[next..])
       case _ => true
  }

  ghost predicate ThreadsFit(s: State) {
    forall t | 0 <= t < |s.threads| :: ThreadFits(s, s.threads[t])
  }

  /** The start of child `c` is about to send its signal, or was refused. */
  predicate LeftToStarter(s: State, c: nat) {
    exists t :: 0 <= t < |s.threads| && (s.threads[t] == MustTerminate(c) || s.threads[t] == StartRaised(c))
  }

  ghost predicate NobodyEscapes(s: State) {
    (exists t :: 0 <= t < |s.threads| && s.threads[t].Terminated?) ==>
      forall c | 0 <= c < |s.children| :: s.children[c].terminated || LeftToStarter(s, c)
  }

  predicate Increasing(xs: seq<nat>) {
    forall j, k | 0 <= j < k < |xs| :: xs[j] < xs[k]
  }

  lemma {:induction false} UnseenIsComplement(count: nat, seen: set<nat>)
    ensures forall c: nat :: c in Unseen(count, seen) <==> c < count && c !in seen
    ensures Increasing(Unseen(count, seen))
  {
    if count > 0 {
      UnseenIsComplement(count - 1, seen);
      var rest := Unseen(count - 1, seen);
      assert forall k | 0 <= k < |rest| :: rest[k] in rest;
    }
  }

  /** Lists only grow, flags are only raised. */
  ghost predicate Grown(s: State, s': State) {
    && (s.shutdownRequested ==> s'.shutdownRequested)
    && |s.children| <= |s'.children|
    && forall c | 0 <= c < |s.children| ::
         && (s.children[c].terminated ==> s'.children[c].terminated)
         && (Settled(s.children[c]) ==> Settled(s'.children[c]))
  }

  lemma OthersStillFit(s: State, s': State, thread: Thread)
    requires ThreadFits(s, thread) && Grown(s, s')
    ensures ThreadFits(s', thread)
  {
  }

  lemma ActorStillFits(s: State, step: Step)
    requires ThreadsFit(s) && Enabled(s, step) && !step.ChildExits?
    ensures ThreadFits(Apply(s, step), Apply(s, step).threads[step.t])
  {
    hide ThreadFits, ThreadStep, ThreadEnabled;
    var thread, s' := s.threads[step.t], Apply(s, step);
    var (shared, next) := ThreadStep(s, thread, step);
    if step.Collect? {
      CollectFits(s, thread, step.t);
    } else if step.Signal? {
      SignalFits(s, thread, step.t);
    } else if step.WaitFor? {
      WaitFits(s, thread, step.t);
    } else if step.Kill? {
      KillFits(s, thread, step.t);
    } else {
      PlainStepFits(s, thread, step);
    }
    OthersStillFit(shared, s', next);
  }

  lemma PlainStepFits(s: State, thread: Thread, step: Step)
    requires ThreadFits(s, thread) && ThreadEnabled(thread, s.children, step)
    requires !step.Collect? && !step.Signal? && !step.WaitFor? && !step.Kill? && !step.ChildExits?
    ensures var (s', next) := ThreadStep(s, thread, step); ThreadFits(s', next)
  {
  }

  lemma CollectFits(s: State, thread: Thread, t: nat)
    requires ThreadFits(s, thread) && ThreadEnabled(thread, s.children, Collect(t))
    ensures var (s', next) := ThreadStep(s, thread, Collect(t)); ThreadFits(s', next)
  {
    UnseenIsComplement(|s.children|, thread.seen);
    var batch := Unseen(|s.children|, thread.seen);
    assert forall k | 0 <= k < |batch| :: batch[k] in batch;
  }

  lemma SignalFits(s: State, thread: Thread, t: nat)
    requires ThreadFits(s, thread) && ThreadEnabled(thread, s.children, Signal(t))
    ensures var (s', next) := ThreadStep(s, thread, Signal(t)); ThreadFits(s', next)
  {
  }

  lemma WaitFits(s: State, thread: Thread, t: nat)
    requires ThreadFits(s, thread) && ThreadEnabled(thread, s.children, WaitFor(t))
    ensures var (s', next) := ThreadStep(s, thread, WaitFor(t)); ThreadFits(s', next)
  {
    assert thread.batch[thread.next..] == [thread.batch[thread.next]] + thread.batch[thread.next + 1..];
  }

  lemma KillFits(s: State, thread: Thread, t: nat)
    requires ThreadFits(s, thread) && ThreadEnabled(thread, s.children, Kill(t))
    ensures var (s', next) := ThreadStep(s, thread, Kill(t)); ThreadFits(s', next)
  {
    assert thread.pending[thread.next..] == [thread.pending[thread.next]] + thread.pending[thread.next + 1..];
  }

  lemma StepKeepsThreads(s: State, step: Step)
    requires ThreadsFit(s) && Enabled(s, step)
    ensures ThreadsFit(Apply(s, step)) && Grown(s, Apply(s, step))
  {
    var s' := Apply(s, step);
    forall t | 0 <= t < |s'.threads| ensures ThreadFits(s', s'.threads[t]) {
      if !step.ChildExits? && step.t == t {
        ActorStillFits(s, step);
      } else {
        OthersStillFit(s, s', s.threads[t]);
      }
    }
  }

  lemma StepKeepsNobodyEscapes(s: State, step: Step)
    requires ThreadsFit(s) && NobodyEscapes(s) && Enabled(s, step)
    ensures NobodyEscapes(Apply(s, step))
  {
    var s' := Apply(s, step);
    StepKeepsThreads(s, step);
    if step.Collect? && s'.threads[step.t].Terminated? {
      var seen := s.threads[step.t].seen;
      UnseenIsComplement(|s.children|, seen);
      assert ThreadFits(s, s.threads[step.t]);
      assert forall c | 0 <= c < |s.children| :: c in seen;
    } else if t :| 0 <= t < |s'.threads| && s'.threads[t].Terminated? {
      assert s.threads[t].Terminated? && ThreadFits(s, s.threads[t]);
      forall c | 0 <= c < |s'.children| ensures s'.children[c].terminated || LeftToStarter(s', c) {
        ChildStillCovered(s, step, c);
      }
    }
  }

  /** Once shutdown is requested a newly listed child is left to its own start, until that has signalled it. */
  lemma ChildStillCovered(s: State, step: Step, c: nat)
    requires ThreadsFit(s) && s.shutdownRequested && Enabled(s, step) && c < |Apply(s, step).children|
    requires c < |s.children| ==> s.children[c].terminated || LeftToStarter(s, c)
    ensures Apply(s, step).children[c].terminated || LeftToStarter(Apply(s, step), c)
  {
    var s' := Apply(s, step);
    if c == |s.children| {
      assert s'.threads[step.t] == MustTerminate(c);
    } else if !s.children[c].terminated {
      var t :| 0 <= t < |s.threads| && (s.threads[t] == MustTerminate(c) || s.threads[t] == StartRaised(c));
      if step.ChildExits? || step.t != t {
        assert s'.threads[t] == s.threads[t];
      } else {
        assert step.Signal? || s'.threads[t] == StartRaised(c);
      }
    }
  }

  // ----- who has signalled a child -----

  function SeenBy(thread: Thread): set<nat> {
    match thread
    case Collecting(seen) => seen
    case Signalling(seen, _, _) => seen
    case Waiting(seen, _, _, _) => seen
    case Killing(seen, _, _) => seen
    case Terminated(seen) => seen
    case TerminateRaised(_, seen) => seen
    case _ => {}
  }

  function StarterOf(thread: Thread): Option<nat> {
    match thread
    case MustTerminate(c) => Some(c)
    case Started(c, _) => Some(c)
    case StartRaised(c) => Some(c)
    case _ => None
  }

  predicate HasSignalled(thread: Thread, c: nat) {
    thread == Started(c, true) || c in SeenBy(thread)
  }

  /** Every signal that was sent is known to the thread that sent it, and a child has one start. */
  ghost predicate Accounted(s: State) {
    && (forall c | 0 <= c < |s.children| && s.children[c].terminated :: SomebodySignalled(s, c))
    && (forall u, v | 0 <= u < v < |s.threads| && StarterOf(s.threads[u]).Some? ::
          StarterOf(s.threads[u]) != StarterOf(s.threads[v]))
    && (forall u | 0 <= u < |s.threads| && StarterOf(s.threads[u]).Some? ::
          StarterOf(s.threads[u]).value < |s.children|)
  }

  ghost predicate SomebodySignalled(s: State, c: nat) {
    exists t :: 0 <= t < |s.threads| && HasSignalled(s.threads[t], c)
  }

  /** What a step does to what its thread knows. */
  lemma StepRemembers(s: State, thread: Thread, step: Step)
    requires ThreadEnabled(thread, s.children, step)
    ensures var (s', next) := ThreadStep(s, thread, step);
      && |s'.children| == |s.children| + One(step.Append?)
      && (forall c: nat | HasSignalled(thread, c) :: HasSignalled(next, c))
      && (forall c | 0 <= c < |s'.children| && s'.children[c].terminated ::
            (c < |s.children| && s.children[c].terminated) || HasSignalled(next, c))
      && StarterOf(next) == if step.Append? then Some(|s.children|) else StarterOf(thread)
  {
  }

  lemma StepKeepsAccounted(s: State, step: Step)
    requires Accounted(s) && Enabled(s, step)
    ensures Accounted(Apply(s, step))
  {
    hide ThreadStep, ThreadEnabled, HasSignalled, StarterOf;
    var s' := Apply(s, step);
    if !step.ChildExits? {
      StepRemembers(s, s.threads[step.t], step);
    }
    forall c | 0 <= c < |s'.children| && s'.children[c].terminated ensures SomebodySignalled(s', c) {
      if c < |s.children| && s.children[c].terminated {
        assert SomebodySignalled(s, c);
        var t :| 0 <= t < |s.threads| && HasSignalled(s.threads[t], c);
        assert HasSignalled(s'.threads[t], c);
      } else {
        assert HasSignalled(s'.threads[step.t], c);
      }
    }
  }

  // ----- terminations work through the list in order -----

  ghost predicate IsInitial(seen: set<nat>) {
    forall c: nat :: c in seen <==> c < |seen|
  }

  /** What a `terminate_all` has signalled is an initial segment of the list; it goes on where that ends. */
  ghost predicate WorksInOrder(thread: Thread) {
    && IsInitial(SeenBy(thread))
    && (thread.Signalling? ==>
          forall k | thread.next <= k < |thread.batch| :: thread.batch[k] == |thread.seen| + (k - thread.next))
  }

  ghost predicate InOrder(s: State) {
    forall t | 0 <= t < |s.threads| :: WorksInOrder(s.threads[t])
  }

  lemma {:induction false} UnseenAfterInitial(count: nat, seen: set<nat>)
    requires IsInitial(seen)
    ensures |Unseen(count, seen)| == if count <= |seen| then 0 else count - |seen|
    ensures forall k | 0 <= k < |Unseen(count, seen)| :: Unseen(count, seen)[k] == |seen| + k
  {
    if count > 0 {
      UnseenAfterInitial(count - 1, seen);
    }
  }

  lemma StepWorksInOrder(s: State, thread: Thread, step: Step)
    requires WorksInOrder(thread) && ThreadEnabled(thread, s.children, step)
    ensures WorksInOrder(ThreadStep(s, thread, step).1)
  {
    hide Unseen, IsInitial;
    NothingIsInitial();
    if step.Collect? {
      UnseenAfterInitial(|s.children|, thread.seen);
    } else if step.Signal? && thread.Signalling? {
      OneMoreIsInitial(thread.seen);
    }
  }

  lemma NothingIsInitial()
    ensures IsInitial({})
  {
  }

  lemma OneMoreIsInitial(seen: set<nat>)
    requires IsInitial(seen)
    ensures IsInitial(seen + {|seen|}) && |seen + {|seen|}| == |seen| + 1
  {
    assert |seen| !in seen;
  }

  lemma StepKeepsInOrder(s: State, step: Step)
    requires InOrder(s) && Enabled(s, step)
    ensures InOrder(Apply(s, step))
  {
    hide WorksInOrder, ThreadStep, ThreadEnabled;
    if !step.ChildExits? {
      StepWorksInOrder(s, s.threads[step.t], step);
    }
  }

  // ----- every run -----

  lemma {:induction false} InvariantInEveryRun(s: State, steps: seq<Step>)
    requires ThreadsFit(s) && NobodyEscapes(s) && Accounted(s) && InOrder(s) && Legal(s, steps)
    ensures var s' := Execute(s, steps); ThreadsFit(s') && NobodyEscapes(s') && Accounted(s') && InOrder(s')
    decreases |steps|
  {
    if steps != [] {
      StepKeepsThreads(s, steps[0]);
      StepKeepsNobodyEscapes(s, steps[0]);
      StepKeepsAccounted(s, steps[0]);
      StepKeepsInOrder(s, steps[0]);
      InvariantInEveryRun(Apply(s, steps[0]), steps[1..]);
    }
  }

  lemma InvariantFromInit(s: State, steps: seq<Step>)
    requires Init(s) && Legal(s, steps)
    ensures var s' := Execute(s, steps); ThreadsFit(s') && NobodyEscapes(s') && Accounted(s') && InOrder(s')
  {
    hide Legal, Execute;
    NothingIsInitial();
    InvariantInEveryRun(s, steps);
  }

  predicate StartWasRefused(s: State, c: nat) {
    exists t :: 0 <= t < |s.threads| && s.threads[t] == StartRaised(c)
  }

  /** How far down the list a `terminate_all` has come. */
  function WorkedThrough(thread: Thread): nat {
    |SeenBy(thread)|
  }

  /** Some `terminate_all` has come past position `c` of the list. */
  predicate IsWorkedThrough(s: State, c: nat) {
    exists t :: 0 <= t < |s.threads| && c < WorkedThrough(s.threads[t])
  }

  /** However starts, signal handlers and terminations interleave, once a `terminate_all` has returned and no
      start is still about to signal: a child has been left without SIGTERM exactly when its own start was refused
      and its position in the list is at or beyond what every `terminate_all` has worked through. */
  lemma NoChildEscapesShutdown(s: State, steps: seq<Step>, t: nat, c: nat)
    requires Init(s) && Legal(s, steps)
    requires var s' := Execute(s, steps);
      && t < |s'.threads| && s'.threads[t].Terminated? && c < |s'.children|
      && forall u | 0 <= u < |s'.threads| :: !s'.threads[u].MustTerminate?
    ensures var s' := Execute(s, steps);
      s'.children[c].terminated <==> !StartWasRefused(s', c) || IsWorkedThrough(s', c)
  {
    hide ThreadFits, Accounted, WorksInOrder, IsWorkedThrough, StartWasRefused;
    InvariantFromInit(s, steps);
    var s' := Execute(s, steps);
    UnrefusedAreSignalled(s', t, c);
    if s'.children[c].terminated {
      SignalledUnlessRefused(s', c);
    }
    if IsWorkedThrough(s', c) {
      WorkedThroughAreSignalled(s', c);
    }
  }

  lemma UnrefusedAreSignalled(s: State, t: nat, c: nat)
    requires NobodyEscapes(s) && t < |s.threads| && s.threads[t].Terminated? && c < |s.children|
    requires forall u | 0 <= u < |s.threads| :: !s.threads[u].MustTerminate?
    ensures StartWasRefused(s, c) || s.children[c].terminated
  {
  }

  lemma SignalledUnlessRefused(s: State, c: nat)
    requires Accounted(s) && InOrder(s) && c < |s.children| && s.children[c].terminated
    ensures !StartWasRefused(s, c) || IsWorkedThrough(s, c)
  {
    hide WorksInOrder;
    assert SomebodySignalled(s, c);
    var u :| 0 <= u < |s.threads| && HasSignalled(s.threads[u], c);
    if s.threads[u] == Started(c, true) {
      forall v | 0 <= v < |s.threads| ensures s.threads[v] != StartRaised(c) {
        assert u != v ==> StarterOf(s.threads[v]) != Some(c);
      }
    } else {
      SeenIsWorkedThrough(s.threads[u], c);
    }
  }

  lemma SeenIsWorkedThrough(thread: Thread, c: nat)
    requires WorksInOrder(thread)
    ensures c in SeenBy(thread) <==> c < WorkedThrough(thread)
  {
    hide SeenBy;
  }

  lemma WorkedThroughAreSignalled(s: State, c: nat)
    requires ThreadsFit(s) && InOrder(s) && IsWorkedThrough(s, c)
    ensures c < |s.children| && s.children[c].terminated
  {
    hide WorksInOrder;
    var u :| 0 <= u < |s.threads| && c < WorkedThrough(s.threads[u]);
    assert WorksInOrder(s.threads[u]) && ThreadFits(s, s.threads[u]);
    SeenIsWorkedThrough(s.threads[u], c);
  }

  /** A child listed after the only `terminate_all` has returned, whose own start is refused, ends unsignalled. */
  lemma RefusedStartEscapes()
    ensures var s, steps :=
      State(false, None, [], [Spawning, Entering]), [Enter(1), Collect(1), Append(0), SignalDenied(0)];
      && Init(s) && Legal(s, steps)
      && Execute(s, steps) == State(true, None, [Child(false, false, false)], [StartRaised(0), Terminated({})])
  {
    var s0 := State(false, None, [], [Spawning, Entering]);
    var s1 := State(true, None, [], [Spawning, Collecting({})]);
    var s2 := State(true, None, [], [Spawning, Terminated({})]);
    var s3 := State(true, None, [Child(false, false, false)], [MustTerminate(0), Terminated({})]);
    var s4 := State(true, None, [Child(false, false, false)], [StartRaised(0), Terminated({})]);
    assert Apply(s0, Enter(1)) == s1 && Apply(s1, Collect(1)) == s2;
    assert Apply(s2, Append(0)) == s3 && Apply(s3, SignalDenied(0)) == s4;
    OneStep(s3, SignalDenied(0), []);
    OneStep(s2, Append(0), [SignalDenied(0)]);
    OneStep(s1, Collect(1), [Append(0), SignalDenied(0)]);
    OneStep(s0, Enter(1), [Collect(1), Append(0), SignalDenied(0)]);
  }

  lemma OneStep(s: State, step: Step, steps: seq<Step>)
    requires Enabled(s, step) && Legal(Apply(s, step), steps)
    ensures Legal(s, [step] + steps) && Execute(s, [step] + steps) == Execute(Apply(s, step), steps)
  {
    assert ([step] + steps)[1..] == steps;
  }

  /** Every child a `terminate_all` saw was sent SIGTERM, and was gone or sent SIGKILL by the time it returned. */
  lemma SeenChildrenAreSettled(s: State, steps: seq<Step>, t: nat, c: nat)
    requires Init(s) && Legal(s, steps)
    requires var s' := Execute(s, steps);
      t < |s'.threads| && s'.threads[t].Terminated? && c in s'.threads[t].seen
    ensures var s' := Execute(s, steps);
      c < |s'.children| && s'.children[c].terminated && Settled(s'.children[c])
  {
    InvariantFromInit(s, steps);
    assert ThreadFits(Execute(s, steps), Execute(s, steps).threads[t]);
  }

  // ----- who is spared -----

  /** No thread is about to send SIGKILL to child `c`. */
  predicate NobodyPends(s: State, c: nat) {
    forall t | 0 <= t < |s.threads| ::
      (s.threads[t].Waiting? || s.threads[t].Killing? ==> c !in s.threads[t].pending)
  }

  /** A child that is gone before anybody waits for it in vain is never sent SIGKILL. */
  lemma {:induction false} GoneChildrenAreNotKilled(s: State, steps: seq<Step>, c: nat)
    requires Legal(s, steps) && c < |s.children| && s.children[c].gone && !s.children[c].killed && NobodyPends(s, c)
    ensures var s' := Execute(s, steps);
      c < |s'.children| && s'.children[c].gone && !s'.children[c].killed && NobodyPends(s', c)
    decreases |steps|
  {
    if steps != [] {
      StepSparesGone(s, steps[0], c);
      GoneChildrenAreNotKilled(Apply(s, steps[0]), steps[1..], c);
    }
  }

  lemma StepSparesGone(s: State, step: Step, c: nat)
    requires Enabled(s, step) && c < |s.children| && s.children[c].gone && !s.children[c].killed && NobodyPends(s, c)
    ensures var s' := Apply(s, step);
      c < |s'.children| && s'.children[c].gone && !s'.children[c].killed && NobodyPends(s', c)
  {
    hide ThreadStep, ThreadEnabled;
    if !step.ChildExits? {
      ThreadSparesGone(s, s.threads[step.t], step, c);
    }
  }

  lemma ThreadSparesGone(s: State, thread: Thread, step: Step, c: nat)
    requires ThreadEnabled(thread, s.children, step) && c < |s.children| && s.children[c].gone && !s.children[c].killed
    requires thread.Waiting? || thread.Killing? ==> c !in thread.pending
    ensures var (s', next) := ThreadStep(s, thread, step);
      && c < |s'.children| && s'.children[c].gone && !s'.children[c].killed && s'.threads == s.threads
      && (next.Waiting? || next.Killing? ==> c !in next.pending)
  {
    if step.Kill? {
      assert thread.pending[thread.next] in thread.pending;
    }
  }

  /** Before anybody has requested shutdown no child has been sent a signal, and no thread is about to send one. */
  predicate NothingRequested(s: State) {
    !s.shutdownRequested ==>
      && (forall c | 0 <= c < |s.children| :: !s.children[c].terminated && !s.children[c].killed)
      && forall t | 0 <= t < |s.threads| ::
           var thread := s.threads[t];
           thread.Handling? || thread.Spawning? || thread.Entering? || (thread.Started? && !thread.signalled)
  }

  lemma {:induction false} NoSignalBeforeRequest(s: State, steps: seq<Step>)
    requires Legal(s, steps) && NothingRequested(s)
    ensures NothingRequested(Execute(s, steps))
    decreases |steps|
  {
    if steps != [] {
      NoSignalBeforeRequest(Apply(s, steps[0]), steps[1..]);
    }
  }

  // ----- the calls, step by step -----

  lemma {:induction false} RunExtends(s: State, steps: seq<Step>, step: Step)
    requires Legal(s, steps) && Enabled(Execute(s, steps), step)
    ensures Legal(s, steps + [step]) && Execute(s, steps + [step]) == Apply(Execute(s, steps), step)
    decreases |steps|
  {
    if steps == [] {
      OneStep(s, step, []);
      assert [] + [step] == [step] + [];
    } else {
      RunExtends(Apply(s, steps[0]), steps[1..], step);
      OneStep(s, steps[0], steps[1..] + [step]);
      assert steps + [step] == [steps[0]] + (steps[1..] + [step]);
    }
  }

  lemma {:induction false} SetWithinRange(seen: set<nat>, n: nat)
    requires forall c | c in seen :: c < n
    ensures |seen| <= n
  {
    if n > 0 {
      SetWithinRange(seen - {n - 1}, n - 1);
      assert seen <= (seen - {n - 1}) + {n - 1};
    } else {
      assert seen == {};
    }
  }

  lemma SubsetIsSmaller(a: set<nat>, b: set<nat>)
    requires a <= b
    ensures |a| <= |b|
  {
    assert b == a + (b - a);
  }

  /** The step of the thread at `t`, which is at `thread`. */
  lemma StepOfThread(s: State, threads: seq<Thread>, thread: Thread, step: Step)
    requires !step.ChildExits? && step.t < |threads| && s.threads == threads[step.t := thread]
    requires ThreadEnabled(thread, s.children, step)
    ensures var (shared, next) := ThreadStep(s, thread, step);
      Enabled(s, step) && Apply(s, step) == shared.(threads := threads[step.t := next])
  {
    hide ThreadStep, ThreadEnabled;
    assert threads[step.t := thread][step.t] == thread;
    var (_, next) := ThreadStep(s, thread, step);
    assert threads[step.t := thread][step.t := next] == threads[step.t := next];
  }

  lemma EnterRun(s: State, t: nat)
    requires Enabled(s, Enter(t))
    ensures Legal(s, [Enter(t)]) && Execute(s, [Enter(t)]) == Apply(s, Enter(t))
  {
    OneStep(s, Enter(t), []);
    assert [Enter(t)] + [] == [Enter(t)];
  }

  lemma ExitRuns(before: State, steps: seq<Step>, s: State, c: nat)
    requires c < |s.children| && !s.children[c].gone && Legal(before, steps) && Execute(before, steps) == s
    ensures Legal(before, steps + [ChildExits(c)])
    ensures Execute(before, steps + [ChildExits(c)])
      == s.(children := s.children[c := s.children[c].(gone := true)])
  {
    hide Legal, Execute;
    RunExtends(before, steps, ChildExits(c));
  }

  lemma CollectRuns(before: State, steps: seq<Step>, s: State, threads: seq<Thread>, seen: set<nat>, t: nat)
    requires t < |threads| && s.threads == threads[t := Collecting(seen)]
    requires Legal(before, steps) && Execute(before, steps) == s
    ensures var batch := Unseen(|s.children|, seen);
      && Legal(before, steps + [Collect(t)])
      && Execute(before, steps + [Collect(t)])
           == s.(threads := threads[t := if batch == [] then Terminated(seen) else Signalling(seen, batch, 0)])
  {
    hide Legal, Execute;
    StepOfThread(s, threads, Collecting(seen), Collect(t));
    RunExtends(before, steps, Collect(t));
  }

  /** What the threads share. `threads` and `t` name, for the contracts, the threads of the protocol and the one
      that makes the call; each method is one step of that thread. */
  class ProcessSupervisor {
    var children: seq<Child>
    var shutdownRequested: bool
    var shutdownSignal: Option<int>

    constructor ()
      ensures forall threads: seq<Thread> ::
        (forall t | 0 <= t < |threads| :: threads[t].Handling? || threads[t].Spawning? || threads[t].Entering?) ==>
          Init(With(threads))
    {
      children := [];
      shutdownRequested := false;
      shutdownSignal := None;
    }

    function With(threads: seq<Thread>): State
      reads this
    {
      State(shutdownRequested, shutdownSignal, children, threads)
    }

    method RequestShutdown(signal: Option<int>, ghost threads: seq<Thread>, ghost t: nat)
      requires t < |threads| && (threads[t] == Handling(signal) || (threads[t].Entering? && signal.None?))
      modifies this`shutdownRequested, this`shutdownSignal
      ensures shutdownRequested && (signal.Some? ==> shutdownSignal.Some?)
      ensures old(shutdownSignal).Some? || signal.None? ==> shutdownSignal == old(shutdownSignal)
      ensures if signal.Some? || threads[t].Handling?
        then With(threads[t := Handled]) == Apply(old(With(threads)), Request(t))
        else With(threads[t := Collecting({})]) == Apply(old(With(threads)), Enter(t))
    {
      shutdownRequested := true;
      if signal.Some? && shutdownSignal.None? {
        shutdownSignal := signal;
      }
    }

    /** Lists a started child and reads the flag, in one section under the lock. */
    method Register(ghost threads: seq<Thread>, ghost t: nat) returns (mustTerminate: bool)
      requires t < |threads| && threads[t].Spawning?
      modifies this`children
      ensures |children| == |old(children)| + 1 && mustTerminate == shutdownRequested
      ensures var c := |old(children)|;
        With(threads[t := if mustTerminate then MustTerminate(c) else Started(c, false)])
          == Apply(old(With(threads)), Append(t))
    {
      children := children + [Child(false, false, false)];
      mustTerminate := shutdownRequested;
    }

    method ListUnseen(seen: set<nat>) returns (batch: seq<nat>)
      ensures batch == Unseen(|children|, seen)
      ensures Increasing(batch) && forall c: nat :: c in batch <==> c < |children| && c !in seen
    {
      batch := [];
      for i := 0 to |children|
        invariant batch == Unseen(i, seen)
      {
        if i !in seen {
          batch := batch + [i];
        }
      }
      UnseenIsComplement(|children|, seen);
    }

    method TerminateChild(c: nat)
      requires c < |children|
      modifies this`children
      ensures children == SendTerm(old(children), c)
    {
      children := children[c := children[c].(terminated := true)];
    }

    method KillChild(c: nat)
      requires c < |children|
      modifies this`children
      ensures children == SendKill(old(children), c)
    {
      children := children[c := children[c].(killed := true)];
    }

    /** A whole `start` without interference is a run of the protocol. */
    method Start(ghost threads: seq<Thread>, ghost t: nat) returns (c: nat, ghost steps: seq<Step>)
      requires t < |threads| && threads[t].Spawning?
      modifies this
      ensures c == |old(children)| && |children| == c + 1
      ensures children[c].terminated <==> old(shutdownRequested)
      ensures Legal(old(With(threads)), steps)
      ensures Execute(old(With(threads)), steps) == With(threads[t := Started(c, shutdownRequested)])
    {
      ghost var before := With(threads);
      c := |children|;
      var mustTerminate := Register(threads, t);
      steps := [Append(t)];
      OneStep(before, Append(t), []);
      assert [Append(t)] + [] == [Append(t)];
      if mustTerminate {
        StepOfThread(With(threads[t := MustTerminate(c)]), threads, MustTerminate(c), Signal(t));
        RunExtends(before, steps, Signal(t));
        TerminateChild(c);
        steps := steps + [Signal(t)];
      }
    }

    method SignalBatch(
        batch: seq<nat>, known: set<nat>, ghost before: State, ghost done: seq<Step>, ghost threads: seq<Thread>,
        ghost t: nat)
      returns (seen: set<nat>, ghost steps: seq<Step>)
      requires t < |threads| && forall c | c in batch :: c < |children|
      requires Legal(before, done) && Execute(before, done) == With(threads[t := Signalling(known, batch, 0)])
      modifies this`children
      ensures |children| == |old(children)| && known <= seen && (forall c | c in batch :: c in seen)
        && (forall c | c in seen :: c in known || c in batch)
      ensures Legal(before, steps) && Execute(before, steps) == With(threads[t := Waiting(seen, batch, 0, [])])
    {
      hide Legal, Execute;
      seen, steps := known, done;
      for k := 0 to |batch|
        invariant |children| == |old(children)| && known <= seen
        invariant (forall j | 0 <= j < k :: batch[j] in seen) && forall c | c in seen :: c in known || c in batch
        invariant Legal(before, steps) && Execute(before, steps) == With(threads[t := Signalling(seen, batch, k)])
      {
        StepOfThread(With(threads[t := Signalling(seen, batch, k)]), threads, Signalling(seen, batch, k), Signal(t));
        RunExtends(before, steps, Signal(t));
        steps := steps + [Signal(t)];
        assert batch[k] in batch;
        TerminateChild(batch[k]);
        seen := seen + {batch[k]};
      }
      StepOfThread(With(threads[t := Signalling(seen, batch, |batch|)]), threads, Signalling(seen, batch, |batch|),
        BeginWaiting(t));
      RunExtends(before, steps, BeginWaiting(t));
      steps := steps + [BeginWaiting(t)];
    }

    /** Which children are still there when the deadline has passed. */
    method WaitForBatch(
        exits: nat -> bool, batch: seq<nat>, ghost seen: set<nat>, ghost before: State, ghost done: seq<Step>,
        ghost threads: seq<Thread>, ghost t: nat)
      returns (pending: seq<nat>, ghost steps: seq<Step>)
      requires t < |threads| && forall c | c in batch :: c < |children|
      requires Legal(before, done) && Execute(before, done) == With(threads[t := Waiting(seen, batch, 0, [])])
      modifies this`children
      ensures |children| == |old(children)| && forall c | c in pending :: c in batch
      ensures Legal(before, steps) && Execute(before, steps) == With(threads[t := Killing(seen, pending, 0)])
    {
      hide Legal, Execute, Apply, Enabled;
      pending, steps := [], done;
      for k := 0 to |batch|
        invariant |children| == |old(children)| && forall c | c in pending :: c in batch
        invariant Legal(before, steps) && Execute(before, steps) == With(threads[t := Waiting(seen, batch, k, pending)])
      {
        var c := batch[k];
        assert c in batch;
        if !children[c].gone && exits(c) {
          ExitRuns(before, steps, With(threads[t := Waiting(seen, batch, k, pending)]), c);
          steps := steps + [ChildExits(c)];
          children := children[c := children[c].(gone := true)];
        }
        StepOfThread(With(threads[t := Waiting(seen, batch, k, pending)]), threads, Waiting(seen, batch, k, pending),
          WaitFor(t));
        RunExtends(before, steps, WaitFor(t));
        steps := steps + [WaitFor(t)];
        if !children[c].gone {
          pending := pending + [c];
        }
      }
      ghost var waited := Waiting(seen, batch, |batch|, pending);
      StepOfThread(With(threads[t := waited]), threads, waited, BeginKilling(t));
      RunExtends(before, steps, BeginKilling(t));
      steps := steps + [BeginKilling(t)];
    }

    method KillPending(
        pending: seq<nat>, ghost seen: set<nat>, ghost before: State, ghost done: seq<Step>,
        ghost threads: seq<Thread>, ghost t: nat)
      returns (ghost steps: seq<Step>)
      requires t < |threads| && forall c | c in pending :: c < |children|
      requires Legal(before, done) && Execute(before, done) == With(threads[t := Killing(seen, pending, 0)])
      modifies this`children
      ensures |children| == |old(children)|
      ensures Legal(before, steps) && Execute(before, steps) == With(threads[t := Collecting(seen)])
    {
      hide Legal, Execute;
      steps := done;
      for k := 0 to |pending|
        invariant |children| == |old(children)|
        invariant Legal(before, steps) && Execute(before, steps) == With(threads[t := Killing(seen, pending, k)])
      {
        StepOfThread(With(threads[t := Killing(seen, pending, k)]), threads, Killing(seen, pending, k), Kill(t));
        RunExtends(before, steps, Kill(t));
        steps := steps + [Kill(t)];
        assert pending[k] in pending;
        KillChild(pending[k]);
      }
      StepOfThread(With(threads[t := Killing(seen, pending, |pending|)]), threads, Killing(seen, pending, |pending|),
        EndRound(t));
      RunExtends(before, steps, EndRound(t));
      steps := steps + [EndRound(t)];
    }

    /** One round: the unseen children are signalled, waited for, and killed when they are still there. */
    method TerminateRound(exits: nat -> bool, known: set<nat>, batch: seq<nat>,
                          ghost before: State, ghost done: seq<Step>, ghost threads: seq<Thread>, ghost t: nat)
      returns (seen: set<nat>, ghost steps: seq<Step>)
      requires t < |threads| && forall c | c in batch :: c < |children|
      requires Legal(before, done) && Execute(before, done) == With(threads[t := Signalling(known, batch, 0)])
      modifies this`children
      ensures |children| == |old(children)| && known <= seen
      ensures (forall c | c in batch :: c in seen) && forall c | c in seen :: c in known || c in batch
      ensures Legal(before, steps) && Execute(before, steps) == With(threads[t := Collecting(seen)])
    {
      hide Legal, Execute, Apply, Enabled;
      seen, steps := SignalBatch(batch, known, before, done, threads, t);
      var pending;
      pending, steps := WaitForBatch(exits, batch, seen, before, steps, threads, t);
      steps := KillPending(pending, seen, before, steps, threads, t);
    }

    /** A whole `terminate_all` without interference but for children that exit, of which `exits` tells, is a run
        of the protocol; at its end every child has been sent SIGTERM, and is gone or has been sent SIGKILL. */
    method TerminateAll(exits: nat -> bool, ghost threads: seq<Thread>, ghost t: nat)
      returns (seen: set<nat>, ghost steps: seq<Step>)
      requires t < |threads| && threads[t].Entering?
      modifies this
      ensures Legal(old(With(threads)), steps)
      ensures Execute(old(With(threads)), steps) == With(threads[t := Terminated(seen)])
      ensures shutdownRequested && |children| == |old(children)|
      ensures forall c: nat | c < |children| :: c in seen
    {
      ghost var before := With(threads);
      RequestShutdown(None, threads, t);
      EnterRun(before, t);
      seen, steps := {}, [Enter(t)];
      hide Legal, Execute, Apply, Enabled, ThreadStep;
      while true
        invariant shutdownRequested && |children| == |old(children)| && forall c | c in seen :: c < |children|
        invariant Legal(before, steps) && Execute(before, steps) == With(threads[t := Collecting(seen)])
        decreases |children| - |seen|
      {
        SetWithinRange(seen, |children|);
        var batch := ListUnseen(seen);
        CollectRuns(before, steps, With(threads[t := Collecting(seen)]), threads, seen, t);
        steps := steps + [Collect(t)];
        if batch == [] {
          return;
        }
        ghost var known := seen;
        seen, steps := TerminateRound(exits, seen, batch, before, steps, threads, t);
        assert batch[0] in batch;
        SetWithinRange(seen, |children|);
        SubsetIsSmaller(known + {batch[0]}, seen);
      }
    }
  }

  // ----- every shutdown ends -----

  function One(b: bool): nat { if b then 1 else 0 }

  function StartsLeft(threads: seq<Thread>): seq<nat> {
    seq(|threads|, t requires 0 <= t < |threads| => One(threads[t].Spawning?))
  }

  /** How many children there can ever be: those listed and those a start has yet to list. */
  function Population(s: State): nat {
    |s.children| + Sum(StartsLeft(s.threads))
  }

  /** Children a thread has not seen, out of `n`. */
  function Left(n: nat, seen: set<nat>): nat {
    if |seen| <= n then n - |seen| else 0
  }

  /** A bound on the steps a thread has left when there can be `n` children. */
  function Cost(n: nat, thread: Thread): nat {
    match thread
    case Handling(_) => 1
    case Spawning => 3
    case MustTerminate(_) => 1
    case Entering => 7 * n + 3
    case Collecting(seen) => 7 * Left(n, seen) + 2
    case Signalling(seen, _, next) => 7 * Left(n, seen) + 6 * next + 1
    case Waiting(seen, batch, next, pending) =>
      7 * Left(n, seen) + (if next <= |batch| then 2 * (|batch| - next) else 0) + |pending| + 4
    case Killing(seen, pending, next) => 7 * Left(n, seen) + (if next <= |pending| then |pending| - next else 0) + 3
    case _ => 0
  }

  function Costs(n: nat, threads: seq<Thread>): seq<nat> {
    seq(|threads|, t requires 0 <= t < |threads| => Cost(n, threads[t]))
  }

  function Alive(children: seq<Child>): seq<nat> {
    seq(|children|, c requires 0 <= c < |children| => One(!children[c].gone))
  }

  function StepsLeft(s: State): nat {
    Sum(Costs(Population(s), s.threads)) + Sum(Alive(s.children))
  }

  lemma StepKeepsPopulation(s: State, step: Step)
    requires Enabled(s, step)
    ensures Population(Apply(s, step)) == Population(s)
  {
    if !step.ChildExits? {
      var s', t := Apply(s, step), step.t;
      assert StartsLeft(s'.threads) == StartsLeft(s.threads)[t := One(s'.threads[t].Spawning?)];
      SumUpdate(StartsLeft(s.threads), t, One(s'.threads[t].Spawning?));
    }
  }

  /** Taking a step costs the thread more than it adds in children that are alive. */
  lemma StepCostsThread(s: State, step: Step, n: nat)
    requires Enabled(s, step) && !step.ChildExits? && ThreadFits(s, s.threads[step.t]) && |s.children| <= n
    ensures Cost(n, s.threads[step.t]) > Cost(n, ThreadStep(s, s.threads[step.t], step).1) + One(step.Append?)
  {
    hide ThreadFits, Unseen, SendTerm, SendKill;
    CountsOfThread(s, s.threads[step.t]);
  }

  /** What the bound needs to know of a thread. */
  lemma CountsOfThread(s: State, thread: Thread)
    requires ThreadFits(s, thread)
    ensures |SeenBy(thread)| <= |s.children|
    ensures match thread
      case Signalling(seen, batch, next) =>
        && next <= |batch| && batch != []
        && (next < |batch| ==> |seen + {batch[next]}| == |seen| + 1 <= |s.children|)
      case Waiting(_, batch, next, pending) => |pending| <= next <= |batch|
      case Killing(_, pending, next) => next <= |pending|
      case _ => true
  {
    SetWithinRange(SeenBy(thread), |s.children|);
    if thread.Signalling? && thread.next < |thread.batch| {
      SetWithinRange(thread.seen + {thread.batch[thread.next]}, |s.children|);
    }
  }

  lemma AliveAfter(s: State, step: Step)
    requires Enabled(s, step)
    ensures Sum(Alive(Apply(s, step).children)) + One(step.ChildExits?) == Sum(Alive(s.children)) + One(step.Append?)
  {
    var s' := Apply(s, step);
    if step.ChildExits? {
      assert Alive(s'.children) == Alive(s.children)[step.c := 0];
      SumUpdate(Alive(s.children), step.c, 0);
    } else if step.Append? {
      assert Alive(s'.children) == Alive(s.children) + [1];
      SumAppend(Alive(s.children), [1]);
    } else {
      assert Alive(s'.children) == Alive(s.children);
    }
  }

  lemma StepUsesSteps(s: State, step: Step)
    requires ThreadsFit(s) && Enabled(s, step)
    ensures StepsLeft(Apply(s, step)) < StepsLeft(s)
  {
    hide ThreadFits, ThreadStep, ThreadEnabled, Cost;
    var s', n := Apply(s, step), Population(s);
    StepKeepsPopulation(s, step);
    AliveAfter(s, step);
    if step.ChildExits? {
      assert s'.threads == s.threads;
    } else {
      var t := step.t;
      assert ThreadFits(s, s.threads[t]);
      StepCostsThread(s, step, n);
      assert Costs(n, s'.threads) == Costs(n, s.threads)[t := Cost(n, s'.threads[t])];
      SumUpdate(Costs(n, s.threads), t, Cost(n, s'.threads[t]));
    }
  }

  lemma {:induction false} RunsAreBounded(s: State, steps: seq<Step>)
    requires ThreadsFit(s) && Legal(s, steps)
    ensures |steps| <= StepsLeft(s)
    decreases |steps|
  {
    if steps != [] {
      StepUsesSteps(s, steps[0]);
      StepKeepsThreads(s, steps[0]);
      RunsAreBounded(Apply(s, steps[0]), steps[1..]);
    }
  }

  predicate Returned(thread: Thread) {
    thread.Handled? || thread.Started? || thread.StartRaised? || thread.Terminated? || thread.TerminateRaised?
  }

  /** With finitely many starts every run is bounded, rounds of `terminate_all` included, and a thread can
      always go on until it has returned. */
  lemma ShutdownEnds(s: State, steps: seq<Step>)
    requires Init(s) && Legal(s, steps)
    ensures |steps| <= StepsLeft(s)
    ensures var s' := Execute(s, steps);
      forall t | 0 <= t < |s'.threads| ::
        Returned(s'.threads[t]) <==> !exists step: Step :: !step.ChildExits? && step.t == t && Enabled(s', step)
  {
    hide Legal, Execute, ThreadFits, Accounted, InOrder, NobodyEscapes, Enabled, Returned, StepsLeft;
    InitFits(s);
    RunsAreBounded(s, steps);
    InvariantFromInit(s, steps);
    var s' := Execute(s, steps);
    forall t: nat | t < |s'.threads|
      ensures Returned(s'.threads[t]) <==> !exists step: Step :: !step.ChildExits? && step.t == t && Enabled(s', step)
    {
      if Returned(s'.threads[t]) {
        ReturnedThreadIsStuck(s', t);
      } else {
        UnfinishedThreadCanMove(s', t);
      }
    }
  }

  lemma InitFits(s: State)
    requires Init(s)
    ensures ThreadsFit(s)
  {
  }

  lemma ReturnedThreadIsStuck(s: State, t: nat)
    requires t < |s.threads| && Returned(s.threads[t])
    ensures forall step: Step | !step.ChildExits? && step.t == t :: !Enabled(s, step)
  {
  }

  lemma UnfinishedThreadCanMove(s: State, t: nat)
    requires t < |s.threads| && ThreadFits(s, s.threads[t]) && !Returned(s.threads[t])
    ensures exists step: Step :: !step.ChildExits? && step.t == t && Enabled(s, step)
  {
    var step :=
      match s.threads[t]
      case Handling(_) => Request(t)
      case Spawning => Append(t)
      case Entering => Enter(t)
      case Collecting(_) => Collect(t)
      case Signalling(_, batch, next) => if next < |batch| then Signal(t) else BeginWaiting(t)
      case Waiting(_, batch, next, _) => if next < |batch| then WaitFor(t) else BeginKilling(t)
      case Killing(_, pending, next) => if next < |pending| then Kill(t) else EndRound(t)
      case _ => Signal(t);
    assert Enabled(s, step);
  }
}
