/** The two blocking queues of the DAP library as machines of interleaved steps: `Chan` of
    dap/chan.h, whose items are taken one at a time, and `Pipe` of dap/io.cpp, whose reader
    waits until it has all the bytes it wants.

    All data is touched under one std::mutex, so a step is one statement of one thread.
    `cv.wait` gives the mutex back and falls asleep in one step, may be woken for no reason,
    and tests its predicate again after taking the mutex. */
module Channel {
  import opened Basics

  type Thread = nat
  type Item = nat

  datatype Kind = Chan | Pipe

  datatype PC =
    | Idle
    | PutEntry(items: seq<Item>)          // owns the mutex, nothing queued yet
    | PutQueued(notify: bool)             // owns the mutex, about to notify if it has to
    | CloseEntry                          // owns the mutex, not closed yet
    | CloseSet                            // owns the mutex, about to notify
    | TakeTest(want: nat, got: seq<Item>) // owns the mutex, about to test the predicate
    | Asleep(want: nat, got: seq<Item>)   // sleeping
    | Woken(want: nat, got: seq<Item>)    // awake, waiting for the mutex
    | TakeReady(want: nat, got: seq<Item>) // cv.wait has returned, owns the mutex
    | Unlocking(want: nat, got: seq<Item>) // has its result, about to release the mutex
  {
    predicate OwnsMutex() {
      !Idle? && !Asleep? && !Woken?
    }

    /** Inside take or read, its result not complete. */
    predicate Waits() {
      TakeTest? || Asleep? || Woken? || TakeReady?
    }

    /** Will notify before it releases the mutex. */
    predicate WillNotify() {
      (PutQueued? && notify) || CloseSet?
    }
  }

  /** `put` and `taken` are the whole history: what has ever been queued and removed. */
  datatype State = State(
    kind: Kind, queue: seq<Item>, closed: bool, owner: Option<Thread>, pcs: map<Thread, PC>,
    put: seq<Item>, taken: seq<Item>)

  datatype Action =
    | EnterPut(t: Thread, items: seq<Item>) | Push(t: Thread) | Notify(t: Thread)
    | EnterClose(t: Thread) | SetClosed(t: Thread) | NotifyClosed(t: Thread)
    | EnterTake(t: Thread, want: nat) | Test(t: Thread) | WakeSpuriously(t: Thread) | Reacquire(t: Thread)
    | Take(t: Thread) | Release(t: Thread)

  /** A channel takes one item at a time and queues one at a time. */
  predicate Enabled(s: State, a: Action) {
    && a.t in s.pcs
    && var pc := s.pcs[a.t];
       match a
       case EnterPut(_, items) => pc == Idle && s.owner == None && (s.kind == Chan ==> |items| == 1)
       case Push(_) => pc.PutEntry?
       case Notify(_) => pc.PutQueued?
       case EnterClose(_) => pc == Idle && s.owner == None
       case SetClosed(_) => pc == CloseEntry
       case NotifyClosed(_) => pc == CloseSet
       case EnterTake(_, want) => pc == Idle && s.owner == None && (s.kind == Chan ==> want == 1)
       case Test(_) => pc.TakeTest?
       case WakeSpuriously(_) => pc.Asleep?
       case Reacquire(_) => pc.Woken? && s.owner == None
       case Take(_) => pc.TakeReady?
       case Release(_) => pc.Unlocking?
  }

  function Go(s: State, t: Thread, pc: PC): State {
    s.(pcs := s.pcs[t := pc])
  }

  /** notify_all */
  function WakeAll(s: State): State {
    s.(pcs := map t | t in s.pcs :: if s.pcs[t].Asleep? then Woken(s.pcs[t].want, s.pcs[t].got) else s.pcs[t])
  }

  predicate Available(s: State) {
    s.queue != [] || s.closed
  }

  function Step(s: State, a: Action): State
    requires Enabled(s, a)
  {
    var pc := s.pcs[a.t];
    match a
    case EnterPut(t, items) => Go(s, t, PutEntry(items)).(owner := Some(t))
    case Push(t) =>
      if s.kind == Pipe && (s.closed || pc.items == []) then
        Go(s, t, PutQueued(false))
      else
        Go(s, t, PutQueued(s.queue == [] && !s.closed)).(queue := s.queue + pc.items, put := s.put + pc.items)
    case Notify(t) => Go(if pc.notify then WakeAll(s) else s, t, Unlocking(0, []))
    case EnterClose(t) => Go(s, t, CloseEntry).(owner := Some(t))
    case SetClosed(t) => Go(s, t, CloseSet).(closed := true)
    case NotifyClosed(t) => Go(WakeAll(s), t, Unlocking(0, []))
    case EnterTake(t, want) => Go(s, t, TakeTest(want, [])).(owner := Some(t))
    case Test(t) =>
      if Available(s) then Go(s, t, TakeReady(pc.want, pc.got))
      else Go(s, t, Asleep(pc.want, pc.got)).(owner := None)
    case WakeSpuriously(t) => Go(s, t, Woken(pc.want, pc.got))
    case Reacquire(t) => Go(s, t, TakeTest(pc.want, pc.got)).(owner := Some(t))
    case Take(t) => TakeStep(s, t, pc.want, pc.got)
    case Release(t) => Go(s, t, Idle).(owner := None)
  }

  /** How many items the taker removes at once. */
  function Removed(s: State, pc: PC): nat
    requires pc.TakeReady?
  {
    Min(if |pc.got| < pc.want then pc.want - |pc.got| else 0, |s.queue|)
  }

  /** A channel returns the front item, or nothing if there is none; a closed pipe returns
      what it has, an open one goes on until it has everything. */
  function TakeStep(s: State, t: Thread, want: nat, got: seq<Item>): State
    requires t in s.pcs && s.pcs[t] == TakeReady(want, got)
  {
    if s.kind == Pipe && s.closed then
      Go(s, t, Unlocking(want, got))
    else
      var n := Removed(s, s.pcs[t]);
      var all := got + s.queue[..n];
      var next := if s.kind == Chan || |all| == want then Unlocking(want, all) else TakeTest(want, all);
      Go(s, t, next).(queue := s.queue[n..], taken := s.taken + s.queue[..n])
  }

  function Init(kind: Kind, threads: set<Thread>): State {
    State(kind, [], false, None, map t | t in threads :: Idle, [], [])
  }

  predicate Legal(s: State, run: seq<Action>)
    decreases |run|
  {
    run == [] || (Enabled(s, run[0]) && Legal(Step(s, run[0]), run[1..]))
  }

  function After(s: State, run: seq<Action>): State
    requires Legal(s, run)
    decreases |run|
  {
    if run == [] then s else After(Step(s, run[0]), run[1..])
  }

  // ---------- the invariant ----------

  predicate MutexOwned(s: State) {
    && (forall t :: t in s.pcs && s.pcs[t].OwnsMutex() ==> s.owner == Some(t))
    && (s.owner.Some? ==> s.owner.value in s.pcs && s.pcs[s.owner.value].OwnsMutex())
  }

  predicate Notifying(s: State) {
    s.owner.Some? && s.owner.value in s.pcs && s.pcs[s.owner.value].WillNotify()
  }

  predicate SomeoneAsleep(s: State) {
    exists t :: t in s.pcs && s.pcs[t].Asleep?
  }

  /** While someone sleeps there is nothing to take and the queue is open, or else the owner
      of the mutex is about to wake everybody. */
  predicate SleepersWait(s: State) {
    SomeoneAsleep(s) ==> !Available(s) || Notifying(s)
  }

  /** A thread inside take can still take more, and found something when it says so. */
  predicate Sound(kind: Kind, pc: PC, available: bool) {
    && (pc.TakeReady? ==> available)
    && (pc.Waits() ==> |pc.got| <= pc.want)
    && (pc.Waits() && kind == Chan ==> pc.got == [] && pc.want == 1)
  }

  predicate TakersSound(s: State) {
    forall t :: t in s.pcs ==> Sound(s.kind, s.pcs[t], Available(s))
  }

  predicate Conserved(s: State) {
    s.taken + s.queue == s.put
  }

  predicate Inv(s: State) {
    MutexOwned(s) && SleepersWait(s) && TakersSound(s) && Conserved(s)
  }

  lemma StepMutex(s: State, a: Action)
    requires Inv(s) && Enabled(s, a)
    ensures MutexOwned(Step(s, a))
  {
  }

  lemma StepSleepers(s: State, a: Action)
    requires Inv(s) && Enabled(s, a)
    ensures SleepersWait(Step(s, a))
  {
    var s' := Step(s, a);
    StepMutex(s, a);
    if SomeoneAsleep(s') {
      var z :| z in s'.pcs && s'.pcs[z].Asleep?;
      if !a.Test? || z != a.t {
        assert s.pcs[z].Asleep?;
      }
    }
  }

  /** What the step does to the thread that takes it. */
  lemma ActorSound(s: State, a: Action)
    requires Inv(s) && Enabled(s, a)
    ensures Step(s, a).kind == s.kind
    ensures Sound(s.kind, Step(s, a).pcs[a.t], Available(Step(s, a)))
  {
    hide MutexOwned, SleepersWait, Conserved;
    assert Sound(s.kind, s.pcs[a.t], Available(s));
  }

  /** Another thread stays where it is, or is woken. */
  lemma OthersStay(s: State, a: Action, t: Thread)
    requires Enabled(s, a) && t in s.pcs && t != a.t
    ensures t in Step(s, a).pcs
    ensures var pc := s.pcs[t];
            Step(s, a).pcs[t] == pc || (pc.Asleep? && Step(s, a).pcs[t] == Woken(pc.want, pc.got))
  {
  }

  lemma StepTakers(s: State, a: Action)
    requires Inv(s) && Enabled(s, a)
    ensures TakersSound(Step(s, a))
  {
    var s' := Step(s, a);
    ActorSound(s, a);
    NoNewThreads(s, a);
    forall t | t in s'.pcs ensures Sound(s'.kind, s'.pcs[t], Available(s')) {
      hide Step, SleepersWait, Conserved;
      if t != a.t {
        OthersStay(s, a, t);
        assert Sound(s.kind, s.pcs[t], Available(s));
        if s.pcs[t].TakeReady? {
          OwnerAlone(s, a, t);
        }
      }
    }
  }

  lemma NoNewThreads(s: State, a: Action)
    requires Enabled(s, a)
    ensures forall t :: t in Step(s, a).pcs ==> t in s.pcs
  {
  }

  /** While one thread owns the mutex nothing is queued, removed or closed by another. */
  lemma OwnerAlone(s: State, a: Action, t: Thread)
    requires MutexOwned(s) && Enabled(s, a) && t in s.pcs && t != a.t && s.pcs[t].OwnsMutex()
    ensures Step(s, a).queue == s.queue && Step(s, a).closed == s.closed
  {
  }

  lemma MoveFront(taken: seq<Item>, queue: seq<Item>, n: nat)
    requires n <= |queue|
    ensures taken + queue[..n] + queue[n..] == taken + queue
  {
    assert queue[..n] + queue[n..] == queue;
  }

  lemma StepConserves(s: State, a: Action)
    requires Inv(s) && Enabled(s, a)
    ensures Conserved(Step(s, a))
  {
    hide MutexOwned, SleepersWait, TakersSound;
    if a.Push? {
      assert s.taken + (s.queue + s.pcs[a.t].items) == s.taken + s.queue + s.pcs[a.t].items;
    } else if a.Take? {
      MoveFront(s.taken, s.queue, Removed(s, s.pcs[a.t]));
    }
  }

  lemma StepInv(s: State, a: Action)
    requires Inv(s) && Enabled(s, a)
    ensures Inv(Step(s, a))
  {
    hide MutexOwned, SleepersWait, TakersSound, Conserved, Step;
    StepMutex(s, a);
    StepSleepers(s, a);
    StepTakers(s, a);
    StepConserves(s, a);
  }

  lemma {:induction false} RunInv(s: State, run: seq<Action>)
    requires Inv(s) && Legal(s, run)
    ensures Inv(After(s, run))
    decreases |run|
  {
    hide Step, Inv;
    if run != [] {
      StepInv(s, run[0]);
      RunInv(Step(s, run[0]), run[1..]);
    }
  }

  ghost predicate Reachable(kind: Kind, threads: set<Thread>, s: State) {
    exists run :: Legal(Init(kind, threads), run) && After(Init(kind, threads), run) == s
  }

  lemma ReachableInv(kind: Kind, threads: set<Thread>, s: State)
    requires Reachable(kind, threads, s)
    ensures Inv(s)
  {
    hide Step, Enabled;
    var run :| Legal(Init(kind, threads), run) && After(Init(kind, threads), run) == s;
    assert Inv(Init(kind, threads));
    RunInv(Init(kind, threads), run);
  }

  // ---------- what every reachable state satisfies ----------

  /** Nobody sleeps through an item or the closing: with the mutex at rest a sleeping taker
      means an empty, open queue; in the middle of a critical section the only other case is
      an owner that is about to wake everybody. */
  lemma NoLostWakeup(kind: Kind, threads: set<Thread>, s: State)
    requires Reachable(kind, threads, s) && SomeoneAsleep(s)
    ensures s.owner == None ==> s.queue == [] && !s.closed
    ensures (s.queue == [] && !s.closed) || exists t :: t in s.pcs && s.owner == Some(t) && s.pcs[t].WillNotify()
  {
    ReachableInv(kind, threads, s);
  }

  /** First in, first out: what has been removed, followed by what is queued, is what has
      been put. */
  lemma InOrder(kind: Kind, threads: set<Thread>, s: State)
    requires Reachable(kind, threads, s)
    ensures s.taken + s.queue == s.put
  {
    ReachableInv(kind, threads, s);
  }

  /** A taker comes back with less than it wanted only from a closed queue, and a channel
      only once it has been drained; otherwise it has exactly what it wanted. */
  lemma ShortMeansClosed(kind: Kind, threads: set<Thread>, s: State, t: Thread)
    requires Reachable(kind, threads, s) && Enabled(s, Take(t))
    requires Step(s, Take(t)).pcs[t].Unlocking?
    ensures var pc := Step(s, Take(t)).pcs[t];
            |pc.got| <= pc.want &&
            (|pc.got| < pc.want ==> s.closed) &&
            (kind == Chan ==> (pc.got == [] <==> s.queue == []) && (pc.got != [] ==> pc.got == s.queue[..1]))
  {
    ReachableInv(kind, threads, s);
    KindStays(kind, threads, s);
    assert Sound(s.kind, s.pcs[t], Available(s));
    ActorSound(s, Take(t));
  }

  lemma KindStays(kind: Kind, threads: set<Thread>, s: State)
    requires Reachable(kind, threads, s)
    ensures s.kind == kind
  {
    hide Step, Enabled;
    var run :| Legal(Init(kind, threads), run) && After(Init(kind, threads), run) == s;
    RunKind(Init(kind, threads), run);
  }

  lemma {:induction false} RunKind(s: State, run: seq<Action>)
    requires Legal(s, run)
    ensures After(s, run).kind == s.kind
    decreases |run|
  {
    hide Enabled;
    if run != [] {
      OneKind(s, run[0]);
      RunKind(Step(s, run[0]), run[1..]);
    }
  }

  lemma OneKind(s: State, a: Action)
    requires Enabled(s, a)
    ensures Step(s, a).kind == s.kind
  {
  }

  /** Whoever waits keeps what it has until it takes more, and what it takes comes off the front
      of the queue and goes to the end of what it has. */
  lemma WaiterKeeps(s: State, a: Action, t: Thread)
    requires Enabled(s, a) && t in s.pcs && s.pcs[t].Waits()
    ensures var pc, pc', next := s.pcs[t], Step(s, a).pcs[t], Step(s, a);
            (pc'.Waits() || pc'.Unlocking?) && pc'.want == pc.want &&
            if a == Take(t) then
              exists n: nat :: n <= |s.queue| && next.queue == s.queue[n..] &&
                next.taken == s.taken + s.queue[..n] && pc'.got == pc.got + s.queue[..n]
            else pc'.got == pc.got
  {
    if a == Take(t) {
      var n := if s.kind == Pipe && s.closed then 0 else Removed(s, s.pcs[t]);
      assert s.queue[..0] == [] && s.queue[0..] == s.queue && s.taken + [] == s.taken;
      assert s.pcs[t].got + [] == s.pcs[t].got;
      assert Step(s, a).pcs[t].got == s.pcs[t].got + s.queue[..n];
    } else if a.t != t {
      OthersStay(s, a, t);
    }
  }

  /** When there is something to take and the mutex is at rest, every thread that waits is
      awake: it can take the mutex, and from there its own next two steps remove an item or
      find the queue closed, with no spurious wakeup and no further notification. */
  lemma WaiterTakes(kind: Kind, threads: set<Thread>, s: State, t: Thread)
    requires Reachable(kind, threads, s) && s.owner == None && Available(s)
    requires t in s.pcs && s.pcs[t].Waits() && |s.pcs[t].got| < s.pcs[t].want
    ensures Legal(s, [Reacquire(t), Test(t), Take(t)])
    ensures var s' := After(s, [Reacquire(t), Test(t), Take(t)]);
            if s.queue == [] || (kind == Pipe && s.closed) then
              t in s'.pcs && s'.pcs[t].Unlocking? && s'.queue == s.queue
            else |s'.queue| < |s.queue|
  {
    ReachableInv(kind, threads, s);
    KindStays(kind, threads, s);
    assert Sound(s.kind, s.pcs[t], Available(s));
    IsWoken(s, t);
    hide Inv, Reachable, Legal, After;
    WokenTakes(s, t);
  }

  lemma IsWoken(s: State, t: Thread)
    requires Inv(s) && s.owner == None && Available(s) && t in s.pcs && s.pcs[t].Waits()
    ensures s.pcs[t].Woken?
  {
    if s.pcs[t].Asleep? {
      assert SomeoneAsleep(s);
    }
  }

  lemma WokenTests(s: State, t: Thread)
    requires s.owner == None && Available(s) && t in s.pcs && s.pcs[t].Woken?
    ensures Enabled(s, Reacquire(t)) && Enabled(Step(s, Reacquire(t)), Test(t))
    ensures var pc := s.pcs[t];
            Step(Step(s, Reacquire(t)), Test(t)) == Go(s, t, TakeReady(pc.want, pc.got)).(owner := Some(t))
  {
    var pc := s.pcs[t];
    assert s.pcs[t := TakeTest(pc.want, pc.got)][t := TakeReady(pc.want, pc.got)] ==
           s.pcs[t := TakeReady(pc.want, pc.got)];
  }

  lemma ReadyTakes(s: State, t: Thread)
    requires t in s.pcs && s.pcs[t].TakeReady? && |s.pcs[t].got| < s.pcs[t].want
    ensures Enabled(s, Take(t))
    ensures var s' := Step(s, Take(t));
            if s.queue == [] || (s.kind == Pipe && s.closed) then
              s.closed ==> t in s'.pcs && s'.pcs[t].Unlocking? && s'.queue == s.queue
            else |s'.queue| < |s.queue|
  {
  }

  lemma WokenTakes(s: State, t: Thread)
    requires s.owner == None && Available(s) && t in s.pcs && s.pcs[t].Woken? && |s.pcs[t].got| < s.pcs[t].want
    ensures Legal(s, [Reacquire(t), Test(t), Take(t)])
    ensures var s' := After(s, [Reacquire(t), Test(t), Take(t)]);
            if s.queue == [] || (s.kind == Pipe && s.closed) then
              t in s'.pcs && s'.pcs[t].Unlocking? && s'.queue == s.queue
            else |s'.queue| < |s.queue|
  {
    hide Legal, After, Step, Enabled;
    WokenTests(s, t);
    ReadyTakes(Step(Step(s, Reacquire(t)), Test(t)), t);
    ThreeSteps(s, Reacquire(t), Test(t), Take(t));
  }

  lemma ThreeSteps(s: State, a: Action, b: Action, c: Action)
    requires Enabled(s, a) && Enabled(Step(s, a), b) && Enabled(Step(Step(s, a), b), c)
    ensures Legal(s, [a, b, c]) && After(s, [a, b, c]) == Step(Step(Step(s, a), b), c)
  {
    hide Enabled, Step;
    var s1, s2 := Step(s, a), Step(Step(s, a), b);
    OneStep(s2, c, []);
    assert [c] == [c] + [] && [b, c] == [b] + [c] && [a, b, c] == [a] + [b, c];
    OneStep(s1, b, [c]);
    OneStep(s, a, [b, c]);
  }

  lemma OneStep(s: State, a: Action, run: seq<Action>)
    requires Enabled(s, a) && Legal(Step(s, a), run)
    ensures Legal(s, [a] + run) && After(s, [a] + run) == After(Step(s, a), run)
  {
    hide Enabled, Step;
    assert ([a] + run)[1..] == run;
  }

  // ---------- what each call does when nothing else moves ----------

  lemma TwoSteps(s: State, a: Action, b: Action)
    requires Enabled(s, a) && Enabled(Step(s, a), b)
    ensures Legal(s, [a, b]) && After(s, [a, b]) == Step(Step(s, a), b)
  {
    hide Enabled, Step;
    OneStep(Step(s, a), b, []);
    assert [b] == [b] + [] && [a, b] == [a] + [b];
    OneStep(s, a, [b]);
  }

  lemma FourSteps(s: State, a: Action, b: Action, c: Action, d: Action)
    requires Enabled(s, a) && Enabled(Step(s, a), b) && Enabled(Step(Step(s, a), b), c)
    requires Enabled(Step(Step(Step(s, a), b), c), d)
    ensures Legal(s, [a, b, c, d]) && After(s, [a, b, c, d]) == Step(Step(Step(Step(s, a), b), c), d)
  {
    hide Enabled, Step;
    ThreeSteps(Step(s, a), b, c, d);
    assert [a, b, c, d] == [a] + [b, c, d];
    OneStep(s, a, [b, c, d]);
  }

  /** put and write, however much is queued: the items go to the back, and everybody asleep is
      woken if the queue was empty and open. A closed pipe takes nothing. */
  lemma PutCall(s: State, t: Thread, items: seq<Item>)
    requires s.owner == None && t in s.pcs && s.pcs[t] == Idle && (s.kind == Chan ==> |items| == 1)
    ensures var run := [EnterPut(t, items), Push(t), Notify(t), Release(t)];
            Legal(s, run) &&
            After(s, run) ==
              if s.kind == Pipe && (s.closed || items == []) then s
              else (if s.queue == [] && !s.closed then WakeAll(s) else s)
                     .(queue := s.queue + items, put := s.put + items)
  {
    var s1 := Step(s, EnterPut(t, items));
    var s2 := Step(s1, Push(t));
    var s3 := Step(s2, Notify(t));
    var s4 := Step(s3, Release(t));
    FourSteps(s, EnterPut(t, items), Push(t), Notify(t), Release(t));
    if s2.pcs[t].notify {
      assert s4.pcs == WakeAll(s).pcs;
    } else {
      assert s4.pcs == s.pcs;
    }
  }

  /** take and read when there is something to take: a channel gives its front item, a pipe as
      many bytes from the front as are wanted and there, and a closed pipe nothing. Whoever got
      less from an open pipe goes on waiting. */
  lemma TakeCall(s: State, t: Thread, want: nat)
    requires s.owner == None && t in s.pcs && s.pcs[t] == Idle && (s.kind == Chan ==> want == 1) && Available(s)
    ensures var run := [EnterTake(t, want), Test(t), Take(t)];
            var n := if s.kind == Pipe && s.closed then 0 else Min(want, |s.queue|);
            var got := s.queue[..n];
            Legal(s, run) &&
            After(s, run) ==
              Go(s, t, if s.kind == Chan || s.closed || n == want then Unlocking(want, got) else TakeTest(want, got))
                .(owner := Some(t), queue := s.queue[n..], taken := s.taken + got)
  {
    var s1 := Step(s, EnterTake(t, want));
    var s2 := Step(s1, Test(t));
    var s3 := Step(s2, Take(t));
    ThreeSteps(s, EnterTake(t, want), Test(t), Take(t));
    assert s3.pcs == s.pcs[t := s3.pcs[t]];
    assert s.queue[0..] == s.queue && s.taken + s.queue[..0] == s.taken && s.queue[..0] == [];
    var got := s.queue[..Min(want, |s.queue|)];
    assert [] + got == got;
  }

  /** With nothing there the caller falls asleep and gives the mutex back. */
  lemma WaitCall(s: State, t: Thread, want: nat)
    requires s.owner == None && t in s.pcs && s.pcs[t] == Idle && (s.kind == Chan ==> want == 1) && !Available(s)
    ensures var run := [EnterTake(t, want), Test(t)];
            Legal(s, run) && After(s, run) == Go(s, t, Asleep(want, []))
  {
    var s1 := Step(s, EnterTake(t, want));
    TwoSteps(s, EnterTake(t, want), Test(t));
    assert s.pcs[t := TakeTest(want, [])][t := Asleep(want, [])] == s.pcs[t := Asleep(want, [])];
  }

  /** close wakes everybody. */
  lemma CloseCall(s: State, t: Thread)
    requires s.owner == None && t in s.pcs && s.pcs[t] == Idle
    ensures var run := [EnterClose(t), SetClosed(t), NotifyClosed(t), Release(t)];
            Legal(s, run) && After(s, run) == WakeAll(s).(closed := true)
  {
    var s1 := Step(s, EnterClose(t));
    var s2 := Step(s1, SetClosed(t));
    var s3 := Step(s2, NotifyClosed(t));
    var s4 := Step(s3, Release(t));
    FourSteps(s, EnterClose(t), SetClosed(t), NotifyClosed(t), Release(t));
    assert s4.pcs == WakeAll(s).pcs;
  }

  /** Nothing but the mutex, and the lack of items, ever holds a thread up: in any other place
      it has a step of its own. */
  lemma NobodyStuck(s: State, t: Thread) returns (a: Action)
    requires t in s.pcs && (s.owner == None || !(s.pcs[t].Idle? || s.pcs[t].Woken?))
    ensures a.t == t && Enabled(s, a) && (a.WakeSpuriously? ==> s.pcs[t].Asleep?)
  {
    match s.pcs[t] {
      case Idle => a := EnterClose(t);
      case PutEntry(_) => a := Push(t);
      case PutQueued(_) => a := Notify(t);
      case CloseEntry => a := SetClosed(t);
      case CloseSet => a := NotifyClosed(t);
      case TakeTest(_, _) => a := Test(t);
      case Asleep(_, _) => a := WakeSpuriously(t);
      case Woken(_, _) => a := Reacquire(t);
      case TakeReady(_, _) => a := Take(t);
      case Unlocking(_, _) => a := Release(t);
    }
  }

  // ---------- closing ----------

  lemma {:induction false} RunConcat(s: State, run: seq<Action>, more: seq<Action>)
    requires Legal(s, run) && Legal(After(s, run), more)
    ensures Legal(s, run + more) && After(s, run + more) == After(After(s, run), more)
    decreases |run|
  {
    hide Enabled, Step;
    if run == [] {
      assert run + more == more;
    } else {
      assert (run + more)[1..] == run[1..] + more;
      RunConcat(Step(s, run[0]), run[1..], more);
    }
  }

  lemma StaysReachable(kind: Kind, threads: set<Thread>, s: State, run: seq<Action>)
    requires Reachable(kind, threads, s) && Legal(s, run)
    ensures Reachable(kind, threads, After(s, run))
  {
    hide Step, Enabled;
    var before :| Legal(Init(kind, threads), before) && After(Init(kind, threads), before) == s;
    RunConcat(Init(kind, threads), before, run);
  }

  /** Nothing enters or leaves a closed pipe, whatever is tried. */
  lemma {:induction false} ClosedPipeIsFrozen(s: State, run: seq<Action>)
    requires s.kind == Pipe && s.closed && Legal(s, run)
    ensures var s' := After(s, run);
            s'.closed && s'.queue == s.queue && s'.taken == s.taken && s'.put == s.put
    decreases |run|
  {
    hide Enabled;
    if run != [] {
      FrozenStep(s, run[0]);
      ClosedPipeIsFrozen(Step(s, run[0]), run[1..]);
    }
  }

  lemma FrozenStep(s: State, a: Action)
    requires s.kind == Pipe && s.closed && Enabled(s, a)
    ensures var s' := Step(s, a);
            s'.kind == Pipe && s'.closed && s'.queue == s.queue && s'.taken == s.taken && s'.put == s.put
  {
  }

  /** Some continuation takes everything that has been put. */
  ghost predicate CanDrain(s: State) {
    exists run :: Legal(s, run) && After(s, run).taken == After(s, run).put
  }

  /** What has been put into a pipe can all still be taken after it is closed exactly when
      nothing is queued at the closing. */
  lemma ClosingStrands(threads: set<Thread>, s: State, t: Thread)
    requires Reachable(Pipe, threads, s) && Enabled(s, SetClosed(t))
    ensures CanDrain(Step(s, SetClosed(t))) <==> s.queue == []
  {
    var s' := Step(s, SetClosed(t));
    ReachableInv(Pipe, threads, s);
    KindStays(Pipe, threads, s);
    if CanDrain(s') {
      var run :| Legal(s', run) && After(s', run).taken == After(s', run).put;
      ClosedPipeIsFrozen(s', run);
      assert s.taken + s.queue == s.taken;
    }
    if s.queue == [] {
      assert s.taken + [] == s.taken;
      assert Legal(s', []) && After(s', []) == s';
    }
  }

  /** It does happen: one write and one close leave a closed pipe that holds the bytes for good. */
  lemma PipeStrands(item: Item)
    ensures exists s :: Reachable(Pipe, {0}, s) && s.closed && s.queue == [item] && !CanDrain(s)
  {
    hide Reachable, CanDrain, Legal, After;
    OneWritten(item);
    var open := Alone([item], false, Some(0), CloseEntry, [item]);
    var closed := Alone([item], true, Some(0), CloseSet, [item]);
    StepReachable(Alone([item], false, None, Idle, [item]), EnterClose(0), open);
    StepReachable(open, SetClosed(0), closed);
    ClosingStrands({0}, open, 0);
  }

  lemma OneWritten(item: Item)
    ensures Reachable(Pipe, {0}, Alone([item], false, None, Idle, [item]))
  {
    hide Reachable, Legal, After;
    StartAlone();
    var s0, s := Alone([], false, None, Idle, []), Alone([item], false, None, Idle, [item]);
    var run := [EnterPut(0, [item]), Push(0), Notify(0), Release(0)];
    PutCall(s0, 0, [item]);
    assert [] + [item] == [item];
    assert WakeAll(s0).pcs == s.pcs;
    StaysReachable(Pipe, {0}, s0, run);
  }

  /** A pipe with one thread. */
  function Alone(queue: seq<Item>, closed: bool, owner: Option<Thread>, pc: PC, put: seq<Item>): State {
    State(Pipe, queue, closed, owner, map[0 := pc], put, [])
  }

  lemma StartAlone()
    ensures Reachable(Pipe, {0}, Alone([], false, None, Idle, []))
  {
    assert Init(Pipe, {0}) == Alone([], false, None, Idle, []);
    assert Legal(Init(Pipe, {0}), []) && After(Init(Pipe, {0}), []) == Init(Pipe, {0});
  }

  lemma StepReachable(s: State, a: Action, s': State)
    requires Reachable(Pipe, {0}, s) && Enabled(s, a) && Step(s, a) == s'
    ensures Reachable(Pipe, {0}, s')
  {
    hide Step, Enabled;
    assert [a][1..] == [] && Legal(s, [a]) && After(s, [a]) == s';
    StaysReachable(Pipe, {0}, s, [a]);
  }

  // ---------- draining a channel ----------

  /** A channel, by contrast, can always be drained after the closing: an idle thread gets
      the queued items one by one. */
  lemma {:induction false} ClosedChannelDrains(threads: set<Thread>, s: State, t: Thread)
    requires Reachable(Chan, threads, s) && s.closed && s.owner == None && t in s.pcs && s.pcs[t] == Idle
    ensures CanDrain(s)
    decreases |s.queue|
  {
    hide Step, Enabled, Reachable;
    InOrder(Chan, threads, s);
    if s.queue == [] {
      assert s.taken + [] == s.taken;
      assert Legal(s, []) && After(s, []) == s;
    } else {
      var run := [EnterTake(t, 1), Test(t), Take(t), Release(t)];
      TakesOne(threads, s, t);
      var s' := After(s, run);
      StaysReachable(Chan, threads, s, run);
      ClosedChannelDrains(threads, s', t);
      var more :| Legal(s', more) && After(s', more).taken == After(s', more).put;
      RunConcat(s, run, more);
    }
  }

  lemma TakesOne(threads: set<Thread>, s: State, t: Thread)
    requires Reachable(Chan, threads, s) && s.closed && s.owner == None && s.queue != []
    requires t in s.pcs && s.pcs[t] == Idle
    ensures var run := [EnterTake(t, 1), Test(t), Take(t), Release(t)];
            Legal(s, run) &&
            var s' := After(s, run);
            s'.closed && s'.owner == None && t in s'.pcs && s'.pcs[t] == Idle && |s'.queue| < |s.queue|
  {
    KindStays(Chan, threads, s);
    hide Reachable;
    var s1 := Step(s, EnterTake(t, 1));
    var s2 := Step(s1, Test(t));
    var s3 := Step(s2, Take(t));
    ThreeSteps(s1, Test(t), Take(t), Release(t));
    OneStep(s, EnterTake(t, 1), [Test(t), Take(t), Release(t)]);
    assert [EnterTake(t, 1)] + [Test(t), Take(t), Release(t)] == [EnterTake(t, 1), Test(t), Take(t), Release(t)];
  }
}
