/** The reader/writer lock of dap/rwmutex.h as a machine of interleaved steps.

    Every access to the two counters happens under the inner std::mutex, so a step is one
    statement of one thread together with its effect on the counters, on the owner of the
    mutex and on the threads sleeping in the condition variable. `cv.wait` releases the
    mutex and falls asleep in one step, may be woken without a notification, and tests its
    predicate again after taking the mutex back. */
module RWMutex {
  import opened Basics

  type Thread = nat

  /** Where a thread stands. */
  datatype PC =
    | Idle
    | ReadEntry       // lockReader: owns the mutex, has not counted itself
    | ReadCounted     // lockReader: has counted itself, still owns the mutex
    | Reading         // holds a read lock
    | LeaveEntry      // unlockReader: owns the mutex, still counted
    | LeaveCounted    // unlockReader: no longer counted, about to notify
    | LeaveNotified   // unlockReader: about to release the mutex
    | WriteEntry      // lockWriter: owns the mutex, about to look at readLocks
    | WriteTest       // cv.wait: owns the mutex, about to test the predicate
    | Asleep          // cv.wait: sleeping
    | Woken           // cv.wait: awake, waiting for the mutex
    | WriteReady      // cv.wait has returned, about to drop pendingWriteLocks
    | Writing         // holds the write lock, and with it the mutex
    | UnlockNotified  // unlockWriter: has notified, about to release the mutex
  {
    predicate OwnsMutex() {
      this in {ReadEntry, ReadCounted, LeaveEntry, LeaveCounted, LeaveNotified,
               WriteEntry, WriteTest, WriteReady, Writing, UnlockNotified}
    }

    /** Counted in readLocks. */
    predicate CountsAsReader() {
      this in {ReadCounted, Reading, LeaveEntry}
    }

    /** Counted in pendingWriteLocks. */
    predicate CountsAsPending() {
      this in {WriteTest, Asleep, Woken, WriteReady}
    }

    /** Past the wait: the write lock is taken. */
    predicate HasWriteLock() {
      this in {WriteReady, Writing, UnlockNotified}
    }

    /** Owns the mutex and will still notify, or leave the wait, before releasing it. */
    predicate WillPassOn() {
      this in {LeaveCounted, WriteTest, WriteReady, Writing}
    }
  }

  datatype State = State(readLocks: int, pendingWriteLocks: int, owner: Option<Thread>, pcs: map<Thread, PC>)

  datatype Action =
    | AcquireRead(t: Thread) | CountReader(t: Thread) | ReleaseRead(t: Thread)
    | AcquireLeave(t: Thread) | UncountReader(t: Thread)
    | NotifyLeave(t: Thread, woken: Option<Thread>) | ReleaseLeave(t: Thread)
    | AcquireWrite(t: Thread) | LookAtReaders(t: Thread) | TestPredicate(t: Thread)
    | WakeSpuriously(t: Thread) | Reacquire(t: Thread) | UncountWriter(t: Thread)
    | NotifyWrite(t: Thread, woken: Option<Thread>) | ReleaseWrite(t: Thread)

  /** The statement the action belongs to, as the program counter before it. */
  function Before(a: Action): PC {
    match a
    case AcquireRead(_) => Idle
    case CountReader(_) => ReadEntry
    case ReleaseRead(_) => ReadCounted
    case AcquireLeave(_) => Reading
    case UncountReader(_) => LeaveEntry
    case NotifyLeave(_, _) => LeaveCounted
    case ReleaseLeave(_) => LeaveNotified
    case AcquireWrite(_) => Idle
    case LookAtReaders(_) => WriteEntry
    case TestPredicate(_) => WriteTest
    case WakeSpuriously(_) => Asleep
    case Reacquire(_) => Woken
    case UncountWriter(_) => WriteReady
    case NotifyWrite(_, _) => Writing
    case ReleaseWrite(_) => UnlockNotified
  }

  predicate TakesMutex(a: Action) {
    a.AcquireRead? || a.AcquireLeave? || a.AcquireWrite? || a.Reacquire?
  }

  predicate At(s: State, t: Thread, pc: PC) {
    t in s.pcs && s.pcs[t] == pc
  }

  predicate SomeoneAt(s: State, pc: PC) {
    exists t :: t in s.pcs && s.pcs[t] == pc
  }

  /** Whether the action's condition for notify_one holds. */
  predicate Notifies(s: State, a: Action) {
    || (a.NotifyLeave? && s.readLocks == 0 && s.pendingWriteLocks > 0)
    || (a.NotifyWrite? && s.pendingWriteLocks > 0)
  }

  /** notify_one wakes some sleeping thread if there is one, and nobody otherwise. */
  predicate RightChoice(s: State, a: Action, woken: Option<Thread>) {
    if Notifies(s, a) && SomeoneAt(s, Asleep) then woken.Some? && At(s, woken.value, Asleep)
    else woken == None
  }

  predicate Enabled(s: State, a: Action) {
    && At(s, a.t, Before(a))
    && (TakesMutex(a) ==> s.owner == None)
    && (a.NotifyLeave? || a.NotifyWrite? ==> RightChoice(s, a, a.woken))
  }

  function Go(s: State, t: Thread, pc: PC): State {
    s.(pcs := s.pcs[t := pc])
  }

  function Wake(s: State, woken: Option<Thread>): State {
    if woken.Some? then Go(s, woken.value, Woken) else s
  }

  function Step(s: State, a: Action): State
    requires Enabled(s, a)
  {
    match a
    case AcquireRead(t) => Go(s, t, ReadEntry).(owner := Some(t))
    case CountReader(t) => Go(s, t, ReadCounted).(readLocks := s.readLocks + 1)
    case ReleaseRead(t) => Go(s, t, Reading).(owner := None)
    case AcquireLeave(t) => Go(s, t, LeaveEntry).(owner := Some(t))
    case UncountReader(t) => Go(s, t, LeaveCounted).(readLocks := s.readLocks - 1)
    case NotifyLeave(t, woken) => Go(Wake(s, woken), t, LeaveNotified)
    case ReleaseLeave(t) => Go(s, t, Idle).(owner := None)
    case AcquireWrite(t) => Go(s, t, WriteEntry).(owner := Some(t))
    case LookAtReaders(t) =>
      if s.readLocks > 0 then Go(s, t, WriteTest).(pendingWriteLocks := s.pendingWriteLocks + 1)
      else Go(s, t, Writing)
    case TestPredicate(t) =>
      if s.readLocks == 0 then Go(s, t, WriteReady) else Go(s, t, Asleep).(owner := None)
    case WakeSpuriously(t) => Go(s, t, Woken)
    case Reacquire(t) => Go(s, t, WriteTest).(owner := Some(t))
    case UncountWriter(t) => Go(s, t, Writing).(pendingWriteLocks := s.pendingWriteLocks - 1)
    case NotifyWrite(t, woken) => Go(Wake(s, woken), t, UnlockNotified)
    case ReleaseWrite(t) => Go(s, t, Idle).(owner := None)
  }

  // ---------- runs ----------

  function Init(threads: set<Thread>): State {
    State(0, 0, None, map t | t in threads :: Idle)
  }

  predicate Legal(s: State, run: seq<Action>)
    decreases |run|
  {
    run == [] || (Enabled(s, run[0]) && Legal(Step(s, run[0]), run[1..]))
  }

  function After(s: State, run: seq<Action>): State
    requires Legal(s, run)
    decreases |run|
  {
    if run == [] then s else After(Step(s, run[0]), run[1..])
  }

  // ---------- the invariant ----------

  function Readers(s: State): set<Thread> {
    set t | t in s.pcs && s.pcs[t].CountsAsReader()
  }

  function PendingWriters(s: State): set<Thread> {
    set t | t in s.pcs && s.pcs[t].CountsAsPending()
  }

  /** The mutex has the owner the program counters say, and only one. */
  predicate MutexOwned(s: State) {
    && (forall t :: t in s.pcs && s.pcs[t].OwnsMutex() ==> s.owner == Some(t))
    && (s.owner.Some? ==> s.owner.value in s.pcs && s.pcs[s.owner.value].OwnsMutex())
  }

  predicate CountersExact(s: State) {
    s.readLocks == |Readers(s)| && s.pendingWriteLocks == |PendingWriters(s)|
  }

  /** A thread that has the write lock shares it with no reader. */
  predicate WriterAlone(s: State) {
    forall t :: t in s.pcs && s.pcs[t].HasWriteLock() ==> s.readLocks == 0
  }

  /** With no read lock held, a sleeping writer implies that a waiting writer has been
      woken or that the owner of the mutex will still pass the lock on. */
  predicate WakeupInFlight(s: State) {
    s.readLocks == 0 && SomeoneAt(s, Asleep) ==>
      SomeoneAt(s, Woken) || (s.owner.Some? && s.owner.value in s.pcs && s.pcs[s.owner.value].WillPassOn())
  }

  predicate Inv(s: State) {
    MutexOwned(s) && CountersExact(s) && WriterAlone(s) && WakeupInFlight(s)
  }

  lemma InitInv(threads: set<Thread>)
    ensures Inv(Init(threads))
  {
    var s := Init(threads);
    assert Readers(s) == {} && PendingWriters(s) == {};
  }

  /** Moving one thread changes the two counted sets by at most that thread. */
  lemma MoveCounts(s: State, t: Thread, pc: PC)
    requires t in s.pcs
    ensures |Readers(Go(s, t, pc))| == |Readers(s)|
      - (if s.pcs[t].CountsAsReader() then 1 else 0) + (if pc.CountsAsReader() then 1 else 0)
    ensures |PendingWriters(Go(s, t, pc))| == |PendingWriters(s)|
      - (if s.pcs[t].CountsAsPending() then 1 else 0) + (if pc.CountsAsPending() then 1 else 0)
  {
    hide PC.CountsAsReader, PC.CountsAsPending;
    MovedSet(Readers(s), Readers(Go(s, t, pc)), t);
    MovedSet(PendingWriters(s), PendingWriters(Go(s, t, pc)), t);
  }

  lemma MovedSet(xs: set<Thread>, ys: set<Thread>, t: Thread)
    requires forall x :: x != t ==> (x in xs <==> x in ys)
    ensures |ys| == |xs| - (if t in xs then 1 else 0) + (if t in ys then 1 else 0)
  {
    assert ys - {t} == xs - {t};
    SizeWithout(xs, t);
    SizeWithout(ys, t);
  }

  lemma SizeWithout(xs: set<Thread>, t: Thread)
    ensures |xs| == |xs - {t}| + if t in xs then 1 else 0
  {
    if t in xs {
      assert xs == (xs - {t}) + {t};
    } else {
      assert xs - {t} == xs;
    }
  }

  lemma StepCounters(s: State, a: Action)
    requires Inv(s) && Enabled(s, a)
    ensures CountersExact(Step(s, a))
  {
    var s' := Step(s, a);
    var t := a.t;
    if a.NotifyLeave? || a.NotifyWrite? {
      if a.woken.Some? {
        MoveCounts(s, a.woken.value, Woken);
      }
      MoveCounts(Wake(s, a.woken), t, s'.pcs[t]);
      assert Readers(s') == Readers(Go(Wake(s, a.woken), t, s'.pcs[t]));
      assert PendingWriters(s') == PendingWriters(Go(Wake(s, a.woken), t, s'.pcs[t]));
    } else {
      MoveCounts(s, t, s'.pcs[t]);
      assert Readers(s') == Readers(Go(s, t, s'.pcs[t]));
      assert PendingWriters(s') == PendingWriters(Go(s, t, s'.pcs[t]));
    }
  }

  lemma StepMutex(s: State, a: Action)
    requires Inv(s) && Enabled(s, a)
    ensures MutexOwned(Step(s, a))
  {
  }

  lemma ReaderCounted(s: State, t: Thread)
    requires CountersExact(s) && t in s.pcs && s.pcs[t].CountsAsReader()
    ensures s.readLocks > 0
  {
    assert t in Readers(s);
  }

  lemma PendingCounted(s: State, t: Thread)
    requires CountersExact(s) && t in s.pcs && s.pcs[t].CountsAsPending()
    ensures s.pendingWriteLocks > 0
  {
    assert t in PendingWriters(s);
  }

  lemma StepWriter(s: State, a: Action)
    requires Inv(s) && Enabled(s, a)
    ensures WriterAlone(Step(s, a))
  {
    var s' := Step(s, a);
    forall t | t in s'.pcs && s'.pcs[t].HasWriteLock() ensures s'.readLocks == 0 {
      if a.LookAtReaders? && t == a.t {
        assert s.readLocks >= 0;
      }
    }
  }

  lemma StepWakeup(s: State, a: Action)
    requires Inv(s) && Enabled(s, a)
    ensures WakeupInFlight(Step(s, a))
  {
    var s' := Step(s, a);
    if s'.readLocks == 0 && SomeoneAt(s', Asleep) {
      var z :| z in s'.pcs && s'.pcs[z] == Asleep;
      if a.NotifyLeave? || a.NotifyWrite? {
        assert At(s, z, Asleep);
        PendingCounted(s, z);
        assert a.woken.Some? && At(s', a.woken.value, Woken);
      } else if a.WakeSpuriously? {
        assert At(s', a.t, Woken);
      } else if a.TestPredicate? || a.UncountReader? || a.Reacquire? || a.UncountWriter? {
        assert s'.owner == Some(a.t) && s'.pcs[a.t].WillPassOn();
      } else if a.LookAtReaders? {
        assert s'.owner == Some(a.t);
      } else {
        assert At(s, z, Asleep) && s.readLocks == 0;
        var y :| y in s.pcs && s.pcs[y] == Woken;
        assert At(s', y, Woken);
      }
    }
  }

  lemma StepInv(s: State, a: Action)
    requires Inv(s) && Enabled(s, a)
    ensures Inv(Step(s, a))
  {
    StepMutex(s, a);
    StepCounters(s, a);
    StepWriter(s, a);
    StepWakeup(s, a);
  }

  lemma {:induction false} RunInv(s: State, run: seq<Action>)
    requires Inv(s) && Legal(s, run)
    ensures Inv(After(s, run))
    decreases |run|
  {
    if run != [] {
      StepInv(s, run[0]);
      RunInv(Step(s, run[0]), run[1..]);
    }
  }

  // ---------- what every reachable state satisfies ----------

  ghost predicate Reachable(threads: set<Thread>, s: State) {
    exists run :: Legal(Init(threads), run) && After(Init(threads), run) == s
  }

  lemma ReachableInv(threads: set<Thread>, s: State)
    requires Reachable(threads, s)
    ensures Inv(s)
  {
    var run :| Legal(Init(threads), run) && After(Init(threads), run) == s;
    InitInv(threads);
    RunInv(Init(threads), run);
  }

  /** The counters are exact, and a thread with the write lock excludes every reader and
      every other writer. */
  lemma Exclusion(threads: set<Thread>, s: State)
    requires Reachable(threads, s)
    ensures s.readLocks == |Readers(s)| && s.pendingWriteLocks == |PendingWriters(s)|
    ensures forall t :: t in s.pcs && s.pcs[t].HasWriteLock() ==>
      Readers(s) == {} && forall u :: u in s.pcs && s.pcs[u].HasWriteLock() ==> u == t
  {
    ReachableInv(threads, s);
  }

  /** No wakeup is lost: when the lock is free and the mutex at rest, a sleeping writer
      implies a waiting writer that is already awake. In the middle of a critical section
      the only other case is an owner that is about to notify or to take the lock. */
  lemma NoLostWakeup(threads: set<Thread>, s: State)
    requires Reachable(threads, s) && s.readLocks == 0 && SomeoneAt(s, Asleep)
    ensures s.owner == None ==> SomeoneAt(s, Woken)
    ensures SomeoneAt(s, Woken) || exists t :: t in s.pcs && s.owner == Some(t) && s.pcs[t].WillPassOn()
  {
    ReachableInv(threads, s);
  }

  /** Neither a newcomer nor a spurious wakeup. */
  predicate FromInside(a: Action) {
    !a.AcquireRead? && !a.AcquireWrite? && !a.WakeSpuriously?
  }

  /** While a writer waits, some thread that is already inside can take its next step. */
  lemma NextFromInside(s: State, waiting: Thread) returns (a: Action)
    requires Inv(s) && waiting in s.pcs && s.pcs[waiting].CountsAsPending()
    ensures Enabled(s, a) && FromInside(a)
  {
    if s.owner.Some? {
      a := OwnersNext(s, s.owner.value);
    } else if SomeoneAt(s, Woken) {
      var t :| t in s.pcs && s.pcs[t] == Woken;
      a := Reacquire(t);
    } else {
      assert At(s, waiting, Asleep);
      assert Readers(s) != {};
      var t :| t in Readers(s);
      a := AcquireLeave(t);
    }
  }

  /** A waiting writer never needs a newcomer or a spurious wakeup: some thread that is
      already inside can take its next step. */
  lemma WaitingWriterCanProceed(threads: set<Thread>, s: State, waiting: Thread) returns (a: Action)
    requires Reachable(threads, s) && waiting in s.pcs && s.pcs[waiting].CountsAsPending()
    ensures Enabled(s, a) && FromInside(a)
  {
    ReachableInv(threads, s);
    a := NextFromInside(s, waiting);
  }

  // ---------- every waiting writer gets its turn ----------

  /** How much a thread has before it, so that a wakeup costs less than the step that gives it. */
  function Weight(pc: PC): nat {
    match pc
    case Idle => 0
    case UnlockNotified | LeaveNotified => 1
    case Writing | LeaveCounted => 10
    case WriteReady | LeaveEntry => 11
    case Asleep | Reading => 12
    case WriteTest | ReadCounted => 13
    case Woken | ReadEntry => 14
    case WriteEntry => 20
  }

  ghost function Total(pcs: map<Thread, PC>, threads: set<Thread>): nat
    requires threads <= pcs.Keys
    decreases |threads|
  {
    if threads == {} then 0
    else
      var t :| t in threads;
      Weight(pcs[t]) + Total(pcs, threads - {t})
  }

  lemma {:induction false} TotalWithout(pcs: map<Thread, PC>, threads: set<Thread>, t: Thread)
    requires threads <= pcs.Keys && t in threads
    ensures Total(pcs, threads) == Weight(pcs[t]) + Total(pcs, threads - {t})
    decreases |threads|
  {
    hide Weight;
    var u :| u in threads && Total(pcs, threads) == Weight(pcs[u]) + Total(pcs, threads - {u});
    if u != t {
      TotalWithout(pcs, threads - {u}, t);
      TotalWithout(pcs, threads - {t}, u);
      assert threads - {u} - {t} == threads - {t} - {u};
    }
  }

  lemma {:induction false} TotalSame(pcs: map<Thread, PC>, pcs': map<Thread, PC>, threads: set<Thread>)
    requires threads <= pcs.Keys && threads <= pcs'.Keys
    requires forall t :: t in threads ==> pcs[t] == pcs'[t]
    ensures Total(pcs, threads) == Total(pcs', threads)
    decreases |threads|
  {
    hide Weight;
    if threads != {} {
      var t :| t in threads;
      TotalWithout(pcs, threads, t);
      TotalWithout(pcs', threads, t);
      TotalSame(pcs, pcs', threads - {t});
    }
  }

  lemma TotalMoved(pcs: map<Thread, PC>, t: Thread, pc: PC)
    requires t in pcs
    ensures Total(pcs[t := pc], pcs.Keys) + Weight(pcs[t]) == Total(pcs, pcs.Keys) + Weight(pc)
  {
    hide Weight;
    TotalWithout(pcs, pcs.Keys, t);
    TotalWithout(pcs[t := pc], pcs.Keys, t);
    TotalSame(pcs, pcs[t := pc], pcs.Keys - {t});
  }

  /** Every step from inside brings the threads closer to rest, taken together. */
  lemma StepLighter(s: State, a: Action)
    requires Inv(s) && Enabled(s, a) && FromInside(a)
    ensures Step(s, a).pcs.Keys == s.pcs.Keys
    ensures Total(Step(s, a).pcs, s.pcs.Keys) < Total(s.pcs, s.pcs.Keys)
  {
    hide Inv, Total;
    var s', t := Step(s, a), a.t;
    if a.NotifyLeave? || a.NotifyWrite? {
      var w := Wake(s, a.woken);
      if a.woken.Some? {
        TotalMoved(s.pcs, a.woken.value, Woken);
        assert w.pcs.Keys == s.pcs.Keys;
      }
      TotalMoved(w.pcs, t, s'.pcs[t]);
      assert s'.pcs == w.pcs[t := s'.pcs[t]];
    } else {
      TotalMoved(s.pcs, t, s'.pcs[t]);
      assert s'.pcs == s.pcs[t := s'.pcs[t]];
    }
  }

  predicate AllFromInside(run: seq<Action>) {
    forall i :: 0 <= i < |run| ==> FromInside(run[i])
  }

  /** The writer goes on waiting until it has the lock. */
  lemma StillWaiting(s: State, a: Action, waiting: Thread)
    requires Enabled(s, a) && waiting in s.pcs && s.pcs[waiting].CountsAsPending()
    ensures waiting in Step(s, a).pcs
    ensures Step(s, a).pcs[waiting].CountsAsPending() || Step(s, a).pcs[waiting] == Writing
  {
  }

  lemma {:induction false} TurnComes(s: State, waiting: Thread) returns (run: seq<Action>)
    requires Inv(s) && waiting in s.pcs && s.pcs[waiting].CountsAsPending()
    ensures Legal(s, run) && AllFromInside(run) && At(After(s, run), waiting, Writing)
    decreases Total(s.pcs, s.pcs.Keys)
  {
    hide Inv, Enabled, Step, FromInside, Total;
    var a := NextFromInside(s, waiting);
    var next := Step(s, a);
    StillWaiting(s, a, waiting);
    StepInv(s, a);
    var rest: seq<Action> := [];
    if next.pcs[waiting].CountsAsPending() {
      StepLighter(s, a);
      rest := TurnComes(next, waiting);
    }
    run := [a] + rest;
    assert run[1..] == rest && Legal(next, rest);
  }

  /** Every waiting writer can still get the lock: from each reachable state there is a run of
      threads already inside, with no newcomer and no spurious wakeup, at whose end that very
      writer holds it. */
  lemma WriterGetsLock(threads: set<Thread>, s: State, waiting: Thread) returns (run: seq<Action>)
    requires Reachable(threads, s) && waiting in s.pcs && s.pcs[waiting].CountsAsPending()
    ensures Legal(s, run) && AllFromInside(run) && At(After(s, run), waiting, Writing)
  {
    ReachableInv(threads, s);
    run := TurnComes(s, waiting);
  }

  lemma OwnersNext(s: State, t: Thread) returns (a: Action)
    requires t in s.pcs && s.pcs[t].OwnsMutex()
    ensures Enabled(s, a) && FromInside(a) && a.t == t
  {
    var w := AWoken(s);
    match s.pcs[t] {
      case ReadEntry => a := CountReader(t);
      case ReadCounted => a := ReleaseRead(t);
      case LeaveEntry => a := UncountReader(t);
      case LeaveCounted => a := NotifyLeave(t, if Notifies(s, NotifyLeave(t, None)) then w else None);
      case LeaveNotified => a := ReleaseLeave(t);
      case WriteEntry => a := LookAtReaders(t);
      case WriteTest => a := TestPredicate(t);
      case WriteReady => a := UncountWriter(t);
      case Writing => a := NotifyWrite(t, if Notifies(s, NotifyWrite(t, None)) then w else None);
      case UnlockNotified => a := ReleaseWrite(t);
    }
  }

  lemma AWoken(s: State) returns (w: Option<Thread>)
    ensures if SomeoneAt(s, Asleep) then w.Some? && At(s, w.value, Asleep) else w == None
  {
    w := None;
    if SomeoneAt(s, Asleep) {
      var t :| t in s.pcs && s.pcs[t] == Asleep;
      w := Some(t);
    }
  }

  // ---------- what each call does when nothing else moves ----------

  /** lockReader waits for the mutex and for nothing else: however many readers hold the lock
      and however many writers wait, the thread's own three steps make it one reader more. */
  lemma LockReader(s: State, t: Thread)
    requires s.owner == None && At(s, t, Idle)
    ensures var run := [AcquireRead(t), CountReader(t), ReleaseRead(t)];
            Legal(s, run) && After(s, run) == Go(s, t, Reading).(readLocks := s.readLocks + 1)
  {
    var s1 := Step(s, AcquireRead(t));
    var s2 := Step(s1, CountReader(t));
    RunOf3(s, AcquireRead(t), CountReader(t), ReleaseRead(t));
    assert s.pcs[t := ReadEntry][t := ReadCounted][t := Reading] == s.pcs[t := Reading];
  }

  /** unlockReader: one reader fewer, and when it was the last one a sleeping writer is woken
      if there is any. */
  lemma UnlockReader(s: State, t: Thread, woken: Option<Thread>)
    requires s.owner == None && At(s, t, Reading)
    requires if s.readLocks == 1 && s.pendingWriteLocks > 0 && SomeoneAt(s, Asleep)
             then woken.Some? && At(s, woken.value, Asleep) else woken == None
    ensures var run := [AcquireLeave(t), UncountReader(t), NotifyLeave(t, woken), ReleaseLeave(t)];
            Legal(s, run) && After(s, run) == Go(Wake(s, woken), t, Idle).(readLocks := s.readLocks - 1)
  {
    hide Enabled, Step, Legal, After;
    var s2 := Go(s, t, LeaveCounted).(readLocks := s.readLocks - 1, owner := Some(t));
    LeavesCount(s, t);
    SleepersStay(s, s2, t);
    Notified(s2, t, woken);
    hide SomeoneAt;
    var a, b, c, d := AcquireLeave(t), UncountReader(t), NotifyLeave(t, woken), ReleaseLeave(t);
    assert Go(Wake(s2, woken), t, Idle).pcs == Go(Wake(s, woken), t, Idle).pcs;
    RunOf3(Step(s, a), b, c, d);
    Prepend(s, a, [b, c, d]);
    assert [a] + [b, c, d] == [a, b, c, d];
  }

  lemma LeavesCount(s: State, t: Thread)
    requires s.owner == None && At(s, t, Reading)
    ensures Enabled(s, AcquireLeave(t)) && Enabled(Step(s, AcquireLeave(t)), UncountReader(t))
    ensures Step(Step(s, AcquireLeave(t)), UncountReader(t)) ==
            Go(s, t, LeaveCounted).(readLocks := s.readLocks - 1, owner := Some(t))
  {
    assert s.pcs[t := LeaveEntry][t := LeaveCounted] == s.pcs[t := LeaveCounted];
  }

  lemma Notified(s: State, t: Thread, woken: Option<Thread>)
    requires At(s, t, LeaveCounted) && RightChoice(s, NotifyLeave(t, woken), woken)
    ensures Enabled(s, NotifyLeave(t, woken)) && Enabled(Step(s, NotifyLeave(t, woken)), ReleaseLeave(t))
    ensures Step(Step(s, NotifyLeave(t, woken)), ReleaseLeave(t)) == Go(Wake(s, woken), t, Idle).(owner := None)
  {
    var w := Wake(s, woken);
    assert w.pcs[t := LeaveNotified][t := Idle] == w.pcs[t := Idle];
  }

  /** lockWriter on a lock without readers takes it at once and keeps the mutex, however many
      writers wait; with readers the thread goes to sleep as one pending writer more. */
  lemma LockWriter(s: State, t: Thread)
    requires s.owner == None && At(s, t, Idle)
    ensures s.readLocks <= 0 ==>
      var run := [AcquireWrite(t), LookAtReaders(t)];
      Legal(s, run) && After(s, run) == Go(s, t, Writing).(owner := Some(t))
    ensures s.readLocks > 0 ==>
      var run := [AcquireWrite(t), LookAtReaders(t), TestPredicate(t)];
      Legal(s, run) && After(s, run) == Go(s, t, Asleep).(pendingWriteLocks := s.pendingWriteLocks + 1)
  {
    var s1 := Step(s, AcquireWrite(t));
    if s.readLocks > 0 {
      RunOf3(s, AcquireWrite(t), LookAtReaders(t), TestPredicate(t));
      assert s.pcs[t := WriteEntry][t := WriteTest][t := Asleep] == s.pcs[t := Asleep];
    } else {
      RunOf2(s, AcquireWrite(t), LookAtReaders(t));
      assert s.pcs[t := WriteEntry][t := Writing] == s.pcs[t := Writing];
    }
  }

  /** unlockWriter frees the mutex and wakes a sleeping writer if there is any. */
  lemma UnlockWriter(s: State, t: Thread, woken: Option<Thread>)
    requires At(s, t, Writing)
    requires if s.pendingWriteLocks > 0 && SomeoneAt(s, Asleep)
             then woken.Some? && At(s, woken.value, Asleep) else woken == None
    ensures var run := [NotifyWrite(t, woken), ReleaseWrite(t)];
            Legal(s, run) && After(s, run) == Go(Wake(s, woken), t, Idle).(owner := None)
  {
    var s1 := Step(s, NotifyWrite(t, woken));
    RunOf2(s, NotifyWrite(t, woken), ReleaseWrite(t));
    assert Step(s1, ReleaseWrite(t)).pcs == Go(Wake(s, woken), t, Idle).pcs;
  }

  lemma EmptyRun(s: State)
    ensures Legal(s, []) && After(s, []) == s
  {
  }

  lemma Prepend(s: State, a: Action, run: seq<Action>)
    requires Enabled(s, a) && Legal(Step(s, a), run)
    ensures Legal(s, [a] + run) && After(s, [a] + run) == After(Step(s, a), run)
  {
    hide Enabled, Step;
    assert ([a] + run)[1..] == run;
  }

  lemma RunOf2(s: State, a: Action, b: Action)
    requires Enabled(s, a) && Enabled(Step(s, a), b)
    ensures Legal(s, [a, b]) && After(s, [a, b]) == Step(Step(s, a), b)
  {
    hide Enabled, Step;
    EmptyRun(Step(Step(s, a), b));
    Prepend(Step(s, a), b, []);
    Prepend(s, a, [b]);
    assert [b] + [] == [b] && [a] + [b] == [a, b];
  }

  lemma RunOf3(s: State, a: Action, b: Action, c: Action)
    requires Enabled(s, a) && Enabled(Step(s, a), b) && Enabled(Step(Step(s, a), b), c)
    ensures Legal(s, [a, b, c]) && After(s, [a, b, c]) == Step(Step(Step(s, a), b), c)
  {
    hide Enabled, Step;
    RunOf2(Step(s, a), b, c);
    Prepend(s, a, [b, c]);
    assert [a] + [b, c] == [a, b, c];
  }

  lemma SleepersStay(s: State, s': State, t: Thread)
    requires t in s.pcs && s.pcs[t] != Asleep
    requires t in s'.pcs && s'.pcs[t] != Asleep && s'.pcs == s.pcs[t := s'.pcs[t]]
    ensures SomeoneAt(s', Asleep) <==> SomeoneAt(s, Asleep)
  {
    if SomeoneAt(s, Asleep) {
      var u :| u in s.pcs && s.pcs[u] == Asleep;
      assert u in s'.pcs && s'.pcs[u] == Asleep;
    }
  }

  // ---------- a reader gets in from anywhere ----------

  predicate AllBy(run: seq<Action>, t: Thread) {
    forall i :: 0 <= i < |run| ==> run[i].t == t
  }

  /** Nobody but t has moved, except by being woken. */
  predicate OnlyMoves(s: State, s': State, t: Thread) {
    && s'.pcs.Keys == s.pcs.Keys
    && forall u :: u in s.pcs && u != t ==> s'.pcs[u] == s.pcs[u] || (s.pcs[u] == Asleep && s'.pcs[u] == Woken)
  }

  lemma OwnerMoves(s: State, a: Action)
    requires MutexOwned(s) && Enabled(s, a) && FromInside(a) && s.owner == Some(a.t)
    ensures OnlyMoves(s, Step(s, a), a.t) && Step(s, a).owner in {None, Some(a.t)}
  {
    hide MutexOwned;
  }

  lemma OwnerLighter(s: State, a: Action)
    requires MutexOwned(s) && Enabled(s, a) && FromInside(a) && s.owner == Some(a.t)
    ensures a.t in Step(s, a).pcs && Weight(Step(s, a).pcs[a.t]) < Weight(s.pcs[a.t])
  {
    assert s.pcs[a.t] != Asleep;
  }

  lemma OwnersStep(s: State, t: Thread) returns (a: Action)
    requires Inv(s) && s.owner == Some(t)
    ensures t in s.pcs && a.t == t && Enabled(s, a) && FromInside(a) && OnlyMoves(s, Step(s, a), t)
    ensures t in Step(s, a).pcs && Step(s, a).owner in {None, Some(t)}
    ensures Weight(Step(s, a).pcs[t]) < Weight(s.pcs[t])
  {
    hide Enabled, Step, Weight, OnlyMoves, FromInside;
    a := OwnersNext(s, t);
    OwnerMoves(s, a);
    OwnerLighter(s, a);
  }

  /** The owner of the mutex gives it up by its own steps. */
  lemma {:induction false} OwnerReleases(s: State, t: Thread) returns (run: seq<Action>)
    requires Inv(s) && s.owner == Some(t)
    ensures Legal(s, run) && AllBy(run, t) && AllFromInside(run)
    ensures After(s, run).owner == None && OnlyMoves(s, After(s, run), t) && Inv(After(s, run))
    decreases Weight(s.pcs[t])
  {
    var a := OwnersStep(s, t);
    hide Legal, After, Inv, Enabled, Step, Weight;
    var next := Step(s, a);
    StepInv(s, a);
    var rest: seq<Action> := [];
    if next.owner.Some? {
      rest := OwnerReleases(next, t);
    } else {
      EmptyRun(next);
    }
    run := [a] + rest;
    Prepend(s, a, rest);
  }

  lemma {:induction false} Concat(s: State, run: seq<Action>, more: seq<Action>)
    requires Legal(s, run) && Legal(After(s, run), more)
    ensures Legal(s, run + more) && After(s, run + more) == After(After(s, run), more)
    decreases |run|
  {
    hide Enabled, Step;
    if run == [] {
      assert run + more == more;
    } else {
      assert (run + more)[1..] == run[1..] + more;
      Concat(Step(s, run[0]), run[1..], more);
    }
  }

  /** From every reachable state an idle thread can get a read lock without any other request
      for the lock: at most the owner of the mutex finishes what it is doing. Whoever reads
      goes on reading. */
  lemma ReaderGetsLock(threads: set<Thread>, s: State, t: Thread) returns (run: seq<Action>)
    requires Reachable(threads, s) && At(s, t, Idle)
    ensures Legal(s, run) && At(After(s, run), t, Reading)
    ensures forall i :: 0 <= i < |run| ==> run[i].t == t || (FromInside(run[i]) && s.owner == Some(run[i].t))
    ensures forall u :: u in s.pcs && s.owner != Some(u) && u != t ==>
      u in After(s, run).pcs && (After(s, run).pcs[u] == s.pcs[u] || s.pcs[u] == Asleep)
  {
    ReachableInv(threads, s);
    var own := [AcquireRead(t), CountReader(t), ReleaseRead(t)];
    if s.owner == None {
      LockReader(s, t);
      run := own;
    } else {
      var o := s.owner.value;
      assert o != t;
      var before := OwnerReleases(s, o);
      hide Legal, After;
      var free := After(s, before);
      assert At(free, t, Idle);
      LockReader(free, t);
      Concat(s, before, own);
      run := before + own;
    }
  }
}
