/** `Socket::Shared` of dap/socket.cpp on Linux: isOpen, close, read and write of any number
    of threads, each system call and each field access a step of its own, guarded by the
    reader/writer lock exactly as RLock and WLock guard them. */
module Socket {
  import opened Basics
  import RW = RWMutex

  type Thread = RW.Thread

  /** `WriteNothing` is write() with a length of zero, which makes no system call. `Use`
      is lock() with a callback that uses the descriptor: bind, accept, setsockopt. */
  datatype Op = IsOpen | Close | Read | Write | WriteNothing | Use

  /** What a thread is doing. */
  datatype Job =
    | Rest
    | Entering(op: Op)               // constructing the RLock
    | ReadLocked(op: Op)             // holds it, about to look at the descriptor
    | InCall(op: Op)                 // inside getsockopt, shutdown, recv, send, ...
    | Leaving(op: Op, more: bool)    // destroying the RLock; then the WLock part if `more`
    | Upgrading(op: Op)              // constructing the WLock
    | WriteLocked(op: Op)            // holds it, about to look at the descriptor
    | InClose(op: Op)                // inside ::close
    | Finishing(op: Op)              // destroying the WLock

  /** `valid` says that the field s is not InvalidSocket; `closes` counts calls of ::close
      begun, and `dropped` that isOpen overwrote a valid s. */
  datatype State = State(lock: RW.State, jobs: map<Thread, Job>, valid: bool, closes: nat, dropped: bool)

  datatype Action =
    | Call(t: Thread, op: Op)
    | Lock(inner: RW.Action)
    | Entered(t: Thread)
    | Look(t: Thread)
    | CallReturns(t: Thread, good: bool)
    | Left(t: Thread)
    | Upgraded(t: Thread)
    | LookAgain(t: Thread)
    | CloseReturns(t: Thread)
    | Finished(t: Thread)

  predicate Doing(s: State, t: Thread, job: Job) {
    t in s.jobs && s.jobs[t] == job
  }

  /** Which steps of the lock a thread takes on its own account. */
  predicate Wants(job: Job, a: RW.Action) {
    match a
    case AcquireRead(_) => job.Entering?
    case AcquireLeave(_) => job.Leaving?
    case AcquireWrite(_) => job.Upgrading?
    case NotifyWrite(_, _) => job.Finishing?
    case _ => true
  }

  predicate Enabled(s: State, a: Action) {
    match a
    case Call(t, _) => Doing(s, t, Rest)
    case Lock(inner) => inner.t in s.jobs && Wants(s.jobs[inner.t], inner) && RW.Enabled(s.lock, inner)
    case Entered(t) => t in s.jobs && s.jobs[t].Entering? && RW.At(s.lock, t, RW.Reading)
    case Look(t) => t in s.jobs && s.jobs[t].ReadLocked?
    case CallReturns(t, _) => t in s.jobs && s.jobs[t].InCall?
    case Left(t) => t in s.jobs && s.jobs[t].Leaving? && RW.At(s.lock, t, RW.Idle)
    case Upgraded(t) => t in s.jobs && s.jobs[t].Upgrading? && RW.At(s.lock, t, RW.Writing)
    case LookAgain(t) => t in s.jobs && s.jobs[t].WriteLocked?
    case CloseReturns(t) => t in s.jobs && s.jobs[t].InClose?
    case Finished(t) => t in s.jobs && s.jobs[t].Finishing? && RW.At(s.lock, t, RW.Idle)
  }

  function Do(s: State, t: Thread, job: Job): State {
    s.(jobs := s.jobs[t := job])
  }

  function Step(s: State, a: Action): State
    requires Enabled(s, a)
  {
    match a
    case Call(t, op) => Do(s, t, Entering(op))
    case Lock(inner) => s.(lock := RW.Step(s.lock, inner))
    case Entered(t) => Do(s, t, ReadLocked(s.jobs[t].op))
    case Look(t) =>
      var op := s.jobs[t].op;
      if s.valid && op != WriteNothing then Do(s, t, InCall(op))
      else Do(s, t, Leaving(op, op in {IsOpen, Close}))
    case CallReturns(t, good) =>
      var op := s.jobs[t].op;
      Do(s, t, Leaving(op, op == Close || (op == IsOpen && !good)))
    case Left(t) =>
      var job := s.jobs[t];
      Do(s, t, if job.more then Upgrading(job.op) else Rest)
    case Upgraded(t) => Do(s, t, WriteLocked(s.jobs[t].op))
    case LookAgain(t) =>
      var op := s.jobs[t].op;
      if op == Close then
        if s.valid then Do(s, t, InClose(op)).(closes := s.closes + 1) else Do(s, t, Finishing(op))
      else Do(s, t, Finishing(op)).(valid := false, dropped := s.dropped || s.valid)
    case CloseReturns(t) => Do(s, t, Finishing(s.jobs[t].op)).(valid := false)
    case Finished(t) => Do(s, t, Rest)
  }

  /** A socket just constructed around a valid descriptor, or around InvalidSocket. */
  function Init(threads: set<Thread>, valid: bool): State {
    State(RW.Init(threads), map t | t in threads :: Rest, valid, 0, false)
  }

  predicate Legal(s: State, run: seq<Action>)
    decreases |run|
  {
    run == [] || (Enabled(s, run[0]) && Legal(Step(s, run[0]), run[1..]))
  }

  function After(s: State, run: seq<Action>): State
    requires Legal(s, run)
    decreases |run|
  {
    if run == [] then s else After(Step(s, run[0]), run[1..])
  }

  // ---------- the invariant ----------

  /** Where the lock can stand while the thread does its job. */
  predicate Consistent(job: Job, pc: RW.PC) {
    match job
    case Rest => pc == RW.Idle
    case Entering(_) => pc in {RW.Idle, RW.ReadEntry, RW.ReadCounted, RW.Reading}
    case ReadLocked(_) => pc == RW.Reading
    case InCall(_) => pc == RW.Reading
    case Leaving(_, _) => pc in {RW.Reading, RW.LeaveEntry, RW.LeaveCounted, RW.LeaveNotified, RW.Idle}
    case Upgrading(_) => pc in {RW.Idle, RW.WriteEntry, RW.WriteTest, RW.Asleep, RW.Woken, RW.WriteReady, RW.Writing}
    case WriteLocked(_) => pc == RW.Writing
    case InClose(_) => pc == RW.Writing
    case Finishing(_) => pc in {RW.Writing, RW.UnlockNotified, RW.Idle}
  }

  predicate JobsConsistent(s: State) {
    && s.jobs.Keys == s.lock.pcs.Keys
    && forall t :: t in s.jobs ==> Consistent(s.jobs[t], s.lock.pcs[t])
  }

  /** Only the write-locked part of isOpen and close drops the descriptor. */
  predicate OnlyEnders(s: State) {
    forall t :: t in s.jobs ==>
      match s.jobs[t]
      case Upgrading(op) => op in {IsOpen, Close}
      case WriteLocked(op) => op in {IsOpen, Close}
      case Leaving(op, more) => more ==> op in {IsOpen, Close}
      case InClose(op) => op == Close
      case _ => true
  }

  predicate Closing(s: State) {
    exists t :: t in s.jobs && s.jobs[t].InClose?
  }

  /** While a call is inside the kernel the descriptor has not been passed to ::close;
      while the field is valid it has not either, unless that ::close is still running. */
  predicate DescriptorSafe(s: State) {
    && (forall t :: t in s.jobs && s.jobs[t].InCall? ==> s.valid && s.closes == 0)
    && (s.valid && !Closing(s) ==> s.closes == 0)
    && (Closing(s) ==> s.valid && s.closes == 1)
    && s.closes <= 1
    && (s.dropped ==> !s.valid && s.closes == 0)
  }

  predicate Inv(s: State) {
    RW.Inv(s.lock) && JobsConsistent(s) && OnlyEnders(s) && DescriptorSafe(s)
  }

  lemma InitInv(threads: set<Thread>, valid: bool)
    ensures Inv(Init(threads, valid))
  {
    RW.InitInv(threads);
  }

  /** A writer and a reader never meet, and neither do two writers. */
  lemma WriterExcludes(s: State, t: Thread, u: Thread)
    requires RW.Inv(s.lock) && JobsConsistent(s) && t in s.jobs && u in s.jobs && t != u
    requires s.lock.pcs[t].HasWriteLock()
    ensures !s.lock.pcs[u].CountsAsReader() && !s.lock.pcs[u].HasWriteLock()
  {
    if s.lock.pcs[u].CountsAsReader() {
      RW.ReaderCounted(s.lock, u);
    }
  }

  lemma LockStepConsistent(s: State, a: RW.Action)
    requires RW.Inv(s.lock) && JobsConsistent(s) && Enabled(s, Lock(a))
    ensures JobsConsistent(Step(s, Lock(a)))
  {
    hide RW.Inv, RW.RightChoice;
    var woken := if a.NotifyLeave? || a.NotifyWrite? then a.woken else None;
    if a.NotifyLeave? || a.NotifyWrite? {
      Chosen(s.lock, a);
    }
    OthersStay(s.lock, a, woken);
    var s' := Step(s, Lock(a));
    assert Consistent(s.jobs[a.t], s.lock.pcs[a.t]);
    OwnStepConsistent(s.jobs[a.t], s.lock, a);
    hide RW.Step, RW.Enabled, Wants, Consistent;
    forall t | t in s'.jobs ensures Consistent(s'.jobs[t], s'.lock.pcs[t]) {
      assert Consistent(s.jobs[t], s.lock.pcs[t]);
      WakingConsistent(s.jobs[t]);
    }
  }

  lemma WakingConsistent(job: Job)
    ensures Consistent(job, RW.Asleep) ==> Consistent(job, RW.Woken)
  {
  }

  lemma OthersStay(l: RW.State, a: RW.Action, woken: Option<Thread>)
    requires RW.Enabled(l, a) && woken == if a.NotifyLeave? || a.NotifyWrite? then a.woken else None
    requires woken.Some? ==> RW.At(l, woken.value, RW.Asleep)
    ensures RW.Step(l, a).pcs.Keys == l.pcs.Keys
    ensures forall t :: t in l.pcs && t != a.t ==>
      RW.Step(l, a).pcs[t] == if woken == Some(t) then RW.Woken else l.pcs[t]
  {
    hide RW.RightChoice;
  }

  lemma OwnStepConsistent(job: Job, l: RW.State, a: RW.Action)
    requires RW.Enabled(l, a) && Wants(job, a) && Consistent(job, l.pcs[a.t])
    ensures a.t in RW.Step(l, a).pcs && Consistent(job, RW.Step(l, a).pcs[a.t])
  {
    hide RW.RightChoice;
  }

  lemma Chosen(l: RW.State, a: RW.Action)
    requires RW.Enabled(l, a) && (a.NotifyLeave? || a.NotifyWrite?)
    ensures a.woken.Some? ==> RW.At(l, a.woken.value, RW.Asleep)
  {
  }

  lemma JobStepConsistent(s: State, a: Action)
    requires JobsConsistent(s) && Enabled(s, a) && !a.Lock?
    ensures JobsConsistent(Step(s, a))
  {
    hide RW.Enabled, RW.Step, Wants;
    var s' := Step(s, a);
    assert s'.lock == s.lock && s'.jobs == s.jobs[a.t := s'.jobs[a.t]];
    assert Consistent(s.jobs[a.t], s.lock.pcs[a.t]);
  }

  lemma StepEnders(s: State, a: Action)
    requires OnlyEnders(s) && Enabled(s, a)
    ensures OnlyEnders(Step(s, a))
  {
    hide RW.Enabled, RW.Step, Wants, RW.At;
  }

  lemma StepConsistent(s: State, a: Action)
    requires RW.Inv(s.lock) && JobsConsistent(s) && OnlyEnders(s) && Enabled(s, a)
    ensures RW.Inv(Step(s, a).lock) && JobsConsistent(Step(s, a)) && OnlyEnders(Step(s, a))
  {
    hide RW.Inv, RW.Enabled, RW.Step, JobsConsistent, OnlyEnders, Wants;
    StepEnders(s, a);
    if a.Lock? {
      RW.StepInv(s.lock, a.inner);
      LockStepConsistent(s, a.inner);
    } else {
      JobStepConsistent(s, a);
    }
  }

  /** Nobody but t is inside a system call or inside ::close. */
  predicate Alone(s: State, t: Thread) {
    forall u :: u in s.jobs && u != t ==> !s.jobs[u].InCall? && !s.jobs[u].InClose?
  }

  lemma WriterIsAlone(s: State, t: Thread)
    requires RW.Inv(s.lock) && JobsConsistent(s) && t in s.jobs
    requires s.jobs[t].WriteLocked? || s.jobs[t].InClose?
    ensures Alone(s, t)
  {
    hide RW.Inv;
    forall u | u in s.jobs && u != t ensures !s.jobs[u].InCall? && !s.jobs[u].InClose? {
      WriterExcludes(s, t, u);
    }
  }

  lemma ReaderMeetsNoClose(s: State, t: Thread)
    requires RW.Inv(s.lock) && JobsConsistent(s) && t in s.jobs && s.jobs[t].ReadLocked?
    ensures !Closing(s)
  {
    hide RW.Inv;
    if Closing(s) {
      var u :| u in s.jobs && s.jobs[u].InClose?;
      WriterExcludes(s, u, t);
    }
  }

  /** Writing t's new job moves nobody else into or out of a call. */
  lemma OthersUnmoved(s: State, s': State, t: Thread)
    requires t in s.jobs && t in s'.jobs && s'.jobs == s.jobs[t := s'.jobs[t]]
    requires !s.jobs[t].InClose? && !s'.jobs[t].InClose?
    ensures Closing(s') <==> Closing(s)
  {
    if Closing(s) {
      var u :| u in s.jobs && s.jobs[u].InClose?;
      assert u in s'.jobs && s'.jobs[u].InClose?;
    }
  }

  lemma StepDescriptor(s: State, a: Action)
    requires Inv(s) && Enabled(s, a)
    ensures DescriptorSafe(Step(s, a))
  {
    hide RW.Inv, RW.Enabled, RW.Step, JobsConsistent, RW.At;
    var s' := Step(s, a);
    if a.Lock? {
      assert s'.jobs == s.jobs;
    } else {
      var t := a.t;
      if a.LookAgain? || a.CloseReturns? {
        WriterIsAlone(s, t);
        if s'.jobs[t].InClose? {
          assert Closing(s');
        }
      } else if a.Look? {
        ReaderMeetsNoClose(s, t);
        OthersUnmoved(s, s', t);
      } else {
        OthersUnmoved(s, s', t);
      }
    }
  }

  lemma StepInv(s: State, a: Action)
    requires Inv(s) && Enabled(s, a)
    ensures Inv(Step(s, a))
  {
    StepConsistent(s, a);
    StepDescriptor(s, a);
  }

  lemma {:induction false} RunInv(s: State, run: seq<Action>)
    requires Inv(s) && Legal(s, run)
    ensures Inv(After(s, run))
    decreases |run|
  {
    if run != [] {
      StepInv(s, run[0]);
      RunInv(Step(s, run[0]), run[1..]);
    }
  }

  // ---------- every interleaving ----------

  /** Over every interleaving the descriptor is passed to ::close at most once; while one
      thread is inside ::close no other is inside any call on the descriptor; and every
      call on it happens before it is closed. */
  lemma DescriptorClosedOnce(threads: set<Thread>, valid: bool, run: seq<Action>)
    requires Legal(Init(threads, valid), run)
    ensures
      var s := After(Init(threads, valid), run);
      && s.closes <= 1
      && (forall t, u :: t in s.jobs && u in s.jobs && t != u && s.jobs[t].InClose? ==>
            !s.jobs[u].InCall? && !s.jobs[u].InClose?)
      && (forall t :: t in s.jobs && s.jobs[t].InCall? ==> s.closes == 0)
  {
    InitInv(threads, valid);
    RunInv(Init(threads, valid), run);
    var s := After(Init(threads, valid), run);
    forall t, u | t in s.jobs && u in s.jobs && t != u && s.jobs[t].InClose?
      ensures !s.jobs[u].InCall? && !s.jobs[u].InClose?
    {
      WriterExcludes(s, t, u);
    }
  }

  // ---------- who closes the descriptor ----------

  /** A descriptor that was valid at first is still held, or closed, or dropped unclosed. */
  predicate Accounted(s: State) {
    s.valid || (s.closes == 1 && !s.dropped) || (s.closes == 0 && s.dropped)
  }

  lemma {:induction false} RunAccounted(s: State, run: seq<Action>)
    requires Inv(s) && Accounted(s) && Legal(s, run)
    ensures Accounted(After(s, run))
    decreases |run|
  {
    if run != [] {
      StepInv(s, run[0]);
      StepAccounted(s, run[0]);
      RunAccounted(Step(s, run[0]), run[1..]);
    }
  }

  lemma StepAccounted(s: State, a: Action)
    requires Inv(s) && Accounted(s) && Enabled(s, a)
    ensures Accounted(Step(s, a))
  {
    hide RW.Enabled, RW.Step, RW.Inv;
    if a.CloseReturns? {
      assert Closing(s);
    } else if a.LookAgain? {
      WriterIsAlone(s, a.t);
    }
  }

  /** Once the field is InvalidSocket the descriptor has been closed exactly when isOpen has
      not overwritten a valid field; and after that no close() can close it any more. */
  lemma ClosedUnlessDropped(threads: set<Thread>, run: seq<Action>)
    requires Legal(Init(threads, true), run)
    ensures
      var s := After(Init(threads, true), run);
      !s.valid ==> (s.closes == 1 <==> !s.dropped)
  {
    hide RW.Init;
    InitInv(threads, true);
    RunAccounted(Init(threads, true), run);
  }

  // ---------- when the descriptor is lost ----------

  /** getsockopt tells an isOpen call that the socket has a pending error. */
  predicate Errs(s: State, a: Action) {
    a.CallReturns? && !a.good && Doing(s, a.t, InCall(IsOpen))
  }

  /** The threads whose isOpen has been told of an error and is not through yet. */
  function Told(s: State, a: Action, erred: set<Thread>): set<Thread> {
    if Errs(s, a) then erred + {a.t} else if a.LookAgain? then erred - {a.t} else erred
  }

  /** Along the run some isOpen that was told of an error gets to its write section before
      any close() has. */
  predicate Loses(s: State, erred: set<Thread>, run: seq<Action>)
    requires Legal(s, run)
    decreases |run|
  {
    run != [] &&
    ((run[0].LookAgain? && run[0].t in erred && s.valid) ||
     Loses(Step(s, run[0]), Told(s, run[0], erred), run[1..]))
  }

  /** Past its read section, isOpen about to overwrite the field. */
  predicate Ends(job: Job) {
    job in {Leaving(IsOpen, true), Upgrading(IsOpen), WriteLocked(IsOpen)}
  }

  predicate Traced(s: State, erred: set<Thread>) {
    && (forall t :: t in s.jobs && s.valid && Ends(s.jobs[t]) ==> t in erred)
    && (forall t :: t in erred ==> t in s.jobs && Ends(s.jobs[t]))
  }

  lemma StepTraced(s: State, a: Action, erred: set<Thread>)
    requires OnlyEnders(s) && Traced(s, erred) && Enabled(s, a)
    ensures Traced(Step(s, a), Told(s, a, erred))
    ensures Step(s, a).dropped <==> s.dropped || (a.LookAgain? && a.t in erred && s.valid)
  {
    hide RW.Enabled, RW.Step, Wants, RW.At;
    if a.LookAgain? {
      assert s.jobs[a.t].op in {IsOpen, Close};
    }
  }

  lemma {:induction false} RunTraced(s: State, erred: set<Thread>, run: seq<Action>)
    requires OnlyEnders(s) && Traced(s, erred) && Legal(s, run)
    ensures After(s, run).dropped <==> s.dropped || Loses(s, erred, run)
    decreases |run|
  {
    hide Step, Enabled, OnlyEnders, Traced;
    if run != [] {
      StepEnders(s, run[0]);
      StepTraced(s, run[0], erred);
      RunTraced(Step(s, run[0]), Told(s, run[0], erred), run[1..]);
    }
  }

  /** The descriptor is lost without being closed exactly when an isOpen that getsockopt has
      told of an error reaches its write section while the field is still valid. */
  lemma LostExactly(threads: set<Thread>, run: seq<Action>)
    requires Legal(Init(threads, true), run)
    ensures var s := After(Init(threads, true), run);
            (!s.valid && s.closes == 0) <==> Loses(Init(threads, true), {}, run)
  {
    hide RW.Init, RW.Inv;
    InitInv(threads, true);
    RunInv(Init(threads, true), run);
    RunAccounted(Init(threads, true), run);
    RunTraced(Init(threads, true), {}, run);
  }

  predicate NeverErrs(s: State, run: seq<Action>)
    requires Legal(s, run)
    decreases |run|
  {
    run == [] || (!Errs(s, run[0]) && NeverErrs(Step(s, run[0]), run[1..]))
  }

  lemma {:induction false} NobodyTold(s: State, run: seq<Action>)
    requires Legal(s, run) && NeverErrs(s, run)
    ensures !Loses(s, {}, run)
    decreases |run|
  {
    hide Step, Enabled, Errs;
    if run != [] {
      assert Told(s, run[0], {}) == {};
      NobodyTold(Step(s, run[0]), run[1..]);
    }
  }

  /** As long as no isOpen meets an error, a descriptor that is no longer held was closed. */
  lemma ClosedWithoutErrors(threads: set<Thread>, run: seq<Action>)
    requires Legal(Init(threads, true), run) && NeverErrs(Init(threads, true), run)
    ensures var s := After(Init(threads, true), run);
            !s.valid ==> s.closes == 1
  {
    hide RW.Init, Legal, NeverErrs;
    NobodyTold(Init(threads, true), run);
    LostExactly(threads, run);
    ClosedUnlessDropped(threads, run);
    ClosedAtMostOnce(threads, run);
  }

  lemma ClosedAtMostOnce(threads: set<Thread>, run: seq<Action>)
    requires Legal(Init(threads, true), run)
    ensures After(Init(threads, true), run).closes <= 1
  {
    hide RW.Init, RW.Inv;
    InitInv(threads, true);
    RunInv(Init(threads, true), run);
  }

  ghost predicate Reachable(threads: set<Thread>, s: State) {
    exists run :: Legal(Init(threads, true), run) && After(Init(threads, true), run) == s
  }

  lemma LegalAppend(s: State, run: seq<Action>, a: Action)
    requires Legal(s, run) && Enabled(After(s, run), a)
    ensures Legal(s, run + [a]) && After(s, run + [a]) == Step(After(s, run), a)
    decreases |run|
  {
    hide Enabled, Step;
    if run == [] {
      assert run + [a] == [a];
    } else {
      assert (run + [a])[1..] == run[1..] + [a];
      LegalAppend(Step(s, run[0]), run[1..], a);
    }
  }

  lemma Take(threads: set<Thread>, s: State, a: Action)
    requires Reachable(threads, s) && Enabled(s, a)
    ensures Reachable(threads, Step(s, a))
  {
    hide Enabled, Step, Legal, After;
    var run :| Legal(Init(threads, true), run) && After(Init(threads, true), run) == s;
    LegalAppend(Init(threads, true), run, a);
  }

  /** The states one thread passes through in isOpen when getsockopt reports an error. */
  function LoneThread(job: Job, pc: RW.PC, readers: int, owner: Option<Thread>, dropped: bool): State {
    State(RW.State(readers, 0, owner, map[0 := pc]), map[0 := job], !dropped, 0, dropped)
  }

  lemma LockTo(job: Job, pc: RW.PC, n: int, o: Option<Thread>, a: RW.Action, pc': RW.PC, n': int, o': Option<Thread>)
    requires Reachable({0}, LoneThread(job, pc, n, o, false))
    requires Enabled(LoneThread(job, pc, n, o, false), Lock(a))
    requires Step(LoneThread(job, pc, n, o, false), Lock(a)) == LoneThread(job, pc', n', o', false)
    ensures Reachable({0}, LoneThread(job, pc', n', o', false))
  {
    hide Enabled, Step, Reachable;
    Take({0}, LoneThread(job, pc, n, o, false), Lock(a));
  }

  lemma JobTo(job: Job, pc: RW.PC, n: int, o: Option<Thread>, a: Action, job': Job, dropped: bool)
    requires Reachable({0}, LoneThread(job, pc, n, o, false))
    requires Enabled(LoneThread(job, pc, n, o, false), a)
    requires Step(LoneThread(job, pc, n, o, false), a) == LoneThread(job', pc, n, o, dropped)
    ensures Reachable({0}, LoneThread(job', pc, n, o, dropped))
  {
    hide Enabled, Step, Reachable;
    Take({0}, LoneThread(job, pc, n, o, false), a);
  }

  lemma TakesReadLock(held: Option<Thread>, free: Option<Thread>)
    requires held == Some(0) && free == None
    requires Reachable({0}, LoneThread(Rest, RW.Idle, 0, free, false))
    ensures Reachable({0}, LoneThread(InCall(IsOpen), RW.Reading, 1, free, false))
  {
    hide Reachable;
    JobTo(Rest, RW.Idle, 0, free, Call(0, IsOpen), Entering(IsOpen), false);
    LockTo(Entering(IsOpen), RW.Idle, 0, free, RW.AcquireRead(0), RW.ReadEntry, 0, held);
    LockTo(Entering(IsOpen), RW.ReadEntry, 0, held, RW.CountReader(0), RW.ReadCounted, 1, held);
    LockTo(Entering(IsOpen), RW.ReadCounted, 1, held, RW.ReleaseRead(0), RW.Reading, 1, free);
    JobTo(Entering(IsOpen), RW.Reading, 1, free, Entered(0), ReadLocked(IsOpen), false);
    JobTo(ReadLocked(IsOpen), RW.Reading, 1, free, Look(0), InCall(IsOpen), false);
  }

  lemma LeavesReadLock(held: Option<Thread>, free: Option<Thread>)
    requires held == Some(0) && free == None
    requires Reachable({0}, LoneThread(InCall(IsOpen), RW.Reading, 1, free, false))
    ensures Reachable({0}, LoneThread(Upgrading(IsOpen), RW.Idle, 0, free, false))
  {
    hide Reachable;
    var job := Leaving(IsOpen, true);
    JobTo(InCall(IsOpen), RW.Reading, 1, free, CallReturns(0, false), job, false);
    LockTo(job, RW.Reading, 1, free, RW.AcquireLeave(0), RW.LeaveEntry, 1, held);
    LockTo(job, RW.LeaveEntry, 1, held, RW.UncountReader(0), RW.LeaveCounted, 0, held);
    LockTo(job, RW.LeaveCounted, 0, held, RW.NotifyLeave(0, None), RW.LeaveNotified, 0, held);
    LockTo(job, RW.LeaveNotified, 0, held, RW.ReleaseLeave(0), RW.Idle, 0, free);
    JobTo(job, RW.Idle, 0, free, Left(0), Upgrading(IsOpen), false);
  }

  lemma DropsDescriptor(held: Option<Thread>, free: Option<Thread>)
    requires held == Some(0) && free == None
    requires Reachable({0}, LoneThread(Upgrading(IsOpen), RW.Idle, 0, free, false))
    ensures Reachable({0}, LoneThread(Finishing(IsOpen), RW.Writing, 0, held, true))
  {
    hide Reachable;
    var job := Upgrading(IsOpen);
    LockTo(job, RW.Idle, 0, free, RW.AcquireWrite(0), RW.WriteEntry, 0, held);
    LockTo(job, RW.WriteEntry, 0, held, RW.LookAtReaders(0), RW.Writing, 0, held);
    JobTo(job, RW.Writing, 0, held, Upgraded(0), WriteLocked(IsOpen), false);
    JobTo(WriteLocked(IsOpen), RW.Writing, 0, held, LookAgain(0), Finishing(IsOpen), true);
  }

  /** isOpen on a socket with a pending error loses the descriptor without closing it. */
  lemma IsOpenCanDrop()
    ensures exists s :: Reachable({0}, s) && s.dropped && !s.valid && s.closes == 0
  {
    hide Reachable;
    StartAlone();
    TakesReadLock(Some(0), None);
    LeavesReadLock(Some(0), None);
    DropsDescriptor(Some(0), None);
  }

  lemma StartAlone()
    ensures Reachable({0}, LoneThread(Rest, RW.Idle, 0, None, false))
  {
    assert Legal(Init({0}, true), []) && After(Init({0}, true), []) == Init({0}, true);
    assert Init({0}, true) == LoneThread(Rest, RW.Idle, 0, None, false);
  }

  // ---------- calls overlap ----------

  lemma EmptyRun(s: State)
    ensures Legal(s, []) && After(s, []) == s
  {
  }

  lemma Prepend(s: State, a: Action, run: seq<Action>)
    requires Enabled(s, a) && Legal(Step(s, a), run)
    ensures Legal(s, [a] + run) && After(s, [a] + run) == After(Step(s, a), run)
  {
    hide Enabled, Step;
    assert ([a] + run)[1..] == run;
  }

  /** Where a call stands after its look at the field. */
  function Looked(op: Op, valid: bool): Job {
    if valid && op != WriteNothing then InCall(op) else Leaving(op, op in {IsOpen, Close})
  }

  function CallRun(t: Thread, op: Op): seq<Action> {
    [Call(t, op), Lock(RW.AcquireRead(t)), Lock(RW.CountReader(t)), Lock(RW.ReleaseRead(t)), Entered(t), Look(t)]
  }

  /** The state with one thread elsewhere, and so many readers more. */
  function Moved(s: State, t: Thread, job: Job, pc: RW.PC, more: int, owner: Option<Thread>): State {
    Do(s, t, job).(lock := RW.Go(s.lock, t, pc).(readLocks := s.lock.readLocks + more, owner := owner))
  }

  lemma MovedAgain(s: State, t: Thread, job: Job, pc: RW.PC, more: int, owner: Option<Thread>,
                   job': Job, pc': RW.PC, more': int, owner': Option<Thread>)
    ensures Moved(Moved(s, t, job, pc, more, owner), t, job', pc', more', owner') ==
            Moved(s, t, job', pc', more + more', owner')
  {
    assert s.jobs[t := job][t := job'] == s.jobs[t := job'];
    assert s.lock.pcs[t := pc][t := pc'] == s.lock.pcs[t := pc'];
  }

  lemma MovedIs(s: State, t: Thread, job: Job, pc: RW.PC, more: int, owner: Option<Thread>)
    ensures var s' := Moved(s, t, job, pc, more, owner);
            Doing(s', t, job) && RW.At(s'.lock, t, pc) && s'.lock.owner == owner &&
            s'.lock.pendingWriteLocks == s.lock.pendingWriteLocks && s'.lock.readLocks == s.lock.readLocks + more
  {
  }

  lemma SameJob(s: State, t: Thread, job: Job)
    requires Doing(s, t, job)
    ensures s.jobs[t := job] == s.jobs
  {
  }

  lemma ReadSteps(s: State, t: Thread, op: Op)
    requires Doing(s, t, Entering(op))
    ensures s.lock.owner == None && RW.At(s.lock, t, RW.Idle) ==>
      Enabled(s, Lock(RW.AcquireRead(t))) &&
      Step(s, Lock(RW.AcquireRead(t))) == Moved(s, t, Entering(op), RW.ReadEntry, 0, Some(t))
    ensures RW.At(s.lock, t, RW.ReadEntry) ==>
      Enabled(s, Lock(RW.CountReader(t))) &&
      Step(s, Lock(RW.CountReader(t))) == Moved(s, t, Entering(op), RW.ReadCounted, 1, s.lock.owner)
    ensures RW.At(s.lock, t, RW.ReadCounted) ==>
      Enabled(s, Lock(RW.ReleaseRead(t))) &&
      Step(s, Lock(RW.ReleaseRead(t))) == Moved(s, t, Entering(op), RW.Reading, 0, None)
  {
    SameJob(s, t, Entering(op));
  }

  /** The three steps that construct the RLock. */
  lemma Enters(s: State, t: Thread, op: Op, rest: seq<Action>)
    requires s.lock.owner == None && Doing(s, t, Entering(op)) && RW.At(s.lock, t, RW.Idle)
    requires Legal(Moved(s, t, Entering(op), RW.Reading, 1, None), rest)
    ensures var run := [Lock(RW.AcquireRead(t)), Lock(RW.CountReader(t)), Lock(RW.ReleaseRead(t))] + rest;
            Legal(s, run) && After(s, run) == After(Moved(s, t, Entering(op), RW.Reading, 1, None), rest)
  {
    hide Enabled, Step, Legal, After, Moved, Doing, RW.At;
    var job := Entering(op);
    var s1 := Moved(s, t, job, RW.ReadEntry, 0, Some(t));
    var s2 := Moved(s, t, job, RW.ReadCounted, 1, Some(t));
    var a1, a2, a3 := Lock(RW.AcquireRead(t)), Lock(RW.CountReader(t)), Lock(RW.ReleaseRead(t));
    ReadSteps(s, t, op);
    MovedIs(s, t, job, RW.ReadEntry, 0, Some(t));
    ReadSteps(s1, t, op);
    MovedAgain(s, t, job, RW.ReadEntry, 0, Some(t), job, RW.ReadCounted, 1, Some(t));
    MovedIs(s, t, job, RW.ReadCounted, 1, Some(t));
    ReadSteps(s2, t, op);
    MovedAgain(s, t, job, RW.ReadCounted, 1, Some(t), job, RW.Reading, 0, None);
    Prepend(s2, a3, rest);
    Prepend(s1, a2, [a3] + rest);
    Prepend(s, a1, [a2] + ([a3] + rest));
    assert [a1] + ([a2] + ([a3] + rest)) == [a1, a2, a3] + rest;
  }

  /** Whatever the other threads are doing inside their calls: with the inner mutex at rest the
      six own steps of any call reach the descriptor, and change nothing else. */
  lemma CallGetsIn(s: State, t: Thread, op: Op)
    requires s.lock.owner == None && Doing(s, t, Rest) && RW.At(s.lock, t, RW.Idle)
    ensures Legal(s, CallRun(t, op))
    ensures After(s, CallRun(t, op)) == Moved(s, t, Looked(op, s.valid), RW.Reading, 1, None)
  {
    var s1 := Do(s, t, Entering(op));
    var s4 := Moved(s1, t, Entering(op), RW.Reading, 1, None);
    var rest := [Entered(t)] + [Look(t)];
    Calls(s, t, op);
    Looks(s4, t, op);
    MovedThenDone(s, t, Entering(op), Looked(op, s.valid));
    assert s4.valid == s.valid && Doing(s1, t, Entering(op)) && RW.At(s1.lock, t, RW.Idle);
    hide Enabled, Step, Legal, After, Moved, Do, Doing;
    Enters(s1, t, op, rest);
    var entering := [Lock(RW.AcquireRead(t)), Lock(RW.CountReader(t)), Lock(RW.ReleaseRead(t))];
    Prepend(s, Call(t, op), entering + rest);
    assert [Call(t, op)] + (entering + rest) == CallRun(t, op);
  }

  lemma Calls(s: State, t: Thread, op: Op)
    requires Doing(s, t, Rest)
    ensures Enabled(s, Call(t, op)) && Step(s, Call(t, op)) == Do(s, t, Entering(op))
  {
  }

  lemma Looks(s: State, t: Thread, op: Op)
    requires Doing(s, t, Entering(op)) && RW.At(s.lock, t, RW.Reading)
    ensures Legal(s, [Entered(t)] + [Look(t)]) && After(s, [Entered(t)] + [Look(t)]) == Do(s, t, Looked(op, s.valid))
  {
    var s1 := Do(s, t, ReadLocked(op));
    var s2 := Do(s1, t, Looked(op, s.valid));
    assert s2.jobs == s.jobs[t := Looked(op, s.valid)];
    hide Legal, After;
    EmptyRun(s2);
    Prepend(s1, Look(t), []);
    Prepend(s, Entered(t), [Look(t)]);
  }

  lemma MovedThenDone(s: State, t: Thread, job: Job, job': Job)
    ensures var s4 := Moved(Do(s, t, job), t, job, RW.Reading, 1, None);
            Do(s4, t, job') == Moved(s, t, job', RW.Reading, 1, None) &&
            Doing(s4, t, job) && RW.At(s4.lock, t, RW.Reading)
  {
    assert s.jobs[t := job][t := job][t := job'] == s.jobs[t := job'];
  }

  function Mover(a: Action): Thread {
    if a.Lock? then a.inner.t else a.t
  }

  predicate NotBy(run: seq<Action>, u: Thread) {
    forall i :: 0 <= i < |run| ==> Mover(run[i]) != u
  }

  lemma OwnerMoves(s: State, o: Thread, u: Thread) returns (a: RW.Action)
    requires Inv(s) && s.lock.owner == Some(o) && u in s.jobs && s.jobs[u].InCall?
    ensures a.t == o && o != u && Enabled(s, Lock(a)) && Inv(Step(s, Lock(a)))
    ensures Step(s, Lock(a)).jobs == s.jobs && Step(s, Lock(a)).valid == s.valid
    ensures Step(s, Lock(a)).lock.owner in {None, Some(o)}
    ensures o in s.lock.pcs && o in Step(s, Lock(a)).lock.pcs
    ensures RW.Weight(Step(s, Lock(a)).lock.pcs[o]) < RW.Weight(s.lock.pcs[o])
  {
    hide RW.Step, RW.Enabled, RW.Weight;
    OwnerIsNoWriter(s, o, u);
    a := RW.OwnersStep(s.lock, o);
    NoNewLock(s.lock, a);
    hide Inv;
    StepInv(s, Lock(a));
  }

  /** While a thread is inside a call under its read lock, the owner of the mutex gives it up. */
  lemma {:induction false} MutexComesFree(s: State, o: Thread, u: Thread) returns (run: seq<Action>)
    requires Inv(s) && s.lock.owner == Some(o) && u in s.jobs && s.jobs[u].InCall?
    ensures Legal(s, run) && NotBy(run, u) && Inv(After(s, run)) && After(s, run).lock.owner == None
    ensures After(s, run).jobs == s.jobs && After(s, run).valid == s.valid
    decreases if o in s.lock.pcs then RW.Weight(s.lock.pcs[o]) else 0
  {
    hide Inv, Step, Enabled, RW.Weight, Legal, After;
    var a := OwnerMoves(s, o, u);
    var next := Step(s, Lock(a));
    var rest: seq<Action> := [];
    if next.lock.owner.Some? {
      rest := MutexComesFree(next, o, u);
    } else {
      EmptyRun(next);
    }
    run := [Lock(a)] + rest;
    Prepend(s, Lock(a), rest);
  }

  lemma OwnerIsNoWriter(s: State, o: Thread, u: Thread)
    requires RW.Inv(s.lock) && JobsConsistent(s) && s.lock.owner == Some(o) && u in s.jobs && s.jobs[u].InCall?
    ensures o in s.jobs && s.lock.pcs[o].OwnsMutex() && !s.lock.pcs[o].HasWriteLock()
  {
    assert Consistent(s.jobs[u], s.lock.pcs[u]);
    if s.lock.pcs[o].HasWriteLock() {
      WriterExcludes(s, o, u);
    }
  }

  /** The owner's step is none that a call has to ask for. */
  lemma NoNewLock(l: RW.State, a: RW.Action)
    requires RW.Enabled(l, a) && RW.FromInside(a) && l.pcs[a.t].OwnsMutex() && !l.pcs[a.t].HasWriteLock()
    ensures !a.AcquireRead? && !a.AcquireLeave? && !a.AcquireWrite? && !a.NotifyWrite?
  {
  }

  /** A thread inside recv keeps no other from sending: from every reachable state, without a
      step of the receiving thread, another thread's write reaches send. */
  lemma WritesDuringRead(threads: set<Thread>, s: State, u: Thread, t: Thread) returns (run: seq<Action>)
    requires Reachable(threads, s) && Doing(s, u, InCall(Read)) && Doing(s, t, Rest)
    ensures Legal(s, run) && NotBy(run, u)
    ensures Doing(After(s, run), u, InCall(Read)) && Doing(After(s, run), t, InCall(Write))
  {
    hide Legal, After, RW.Inv, Reachable;
    ReachableInv(threads, s);
    run := [];
    EmptyRun(s);
    if s.lock.owner.Some? {
      run := MutexComesFree(s, s.lock.owner.value, u);
    }
    var free := After(s, run);
    assert Consistent(free.jobs[t], free.lock.pcs[t]);
    assert free.valid;
    CallGetsIn(free, t, Write);
    Concat(s, run, CallRun(t, Write));
    run := run + CallRun(t, Write);
  }

  lemma ReachableInv(threads: set<Thread>, s: State)
    requires Reachable(threads, s)
    ensures Inv(s)
  {
    hide RW.Init, RW.Inv;
    var run :| Legal(Init(threads, true), run) && After(Init(threads, true), run) == s;
    InitInv(threads, true);
    RunInv(Init(threads, true), run);
  }

  lemma {:induction false} Concat(s: State, run: seq<Action>, more: seq<Action>)
    requires Legal(s, run) && Legal(After(s, run), more)
    ensures Legal(s, run + more) && After(s, run + more) == After(After(s, run), more)
    decreases |run|
  {
    hide Enabled, Step;
    if run == [] {
      assert run + more == more;
    } else {
      assert (run + more)[1..] == run[1..] + more;
      Concat(Step(s, run[0]), run[1..], more);
    }
  }

  /** Where a thread waits for the inner mutex. */
  predicate AtMutex(pc: RW.PC) {
    pc == RW.Idle || pc == RW.Reading || pc == RW.Woken
  }

  /** Nothing but the lock ever holds a call up: in any other place its thread has a step of its
      own, and with the inner mutex at rest always. */
  lemma NobodyStuck(s: State, t: Thread) returns (a: Action)
    requires t in s.jobs && t in s.lock.pcs && Consistent(s.jobs[t], s.lock.pcs[t])
    requires s.lock.owner == None || !AtMutex(s.lock.pcs[t]) || s.jobs[t].ReadLocked? || s.jobs[t].InCall?
    ensures Mover(a) == t && Enabled(s, a)
  {
    var pc := s.lock.pcs[t];
    if pc.OwnsMutex() && pc != RW.Writing {
      var l := RW.OwnersNext(s.lock, t);
      a := Lock(l);
    } else if pc == RW.Asleep {
      a := Lock(RW.WakeSpuriously(t));
    } else if pc == RW.Woken {
      a := Lock(RW.Reacquire(t));
    } else {
      match s.jobs[t] {
        case Rest => a := Call(t, Read);
        case Entering(_) => a := if pc == RW.Reading then Entered(t) else Lock(RW.AcquireRead(t));
        case ReadLocked(_) => a := Look(t);
        case InCall(_) => a := CallReturns(t, true);
        case Leaving(_, _) => a := if pc == RW.Idle then Left(t) else Lock(RW.AcquireLeave(t));
        case Upgrading(_) => a := if pc == RW.Writing then Upgraded(t) else Lock(RW.AcquireWrite(t));
        case WriteLocked(_) => a := LookAgain(t);
        case InClose(_) => a := CloseReturns(t);
        case Finishing(_) =>
          if pc == RW.Idle {
            a := Finished(t);
          } else {
            var l := RW.OwnersNext(s.lock, t);
            a := Lock(l);
          }
      }
    }
  }

  // ---------- closing ----------

  lemma LeaveSteps(s: State, t: Thread, job: Job)
    requires Doing(s, t, job) && job.Leaving?
    ensures s.lock.owner == None && RW.At(s.lock, t, RW.Reading) ==>
      Enabled(s, Lock(RW.AcquireLeave(t))) &&
      Step(s, Lock(RW.AcquireLeave(t))) == Moved(s, t, job, RW.LeaveEntry, 0, Some(t))
    ensures RW.At(s.lock, t, RW.LeaveEntry) ==>
      Enabled(s, Lock(RW.UncountReader(t))) &&
      Step(s, Lock(RW.UncountReader(t))) == Moved(s, t, job, RW.LeaveCounted, -1, s.lock.owner)
    ensures RW.At(s.lock, t, RW.LeaveCounted) && s.lock.pendingWriteLocks == 0 ==>
      Enabled(s, Lock(RW.NotifyLeave(t, None))) &&
      Step(s, Lock(RW.NotifyLeave(t, None))) == Moved(s, t, job, RW.LeaveNotified, 0, s.lock.owner)
    ensures RW.At(s.lock, t, RW.LeaveNotified) ==>
      Enabled(s, Lock(RW.ReleaseLeave(t))) &&
      Step(s, Lock(RW.ReleaseLeave(t))) == Moved(s, t, job, RW.Idle, 0, None)
  {
    SameJob(s, t, job);
  }

  /** The four steps that destroy the RLock, when no writer waits. */
  lemma Leaves(s: State, t: Thread, job: Job, rest: seq<Action>)
    requires s.lock.owner == None && s.lock.pendingWriteLocks == 0 && job.Leaving?
    requires Doing(s, t, job) && RW.At(s.lock, t, RW.Reading)
    requires Legal(Moved(s, t, job, RW.Idle, -1, None), rest)
    ensures var run := [Lock(RW.AcquireLeave(t)), Lock(RW.UncountReader(t)), Lock(RW.NotifyLeave(t, None)),
                        Lock(RW.ReleaseLeave(t))] + rest;
            Legal(s, run) && After(s, run) == After(Moved(s, t, job, RW.Idle, -1, None), rest)
  {
    hide Enabled, Step, Legal, After, Moved, Doing, RW.At;
    var s1 := Moved(s, t, job, RW.LeaveEntry, 0, Some(t));
    var s2 := Moved(s, t, job, RW.LeaveCounted, -1, Some(t));
    var s3 := Moved(s, t, job, RW.LeaveNotified, -1, Some(t));
    var a1, a2 := Lock(RW.AcquireLeave(t)), Lock(RW.UncountReader(t));
    var a3, a4 := Lock(RW.NotifyLeave(t, None)), Lock(RW.ReleaseLeave(t));
    LeaveSteps(s, t, job);
    MovedIs(s, t, job, RW.LeaveEntry, 0, Some(t));
    LeaveSteps(s1, t, job);
    MovedAgain(s, t, job, RW.LeaveEntry, 0, Some(t), job, RW.LeaveCounted, -1, Some(t));
    MovedIs(s, t, job, RW.LeaveCounted, -1, Some(t));
    LeaveSteps(s2, t, job);
    MovedAgain(s, t, job, RW.LeaveCounted, -1, Some(t), job, RW.LeaveNotified, 0, Some(t));
    MovedIs(s, t, job, RW.LeaveNotified, -1, Some(t));
    LeaveSteps(s3, t, job);
    MovedAgain(s, t, job, RW.LeaveNotified, -1, Some(t), job, RW.Idle, 0, None);
    Prepend(s3, a4, rest);
    Prepend(s2, a3, [a4] + rest);
    Prepend(s1, a2, [a3] + ([a4] + rest));
    Prepend(s, a1, [a2] + ([a3] + ([a4] + rest)));
    assert [a1] + ([a2] + ([a3] + ([a4] + rest))) == [a1, a2, a3, a4] + rest;
  }

  lemma WriteSteps(s: State, t: Thread, op: Op)
    ensures Doing(s, t, Upgrading(op)) && s.lock.owner == None && RW.At(s.lock, t, RW.Idle) ==>
      Enabled(s, Lock(RW.AcquireWrite(t))) &&
      Step(s, Lock(RW.AcquireWrite(t))) == Moved(s, t, Upgrading(op), RW.WriteEntry, 0, Some(t))
    ensures Doing(s, t, Upgrading(op)) && s.lock.readLocks == 0 && RW.At(s.lock, t, RW.WriteEntry) ==>
      Enabled(s, Lock(RW.LookAtReaders(t))) &&
      Step(s, Lock(RW.LookAtReaders(t))) == Moved(s, t, Upgrading(op), RW.Writing, 0, s.lock.owner)
    ensures Doing(s, t, Finishing(op)) && s.lock.pendingWriteLocks == 0 && RW.At(s.lock, t, RW.Writing) ==>
      Enabled(s, Lock(RW.NotifyWrite(t, None))) &&
      Step(s, Lock(RW.NotifyWrite(t, None))) == Moved(s, t, Finishing(op), RW.UnlockNotified, 0, s.lock.owner)
    ensures Doing(s, t, Finishing(op)) && RW.At(s.lock, t, RW.UnlockNotified) ==>
      Enabled(s, Lock(RW.ReleaseWrite(t))) &&
      Step(s, Lock(RW.ReleaseWrite(t))) == Moved(s, t, Finishing(op), RW.Idle, 0, None)
  {
    if t in s.jobs {
      SameJob(s, t, s.jobs[t]);
    }
  }

  /** Constructing the WLock when nobody else holds or wants the lock. */
  lemma TakesWriteLock(s: State, t: Thread, op: Op, rest: seq<Action>)
    requires s.lock.owner == None && s.lock.readLocks == 0 && Doing(s, t, Upgrading(op)) && RW.At(s.lock, t, RW.Idle)
    requires Legal(Moved(s, t, Upgrading(op), RW.Writing, 0, Some(t)), rest)
    ensures var run := [Lock(RW.AcquireWrite(t)), Lock(RW.LookAtReaders(t))] + rest;
            Legal(s, run) && After(s, run) == After(Moved(s, t, Upgrading(op), RW.Writing, 0, Some(t)), rest)
  {
    hide Enabled, Step, Legal, After, Moved, Doing, RW.At;
    var job := Upgrading(op);
    var s1 := Moved(s, t, job, RW.WriteEntry, 0, Some(t));
    var a1, a2 := Lock(RW.AcquireWrite(t)), Lock(RW.LookAtReaders(t));
    WriteSteps(s, t, op);
    MovedIs(s, t, job, RW.WriteEntry, 0, Some(t));
    WriteSteps(s1, t, op);
    MovedAgain(s, t, job, RW.WriteEntry, 0, Some(t), job, RW.Writing, 0, Some(t));
    Prepend(s1, a2, rest);
    Prepend(s, a1, [a2] + rest);
    assert [a1] + ([a2] + rest) == [a1, a2] + rest;
  }

  /** Destroying the WLock when no writer waits. */
  lemma DropsWriteLock(s: State, t: Thread, op: Op, rest: seq<Action>)
    requires s.lock.pendingWriteLocks == 0 && Doing(s, t, Finishing(op)) && RW.At(s.lock, t, RW.Writing)
    requires Legal(Moved(s, t, Finishing(op), RW.Idle, 0, None), rest)
    ensures var run := [Lock(RW.NotifyWrite(t, None)), Lock(RW.ReleaseWrite(t))] + rest;
            Legal(s, run) && After(s, run) == After(Moved(s, t, Finishing(op), RW.Idle, 0, None), rest)
  {
    hide Enabled, Step, Legal, After, Moved, Doing, RW.At;
    var job := Finishing(op);
    var s1 := Moved(s, t, job, RW.UnlockNotified, 0, s.lock.owner);
    var a1, a2 := Lock(RW.NotifyWrite(t, None)), Lock(RW.ReleaseWrite(t));
    WriteSteps(s, t, op);
    MovedIs(s, t, job, RW.UnlockNotified, 0, s.lock.owner);
    WriteSteps(s1, t, op);
    MovedAgain(s, t, job, RW.UnlockNotified, 0, s.lock.owner, job, RW.Idle, 0, None);
    Prepend(s1, a2, rest);
    Prepend(s, a1, [a2] + rest);
    assert [a1] + ([a2] + rest) == [a1, a2] + rest;
  }

  /** The lock is not in use. */
  predicate Quiet(s: State) {
    s.lock.owner == None && s.lock.readLocks == 0 && s.lock.pendingWriteLocks == 0
  }

  /** What close() does while it holds the WLock. */
  lemma ShutsDown(s: State, t: Thread, rest: seq<Action>)
    requires s.valid && Doing(s, t, Upgrading(Close)) && RW.At(s.lock, t, RW.Writing)
    requires Legal(Do(s, t, Finishing(Close)).(valid := false, closes := s.closes + 1), rest)
    ensures var run := [Upgraded(t), LookAgain(t), CloseReturns(t)] + rest;
            Legal(s, run) &&
            After(s, run) == After(Do(s, t, Finishing(Close)).(valid := false, closes := s.closes + 1), rest)
  {
    var looking := Do(s, t, WriteLocked(Close));
    var closing := Do(looking, t, InClose(Close)).(closes := s.closes + 1);
    var closed := Do(closing, t, Finishing(Close)).(valid := false);
    hide Legal, After, Enabled, Step, RW.At;
    CloseStates(s, t);
    hide Do, Doing;
    CloseSteps(s, t);
    CloseSteps(looking, t);
    CloseSteps(closing, t);
    Prepend(closing, CloseReturns(t), rest);
    Prepend(looking, LookAgain(t), [CloseReturns(t)] + rest);
    Prepend(s, Upgraded(t), [LookAgain(t)] + ([CloseReturns(t)] + rest));
    assert [Upgraded(t)] + ([LookAgain(t)] + ([CloseReturns(t)] + rest)) ==
           [Upgraded(t), LookAgain(t), CloseReturns(t)] + rest;
  }

  lemma CloseStates(s: State, t: Thread)
    ensures var looking := Do(s, t, WriteLocked(Close));
            var closing := Do(looking, t, InClose(Close)).(closes := s.closes + 1);
            Doing(looking, t, WriteLocked(Close)) && looking.valid == s.valid && looking.closes == s.closes &&
            Doing(closing, t, InClose(Close)) &&
            Do(closing, t, Finishing(Close)).(valid := false) ==
            Do(s, t, Finishing(Close)).(valid := false, closes := s.closes + 1)
  {
    assert s.jobs[t := WriteLocked(Close)][t := InClose(Close)][t := Finishing(Close)] == s.jobs[t := Finishing(Close)];
  }

  lemma CloseSteps(s: State, t: Thread)
    ensures Doing(s, t, Upgrading(Close)) && RW.At(s.lock, t, RW.Writing) ==>
      Enabled(s, Upgraded(t)) && Step(s, Upgraded(t)) == Do(s, t, WriteLocked(Close))
    ensures Doing(s, t, WriteLocked(Close)) && s.valid ==>
      Enabled(s, LookAgain(t)) && Step(s, LookAgain(t)) == Do(s, t, InClose(Close)).(closes := s.closes + 1)
    ensures Doing(s, t, InClose(Close)) ==>
      Enabled(s, CloseReturns(t)) && Step(s, CloseReturns(t)) == Do(s, t, Finishing(Close)).(valid := false)
  {
  }

  lemma ReleasedState(s: State, t: Thread)
    requires Quiet(s) && Doing(s, t, Upgrading(Close)) && RW.At(s.lock, t, RW.Idle)
    ensures var closed := Do(Moved(s, t, Upgrading(Close), RW.Writing, 0, Some(t)), t, Finishing(Close));
            var free := Moved(closed.(valid := false, closes := s.closes + 1), t, Finishing(Close), RW.Idle, 0, None);
            Do(free, t, Rest) == Do(s, t, Rest).(valid := false, closes := s.closes + 1)
  {
    assert s.lock.pcs[t := RW.Writing][t := RW.Idle] == s.lock.pcs;
    assert s.jobs[t := Upgrading(Close)][t := Finishing(Close)][t := Finishing(Close)][t := Rest] == s.jobs[t := Rest];
  }

  lemma LockedStates(s: State, t: Thread)
    ensures var held := Moved(s, t, Upgrading(Close), RW.Writing, 0, Some(t));
            var closed := Do(held, t, Finishing(Close)).(valid := false, closes := s.closes + 1);
            Doing(held, t, Upgrading(Close)) && RW.At(held.lock, t, RW.Writing) &&
            held.valid == s.valid && held.closes == s.closes &&
            Doing(closed, t, Finishing(Close)) && RW.At(closed.lock, t, RW.Writing) &&
            closed.lock.pendingWriteLocks == s.lock.pendingWriteLocks
  {
  }

  lemma Finishes(s: State, t: Thread)
    requires t in s.jobs && s.jobs[t].Finishing? && RW.At(s.lock, t, RW.Idle)
    ensures Enabled(s, Finished(t)) && Step(s, Finished(t)) == Do(s, t, Rest)
  {
  }

  /** Destroying the WLock at the end of close(). */
  lemma FinishesUnlocked(s: State, t: Thread) returns (run: seq<Action>)
    requires s.lock.pendingWriteLocks == 0 && Doing(s, t, Finishing(Close)) && RW.At(s.lock, t, RW.Writing)
    ensures Legal(s, run) && After(s, run) == Do(Moved(s, t, Finishing(Close), RW.Idle, 0, None), t, Rest)
  {
    hide Legal, After, Enabled, Step, Moved, Do;
    var free := Moved(s, t, Finishing(Close), RW.Idle, 0, None);
    MovedIs(s, t, Finishing(Close), RW.Idle, 0, None);
    Finishes(free, t);
    EmptyRun(Do(free, t, Rest));
    Prepend(free, Finished(t), []);
    run := [Finished(t)] + [];
    DropsWriteLock(s, t, Close, run);
    run := [Lock(RW.NotifyWrite(t, None)), Lock(RW.ReleaseWrite(t))] + run;
  }

  /** The write-locked part of close(). */
  lemma ClosesUnderLock(s: State, t: Thread) returns (run: seq<Action>)
    requires Quiet(s) && s.valid && Doing(s, t, Upgrading(Close)) && RW.At(s.lock, t, RW.Idle)
    ensures Legal(s, run) && After(s, run) == Do(s, t, Rest).(valid := false, closes := s.closes + 1)
  {
    var held := Moved(s, t, Upgrading(Close), RW.Writing, 0, Some(t));
    var closed := Do(held, t, Finishing(Close)).(valid := false, closes := s.closes + 1);
    hide Legal, After, Enabled, Step, Moved, Do, Doing, RW.At;
    ReleasedState(s, t);
    LockedStates(s, t);
    run := FinishesUnlocked(closed, t);
    ShutsDown(held, t, run);
    run := [Upgraded(t), LookAgain(t), CloseReturns(t)] + run;
    TakesWriteLock(s, t, Close, run);
    run := [Lock(RW.AcquireWrite(t)), Lock(RW.LookAtReaders(t))] + run;
  }

  lemma Returns(s: State, t: Thread)
    ensures Doing(s, t, InCall(Close)) ==>
      Enabled(s, CallReturns(t, true)) && Step(s, CallReturns(t, true)) == Do(s, t, Leaving(Close, true))
    ensures Doing(s, t, Leaving(Close, true)) && RW.At(s.lock, t, RW.Idle) ==>
      Enabled(s, Left(t)) && Step(s, Left(t)) == Do(s, t, Upgrading(Close))
  {
  }

  lemma UnlockedStates(s: State, t: Thread)
    requires Quiet(s) && Doing(s, t, Rest) && RW.At(s.lock, t, RW.Idle)
    ensures var job := Leaving(Close, true);
            var shutting := Moved(s, t, InCall(Close), RW.Reading, 1, None);
            var leaving := Do(shutting, t, job);
            var left := Moved(leaving, t, job, RW.Idle, -1, None);
            var upgrading := Do(left, t, Upgrading(Close));
            Doing(shutting, t, InCall(Close)) && Doing(leaving, t, job) && RW.At(leaving.lock, t, RW.Reading) &&
            leaving.lock.owner == None && leaving.lock.pendingWriteLocks == 0 &&
            Doing(left, t, job) && RW.At(left.lock, t, RW.Idle) &&
            Doing(upgrading, t, Upgrading(Close)) && RW.At(upgrading.lock, t, RW.Idle) && Quiet(upgrading) &&
            upgrading.valid == s.valid &&
            Do(upgrading, t, Rest).(valid := false, closes := upgrading.closes + 1) ==
            s.(valid := false, closes := s.closes + 1)
  {
    assert s.lock.pcs[t := RW.Reading][t := RW.Idle] == s.lock.pcs;
    var jobs := s.jobs[t := InCall(Close)][t := Leaving(Close, true)][t := Leaving(Close, true)];
    assert jobs[t := Upgrading(Close)][t := Rest] == s.jobs;
  }

  /** close() does close: on a socket that holds its descriptor and whose lock nobody uses, the
      steps of the calling thread alone pass it to ::close once, clear the field, and leave the
      rest as it was. */
  lemma CloseCloses(s: State, t: Thread) returns (run: seq<Action>)
    requires Quiet(s) && s.valid && Doing(s, t, Rest) && RW.At(s.lock, t, RW.Idle)
    ensures Legal(s, run) && After(s, run) == s.(valid := false, closes := s.closes + 1)
  {
    var shutting := Moved(s, t, InCall(Close), RW.Reading, 1, None);
    var job := Leaving(Close, true);
    var leaving := Do(shutting, t, job);
    var left := Moved(leaving, t, job, RW.Idle, -1, None);
    var upgrading := Do(left, t, Upgrading(Close));
    hide Legal, After, Enabled, Step, Moved, Do, Doing, RW.At;
    CallGetsIn(s, t, Close);
    UnlockedStates(s, t);
    Returns(shutting, t);
    Returns(left, t);
    run := ClosesUnderLock(upgrading, t);
    Prepend(left, Left(t), run);
    run := [Left(t)] + run;
    Leaves(leaving, t, job, run);
    run := [Lock(RW.AcquireLeave(t)), Lock(RW.UncountReader(t)), Lock(RW.NotifyLeave(t, None)),
            Lock(RW.ReleaseLeave(t))] + run;
    Prepend(shutting, CallReturns(t, true), run);
    run := [CallReturns(t, true)] + run;
    Concat(s, CallRun(t, Close), run);
    run := CallRun(t, Close) + run;
  }
}
