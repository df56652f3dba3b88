/** The session of dap/session.cpp as a machine of interleaved steps: one receive thread, one
    dispatch thread, and any number of client threads that send requests and events. The
    inbox between the first two is the channel of Channel.dfy, of which only its order is
    needed here; the handlers for incoming requests are registered before the session starts.
    The dispatch thread sends responses; a handler that also sends events does so as one more
    client, which can act between any two steps of the dispatch thread. */
module Session {
  import opened Basics

  // ---------- sequence numbers ----------

  /** nextSeq++ for the id-th number handed out: a counter of 32 bits that starts at 1. */
  function Counter(id: nat): nat {
    (1 + id) % TWO_32
  }

  /** The same number as `int seq`, which is what a request carries. */
  function RequestSeq(id: nat): int {
    if Counter(id) < TWO_31 then Counter(id) else Counter(id) - TWO_32
  }

  // ---------- messages ----------

  /** A reply's verdict is success or an error; one that lacks the success field, or the message
      of an error, has none. */
  datatype Incoming =
    | Request(seqNo: int, command: nat, argsOk: bool)
    | Event(known: bool)
    | Reply(requestSeq: int, verdict: Option<bool>)
    | Unreadable

  datatype Outgoing =
    | OutRequest(id: nat)
    | OutEvent(id: nat)
    | OutResponse(id: nat, requestSeq: int, success: bool)
  {
    /** The "seq" field. */
    function SeqNo(): int {
      if OutRequest? then RequestSeq(id) else Counter(id)
    }
  }

  datatype Job = Answer(seqNo: int) | Notice

  /** ContentWriter writes a frame in two pieces. */
  datatype Piece = Header(msg: Outgoing) | Body(msg: Outgoing)

  // ---------- threads ----------

  datatype RecvPC =
    | Listening
    | Got(msg: Incoming)
    | Queueing(job: Job)
    | Firing(id: nat, requestSeq: int, verdict: Option<bool>)

  datatype Who = Dispatch | Client(n: nat)

  datatype PC =
    | Free
    | Running(job: Job)       // Dispatch: inside the handler
    | Numbered(id: nat)       // Client: has its number
    | Registered(id: nat)     // Client: has put its response handler
    | Ready(msg: Outgoing)    // serialized, about to lock sendMutex
    | Sending(msg: Outgoing)  // owns sendMutex, the writer was open
    | HalfSent(msg: Outgoing) // owns sendMutex, the header is written
    | SendDone                // owns sendMutex, about to release it
  {
    predicate OwnsSend() {
      Sending? || HalfSent? || SendDone?
    }

    /** The number this thread holds and has not finished sending. */
    function Held(): Option<nat> {
      if Numbered? || Registered? then Some(id)
      else if Ready? || Sending? || HalfSent? then Some(msg.id)
      else None
    }
  }

  /** The receive thread: the inbox, and what has been received and accepted so far. */
  datatype Inbound = Inbound(recv: RecvPC, inbox: seq<Job>, arrived: seq<Incoming>, accepted: seq<int>)

  /** The response handlers, and the history of those put in, those called with the number and
      the verdict they were called for, and those given up because the reply had none. */
  datatype Replies = Replies(
    handlers: map<int, nat>, installed: set<nat>, fired: seq<(nat, int, bool)>, dropped: set<nat>)

  /** sendMutex and the writer, and the frames written completely. */
  datatype Outbound = Outbound(
    owner: Option<Who>, open: bool, wire: seq<Piece>, torn: Option<Outgoing>, sent: seq<Outgoing>)

  /** `commands` are the registered request handlers, `numbers` counts the sequence numbers
      handed out, and `finished` is the history of the requests handled: the number of each
      and whether its handler returned a response or an error. */
  datatype State = State(
    commands: set<nat>, numbers: nat, pcs: map<Who, PC>,
    inbound: Inbound, replies: Replies, outbound: Outbound, finished: seq<(int, bool)>)

  datatype Action =
    | Receive(msg: Incoming) | Process | Enqueue | Fire
    | TakeJob | Finish(success: bool)
    | BeginRequest(who: Who) | PutHandler(who: Who) | Serialize(who: Who, ok: bool) | BeginEvent(who: Who)
    | LockSend(who: Who) | WriteHeader(who: Who) | WriteBody(who: Who) | UnlockSend(who: Who)
    | CloseWriter

  predicate Enabled(s: State, a: Action) {
    match a
    case Receive(_) => s.inbound.recv == Listening
    case Process => s.inbound.recv.Got?
    case Enqueue => s.inbound.recv.Queueing?
    case Fire => s.inbound.recv.Firing?
    case TakeJob => Dispatch in s.pcs && s.pcs[Dispatch] == Free && s.inbound.inbox != []
    case Finish(_) => Dispatch in s.pcs && s.pcs[Dispatch].Running?
    case BeginRequest(w) => w.Client? && w in s.pcs && s.pcs[w] == Free
    case BeginEvent(w) => w.Client? && w in s.pcs && s.pcs[w] == Free
    case PutHandler(w) => w.Client? && w in s.pcs && s.pcs[w].Numbered?
    case Serialize(w, _) => w.Client? && w in s.pcs && s.pcs[w].Registered?
    case LockSend(w) => w in s.pcs && s.pcs[w].Ready? && s.outbound.owner == None
    case WriteHeader(w) => w in s.pcs && s.pcs[w].Sending?
    case WriteBody(w) => w in s.pcs && s.pcs[w].HalfSent?
    case UnlockSend(w) => w in s.pcs && s.pcs[w].SendDone?
    case CloseWriter => true
  }

  function Go(s: State, w: Who, pc: PC): State {
    s.(pcs := s.pcs[w := pc])
  }

  predicate Acceptable(s: State, m: Incoming) {
    m.Request? && m.command in s.commands && m.argsOk
  }

  /** processMessage */
  function ProcessStep(s: State, m: Incoming): State {
    var i := s.inbound;
    if Acceptable(s, m) then
      s.(inbound := i.(recv := Queueing(Answer(m.seqNo)), accepted := i.accepted + [m.seqNo]))
    else if m.Event? && m.known then
      s.(inbound := i.(recv := Queueing(Notice)))
    else if m.Reply? && m.requestSeq in s.replies.handlers then
      var handlers := s.replies.handlers;
      s.(inbound := i.(recv := Firing(handlers[m.requestSeq], m.requestSeq, m.verdict)),
         replies := s.replies.(handlers := handlers - {m.requestSeq}))
    else
      s.(inbound := i.(recv := Listening))
  }

  function FireStep(s: State): State
    requires s.inbound.recv.Firing?
  {
    var i, r, pc := s.inbound, s.replies, s.inbound.recv;
    s.(inbound := i.(recv := Listening),
       replies := if pc.verdict.Some? then r.(fired := r.fired + [(pc.id, pc.requestSeq, pc.verdict.value)])
                  else r.(dropped := r.dropped + {pc.id}))
  }

  /** A new number for the thread. */
  function Number(s: State, w: Who, pc: PC): State {
    Go(s, w, pc).(numbers := s.numbers + 1)
  }

  function FinishStep(s: State, success: bool): State
    requires Dispatch in s.pcs && s.pcs[Dispatch].Running?
  {
    var job := s.pcs[Dispatch].job;
    if job.Notice? then Go(s, Dispatch, Free)
    else
      Number(s, Dispatch, Ready(OutResponse(s.numbers, job.seqNo, success)))
        .(finished := s.finished + [(job.seqNo, success)])
  }

  /** emplace does not replace a handler that is still there under the same number. */
  function PutHandlerStep(s: State, w: Who, id: nat): State {
    var r, next := s.replies, Go(s, w, Registered(id));
    if RequestSeq(id) in r.handlers then next
    else next.(replies := r.(handlers := r.handlers[RequestSeq(id) := id], installed := r.installed + {id}))
  }

  function WriteHeaderStep(s: State, w: Who, m: Outgoing): State {
    if !s.outbound.open then Go(s, w, SendDone)
    else Go(s, w, HalfSent(m)).(outbound := s.outbound.(wire := s.outbound.wire + [Header(m)]))
  }

  function WriteBodyStep(s: State, w: Who, m: Outgoing): State {
    var o := s.outbound;
    Go(s, w, SendDone).(outbound :=
      if o.open then o.(wire := o.wire + [Body(m)], sent := o.sent + [m]) else o.(torn := Some(m)))
  }

  function Step(s: State, a: Action): State
    requires Enabled(s, a)
  {
    var i, o := s.inbound, s.outbound;
    match a
    case Receive(m) => s.(inbound := i.(recv := Got(m), arrived := i.arrived + [m]))
    case Process => ProcessStep(s, i.recv.msg)
    case Enqueue => s.(inbound := i.(recv := Listening, inbox := i.inbox + [i.recv.job]))
    case Fire => FireStep(s)
    case TakeJob => Go(s, Dispatch, Running(i.inbox[0])).(inbound := i.(inbox := i.inbox[1..]))
    case Finish(success) => FinishStep(s, success)
    case BeginRequest(w) => Number(s, w, Numbered(s.numbers))
    case BeginEvent(w) => Number(s, w, Ready(OutEvent(s.numbers)))
    case PutHandler(w) => PutHandlerStep(s, w, s.pcs[w].id)
    case Serialize(w, ok) => Go(s, w, if ok then Ready(OutRequest(s.pcs[w].id)) else Free)
    case LockSend(w) =>
      Go(s, w, if o.open then Sending(s.pcs[w].msg) else SendDone).(outbound := o.(owner := Some(w)))
    case WriteHeader(w) => WriteHeaderStep(s, w, s.pcs[w].msg)
    case WriteBody(w) => WriteBodyStep(s, w, s.pcs[w].msg)
    case UnlockSend(w) => Go(s, w, Free).(outbound := o.(owner := None))
    case CloseWriter => s.(outbound := o.(open := false))
  }

  function Init(commands: set<nat>, clients: set<nat>): State {
    State(commands, 0, (map n | n in clients :: Client(n) := Free)[Dispatch := Free],
          Inbound(Listening, [], [], []), Replies(map[], {}, [], {}), Outbound(None, true, [], None, []), [])
  }

  predicate Legal(s: State, run: seq<Action>)
    decreases |run|
  {
    run == [] || (Enabled(s, run[0]) && Legal(Step(s, run[0]), run[1..]))
  }

  function After(s: State, run: seq<Action>): State
    requires Legal(s, run)
    decreases |run|
  {
    if run == [] then s else After(Step(s, run[0]), run[1..])
  }

  // ---------- what a step leaves alone ----------

  /** The thread whose program counter moves; the receive thread has its own. */
  function Actor(a: Action): Option<Who> {
    if a.Receive? || a.Process? || a.Enqueue? || a.Fire? || a.CloseWriter? then None
    else if a.TakeJob? || a.Finish? then Some(Dispatch)
    else Some(a.who)
  }

  lemma OthersStay(s: State, a: Action)
    requires Enabled(s, a)
    ensures Step(s, a).pcs.Keys == s.pcs.Keys
    ensures Actor(a).Some? ==> Actor(a).value in s.pcs
    ensures forall w :: w in s.pcs && Actor(a) != Some(w) ==> Step(s, a).pcs[w] == s.pcs[w]
  {
  }

  lemma Untouched(s: State, a: Action)
    requires Enabled(s, a)
    ensures Step(s, a).commands == s.commands
    ensures !a.Receive? && !a.Process? && !a.Enqueue? && !a.Fire? && !a.TakeJob? ==> Step(s, a).inbound == s.inbound
    ensures !a.Process? && !a.Fire? && !a.PutHandler? ==> Step(s, a).replies == s.replies
    ensures !a.LockSend? && !a.WriteHeader? && !a.WriteBody? && !a.UnlockSend? && !a.CloseWriter? ==>
              Step(s, a).outbound == s.outbound
    ensures !a.Finish? && !a.BeginRequest? && !a.BeginEvent? ==> Step(s, a).numbers == s.numbers
    ensures !a.Finish? ==> Step(s, a).finished == s.finished
  {
  }

  // ---------- the send mutex and the wire ----------

  /** Only the dispatch thread runs jobs and sends responses; it sends nothing else. */
  predicate InRole(w: Who, pc: PC) {
    if w == Dispatch then
      !pc.Numbered? && !pc.Registered? && (pc.Ready? || pc.Sending? || pc.HalfSent? ==> pc.msg.OutResponse?)
    else
      !pc.Running? && (pc.Ready? || pc.Sending? || pc.HalfSent? ==> !pc.msg.OutResponse?)
  }

  predicate ThreadSound(w: Who, pc: PC, owner: Option<Who>) {
    InRole(w, pc) && (pc.OwnsSend() <==> owner == Some(w))
  }

  predicate SendOwned(s: State) {
    && Dispatch in s.pcs
    && (s.outbound.owner.Some? ==> s.outbound.owner.value in s.pcs)
    && forall w :: w in s.pcs ==> ThreadSound(w, s.pcs[w], s.outbound.owner)
  }

  lemma ActorOwned(s: State, a: Action)
    requires SendOwned(s) && Enabled(s, a) && Actor(a).Some?
    ensures var w, s' := Actor(a).value, Step(s, a);
            w in s'.pcs && ThreadSound(w, s'.pcs[w], s'.outbound.owner)
  {
    var w := Actor(a).value;
    assert ThreadSound(w, s.pcs[w], s.outbound.owner);
  }

  lemma OwnerChanges(s: State, a: Action)
    requires SendOwned(s) && Enabled(s, a)
    ensures var o, o' := s.outbound.owner, Step(s, a).outbound.owner;
            o == o' || (Actor(a).Some? && ((o == None && o' == Actor(a)) || (o == Actor(a) && o' == None)))
  {
    if a.UnlockSend? {
      assert ThreadSound(a.who, s.pcs[a.who], s.outbound.owner);
    }
  }

  lemma StepOwned(s: State, a: Action)
    requires SendOwned(s) && Enabled(s, a)
    ensures SendOwned(Step(s, a))
  {
    hide Step, Enabled, InRole, PC.OwnsSend;
    var s' := Step(s, a);
    OthersStay(s, a);
    OwnerChanges(s, a);
    forall w | w in s'.pcs ensures ThreadSound(w, s'.pcs[w], s'.outbound.owner) {
      assert ThreadSound(w, s.pcs[w], s.outbound.owner);
      if Actor(a) == Some(w) {
        ActorOwned(s, a);
      }
    }
  }

  function Frames(sent: seq<Outgoing>): seq<Piece> {
    if sent == [] then [] else Frames(sent[..|sent| - 1]) + [Header(sent[|sent| - 1]), Body(sent[|sent| - 1])]
  }

  /** The header that has no body yet, or never gets one. */
  function Unfinished(s: State): seq<Piece> {
    if s.outbound.owner.Some? && s.outbound.owner.value in s.pcs && s.pcs[s.outbound.owner.value].HalfSent? then
      [Header(s.pcs[s.outbound.owner.value].msg)]
    else if s.outbound.torn.Some? then
      [Header(s.outbound.torn.value)]
    else
      []
  }

  predicate WireSound(s: State) {
    s.outbound.wire == Frames(s.outbound.sent) + Unfinished(s) && (s.outbound.torn.Some? ==> !s.outbound.open)
  }

  lemma FramesSnoc(sent: seq<Outgoing>, m: Outgoing)
    ensures Frames(sent + [m]) == Frames(sent) + [Header(m), Body(m)]
  {
    assert (sent + [m])[..|sent|] == sent;
  }

  lemma StepWire(s: State, a: Action)
    requires SendOwned(s) && WireSound(s) && Enabled(s, a)
    ensures WireSound(Step(s, a))
  {
    hide InRole, Frames;
    var o := s.outbound;
    if a.WriteBody? && o.open {
      var m := s.pcs[a.who].msg;
      assert ThreadSound(a.who, s.pcs[a.who], o.owner);
      FramesSnoc(o.sent, m);
      Completed(Frames(o.sent), m);
    } else if a.WriteHeader? && o.open {
      assert ThreadSound(a.who, s.pcs[a.who], o.owner);
      Completed(Frames(o.sent), s.pcs[a.who].msg);
    } else {
      SameWire(s, a);
      SameUnfinished(s, a);
    }
  }

  lemma Completed(frames: seq<Piece>, m: Outgoing)
    ensures frames + [Header(m)] + [Body(m)] == frames + [Header(m), Body(m)] + []
    ensures frames + [] + [Header(m)] == frames + [Header(m)]
  {
  }

  lemma SameWire(s: State, a: Action)
    requires Enabled(s, a) && !(a.WriteBody? && s.outbound.open) && !(a.WriteHeader? && s.outbound.open)
    ensures Step(s, a).outbound.wire == s.outbound.wire && Step(s, a).outbound.sent == s.outbound.sent
    ensures Step(s, a).outbound.open == (s.outbound.open && !a.CloseWriter?)
    ensures Step(s, a).outbound.torn != s.outbound.torn ==> a.WriteBody?
  {
  }

  lemma SameUnfinished(s: State, a: Action)
    requires SendOwned(s) && WireSound(s) && Enabled(s, a)
    requires !(a.WriteBody? && s.outbound.open) && !(a.WriteHeader? && s.outbound.open)
    ensures Unfinished(Step(s, a)) == Unfinished(s)
  {
    hide InRole;
    var o := s.outbound;
    if Actor(a).Some? {
      OthersStay(s, a);
      assert ThreadSound(Actor(a).value, s.pcs[Actor(a).value], o.owner);
    }
  }

  // ---------- requests and responses ----------

  /** The request a response names, and what it says about it. */
  function ReplyOf(m: Outgoing): seq<(int, bool)> {
    if m.OutResponse? then [(m.requestSeq, m.success)] else []
  }

  function RepliedTo(sent: seq<Outgoing>): seq<(int, bool)> {
    if sent == [] then [] else RepliedTo(sent[..|sent| - 1]) + ReplyOf(sent[|sent| - 1])
  }

  function AnswerOf(job: Job): seq<int> {
    if job.Answer? then [job.seqNo] else []
  }

  function Answers(jobs: seq<Job>): seq<int> {
    if jobs == [] then [] else AnswerOf(jobs[0]) + Answers(jobs[1..])
  }

  function InHandler(pc: PC): seq<int> {
    if pc.Running? then AnswerOf(pc.job) else []
  }

  function InFlight(pc: PC): seq<(int, bool)> {
    if pc.Ready? || pc.Sending? || pc.HalfSent? then ReplyOf(pc.msg) else []
  }

  function Numbers(finished: seq<(int, bool)>): seq<int> {
    seq(|finished|, i requires 0 <= i < |finished| => finished[i].0)
  }

  function InReceive(recv: RecvPC): seq<int> {
    if recv.Queueing? then AnswerOf(recv.job) else []
  }

  function AcceptedOf(commands: set<nat>, arrived: seq<Incoming>): seq<int> {
    if arrived == [] then []
    else AcceptedOf(commands, arrived[..|arrived| - 1]) + Accept(commands, arrived[|arrived| - 1])
  }

  /** The messages the receive thread is done with. */
  function Processed(s: State): seq<Incoming> {
    var arrived := s.inbound.arrived;
    if s.inbound.recv.Got? && arrived != [] then arrived[..|arrived| - 1] else arrived
  }

  predicate ReceiveSound(s: State) {
    && (s.inbound.recv.Got? ==>
          s.inbound.arrived != [] && s.inbound.arrived[|s.inbound.arrived| - 1] == s.inbound.recv.msg)
    && s.inbound.accepted == AcceptedOf(s.commands, Processed(s))
  }

  lemma StepReceive(s: State, a: Action)
    requires ReceiveSound(s) && Enabled(s, a)
    ensures ReceiveSound(Step(s, a))
  {
    if a.Receive? {
      GotReceive(s, a.msg);
    } else if a.Process? {
      ProcessReceive(s);
    } else {
      QuietReceive(s, a);
    }
  }

  lemma GotReceive(s: State, m: Incoming)
    requires ReceiveSound(s) && Enabled(s, Receive(m))
    ensures ReceiveSound(Step(s, Receive(m)))
  {
    hide AcceptedOf;
    assert (s.inbound.arrived + [m])[..|s.inbound.arrived|] == s.inbound.arrived;
  }

  lemma QuietReceive(s: State, a: Action)
    requires ReceiveSound(s) && Enabled(s, a) && !a.Receive? && !a.Process?
    ensures ReceiveSound(Step(s, a))
  {
    hide AcceptedOf;
    var s' := Step(s, a);
    assert s'.commands == s.commands && s'.inbound.arrived == s.inbound.arrived;
    assert s'.inbound.accepted == s.inbound.accepted && s'.inbound.recv.Got? == s.inbound.recv.Got?;
  }

  function Accept(commands: set<nat>, m: Incoming): seq<int> {
    if m.Request? && m.command in commands && m.argsOk then [m.seqNo] else []
  }

  lemma AcceptedLast(commands: set<nat>, arrived: seq<Incoming>)
    requires arrived != []
    ensures var n := |arrived| - 1;
            AcceptedOf(commands, arrived) == AcceptedOf(commands, arrived[..n]) + Accept(commands, arrived[n])
  {
  }

  lemma ProcessReceive(s: State)
    requires ReceiveSound(s) && Enabled(s, Process)
    ensures ReceiveSound(Step(s, Process))
  {
    hide AcceptedOf;
    var m, s' := s.inbound.recv.msg, Step(s, Process);
    AcceptedLast(s.commands, s.inbound.arrived);
    assert s'.inbound.accepted == s.inbound.accepted + Accept(s.commands, m);
    assert Processed(s') == s.inbound.arrived && s'.commands == s.commands;
  }

  /** Accepted requests, in order: those handled, then the one with the handler, those in the
      inbox, and the one the receive thread is about to queue. */
  function Pipeline(s: State): seq<int>
    requires Dispatch in s.pcs
  {
    Numbers(s.finished) + InHandler(s.pcs[Dispatch]) + Answers(s.inbound.inbox) + InReceive(s.inbound.recv)
  }

  /** Every accepted request is in one place of the pipeline; what its handler returned is on
      its way or sent, unless the writer was closed in between. */
  predicate PipelineSound(s: State) {
    && Dispatch in s.pcs
    && s.inbound.accepted == Pipeline(s)
    && (s.outbound.open ==> s.finished == RepliedTo(s.outbound.sent) + InFlight(s.pcs[Dispatch]))
    && RepliedTo(s.outbound.sent) <= s.finished
  }

  lemma {:induction false} AnswersSnoc(jobs: seq<Job>, job: Job)
    ensures Answers(jobs + [job]) == Answers(jobs) + AnswerOf(job)
  {
    hide AnswerOf;
    if jobs == [] {
      assert [] + [job] == [job] && [job][1..] == [];
      assert AnswerOf(job) + [] == [] + AnswerOf(job);
    } else {
      assert (jobs + [job])[1..] == jobs[1..] + [job];
      AnswersSnoc(jobs[1..], job);
      assert AnswerOf(jobs[0]) + (Answers(jobs[1..]) + AnswerOf(job)) ==
             AnswerOf(jobs[0]) + Answers(jobs[1..]) + AnswerOf(job);
    }
  }

  lemma RepliedSnoc(sent: seq<Outgoing>, m: Outgoing)
    ensures RepliedTo(sent + [m]) == RepliedTo(sent) + ReplyOf(m)
  {
    assert (sent + [m])[..|sent|] == sent;
  }

  lemma NumbersSnoc(finished: seq<(int, bool)>, n: int, success: bool)
    ensures Numbers(finished + [(n, success)]) == Numbers(finished) + [n]
  {
  }

  /** Moving a piece of a four-part sequence one part to the left. */
  lemma Shift(r: seq<int>, d: seq<int>, i: seq<int>, q: seq<int>)
    ensures r + d + i + q == r + d + (i + q) + []
    ensures r + [] + (d + i) + q == r + d + i + q
    ensures r + d + i + q == (r + d) + [] + i + q
    ensures r + d + i + [] + q == r + d + i + q
  {
    assert r + d + i + q == r + d + (i + q) + [];
    assert r + [] + (d + i) + q == r + d + i + q;
  }

  lemma StepPipeline(s: State, a: Action)
    requires PipelineSound(s) && SendOwned(s) && Enabled(s, a)
    ensures PipelineSound(Step(s, a))
  {
    if a.Enqueue? {
      EnqueuePipeline(s);
    } else if a.Process? {
      ProcessPipeline(s);
    } else if a.TakeJob? {
      TakePipeline(s);
    } else if a.Finish? {
      FinishPipeline(s, a.success);
    } else if a.WriteBody? {
      WritePipeline(s, a.who);
    } else {
      QuietPipeline(s, a);
    }
  }

  lemma EnqueuePipeline(s: State)
    requires PipelineSound(s) && Enabled(s, Enqueue)
    ensures PipelineSound(Step(s, Enqueue))
  {
    hide RepliedTo, AnswerOf, InHandler, InFlight, Answers, Numbers;
    AnswersSnoc(s.inbound.inbox, s.inbound.recv.job);
    Shift(Numbers(s.finished), InHandler(s.pcs[Dispatch]), Answers(s.inbound.inbox), InReceive(s.inbound.recv));
  }

  lemma ProcessPipeline(s: State)
    requires PipelineSound(s) && Enabled(s, Process)
    ensures PipelineSound(Step(s, Process))
  {
    hide RepliedTo, InHandler, InFlight, Answers, Numbers;
    var q := InReceive(Step(s, Process).inbound.recv);
    Shift(Numbers(s.finished), InHandler(s.pcs[Dispatch]), Answers(s.inbound.inbox), q);
    assert Step(s, Process).inbound.accepted == s.inbound.accepted + q;
  }

  lemma TakePipeline(s: State)
    requires PipelineSound(s) && Enabled(s, TakeJob)
    ensures PipelineSound(Step(s, TakeJob))
  {
    hide RepliedTo, AnswerOf, InReceive, Numbers;
    var inbox := s.inbound.inbox;
    Shift(Numbers(s.finished), AnswerOf(inbox[0]), Answers(inbox[1..]), InReceive(s.inbound.recv));
  }

  /** The handler's outcome goes into the response, and the request leaves the handler. */
  lemma FinishPipeline(s: State, success: bool)
    requires PipelineSound(s) && Enabled(s, Finish(success))
    ensures PipelineSound(Step(s, Finish(success)))
  {
    hide RepliedTo, InReceive, Answers, Numbers;
    var job := s.pcs[Dispatch].job;
    if job.Answer? {
      NumbersSnoc(s.finished, job.seqNo, success);
      Shift(Numbers(s.finished), [job.seqNo], Answers(s.inbound.inbox), InReceive(s.inbound.recv));
      assert RepliedTo(s.outbound.sent) + [] == RepliedTo(s.outbound.sent);
    }
  }

  lemma WritePipeline(s: State, w: Who)
    requires PipelineSound(s) && SendOwned(s) && Enabled(s, WriteBody(w))
    ensures PipelineSound(Step(s, WriteBody(w)))
  {
    hide Answers, InReceive, RepliedTo, Numbers;
    var m := s.pcs[w].msg;
    assert ThreadSound(w, s.pcs[w], s.outbound.owner);
    RepliedSnoc(s.outbound.sent, m);
    var r := RepliedTo(s.outbound.sent);
    assert r + [] == r;
    if w == Dispatch {
      assert r + ReplyOf(m) + [] == r + ReplyOf(m);
    }
  }

  /** Every other step leaves all parts as they are. */
  lemma QuietPipeline(s: State, a: Action)
    requires PipelineSound(s) && SendOwned(s) && Enabled(s, a)
    requires !a.Enqueue? && !a.Process? && !a.TakeJob? && !a.Finish? && !a.WriteBody?
    ensures PipelineSound(Step(s, a))
  {
    hide Answers, RepliedTo, Numbers;
    var s' := Step(s, a);
    assert ThreadSound(Dispatch, s.pcs[Dispatch], s.outbound.owner);
    if Actor(a).Some? {
      assert ThreadSound(Actor(a).value, s.pcs[Actor(a).value], s.outbound.owner);
    }
    assert s'.outbound.sent == s.outbound.sent && s'.inbound.inbox == s.inbound.inbox;
    assert s'.inbound.accepted == s.inbound.accepted && s'.finished == s.finished;
    assert InReceive(s'.inbound.recv) == InReceive(s.inbound.recv);
    assert InHandler(s'.pcs[Dispatch]) == InHandler(s.pcs[Dispatch]);
    assert s.outbound.open ==> InFlight(s'.pcs[Dispatch]) == InFlight(s.pcs[Dispatch]);
  }

  // ---------- numbers ----------

  /** Before the counter wraps, different ids carry different numbers, whether read as
      unsigned or as int. */
  lemma NumbersDistinct(x: nat, y: nat)
    requires x != y && x < TWO_32 && y < TWO_32
    ensures Counter(x) != Counter(y) && RequestSeq(x) != RequestSeq(y) && RequestSeq(x) != Counter(y)
  {
  }

  /** Nobody else has the number a thread holds, and it has not been sent. */
  predicate IdsSound(s: State) {
    && (forall w :: w in s.pcs && s.pcs[w].Held().Some? ==> s.pcs[w].Held().value < s.numbers)
    && (forall w, v :: w in s.pcs && v in s.pcs && w != v && s.pcs[w].Held().Some? ==>
          s.pcs[w].Held() != s.pcs[v].Held())
    && (forall i :: 0 <= i < |s.outbound.sent| ==> s.outbound.sent[i].id < s.numbers)
    && (forall i, j :: 0 <= i < j < |s.outbound.sent| ==> s.outbound.sent[i].id != s.outbound.sent[j].id)
    && (forall w, i :: w in s.pcs && 0 <= i < |s.outbound.sent| ==> s.pcs[w].Held() != Some(s.outbound.sent[i].id))
  }

  /** The actor keeps its number, gives it up, or gets the next one. */
  lemma HeldChanges(s: State, a: Action)
    requires Enabled(s, a) && Actor(a).Some? && Actor(a).value in s.pcs
    ensures var w, s' := Actor(a).value, Step(s, a);
            w in s'.pcs && s.numbers <= s'.numbers &&
            (s'.pcs[w].Held() == None || s'.pcs[w].Held() == s.pcs[w].Held() ||
             (s'.pcs[w].Held() == Some(s.numbers) && s'.numbers == s.numbers + 1))
  {
  }

  lemma SentChanges(s: State, a: Action)
    requires Enabled(s, a)
    ensures var sent, s' := s.outbound.sent, Step(s, a);
            s'.outbound.sent == sent ||
            (a.WriteBody? && a.who in s.pcs && s'.pcs[a.who].Held() == None &&
             exists m :: s'.outbound.sent == sent + [m] && s.pcs[a.who].Held() == Some(m.id))
  {
    if a.WriteBody? && s.outbound.open {
      var m := s.pcs[a.who].msg;
      assert Step(s, a).outbound.sent == s.outbound.sent + [m] && s.pcs[a.who].Held() == Some(m.id);
    }
  }

  lemma StepIds(s: State, a: Action)
    requires IdsSound(s) && Enabled(s, a)
    ensures IdsSound(Step(s, a))
  {
    hide Step, Enabled, PC.Held;
    OthersStay(s, a);
    Untouched(s, a);
    if Actor(a).Some? {
      HeldChanges(s, a);
    }
    SentChanges(s, a);
  }

  // ---------- response handlers ----------

  /** The handler has not been called or given up. */
  predicate Unspent(s: State, id: nat) {
    && (forall i :: 0 <= i < |s.replies.fired| ==> s.replies.fired[i].0 != id)
    && id !in s.replies.dropped
    && !(s.inbound.recv.Firing? && s.inbound.recv.id == id)
  }

  predicate StoredSound(s: State) {
    forall k :: k in s.replies.handlers ==>
      var id := s.replies.handlers[k];
      id in s.replies.installed && RequestSeq(id) == k && Unspent(s, id)
  }

  predicate FiredSound(s: State) {
    && (forall i :: 0 <= i < |s.replies.fired| ==>
          s.replies.fired[i].0 in s.replies.installed && RequestSeq(s.replies.fired[i].0) == s.replies.fired[i].1)
    && (forall i, j :: 0 <= i < j < |s.replies.fired| ==> s.replies.fired[i].0 != s.replies.fired[j].0)
    && (forall id :: id in s.replies.dropped ==> id in s.replies.installed)
  }

  predicate FiringSound(s: State) {
    s.inbound.recv.Firing? ==>
      var id := s.inbound.recv.id;
      && id in s.replies.installed && RequestSeq(id) == s.inbound.recv.requestSeq
      && (forall i :: 0 <= i < |s.replies.fired| ==> s.replies.fired[i].0 != id)
  }

  predicate InstalledSound(s: State) {
    && (forall id :: id in s.replies.installed ==> id < s.numbers)
    && (forall w :: w in s.pcs && s.pcs[w].Numbered? ==> s.pcs[w].id !in s.replies.installed)
  }

  predicate RepliesSound(s: State) {
    StoredSound(s) && FiredSound(s) && FiringSound(s) && InstalledSound(s)
  }

  lemma PutSound(s: State, w: Who)
    requires RepliesSound(s) && IdsSound(s) && Enabled(s, PutHandler(w))
    ensures RepliesSound(Step(s, PutHandler(w)))
  {
    hide RequestSeq;
    var s', id := Step(s, PutHandler(w)), s.pcs[w].id;
    assert s.pcs[w].Held() == Some(id);
    assert Unspent(s, id);
    forall v | v in s'.pcs && s'.pcs[v].Numbered? ensures s'.pcs[v].id !in s'.replies.installed {
      assert v != w && s.pcs[v].Held() == Some(s.pcs[v].id);
    }
    forall k | k in s'.replies.handlers
      ensures s'.replies.handlers[k] in s'.replies.installed && RequestSeq(s'.replies.handlers[k]) == k
      ensures Unspent(s', s'.replies.handlers[k])
    {
      assert k in s.replies.handlers ==> Unspent(s, s.replies.handlers[k]);
    }
  }

  lemma ReplySound(s: State)
    requires RepliesSound(s) && Enabled(s, Process)
    ensures RepliesSound(Step(s, Process))
  {
    hide RequestSeq;
    var s' := Step(s, Process);
    forall k | k in s'.replies.handlers
      ensures s'.replies.handlers[k] in s'.replies.installed && RequestSeq(s'.replies.handlers[k]) == k
      ensures Unspent(s', s'.replies.handlers[k])
    {
      assert k in s.replies.handlers && Unspent(s, s.replies.handlers[k]);
    }
    if s'.inbound.recv.Firing? {
      assert Unspent(s, s'.inbound.recv.id);
    }
  }

  lemma FireSound(s: State)
    requires RepliesSound(s) && Enabled(s, Fire)
    ensures RepliesSound(Step(s, Fire))
  {
    hide RequestSeq;
    var s' := Step(s, Fire);
    forall k | k in s'.replies.handlers ensures Unspent(s', s'.replies.handlers[k]) {
      assert k in s.replies.handlers && Unspent(s, s.replies.handlers[k]);
    }
  }

  lemma QuietReplies(s: State, a: Action)
    requires RepliesSound(s) && Enabled(s, a) && !a.PutHandler? && !a.Process? && !a.Fire?
    ensures RepliesSound(Step(s, a))
  {
    hide RequestSeq;
    var s' := Step(s, a);
    assert s'.replies == s.replies && s.numbers <= s'.numbers && !s'.inbound.recv.Firing? == !s.inbound.recv.Firing?;
    OthersStay(s, a);
    forall k | k in s'.replies.handlers ensures Unspent(s', s'.replies.handlers[k]) {
      assert Unspent(s, s.replies.handlers[k]);
    }
  }

  lemma StepReplies(s: State, a: Action)
    requires RepliesSound(s) && IdsSound(s) && Enabled(s, a)
    ensures RepliesSound(Step(s, a))
  {
    hide Step, Enabled, RepliesSound, IdsSound;
    if a.PutHandler? {
      PutSound(s, a.who);
    } else if a.Process? {
      ReplySound(s);
    } else if a.Fire? {
      FireSound(s);
    } else {
      QuietReplies(s, a);
    }
  }

  /** Handlers are called only for replies that have arrived, with their verdicts. */
  predicate CallsSound(s: State) {
    && (forall i :: 0 <= i < |s.replies.fired| ==>
          Reply(s.replies.fired[i].1, Some(s.replies.fired[i].2)) in s.inbound.arrived)
    && (s.inbound.recv.Firing? ==> Reply(s.inbound.recv.requestSeq, s.inbound.recv.verdict) in s.inbound.arrived)
    && (s.inbound.recv.Got? ==> s.inbound.recv.msg in s.inbound.arrived)
  }

  lemma StepCalls(s: State, a: Action)
    requires CallsSound(s) && Enabled(s, a)
    ensures CallsSound(Step(s, a))
  {
    var s' := Step(s, a);
    assert forall m :: m in s.inbound.arrived ==> m in s'.inbound.arrived;
    if a.Receive? {
      assert s'.inbound.arrived[|s.inbound.arrived|] == a.msg;
    }
  }

  // ---------- handlers are there before the bytes ----------

  predicate Backs(s: State, m: Outgoing) {
    m.OutRequest? ==> m.id in s.replies.installed
  }

  predicate HolderBacked(s: State, pc: PC) {
    && (pc.Registered? ==> pc.id in s.replies.installed)
    && (pc.Ready? || pc.Sending? || pc.HalfSent? ==> Backs(s, pc.msg))
  }

  /** Before the counter wraps: every request past its registration has its handler in. */
  predicate Backed(s: State) {
    s.numbers <= TWO_32 ==>
      && (forall w :: w in s.pcs ==> HolderBacked(s, s.pcs[w]))
      && (forall i :: 0 <= i < |s.outbound.wire| ==> Backs(s, s.outbound.wire[i].msg))
  }

  /** Before the counter wraps no earlier handler waits under the same number. */
  lemma PutSucceeds(s: State, w: Who)
    requires RepliesSound(s) && IdsSound(s) && Enabled(s, PutHandler(w))
    ensures s.pcs[w].id in Step(s, PutHandler(w)).replies.installed <==> RequestSeq(s.pcs[w].id) !in s.replies.handlers
    ensures s.numbers <= TWO_32 ==> s.pcs[w].id in Step(s, PutHandler(w)).replies.installed
  {
    hide RequestSeq, Unspent;
    var id := s.pcs[w].id;
    assert s.pcs[w].Held() == Some(id);
    if RequestSeq(id) in s.replies.handlers && s.numbers <= TWO_32 {
      NumbersDistinctFrom(id, s.replies.handlers[RequestSeq(id)]);
    }
  }

  lemma NumbersDistinctFrom(x: nat, y: nat)
    requires x < TWO_32 && y < TWO_32 && RequestSeq(x) == RequestSeq(y)
    ensures x == y
  {
    if x != y {
      NumbersDistinct(x, y);
    }
  }

  lemma InstalledGrows(s: State, a: Action)
    requires Enabled(s, a)
    ensures s.replies.installed <= Step(s, a).replies.installed && s.numbers <= Step(s, a).numbers
  {
  }

  lemma ActorBacked(s: State, a: Action)
    requires RepliesSound(s) && IdsSound(s) && Backed(s) && Enabled(s, a)
    requires Actor(a).Some? && Step(s, a).numbers <= TWO_32
    ensures Actor(a).value in Step(s, a).pcs && HolderBacked(Step(s, a), Step(s, a).pcs[Actor(a).value])
  {
    hide RepliesSound, IdsSound;
    InstalledGrows(s, a);
    assert Actor(a).value in s.pcs && HolderBacked(s, s.pcs[Actor(a).value]);
    if a.PutHandler? {
      PutSucceeds(s, a.who);
    }
  }

  lemma WireGrows(s: State, a: Action)
    requires Enabled(s, a)
    ensures Step(s, a).outbound.wire == s.outbound.wire ||
            (Actor(a).Some? && Actor(a).value in s.pcs &&
             (s.pcs[Actor(a).value].Sending? || s.pcs[Actor(a).value].HalfSent?) &&
             exists p: Piece :: Step(s, a).outbound.wire == s.outbound.wire + [p] && p.msg == s.pcs[Actor(a).value].msg)
  {
    if a.WriteHeader? && s.outbound.open {
      assert Step(s, a).outbound.wire == s.outbound.wire + [Header(s.pcs[a.who].msg)];
    } else if a.WriteBody? && s.outbound.open {
      assert Step(s, a).outbound.wire == s.outbound.wire + [Body(s.pcs[a.who].msg)];
    }
  }

  lemma StepBacked(s: State, a: Action)
    requires RepliesSound(s) && IdsSound(s) && Backed(s) && Enabled(s, a)
    ensures Backed(Step(s, a))
  {
    hide Step, Enabled, RepliesSound, IdsSound;
    var s' := Step(s, a);
    InstalledGrows(s, a);
    OthersStay(s, a);
    WireGrows(s, a);
    if s'.numbers <= TWO_32 {
      forall w | w in s'.pcs ensures HolderBacked(s', s'.pcs[w]) {
        assert HolderBacked(s, s.pcs[w]);
        if Actor(a) == Some(w) {
          ActorBacked(s, a);
        }
      }
      forall i | 0 <= i < |s'.outbound.wire| ensures Backs(s', s'.outbound.wire[i].msg) {
        if i < |s.outbound.wire| {
          assert Backs(s, s.outbound.wire[i].msg);
        } else {
          assert HolderBacked(s, s.pcs[Actor(a).value]);
        }
      }
    }
  }

  // ---------- every reachable state ----------

  predicate Inv(s: State) {
    && SendOwned(s) && WireSound(s) && ReceiveSound(s) && PipelineSound(s)
    && IdsSound(s) && RepliesSound(s) && CallsSound(s) && Backed(s)
  }

  lemma InitInv(commands: set<nat>, clients: set<nat>)
    ensures Inv(Init(commands, clients))
  {
    var s := Init(commands, clients);
    StartsEmpty(s);
    hide Pipeline, RepliedTo, Numbers;
  }

  lemma StartsEmpty(s: State)
    requires Dispatch in s.pcs && s.pcs[Dispatch] == Free && s.finished == [] && s.outbound.sent == []
    requires s.inbound == Inbound(Listening, [], [], [])
    ensures PipelineSound(s)
  {
    assert Numbers([]) + [] + [] + [] == [];
    assert RepliedTo([]) + [] == [];
  }

  lemma StepInv(s: State, a: Action)
    requires Inv(s) && Enabled(s, a)
    ensures Inv(Step(s, a))
  {
    hide Step, Enabled, SendOwned, WireSound, ReceiveSound, PipelineSound, IdsSound, RepliesSound, CallsSound,
         Backed;
    StepOwned(s, a);
    StepWire(s, a);
    StepReceive(s, a);
    StepPipeline(s, a);
    StepIds(s, a);
    StepReplies(s, a);
    StepCalls(s, a);
    StepBacked(s, a);
  }

  lemma {:induction false} RunInv(s: State, run: seq<Action>)
    requires Inv(s) && Legal(s, run)
    ensures Inv(After(s, run))
    decreases |run|
  {
    hide Step, Enabled, Inv;
    if run != [] {
      StepInv(s, run[0]);
      RunInv(Step(s, run[0]), run[1..]);
    }
  }

  ghost predicate Reachable(commands: set<nat>, clients: set<nat>, s: State) {
    exists run :: Legal(Init(commands, clients), run) && After(Init(commands, clients), run) == s
  }

  lemma ReachableInv(commands: set<nat>, clients: set<nat>, s: State)
    requires Reachable(commands, clients, s)
    ensures Inv(s)
  {
    hide Step, Enabled, Inv;
    var run :| Legal(Init(commands, clients), run) && After(Init(commands, clients), run) == s;
    InitInv(commands, clients);
    RunInv(Init(commands, clients), run);
  }

  predicate Quiet(s: State) {
    && s.inbound.recv == Listening && s.inbound.inbox == [] && Dispatch in s.pcs
    && InHandler(s.pcs[Dispatch]) == [] && InFlight(s.pcs[Dispatch]) == []
  }

  /** Responses leave in the order in which the requests arrived, each naming its request and
      saying what its handler returned, and none is sent twice. While the writer stays open
      none is lost: whenever both threads are at rest, exactly the acceptable requests have
      been answered. */
  lemma OneResponseEach(commands: set<nat>, clients: set<nat>, s: State)
    requires Reachable(commands, clients, s)
    ensures RepliedTo(s.outbound.sent) <= s.finished
    ensures Numbers(s.finished) <= AcceptedOf(commands, s.inbound.arrived)
    ensures s.outbound.open && Quiet(s) ==>
              RepliedTo(s.outbound.sent) == s.finished &&
              Numbers(s.finished) == AcceptedOf(commands, s.inbound.arrived)
  {
    hide Reachable, SendOwned, WireSound, IdsSound, RepliesSound, Backed, AcceptedOf, RepliedTo, Numbers;
    ReachableInv(commands, clients, s);
    CommandsStay(commands, clients, s);
    if s.inbound.recv.Got? {
      AcceptedLast(commands, s.inbound.arrived);
    }
    if Quiet(s) {
      assert Answers([]) == [];
      AllEmpty(Numbers(s.finished));
      assert RepliedTo(s.outbound.sent) + [] == RepliedTo(s.outbound.sent);
    }
  }

  /** What the handlers of the requests returned along a run, in order. */
  function Outcomes(s: State, run: seq<Action>): seq<bool>
    requires Legal(s, run)
    decreases |run|
  {
    if run == [] then []
    else
      (if run[0].Finish? && s.pcs[Dispatch].job.Answer? then [run[0].success] else []) +
      Outcomes(Step(s, run[0]), run[1..])
  }

  function Verdicts(finished: seq<(int, bool)>): seq<bool> {
    seq(|finished|, i requires 0 <= i < |finished| => finished[i].1)
  }

  /** A response says "success" exactly when the handler of its request returned one: over any
      run, the answers sent are a prefix of what the handlers returned. */
  lemma ResponsesTellOutcomes(commands: set<nat>, clients: set<nat>, run: seq<Action>)
    requires Legal(Init(commands, clients), run)
    ensures var s := After(Init(commands, clients), run);
            && Verdicts(s.finished) == Outcomes(Init(commands, clients), run)
            && Verdicts(RepliedTo(s.outbound.sent)) <= Outcomes(Init(commands, clients), run)
  {
    hide Step, Enabled, Legal, After, Outcomes, RepliedTo, Init;
    RunOutcomes(Init(commands, clients), run);
    StartsUnfinished(commands, clients);
    var s := After(Init(commands, clients), run);
    assert Reachable(commands, clients, s);
    OneResponseEach(commands, clients, s);
    assert Verdicts([]) + Outcomes(Init(commands, clients), run) == Outcomes(Init(commands, clients), run);
  }

  lemma StartsUnfinished(commands: set<nat>, clients: set<nat>)
    ensures Init(commands, clients).finished == []
  {
  }

  lemma {:induction false} RunOutcomes(s: State, run: seq<Action>)
    requires Legal(s, run)
    ensures Verdicts(After(s, run).finished) == Verdicts(s.finished) + Outcomes(s, run)
    decreases |run|
  {
    hide Verdicts;
    if run == [] {
      assert Verdicts(s.finished) + [] == Verdicts(s.finished);
    } else {
      var next := Step(s, run[0]);
      var now := if run[0].Finish? && s.pcs[Dispatch].job.Answer? then [run[0].success] else [];
      StepOutcome(s, run[0]);
      hide Step, Enabled;
      RunOutcomes(next, run[1..]);
      assert Verdicts(s.finished) + now + Outcomes(next, run[1..]) ==
             Verdicts(s.finished) + (now + Outcomes(next, run[1..]));
    }
  }

  lemma StepOutcome(s: State, a: Action)
    requires Enabled(s, a)
    ensures Verdicts(Step(s, a).finished) ==
            Verdicts(s.finished) + if a.Finish? && s.pcs[Dispatch].job.Answer? then [a.success] else []
  {
    if !a.Finish? {
      Untouched(s, a);
    }
  }

  lemma AllEmpty(r: seq<int>)
    ensures r + [] + [] + [] == r
  {
  }

  lemma CommandsStay(commands: set<nat>, clients: set<nat>, s: State)
    requires Reachable(commands, clients, s)
    ensures s.commands == commands
  {
    hide Step, Enabled;
    var run :| Legal(Init(commands, clients), run) && After(Init(commands, clients), run) == s;
    RunCommands(Init(commands, clients), run);
  }

  lemma {:induction false} RunCommands(s: State, run: seq<Action>)
    requires Legal(s, run)
    ensures After(s, run).commands == s.commands
    decreases |run|
  {
    hide Step, Enabled;
    if run != [] {
      Untouched(s, run[0]);
      RunCommands(Step(s, run[0]), run[1..]);
    }
  }

  /** The stream is whole frames in the order of sending; only the frame being written, or one
      cut off by the closing, may miss its body. */
  lemma FramesDoNotMix(commands: set<nat>, clients: set<nat>, s: State)
    requires Reachable(commands, clients, s)
    ensures s.outbound.wire == Frames(s.outbound.sent) + Unfinished(s)
    ensures s.outbound.open && s.outbound.owner == None ==> s.outbound.wire == Frames(s.outbound.sent)
  {
    ReachableInv(commands, clients, s);
    assert Frames(s.outbound.sent) + [] == Frames(s.outbound.sent);
  }

  /** Before the counter wraps, no two messages sent carry the same number. */
  lemma NumbersUnique(commands: set<nat>, clients: set<nat>, s: State, i: nat, j: nat)
    requires Reachable(commands, clients, s) && s.numbers <= TWO_32
    requires i < j < |s.outbound.sent|
    ensures s.outbound.sent[i].SeqNo() != s.outbound.sent[j].SeqNo()
  {
    hide Inv;
    ReachableInv(commands, clients, s);
    IdsOf(s);
    NumbersDistinct(s.outbound.sent[i].id, s.outbound.sent[j].id);
    NumbersDistinct(s.outbound.sent[j].id, s.outbound.sent[i].id);
  }

  lemma IdsOf(s: State)
    requires Inv(s)
    ensures IdsSound(s)
  {
  }

  /** A response handler is called at most once, and only for a reply that has arrived, names the
      number of its own request and gives the verdict it is called with: after any number of
      wraps, too. */
  lemma HandlersFireOnce(commands: set<nat>, clients: set<nat>, s: State)
    requires Reachable(commands, clients, s)
    ensures forall i, j :: 0 <= i < j < |s.replies.fired| ==> s.replies.fired[i].0 != s.replies.fired[j].0
    ensures forall i :: 0 <= i < |s.replies.fired| ==>
              RequestSeq(s.replies.fired[i].0) == s.replies.fired[i].1 &&
              Reply(s.replies.fired[i].1, Some(s.replies.fired[i].2)) in s.inbound.arrived
  {
    ReachableInv(commands, clients, s);
    hide RequestSeq;
  }

  /** Before the counter wraps, a request has its handler in before its first byte is written. */
  lemma HandlerBeforeBytes(commands: set<nat>, clients: set<nat>, s: State, i: nat)
    requires Reachable(commands, clients, s) && s.numbers <= TWO_32
    requires i < |s.outbound.wire| && s.outbound.wire[i].msg.OutRequest?
    ensures s.outbound.wire[i].msg.id in s.replies.installed
  {
    ReachableInv(commands, clients, s);
    assert Backs(s, s.outbound.wire[i].msg);
  }

  /** Registration succeeds exactly when no earlier handler waits under the same number, and
      before the counter wraps none does. */
  lemma PutInstalls(commands: set<nat>, clients: set<nat>, s: State, w: Who)
    requires Reachable(commands, clients, s) && Enabled(s, PutHandler(w))
    ensures s.pcs[w].id in Step(s, PutHandler(w)).replies.installed <==> RequestSeq(s.pcs[w].id) !in s.replies.handlers
    ensures s.numbers <= TWO_32 ==> RequestSeq(s.pcs[w].id) !in s.replies.handlers
  {
    hide Step, RequestSeq, Enabled, SendOwned, WireSound, ReceiveSound, PipelineSound, Backed;
    ReachableInv(commands, clients, s);
    PutSucceeds(s, w);
  }

  // ---------- what happens when nothing else moves ----------

  lemma OneStep(s: State, a: Action, run: seq<Action>)
    requires Enabled(s, a) && Legal(Step(s, a), run)
    ensures Legal(s, [a] + run) && After(s, [a] + run) == After(Step(s, a), run)
  {
    hide Enabled, Step;
    assert ([a] + run)[1..] == run;
  }

  lemma TwoSteps(s: State, a: Action, b: Action)
    requires Enabled(s, a) && Enabled(Step(s, a), b)
    ensures Legal(s, [a, b]) && After(s, [a, b]) == Step(Step(s, a), b)
  {
    hide Enabled, Step;
    assert Legal(Step(Step(s, a), b), []) && After(Step(Step(s, a), b), []) == Step(Step(s, a), b);
    OneStep(Step(s, a), b, []);
    OneStep(s, a, [b] + []);
    assert [a] + ([b] + []) == [a, b];
  }

  lemma ThreeSteps(s: State, a: Action, b: Action, c: Action)
    requires Enabled(s, a) && Enabled(Step(s, a), b) && Enabled(Step(Step(s, a), b), c)
    ensures Legal(s, [a, b, c]) && After(s, [a, b, c]) == Step(Step(Step(s, a), b), c)
  {
    hide Enabled, Step;
    TwoSteps(Step(s, a), b, c);
    OneStep(s, a, [b, c]);
    assert [a] + [b, c] == [a, b, c];
  }

  /** A message that is ready needs only a free sendMutex: its thread's own steps put the whole
      frame on the wire. */
  lemma SendCall(s: State, w: Who, m: Outgoing)
    requires w in s.pcs && s.pcs[w] == Ready(m) && s.outbound.owner == None && s.outbound.open
    ensures var run, o := [LockSend(w), WriteHeader(w), WriteBody(w), UnlockSend(w)], s.outbound;
            Legal(s, run) &&
            After(s, run) ==
              Go(s, w, Free).(outbound := o.(wire := o.wire + [Header(m), Body(m)], sent := o.sent + [m]))
  {
    var a, b, c, d := LockSend(w), WriteHeader(w), WriteBody(w), UnlockSend(w);
    var o := s.outbound;
    var s1 := Go(s, w, Sending(m)).(outbound := o.(owner := Some(w)));
    var s2 := Go(s1, w, HalfSent(m)).(outbound := o.(owner := Some(w), wire := o.wire + [Header(m)]));
    var s3 := Go(s2, w, SendDone).(
      outbound := o.(owner := Some(w), wire := o.wire + [Header(m)] + [Body(m)], sent := o.sent + [m]));
    assert Go(s3, w, Free).pcs == s.pcs[w := Free];
    assert o.wire + [Header(m)] + [Body(m)] == o.wire + [Header(m), Body(m)];
    hide Legal, After, Step, Enabled;
    SendSteps(s, w, m);
    SendSteps(s1, w, m);
    SendSteps(s2, w, m);
    SendSteps(s3, w, m);
    ThreeSteps(s1, b, c, d);
    OneStep(s, a, [b, c, d]);
    assert [a] + [b, c, d] == [a, b, c, d];
  }

  lemma SendSteps(s: State, w: Who, m: Outgoing)
    requires w in s.pcs && s.outbound.open
    ensures var o := s.outbound;
            s.pcs[w] == Ready(m) && o.owner == None ==>
              Enabled(s, LockSend(w)) && Step(s, LockSend(w)) == Go(s, w, Sending(m)).(outbound := o.(owner := Some(w)))
    ensures var o := s.outbound;
            s.pcs[w] == Sending(m) ==>
              Enabled(s, WriteHeader(w)) &&
              Step(s, WriteHeader(w)) == Go(s, w, HalfSent(m)).(outbound := o.(wire := o.wire + [Header(m)]))
    ensures var o := s.outbound;
            s.pcs[w] == HalfSent(m) ==>
              Enabled(s, WriteBody(w)) &&
              Step(s, WriteBody(w)) ==
                Go(s, w, SendDone).(outbound := o.(wire := o.wire + [Body(m)], sent := o.sent + [m]))
    ensures var o := s.outbound;
            s.pcs[w] == SendDone ==>
              Enabled(s, UnlockSend(w)) && Step(s, UnlockSend(w)) == Go(s, w, Free).(outbound := o.(owner := None))
  {
  }

  /** Once the writer is closed nothing is sent. */
  lemma SendClosed(s: State, w: Who, m: Outgoing)
    requires w in s.pcs && s.pcs[w] == Ready(m) && s.outbound.owner == None && !s.outbound.open
    ensures Legal(s, [LockSend(w), UnlockSend(w)]) && After(s, [LockSend(w), UnlockSend(w)]) == Go(s, w, Free)
  {
    hide Legal, After;
    var s1 := Step(s, LockSend(w));
    TwoSteps(s, LockSend(w), UnlockSend(w));
    assert Step(s1, UnlockSend(w)).pcs == s.pcs[w := Free];
  }

  /** A client can always ask: it gets the next number, its handler is put in unless one waits
      under the same number, and the request is ready to be sent. */
  lemma AskCall(s: State, w: Who)
    requires w.Client? && w in s.pcs && s.pcs[w] == Free
    ensures var run, r, id := [BeginRequest(w), PutHandler(w), Serialize(w, true)], s.replies, s.numbers;
            Legal(s, run) &&
            After(s, run) == Go(s, w, Ready(OutRequest(id))).(
              numbers := id + 1,
              replies := if RequestSeq(id) in r.handlers then r
                         else r.(handlers := r.handlers[RequestSeq(id) := id], installed := r.installed + {id}))
  {
    hide Legal, After, RequestSeq;
    var s1 := Step(s, BeginRequest(w));
    var s2 := Step(s1, PutHandler(w));
    ThreeSteps(s, BeginRequest(w), PutHandler(w), Serialize(w, true));
    assert Step(s2, Serialize(w, true)).pcs == s.pcs[w := Ready(OutRequest(s.numbers))];
  }

  /** A reply that names a waiting handler calls it, for its own request and with the verdict of
      the reply, or gives it up if there is none; the handler is gone either way. */
  lemma ReplyArrives(s: State, n: int, verdict: Option<bool>)
    requires s.inbound.recv == Listening && n in s.replies.handlers
    ensures var m, r, id := Reply(n, verdict), s.replies, s.replies.handlers[n];
            Legal(s, [Receive(m), Process, Fire]) &&
            After(s, [Receive(m), Process, Fire]) == s.(
              inbound := s.inbound.(arrived := s.inbound.arrived + [m]),
              replies := if verdict.Some?
                         then r.(handlers := r.handlers - {n}, fired := r.fired + [(id, n, verdict.value)])
                         else r.(handlers := r.handlers - {n}, dropped := r.dropped + {id}))
  {
    hide Legal, After;
    ThreeSteps(s, Receive(Reply(n, verdict)), Process, Fire);
  }

  /** A reply to nobody, an unknown event, an unacceptable request or something unreadable
      changes nothing. */
  lemma NobodysMessage(s: State, m: Incoming)
    requires s.inbound.recv == Listening && !Acceptable(s, m) && !(m.Event? && m.known)
    requires m.Reply? ==> m.requestSeq !in s.replies.handlers
    ensures Legal(s, [Receive(m), Process])
    ensures After(s, [Receive(m), Process]) == s.(inbound := s.inbound.(arrived := s.inbound.arrived + [m]))
  {
    hide Legal, After;
    TwoSteps(s, Receive(m), Process);
  }

  /** A request whose arguments cannot be written is not sent, but it has used up its number and
      its handler stays behind. */
  lemma AskFails(s: State, w: Who)
    requires w.Client? && w in s.pcs && s.pcs[w] == Free && RequestSeq(s.numbers) !in s.replies.handlers
    ensures var run, r, id := [BeginRequest(w), PutHandler(w), Serialize(w, false)], s.replies, s.numbers;
            Legal(s, run) &&
            After(s, run) == s.(
              numbers := id + 1,
              replies := r.(handlers := r.handlers[RequestSeq(id) := id], installed := r.installed + {id}))
  {
    hide Legal, After, RequestSeq;
    var s1 := Step(s, BeginRequest(w));
    var s2 := Step(s1, PutHandler(w));
    ThreeSteps(s, BeginRequest(w), PutHandler(w), Serialize(w, false));
    assert Step(s2, Serialize(w, false)).pcs == s.pcs;
  }

  /** A message for the dispatch thread: an acceptable request, or an event that is known. */
  function JobOf(m: Incoming): Job {
    if m.Request? then Answer(m.seqNo) else Notice
  }

  /** Whatever the other threads are doing, the receive thread reads and queues it. */
  lemma MessageIsQueued(s: State, m: Incoming)
    requires s.inbound.recv == Listening && (Acceptable(s, m) || (m.Event? && m.known))
    ensures var run, i := [Receive(m), Process, Enqueue], s.inbound;
            Legal(s, run) &&
            After(s, run) == s.(inbound := i.(
              inbox := i.inbox + [JobOf(m)], arrived := i.arrived + [m],
              accepted := if m.Request? then i.accepted + [m.seqNo] else i.accepted))
  {
    hide Legal, After;
    ThreeSteps(s, Receive(m), Process, Enqueue);
  }

  /** Whatever the other threads are doing, the dispatch thread takes the front of the inbox: a
      request gets a response with the next number, its own number and what the handler returned,
      ready to be sent; an event gets none. */
  lemma JobIsHandled(s: State, success: bool)
    requires Dispatch in s.pcs && s.pcs[Dispatch] == Free && s.inbound.inbox != []
    ensures var run, job := [TakeJob, Finish(success)], s.inbound.inbox[0];
            var rest := s.(inbound := s.inbound.(inbox := s.inbound.inbox[1..]));
            Legal(s, run) &&
            After(s, run) ==
              if job.Notice? then rest
              else Go(rest, Dispatch, Ready(OutResponse(s.numbers, job.seqNo, success)))
                     .(numbers := s.numbers + 1, finished := s.finished + [(job.seqNo, success)])
  {
    hide Legal, After;
    var s1 := Step(s, TakeJob);
    TwoSteps(s, TakeJob, Finish(success));
    if s.inbound.inbox[0].Notice? {
      assert Step(s1, Finish(success)).pcs == s.pcs;
    } else {
      assert Step(s1, Finish(success)).pcs ==
             s.pcs[Dispatch := Ready(OutResponse(s.numbers, s.inbound.inbox[0].seqNo, success))];
    }
  }

  /** Nothing but sendMutex, and for the dispatch thread an empty inbox, ever holds a thread up;
      the receive thread never waits for another. */
  lemma NobodyStuck(s: State, w: Who) returns (a: Action)
    requires w in s.pcs && InRole(w, s.pcs[w])
    requires s.pcs[w].Ready? ==> s.outbound.owner == None
    requires w == Dispatch && s.pcs[w] == Free ==> s.inbound.inbox != []
    ensures Enabled(s, a) && Actor(a) == Some(w)
  {
    match s.pcs[w] {
      case Free => a := if w == Dispatch then TakeJob else BeginEvent(w);
      case Running(_) => a := Finish(true);
      case Numbered(_) => a := PutHandler(w);
      case Registered(_) => a := Serialize(w, true);
      case Ready(_) => a := LockSend(w);
      case Sending(_) => a := WriteHeader(w);
      case HalfSent(_) => a := WriteBody(w);
      case SendDone => a := UnlockSend(w);
    }
  }

  lemma ReceiverNotStuck(s: State) returns (a: Action)
    ensures Enabled(s, a) && (a.Receive? || a.Process? || a.Enqueue? || a.Fire?)
  {
    match s.inbound.recv {
      case Listening => a := Receive(Unreadable);
      case Got(_) => a := Process;
      case Queueing(_) => a := Enqueue;
      case Firing(_, _, _) => a := Fire;
    }
  }

  /** The first number, the last before the sign changes, the first after it, and the wrap. */
  lemma NumbersWrittenOut()
    ensures RequestSeq(0) == 1 && RequestSeq(2147483646) == 2147483647
    ensures RequestSeq(2147483647) == -2147483648 && Counter(2147483647) == 2147483648
    ensures Counter(4294967295) == 0 && RequestSeq(4294967296) == 1
    ensures OutRequest(2147483647).SeqNo() == -2147483648 && OutEvent(2147483647).SeqNo() == 2147483648
  {
  }

  // ---------- after the counter has wrapped ----------

  lemma {:induction false} LegalAppend(s: State, run: seq<Action>, a: Action)
    requires Legal(s, run) && Enabled(After(s, run), a)
    ensures Legal(s, run + [a]) && After(s, run + [a]) == Step(After(s, run), a)
    decreases |run|
  {
    hide Enabled, Step;
    if run == [] {
      assert run + [a] == [a] && [a][1..] == [];
    } else {
      assert (run + [a])[1..] == run[1..] + [a];
      LegalAppend(Step(s, run[0]), run[1..], a);
    }
  }

  lemma StepReachable(s: State, a: Action)
    requires Reachable({}, {0}, s) && Enabled(s, a)
    ensures Reachable({}, {0}, Step(s, a))
  {
    hide Enabled, Step;
    var run :| Legal(Init({}, {0}), run) && After(Init({}, {0}), run) == s;
    LegalAppend(Init({}, {0}), run, a);
  }

  const CLIENT := Client(0)

  function ClientAt(pc: PC): map<Who, PC> {
    map[CLIENT := pc, Dispatch := Free]
  }

  /** One client, whose first request waits for its reply, and nobody is sending. */
  predicate FirstWaits(s: State) {
    && s.pcs == ClientAt(Free)
    && s.replies.handlers == map[RequestSeq(0) := 0] && s.replies.installed == {0}
    && s.outbound.open && s.outbound.owner == None
  }

  lemma Moves(s: State, a: Action, pc: PC, pc': PC)
    requires Reachable({}, {0}, s) && s.pcs == ClientAt(pc) && Enabled(s, a) && Actor(a) == Some(CLIENT)
    requires Step(s, a).pcs[CLIENT] == pc'
    ensures Reachable({}, {0}, Step(s, a)) && Step(s, a).pcs == ClientAt(pc')
  {
    hide Step, Reachable;
    OthersStay(s, a);
    StepReachable(s, a);
    assert Step(s, a).pcs.Keys == ClientAt(pc').Keys;
    assert Step(s, a).pcs[Dispatch] == s.pcs[Dispatch];
  }

  /** Sending from the moment the message is ready: four steps that leave the handlers alone. */
  lemma Sends(s: State, m: Outgoing) returns (s': State)
    requires Reachable({}, {0}, s) && s.pcs == ClientAt(Ready(m)) && s.outbound.open && s.outbound.owner == None
    ensures Reachable({}, {0}, s') && s'.pcs == ClientAt(Free) && s'.outbound.open && s'.outbound.owner == None
    ensures s'.replies == s.replies && s'.numbers == s.numbers && s'.outbound.sent == s.outbound.sent + [m]
  {
    hide Reachable;
    var c := CLIENT;
    Moves(s, LockSend(c), Ready(m), Sending(m));
    var s1 := Step(s, LockSend(c));
    Moves(s1, WriteHeader(c), Sending(m), HalfSent(m));
    var s2 := Step(s1, WriteHeader(c));
    Moves(s2, WriteBody(c), HalfSent(m), SendDone);
    var s3 := Step(s2, WriteBody(c));
    Moves(s3, UnlockSend(c), SendDone, Free);
    s' := Step(s3, UnlockSend(c));
  }

  lemma StartAlone() returns (s: State)
    ensures Reachable({}, {0}, s) && s.pcs == ClientAt(Free) && s.numbers == 0 && s.outbound.open
    ensures s.outbound.owner == None && s.replies.handlers == map[] && s.replies.installed == {}
  {
    s := Init({}, {0});
    assert Legal(s, []) && After(s, []) == s;
    assert s.pcs == ClientAt(Free);
  }

  /** A request up to the point where it is ready to be sent. */
  lemma Asks(s: State) returns (s': State)
    requires Reachable({}, {0}, s) && s.pcs == ClientAt(Free)
    ensures Reachable({}, {0}, s') && s'.pcs == ClientAt(Ready(OutRequest(s.numbers)))
    ensures s'.numbers == s.numbers + 1 && s'.outbound == s.outbound
    ensures var r, id := s.replies, s.numbers;
            s'.replies == if RequestSeq(id) in r.handlers then r
                          else r.(handlers := r.handlers[RequestSeq(id) := id], installed := r.installed + {id})
  {
    hide Reachable, RequestSeq;
    var c, id := CLIENT, s.numbers;
    Moves(s, BeginRequest(c), Free, Numbered(id));
    var s1 := Step(s, BeginRequest(c));
    Moves(s1, PutHandler(c), Numbered(id), Registered(id));
    var s2 := Step(s1, PutHandler(c));
    Moves(s2, Serialize(c, true), Registered(id), Ready(OutRequest(id)));
    s' := Step(s2, Serialize(c, true));
  }

  /** Events use up any number of numbers while the first request waits. */
  lemma {:induction false} Spends(k: nat) returns (s: State)
    requires k >= 1
    ensures Reachable({}, {0}, s) && FirstWaits(s) && s.numbers == k
    decreases k
  {
    hide Reachable, Step, RequestSeq, Enabled;
    if k == 1 {
      var s0 := StartAlone();
      var s1 := Asks(s0);
      s := Sends(s1, OutRequest(0));
      assert map[][RequestSeq(0) := 0] == map[RequestSeq(0) := 0] && {} + {0} == {0};
    } else {
      var before := Spends(k - 1);
      var m := OutEvent(before.numbers);
      var ready := Announces(before);
      s := Sends(ready, m);
    }
  }

  lemma Announces(s: State) returns (s': State)
    requires Reachable({}, {0}, s) && s.pcs == ClientAt(Free)
    ensures Reachable({}, {0}, s') && s'.pcs == ClientAt(Ready(OutEvent(s.numbers)))
    ensures s'.numbers == s.numbers + 1 && s'.outbound == s.outbound && s'.replies == s.replies
  {
    hide Reachable;
    Moves(s, BeginEvent(CLIENT), Free, Ready(OutEvent(s.numbers)));
    s' := Step(s, BeginEvent(CLIENT));
  }

  /** A request has been sent without a handler of its own, and the handler found under its
      number belongs to another request. */
  predicate Orphaned(s: State, id: nat) {
    && OutRequest(id) in s.outbound.sent && id !in s.replies.installed
    && RequestSeq(id) in s.replies.handlers && s.replies.handlers[RequestSeq(id)] != id
  }

  /** One number past the wrap that does happen: the bound of HandlerBeforeBytes is exact. */
  lemma WrapOrphans()
    ensures exists s :: Reachable({}, {0}, s) && s.numbers == TWO_32 + 1 && Orphaned(s, TWO_32)
  {
    hide Reachable, Step, Enabled;
    var s := Spends(TWO_32);
    var ready := Asks(s);
    assert RequestSeq(TWO_32) == RequestSeq(0);
    var s' := Sends(ready, OutRequest(TWO_32));
    assert s'.outbound.sent[|s'.outbound.sent| - 1] == OutRequest(TWO_32);
    assert Orphaned(s', TWO_32);
  }
}
