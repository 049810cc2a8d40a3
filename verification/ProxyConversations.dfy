/**
  The sessions of module ProxySessions from their beginning to their end: a session begins when its client is
  accepted, its request goes to its backend, then its answer is noticed and goes to its client, and nothing else
  is ever transferred for it.
*/
module ProxyConversations {
  import opened Options
  import opened ProxySessions

  // ---------------------------------------------------------------- how a session begins

  /** The action accepts the client and connects to the backend of session i, and makes its request job. */
  ghost predicate Begins(s: State, a: Action, s': State, i: nat) {
    && a.Accept? && |s.sessions| == i && i < |s'.sessions| && a.c !in s.open && a.s !in s.open
    && s'.sessions[i] == Session(a.c, a.s, true, true, Waiting(Request))
    && s'.waiting == s.waiting + [Job(a.c, a.s, Request, i)]
    && a.s in s'.watched && a.s in s'.clientsfds && s'.clientsfds[a.s] == a.c
  }

  lemma SessionsGrow(s: State, a: Action)
    requires Enabled(s, a)
    ensures |s.sessions| <= |Next(s, a).sessions|
    ensures |Next(s, a).sessions| > |s.sessions| ==> Begins(s, a, Next(s, a), |s.sessions|) && |Next(s, a).sessions| == |s.sessions| + 1
  {
    hide Readable, IsShuffle;
  }

  /** Every session was begun by one action, with the two sockets that it has for good. */
  lemma {:induction false} Begun(ss: seq<State>, acts: seq<Action>, n: nat, i: nat) returns (k: nat)
    requires IsRun(ss, acts) && n < |ss| && i < |ss[n].sessions|
    ensures k < n && Begins(ss[k], acts[k], ss[k + 1], i) && ss[n].sessions[i].c == acts[k].c && ss[n].sessions[i].s == acts[k].s
  {
    hide Enabled, Next, Begins;
    SessionsGrow(ss[n - 1], acts[n - 1]);
    if i < |ss[n - 1].sessions| {
      k := Begun(ss, acts, n - 1, i);
      RunAdvances(ss, acts, n - 1, n, i);
    } else {
      k := n - 1;
      BeginsWith(ss[k], acts[k], ss[n], i);
    }
  }

  lemma BeginsWith(s: State, a: Action, s': State, i: nat)
    requires Begins(s, a, s', i)
    ensures a.Accept? && i < |s'.sessions| && s'.sessions[i].c == a.c && s'.sessions[i].s == a.s
  {}

  // ---------------------------------------------------------------- no response without an answer

  /** The session has a response job, or is over. */
  predicate Responding(w: Where) { Rank(w) >= 4 }

  /** Only an answer to a request that has been sent makes a response job. */
  lemma OnlyAnswers(s: State, a: Action, i: nat)
    requires Inv(s) && Enabled(s, a) && i < |Next(s, a).sessions| && Responding(Next(s, a).sessions[i].at)
    ensures i < |s.sessions| && (Responding(s.sessions[i].at) || (AnswersFor(s, a, i) && s.sessions[i].at.Sent?))
  {
    hide WorkersOk, Accounted, SocketsOk, Paired, JobsOk, Readable;
    match a {
      case Answer(fd) => Answered(s, fd);
      case Claim(w, n) => QueuedJob(s.sessions, s.waiting, s.queue, n);
      case Work(w) => WorkerJob(s.sessions, s.workers, w);
      case _ =>
    }
  }

  /** A session with a response job, or that is over, was sent its request before, and then answered. */
  lemma {:induction false} AnsweredBefore(ss: seq<State>, acts: seq<Action>, n: nat, i: nat) returns (k: nat)
    requires IsRun(ss, acts) && n < |ss| && i < |ss[n].sessions| && Responding(ss[n].sessions[i].at)
    ensures k < n && AnswersFor(ss[k], acts[k], i) && i < |ss[k].sessions| && ss[k].sessions[i].at.Sent?
  {
    hide Enabled, Next, Inv, Responding, AnswersFor;
    RunInvariant(ss, acts, n - 1);
    OnlyAnswers(ss[n - 1], acts[n - 1], i);
    if Responding(ss[n - 1].sessions[i].at) { k := AnsweredBefore(ss, acts, n - 1, i); } else { k := n - 1; }
  }

  /** Every response job, in the buffer, in the queue or with a worker, was made by an answer for its session. */
  lemma ResponsesAreAnswers(ss: seq<State>, acts: seq<Action>, n: nat, j: Job) returns (k: nat)
    requires IsRun(ss, acts) && n < |ss| && Active(ss[n], j) && j.kind.Response?
    ensures k < n && AnswersFor(ss[k], acts[k], j.id) && acts[k].s == j.s && j.id < |ss[k].sessions| && ss[k].sessions[j.id].at.Sent?
    ensures ss[k].sessions[j.id].c == j.c && ss[k].sessions[j.id].s == j.s
  {
    hide Enabled, Next, Inv, Active, AnswersFor;
    RunInvariant(ss, acts, n);
    ActiveSession(ss[n], j);
    k := AnsweredBefore(ss, acts, n, j.id);
    RunAdvances(ss, acts, k, n, j.id);
    AnswersOn(ss[k], acts[k], j.id);
  }

  lemma AnswersOn(s: State, a: Action, i: nat)
    requires AnswersFor(s, a, i)
    ensures a.Answer? && i < |s.sessions| && s.sessions[i].s == a.s
  {}

  // ---------------------------------------------------------------- what is transferred

  /** The transfers for session i, in order. */
  function Of(wire: seq<Transfer>, i: nat): seq<Transfer> {
    if wire == [] then [] else Of(wire[..|wire| - 1], i) + if wire[|wire| - 1].id == i then [wire[|wire| - 1]] else []
  }

  lemma OfMore(wire: seq<Transfer>, x: Transfer, i: nat)
    ensures Of(wire + [x], i) == Of(wire, i) + if x.id == i then [x] else []
  {
    assert (wire + [x])[..|wire|] == wire;
  }

  /** The request from the client to the backend, and the response back. */
  function Talk(i: nat, x: Session): seq<Transfer> { [Transfer(i, x.c, x.s), Transfer(i, x.s, x.c)] }

  /** How much of it there has been: a response is written before its worker begins to close. */
  function Said(s: State, i: nat): nat
    requires i < |s.sessions|
  {
    match s.sessions[i].at
    case Over => 2
    case Taken(Response, w) => if w < |s.workers| && s.workers[w].Busy? && (s.workers[w].step.CloseServer? || s.workers[w].step.CloseClient?) then 2 else 1
    case at => if Rank(at) >= 3 then 1 else 0
  }

  ghost predicate TalkedAt(s: State, i: nat)
    requires i < |s.sessions|
  {
    Said(s, i) <= 2 && Of(s.wire, i) == Talk(i, s.sessions[i])[..Said(s, i)]
  }

  /** A worker that is about to write has read the socket that its job says. */
  predicate ReadRight(s: State) {
    forall w | 0 <= w < |s.workers| && s.workers[w].Busy? && s.workers[w].step.Send? ::
      s.workers[w].step.from == if s.workers[w].job.kind.Request? then s.workers[w].job.c else s.workers[w].job.s
  }

  ghost predicate Talked(s: State) {
    && ReadRight(s) && (forall i | 0 <= i < |s.sessions| :: TalkedAt(s, i))
    && forall i | i >= |s.sessions| :: Of(s.wire, i) == []
  }

  lemma SameTalk(s: State, s': State, i: nat)
    requires i < |s.sessions| && i < |s'.sessions| && TalkedAt(s, i) && s'.wire == s.wire && Said(s', i) == Said(s, i)
    requires s'.sessions[i].c == s.sessions[i].c && s'.sessions[i].s == s.sessions[i].s
    ensures TalkedAt(s', i)
  {
    hide Said, Of;
  }

  /** The worker that a session is with. */
  lemma WithWorker(s: State, i: nat)
    requires Inv(s) && i < |s.sessions| && s.sessions[i].at.Taken?
    ensures s.sessions[i].at.w < |s.workers| && s.workers[s.sessions[i].at.w].Busy? && s.workers[s.sessions[i].at.w].job.id == i
  {
    hide JobsOk, WorkersOk, SocketsOk, Paired;
    assert AccountedAt(s.sessions[i], i, s.waiting, s.queue, s.workers);
  }

  lemma AcceptTalked(s: State, c: Fd, fd: Fd)
    requires Talked(s) && Enabled(s, Accept(c, fd))
    ensures Talked(Next(s, Accept(c, fd)))
  {
    hide Of;
    var s' := Next(s, Accept(c, fd));
    forall i | 0 <= i < |s'.sessions| ensures TalkedAt(s', i) { if i < |s.sessions| { SameTalk(s, s', i); } }
  }

  lemma AnswerTalked(s: State, fd: Fd)
    requires Inv(s) && Talked(s) && Enabled(s, Answer(fd))
    ensures Talked(Next(s, Answer(fd)))
  {
    hide Of, JobsOk, WorkersOk, Accounted, Readable;
    Answered(s, fd);
    hide SocketsOk, Paired;
    var s' := Next(s, Answer(fd));
    forall i | 0 <= i < |s'.sessions| ensures TalkedAt(s', i) { SameTalk(s, s', i); }
  }

  lemma FlushTalked(s: State, order: seq<nat>)
    requires Talked(s) && Enabled(s, Flush(order))
    ensures Talked(Next(s, Flush(order)))
  {
    hide Of, Shuffled;
    var s' := Next(s, Flush(order));
    forall i | 0 <= i < |s'.sessions| ensures TalkedAt(s', i) { SameTalk(s, s', i); }
  }

  lemma ClaimTalked(s: State, w: Wid, n: nat)
    requires Inv(s) && Talked(s) && Enabled(s, Claim(w, n))
    ensures Talked(Next(s, Claim(w, n)))
  {
    hide Of, WorkersOk, Accounted, SocketsOk, Paired, TalkedAt;
    var s' := Next(s, Claim(w, n));
    QueuedJob(s.sessions, s.waiting, s.queue, n);
    hide JobsOk;
    forall i | 0 <= i < |s'.sessions| ensures TalkedAt(s', i) {
      if s.sessions[i].at.Taken? { WithWorker(s, i); }
      SameTalk(s, s', i);
    }
  }

  lemma RecvTalked(s: State, w: Wid)
    requires Inv(s) && Talked(s) && Enabled(s, Work(w)) && s.workers[w].step.Recv?
    ensures Talked(Next(s, Work(w)))
  {
    hide Of, Inv, TalkedAt;
    var s' := Next(s, Work(w));
    forall i | 0 <= i < |s'.sessions| ensures TalkedAt(s', i) {
      if s.sessions[i].at.Taken? { WithWorker(s, i); }
      SameTalk(s, s', i);
    }
  }

  lemma SendTalked(s: State, w: Wid)
    requires Inv(s) && Talked(s) && Enabled(s, Work(w)) && s.workers[w].step.Send?
    ensures Talked(Next(s, Work(w)))
  {
    hide Of, JobsOk, Accounted, SocketsOk, Paired, TalkedAt;
    WorkerJob(s.sessions, s.workers, w);
    hide WorkersOk;
    var s', j := Next(s, Work(w)), s.workers[w].job;
    var x := s'.wire[|s.wire|];
    forall i: nat ensures Of(s'.wire, i) == Of(s.wire, i) + if i == j.id then [x] else [] { OfMore(s.wire, x, i); }
    forall i | 0 <= i < |s'.sessions| ensures TalkedAt(s', i) {
      if s.sessions[i].at.Taken? { WithWorker(s, i); }
      if i == j.id { SaysNext(s, s', i, x); } else { OtherTalk(s, s', i); }
    }
  }

  lemma SaysNext(s: State, s': State, i: nat, x: Transfer)
    requires i < |s.sessions| && i < |s'.sessions| && TalkedAt(s, i) && Of(s'.wire, i) == Of(s.wire, i) + [x]
    requires Said(s', i) == Said(s, i) + 1 <= 2 && x == Talk(i, s.sessions[i])[Said(s, i)]
    requires s'.sessions[i].c == s.sessions[i].c && s'.sessions[i].s == s.sessions[i].s
    ensures TalkedAt(s', i)
  {
    hide Said, Of;
    var t, n := Talk(i, s.sessions[i]), Said(s, i);
    assert t[..n] + [t[n]] == t[..n + 1];
  }

  lemma OtherTalk(s: State, s': State, i: nat)
    requires i < |s.sessions| && i < |s'.sessions| && TalkedAt(s, i) && Of(s'.wire, i) == Of(s.wire, i) + [] && Said(s', i) == Said(s, i)
    requires s'.sessions[i].c == s.sessions[i].c && s'.sessions[i].s == s.sessions[i].s
    ensures TalkedAt(s', i)
  {
    hide Said, Of;
  }

  lemma CloseTalked(s: State, w: Wid)
    requires Inv(s) && Talked(s) && Enabled(s, Work(w)) && Closes(s, w)
    ensures Talked(Next(s, Work(w)))
  {
    hide Of, JobsOk, Accounted, SocketsOk, Paired, TalkedAt;
    WorkerJob(s.sessions, s.workers, w);
    hide WorkersOk;
    var s' := Next(s, Work(w));
    forall i | 0 <= i < |s'.sessions| ensures TalkedAt(s', i) {
      if s.sessions[i].at.Taken? { WithWorker(s, i); }
      SameTalk(s, s', i);
    }
  }

  lemma TalkedKept(s: State, a: Action)
    requires Inv(s) && Talked(s) && Enabled(s, a)
    ensures Talked(Next(s, a))
  {
    hide Inv, Talked, Next;
    match a {
      case Accept(c, fd) => AcceptTalked(s, c, fd);
      case Answer(fd) => AnswerTalked(s, fd);
      case Flush(order) => FlushTalked(s, order);
      case Claim(w, n) => ClaimTalked(s, w, n);
      case Work(w) =>
        match s.workers[w].step {
          case Recv => RecvTalked(s, w);
          case Send(_) => SendTalked(s, w);
          case _ => CloseTalked(s, w);
        }
    }
  }

  /**
    In every state of every run: what has been transferred for a session is nothing while it has its request job,
    its request from its client to its backend from then on, and the response back once its worker begins to
    close its sockets.  For a session that is over it is the whole conversation.
   */
  lemma {:induction false} Conversation(ss: seq<State>, acts: seq<Action>, n: nat)
    requires IsRun(ss, acts) && n < |ss|
    ensures Talked(ss[n])
  {
    hide Enabled, Next, Inv;
    if n == 0 {
      NothingSaid(ss[0]);
    } else {
      hide Talked;
      Conversation(ss, acts, n - 1);
      RunInvariant(ss, acts, n - 1);
      TalkedKept(ss[n - 1], acts[n - 1]);
    }
  }

  lemma NothingSaid(s: State)
    requires Init(s)
    ensures Talked(s)
  {}

  /** Said in full. */
  lemma OverSaidAll(ss: seq<State>, acts: seq<Action>, n: nat, i: nat)
    requires IsRun(ss, acts) && n < |ss| && i < |ss[n].sessions|
    ensures ss[n].sessions[i].at.Over? ==> Of(ss[n].wire, i) == [Transfer(i, ss[n].sessions[i].c, ss[n].sessions[i].s), Transfer(i, ss[n].sessions[i].s, ss[n].sessions[i].c)]
    ensures ss[n].sessions[i].at.Sent? ==> Of(ss[n].wire, i) == [Transfer(i, ss[n].sessions[i].c, ss[n].sessions[i].s)]
    ensures Rank(ss[n].sessions[i].at) < 3 ==> Of(ss[n].wire, i) == []
  {
    hide Enabled, Next, Of;
    Conversation(ss, acts, n);
    assert TalkedAt(ss[n], i);
  }

  // ---------------------------------------------------------------- watched and paired

  /** In every state of every run a session is watched for an answer and leads to its client exactly until it is answered. */
  lemma PairedUntilAnswered(ss: seq<State>, acts: seq<Action>, n: nat, i: nat)
    requires IsRun(ss, acts) && n < |ss| && i < |ss[n].sessions|
    ensures var s, x := ss[n], ss[n].sessions[i];
            if Responding(x.at) then x.sOpen && !x.at.Over? ==> x.s !in s.watched && x.s in s.clientsfds && s.clientsfds[x.s] == -1
            else x.cOpen && x.sOpen && x.s in s.watched && x.s in s.clientsfds && s.clientsfds[x.s] == x.c
  {
    hide Enabled, Next;
    RunInvariant(ss, acts, n);
    hide JobsOk, WorkersOk, Accounted, SocketsOk, IsRun;
    TakenPaired(ss[n].sessions, ss[n].clientsfds, ss[n].watched, i);
  }

  // ---------------------------------------------------------------- a worker gets done

  /** How many steps a worker still takes with its job. */
  function StepsLeft(x: Worker): nat {
    if x.Free? then 0
    else match x.step
      case Recv => if x.job.kind.Request? then 2 else 4
      case Send(_) => if x.job.kind.Request? then 1 else 3
      case CloseServer => 2
      case CloseClient => 1
  }

  /** A worker with a job can always go on, has so many steps left, and no step of another one changes that. */
  lemma WorkerGoesOn(ss: seq<State>, acts: seq<Action>, n: nat, w: Wid)
    requires IsRun(ss, acts) && n < |ss| && w < |ss[n].workers| && ss[n].workers[w].Busy?
    ensures Enabled(ss[n], Work(w))
    ensures var s' := Next(ss[n], Work(w)); w < |s'.workers| && StepsLeft(s'.workers[w]) == StepsLeft(ss[n].workers[w]) - 1
    ensures n < |acts| && acts[n] != Work(w) ==> w < |ss[n + 1].workers| && ss[n + 1].workers[w] == ss[n].workers[w]
  {
    RunInvariant(ss, acts, n);
    hide Accounted, SocketsOk, Paired, JobsOk, Readable, IsShuffle;
    WorkerJob(ss[n].sessions, ss[n].workers, w);
    hide WorkersOk;
  }
}
