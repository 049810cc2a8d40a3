/**
  The proxy's sessions (poll_handler and message_handler of server.cpp) as a step machine: the poll
  thread accepts clients, notices answers and flushes its shuffle buffer; any number of workers
  take the jobs, and use and close the sockets.

  The kernel hands out only descriptors that are not open, below the size of clientsfds, and a
  backend socket becomes readable only after the request has been sent to it.
*/
module ProxySessions {
  import opened Options

  type Fd = nat
  type Wid = nat

  const MAX_FDS := 65536   // the size of clientsfds

  datatype Kind = Request | Response

  /** Socks(c, s, r).  Auxiliary: the session it belongs to. */
  datatype Job = Job(c: Fd, s: Fd, kind: Kind, id: nat)

  /** What a worker does next with its job: read one socket, write the other, and after a response close both. */
  datatype Worker = Free | Busy(job: Job, step: Step)
  datatype Step = Recv | Send(from: Fd) | CloseServer | CloseClient

  /** Auxiliary: a session, the sockets that are open, and where its job is. */
  datatype Session = Session(c: Fd, s: Fd, cOpen: bool, sOpen: bool, at: Where)
  datatype Where = Waiting(kind: Kind) | Queued(kind: Kind) | Taken(kind: Kind, w: Wid) | Sent | Over

  /** What was read from one socket was written, rewritten, to the other.  Auxiliary: the session it belongs to. */
  datatype Transfer = Transfer(id: nat, from: Fd, to: Fd)

  /**
    The open sockets, clientsfds, the sockets in the epoll set, the shuffle buffer, the queue and the workers;
    auxiliary: the sessions, and all that has been transferred.
   */
  datatype State = State(
    open: set<Fd>, clientsfds: map<Fd, int>, watched: set<Fd>,
    waiting: seq<Job>, queue: seq<Job>, workers: seq<Worker>, sessions: seq<Session>, wire: seq<Transfer>)

  datatype Action =
    | Accept(c: Fd, s: Fd)
    | Answer(s: Fd)                // an event on a backend socket
    | Flush(order: seq<nat>)       // buffer full, or timeout: shuffle and enqueue_bulk
    | Claim(w: Wid, i: nat)        // try_dequeue
    | Work(w: Wid)

  /** A shuffle of n jobs: the place that each one comes from. */
  predicate IsShuffle(order: seq<nat>, n: nat) {
    |order| == n && (forall i | 0 <= i < n :: order[i] < n) && (forall i, j | 0 <= i < j < n :: order[i] != order[j])
  }

  function Shuffled(jobs: seq<Job>, order: seq<nat>): seq<Job>
    requires IsShuffle(order, |jobs|)
  {
    seq(|jobs|, i requires 0 <= i < |jobs| => jobs[order[i]])
  }

  /** The request of the session with this backend socket has been sent, so that there can be an answer. */
  predicate Readable(s: State, fd: Fd) {
    exists i :: 0 <= i < |s.sessions| && s.sessions[i].s == fd && s.sessions[i].sOpen && s.sessions[i].at.Sent?
  }

  predicate Enabled(s: State, a: Action) {
    match a
    case Accept(c, fd) => c != fd && c !in s.open && fd !in s.open && fd < MAX_FDS && c < MAX_FDS
    case Answer(fd) => fd in s.watched && fd in s.clientsfds && Readable(s, fd)
    case Flush(order) => IsShuffle(order, |s.waiting|)
    case Claim(w, i) => w < |s.workers| && s.workers[w].Free? && i < |s.queue|
    case Work(w) => w < |s.workers| && s.workers[w].Busy? && s.workers[w].job.id < |s.sessions|
  }

  /** The session whose backend socket this is. */
  function SessionOf(ss: seq<Session>, fd: Fd): (i: nat)
    requires exists i :: 0 <= i < |ss| && ss[i].s == fd && ss[i].sOpen
    ensures i < |ss| && ss[i].s == fd && ss[i].sOpen
  {
    if ss[0].s == fd && ss[0].sOpen then 0
    else
      (var i :| 0 <= i < |ss| && ss[i].s == fd && ss[i].sOpen; assert ss[1..][i - 1] == ss[i]; 1) + SessionOf(ss[1..], fd)
  }

  function SetAt(ss: seq<Session>, i: nat, at: Where): seq<Session>
    requires i < |ss|
  {
    ss[i := ss[i].(at := at)]
  }

  function FlushAll(ss: seq<Session>): seq<Session> {
    seq(|ss|, i requires 0 <= i < |ss| => if ss[i].at.Waiting? then ss[i].(at := Queued(ss[i].at.kind)) else ss[i])
  }

  function Next(s: State, a: Action): State
    requires Enabled(s, a)
  {
    match a
    case Accept(c, fd) =>
      s.(open := s.open + {c, fd}, clientsfds := s.clientsfds[fd := c], watched := s.watched + {fd},
         waiting := s.waiting + [Job(c, fd, Request, |s.sessions|)],
         sessions := s.sessions + [Session(c, fd, true, true, Waiting(Request))])
    case Answer(fd) =>
      var i := SessionOf(s.sessions, fd);
      var c := if s.clientsfds[fd] >= 0 then s.clientsfds[fd] else 0;
      s.(clientsfds := s.clientsfds[fd := -1], watched := s.watched - {fd},
         waiting := s.waiting + [Job(c, fd, Response, i)],
         sessions := SetAt(s.sessions, i, Waiting(Response)))
    case Flush(order) =>
      s.(queue := s.queue + Shuffled(s.waiting, order), waiting := [], sessions := FlushAll(s.sessions))
    case Claim(w, i) =>
      var j := s.queue[i];
      s.(queue := s.queue[..i] + s.queue[i + 1..], workers := s.workers[w := Busy(j, Recv)],
         sessions := if j.id < |s.sessions| then SetAt(s.sessions, j.id, Taken(j.kind, w)) else s.sessions)
    case Work(w) =>
      var Busy(j, step) := s.workers[w];
      (match step
       case Recv => s.(workers := s.workers[w := Busy(j, Send(if j.kind.Request? then j.c else j.s))])
       case Send(from) =>
         if j.kind.Request?
         then s.(workers := s.workers[w := Free], sessions := SetAt(s.sessions, j.id, Sent), wire := s.wire + [Transfer(j.id, from, j.s)])
         else s.(workers := s.workers[w := Busy(j, CloseServer)], wire := s.wire + [Transfer(j.id, from, j.c)])
       case CloseServer =>
         s.(open := s.open - {j.s}, workers := s.workers[w := Busy(j, CloseClient)],
            sessions := s.sessions[j.id := s.sessions[j.id].(sOpen := false)])
       case CloseClient =>
         s.(open := s.open - {j.c}, workers := s.workers[w := Free],
            sessions := s.sessions[j.id := s.sessions[j.id].(cOpen := false, at := Over)]))
  }

  ghost predicate Init(s: State) {
    && s.open == {} && s.clientsfds == map[] && s.watched == {} && s.waiting == [] && s.queue == [] && s.sessions == [] && s.wire == []
    && forall w | 0 <= w < |s.workers| :: s.workers[w].Free?
  }

  // ---------------------------------------------------------------- the invariant

  /** The job is the one of its session, which knows where it is. */
  ghost predicate JobOf(ss: seq<Session>, j: Job, at: Where) {
    j.id < |ss| && ss[j.id].c == j.c && ss[j.id].s == j.s && ss[j.id].at == at
  }

  ghost predicate JobsOk(ss: seq<Session>, waiting: seq<Job>, queue: seq<Job>) {
    && (forall i | 0 <= i < |waiting| :: JobOf(ss, waiting[i], Waiting(waiting[i].kind)))
    && (forall i | 0 <= i < |queue| :: JobOf(ss, queue[i], Queued(queue[i].kind)))
    && (forall i, j | 0 <= i < j < |waiting| :: waiting[i].id != waiting[j].id)
    && (forall i, j | 0 <= i < j < |queue| :: queue[i].id != queue[j].id)
  }

  ghost predicate WorkersOk(ss: seq<Session>, workers: seq<Worker>) {
    forall w | 0 <= w < |workers| && workers[w].Busy? ::
      && JobOf(ss, workers[w].job, Taken(workers[w].job.kind, w))
      && (workers[w].step.CloseServer? || workers[w].step.CloseClient? ==> workers[w].job.kind.Response?)
      && (ss[workers[w].job.id].sOpen <==> !workers[w].step.CloseClient?)
  }

  /** No session is forgotten: a job that is due is in the buffer, in the queue or with its worker. */
  ghost predicate Accounted(ss: seq<Session>, waiting: seq<Job>, queue: seq<Job>, workers: seq<Worker>) {
    forall i | 0 <= i < |ss| :: AccountedAt(ss[i], i, waiting, queue, workers)
  }

  ghost predicate AccountedAt(x: Session, i: nat, waiting: seq<Job>, queue: seq<Job>, workers: seq<Worker>) {
    match x.at
    case Waiting(_) => exists n :: 0 <= n < |waiting| && waiting[n].id == i
    case Queued(_) => exists n :: 0 <= n < |queue| && queue[n].id == i
    case Taken(_, w) => w < |workers| && workers[w].Busy? && workers[w].job.id == i
    case _ => true
  }

  /** The open sockets are those of the sessions, none in two roles. */
  ghost predicate SocketsOk(open: set<Fd>, ss: seq<Session>) {
    && (forall i | 0 <= i < |ss| :: (ss[i].cOpen ==> ss[i].c in open) && (ss[i].sOpen ==> ss[i].s in open))
    && (forall i | 0 <= i < |ss| && ss[i].cOpen && ss[i].sOpen :: ss[i].c != ss[i].s)
    && (forall i, j | 0 <= i < |ss| && 0 <= j < |ss| && i != j ::
          && (ss[i].cOpen && ss[j].cOpen ==> ss[i].c != ss[j].c)
          && (ss[i].cOpen && ss[j].sOpen ==> ss[i].c != ss[j].s)
          && (ss[i].sOpen && ss[j].sOpen ==> ss[i].s != ss[j].s))
    && (forall fd <- open :: Held(ss, fd))
  }

  ghost predicate Held(ss: seq<Session>, fd: Fd) {
    exists i :: 0 <= i < |ss| && ((ss[i].cOpen && ss[i].c == fd) || (ss[i].sOpen && ss[i].s == fd))
  }

  /**
    A session's sockets are open until its response is done; until there is a response job it is watched and
    paired in clientsfds, and from then on neither, until its backend socket is closed.
   */
  ghost predicate PairedAt(x: Session, clientsfds: map<Fd, int>, watched: set<Fd>) {
    && (x.at.Over? <==> !x.cOpen) && (!x.sOpen ==> x.at.Over? || (x.at.Taken? && x.at.kind.Response?))
    && (x.at.Sent? || (!x.at.Over? && x.at.kind.Request?) ==> x.sOpen && x.s in watched && x.s in clientsfds && clientsfds[x.s] == x.c)
    && (x.sOpen && !x.at.Over? && !x.at.Sent? && x.at.kind.Response? ==> x.s !in watched && x.s in clientsfds && clientsfds[x.s] == -1)
  }

  ghost predicate Paired(ss: seq<Session>, clientsfds: map<Fd, int>, watched: set<Fd>) {
    forall i | 0 <= i < |ss| :: PairedAt(ss[i], clientsfds, watched)
  }

  ghost predicate Inv(s: State) {
    && JobsOk(s.sessions, s.waiting, s.queue)
    && WorkersOk(s.sessions, s.workers)
    && Accounted(s.sessions, s.waiting, s.queue, s.workers)
    && SocketsOk(s.open, s.sessions)
    && Paired(s.sessions, s.clientsfds, s.watched)
  }

  // ---------------------------------------------------------------- accepting a client

  lemma AcceptJobs(s: State, c: Fd, fd: Fd)
    requires JobsOk(s.sessions, s.waiting, s.queue) && WorkersOk(s.sessions, s.workers)
    ensures var ss := s.sessions + [Session(c, fd, true, true, Waiting(Request))];
            && JobsOk(ss, s.waiting + [Job(c, fd, Request, |s.sessions|)], s.queue) && WorkersOk(ss, s.workers)
  {}

  lemma AcceptAccounted(s: State, c: Fd, fd: Fd)
    requires Accounted(s.sessions, s.waiting, s.queue, s.workers)
    ensures Accounted(s.sessions + [Session(c, fd, true, true, Waiting(Request))], s.waiting + [Job(c, fd, Request, |s.sessions|)], s.queue, s.workers)
  {
    var ss, jobs := s.sessions + [Session(c, fd, true, true, Waiting(Request))], s.waiting + [Job(c, fd, Request, |s.sessions|)];
    assert jobs[|s.waiting|].id == |s.sessions|;
    forall i | 0 <= i < |ss| ensures AccountedAt(ss[i], i, jobs, s.queue, s.workers) {
      if i < |s.sessions| {
        assert AccountedAt(s.sessions[i], i, s.waiting, s.queue, s.workers);
        if ss[i].at.Waiting? {
          var n :| 0 <= n < |s.waiting| && s.waiting[n].id == i;
          assert jobs[n].id == i;
        }
      }
    }
  }

  lemma AcceptSockets(open: set<Fd>, ss: seq<Session>, c: Fd, fd: Fd)
    requires SocketsOk(open, ss) && c != fd && c !in open && fd !in open
    ensures SocketsOk(open + {c, fd}, ss + [Session(c, fd, true, true, Waiting(Request))])
  {
    var ss' := ss + [Session(c, fd, true, true, Waiting(Request))];
    assert ss'[|ss|].c == c && ss'[|ss|].s == fd;
    forall x | x in open + {c, fd} ensures Held(ss', x) {
      if x in open {
        var i :| 0 <= i < |ss| && ((ss[i].cOpen && ss[i].c == x) || (ss[i].sOpen && ss[i].s == x));
        assert ss'[i] == ss[i];
      }
    }
  }

  lemma AcceptPaired(open: set<Fd>, ss: seq<Session>, clientsfds: map<Fd, int>, watched: set<Fd>, c: Fd, fd: Fd)
    requires SocketsOk(open, ss) && Paired(ss, clientsfds, watched) && fd !in open
    ensures Paired(ss + [Session(c, fd, true, true, Waiting(Request))], clientsfds[fd := c], watched + {fd})
  {
    var ss' := ss + [Session(c, fd, true, true, Waiting(Request))];
    forall i | 0 <= i < |ss'| ensures PairedAt(ss'[i], clientsfds[fd := c], watched + {fd}) {
      if i < |ss| { assert PairedAt(ss[i], clientsfds, watched); }
    }
  }

  lemma AcceptInv(s: State, c: Fd, fd: Fd)
    requires Inv(s) && Enabled(s, Accept(c, fd))
    ensures Inv(Next(s, Accept(c, fd)))
  {
    hide JobsOk, WorkersOk, Accounted, SocketsOk, Paired;
    AcceptJobs(s, c, fd);
    AcceptAccounted(s, c, fd);
    AcceptSockets(s.open, s.sessions, c, fd);
    AcceptPaired(s.open, s.sessions, s.clientsfds, s.watched, c, fd);
  }

  // ---------------------------------------------------------------- an answer

  /** The backend socket of an event belongs to one session, whose request has been sent, and leads to its client. */
  lemma Answered(s: State, fd: Fd)
    requires SocketsOk(s.open, s.sessions) && Paired(s.sessions, s.clientsfds, s.watched) && Enabled(s, Answer(fd))
    ensures var i := SessionOf(s.sessions, fd);
            && s.sessions[i].at.Sent? && s.sessions[i].cOpen && s.clientsfds[fd] == s.sessions[i].c
  {
    var i := SessionOf(s.sessions, fd);
    var k :| 0 <= k < |s.sessions| && s.sessions[k].s == fd && s.sessions[k].sOpen && s.sessions[k].at.Sent?;
    assert i == k;
    assert PairedAt(s.sessions[i], s.clientsfds, s.watched);
  }

  lemma AnswerJobs(ss: seq<Session>, waiting: seq<Job>, queue: seq<Job>, workers: seq<Worker>, i: nat)
    requires JobsOk(ss, waiting, queue) && WorkersOk(ss, workers) && i < |ss| && ss[i].at.Sent?
    ensures var ss' := SetAt(ss, i, Waiting(Response));
            && JobsOk(ss', waiting + [Job(ss[i].c, ss[i].s, Response, i)], queue) && WorkersOk(ss', workers)
  {}

  lemma AnswerAccounted(ss: seq<Session>, waiting: seq<Job>, queue: seq<Job>, workers: seq<Worker>, i: nat)
    requires Accounted(ss, waiting, queue, workers) && i < |ss|
    ensures Accounted(SetAt(ss, i, Waiting(Response)), waiting + [Job(ss[i].c, ss[i].s, Response, i)], queue, workers)
  {
    var ss', jobs := SetAt(ss, i, Waiting(Response)), waiting + [Job(ss[i].c, ss[i].s, Response, i)];
    assert jobs[|waiting|].id == i;
    forall n | 0 <= n < |ss'| ensures AccountedAt(ss'[n], n, jobs, queue, workers) {
      assert AccountedAt(ss[n], n, waiting, queue, workers);
      if n != i && ss[n].at.Waiting? {
        var m :| 0 <= m < |waiting| && waiting[m].id == n;
        assert jobs[m].id == n;
      }
    }
  }

  lemma SetAtSockets(open: set<Fd>, ss: seq<Session>, i: nat, at: Where)
    requires SocketsOk(open, ss) && i < |ss|
    ensures SocketsOk(open, SetAt(ss, i, at))
  {
    var ss' := SetAt(ss, i, at);
    forall x | x in open ensures Held(ss', x) {
      var n :| 0 <= n < |ss| && ((ss[n].cOpen && ss[n].c == x) || (ss[n].sOpen && ss[n].s == x));
      assert ss'[n].c == ss[n].c && ss'[n].s == ss[n].s && ss'[n].cOpen == ss[n].cOpen && ss'[n].sOpen == ss[n].sOpen;
    }
  }

  lemma AnswerPaired(open: set<Fd>, ss: seq<Session>, clientsfds: map<Fd, int>, watched: set<Fd>, i: nat)
    requires SocketsOk(open, ss) && Paired(ss, clientsfds, watched) && i < |ss| && ss[i].at.Sent?
    ensures Paired(SetAt(ss, i, Waiting(Response)), clientsfds[ss[i].s := -1], watched - {ss[i].s})
  {
    var ss' := SetAt(ss, i, Waiting(Response));
    forall n | 0 <= n < |ss'| ensures PairedAt(ss'[n], clientsfds[ss[i].s := -1], watched - {ss[i].s}) {
      assert PairedAt(ss[n], clientsfds, watched) && PairedAt(ss[i], clientsfds, watched);
    }
  }

  lemma AnswerInv(s: State, fd: Fd)
    requires Inv(s) && Enabled(s, Answer(fd))
    ensures Inv(Next(s, Answer(fd)))
  {
    hide JobsOk, WorkersOk, Accounted, SocketsOk, Paired, Readable;
    Answered(s, fd);
    var i := SessionOf(s.sessions, fd);
    AnswerJobs(s.sessions, s.waiting, s.queue, s.workers, i);
    AnswerAccounted(s.sessions, s.waiting, s.queue, s.workers, i);
    SetAtSockets(s.open, s.sessions, i, Waiting(Response));
    AnswerPaired(s.open, s.sessions, s.clientsfds, s.watched, i);
  }

  // ---------------------------------------------------------------- flushing the buffer

  /** The first n of a sequence of numbers, and the numbers below n. */
  function Firsts(order: seq<nat>, n: nat): (r: set<nat>)
    requires n <= |order|
    ensures forall x :: x in r <==> exists i :: 0 <= i < n && order[i] == x
  {
    if n == 0 then {} else Firsts(order, n - 1) + {order[n - 1]}
  }

  function Below(n: nat): (r: set<nat>)
    ensures |r| == n && forall x: nat :: x in r <==> x < n
  {
    if n == 0 then {} else Below(n - 1) + {n - 1}
  }

  lemma {:induction false} FirstsSize(order: seq<nat>, n: nat)
    requires n <= |order| && forall i, j | 0 <= i < j < n :: order[i] != order[j]
    ensures |Firsts(order, n)| == n
  {
    if n > 0 { FirstsSize(order, n - 1); }
  }

  lemma {:induction false} SubsetSize(a: set<nat>, b: set<nat>)
    requires a <= b
    ensures |a| <= |b| && (a != b ==> |a| < |b|)
  {
    if a != {} {
      var x :| x in a;
      SubsetSize(a - {x}, b - {x});
      assert a - {x} == b - {x} ==> a == b by { assert a == a - {x} + {x} && b == b - {x} + {x}; }
    } else if b != {} {
      var y :| y in b;
    }
  }

  /** Every job of the buffer is somewhere in its shuffle. */
  lemma Pigeonhole(order: seq<nat>, n: nat, x: nat)
    requires IsShuffle(order, n) && x < n
    ensures exists i :: 0 <= i < n && order[i] == x
  {
    FirstsSize(order, n);
    SubsetSize(Firsts(order, n), Below(n));
    assert x in Below(n);
  }

  lemma FlushJobs(ss: seq<Session>, waiting: seq<Job>, queue: seq<Job>, workers: seq<Worker>, order: seq<nat>)
    requires JobsOk(ss, waiting, queue) && WorkersOk(ss, workers) && IsShuffle(order, |waiting|)
    ensures JobsOk(FlushAll(ss), [], queue + Shuffled(waiting, order)) && WorkersOk(FlushAll(ss), workers)
  {
    var ss', queue' := FlushAll(ss), queue + Shuffled(waiting, order);
    forall i | 0 <= i < |queue'| ensures JobOf(ss', queue'[i], Queued(queue'[i].kind)) {
      if i < |queue| { assert JobOf(ss, queue[i], Queued(queue[i].kind)); } else { assert queue'[i] == waiting[order[i - |queue|]]; }
    }
    forall i, j | 0 <= i < j < |queue'| ensures queue'[i].id != queue'[j].id {
      if j >= |queue| {
        var y := order[j - |queue|];
        assert queue'[j] == waiting[y];
        if i >= |queue| {
          var x := order[i - |queue|];
          assert queue'[i] == waiting[x] && x != y;
          assert waiting[if x < y then x else y].id != waiting[if x < y then y else x].id;
        }
      }
    }
  }

  lemma FlushAccounted(ss: seq<Session>, waiting: seq<Job>, queue: seq<Job>, workers: seq<Worker>, order: seq<nat>)
    requires Accounted(ss, waiting, queue, workers) && IsShuffle(order, |waiting|)
    ensures Accounted(FlushAll(ss), [], queue + Shuffled(waiting, order), workers)
  {
    var ss', queue' := FlushAll(ss), queue + Shuffled(waiting, order);
    forall i | 0 <= i < |ss'| ensures AccountedAt(ss'[i], i, [], queue', workers) {
      assert AccountedAt(ss[i], i, waiting, queue, workers);
      if ss[i].at.Waiting? {
        var n :| 0 <= n < |waiting| && waiting[n].id == i;
        Pigeonhole(order, |waiting|, n);
        var m :| 0 <= m < |waiting| && order[m] == n;
        assert queue'[|queue| + m].id == i;
      } else if ss[i].at.Queued? {
        var n :| 0 <= n < |queue| && queue[n].id == i;
        assert queue'[n].id == i;
      }
    }
  }

  lemma FlushSockets(open: set<Fd>, ss: seq<Session>)
    requires SocketsOk(open, ss)
    ensures SocketsOk(open, FlushAll(ss))
  {
    var ss' := FlushAll(ss);
    forall x | x in open ensures Held(ss', x) {
      var n :| 0 <= n < |ss| && ((ss[n].cOpen && ss[n].c == x) || (ss[n].sOpen && ss[n].s == x));
      assert ss'[n].c == ss[n].c && ss'[n].s == ss[n].s && ss'[n].cOpen == ss[n].cOpen && ss'[n].sOpen == ss[n].sOpen;
    }
  }

  lemma FlushPaired(ss: seq<Session>, clientsfds: map<Fd, int>, watched: set<Fd>)
    requires Paired(ss, clientsfds, watched)
    ensures Paired(FlushAll(ss), clientsfds, watched)
  {
    var ss' := FlushAll(ss);
    forall i | 0 <= i < |ss'| ensures PairedAt(ss'[i], clientsfds, watched) { assert PairedAt(ss[i], clientsfds, watched); }
  }

  lemma FlushInv(s: State, order: seq<nat>)
    requires Inv(s) && Enabled(s, Flush(order))
    ensures Inv(Next(s, Flush(order)))
  {
    hide JobsOk, WorkersOk, Accounted, SocketsOk, Paired;
    FlushJobs(s.sessions, s.waiting, s.queue, s.workers, order);
    FlushAccounted(s.sessions, s.waiting, s.queue, s.workers, order);
    FlushSockets(s.open, s.sessions);
    FlushPaired(s.sessions, s.clientsfds, s.watched);
  }

  // ---------------------------------------------------------------- a worker takes a job

  lemma ClaimJobs(ss: seq<Session>, waiting: seq<Job>, queue: seq<Job>, workers: seq<Worker>, open: set<Fd>, clientsfds: map<Fd, int>, watched: set<Fd>, w: Wid, i: nat)
    requires JobsOk(ss, waiting, queue) && WorkersOk(ss, workers) && Paired(ss, clientsfds, watched)
    requires w < |workers| && workers[w].Free? && i < |queue|
    ensures var j := queue[i];
            && j.id < |ss| && JobsOk(SetAt(ss, j.id, Taken(j.kind, w)), waiting, queue[..i] + queue[i + 1..])
            && WorkersOk(SetAt(ss, j.id, Taken(j.kind, w)), workers[w := Busy(j, Recv)])
  {
    var j := queue[i];
    assert JobOf(ss, j, Queued(j.kind)) && PairedAt(ss[j.id], clientsfds, watched);
    var ss', queue' := SetAt(ss, j.id, Taken(j.kind, w)), queue[..i] + queue[i + 1..];
    forall n | 0 <= n < |queue'| ensures JobOf(ss', queue'[n], Queued(queue'[n].kind)) {
      assert queue'[n] == queue[if n < i then n else n + 1];
      assert JobOf(ss, queue'[n], Queued(queue'[n].kind));
    }
    forall n, m | 0 <= n < m < |queue'| ensures queue'[n].id != queue'[m].id {
      assert queue'[n] == queue[if n < i then n else n + 1] && queue'[m] == queue[if m < i then m else m + 1];
    }
  }

  lemma ClaimAccounted(ss: seq<Session>, waiting: seq<Job>, queue: seq<Job>, workers: seq<Worker>, w: Wid, i: nat)
    requires Accounted(ss, waiting, queue, workers) && JobsOk(ss, waiting, queue) && w < |workers| && workers[w].Free? && i < |queue|
    requires queue[i].id < |ss|
    ensures Accounted(SetAt(ss, queue[i].id, Taken(queue[i].kind, w)), waiting, queue[..i] + queue[i + 1..], workers[w := Busy(queue[i], Recv)])
  {
    var j := queue[i];
    var ss', queue', workers' := SetAt(ss, j.id, Taken(j.kind, w)), queue[..i] + queue[i + 1..], workers[w := Busy(j, Recv)];
    forall n | 0 <= n < |ss'| ensures AccountedAt(ss'[n], n, waiting, queue', workers') {
      assert AccountedAt(ss[n], n, waiting, queue, workers);
      if n != j.id && ss[n].at.Queued? {
        var m :| 0 <= m < |queue| && queue[m].id == n;
        assert queue'[if m < i then m else m - 1].id == n;
      }
    }
  }

  lemma ClaimPaired(ss: seq<Session>, clientsfds: map<Fd, int>, watched: set<Fd>, i: nat, w: Wid)
    requires Paired(ss, clientsfds, watched) && i < |ss| && ss[i].at.Queued?
    ensures Paired(SetAt(ss, i, Taken(ss[i].at.kind, w)), clientsfds, watched)
  {
    var ss' := SetAt(ss, i, Taken(ss[i].at.kind, w));
    forall n | 0 <= n < |ss'| ensures PairedAt(ss'[n], clientsfds, watched) { assert PairedAt(ss[n], clientsfds, watched); }
  }

  lemma ClaimInv(s: State, w: Wid, i: nat)
    requires Inv(s) && Enabled(s, Claim(w, i))
    ensures Inv(Next(s, Claim(w, i)))
  {
    QueuedJob(s.sessions, s.waiting, s.queue, i);
    hide JobsOk, WorkersOk, Accounted, SocketsOk, Paired;
    var j := s.queue[i];
    ClaimJobs(s.sessions, s.waiting, s.queue, s.workers, s.open, s.clientsfds, s.watched, w, i);
    ClaimAccounted(s.sessions, s.waiting, s.queue, s.workers, w, i);
    SetAtSockets(s.open, s.sessions, j.id, Taken(j.kind, w));
    ClaimPaired(s.sessions, s.clientsfds, s.watched, j.id, w);
  }

  lemma QueuedJob(ss: seq<Session>, waiting: seq<Job>, queue: seq<Job>, i: nat)
    requires JobsOk(ss, waiting, queue) && i < |queue|
    ensures queue[i].id < |ss| && ss[queue[i].id].at == Queued(queue[i].kind)
  {}

  // ---------------------------------------------------------------- a worker works

  /** The session of worker w is its alone. */
  lemma WorkerJob(ss: seq<Session>, workers: seq<Worker>, w: Wid)
    requires WorkersOk(ss, workers) && w < |workers| && workers[w].Busy?
    ensures JobOf(ss, workers[w].job, Taken(workers[w].job.kind, w)) && (ss[workers[w].job.id].sOpen <==> !workers[w].step.CloseClient?)
    ensures workers[w].step.CloseServer? || workers[w].step.CloseClient? ==> workers[w].job.kind.Response?
    ensures forall u | 0 <= u < |workers| && u != w && workers[u].Busy? :: workers[u].job.id != workers[w].job.id
  {}

  /** The session of w changes, and w with it; the jobs in the buffer and in the queue are others. */
  lemma SessionJobs(ss: seq<Session>, waiting: seq<Job>, queue: seq<Job>, i: nat, x: Session)
    requires JobsOk(ss, waiting, queue) && i < |ss| && ss[i].at.Taken?
    ensures JobsOk(ss[i := x], waiting, queue)
  {}

  lemma SessionWorkers(ss: seq<Session>, workers: seq<Worker>, w: Wid, x: Session, p: Worker)
    requires WorkersOk(ss, workers) && w < |workers| && workers[w].Busy?
    requires p.Busy? ==> p.job == workers[w].job && x.c == p.job.c && x.s == p.job.s && x.at == Taken(p.job.kind, w)
                         && (p.step.CloseServer? || p.step.CloseClient? ==> p.job.kind.Response?) && (x.sOpen <==> !p.step.CloseClient?)
    ensures workers[w].job.id < |ss| && WorkersOk(ss[workers[w].job.id := x], workers[w := p])
  {
    WorkerJob(ss, workers, w);
  }

  lemma SessionAccounted(ss: seq<Session>, waiting: seq<Job>, queue: seq<Job>, workers: seq<Worker>, w: Wid, x: Session, p: Worker)
    requires Accounted(ss, waiting, queue, workers) && WorkersOk(ss, workers) && w < |workers| && workers[w].Busy? && workers[w].job.id < |ss|
    requires if p.Busy? then p.job == workers[w].job && x.at == Taken(p.job.kind, w) else x.at.Sent? || x.at.Over?
    ensures Accounted(ss[workers[w].job.id := x], waiting, queue, workers[w := p])
  {
    var i := workers[w].job.id;
    var ss', workers' := ss[i := x], workers[w := p];
    forall n | 0 <= n < |ss'| ensures AccountedAt(ss'[n], n, waiting, queue, workers') { assert AccountedAt(ss[n], n, waiting, queue, workers); }
  }

  lemma SessionPaired(ss: seq<Session>, clientsfds: map<Fd, int>, watched: set<Fd>, i: nat, x: Session)
    requires Paired(ss, clientsfds, watched) && i < |ss| && PairedAt(x, clientsfds, watched)
    ensures Paired(ss[i := x], clientsfds, watched)
  {
    var ss' := ss[i := x];
    forall n | 0 <= n < |ss| ensures PairedAt(ss'[n], clientsfds, watched) { assert PairedAt(ss[n], clientsfds, watched); }
  }

  lemma CloseSockets(open: set<Fd>, ss: seq<Session>, i: nat, x: Session, fd: Fd)
    requires SocketsOk(open, ss) && i < |ss| && x.c == ss[i].c && x.s == ss[i].s
    requires (ss[i].sOpen && fd == ss[i].s && !x.sOpen && x.cOpen == ss[i].cOpen) || (ss[i].cOpen && fd == ss[i].c && !x.cOpen && x.sOpen == ss[i].sOpen)
    ensures fd in open && SocketsOk(open - {fd}, ss[i := x])
  {
    var ss' := ss[i := x];
    forall y | y in open - {fd} ensures Held(ss', y) {
      var n :| 0 <= n < |ss| && ((ss[n].cOpen && ss[n].c == y) || (ss[n].sOpen && ss[n].s == y));
      assert (ss'[n].cOpen && ss'[n].c == y) || (ss'[n].sOpen && ss'[n].s == y);
    }
  }

  /** Reading: only the worker moves. */
  lemma RecvInv(s: State, w: Wid)
    requires Inv(s) && Enabled(s, Work(w)) && s.workers[w].step.Recv?
    ensures Inv(Next(s, Work(w)))
  {
    hide JobsOk, Accounted, SocketsOk, Paired, WorkersOk;
    var j := s.workers[w].job;
    WorkerJob(s.sessions, s.workers, w);
    SessionWorkers(s.sessions, s.workers, w, s.sessions[j.id], Busy(j, Send(if j.kind.Request? then j.c else j.s)));
    SessionAccounted(s.sessions, s.waiting, s.queue, s.workers, w, s.sessions[j.id], Busy(j, Send(if j.kind.Request? then j.c else j.s)));
    assert s.sessions[j.id := s.sessions[j.id]] == s.sessions;
  }

  lemma SendInv(s: State, w: Wid)
    requires Inv(s) && Enabled(s, Work(w)) && s.workers[w].step.Send?
    ensures Inv(Next(s, Work(w)))
  {
    hide JobsOk, Accounted, SocketsOk, Paired, WorkersOk;
    var j := s.workers[w].job;
    WorkerJob(s.sessions, s.workers, w);
    if j.kind.Request? {
      var x := s.sessions[j.id].(at := Sent);
      SessionJobs(s.sessions, s.waiting, s.queue, j.id, x);
      SessionWorkers(s.sessions, s.workers, w, x, Free);
      SessionAccounted(s.sessions, s.waiting, s.queue, s.workers, w, x, Free);
      SetAtSockets(s.open, s.sessions, j.id, Sent);
      SentPaired(s.sessions, s.clientsfds, s.watched, j.id);
    } else {
      SessionWorkers(s.sessions, s.workers, w, s.sessions[j.id], Busy(j, CloseServer));
      SessionAccounted(s.sessions, s.waiting, s.queue, s.workers, w, s.sessions[j.id], Busy(j, CloseServer));
      assert s.sessions[j.id := s.sessions[j.id]] == s.sessions;
    }
  }

  lemma SentPaired(ss: seq<Session>, clientsfds: map<Fd, int>, watched: set<Fd>, i: nat)
    requires Paired(ss, clientsfds, watched) && i < |ss| && ss[i].at.Taken? && ss[i].at.kind.Request?
    ensures Paired(SetAt(ss, i, Sent), clientsfds, watched)
  {
    assert PairedAt(ss[i], clientsfds, watched);
    SessionPaired(ss, clientsfds, watched, i, ss[i].(at := Sent));
  }

  /** Closing: the socket is open, and is nobody else's. */
  lemma CloseInv(s: State, w: Wid)
    requires Inv(s) && Enabled(s, Work(w)) && (s.workers[w].step.CloseServer? || s.workers[w].step.CloseClient?)
    ensures Inv(Next(s, Work(w)))
    ensures (if s.workers[w].step.CloseServer? then s.workers[w].job.s else s.workers[w].job.c) in s.open
  {
    hide JobsOk, Accounted, SocketsOk, WorkersOk, Paired;
    var j := s.workers[w].job;
    WorkerJob(s.sessions, s.workers, w);
    TakenPaired(s.sessions, s.clientsfds, s.watched, j.id);
    var server := s.workers[w].step.CloseServer?;
    var x := if server then s.sessions[j.id].(sOpen := false) else s.sessions[j.id].(cOpen := false, at := Over);
    var p := if server then Busy(j, CloseClient) else Free;
    SessionJobs(s.sessions, s.waiting, s.queue, j.id, x);
    SessionWorkers(s.sessions, s.workers, w, x, p);
    SessionAccounted(s.sessions, s.waiting, s.queue, s.workers, w, x, p);
    CloseSockets(s.open, s.sessions, j.id, x, if server then j.s else j.c);
    SessionPaired(s.sessions, s.clientsfds, s.watched, j.id, x);
  }

  lemma TakenPaired(ss: seq<Session>, clientsfds: map<Fd, int>, watched: set<Fd>, i: nat)
    requires Paired(ss, clientsfds, watched) && i < |ss|
    ensures PairedAt(ss[i], clientsfds, watched)
  {}

  lemma NextInv(s: State, a: Action)
    requires Inv(s) && Enabled(s, a)
    ensures Inv(Next(s, a))
  {
    hide Inv, Next;
    match a {
      case Accept(c, fd) => AcceptInv(s, c, fd);
      case Answer(fd) => AnswerInv(s, fd);
      case Flush(order) => FlushInv(s, order);
      case Claim(w, i) => ClaimInv(s, w, i);
      case Work(w) =>
        match s.workers[w].step {
          case Recv => RecvInv(s, w);
          case Send(_) => SendInv(s, w);
          case _ => CloseInv(s, w);
        }
    }
  }

  // ---------------------------------------------------------------- what every run keeps

  ghost predicate IsRun(ss: seq<State>, acts: seq<Action>) {
    && |ss| == |acts| + 1 && Init(ss[0])
    && forall i | 0 <= i < |acts| :: Enabled(ss[i], acts[i]) && ss[i + 1] == Next(ss[i], acts[i])
  }

  lemma {:induction false} RunInvariant(ss: seq<State>, acts: seq<Action>, i: nat)
    requires IsRun(ss, acts) && i < |ss|
    ensures Inv(ss[i])
  {
    hide Enabled, Next;
    if i > 0 {
      hide Inv;
      RunInvariant(ss, acts, i - 1);
      NextInv(ss[i - 1], acts[i - 1]);
    }
  }

  /** The jobs that are in the buffer, in the queue or with a worker. */
  ghost predicate Active(s: State, j: Job) {
    j in s.waiting || j in s.queue || exists w :: 0 <= w < |s.workers| && s.workers[w].Busy? && s.workers[w].job == j
  }

  /** The worker that has the job has already closed the backend socket. */
  ghost predicate ServerClosed(s: State, j: Job) {
    exists w :: 0 <= w < |s.workers| && s.workers[w].Busy? && s.workers[w].job == j && s.workers[w].step.CloseClient?
  }

  /** A session has its client until it is over, and its backend until then or until a worker has closed it. */
  ghost predicate Alive(ss: seq<Session>) {
    forall i | 0 <= i < |ss| :: (ss[i].cOpen <==> !ss[i].at.Over?) && (ss[i].sOpen || ss[i].at.Over? || (ss[i].at.Taken? && ss[i].at.kind.Response?))
  }

  /**
    The open sockets are those of the sessions, each of one session and in one role, whether the session has
    a job or awaits an answer.  Every job holds the two open sockets of its session (the backend's until
    its worker closes it), which no other job holds; so the client of a response is the one accepted.
   */
  ghost predicate Safe(s: State) {
    && SocketsOk(s.open, s.sessions) && Alive(s.sessions)
    && (forall j | Active(s, j) :: j.c in s.open && (j.s in s.open || ServerClosed(s, j)) && j.id < |s.sessions| && j.c == s.sessions[j.id].c && j.s == s.sessions[j.id].s)
    && (forall j, k | Active(s, j) && Active(s, k) && j != k ::
          j.id != k.id && j.c != k.c && (!ServerClosed(s, j) ==> j.s != k.c) && (!ServerClosed(s, j) && !ServerClosed(s, k) ==> j.s != k.s))
  }

  lemma ActiveSession(s: State, j: Job)
    requires Inv(s) && Active(s, j)
    ensures j.id < |s.sessions|
    ensures var x := s.sessions[j.id];
            && x.c == j.c && x.s == j.s && x.cOpen && (x.sOpen || ServerClosed(s, j)) && (ServerClosed(s, j) ==> !x.sOpen)
            && (x.at == Waiting(j.kind) || x.at == Queued(j.kind) || (x.at.Taken? && x.at.kind == j.kind))
  {
    hide Accounted, SocketsOk, Paired;
    if w :| 0 <= w < |s.workers| && s.workers[w].Busy? && s.workers[w].job == j {
      WorkerJob(s.sessions, s.workers, w);
      TakenPaired(s.sessions, s.clientsfds, s.watched, j.id);
      forall u | 0 <= u < |s.workers| && s.workers[u].Busy? && s.workers[u].job == j ensures u == w {}
    } else {
      assert JobOf(s.sessions, j, Waiting(j.kind)) || JobOf(s.sessions, j, Queued(j.kind));
      TakenPaired(s.sessions, s.clientsfds, s.watched, j.id);
    }
  }

  lemma SameId(s: State, j: Job, k: Job)
    requires Inv(s) && Active(s, j) && Active(s, k) && j.id == k.id
    ensures j == k
  {
    ActiveSession(s, j);
    ActiveSession(s, k);
  }

  lemma InvSafe(s: State)
    requires Inv(s)
    ensures Safe(s)
  {
    hide JobsOk, WorkersOk, Accounted, Paired, Active, ServerClosed;
    forall i | 0 <= i < |s.sessions| ensures PairedAt(s.sessions[i], s.clientsfds, s.watched) { TakenPaired(s.sessions, s.clientsfds, s.watched, i); }
    forall j | Active(s, j)
      ensures j.c in s.open && (j.s in s.open || ServerClosed(s, j)) && j.id < |s.sessions| && j.c == s.sessions[j.id].c && j.s == s.sessions[j.id].s
    {
      ActiveSession(s, j);
    }
    forall j, k | Active(s, j) && Active(s, k) && j != k
      ensures j.id != k.id && j.c != k.c && (!ServerClosed(s, j) ==> j.s != k.c) && (!ServerClosed(s, j) && !ServerClosed(s, k) ==> j.s != k.s)
    {
      ActiveSession(s, j);
      ActiveSession(s, k);
      if j.id == k.id { SameId(s, j, k); }
    }
  }

  lemma SessionsSafe(ss: seq<State>, acts: seq<Action>)
    requires IsRun(ss, acts)
    ensures forall i | 0 <= i < |ss| :: Safe(ss[i])
  {
    hide IsRun, Inv, Safe;
    forall i | 0 <= i < |ss| ensures Safe(ss[i]) {
      RunInvariant(ss, acts, i);
      InvSafe(ss[i]);
    }
  }

  // ---------------------------------------------------------------- each session goes its way once

  function Rank(w: Where): nat {
    match w
    case Waiting(k) => if k.Request? then 0 else 4
    case Queued(k) => if k.Request? then 1 else 5
    case Taken(k, _) => if k.Request? then 2 else 6
    case Sent => 3
    case Over => 7
  }

  /** From x to y: the same sockets, further on, and nothing opened again. */
  predicate Advances(x: Session, y: Session) {
    && y.c == x.c && y.s == x.s && Rank(x.at) <= Rank(y.at) && (y.cOpen ==> x.cOpen) && (y.sOpen ==> x.sOpen)
  }

  lemma StepAdvances(s: State, a: Action, i: nat)
    requires Inv(s) && Enabled(s, a) && i < |s.sessions|
    ensures i < |Next(s, a).sessions| && Advances(s.sessions[i], Next(s, a).sessions[i])
  {
    hide WorkersOk, Accounted, SocketsOk, Paired, JobsOk, Readable;
    match a {
      case Answer(fd) => Answered(s, fd);
      case Claim(w, n) => QueuedJob(s.sessions, s.waiting, s.queue, n);
      case Work(w) => WorkerJob(s.sessions, s.workers, w);
      case _ =>
    }
  }

  lemma {:induction false} RunAdvances(ss: seq<State>, acts: seq<Action>, n: nat, m: nat, i: nat)
    requires IsRun(ss, acts) && n <= m < |ss| && i < |ss[n].sessions|
    ensures i < |ss[m].sessions| && Advances(ss[n].sessions[i], ss[m].sessions[i])
  {
    hide Enabled, Next, Inv;
    if n < m {
      RunAdvances(ss, acts, n, m - 1, i);
      RunInvariant(ss, acts, m - 1);
      StepAdvances(ss[m - 1], acts[m - 1], i);
    }
  }

  /** The session whose response job this action makes. */
  predicate AnswersFor(s: State, a: Action, i: nat) { a.Answer? && Enabled(s, a) && SessionOf(s.sessions, a.s) == i }

  /** A session gets its response job at most once, after its request was sent, and with its client. */
  lemma OneResponse(ss: seq<State>, acts: seq<Action>, n: nat, m: nat, i: nat)
    requires IsRun(ss, acts) && n <= m < |acts| && AnswersFor(ss[n], acts[n], i) && AnswersFor(ss[m], acts[m], i)
    ensures n == m
    ensures i < |ss[n].sessions| && ss[n].sessions[i].at.Sent?
    ensures var jobs := ss[n + 1].waiting; jobs != [] && jobs[|jobs| - 1] == Job(ss[n].sessions[i].c, acts[n].s, Response, i)
  {
    RunInvariant(ss, acts, n);
    RunInvariant(ss, acts, m);
    hide WorkersOk, Accounted, JobsOk, Readable;
    Answered(ss[n], acts[n].s);
    Answered(ss[m], acts[m].s);
    if n < m { RunAdvances(ss, acts, n + 1, m, i); }
  }

  /** Worker w is about to close a socket of its job. */
  predicate Closes(s: State, w: Wid) {
    w < |s.workers| && s.workers[w].Busy? && (s.workers[w].step.CloseServer? || s.workers[w].step.CloseClient?)
  }

  /** The socket that it closes. */
  function Closing(s: State, w: Wid): Fd
    requires w < |s.workers| && s.workers[w].Busy?
  {
    if s.workers[w].step.CloseServer? then s.workers[w].job.s else s.workers[w].job.c
  }

  /** fd is an open socket of session i, in the role that the step says, and of no other. */
  ghost predicate OpenFor(s: State, i: nat, server: bool, fd: Fd) {
    && i < |s.sessions| && fd in s.open
    && (if server then s.sessions[i].sOpen && s.sessions[i].s == fd else s.sessions[i].cOpen && s.sessions[i].c == fd)
    && forall k | 0 <= k < |s.sessions| && k != i ::
         !(s.sessions[k].cOpen && s.sessions[k].c == fd) && !(s.sessions[k].sOpen && s.sessions[k].s == fd)
  }

  /** A socket is open, and only for the session of the worker's job, when the worker closes it, and no step of the run closes it for that session again. */
  lemma ClosedOnce(ss: seq<State>, acts: seq<Action>, n: nat, m: nat, w: Wid, u: Wid)
    requires IsRun(ss, acts) && n <= m < |acts| && acts[n] == Work(w) && acts[m] == Work(u) && Closes(ss[n], w) && Closes(ss[m], u)
    ensures OpenFor(ss[n], ss[n].workers[w].job.id, ss[n].workers[w].step.CloseServer?, Closing(ss[n], w)) && Closing(ss[n], w) !in ss[n + 1].open
    ensures ss[n].workers[w].job.id == ss[m].workers[u].job.id && ss[n].workers[w].step == ss[m].workers[u].step ==> n == m
  {
    RunInvariant(ss, acts, n);
    RunInvariant(ss, acts, m);
    hide Inv, OpenFor;
    ClosesOpen(ss[n], w);
    StillOpen(ss[m], u);
    CloseRemoves(ss[n], w);
    if n < m && ss[n].workers[w].job.id == ss[m].workers[u].job.id && ss[n].workers[w].step == ss[m].workers[u].step {
      RunAdvances(ss, acts, n + 1, m, ss[n].workers[w].job.id);
    }
  }

  lemma CloseRemoves(s: State, w: Wid)
    requires Closes(s, w) && Enabled(s, Work(w)) && s.workers[w].job.id < |s.sessions|
    ensures var s', i := Next(s, Work(w)), s.workers[w].job.id;
            && Closing(s, w) !in s'.open && i < |s'.sessions|
            && (if s.workers[w].step.CloseServer? then !s'.sessions[i].sOpen else !s'.sessions[i].cOpen)
  {}

  lemma ClosesOpen(s: State, w: Wid)
    requires Inv(s) && Closes(s, w)
    ensures OpenFor(s, s.workers[w].job.id, s.workers[w].step.CloseServer?, Closing(s, w))
  {
    hide JobsOk, WorkersOk, Accounted, Paired;
    WorkerJob(s.sessions, s.workers, w);
    StillOpen(s, w);
  }

  lemma StillOpen(s: State, w: Wid)
    requires Inv(s) && Closes(s, w)
    ensures s.workers[w].job.id < |s.sessions|
    ensures var x := s.sessions[s.workers[w].job.id]; x.cOpen && (s.workers[w].step.CloseServer? ==> x.sOpen)
  {
    hide JobsOk, Accounted, SocketsOk;
    WorkerJob(s.sessions, s.workers, w);
    TakenPaired(s.sessions, s.clientsfds, s.watched, s.workers[w].job.id);
  }
}
