/**
 Borrower and lender as a distributed system. The borrower numbers its requests and sends them over
 one FIFO stream; the lender runs them concurrently, completes them in any order through five queues
 and replies over another stream; the borrower gives each reply back under the request's handle.
 */
module Protocol {
  import opened CancelTokens

  type Handle = nat

  datatype Kind = Reset | Ctrl | Int | Iso | Bulk

  /** A numbered request. `blocking` control requests run without a cancel token. */
  datatype Job = Job(seqnum: Seqnum, kind: Kind, blocking: bool)

  datatype Frame = New(job: Job) | Unlink(seqnum: Seqnum)

  const SEQNUM_LIMIT: nat := 0x1_0000_0000

  /** The sequence counter, the two maps between handles and sequence numbers, and the unsent frames. */
  datatype Borrower = Borrower(next: Seqnum, seqOf: map<Handle, Seqnum>, handleOf: map<Seqnum, Handle>,
                               outbox: seq<Frame>)

  function Assign(b: Borrower, handle: Handle, kind: Kind, blocking: bool): Borrower {
    Borrower(b.next + 1, b.seqOf[handle := b.next], b.handleOf[b.next := handle],
             b.outbox + [New(Job(b.next, kind, blocking))])
  }

  /** A cancel of a handle that was returned already sends nothing. */
  function Unlinked(b: Borrower, handle: Handle): Borrower {
    if handle in b.seqOf then b.(outbox := b.outbox + [Unlink(b.seqOf[handle])]) else b
  }

  /** Both lookups of a reply are unwrapped. */
  predicate CanReturn(b: Borrower, s: Seqnum) {
    s in b.handleOf && b.handleOf[s] in b.seqOf
  }

  function Returned(b: Borrower, s: Seqnum): Borrower
    requires CanReturn(b, s)
  {
    b.(handleOf := b.handleOf - {s}, seqOf := b.seqOf - {b.handleOf[s]})
  }

  /** Completed jobs wait in one queue per kind. */
  datatype Queues = Queues(resets: seq<Job>, ctrls: seq<Job>, ints: seq<Job>, isos: seq<Job>, bulks: seq<Job>)

  function Queue(q: Queues, kind: Kind): seq<Job> {
    match kind
    case Reset => q.resets
    case Ctrl => q.ctrls
    case Int => q.ints
    case Iso => q.isos
    case Bulk => q.bulks
  }

  function SetQueue(q: Queues, kind: Kind, jobs: seq<Job>): Queues {
    match kind
    case Reset => q.(resets := jobs)
    case Ctrl => q.(ctrls := jobs)
    case Int => q.(ints := jobs)
    case Iso => q.(isos := jobs)
    case Bulk => q.(bulks := jobs)
  }

  ghost function Queued(q: Queues): multiset<Job> {
    multiset(q.resets) + multiset(q.ctrls) + multiset(q.ints) + multiset(q.isos) + multiset(q.bulks)
  }

  /**
   The jobs in progress (of all five kinds), the queues, the cancel tokens and which running
   transfer holds which, the unsent replies, and how many requests have been received.
   */
  datatype Lender = Lender(working: multiset<Job>, done: Queues, tokens: Tokens, held: map<Seqnum, Token>,
                           outbox: seq<Job>, received: nat)

  predicate IsTransfer(job: Job) {
    !job.kind.Reset? && !(job.kind.Ctrl? && job.blocking)
  }

  function Start(l: Lender, job: Job): Lender {
    var m := l.(working := l.working + multiset{job}, received := l.received + 1);
    if IsTransfer(job) then
      m.(tokens := Register(l.tokens, job.seqnum), held := l.held[job.seqnum := NextToken(l.tokens)])
    else m
  }

  function Receive(l: Lender, f: Frame): Lender {
    match f
    case New(job) => Start(l, job)
    case Unlink(s) => l.(tokens := Cancel(l.tokens, s))
  }

  function Complete(l: Lender, job: Job): Lender {
    l.(working := l.working - multiset{job}, held := l.held - {job.seqnum},
       done := SetQueue(l.done, job.kind, Queue(l.done, job.kind) + [job]))
  }

  function SendReply(l: Lender, kind: Kind): Lender
    requires Queue(l.done, kind) != []
  {
    var job := Queue(l.done, kind)[0];
    l.(done := SetQueue(l.done, kind, Queue(l.done, kind)[1..]),
       tokens := if kind.Reset? then l.tokens else Deregister(l.tokens, job.seqnum),
       outbox := l.outbox + [job])
  }

  /**
   Both peers and what is on the way between them; and, for the record, every job and the handle it
   was submitted under, by sequence number, and the handles that replies came back under.
   */
  datatype System = System(borrower: Borrower, uplink: seq<Frame>, lender: Lender, downlink: seq<Job>,
                           jobs: seq<Job>, origin: seq<Handle>, returned: map<Seqnum, Handle>)

  const IDLE_LENDER := Lender(multiset{}, Queues([], [], [], [], []), NO_TOKENS, map[], [], 0)

  const INITIAL := System(Borrower(0, map[], map[], []), [], IDLE_LENDER, [], [], [], map[])

  datatype Action =
    | Submit(handle: Handle, kind: Kind, blocking: bool)
    | CancelUrb(handle: Handle)
    | FlushRequests
    | LenderReceives
    | Completes(job: Job)
    | Replies(kind: Kind)
    | FlushReplies
    | BorrowerReceives

  /** Outstanding handles are not submitted again, and sequence numbers do not run out. */
  predicate Enabled(s: System, a: Action) {
    match a
    case Submit(handle, _, _) => handle !in s.borrower.seqOf && s.borrower.next + 1 < SEQNUM_LIMIT
    case CancelUrb(_) => true
    case FlushRequests => true
    case LenderReceives => s.uplink != []
    case Completes(job) => job in s.lender.working
    case Replies(kind) => Queue(s.lender.done, kind) != []
    case FlushReplies => true
    case BorrowerReceives => s.downlink != []
  }

  /** Where the code would panic instead of making the step. */
  predicate Panics(s: System, a: Action)
    requires Enabled(s, a)
  {
    a.BorrowerReceives? && !CanReturn(s.borrower, s.downlink[0].seqnum)
  }

  function Next(s: System, a: Action): System
    requires Enabled(s, a) && !Panics(s, a)
  {
    match a
    case Submit(handle, kind, blocking) =>
      s.(borrower := Assign(s.borrower, handle, kind, blocking),
         jobs := s.jobs + [Job(s.borrower.next, kind, blocking)],
         origin := s.origin + [handle])
    case CancelUrb(handle) => s.(borrower := Unlinked(s.borrower, handle))
    case FlushRequests => s.(borrower := s.borrower.(outbox := []), uplink := s.uplink + s.borrower.outbox)
    case LenderReceives => s.(uplink := s.uplink[1..], lender := Receive(s.lender, s.uplink[0]))
    case Completes(job) => s.(lender := Complete(s.lender, job))
    case Replies(kind) => s.(lender := SendReply(s.lender, kind))
    case FlushReplies => s.(lender := s.lender.(outbox := []), downlink := s.downlink + s.lender.outbox)
    case BorrowerReceives =>
      var r := s.downlink[0].seqnum;
      s.(downlink := s.downlink[1..], borrower := Returned(s.borrower, r),
         returned := s.returned[r := s.borrower.handleOf[r]])
  }

  // ---- Invariants ----

  /** The two maps are inverse to each other. */
  ghost predicate Inverse(b: Borrower) {
    && (forall h :: h in b.seqOf ==> b.seqOf[h] in b.handleOf && b.handleOf[b.seqOf[h]] == h)
    && (forall s :: s in b.handleOf ==> b.handleOf[s] in b.seqOf && b.seqOf[b.handleOf[s]] == s)
  }

  /** Every sequence number so far is either outstanding or returned, and under the handle it was submitted with. */
  ghost predicate Recorded(s: System) {
    && |s.jobs| == |s.origin| == s.borrower.next
    && (forall i :: 0 <= i < |s.jobs| ==> s.jobs[i].seqnum == i)
    && (forall i :: 0 <= i < s.borrower.next ==> (i in s.borrower.handleOf <==> i !in s.returned))
    && (forall i :: i in s.borrower.handleOf ==> i < s.borrower.next && s.borrower.handleOf[i] == s.origin[i])
    && (forall i :: i in s.returned ==> i < s.borrower.next && s.returned[i] == s.origin[i])
  }

  function Requests(frames: seq<Frame>): seq<Job> {
    if frames == [] then []
    else (if frames[0].New? then [frames[0].job] else []) + Requests(frames[1..])
  }

  /** Everything on the way to the lender. */
  function Pipeline(s: System): seq<Frame> {
    s.uplink + s.borrower.outbox
  }

  /** Requests arrive in the order of their numbers, and an unlink never before the request it is about. */
  ghost predicate Ordered(pipeline: seq<Frame>, jobs: seq<Job>, received: nat) {
    && received <= |jobs|
    && Requests(pipeline) == jobs[received..]
    && (forall i :: 0 <= i < |pipeline| && pipeline[i].Unlink? ==>
          pipeline[i].seqnum < received + |Requests(pipeline[..i])|)
  }

  ghost function LenderPlaces(l: Lender): multiset<Job> {
    l.working + Queued(l.done) + multiset(l.outbox)
  }

  /** All jobs between submission and return, wherever they are. */
  ghost function Places(s: System): multiset<Job> {
    multiset(Requests(Pipeline(s))) + LenderPlaces(s.lender) + multiset(s.downlink)
  }

  ghost function Outstanding(s: System): set<Job>
    requires Recorded(s)
  {
    set i | i in s.borrower.handleOf :: s.jobs[i]
  }

  /** Each outstanding job is in exactly one place, once. */
  ghost predicate Conserved(s: System) {
    Recorded(s) && Places(s) == multiset(Outstanding(s))
  }

  /** Running transfers hold tokens of their own: their entry in the table, or a cancelled one. */
  ghost predicate TokensHeld(t: Tokens, held: map<Seqnum, Token>) {
    && (forall s :: s in held ==> held[s] < t.unused && held[s] !in t.cache)
    && (forall s :: s in held ==> if s in t.active then t.active[s] == held[s] else held[s] in t.cancelled)
    && (forall s, r :: s in held && r in held && held[s] == held[r] ==> s == r)
  }

  /** Only received requests are in the tables, and only jobs in progress hold tokens. */
  ghost predicate TokensPlaced(l: Lender, jobs: seq<Job>) {
    && (forall s :: s in l.tokens.active ==> s < l.received)
    && (forall s :: s in l.held ==> s < l.received <= |jobs| && jobs[s] in l.working)
  }

  ghost predicate Inv(s: System) {
    && Inverse(s.borrower)
    && Conserved(s)
    && Ordered(Pipeline(s), s.jobs, s.lender.received)
    && Clean(s.lender.tokens)
    && TokensHeld(s.lender.tokens, s.lender.held)
    && TokensPlaced(s.lender, s.jobs)
  }

  lemma InitiallyConserved(s: System)
    requires s.borrower.handleOf == map[] && Pipeline(s) == [] && s.lender == IDLE_LENDER && s.downlink == []
    requires Recorded(s)
    ensures Conserved(s)
  {
  }

  lemma InitiallyOrdered(jobs: seq<Job>)
    requires jobs == []
    ensures Ordered([], jobs, 0)
  {
  }

  lemma InitiallyTokens(l: Lender, jobs: seq<Job>)
    requires l == IDLE_LENDER
    ensures Clean(l.tokens) && TokensHeld(l.tokens, l.held) && TokensPlaced(l, jobs)
  {
  }

  lemma InitiallyInv()
    ensures Inv(INITIAL)
  {
    var s := INITIAL;
    assert Pipeline(s) == [];
    InitiallyConserved(s);
    InitiallyOrdered(s.jobs);
    InitiallyTokens(s.lender, s.jobs);
  }

  // ---- Requests on their way ----

  lemma {:induction false} RequestsAppend(a: seq<Frame>, b: seq<Frame>)
    ensures Requests(a + b) == Requests(a) + Requests(b)
  {
    if a == [] {
      assert a + b == b;
    } else {
      RequestsAppend(a[1..], b);
      assert (a + b)[1..] == a[1..] + b;
    }
  }

  lemma OrderedAppend(pipeline: seq<Frame>, jobs: seq<Job>, received: nat, f: Frame, newJobs: seq<Job>)
    requires Ordered(pipeline, jobs, received)
    requires f.Unlink? ==> newJobs == [] && f.seqnum < |jobs|
    requires f.New? ==> newJobs == [f.job]
    ensures Ordered(pipeline + [f], jobs + newJobs, received)
  {
    var longer := pipeline + [f];
    RequestsAppend(pipeline, [f]);
    assert Requests([f]) == newJobs;
    assert (jobs + newJobs)[received..] == jobs[received..] + newJobs;
    forall i | 0 <= i < |longer| && longer[i].Unlink?
      ensures longer[i].seqnum < received + |Requests(longer[..i])|
    {
      if i < |pipeline| {
        assert longer[..i] == pipeline[..i];
      } else {
        assert longer[..i] == pipeline;
      }
    }
  }

  lemma OrderedTail(pipeline: seq<Frame>, jobs: seq<Job>, received: nat)
    requires Ordered(pipeline, jobs, received) && pipeline != []
    ensures pipeline[0].New? ==> received < |jobs| && pipeline[0].job == jobs[received]
    ensures pipeline[0].Unlink? ==> pipeline[0].seqnum < received
    ensures Ordered(pipeline[1..], jobs, if pipeline[0].New? then received + 1 else received)
  {
    var f, rest := pipeline[0], pipeline[1..];
    assert pipeline[..0] == [];
    if f.New? {
      assert Requests(pipeline)[0] == f.job;
      assert Requests(rest) == Requests(pipeline)[1..];
    }
    forall i | 0 <= i < |rest| && rest[i].Unlink?
      ensures rest[i].seqnum < (if f.New? then received + 1 else received) + |Requests(rest[..i])|
    {
      assert pipeline[..i + 1][1..] == rest[..i];
      assert pipeline[..i + 1][0] == f;
    }
  }

  // ---- Bags of jobs ----

  lemma BagOfSet<T>(s: set<T>, x: T)
    ensures x !in s ==> multiset(s + {x}) == multiset(s) + multiset{x}
    ensures x in s ==> multiset(s - {x}) == multiset(s) - multiset{x}
  {
  }

  lemma BagOfFirst<T>(q: seq<T>)
    requires q != []
    ensures multiset(q) == multiset{q[0]} + multiset(q[1..])
  {
    assert q == [q[0]] + q[1..];
  }

  lemma QueuedUpdate(q: Queues, kind: Kind, jobs: seq<Job>)
    ensures Queued(SetQueue(q, kind, jobs)) + multiset(Queue(q, kind)) == Queued(q) + multiset(jobs)
  {
  }

  lemma BagMove<T(!new)>(working: multiset<T>, x: T, queued: multiset<T>, queue: multiset<T>, updated: multiset<T>)
    requires x in working && updated + queue == queued + (queue + multiset{x})
    ensures working - multiset{x} + updated == working + queued
  {
    forall y
      ensures updated[y] == (queued + multiset{x})[y]
    {
      assert (updated + queue)[y] == (queued + (queue + multiset{x}))[y];
    }
    assert updated == queued + multiset{x};
  }

  // ---- Conservation ----

  /** A job that is somewhere is outstanding, under its own number, and is in no second place. */
  lemma PlacedIsOutstanding(s: System, job: Job)
    requires Conserved(s) && job in Places(s)
    ensures job.seqnum in s.borrower.handleOf && job.seqnum < |s.jobs| && s.jobs[job.seqnum] == job
    ensures Places(s)[job] == 1
  {
  }

  /** Only submissions and returns touch the record of what is outstanding. */
  lemma SameRecord(s: System, t: System)
    requires Recorded(s)
    requires t.borrower.next == s.borrower.next && t.borrower.handleOf == s.borrower.handleOf
    requires t.jobs == s.jobs && t.origin == s.origin && t.returned == s.returned
    ensures Recorded(t) && Outstanding(t) == Outstanding(s)
  {
  }

  lemma SubmitRecorded(s: System, a: Action)
    requires Recorded(s) && a.Submit? && Enabled(s, a)
    ensures Recorded(Next(s, a))
  {
  }

  lemma SubmitOutstanding(s: System, a: Action)
    requires Recorded(s) && a.Submit? && Enabled(s, a) && Recorded(Next(s, a))
    ensures Outstanding(Next(s, a)) == Outstanding(s) + {Job(s.borrower.next, a.kind, a.blocking)}
    ensures Job(s.borrower.next, a.kind, a.blocking) !in Outstanding(s)
  {
    var t := Next(s, a);
    var job := Job(s.borrower.next, a.kind, a.blocking);
    assert s.borrower.next in t.borrower.handleOf && t.jobs[s.borrower.next] == job;
    forall x | x in Outstanding(s)
      ensures x in Outstanding(t) && x != job
    {
      var i :| i in s.borrower.handleOf && s.jobs[i] == x;
      assert i in t.borrower.handleOf && t.jobs[i] == x;
    }
    forall x | x in Outstanding(t)
      ensures x in Outstanding(s) + {job}
    {
      var i :| i in t.borrower.handleOf && t.jobs[i] == x;
      assert i != s.borrower.next ==> i in s.borrower.handleOf && s.jobs[i] == x;
    }
  }

  lemma ReturnRecorded(s: System, a: Action)
    requires Recorded(s) && a.BorrowerReceives? && Enabled(s, a) && !Panics(s, a)
    requires s.downlink[0].seqnum < |s.jobs| && s.jobs[s.downlink[0].seqnum] == s.downlink[0]
    ensures Recorded(Next(s, a))
    ensures Outstanding(Next(s, a)) == Outstanding(s) - {s.downlink[0]}
  {
    var t := Next(s, a);
    var job := s.downlink[0];
    forall x | x in Outstanding(t)
      ensures x in Outstanding(s) && x != job
    {
      var i :| i in t.borrower.handleOf && t.jobs[i] == x;
      assert i in s.borrower.handleOf && s.jobs[i] == x;
    }
    forall x | x in Outstanding(s) && x != job
      ensures x in Outstanding(t)
    {
      var i :| i in s.borrower.handleOf && s.jobs[i] == x;
      assert i in t.borrower.handleOf && t.jobs[i] == x;
    }
  }

  lemma ReceivePlaces(l: Lender, f: Frame)
    ensures LenderPlaces(Receive(l, f)) == LenderPlaces(l) + multiset(Requests([f]))
  {
    assert Requests([f]) == if f.New? then [f.job] else [];
  }

  lemma CompletePlaces(l: Lender, job: Job)
    requires job in l.working
    ensures LenderPlaces(Complete(l, job)) == LenderPlaces(l)
  {
    var q := Queue(l.done, job.kind);
    QueuedUpdate(l.done, job.kind, q + [job]);
    BagMove(l.working, job, Queued(l.done), multiset(q), Queued(SetQueue(l.done, job.kind, q + [job])));
  }

  lemma ReplyPlaces(l: Lender, kind: Kind)
    requires Queue(l.done, kind) != []
    ensures LenderPlaces(SendReply(l, kind)) == LenderPlaces(l)
  {
    var q := Queue(l.done, kind);
    QueuedUpdate(l.done, kind, q[1..]);
    BagOfFirst(q);
  }

  lemma SubmitConserves(s: System, a: Action)
    requires Conserved(s) && a.Submit? && Enabled(s, a)
    ensures Conserved(Next(s, a))
  {
    SubmitRecorded(s, a);
    SubmitOutstanding(s, a);
    BagOfSet(Outstanding(s), Job(s.borrower.next, a.kind, a.blocking));
    SubmitPlaces(s, a);
  }

  lemma SubmitPlaces(s: System, a: Action)
    requires a.Submit? && Enabled(s, a)
    ensures Places(Next(s, a)) == Places(s) + multiset{Job(s.borrower.next, a.kind, a.blocking)}
  {
    var job := Job(s.borrower.next, a.kind, a.blocking);
    assert Pipeline(Next(s, a)) == Pipeline(s) + [New(job)];
    RequestsAppend(Pipeline(s), [New(job)]);
    assert Requests([New(job)]) == [job];
  }

  lemma CancelKeepsPlaces(s: System, handle: Handle)
    ensures Places(Next(s, CancelUrb(handle))) == Places(s)
  {
    if handle in s.borrower.seqOf {
      var u := Unlink(s.borrower.seqOf[handle]);
      assert Pipeline(Next(s, CancelUrb(handle))) == Pipeline(s) + [u];
      UnlinkIsNoRequest(Pipeline(s), u);
    }
  }

  lemma UnlinkIsNoRequest(pipeline: seq<Frame>, u: Frame)
    requires u.Unlink?
    ensures Requests(pipeline + [u]) == Requests(pipeline)
  {
    RequestsAppend(pipeline, [u]);
  }

  lemma ReceiveKeepsPlaces(s: System)
    requires s.uplink != []
    ensures Places(Next(s, LenderReceives)) == Places(s)
  {
    var t := Next(s, LenderReceives);
    var f := s.uplink[0];
    assert Pipeline(s) == [f] + Pipeline(t);
    RequestsAppend([f], Pipeline(t));
    ReceivePlaces(s.lender, f);
  }

  lemma FlushKeepsPlaces(s: System)
    ensures Places(Next(s, FlushRequests)) == Places(s)
    ensures Places(Next(s, FlushReplies)) == Places(s)
  {
    assert Pipeline(Next(s, FlushRequests)) == Pipeline(s);
  }

  /** Between submission and return, steps move jobs from place to place; cancels move none. */
  lemma MovesConserve(s: System, a: Action)
    requires Conserved(s) && Enabled(s, a) && !a.Submit? && !a.BorrowerReceives?
    ensures Places(Next(s, a)) == Places(s) && Conserved(Next(s, a))
  {
    SameRecord(s, Next(s, a));
    match a
    case CancelUrb(handle) => CancelKeepsPlaces(s, handle);
    case FlushRequests => FlushKeepsPlaces(s);
    case LenderReceives => ReceiveKeepsPlaces(s);
    case Completes(job) => CompletePlaces(s.lender, job);
    case Replies(kind) => ReplyPlaces(s.lender, kind);
    case FlushReplies => FlushKeepsPlaces(s);
  }

  lemma ReturnConserves(s: System, a: Action)
    requires Conserved(s) && Inverse(s.borrower) && a.BorrowerReceives? && Enabled(s, a)
    ensures !Panics(s, a)
    ensures Conserved(Next(s, a))
  {
    var job := s.downlink[0];
    assert job in multiset(s.downlink);
    PlacedIsOutstanding(s, job);
    ReturnRecorded(s, a);
    BagOfSet(Outstanding(s), job);
    ReturnPlaces(s, a);
  }

  lemma ReturnPlaces(s: System, a: Action)
    requires a.BorrowerReceives? && Enabled(s, a) && !Panics(s, a)
    ensures Places(Next(s, a)) == Places(s) - multiset{s.downlink[0]}
  {
    BagOfFirst(s.downlink);
  }

  // ---- Order ----

  lemma SubmitKeepsOrdered(s: System, a: Action)
    requires Ordered(Pipeline(s), s.jobs, s.lender.received) && a.Submit? && Enabled(s, a)
    ensures Ordered(Pipeline(Next(s, a)), Next(s, a).jobs, s.lender.received)
  {
    var job := Job(s.borrower.next, a.kind, a.blocking);
    OrderedAppend(Pipeline(s), s.jobs, s.lender.received, New(job), [job]);
    assert Pipeline(Next(s, a)) == Pipeline(s) + [New(job)];
  }

  lemma CancelKeepsOrdered(s: System, handle: Handle)
    requires Ordered(Pipeline(s), s.jobs, s.lender.received)
    requires handle in s.borrower.seqOf ==> s.borrower.seqOf[handle] < |s.jobs|
    ensures Ordered(Pipeline(Next(s, CancelUrb(handle))), s.jobs, s.lender.received)
  {
    if handle in s.borrower.seqOf {
      var u := Unlink(s.borrower.seqOf[handle]);
      OrderedAppend(Pipeline(s), s.jobs, s.lender.received, u, []);
      assert Pipeline(Next(s, CancelUrb(handle))) == Pipeline(s) + [u];
      assert s.jobs + [] == s.jobs;
    }
  }

  lemma ReceiveKeepsOrdered(s: System)
    requires Ordered(Pipeline(s), s.jobs, s.lender.received) && s.uplink != []
    ensures Ordered(Pipeline(Next(s, LenderReceives)), s.jobs, Next(s, LenderReceives).lender.received)
  {
    OrderedTail(Pipeline(s), s.jobs, s.lender.received);
    assert Pipeline(Next(s, LenderReceives)) == Pipeline(s)[1..];
  }

  lemma StepKeepsOrdered(s: System, a: Action)
    requires Ordered(Pipeline(s), s.jobs, s.lender.received) && Enabled(s, a) && !Panics(s, a)
    requires forall h :: h in s.borrower.seqOf ==> s.borrower.seqOf[h] < |s.jobs|
    ensures Ordered(Pipeline(Next(s, a)), Next(s, a).jobs, Next(s, a).lender.received)
  {
    match a
    case Submit(_, _, _) => SubmitKeepsOrdered(s, a);
    case CancelUrb(handle) => CancelKeepsOrdered(s, handle);
    case FlushRequests => assert Pipeline(Next(s, a)) == Pipeline(s);
    case LenderReceives => ReceiveKeepsOrdered(s);
    case _ => assert Pipeline(Next(s, a)) == Pipeline(s);
  }

  // ---- Tokens ----

  lemma StartKeepsTokens(l: Lender, jobs: seq<Job>, job: Job)
    requires Clean(l.tokens) && TokensHeld(l.tokens, l.held) && TokensPlaced(l, jobs)
    requires l.received < |jobs| && job == jobs[l.received] && job.seqnum == l.received
    ensures Clean(Start(l, job).tokens) && TokensHeld(Start(l, job).tokens, Start(l, job).held)
    ensures TokensPlaced(Start(l, job), jobs)
  {
    if IsTransfer(job) {
      RegisterKeepsClean(l.tokens, job.seqnum);
      StartKeepsHeld(l.tokens, l.held, job.seqnum);
    }
  }

  lemma StartKeepsHeld(t: Tokens, held: map<Seqnum, Token>, s: Seqnum)
    requires Clean(t) && TokensHeld(t, held) && s !in t.active && s !in held
    ensures TokensHeld(Register(t, s), held[s := NextToken(t)])
  {
  }

  lemma UnlinkKeepsTokens(l: Lender, jobs: seq<Job>, s: Seqnum)
    requires Clean(l.tokens) && TokensHeld(l.tokens, l.held) && TokensPlaced(l, jobs)
    ensures
      var m := Receive(l, Unlink(s));
      Clean(m.tokens) && TokensHeld(m.tokens, m.held) && TokensPlaced(m, jobs)
  {
    CancelKeepsClean(l.tokens, s);
  }

  lemma CompleteKeepsTokens(l: Lender, jobs: seq<Job>, job: Job)
    requires TokensHeld(l.tokens, l.held) && TokensPlaced(l, jobs) && job in l.working
    requires forall i :: 0 <= i < |jobs| ==> jobs[i].seqnum == i
    ensures
      var m := Complete(l, job);
      TokensHeld(m.tokens, m.held) && TokensPlaced(m, jobs)
  {
  }

  /** The token of a completed transfer goes back to the cache only when no running transfer holds it. */
  lemma ReplyKeepsTokens(l: Lender, jobs: seq<Job>, kind: Kind)
    requires Clean(l.tokens) && TokensHeld(l.tokens, l.held) && TokensPlaced(l, jobs) && Queue(l.done, kind) != []
    requires Queue(l.done, kind)[0].seqnum !in l.held
    ensures
      var m := SendReply(l, kind);
      Clean(m.tokens) && TokensHeld(m.tokens, m.held) && TokensPlaced(m, jobs)
  {
    DeregisterKeepsClean(l.tokens, Queue(l.done, kind)[0].seqnum);
  }

  lemma CompletedHoldsNoToken(s: System, kind: Kind)
    requires Conserved(s) && TokensPlaced(s.lender, s.jobs) && Queue(s.lender.done, kind) != []
    ensures Queue(s.lender.done, kind)[0].seqnum !in s.lender.held
  {
    var job := Queue(s.lender.done, kind)[0];
    assert job in multiset(Queue(s.lender.done, kind));
    assert job in Queued(s.lender.done);
    PlacedIsOutstanding(s, job);
    assert s.lender.working[job] == 0;
  }

  lemma StepKeepsTokens(s: System, a: Action)
    requires Inv(s) && Enabled(s, a) && !Panics(s, a)
    ensures
      var t := Next(s, a);
      && Clean(t.lender.tokens)
      && TokensHeld(t.lender.tokens, t.lender.held)
      && TokensPlaced(t.lender, t.jobs)
  {
    match a
    case Submit(_, _, _) =>
    case CancelUrb(_) =>
    case FlushRequests =>
    case LenderReceives =>
      assert Pipeline(s)[0] == s.uplink[0];
      OrderedTail(Pipeline(s), s.jobs, s.lender.received);
      match s.uplink[0] {
        case New(job) => StartKeepsTokens(s.lender, s.jobs, job);
        case Unlink(u) => UnlinkKeepsTokens(s.lender, s.jobs, u);
      }
    case Completes(job) => CompleteKeepsTokens(s.lender, s.jobs, job);
    case Replies(kind) =>
      CompletedHoldsNoToken(s, kind);
      ReplyKeepsTokens(s.lender, s.jobs, kind);
    case FlushReplies =>
    case BorrowerReceives =>
  }

  // ---- Main results ----

  lemma StepKeepsInverse(s: System, a: Action)
    requires Inverse(s.borrower) && Recorded(s) && Enabled(s, a) && !Panics(s, a)
    ensures Inverse(Next(s, a).borrower)
  {
  }

  /** In every reachable state the two lookups of a reply succeed, and every step keeps the invariant. */
  lemma StepKeepsInv(s: System, a: Action)
    requires Inv(s) && Enabled(s, a)
    ensures !Panics(s, a)
    ensures Inv(Next(s, a))
  {
    if a.BorrowerReceives? {
      ReturnConserves(s, a);
    } else if a.Submit? {
      SubmitConserves(s, a);
    } else {
      MovesConserve(s, a);
    }
    StepKeepsInverse(s, a);
    StepKeepsOrdered(s, a);
    StepKeepsTokens(s, a);
  }
}
