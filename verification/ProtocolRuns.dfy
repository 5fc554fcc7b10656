/**
 What holds over whole runs of borrower and lender: every handle comes back exactly once, cancels
 move no reply, an unlink reaches only the transfer it names, and the system can always drain.
 */
module ProtocolRuns {
  import opened CancelTokens
  import opened Protocol

  // ---- Runs ----

  /** The actions happen one after the other, up to a panic if there is one. */
  predicate Possible(s: System, actions: seq<Action>)
    decreases |actions|
  {
    actions == [] ||
    (Enabled(s, actions[0]) && (Panics(s, actions[0]) || Possible(Next(s, actions[0]), actions[1..])))
  }

  predicate CanRun(s: System, actions: seq<Action>)
    decreases |actions|
  {
    actions == [] ||
    (Enabled(s, actions[0]) && !Panics(s, actions[0]) && CanRun(Next(s, actions[0]), actions[1..]))
  }

  function Run(s: System, actions: seq<Action>): System
    requires CanRun(s, actions)
    decreases |actions|
  {
    if actions == [] then s else Run(Next(s, actions[0]), actions[1..])
  }

  /** No interleaving makes the borrower panic on a reply. */
  lemma {:induction false} RunNeverPanics(s: System, actions: seq<Action>)
    requires Inv(s) && Possible(s, actions)
    ensures CanRun(s, actions) && Inv(Run(s, actions))
    decreases |actions|
  {
    if actions != [] {
      StepKeepsInv(s, actions[0]);
      RunNeverPanics(Next(s, actions[0]), actions[1..]);
    }
  }

  lemma {:induction false} CanRunPossible(s: System, actions: seq<Action>)
    requires CanRun(s, actions)
    ensures Possible(s, actions)
    decreases |actions|
  {
    if actions != [] {
      CanRunPossible(Next(s, actions[0]), actions[1..]);
    }
  }

  // ---- Exactly once ----

  ghost predicate Drained(s: System) {
    Places(s) == multiset{}
  }

  /**
   A request is either outstanding and then in exactly one place, once, or has been given back under
   the handle it came with and is nowhere anymore.
   */
  ghost predicate OnceOrReturned(t: System, i: Seqnum)
    requires |t.jobs| == |t.origin| == t.borrower.next
  {
    if i >= t.borrower.next then i !in t.borrower.handleOf && i !in t.returned
    else if i in t.borrower.handleOf then
      && i !in t.returned && t.borrower.handleOf[i] == t.origin[i]
      && t.origin[i] in t.borrower.seqOf && t.borrower.seqOf[t.origin[i]] == i
      && Places(t)[t.jobs[i]] == 1
    else
      && i in t.returned && t.returned[i] == t.origin[i]
      && Places(t)[t.jobs[i]] == 0
  }

  lemma ReachableOnceOrReturned(t: System, i: Seqnum)
    requires Inverse(t.borrower) && Conserved(t)
    ensures OnceOrReturned(t, i)
  {
  }

  /** On every run from the start, this is so for every request. */
  lemma OutstandingXorReturned(actions: seq<Action>, i: Seqnum)
    requires Possible(INITIAL, actions)
    ensures CanRun(INITIAL, actions)
    ensures
      var t := Run(INITIAL, actions);
      && |t.jobs| == |t.origin| == t.borrower.next
      && OnceOrReturned(t, i)
  {
    InitiallyInv();
    RunNeverPanics(INITIAL, actions);
    ReachableOnceOrReturned(Run(INITIAL, actions), i);
  }

  /** `returned` is the whole history: a reply never gives back twice, and no other step gives back. */
  lemma ReturnsOnce(s: System, a: Action)
    requires Conserved(s) && Enabled(s, a) && !Panics(s, a)
    ensures a.BorrowerReceives? ==>
      var q := s.downlink[0].seqnum;
      && q !in s.returned && q < |s.origin|
      && Next(s, a).returned == s.returned[q := s.origin[q]]
    ensures !a.BorrowerReceives? ==> Next(s, a).returned == s.returned
  {
  }

  lemma DrainedIsAllReturned(t: System)
    requires Inverse(t.borrower) && Conserved(t) && Drained(t)
    ensures t.borrower.seqOf == map[] && t.borrower.handleOf == map[]
    ensures forall i :: 0 <= i < |t.origin| ==> i in t.returned && t.returned[i] == t.origin[i]
  {
    AllOutstanding(t);
    assert multiset(Outstanding(t)) == multiset{};
    InverseOfNothing(t.borrower);
  }

  lemma AllOutstanding(t: System)
    requires Recorded(t)
    ensures forall i :: i in t.borrower.handleOf ==> t.jobs[i] in Outstanding(t)
  {
  }

  lemma InverseOfNothing(b: Borrower)
    requires Inverse(b) && b.handleOf == map[]
    ensures b.seqOf == map[]
  {
  }

  /** Once nothing is under way, every submitted handle has been given back and no handle is pending. */
  lemma DrainedReturnedAll(actions: seq<Action>)
    requires Possible(INITIAL, actions)
    ensures CanRun(INITIAL, actions)
    ensures
      var t := Run(INITIAL, actions);
      Drained(t) ==>
        && t.borrower.seqOf == map[] && t.borrower.handleOf == map[]
        && (forall i :: 0 <= i < |t.origin| ==> i in t.returned && t.returned[i] == t.origin[i])
  {
    InitiallyInv();
    RunNeverPanics(INITIAL, actions);
    var t := Run(INITIAL, actions);
    if Drained(t) {
      DrainedIsAllReturned(t);
    }
  }

  /** The maps stay inverse exactly when the new handle is not outstanding. */
  lemma AssignKeepsInverse(b: Borrower, handle: Handle, kind: Kind, blocking: bool)
    requires Inverse(b) && b.next !in b.handleOf
    ensures Inverse(Assign(b, handle, kind, blocking)) <==> handle !in b.seqOf
  {
    var c := Assign(b, handle, kind, blocking);
    if handle in b.seqOf {
      assert b.seqOf[handle] in c.handleOf && c.handleOf[b.seqOf[handle]] == handle && c.seqOf[handle] == b.next;
    } else {
      assert forall s :: s in b.handleOf ==> b.handleOf[s] != handle;
    }
  }

  /** If it is, the first of the two replies returns it and the borrower panics on the other, whichever comes first. */
  lemma DuplicateHandlePanics(b: Borrower, handle: Handle, kind: Kind, blocking: bool)
    requires Inverse(b) && b.next !in b.handleOf && handle in b.seqOf
    ensures
      var c := Assign(b, handle, kind, blocking);
      var q := b.seqOf[handle];
      && CanReturn(c, q) && !CanReturn(Returned(c, q), b.next)
      && CanReturn(c, b.next) && !CanReturn(Returned(c, b.next), q)
  {
  }

  // ---- Order of replies ----

  /** The jobs of a kind that complete along the run, in order. */
  function Completions(actions: seq<Action>, kind: Kind): seq<Job> {
    if actions == [] then []
    else (if actions[0].Completes? && actions[0].job.kind == kind then [actions[0].job] else [])
         + Completions(actions[1..], kind)
  }

  /** The jobs of a kind whose replies are sent along the run, in order. */
  function Replied(s: System, actions: seq<Action>, kind: Kind): seq<Job>
    requires CanRun(s, actions)
    decreases |actions|
  {
    if actions == [] then []
    else (if actions[0] == Replies(kind) then Next(s, actions[0]).lender.outbox[|s.lender.outbox|..] else [])
         + Replied(Next(s, actions[0]), actions[1..], kind)
  }

  /** Replies of one kind are sent in the order in which the jobs completed. */
  lemma {:induction false} RepliesInCompletionOrder(s: System, actions: seq<Action>, kind: Kind)
    requires CanRun(s, actions)
    ensures Queue(s.lender.done, kind) + Completions(actions, kind) ==
            Replied(s, actions, kind) + Queue(Run(s, actions).lender.done, kind)
    decreases |actions|
  {
    if actions != [] {
      var t, more := Next(s, actions[0]), actions[1..];
      RepliesInCompletionOrder(t, more, kind);
      QueueStep(s, actions[0], kind);
      var q, r := Queue(s.lender.done, kind), Queue(t.lender.done, kind);
      var done, sent := Completions([actions[0]], kind), Replied(s, [actions[0]], kind);
      assert Completions(actions, kind) == done + Completions(more, kind);
      assert Replied(s, actions, kind) == sent + Replied(t, more, kind);
      Regroup(q, done, Completions(more, kind), sent, r, Replied(t, more, kind), Queue(Run(t, more).lender.done, kind));
    }
  }

  lemma QueueStep(s: System, a: Action, kind: Kind)
    requires Enabled(s, a) && !Panics(s, a)
    ensures Completions([a], kind) == if a.Completes? && a.job.kind == kind then [a.job] else []
    ensures CanRun(s, [a])
    ensures Replied(s, [a], kind) == if a == Replies(kind) then Next(s, a).lender.outbox[|s.lender.outbox|..] else []
    ensures Queue(s.lender.done, kind) + Completions([a], kind) ==
            Replied(s, [a], kind) + Queue(Next(s, a).lender.done, kind)
  {
    var q := Queue(s.lender.done, kind);
    if a == Replies(kind) {
      assert Next(s, a).lender.outbox[|s.lender.outbox|..] == [q[0]];
      assert q == [q[0]] + q[1..];
    }
  }

  lemma Regroup<T>(q: seq<T>, done: seq<T>, later: seq<T>, sent: seq<T>, r: seq<T>, sentLater: seq<T>, end: seq<T>)
    requires q + done == sent + r && r + later == sentLater + end
    ensures q + (done + later) == (sent + sentLater) + end
  {
    assert q + (done + later) == (q + done) + later;
    assert (sent + r) + later == sent + (r + later);
    assert sent + (sentLater + end) == (sent + sentLater) + end;
  }

  /** The jobs whose replies are sent along the run, of all kinds, in order. */
  function AllReplied(s: System, actions: seq<Action>): seq<Job>
    requires CanRun(s, actions)
    decreases |actions|
  {
    if actions == [] then []
    else (if actions[0].Replies? then Next(s, actions[0]).lender.outbox[|s.lender.outbox|..] else [])
         + AllReplied(Next(s, actions[0]), actions[1..])
  }

  /** The jobs given back along the run, in order. */
  function GivenBack(s: System, actions: seq<Action>): seq<Job>
    requires CanRun(s, actions)
    decreases |actions|
  {
    if actions == [] then []
    else (if actions[0].BorrowerReceives? then [s.downlink[0]] else []) + GivenBack(Next(s, actions[0]), actions[1..])
  }

  function InTransit(s: System): seq<Job> {
    s.downlink + s.lender.outbox
  }

  /** Jobs are given back in the order in which their replies were sent. */
  lemma {:induction false} GivenBackInReplyOrder(s: System, actions: seq<Action>)
    requires CanRun(s, actions)
    ensures InTransit(s) + AllReplied(s, actions) == GivenBack(s, actions) + InTransit(Run(s, actions))
    decreases |actions|
  {
    if actions != [] {
      var a, t, more := actions[0], Next(s, actions[0]), actions[1..];
      GivenBackInReplyOrder(t, more);
      TransitStep(s, a);
      var sent := if a.Replies? then t.lender.outbox[|s.lender.outbox|..] else [];
      var back := if a.BorrowerReceives? then [s.downlink[0]] else [];
      Regroup(InTransit(s), sent, AllReplied(t, more), back, InTransit(t), GivenBack(t, more), InTransit(Run(t, more)));
    }
  }

  lemma TransitStep(s: System, a: Action)
    requires Enabled(s, a) && !Panics(s, a)
    ensures
      var t := Next(s, a);
      InTransit(s) + (if a.Replies? then t.lender.outbox[|s.lender.outbox|..] else []) ==
      (if a.BorrowerReceives? then [s.downlink[0]] else []) + InTransit(t)
  {
    var t := Next(s, a);
    match a
    case Replies(kind) =>
      var job := Queue(s.lender.done, kind)[0];
      assert t.lender.outbox[|s.lender.outbox|..] == [job];
      assert InTransit(t) == InTransit(s) + [job];
    case FlushReplies => assert InTransit(t) == InTransit(s);
    case BorrowerReceives => assert InTransit(s) == [s.downlink[0]] + InTransit(t);
    case _ => assert InTransit(t) == InTransit(s);
  }

  // ---- Draining ----

  ghost function LenderRemaining(l: Lender): nat {
    4 * |l.working| + 3 * |Queued(l.done)| + 2 * |l.outbox|
  }

  /** How many steps what is under way still needs, at most. */
  ghost function Remaining(s: System): nat {
    6 * |s.borrower.outbox| + 5 * |s.uplink| + LenderRemaining(s.lender) + |s.downlink|
  }

  predicate FromHost(a: Action) {
    a.Submit? || a.CancelUrb?
  }

  lemma CompleteSize(l: Lender, job: Job)
    requires job in l.working
    ensures LenderRemaining(Complete(l, job)) < LenderRemaining(l)
  {
  }

  lemma ReplySize(l: Lender, kind: Kind)
    requires Queue(l.done, kind) != []
    ensures LenderRemaining(SendReply(l, kind)) < LenderRemaining(l)
  {
  }

  lemma ReceiveSize(l: Lender, f: Frame)
    ensures LenderRemaining(Receive(l, f)) <= LenderRemaining(l) + 4
  {
  }

  /** Left alone by the host, every step brings the system closer to drained; only flushes of nothing do not. */
  lemma StepApproachesDrained(s: System, a: Action)
    requires Enabled(s, a) && !Panics(s, a) && !FromHost(a)
    ensures Remaining(Next(s, a)) <= Remaining(s)
    ensures Remaining(Next(s, a)) == Remaining(s) ==>
      (a.FlushRequests? && s.borrower.outbox == []) || (a.FlushReplies? && s.lender.outbox == [])
  {
    match a
    case FlushRequests =>
    case LenderReceives => ReceiveSize(s.lender, s.uplink[0]);
    case Completes(job) => CompleteSize(s.lender, job);
    case Replies(kind) => ReplySize(s.lender, kind);
    case FlushReplies =>
    case BorrowerReceives =>
  }

  lemma SomeQueueNonEmpty(q: Queues) returns (kind: Kind)
    requires |Queued(q)| > 0
    ensures Queue(q, kind) != []
  {
    kind :| Queue(q, kind) != [];
  }

  /** While anything is under way, some step moves it on. */
  lemma SomeStepHelps(s: System) returns (a: Action)
    requires Remaining(s) > 0
    ensures Enabled(s, a) && !FromHost(a)
    ensures !Panics(s, a) ==> Remaining(Next(s, a)) < Remaining(s)
  {
    if s.borrower.outbox != [] {
      a := FlushRequests;
    } else if s.uplink != [] {
      a := LenderReceives;
    } else if |s.lender.working| > 0 {
      var job :| job in s.lender.working;
      a := Completes(job);
    } else if |Queued(s.lender.done)| > 0 {
      var kind := SomeQueueNonEmpty(s.lender.done);
      a := Replies(kind);
    } else if s.lender.outbox != [] {
      a := FlushReplies;
    } else {
      a := BorrowerReceives;
    }
    if !Panics(s, a) {
      StepApproachesDrained(s, a);
    }
  }

  lemma NothingRemains(s: System)
    requires Remaining(s) == 0
    ensures Drained(s)
  {
  }

  lemma {:induction false} TowardsDrained(s: System) returns (actions: seq<Action>)
    ensures forall i :: 0 <= i < |actions| ==> !FromHost(actions[i])
    ensures Possible(s, actions)
    ensures CanRun(s, actions) ==> Remaining(Run(s, actions)) == 0 && Run(s, actions).origin == s.origin
    decreases Remaining(s)
  {
    if Remaining(s) == 0 {
      actions := [];
    } else {
      var a := SomeStepHelps(s);
      actions := [a];
      if !Panics(s, a) {
        var rest := TowardsDrained(Next(s, a));
        actions := [a] + rest;
        assert actions[1..] == rest;
      }
    }
  }

  /** From every reachable state the system can run, without the host's help, until every handle is back. */
  lemma EveryHandleCanComeBack(actions: seq<Action>) returns (more: seq<Action>)
    requires Possible(INITIAL, actions)
    ensures CanRun(INITIAL, actions) && CanRun(Run(INITIAL, actions), more)
    ensures forall i :: 0 <= i < |more| ==> !FromHost(more[i])
    ensures
      var s := Run(INITIAL, actions);
      var t := Run(s, more);
      && t.borrower.seqOf == map[]
      && (forall i :: 0 <= i < |s.origin| ==> i in t.returned && t.returned[i] == s.origin[i])
  {
    InitiallyInv();
    RunNeverPanics(INITIAL, actions);
    more := TowardsDrained(Run(INITIAL, actions));
    RunNeverPanics(Run(INITIAL, actions), more);
    var t := Run(Run(INITIAL, actions), more);
    NothingRemains(t);
    DrainedIsAllReturned(t);
  }

  // ---- Cancels ----

  /** An unlink arrives after the request it is about; and it cancels that transfer, if it still runs, and no other. */
  lemma UnlinkHitsItsTransfer(s: System)
    requires Inv(s) && s.uplink != [] && s.uplink[0].Unlink?
    ensures
      var q := s.uplink[0].seqnum;
      var t := Next(s, LenderReceives);
      && q < s.lender.received
      && t.lender.held == s.lender.held
      && (forall r :: r in s.lender.held ==>
            (s.lender.held[r] in t.lender.tokens.cancelled
             <==> s.lender.held[r] in s.lender.tokens.cancelled || r == q))
  {
  }

  /** A transfer that starts is not cancelled already. */
  lemma StartsUncancelled(s: System)
    requires Inv(s) && s.uplink != [] && s.uplink[0].New? && IsTransfer(s.uplink[0].job)
    ensures
      var q := s.uplink[0].job.seqnum;
      var l := Next(s, LenderReceives).lender;
      q in l.held && l.held[q] !in l.tokens.cancelled
  {
  }

  /** No interleaving lets a cancelled token back into the cache, or two transfers share one. */
  lemma TokensStayClean(actions: seq<Action>)
    requires Possible(INITIAL, actions)
    ensures CanRun(INITIAL, actions)
    ensures
      var l := Run(INITIAL, actions).lender;
      Clean(l.tokens) && TokensHeld(l.tokens, l.held)
  {
    InitiallyInv();
    RunNeverPanics(INITIAL, actions);
  }

  lemma StepKeepsAccounted(s: System, a: Action)
    requires Ordered(Pipeline(s), s.jobs, s.lender.received) && TokensPlaced(s.lender, s.jobs) && Recorded(s)
    requires Accounted(s.lender.tokens) && Enabled(s, a) && !Panics(s, a)
    ensures Accounted(Next(s, a).lender.tokens)
  {
    match a
    case LenderReceives =>
      assert Pipeline(s)[0] == s.uplink[0];
      OrderedTail(Pipeline(s), s.jobs, s.lender.received);
      match s.uplink[0] {
        case New(job) => if IsTransfer(job) { RegisterKeepsAccounted(s.lender.tokens, job.seqnum); }
        case Unlink(q) => CancelKeepsAccounted(s.lender.tokens, q);
      }
    case Replies(kind) => DeregisterKeepsAccounted(s.lender.tokens, Queue(s.lender.done, kind)[0].seqnum);
    case _ =>
  }

  lemma {:induction false} RunKeepsAccounted(s: System, actions: seq<Action>)
    requires Inv(s) && Accounted(s.lender.tokens) && CanRun(s, actions)
    ensures Accounted(Run(s, actions).lender.tokens)
    decreases |actions|
  {
    if actions != [] {
      StepKeepsAccounted(s, actions[0]);
      StepKeepsInv(s, actions[0]);
      RunKeepsAccounted(Next(s, actions[0]), actions[1..]);
    }
  }

  /** On every run, every token ever made is in use, spare or cancelled. */
  lemma NoTokenIsLost(actions: seq<Action>)
    requires Possible(INITIAL, actions)
    ensures CanRun(INITIAL, actions) && Accounted(Run(INITIAL, actions).lender.tokens)
  {
    InitiallyInv();
    RunNeverPanics(INITIAL, actions);
    RunKeepsAccounted(INITIAL, actions);
  }

  predicate IsCancel(s: System, a: Action)
    requires Enabled(s, a)
  {
    a.CancelUrb? || (a.LenderReceives? && s.uplink[0].Unlink?)
  }

  /** The run as if the host had never cancelled anything. */
  function WithoutCancels(s: System, actions: seq<Action>): seq<Action>
    requires CanRun(s, actions)
    decreases |actions|
  {
    if actions == [] then []
    else (if IsCancel(s, actions[0]) then [] else [actions[0]]) + WithoutCancels(Next(s, actions[0]), actions[1..])
  }

  predicate OnlyRequests(frames: seq<Frame>) {
    forall i :: 0 <= i < |frames| ==> frames[i].New?
  }

  /** Equal up to unlink frames and tokens, with no unlinks in `u`. */
  predicate SameReplies(s: System, u: System) {
    && s.borrower.(outbox := []) == u.borrower.(outbox := [])
    && Requests(s.borrower.outbox) == Requests(u.borrower.outbox) && OnlyRequests(u.borrower.outbox)
    && Requests(s.uplink) == Requests(u.uplink) && OnlyRequests(u.uplink)
    && s.lender.(tokens := NO_TOKENS, held := map[]) == u.lender.(tokens := NO_TOKENS, held := map[])
    && s.downlink == u.downlink && s.jobs == u.jobs && s.origin == u.origin && s.returned == u.returned
  }

  lemma CancelStepSame(s: System, u: System, a: Action)
    requires SameReplies(s, u) && Enabled(s, a) && IsCancel(s, a)
    ensures SameReplies(Next(s, a), u)
  {
    if a.CancelUrb? && a.handle in s.borrower.seqOf {
      var f := Unlink(s.borrower.seqOf[a.handle]);
      RequestsAppend(s.borrower.outbox, [f]);
      assert Requests([f]) == [];
    }
  }

  lemma SubmitSame(s: System, u: System, a: Action)
    requires SameReplies(s, u) && Enabled(s, a) && a.Submit?
    ensures Enabled(u, a) && SameReplies(Next(s, a), Next(u, a))
  {
    var f := New(Job(s.borrower.next, a.kind, a.blocking));
    RequestsAppend(s.borrower.outbox, [f]);
    RequestsAppend(u.borrower.outbox, [f]);
  }

  lemma FlushSame(s: System, u: System)
    requires SameReplies(s, u)
    ensures SameReplies(Next(s, FlushRequests), Next(u, FlushRequests))
  {
    RequestsAppend(s.uplink, s.borrower.outbox);
    RequestsAppend(u.uplink, u.borrower.outbox);
  }

  lemma RequestsFirst(frames: seq<Frame>)
    requires frames != [] && frames[0].New?
    ensures Requests(frames) != [] && Requests(frames)[0] == frames[0].job
    ensures Requests(frames)[1..] == Requests(frames[1..])
  {
  }

  lemma ReceiveSame(s: System, u: System)
    requires SameReplies(s, u) && s.uplink != [] && s.uplink[0].New?
    ensures u.uplink != [] && SameReplies(Next(s, LenderReceives), Next(u, LenderReceives))
  {
    RequestsFirst(s.uplink);
    assert u.uplink != [];
    RequestsFirst(u.uplink);
  }

  lemma OtherStepSame(s: System, u: System, a: Action)
    requires SameReplies(s, u) && Enabled(s, a) && !Panics(s, a) && !IsCancel(s, a)
    ensures Enabled(u, a) && !Panics(u, a) && SameReplies(Next(s, a), Next(u, a))
  {
    match a
    case Submit(_, _, _) => SubmitSame(s, u, a);
    case FlushRequests => FlushSame(s, u);
    case LenderReceives => ReceiveSame(s, u);
    case _ =>
  }

  /**
   Cancels move no reply: for every run there is the same run without cancels, and it ends with the same
   requests outstanding, replies to the same requests on their way and the same handles given back. What
   a reply says, its status and bytes, is not in the protocol, and a cancel may change that.
   */
  lemma {:induction false} CancelsChangeNoReply(s: System, u: System, actions: seq<Action>)
    requires SameReplies(s, u) && CanRun(s, actions)
    ensures CanRun(u, WithoutCancels(s, actions))
    ensures SameReplies(Run(s, actions), Run(u, WithoutCancels(s, actions)))
    decreases |actions|
  {
    if actions != [] {
      var a := actions[0];
      var others := WithoutCancels(Next(s, a), actions[1..]);
      if IsCancel(s, a) {
        CancelStepSame(s, u, a);
        CancelsChangeNoReply(Next(s, a), u, actions[1..]);
        assert WithoutCancels(s, actions) == others;
      } else {
        OtherStepSame(s, u, a);
        CancelsChangeNoReply(Next(s, a), Next(u, a), actions[1..]);
        assert WithoutCancels(s, actions)[0] == a && WithoutCancels(s, actions)[1..] == others;
      }
    }
  }

  /** No step of the run is a cancel or the arrival of one. */
  predicate CancelFree(u: System, actions: seq<Action>)
    requires CanRun(u, actions)
    decreases |actions|
  {
    actions == [] || (!IsCancel(u, actions[0]) && CancelFree(Next(u, actions[0]), actions[1..]))
  }

  lemma {:induction false} WithoutCancelsHasNone(s: System, u: System, actions: seq<Action>)
    requires SameReplies(s, u) && CanRun(s, actions)
    ensures CanRun(u, WithoutCancels(s, actions)) && CancelFree(u, WithoutCancels(s, actions))
    decreases |actions|
  {
    if actions != [] {
      var a := actions[0];
      var others := WithoutCancels(Next(s, a), actions[1..]);
      if IsCancel(s, a) {
        CancelStepSame(s, u, a);
        WithoutCancelsHasNone(Next(s, a), u, actions[1..]);
        assert WithoutCancels(s, actions) == others;
      } else {
        OtherStepSame(s, u, a);
        WithoutCancelsHasNone(Next(s, a), Next(u, a), actions[1..]);
        assert WithoutCancels(s, actions)[0] == a && WithoutCancels(s, actions)[1..] == others;
      }
    }
  }
}
