/**
 The URB demultiplexer: sends each work item of the virtual host controller to the port it
 belongs to. Ports are enumerated one at a time through a queue; until a device has an address,
 its URBs are told apart only by whose turn it is.
 */
module Demultiplexer {
  import opened Wrappers
  import opened KeyGroups
  import opened ThreeKeyIndex

  type Port = nat
  type Address = nat
  type Handle = nat
  type Sender = nat

  const UNASSIGNED: Address := 0
  const MAX_ADDRESS: Address := 127

  type MailKey = Key<Port, Address, Handle>
  type Mail = Groups<MailKey, Sender>

  datatype PortStat = PortStat(port: Port, resetChanged: bool, resetting: bool, enabled: bool)

  datatype UrbType = Iso | Int | Ctrl | Bulk

  /** `isSetAddress` tells whether the setup packet is a standard SET_ADDRESS request, `value` is its 16-bit value. */
  datatype Urb = Urb(typ: UrbType, address: Address, anycast: bool, isSetAddress: bool, value: nat)

  datatype Event =
    | Stat(stat: PortStat)
    | ProcessUrb(urb: Urb, handle: Handle)
    | CancelUrb(handle: Handle)
    | Giveback(handle: Handle)
    | Registered(port: Port, sender: Sender)

  datatype State = State(queue: seq<Port>, mail: Mail)

  /** A step sends its work item to at most one port, or trips one of the event loop's assertions. */
  datatype Outcome = Next(state: State, to: Option<Sender>) | Panicked

  // ---- The event loop, step by step ----

  predicate ResetDone(stat: PortStat) {
    stat.resetChanged && !stat.resetting && stat.enabled
  }

  /** A finished reset counts once: not while its port waits in the queue already. */
  predicate StartsEnumeration(queue: seq<Port>, stat: PortStat) {
    ResetDone(stat) && stat.port !in queue
  }

  predicate TakesSetAddress(queue: seq<Port>, urb: Urb) {
    urb.typ.Ctrl? && urb.address == UNASSIGNED && urb.anycast && queue != [] && urb.isSetAddress
  }

  predicate TakesDefaultAddress(queue: seq<Port>, urb: Urb) {
    !TakesSetAddress(queue, urb) && urb.typ.Ctrl? && urb.address == UNASSIGNED && queue != []
  }

  predicate TakesAddress(queue: seq<Port>, urb: Urb) {
    !TakesSetAddress(queue, urb) && !TakesDefaultAddress(queue, urb)
  }

  /** The low byte of the setup packet's value. */
  function NewAddress(urb: Urb): Address {
    urb.value % 256
  }

  ghost function OnStat(s: State, stat: PortStat): Outcome {
    var t := if StartsEnumeration(s.queue, stat)
             then State(s.queue + [stat.port], Isolate(s.mail, First(stat.port)))
             else s;
    Next(t, Get(t.mail, First(stat.port)))
  }

  ghost function OnSetAddress(s: State, urb: Urb, handle: Handle): Outcome
    requires s.queue != []
  {
    var p := s.queue[0];
    var cleared := Remove(s.mail, Second(UNASSIGNED));
    var addressed := Link(cleared, Second(NewAddress(urb)), First(p));
    if NewAddress(urb) > MAX_ADDRESS || !LinkOutcome(addressed, Third(handle), First(p)).Success? then Panicked
    else
      var mail := Link(addressed, Third(handle), First(p));
      Next(State(s.queue[1..], mail), Get(mail, First(p)))
  }

  ghost function OnDefaultAddress(s: State, handle: Handle): Outcome
    requires s.queue != []
  {
    var p := s.queue[0];
    if !LinkOutcome(s.mail, Third(handle), First(p)).Success? then Panicked
    else
      var mail := Link(s.mail, Third(handle), First(p));
      Next(s.(mail := mail), Get(mail, First(p)))
  }

  ghost function OnAddress(s: State, address: Address, handle: Handle): Outcome {
    if LinkOutcome(s.mail, Third(handle), Second(address)).ExistingKeyDoesNotExist? then Panicked
    else
      var mail := Link(s.mail, Third(handle), Second(address));
      Next(s.(mail := mail), Get(mail, Second(address)))
  }

  ghost function Step(s: State, e: Event): Outcome {
    match e
    case Stat(stat) => OnStat(s, stat)
    case ProcessUrb(urb, handle) =>
      if TakesSetAddress(s.queue, urb) then OnSetAddress(s, urb, handle)
      else if TakesDefaultAddress(s.queue, urb) then OnDefaultAddress(s, handle)
      else OnAddress(s, urb.address, handle)
    case CancelUrb(handle) => Next(s.(mail := Remove(s.mail, Third(handle))), Get(s.mail, Third(handle)))
    case Giveback(handle) => Next(s.(mail := Remove(s.mail, Third(handle))), None)
    case Registered(port, sender) =>
      if First(port) in s.mail then Panicked
      else Next(s.(mail := Insert(s.mail, First(port), sender)), None)
  }

  // ---- What every step keeps ----

  ghost predicate NoDuplicates(queue: seq<Port>) {
    forall i, j :: 0 <= i < j < |queue| ==> queue[i] != queue[j]
  }

  /** A group of keys belongs to one port and has at most one address. */
  ghost predicate OnePort(group: Group<MailKey, Sender>) {
    && (exists p :: First(p) in group.members)
    && (forall p, q :: First(p) in group.members && First(q) in group.members ==> p == q)
    && (forall a, b :: Second(a) in group.members && Second(b) in group.members ==> a == b)
  }

  ghost predicate Unaddressed(group: Group<MailKey, Sender>) {
    forall a :: Second(a) !in group.members
  }

  ghost predicate Partitioned(mail: Mail) {
    WellFormed(mail) && forall k :: k in mail ==> OnePort(mail[k])
  }

  /** The enumeration invariant: no port waits twice, and no waiting port has an address. */
  ghost predicate Enumerating(queue: seq<Port>, mail: Mail) {
    && NoDuplicates(queue)
    && (forall p :: p in queue && First(p) in mail ==> Unaddressed(mail[First(p)]))
  }

  ghost predicate Inv(s: State) {
    Partitioned(s.mail) && Enumerating(s.queue, s.mail)
  }

  lemma InitiallyInv()
    ensures Inv(State([], map[]))
  {
  }

  lemma IsolateKeepsPartitioned(mail: Mail, p: Port)
    requires Partitioned(mail)
    ensures Partitioned(Isolate(mail, First(p)))
  {
    if First(p) in mail {
      IsolateLeavesOneKey(mail, First(p));
      var h := Isolate(mail, First(p));
      assert First(p) in h[First(p)].members;
      forall j | j in h && j != First(p)
        ensures OnePort(h[j])
      {
        IsolateSparesOthers(mail, First(p), j);
      }
    }
  }

  lemma IsolateKeepsEnumerating(queue: seq<Port>, mail: Mail, p: Port)
    requires WellFormed(mail) && Enumerating(queue, mail) && p !in queue
    ensures Enumerating(queue + [p], Isolate(mail, First(p)))
  {
  }

  lemma StatKeepsInv(s: State, stat: PortStat)
    requires Inv(s)
    ensures Inv(OnStat(s, stat).state)
  {
    if StartsEnumeration(s.queue, stat) {
      IsolateKeepsPartitioned(s.mail, stat.port);
      IsolateKeepsEnumerating(s.queue, s.mail, stat.port);
    }
  }

  lemma IsolateSparesOthers(mail: Mail, k: MailKey, other: MailKey)
    requires WellFormed(mail) && k in mail && other in Isolate(mail, k) && other != k
    ensures other in mail && Isolate(mail, k)[other] == mail[other]
  {
  }

  lemma RemoveKeepsInv(s: State, k: MailKey)
    requires Inv(s) && !k.First?
    ensures Inv(s.(mail := Remove(s.mail, k)))
  {
    RemoveTakesOnlyThatKey(s.mail, k);
    var h := Remove(s.mail, k);
    forall other | other in h
      ensures OnePort(h[other])
    {
      var p :| First(p) in s.mail[other].members;
      assert First(p) in h[other].members;
    }
  }

  lemma AddKeepsOnePort(group: Group<MailKey, Sender>, k: MailKey)
    requires OnePort(group) && !k.First? && (k.Second? ==> Unaddressed(group))
    ensures OnePort(group.(members := group.members + {k}))
  {
  }

  lemma LinkKeepsPartitioned(mail: Mail, newKey: MailKey, existing: MailKey)
    requires Partitioned(mail) && !newKey.First?
    requires newKey.Second? && existing in mail ==> Unaddressed(mail[existing])
    ensures Partitioned(Link(mail, newKey, existing))
  {
    if newKey !in mail && existing in mail {
      LinkJoinsGroup(mail, newKey, existing);
      AddKeepsOnePort(mail[existing], newKey);
    }
  }

  lemma LinkKeepsEnumerating(queue: seq<Port>, mail: Mail, newKey: MailKey, existing: MailKey)
    requires WellFormed(mail) && Enumerating(queue, mail) && !newKey.First?
    requires newKey.Second? && existing in mail ==> forall p :: p in queue ==> First(p) !in mail[existing].members
    ensures Enumerating(queue, Link(mail, newKey, existing))
  {
  }

  /** Linking a handle, or an address to a port that has none and left the queue, keeps the invariant. */
  lemma LinkKeepsInv(s: State, newKey: MailKey, existing: MailKey)
    requires Inv(s) && !newKey.First?
    requires newKey.Second? && existing in s.mail ==>
      Unaddressed(s.mail[existing]) && (forall p :: p in s.queue ==> First(p) !in s.mail[existing].members)
    ensures Inv(s.(mail := Link(s.mail, newKey, existing)))
  {
    LinkKeepsPartitioned(s.mail, newKey, existing);
    LinkKeepsEnumerating(s.queue, s.mail, newKey, existing);
  }

  lemma RegisteredKeepsInv(s: State, port: Port, sender: Sender)
    requires Inv(s) && First(port) !in s.mail
    ensures Inv(s.(mail := Insert(s.mail, First(port), sender)))
  {
    InsertGivesOwnGroup(s.mail, First(port), sender);
    assert First(port) in Insert(s.mail, First(port), sender)[First(port)].members;
  }

  lemma SetAddressKeepsInv(s: State, urb: Urb, handle: Handle)
    requires Inv(s) && s.queue != [] && OnSetAddress(s, urb, handle).Next?
    ensures Inv(OnSetAddress(s, urb, handle).state)
  {
    var p := s.queue[0];
    RemoveKeepsInv(s, Second(UNASSIGNED));
    RemoveTakesOnlyThatKey(s.mail, Second(UNASSIGNED));
    var cleared := State(s.queue[1..], Remove(s.mail, Second(UNASSIGNED)));
    if First(p) in cleared.mail {
      assert Unaddressed(cleared.mail[First(p)]);
      assert OnePort(cleared.mail[First(p)]);
      assert First(p) in cleared.mail[First(p)].members;
    }
    LinkKeepsInv(cleared, Second(NewAddress(urb)), First(p));
    LinkKeepsInv(cleared.(mail := Link(cleared.mail, Second(NewAddress(urb)), First(p))), Third(handle), First(p));
  }

  lemma StepKeepsInv(s: State, e: Event)
    requires Inv(s) && Step(s, e).Next?
    ensures Inv(Step(s, e).state)
  {
    match e
    case Stat(stat) => StatKeepsInv(s, stat);
    case ProcessUrb(urb, handle) =>
      if TakesSetAddress(s.queue, urb) {
        SetAddressKeepsInv(s, urb, handle);
      } else if TakesDefaultAddress(s.queue, urb) {
        LinkKeepsInv(s, Third(handle), First(s.queue[0]));
      } else {
        LinkKeepsInv(s, Third(handle), Second(urb.address));
      }
    case CancelUrb(handle) => RemoveKeepsInv(s, Third(handle));
    case Giveback(handle) => RemoveKeepsInv(s, Third(handle));
    case Registered(port, sender) => RegisteredKeepsInv(s, port, sender);
  }

  // ---- Where keys lead ----

  /** `k` leads to port `p`: they are keys of one group. */
  ghost predicate Leads(mail: Mail, k: MailKey, p: Port) {
    k in mail && First(p) in mail[k].members
  }

  /** Keys lead to one port, to whose sender their work goes, and no two addresses lead to the same port. */
  lemma RoutesAreClear(s: State, k: MailKey, p: Port)
    requires Inv(s) && Leads(s.mail, k, p)
    ensures First(p) in s.mail && Get(s.mail, k) == Get(s.mail, First(p))
    ensures forall q :: Leads(s.mail, k, q) ==> q == p
    ensures k.Second? ==> p !in s.queue && forall a: Address :: Leads(s.mail, Second(a), p) ==> Second(a) == k
  {
  }

  lemma EveryKeyLeadsSomewhere(s: State, k: MailKey) returns (p: Port)
    requires Inv(s) && k in s.mail
    ensures Leads(s.mail, k, p)
  {
    assert OnePort(s.mail[k]);
    p :| First(p) in s.mail[k].members;
  }

  lemma LinkLeads(mail: Mail, newKey: MailKey, existing: MailKey, k: MailKey, p: Port)
    requires WellFormed(mail) && !newKey.First?
    ensures k in mail ==> (Leads(Link(mail, newKey, existing), k, p) <==> Leads(mail, k, p))
    ensures newKey !in mail ==> (Leads(Link(mail, newKey, existing), newKey, p) <==> Leads(mail, existing, p))
    ensures First(p) in mail ==> Get(Link(mail, newKey, existing), First(p)) == Get(mail, First(p))
  {
  }

  lemma RemoveLeads(mail: Mail, gone: MailKey, k: MailKey, p: Port)
    requires WellFormed(mail) && !gone.First?
    ensures Leads(Remove(mail, gone), k, p) <==> Leads(mail, k, p) && k != gone
    ensures Get(Remove(mail, gone), First(p)) == Get(mail, First(p))
  {
  }

  lemma IsolateLeads(mail: Mail, q: Port, k: MailKey, p: Port)
    requires Partitioned(mail) && Leads(mail, k, p)
    ensures Leads(Isolate(mail, First(q)), k, p) <==> q != p || k == First(p)
    ensures Get(Isolate(mail, First(q)), First(p)) == Get(mail, First(p))
  {
    assert AllInGroup(mail, mail[k]) && k in mail[k].members;
    if First(q) in mail {
      IsolateLeavesOneKey(mail, First(q));
      assert OnePort(mail[k]) && AllInGroup(mail, mail[First(q)]);
    }
  }

  /**
   What ends the route from `k` to port `p`: a cancel or giveback of the handle, a reset that
   enters `p` in the queue, and, for address 0 alone, any SET_ADDRESS.
   */
  ghost predicate Ends(s: State, e: Event, k: MailKey, p: Port) {
    || (e.CancelUrb? && k == Third(e.handle))
    || (e.Giveback? && k == Third(e.handle))
    || (e.Stat? && StartsEnumeration(s.queue, e.stat) && e.stat.port == p && k != First(p))
    || (e.ProcessUrb? && TakesSetAddress(s.queue, e.urb) && k == Second(UNASSIGNED))
  }

  lemma SetAddressLeads(s: State, urb: Urb, handle: Handle, k: MailKey, p: Port)
    requires Inv(s) && Leads(s.mail, k, p) && s.queue != [] && OnSetAddress(s, urb, handle).Next?
    ensures Leads(OnSetAddress(s, urb, handle).state.mail, k, p) <==> k != Second(UNASSIGNED)
    ensures Get(OnSetAddress(s, urb, handle).state.mail, First(p)) == Get(s.mail, First(p))
  {
    var q, a := s.queue[0], NewAddress(urb);
    RoutesAreClear(s, k, p);
    RemoveTakesOnlyThatKey(s.mail, Second(UNASSIGNED));
    var cleared := Remove(s.mail, Second(UNASSIGNED));
    RemoveLeads(s.mail, Second(UNASSIGNED), k, p);
    RemoveLeads(s.mail, Second(UNASSIGNED), First(q), p);
    var addressed := Link(cleared, Second(a), First(q));
    LinkLeads(cleared, Second(a), First(q), k, p);
    if a != UNASSIGNED || First(q) !in cleared {
      assert k == Second(UNASSIGNED) ==> k !in addressed;
    }
    ApplyKeepsWellFormed(cleared, OpLink(Second(a), First(q)));
    LinkLeads(addressed, Third(handle), First(q), k, p);
  }

  /** Step by step, a route ends exactly then; and the port keeps its sender. */
  lemma RouteEndsOnlyThen(s: State, e: Event, k: MailKey, p: Port)
    requires Inv(s) && Leads(s.mail, k, p) && Step(s, e).Next?
    ensures Leads(Step(s, e).state.mail, k, p) <==> !Ends(s, e, k, p)
    ensures Get(Step(s, e).state.mail, First(p)) == Get(s.mail, First(p)) != None
  {
    RoutesAreClear(s, k, p);
    match e
    case Stat(stat) => IsolateLeads(s.mail, stat.port, k, p);
    case ProcessUrb(urb, handle) =>
      if TakesSetAddress(s.queue, urb) {
        SetAddressLeads(s, urb, handle, k, p);
      } else if TakesDefaultAddress(s.queue, urb) {
        LinkLeads(s.mail, Third(handle), First(s.queue[0]), k, p);
      } else {
        LinkLeads(s.mail, Third(handle), Second(urb.address), k, p);
      }
    case CancelUrb(handle) => RemoveLeads(s.mail, Third(handle), k, p);
    case Giveback(handle) => RemoveLeads(s.mail, Third(handle), k, p);
    case Registered(port, sender) => InsertGivesOwnGroup(s.mail, First(port), sender);
  }

  // ---- Whole runs ----

  /** The run trips no assertion. */
  ghost predicate Survives(s: State, es: seq<Event>)
    decreases |es|
  {
    es == [] || (Step(s, es[0]).Next? && Survives(Step(s, es[0]).state, es[1..]))
  }

  ghost function After(s: State, es: seq<Event>): State
    requires Survives(s, es)
    decreases |es|
  {
    if es == [] then s else After(Step(s, es[0]).state, es[1..])
  }

  ghost predicate Undisturbed(s: State, es: seq<Event>, k: MailKey, p: Port)
    requires Survives(s, es)
    decreases |es|
  {
    es == [] || (!Ends(s, es[0], k, p) && Undisturbed(Step(s, es[0]).state, es[1..], k, p))
  }

  lemma {:induction false} RunKeepsInv(s: State, es: seq<Event>)
    requires Inv(s) && Survives(s, es)
    ensures Inv(After(s, es))
    decreases |es|
  {
    if es != [] {
      StepKeepsInv(s, es[0]);
      RunKeepsInv(Step(s, es[0]).state, es[1..]);
    }
  }

  lemma {:induction false} RouteSurvivesRun(s: State, es: seq<Event>, k: MailKey, p: Port)
    requires Inv(s) && Leads(s.mail, k, p) && Survives(s, es) && Undisturbed(s, es, k, p)
    ensures Inv(After(s, es)) && Leads(After(s, es).mail, k, p)
    ensures Get(After(s, es).mail, First(p)) == Get(s.mail, First(p)) != None
    decreases |es|
  {
    if es == [] {
      RoutesAreClear(s, k, p);
    } else {
      StepKeepsInv(s, es[0]);
      RouteEndsOnlyThen(s, es[0], k, p);
      RouteSurvivesRun(Step(s, es[0]).state, es[1..], k, p);
    }
  }

  /** A URB under a fresh handle goes to the port its handle leads to afterwards. */
  lemma UrbGoesWhereHandleLeads(s: State, urb: Urb, handle: Handle) returns (p: Port)
    requires Inv(s) && Third(handle) !in s.mail && Step(s, ProcessUrb(urb, handle)).Next?
    ensures
      var r := Step(s, ProcessUrb(urb, handle));
      Inv(r.state) && Leads(r.state.mail, Third(handle), p) && r.to == Get(r.state.mail, First(p)) != None
  {
    StepKeepsInv(s, ProcessUrb(urb, handle));
    var r := Step(s, ProcessUrb(urb, handle));
    if TakesSetAddress(s.queue, urb) {
      p := s.queue[0];
      var cleared := Remove(s.mail, Second(UNASSIGNED));
      RemoveTakesOnlyThatKey(s.mail, Second(UNASSIGNED));
      ApplyKeepsWellFormed(cleared, OpLink(Second(NewAddress(urb)), First(p)));
      LinkJoinsGroup(Link(cleared, Second(NewAddress(urb)), First(p)), Third(handle), First(p));
      LinkLeads(Link(cleared, Second(NewAddress(urb)), First(p)), Third(handle), First(p), First(p), p);
    } else if TakesDefaultAddress(s.queue, urb) {
      p := s.queue[0];
      LinkJoinsGroup(s.mail, Third(handle), First(p));
      LinkLeads(s.mail, Third(handle), First(p), First(p), p);
    } else {
      p := EveryKeyLeadsSomewhere(s, Second(urb.address));
      LinkJoinsGroup(s.mail, Third(handle), Second(urb.address));
      LinkLeads(s.mail, Third(handle), Second(urb.address), First(p), p);
      RoutesAreClear(s, Second(urb.address), p);
      RoutesAreClear(r.state, Third(handle), p);
      LinkLeads(s.mail, Third(handle), Second(urb.address), Second(urb.address), p);
      RoutesAreClear(r.state, Second(urb.address), p);
    }
  }

  /**
   A cancel goes to the sender that got the URB, whatever happened in between, unless the handle
   was given back or cancelled or its port entered enumeration again.
   */
  lemma CancelFollowsUrb(s: State, urb: Urb, handle: Handle, es: seq<Event>)
    requires Inv(s) && Third(handle) !in s.mail && Step(s, ProcessUrb(urb, handle)).Next?
    requires Survives(Step(s, ProcessUrb(urb, handle)).state, es)
    requires
      var t := Step(s, ProcessUrb(urb, handle)).state;
      forall p :: Leads(t.mail, Third(handle), p) ==> Undisturbed(t, es, Third(handle), p)
    ensures
      var r := Step(s, ProcessUrb(urb, handle));
      Step(After(r.state, es), CancelUrb(handle)).to == r.to != None
  {
    var p := UrbGoesWhereHandleLeads(s, urb, handle);
    var t := Step(s, ProcessUrb(urb, handle)).state;
    RouteSurvivesRun(t, es, Third(handle), p);
    RoutesAreClear(After(t, es), Third(handle), p);
  }

  /**
   A URB whose handle is still linked is sent by address, and a later cancel goes to the same
   place exactly when the old link leads to the same sender.
   */
  lemma ReusedHandle(s: State, urb: Urb, handle: Handle)
    requires Inv(s) && Third(handle) in s.mail && Step(s, ProcessUrb(urb, handle)).Next?
    ensures TakesAddress(s.queue, urb)
    ensures
      var r := Step(s, ProcessUrb(urb, handle));
      Step(r.state, CancelUrb(handle)).to == r.to <==> Get(s.mail, Third(handle)) == Get(s.mail, Second(urb.address))
  {
    RemoveTakesOnlyThatKey(s.mail, Second(UNASSIGNED));
  }

  /** Such a state, which is reachable: handle 7 leads to port 1, and comes again with a URB for port 2's device. */
  lemma ReusedHandleMisroutesCancel() returns (es: seq<Event>, urb: Urb)
    ensures Survives(EMPTY, es) && Inv(After(EMPTY, es))
    ensures
      var r := Step(After(EMPTY, es), ProcessUrb(urb, 7));
      r.Next? && r.to == Some(20) && Step(r.state, CancelUrb(7)).to == Some(10)
  {
    es := TwoPortsReached();
    urb := Urb(Bulk, 6, false, false, 0);
    InitiallyInv();
    RunKeepsInv(EMPTY, es);
    TwoPortsMisroute();
  }

  lemma TwoPortsMisroute()
    ensures
      var r := Step(TWO_PORTS, ProcessUrb(Urb(Bulk, 6, false, false, 0), 7));
      r.Next? && r.to == Some(20) && Step(r.state, CancelUrb(7)).to == Some(10)
  {
  }

  const PORT_ONE: Group<MailKey, Sender> := Group({First(1), Second(5), Third(7)}, 10, 0)
  const PORT_TWO: Group<MailKey, Sender> := Group({First(2), Second(6)}, 20, 0)

  /** Port 1 with address 5 and handle 7, and port 2 with address 6. */
  const TWO_PORTS: State :=
    State([], map[First(1) := PORT_ONE, Second(5) := PORT_ONE, Third(7) := PORT_ONE,
                  First(2) := PORT_TWO, Second(6) := PORT_TWO])

  const EMPTY: State := State([], map[])

  lemma Prepend(s: State, e: Event, es: seq<Event>)
    requires Step(s, e).Next? && Survives(Step(s, e).state, es)
    ensures Survives(s, [e] + es) && After(s, [e] + es) == After(Step(s, e).state, es)
  {
    assert ([e] + es)[1..] == es;
  }

  function Alone(p: Port, sender: Sender): Group<MailKey, Sender> {
    Group({First(p)}, sender, 0)
  }

  function Addressed(p: Port, a: Address, sender: Sender): Group<MailKey, Sender> {
    Group({First(p), Second(a)}, sender, 0)
  }

  /** Port `p` alone next to a mailer without it. */
  ghost predicate Apart(mail: Mail, p: Port, a: Address, h: Handle) {
    WellFormed(mail) && {First(p), Second(a), Third(h), Second(UNASSIGNED)} !! mail.Keys
  }

  /** Reset, SET_ADDRESS and its giveback turn a port alone into an addressed one. */
  lemma EnumeratePort(mail: Mail, p: Port, a: Address, h: Handle, sender: Sender) returns (es: seq<Event>)
    requires Apart(mail, p, a, h) && 0 < a <= MAX_ADDRESS
    ensures
      var s := State([], mail[First(p) := Alone(p, sender)]);
      var g := Addressed(p, a, sender);
      Survives(s, es) && After(s, es) == State([], mail[First(p) := g][Second(a) := g])
  {
    var s := State([], mail[First(p) := Alone(p, sender)]);
    var stat, urb := Stat(PortStat(p, true, false, true)), ProcessUrb(Urb(Ctrl, 0, true, true, a), h);
    ResetAlone(mail, p, sender);
    AddressAlone(mail, p, a, h, sender);
    ForgetHandle(mail, p, a, h, sender);
    var queued := State([p], s.mail);
    var sent := Step(queued, urb).state;
    es := [Giveback(h)];
    Prepend(sent, Giveback(h), []);
    Prepend(queued, urb, es);
    es := [urb] + es;
    Prepend(s, stat, es);
    es := [stat] + es;
  }

  lemma ResetAlone(mail: Mail, p: Port, sender: Sender)
    requires WellFormed(mail) && First(p) !in mail
    ensures
      var now := mail[First(p) := Alone(p, sender)];
      Step(State([], now), Stat(PortStat(p, true, false, true))) == Next(State([p], now), Some(sender))
  {
    var now := mail[First(p) := Alone(p, sender)];
    assert Isolate(now, First(p)) == now by {
      assert now[First(p)].members - {First(p)} == {};
    }
  }

  lemma LinkAlone(mail: Mail, group: Group<MailKey, Sender>, k: MailKey, existing: MailKey, now: Mail)
    requires WellFormed(mail) && group.members !! mail.Keys
    requires k !in mail && k !in group.members && existing in group.members
    requires now.Keys == mail.Keys + group.members
    requires forall j :: j in now ==> now[j] == if j in group.members then group else mail[j]
    ensures
      var grown := group.(members := group.members + {k});
      var linked := Link(now, k, existing);
      && LinkOutcome(now, k, existing) == Success && linked.Keys == mail.Keys + grown.members
      && (forall j :: j in linked ==> linked[j] == if j in grown.members then grown else mail[j])
  {
  }

  lemma LinkAddress(mail: Mail, p: Port, a: Address, h: Handle, sender: Sender)
    requires Apart(mail, p, a, h)
    ensures
      var now, g := mail[First(p) := Alone(p, sender)], Addressed(p, a, sender);
      Remove(now, Second(UNASSIGNED)) == now && Link(now, Second(a), First(p)) == mail[First(p) := g][Second(a) := g]
  {
    var now, g := mail[First(p) := Alone(p, sender)], Addressed(p, a, sender);
    LinkAlone(mail, Alone(p, sender), Second(a), First(p), now);
    assert Alone(p, sender).members + {Second(a)} == g.members;
    assert Link(now, Second(a), First(p)) == mail[First(p) := g][Second(a) := g];
  }

  lemma LinkHandle(mail: Mail, p: Port, a: Address, h: Handle, sender: Sender)
    requires Apart(mail, p, a, h)
    ensures
      var g, grown := Addressed(p, a, sender), Group({First(p), Second(a), Third(h)}, sender, 0);
      var now := mail[First(p) := g][Second(a) := g];
      && LinkOutcome(now, Third(h), First(p)) == Success
      && Link(now, Third(h), First(p)) == mail[First(p) := grown][Second(a) := grown][Third(h) := grown]
  {
    var g, grown := Addressed(p, a, sender), Group({First(p), Second(a), Third(h)}, sender, 0);
    var now := mail[First(p) := g][Second(a) := g];
    LinkAlone(mail, g, Third(h), First(p), now);
    assert g.members + {Third(h)} == grown.members;
    assert Link(now, Third(h), First(p)) == mail[First(p) := grown][Second(a) := grown][Third(h) := grown];
  }

  lemma AddressAlone(mail: Mail, p: Port, a: Address, h: Handle, sender: Sender)
    requires Apart(mail, p, a, h) && 0 < a <= MAX_ADDRESS
    ensures
      var r := Step(State([p], mail[First(p) := Alone(p, sender)]), ProcessUrb(Urb(Ctrl, 0, true, true, a), h));
      var g := Group({First(p), Second(a), Third(h)}, sender, 0);
      r.Next? && r.state == State([], mail[First(p) := g][Second(a) := g][Third(h) := g])
  {
    LinkAddress(mail, p, a, h, sender);
    LinkHandle(mail, p, a, h, sender);
  }

  lemma ForgetHandle(mail: Mail, p: Port, a: Address, h: Handle, sender: Sender)
    requires Apart(mail, p, a, h)
    ensures
      var g, left := Group({First(p), Second(a), Third(h)}, sender, 0), Addressed(p, a, sender);
      Step(State([], mail[First(p) := g][Second(a) := g][Third(h) := g]), Giveback(h)) ==
      Next(State([], mail[First(p) := left][Second(a) := left]), None)
  {
    var g, left := Group({First(p), Second(a), Third(h)}, sender, 0), Addressed(p, a, sender);
    var now := mail[First(p) := g][Second(a) := g][Third(h) := g];
    assert g.members - {Third(h)} == left.members;
    assert Remove(now, Third(h)) == mail[First(p) := left][Second(a) := left];
  }

  lemma {:induction false} RunsJoin(s: State, first: seq<Event>, more: seq<Event>)
    requires Survives(s, first) && Survives(After(s, first), more)
    ensures Survives(s, first + more) && After(s, first + more) == After(After(s, first), more)
    decreases |first|
  {
    if first == [] {
      assert first + more == more;
    } else {
      RunsJoin(Step(s, first[0]).state, first[1..], more);
      Prepend(s, first[0], first[1..] + more);
      assert first + more == [first[0]] + (first[1..] + more);
    }
  }

  lemma OnePortReached() returns (es: seq<Event>)
    ensures Survives(EMPTY, es) && After(EMPTY, es) == State([], map[First(1) := ONE, Second(5) := ONE])
  {
    es := EnumeratePort(map[], 1, 5, 100, 10);
    assert Insert(EMPTY.mail, First(1), 10) == map[First(1) := Alone(1, 10)];
    Prepend(EMPTY, Registered(1, 10), es);
    es := [Registered(1, 10)] + es;
  }

  lemma BothPortsReached() returns (es: seq<Event>)
    ensures Survives(EMPTY, es)
    ensures After(EMPTY, es) ==
            State([], map[First(1) := ONE, Second(5) := ONE, First(2) := PORT_TWO, Second(6) := PORT_TWO])
  {
    var first := OnePortReached();
    var mail := map[First(1) := ONE, Second(5) := ONE];
    OneWellFormed();
    var more := EnumeratePort(mail, 2, 6, 100, 20);
    Prepend(State([], mail), Registered(2, 20), more);
    RunsJoin(EMPTY, first, [Registered(2, 20)] + more);
    es := first + ([Registered(2, 20)] + more);
  }

  const ONE: Group<MailKey, Sender> := Group({First(1), Second(5)}, 10, 0)

  lemma OneWellFormed()
    ensures WellFormed(map[First(1) := ONE, Second(5) := ONE])
  {
  }

  /**
   The state is reachable: two ports are registered; each is reset, gets an address and its SET_ADDRESS
   back; then a bulk URB runs on the first.
   */
  lemma TwoPortsReached() returns (es: seq<Event>)
    ensures Survives(EMPTY, es) && After(EMPTY, es) == TWO_PORTS
  {
    es := BothPortsReached();
    var s := After(EMPTY, es);
    BulkRuns();
    var bulk := ProcessUrb(Urb(Bulk, 5, false, false, 0), 7);
    Prepend(s, bulk, []);
    RunsJoin(EMPTY, es, [bulk] + []);
    es := es + ([bulk] + []);
  }

  lemma BulkRuns()
    ensures
      var s := State([], map[First(1) := ONE, Second(5) := ONE, First(2) := PORT_TWO, Second(6) := PORT_TWO]);
      var r := Step(s, ProcessUrb(Urb(Bulk, 5, false, false, 0), 7));
      r.Next? && r.state == TWO_PORTS
  {
    var others := map[First(2) := PORT_TWO, Second(6) := PORT_TWO];
    var now := map[First(1) := ONE, Second(5) := ONE, First(2) := PORT_TWO, Second(6) := PORT_TWO];
    LinkAlone(others, ONE, Third(7), Second(5), now);
    assert ONE.members + {Third(7)} == PORT_ONE.members;
    assert Link(now, Third(7), Second(5)) == TWO_PORTS.mail;
  }

  /**
   SET_ADDRESS gives the waiting port its address exactly when no other port has it; address 0 is taken
   away first.
   */
  lemma SetAddressAssigns(s: State, urb: Urb, handle: Handle)
    requires Inv(s) && TakesSetAddress(s.queue, urb) && Step(s, ProcessUrb(urb, handle)).Next?
    ensures
      var a := NewAddress(urb);
      Leads(Step(s, ProcessUrb(urb, handle)).state.mail, Second(a), s.queue[0])
      <==> a == UNASSIGNED || Second(a) !in s.mail
  {
    var p, a := s.queue[0], NewAddress(urb);
    var cleared := Remove(s.mail, Second(UNASSIGNED));
    RemoveTakesOnlyThatKey(s.mail, Second(UNASSIGNED));
    LinkLeads(cleared, Second(a), First(p), Second(a), p);
    var addressed := Link(cleared, Second(a), First(p));
    ApplyKeepsWellFormed(cleared, OpLink(Second(a), First(p)));
    LinkLeads(addressed, Third(handle), First(p), Second(a), p);
    if First(p) in s.mail {
      assert Unaddressed(s.mail[First(p)]) && AllInGroup(s.mail, s.mail[First(p)]);
      assert First(p) in cleared && First(p) in cleared[First(p)].members;
    }
    if Second(a) in s.mail && a != UNASSIGNED {
      if Leads(s.mail, Second(a), p) {
        RoutesAreClear(s, Second(a), p);
      }
      RemoveLeads(s.mail, Second(UNASSIGNED), Second(a), p);
    } else {
      LinkKnown(addressed, Third(handle), First(p));
    }
  }

  lemma LinkKnown(mail: Mail, newKey: MailKey, existing: MailKey)
    requires WellFormed(mail) && LinkOutcome(mail, newKey, existing).Success?
    ensures existing in mail
  {
  }

  /**
   From then on every URB sent by that address goes to the port's sender, on every run without
   a new reset of the port (and, should the address be 0, without another SET_ADDRESS).
   */
  lemma AddressedUrbsReachPort(s: State, es: seq<Event>, a: Address, p: Port, urb: Urb, handle: Handle)
    requires Inv(s) && Leads(s.mail, Second(a), p) && Survives(s, es) && Undisturbed(s, es, Second(a), p)
    requires TakesAddress(After(s, es).queue, urb) && urb.address == a
    ensures
      var r := Step(After(s, es), ProcessUrb(urb, handle));
      r.Next? && r.to == Get(s.mail, First(p)) != None
  {
    var t := After(s, es);
    RouteSurvivesRun(s, es, Second(a), p);
    RoutesAreClear(t, Second(a), p);
    StepKeepsInv(t, ProcessUrb(urb, handle));
    LinkLeads(t.mail, Third(handle), Second(a), Second(a), p);
    RoutesAreClear(Step(t, ProcessUrb(urb, handle)).state, Second(a), p);
    LinkLeads(t.mail, Third(handle), Second(a), First(p), p);
  }

  /**
   A port can be registered once: nothing that happens afterwards lets a second registration pass, for
   disconnects do not reach the mailer.
   */
  lemma {:induction false} PortRegistersOnce(s: State, es: seq<Event>, p: Port, sender: Sender)
    requires Inv(s) && First(p) in s.mail && Survives(s, es)
    ensures Step(After(s, es), Registered(p, sender)).Panicked?
    decreases |es|
  {
    if es != [] {
      StepKeepsInv(s, es[0]);
      assert AllInGroup(s.mail, s.mail[First(p)]) && First(p) in s.mail[First(p)].members;
      RouteEndsOnlyThen(s, es[0], First(p), p);
      PortRegistersOnce(Step(s, es[0]).state, es[1..], p, sender);
    }
  }

  // ---- Each event, over the event itself ----

  /**
   A port status is always delivered to its port. The port enters the queue, and loses its address and
   handles, exactly when its finished reset is news; otherwise nothing changes.
   */
  lemma PortStatusDoes(s: State, stat: PortStat)
    requires Inv(s)
    ensures
      var r := Step(s, Stat(stat));
      var news := stat.resetChanged && !stat.resetting && stat.enabled && stat.port !in s.queue;
      && r.Next? && r.to == Get(s.mail, First(stat.port))
      && r.state.queue == (if news then s.queue + [stat.port] else s.queue)
      && (!news ==> r.state.mail == s.mail)
      && (news ==> forall k ::
            k in r.state.mail <==> k in s.mail && (Leads(s.mail, k, stat.port) ==> k == First(stat.port)))
  {
    if First(stat.port) in s.mail {
      IsolateLeavesOneKey(s.mail, First(stat.port));
      var group := s.mail[First(stat.port)];
      assert AllInGroup(s.mail, group) && First(stat.port) in group.members;
      forall k | k in s.mail
        ensures Leads(s.mail, k, stat.port) <==> k in group.members
      {
        assert AllInGroup(s.mail, s.mail[k]) && k in s.mail[k].members;
      }
    } else {
      forall k | k in s.mail
        ensures !Leads(s.mail, k, stat.port)
      {
        assert AllInGroup(s.mail, s.mail[k]);
      }
    }
  }

  /**
   While ports wait, a control URB to address 0 that is not a SET_ADDRESS to everyone goes to the port at
   the front, to which its handle then leads, and the queue stays; it trips only on a linked handle or an
   unregistered port.
   */
  lemma DefaultAddressUrbDoes(s: State, urb: Urb, handle: Handle)
    requires Inv(s) && urb.typ == Ctrl && urb.address == 0 && s.queue != []
    requires !(urb.anycast && urb.isSetAddress)
    ensures
      var r := Step(s, ProcessUrb(urb, handle));
      && (r.Panicked? <==> Third(handle) in s.mail || First(s.queue[0]) !in s.mail)
      && (r.Next? ==>
            && r.state.queue == s.queue && r.to == Get(s.mail, First(s.queue[0]))
            && Leads(r.state.mail, Third(handle), s.queue[0]) && r.state.mail.Keys == s.mail.Keys + {Third(handle)})
  {
    var p := s.queue[0];
    if Third(handle) !in s.mail && First(p) in s.mail {
      assert AllInGroup(s.mail, s.mail[First(p)]) && First(p) in s.mail[First(p)].members;
      LinkJoinsGroup(s.mail, Third(handle), First(p));
      LinkLeads(s.mail, Third(handle), First(p), First(p), p);
    }
  }

  /**
   While ports wait, a SET_ADDRESS to everyone at address 0 goes to the port at the front, to which its
   handle then leads, and takes it off the queue.
   */
  lemma SetAddressUrbDoes(s: State, urb: Urb, handle: Handle)
    requires Inv(s) && urb.typ == Ctrl && urb.address == 0 && urb.anycast && urb.isSetAddress && s.queue != []
    ensures
      var r := Step(s, ProcessUrb(urb, handle));
      && (r.Panicked? <==> urb.value % 256 > 127 || Third(handle) in s.mail || First(s.queue[0]) !in s.mail)
      && (r.Next? ==>
            && r.state.queue == s.queue[1..] && r.to == Get(s.mail, First(s.queue[0]))
            && Leads(r.state.mail, Third(handle), s.queue[0])
            && r.state.mail.Keys == s.mail.Keys - {Second(0)} + {Second(urb.value % 256), Third(handle)})
  {
    var p, k: MailKey := s.queue[0], Second(urb.value % 256);
    AddressedMail(s.mail, p, k);
    var addressed := Link(Remove(s.mail, Second(UNASSIGNED)), k, First(p));
    if First(p) in s.mail && Third(handle) !in s.mail {
      HandledMail(addressed, p, handle);
    }
  }

  lemma AddressedMail(mail: Mail, p: Port, k: MailKey)
    requires WellFormed(mail) && k.Second?
    ensures
      var addressed := Link(Remove(mail, Second(UNASSIGNED)), k, First(p));
      && WellFormed(addressed) && Get(addressed, First(p)) == Get(mail, First(p))
      && addressed.Keys == mail.Keys - {Second(UNASSIGNED)} + if First(p) in mail then {k} else {}
  {
    RemoveTakesOnlyThatKey(mail, Second(UNASSIGNED));
    var cleared := Remove(mail, Second(UNASSIGNED));
    LinkKeys(cleared, k, First(p));
    ApplyKeepsWellFormed(cleared, OpLink(k, First(p)));
    LinkLeads(cleared, k, First(p), First(p), p);
    if First(p) !in mail {
      assert First(p) !in cleared;
    }
  }

  lemma HandledMail(mail: Mail, p: Port, handle: Handle)
    requires WellFormed(mail) && First(p) in mail && Third(handle) !in mail
    ensures
      var handled := Link(mail, Third(handle), First(p));
      && Get(handled, First(p)) == Get(mail, First(p)) && Leads(handled, Third(handle), p)
      && handled.Keys == mail.Keys + {Third(handle)}
  {
    assert AllInGroup(mail, mail[First(p)]) && First(p) in mail[First(p)].members;
    LinkKeys(mail, Third(handle), First(p));
    LinkLeads(mail, Third(handle), First(p), First(p), p);
  }

  /**
   Every other URB goes to the port its address leads to, to which a fresh handle then leads too; it
   trips only when address and handle are both unknown.
   */
  lemma AddressUrbDoes(s: State, urb: Urb, handle: Handle)
    requires Inv(s) && !(urb.typ == Ctrl && urb.address == 0 && s.queue != [])
    ensures
      var r := Step(s, ProcessUrb(urb, handle));
      && (r.Panicked? <==> Third(handle) !in s.mail && Second(urb.address) !in s.mail)
      && (r.Next? ==>
            && r.state.queue == s.queue && r.to == Get(s.mail, Second(urb.address))
            && (Third(handle) in s.mail ==> r.state.mail == s.mail)
            && (Third(handle) !in s.mail ==>
                  && r.state.mail.Keys == s.mail.Keys + {Third(handle)}
                  && (forall p :: Leads(r.state.mail, Third(handle), p) <==> Leads(s.mail, Second(urb.address), p))))
  {
    if Third(handle) !in s.mail && Second(urb.address) in s.mail {
      var group := s.mail[Second(urb.address)];
      assert AllInGroup(s.mail, group) && Second(urb.address) in group.members;
      LinkJoinsGroup(s.mail, Third(handle), Second(urb.address));
    }
  }

  /** Only a SET_ADDRESS to everyone at address 0 takes a port off the queue, and each does while ports wait. */
  lemma QueueShrinksIff(s: State, urb: Urb, handle: Handle)
    requires Inv(s) && Step(s, ProcessUrb(urb, handle)).Next?
    ensures |Step(s, ProcessUrb(urb, handle)).state.queue| < |s.queue| <==>
      urb.typ == Ctrl && urb.address == 0 && urb.anycast && urb.isSetAddress && s.queue != []
  {
  }

  /** Cancels and givebacks forget the handle and nothing else; a registered port is reached by its sender. */
  lemma OtherEventsDo(s: State, handle: Handle, port: Port, sender: Sender)
    requires Inv(s)
    ensures
      var r := Step(s, CancelUrb(handle));
      && r.Next? && r.to == Get(s.mail, Third(handle))
      && r.state.queue == s.queue && r.state.mail.Keys == s.mail.Keys - {Third(handle)}
    ensures
      var r := Step(s, Giveback(handle));
      && r.Next? && r.to == None
      && r.state.queue == s.queue && r.state.mail.Keys == s.mail.Keys - {Third(handle)}
    ensures
      var r := Step(s, Registered(port, sender));
      && (r.Panicked? <==> First(port) in s.mail)
      && (r.Next? ==>
            && r.to == None && r.state.queue == s.queue && Get(r.state.mail, First(port)) == Some(sender)
            && r.state.mail.Keys == s.mail.Keys + {First(port)})
  {
    RemoveTakesOnlyThatKey(s.mail, Third(handle));
  }

  // ---- The enumeration queue ----

  ghost function Entered(s: State, e: Event): seq<Port> {
    if e.Stat? && StartsEnumeration(s.queue, e.stat) then [e.stat.port] else []
  }

  ghost function Served(s: State, e: Event): seq<Port> {
    if e.ProcessUrb? && TakesSetAddress(s.queue, e.urb) then [s.queue[0]] else []
  }

  ghost function AllEntered(s: State, es: seq<Event>): seq<Port>
    requires Survives(s, es)
    decreases |es|
  {
    if es == [] then [] else Entered(s, es[0]) + AllEntered(Step(s, es[0]).state, es[1..])
  }

  ghost function AllServed(s: State, es: seq<Event>): seq<Port>
    requires Survives(s, es)
    decreases |es|
  {
    if es == [] then [] else Served(s, es[0]) + AllServed(Step(s, es[0]).state, es[1..])
  }

  lemma StepIsFifo(s: State, e: Event)
    requires Step(s, e).Next?
    ensures Served(s, e) + Step(s, e).state.queue == s.queue + Entered(s, e)
  {
  }

  /** Ports are served in the order in which they entered; none is lost, none served out of turn. */
  lemma {:induction false} EnumerationIsFifo(s: State, es: seq<Event>)
    requires Survives(s, es)
    ensures AllServed(s, es) + After(s, es).queue == s.queue + AllEntered(s, es)
    decreases |es|
  {
    if es != [] {
      var t := Step(s, es[0]).state;
      EnumerationIsFifo(t, es[1..]);
      StepIsFifo(s, es[0]);
      Reassociate(Served(s, es[0]), AllServed(t, es[1..]), After(t, es[1..]).queue,
                  t.queue, AllEntered(t, es[1..]), s.queue, Entered(s, es[0]));
    }
  }

  lemma Reassociate(first: seq<Port>, rest: seq<Port>, end: seq<Port>, mid: seq<Port>, later: seq<Port>,
                    start: seq<Port>, now: seq<Port>)
    requires rest + end == mid + later && first + mid == start + now
    ensures (first + rest) + end == start + (now + later)
  {
    assert (first + rest) + end == first + (rest + end);
    assert first + (mid + later) == (first + mid) + later;
    assert (start + now) + later == start + (now + later);
  }

  // ---- When the event loop's assertions hold ----

  ghost predicate QueuedAreRegistered(s: State) {
    forall p :: p in s.queue ==> First(p) in s.mail
  }

  /** What the event loop's assertions forbid its host controller and its clients. */
  ghost predicate Misuse(s: State, e: Event) {
    match e
    case Stat(_) => false
    case ProcessUrb(urb, handle) =>
      if TakesSetAddress(s.queue, urb) then NewAddress(urb) > MAX_ADDRESS || Third(handle) in s.mail
      else if TakesDefaultAddress(s.queue, urb) then Third(handle) in s.mail
      else Third(handle) !in s.mail && Second(urb.address) !in s.mail
    case CancelUrb(_) => false
    case Giveback(_) => false
    case Registered(port, _) => First(port) in s.mail
  }

  /** With resets of registered ports only, an assertion trips exactly on misuse. */
  lemma PanicsOnlyOnMisuse(s: State, e: Event)
    requires Inv(s) && QueuedAreRegistered(s)
    ensures Step(s, e).Panicked? <==> Misuse(s, e)
  {
    if e.ProcessUrb? && TakesSetAddress(s.queue, e.urb) {
      SetAddressPanics(s, e.urb, e.handle);
    }
  }

  lemma SetAddressPanics(s: State, urb: Urb, handle: Handle)
    requires Inv(s) && s.queue != [] && First(s.queue[0]) in s.mail
    ensures OnSetAddress(s, urb, handle).Panicked? <==> NewAddress(urb) > MAX_ADDRESS || Third(handle) in s.mail
  {
    var k: MailKey := Second(NewAddress(urb));
    RemoveTakesOnlyThatKey(s.mail, Second(UNASSIGNED));
    LinkKeys(Remove(s.mail, Second(UNASSIGNED)), k, First(s.queue[0]));
  }

  lemma LinkKeys(mail: Mail, newKey: MailKey, existing: MailKey)
    requires WellFormed(mail)
    ensures Link(mail, newKey, existing).Keys == mail.Keys + if existing in mail then {newKey} else {}
  {
  }

  lemma QueuedStayRegistered(s: State, e: Event)
    requires Inv(s) && QueuedAreRegistered(s) && Step(s, e).Next?
    requires e.Stat? ==> First(e.stat.port) in s.mail
    ensures QueuedAreRegistered(Step(s, e).state)
  {
    var t := Step(s, e).state;
    forall p | p in s.queue
      ensures First(p) in t.mail
    {
      assert OnePort(s.mail[First(p)]) && AllInGroup(s.mail, s.mail[First(p)]);
      assert Leads(s.mail, First(p), p);
      RouteEndsOnlyThen(s, e, First(p), p);
    }
    if e.Stat? {
      assert Leads(s.mail, First(e.stat.port), e.stat.port);
      RouteEndsOnlyThen(s, e, First(e.stat.port), e.stat.port);
    }
  }

  /** Ports are never taken out, so dropping handles and addresses never drops a sender. */
  lemma SendersStay(s: State, k: MailKey)
    requires Inv(s) && !k.First?
    ensures Removed(s.mail, k) == None
  {
  }

  // ---- The event loop over its queue and its index ----

  /** Where an event's work item went, unless an assertion tripped. */
  datatype Delivery = Delivered(to: Option<Sender>) | Tripped

  class Demuxer {
    var registerQueue: seq<Port>
    const mailer: ThreeKeyMap<Port, Address, Handle, Sender>

    ghost predicate Valid()
      reads this, mailer
    {
      mailer.Valid()
    }

    ghost function Now(): State
      reads this, mailer
    {
      State(registerQueue, mailer.groups)
    }

    constructor ()
      ensures Valid() && fresh(mailer) && Now() == State([], map[])
    {
      registerQueue := [];
      mailer := new ThreeKeyMap();
    }

    /** The state moves, and the work item is delivered, as the step of the event says. */
    twostate predicate Performed(e: Event, d: Delivery)
      reads this, mailer
    {
      var r := Step(old(Now()), e);
      && (d.Tripped? <==> r.Panicked?)
      && (r.Next? ==> Valid() && Now() == r.state && d.to == r.to)
    }

    method OnPortStat(stat: PortStat) returns (d: Delivery)
      requires Valid()
      modifies this, mailer
      ensures Performed(Stat(stat), d)
    {
      if ResetDone(stat) && stat.port !in registerQueue {
        registerQueue := registerQueue + [stat.port];
        mailer.UnlinkAllButKey1(stat.port);
      }
      d := Delivered(mailer.GetByKey1(stat.port));
    }

    method OnProcessUrb(urb: Urb, handle: Handle) returns (d: Delivery)
      requires Valid()
      modifies this, mailer
      ensures Performed(ProcessUrb(urb, handle), d)
    {
      if urb.typ.Ctrl? && urb.address == UNASSIGNED && urb.anycast && registerQueue != [] && urb.isSetAddress {
        d := OnSetAddressUrb(urb, handle);
      } else if urb.typ.Ctrl? && urb.address == UNASSIGNED && registerQueue != [] {
        var port := registerQueue[0];
        var linked := mailer.LinkKey3ToKey1(handle, port);
        if !linked.Success? {
          return Tripped;
        }
        d := Delivered(mailer.GetByKey1(port));
      } else {
        var linked := mailer.LinkKey3ToKey2(handle, urb.address);
        if linked.ExistingKeyDoesNotExist? {
          return Tripped;
        }
        d := Delivered(mailer.GetByKey2(urb.address));
      }
    }

    method OnSetAddressUrb(urb: Urb, handle: Handle) returns (d: Delivery)
      requires Valid() && TakesSetAddress(registerQueue, urb)
      modifies this, mailer
      ensures Performed(ProcessUrb(urb, handle), d)
    {
      var address := urb.value % 256;
      if address > MAX_ADDRESS {
        return Tripped;
      }
      var port := registerQueue[0];
      registerQueue := registerQueue[1..];
      var _ := mailer.RemoveByKey2(UNASSIGNED);
      var _ := mailer.LinkKey2ToKey1(address, port);
      var linked := mailer.LinkKey3ToKey1(handle, port);
      if !linked.Success? {
        return Tripped;
      }
      d := Delivered(mailer.GetByKey1(port));
    }

    method OnCancelUrb(handle: Handle) returns (d: Delivery)
      requires Valid()
      modifies this, mailer
      ensures Performed(CancelUrb(handle), d)
    {
      d := Delivered(mailer.GetByKey3(handle));
      var _ := mailer.RemoveByKey3(handle);
    }

    method OnGiveback(handle: Handle) returns (d: Delivery)
      requires Valid()
      modifies this, mailer
      ensures Performed(Giveback(handle), d)
    {
      var _ := mailer.RemoveByKey3(handle);
      d := Delivered(None);
    }

    method OnRegistered(port: Port, sender: Sender) returns (d: Delivery)
      requires Valid()
      modifies this, mailer
      ensures Performed(Registered(port, sender), d)
    {
      var displaced := mailer.InsertByKey1(port, sender);
      d := if displaced.Some? then Tripped else Delivered(None);
    }
  }
}
