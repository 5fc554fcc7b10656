/**
 The sending loops of both peers: frames gather in the handler's buffer, a timer decides when the
 buffer is flushed, and while a flush is under way the writer is out of reach.
 */
module SendLoops {
  import opened Wrappers
  import opened Wire

  datatype Role = Borrower | Lender

  datatype Phase = Solicit | Timer | Flush

  /**
   `Work` is an event whose handling appended `bytes` (the borrower may append nothing); the borrower's
   `StartAddress` begins a SET_ADDRESS giveback, which `AddressSet` ends.
   */
  datatype Event =
    | Work(bytes: Bytes)
    | StartAddress
    | AddressSet
    | FlushBuf
    | FlushComplete

  datatype State = State(phase: Phase, buf: Bytes, inFlight: Bytes, written: Bytes, settingAddress: bool)

  const START := State(Solicit, [], [], [], false)

  /** The events the loop waits for in a state. Handling a completed transfer always appends a frame. */
  predicate Enabled(role: Role, s: State, e: Event) {
    match e
    case Work(bytes) => role.Lender? ==> bytes != []
    case StartAddress => role.Borrower?
    case AddressSet => role.Borrower? && s.settingAddress
    case FlushBuf => s.phase.Timer?
    case FlushComplete => s.phase.Flush?
  }

  function Step(role: Role, s: State, e: Event): State {
    match e
    case Work(bytes) =>
      var buf := s.buf + bytes;
      var arm := s.phase.Solicit? && (role.Lender? || buf != []);
      s.(buf := buf, phase := if arm then Timer else s.phase)
    case StartAddress => s.(settingAddress := true)
    case AddressSet => s.(settingAddress := false)
    case FlushBuf => s.(inFlight := s.buf, buf := [], phase := Flush)
    case FlushComplete =>
      s.(written := s.written + s.inFlight, inFlight := [], phase := if s.buf == [] then Solicit else Timer)
  }

  // ---- What every step keeps ----

  ghost predicate Inv(s: State) {
    && (s.phase.Solicit? ==> s.buf == [])
    && (s.phase.Timer? ==> s.buf != [])
    && (s.phase.Flush? <==> s.inFlight != [])
  }

  /** Everything appended so far, in order. */
  function Everything(s: State): Bytes {
    s.written + s.inFlight + s.buf
  }

  function Appended(e: Event): Bytes {
    if e.Work? then e.bytes else []
  }

  lemma StepKeepsInv(role: Role, s: State, e: Event)
    requires Inv(s) && Enabled(role, s, e)
    ensures Inv(Step(role, s, e))
    ensures Everything(Step(role, s, e)) == Everything(s) + Appended(e)
    ensures s.written <= Step(role, s, e).written
  {
  }

  /** Nothing is stranded: while bytes are unwritten the loop waits for its timer or its writer. */
  lemma NothingStranded(role: Role, s: State)
    requires Inv(s) && s.written != Everything(s)
    ensures Enabled(role, s, FlushBuf) || Enabled(role, s, FlushComplete)
  {
  }

  // ---- Runs ----

  predicate CanRun(role: Role, s: State, es: seq<Event>)
    decreases |es|
  {
    es == [] || (Enabled(role, s, es[0]) && CanRun(role, Step(role, s, es[0]), es[1..]))
  }

  function Run(role: Role, s: State, es: seq<Event>): State
    decreases |es|
  {
    if es == [] then s else Run(role, Step(role, s, es[0]), es[1..])
  }

  function AllAppended(es: seq<Event>): Bytes {
    if es == [] then [] else Appended(es[0]) + AllAppended(es[1..])
  }

  lemma Associate<T>(a: seq<T>, b: seq<T>, c: seq<T>)
    ensures (a + b) + c == a + (b + c)
  {
  }

  /** Bytes are neither lost nor reordered nor duplicated. */
  lemma {:induction false} RunConserves(role: Role, s: State, es: seq<Event>)
    requires Inv(s) && CanRun(role, s, es)
    ensures Inv(Run(role, s, es))
    ensures Everything(Run(role, s, es)) == Everything(s) + AllAppended(es)
    ensures s.written <= Run(role, s, es).written
    decreases |es|
  {
    if es != [] {
      StepKeepsInv(role, s, es[0]);
      RunConserves(role, Step(role, s, es[0]), es[1..]);
      Associate(Everything(s), Appended(es[0]), AllAppended(es[1..]));
    }
  }

  /** The last that happened to a SET_ADDRESS along the run, or `before` if nothing did. */
  function LastAddress(before: bool, es: seq<Event>): bool
    decreases |es|
  {
    if es == [] then before
    else LastAddress(if es[0] == StartAddress then true else if es[0] == AddressSet then false else before, es[1..])
  }

  /** A SET_ADDRESS is under way exactly from its start to its end, whatever is sent meanwhile. */
  lemma {:induction false} AddressIsSetInBetween(role: Role, s: State, es: seq<Event>)
    requires CanRun(role, s, es)
    ensures Run(role, s, es).settingAddress == LastAddress(s.settingAddress, es)
    ensures Enabled(role, Run(role, s, es), AddressSet) <==> role == Borrower && LastAddress(s.settingAddress, es)
    decreases |es|
  {
    if es != [] {
      AddressIsSetInBetween(role, Step(role, s, es[0]), es[1..]);
    }
  }

  // ---- How long a byte waits ----

  /** A timer or writer event. */
  predicate IsTurn(e: Event) {
    e.FlushBuf? || e.FlushComplete?
  }

  function Turns(es: seq<Event>): nat {
    if es == [] then 0 else (if IsTurn(es[0]) then 1 else 0) + Turns(es[1..])
  }

  /** How many turns the first `n` bytes are away from being written. */
  function Distance(s: State, n: nat): nat {
    if n <= |s.written| then 0
    else if n <= |s.written + s.inFlight| then 1
    else if s.phase.Timer? then 2
    else 3
  }

  lemma StepApproaches(role: Role, s: State, e: Event, n: nat)
    requires Inv(s) && Enabled(role, s, e) && n <= |Everything(s)|
    ensures Distance(Step(role, s, e), n) ==
            if IsTurn(e) && Distance(s, n) > 0 then Distance(s, n) - 1 else Distance(s, n)
  {
  }

  /**
   The first `n` bytes are written after exactly as many turns as their distance, whatever work comes
   in between: at most three, and two unless a flush was under way that they missed.
   */
  lemma {:induction false} WrittenAfterDistance(role: Role, s: State, es: seq<Event>, n: nat)
    requires Inv(s) && CanRun(role, s, es) && n <= |Everything(s)|
    ensures n <= |Run(role, s, es).written| <==> Distance(s, n) <= Turns(es)
    ensures Distance(s, n) <= if s.phase.Flush? then 3 else 2
    decreases |es|
  {
    if es != [] {
      StepKeepsInv(role, s, es[0]);
      StepApproaches(role, s, es[0], n);
      WrittenAfterDistance(role, Step(role, s, es[0]), es[1..], n);
    }
  }

  // ---- The loop ----

  /** The writing end of a stream, with what it has written. */
  datatype Writer = Writer(written: Bytes)

  class SendLoop {
    const role: Role
    var state: Phase
    var txHolder: Option<Writer>
    /** Armed timer, write under way (the writer and the bytes), and SET_ADDRESS under way. */
    var sleeper: bool
    var flusher: Option<(Writer, Bytes)>
    var addrSetter: bool
    /** The handler's buffer. */
    var buf: Bytes

    /** The writer is at hand exactly when no flush is under way. */
    ghost predicate Valid()
      reads this
    {
      && (txHolder.Some? <==> !state.Flush?)
      && (flusher.Some? <==> state.Flush?)
      && (sleeper <==> state.Timer?)
      && Inv(Now())
    }

    ghost function Now(): State
      reads this
    {
      var writer := if txHolder.Some? then txHolder.value else if flusher.Some? then flusher.value.0 else Writer([]);
      State(state, buf, if flusher.Some? then flusher.value.1 else [], writer.written, addrSetter)
    }

    constructor (role: Role)
      ensures Valid() && this.role == role && Now() == START
    {
      this.role := role;
      state, txHolder, sleeper, flusher, addrSetter, buf := Solicit, Some(Writer([])), false, None, false, [];
    }

    method OnWork(bytes: Bytes)
      requires Valid() && Enabled(role, Now(), Work(bytes))
      modifies this
      ensures Valid() && Now() == Step(role, old(Now()), Work(bytes))
    {
      buf := buf + bytes;
      if state.Solicit? && (role.Lender? || buf != []) {
        sleeper := true;
        state := Timer;
      }
    }

    method OnSetAddress()
      requires Valid() && role.Borrower?
      modifies this
      ensures Valid() && Now() == Step(role, old(Now()), StartAddress)
    {
      addrSetter := true;
    }

    method OnAddressSet()
      requires Valid() && Enabled(role, Now(), AddressSet)
      modifies this
      ensures Valid() && Now() == Step(role, old(Now()), AddressSet)
    {
      addrSetter := false;
    }

    /** Takes the writer, which is there, and the whole buffer. */
    method OnFlushBuf()
      requires Valid() && Enabled(role, Now(), FlushBuf)
      modifies this
      ensures Valid() && Now() == Step(role, old(Now()), FlushBuf)
    {
      sleeper := false;
      var tx := txHolder.value;
      txHolder := None;
      var bytes := buf;
      buf := [];
      flusher := Some((tx, bytes));
      state := Flush;
    }

    method OnFlushComplete()
      requires Valid() && Enabled(role, Now(), FlushComplete)
      modifies this
      ensures Valid() && Now() == Step(role, old(Now()), FlushComplete)
    {
      var (tx, bytes) := flusher.value;
      flusher := None;
      txHolder := Some(Writer(tx.written + bytes));
      if buf == [] {
        state := Solicit;
      } else {
        sleeper := true;
        state := Timer;
      }
    }

    method DoLoop(events: seq<Event>)
      requires Valid() && CanRun(role, Now(), events)
      modifies this
      ensures Valid() && Now() == Run(role, old(Now()), events)
    {
      var i := 0;
      while i < |events|
        invariant 0 <= i <= |events| && Valid()
        invariant CanRun(role, Now(), events[i..])
        invariant Run(role, Now(), events[i..]) == Run(role, old(Now()), events)
      {
        assert events[i..][0] == events[i] && events[i..][1..] == events[i + 1..];
        match events[i] {
          case Work(bytes) => OnWork(bytes);
          case StartAddress => OnSetAddress();
          case AddressSet => OnAddressSet();
          case FlushBuf => OnFlushBuf();
          case FlushComplete => OnFlushComplete();
        }
        i := i + 1;
      }
    }
  }
}
