/** All proxy sessions of the process, together with the number allocator, the statistics registry, the
    valid-feeder snapshot and the clock they share, as one state machine.  I/O results, scheduling and
    the clock are chosen freely.  A registry operation is one step here; SessionSections runs the same
    machine with the two lock sections of an operation apart. */
module Sessions {
  import opened Common
  import opened Registry
  import Tracker

  type Byte = b: nat | b < 256

  const MAX_CONNECTIONS_PER_PROTO: nat := 1
  const BUFFER_SIZE: nat := 32000
  const READ_TIMEOUT: Time := SECOND
  const WRITE_TIMEOUT: Time := 2 * SECOND

  // ---------------------------------------------------------------------------------------------
  // One forwarding loop
  // ---------------------------------------------------------------------------------------------

  datatype LoopPc =
    | NotStarted
    | Launching                    // the goroutine is about to start its timer
    | Top                          // about to look at the context
    | ArmRead                      // about to set the read deadline
    | Read(deadline: Time)         // reading
    | ArmWrite(chunk: seq<Byte>)   // about to set the write deadline
    | Write(chunk: seq<Byte>, deadline: Time)   // writing what was read
    | Tally                        // about to update the byte counters
    | Auth                         // about to compare the clock with the last authentication
    | Lookup                       // about to look the key up
    | Stamp(found: Time)           // about to record the successful look-up made at `found`
    | Returned                     // about to cancel the session
    | Ended

  /** `began` and `previous` are when the current iteration and the one before it started; `sample` is the
      clock reading of the latest comparison with the last authentication; `armed` and `handed` are the
      readings the latest read and write deadlines were computed from, and `got` is when the latest chunk
      arrived. */
  datatype Loop = Loop(
    pc: LoopPc, iterations: nat, byteCount: U64, timer: Time, began: Time, previous: Time, sample: Time,
    armed: Time, got: Time, handed: Time, taken: seq<Byte>, lost: seq<Byte>)

  datatype LoopAct =
    | Launch
    | Enter                        // context not done: start an iteration
    | Quit                         // context done
    | SetReadDeadline
    | GotChunk(chunk: seq<Byte>)   // no later than the read deadline
    | GotNothing                   // read deadline exceeded
    | SetWriteDeadline
    | Wrote                        // no later than the write deadline
    | Fail                         // any other error of a read, a write or a deadline
    | Skip                         // less than a second since the last update
    | Report
    | Fresh                        // last authentication recent enough
    | Stale
    | StillValid
    | NoLongerValid
    | Record
    | CancelSession

  const IDLE := Loop(NotStarted, 0, 0, 0, 0, 0, 0, 0, 0, 0, [], [])

  predicate HasChunk(pc: LoopPc) {
    pc.ArmWrite? || pc.Write?
  }

  predicate Over(l: Loop) {
    l.pc.NotStarted? || l.pc.Ended?
  }

  // ---------------------------------------------------------------------------------------------
  // One session
  // ---------------------------------------------------------------------------------------------

  datatype Phase = New | LookedUp | Authenticated | Admitted | Sent | Running | Finished | GaveUp

  /** `validAt` is the time of the look-up behind the recorded `lastAuth`. */
  datatype Session = Session(
    phase: Phase, ticket: nat, num: nat, proto: Protocol, interval: nat,
    key: ApiKey, first: seq<Byte>, toServer: seq<Byte>, toClient: seq<Byte>,
    up: Loop, down: Loop, cancelled: bool, lastAuth: Time, validAt: Time,
    registrations: nat, unregistrations: nat, finalIn: U64, finalOut: U64)

  datatype Act =
    | LookUp(key: ApiKey, first: seq<Byte>)
    | Authenticate(labelText: string, code: string)
    | Admit
    | SendFirst
    | Register(src: string, dst: string, connected: Time)
    | GiveUp
    | Cancel
    | LoopDoes(up: bool, act: LoopAct)
    | Teardown

  function KeyFor(t: Session): FlatKey {
    FlatKey(t.key, t.proto, t.num)
  }

  function ConnFor(t: Session, src: string, dst: string): Connection {
    Connection(t.key, src, dst, t.proto, "", t.num)
  }

  function LoopOf(t: Session, up: bool): Loop {
    if up then t.up else t.down
  }

  function WithLoop(t: Session, up: bool, l: Loop): Session {
    if up then t.(up := l) else t.(down := l)
  }

  /** The registry operation an action performs, if any. */
  function OpFor(t: Session, a: Act, at: Time): Option<Op> {
    match a
    case Authenticate(labelText, code) => Some(RegisterFeeder(FeederDetails(t.key, labelText, code), at))
    case Register(src, dst, connected) => Some(RegisterConnection(ConnFor(t, src, dst), connected, at))
    case Teardown => Some(UnregisterConnection(ConnFor(t, "", ""), at))
    case LoopDoes(up, act) =>
      if !act.Report? then None
      else
        var bytesIn, bytesOut := if up then t.up.byteCount else 0, if up then 0 else t.down.byteCount;
        Some(AddBytes(t.key, t.num, t.proto, bytesIn, bytesOut, at))
    case _ => None
  }

  predicate LoopAllowed(t: Session, up: bool, act: LoopAct, at: Time, valid: set<ApiKey>) {
    var l := LoopOf(t, up);
    match act
    case Launch => l.pc == Launching
    case Enter => l.pc == Top && !t.cancelled
    case Quit => l.pc == Top && t.cancelled
    case SetReadDeadline => l.pc == ArmRead
    case GotChunk(chunk) => l.pc.Read? && |chunk| <= BUFFER_SIZE && at <= l.pc.deadline
    case GotNothing => l.pc.Read? && at >= l.pc.deadline
    case SetWriteDeadline => l.pc.ArmWrite?
    case Wrote => l.pc.Write? && at <= l.pc.deadline
    case Fail => l.pc.ArmRead? || l.pc.Read? || HasChunk(l.pc)
    case Skip => l.pc == Tally && !(at > l.timer + SECOND)
    case Report => l.pc == Tally && at > l.timer + SECOND
    case Fresh => l.pc == Auth && !(at > t.lastAuth + t.interval)
    case Stale => l.pc == Auth && at > t.lastAuth + t.interval
    case StillValid => l.pc == Lookup && t.key in valid
    case NoLongerValid => l.pc == Lookup && t.key !in valid
    case Record => l.pc.Stamp?
    case CancelSession => l.pc == Returned
  }

  function LoopNext(l: Loop, act: LoopAct, at: Time, o: Outcome): Loop {
    match act
    case Launch => l.(pc := Top, timer := at)
    case Enter => l.(pc := ArmRead, iterations := l.iterations + 1, previous := l.began, began := at)
    case Quit => l.(pc := Returned)
    case SetReadDeadline => l.(pc := Read(at + READ_TIMEOUT), armed := at)
    case GotChunk(chunk) => l.(pc := ArmWrite(chunk), got := at, taken := l.taken + chunk)
    case GotNothing => l.(pc := Tally)
    case SetWriteDeadline => if l.pc.ArmWrite? then l.(pc := Write(l.pc.chunk, at + WRITE_TIMEOUT), handed := at) else l
    case Wrote =>
      if l.pc.Write? then l.(pc := Tally, byteCount := Add64(l.byteCount, |l.pc.chunk| % TWO_TO_THE_64)) else l
    case Fail => l.(pc := Returned, lost := if HasChunk(l.pc) then l.pc.chunk else [])
    case Skip => l.(pc := Auth)
    case Report =>
      if o == Done then l.(pc := Auth, timer := at, byteCount := 0) else l.(pc := Returned, timer := at)
    case Fresh => l.(pc := Top, sample := at)
    case Stale => l.(pc := Lookup)
    case StillValid => l.(pc := Stamp(at))
    case NoLongerValid => l.(pc := Returned)
    case Record => l.(pc := Top, sample := at)
    case CancelSession => l.(pc := Ended)
  }

  function LoopEffect(t: Session, up: bool, act: LoopAct, at: Time, o: Outcome): Session {
    var l := LoopOf(t, up);
    var t' := WithLoop(t, up, LoopNext(l, act, at, o));
    match act
    case Wrote =>
      if !l.pc.Write? then t'
      else if up then t'.(toServer := t.toServer + l.pc.chunk)
      else t'.(toClient := t.toClient + l.pc.chunk)
    case Record => if l.pc.Stamp? then t'.(lastAuth := at, validAt := l.pc.found) else t'
    case CancelSession => t'.(cancelled := true)
    case _ => t'
  }

  /** A loop whose goroutine was created at `at`; it reads the clock for its timer when it starts. */
  function Started(at: Time, lastAuth: Time): Loop {
    Loop(Launching, 0, 0, at, at, at, lastAuth, at, at, at, [], [])
  }

  /** The session after an action, given the outcome of its registry operation and, for the teardown,
      the counters the registry held. */
  function Effect(t: Session, a: Act, at: Time, o: Outcome, bytesIn: U64, bytesOut: U64): Session {
    match a
    case LookUp(key, first) => t.(phase := LookedUp, key := key, first := first, validAt := at)
    case Authenticate(_, _) => if o == Done then t.(phase := Authenticated) else t.(phase := GaveUp)
    case Admit => t.(phase := Admitted, lastAuth := at)
    case SendFirst => t.(phase := Sent, toServer := t.first)
    case Register(_, _, _) =>
      if o != Done then t.(phase := GaveUp)
      else t.(phase := Running, registrations := t.registrations + 1,
              up := Started(at, t.lastAuth), down := if t.proto == MLAT then Started(at, t.lastAuth) else IDLE)
    case GiveUp => t.(phase := GaveUp)
    case Cancel => t.(cancelled := true)
    case LoopDoes(up, act) => LoopEffect(t, up, act, at, o)
    case Teardown =>
      t.(phase := Finished, unregistrations := t.unregistrations + (if o == Done then 1 else 0),
         finalIn := bytesIn, finalOut := bytesOut)
  }

  // ---------------------------------------------------------------------------------------------
  // The whole process
  // ---------------------------------------------------------------------------------------------

  /** M is the number of values of a connection number; `advance` counts the increments of the number
      counter since start-up.  For a key that is not valid now, `revoked` is when it left the valid set. */
  datatype State = State(
    M: nat, now: Time, counter: nat, advance: nat, reg: Statistics,
    valid: set<ApiKey>, revoked: map<ApiKey, Time>, sessions: map<nat, Session>)

  datatype Step =
    | Accept(id: nat, increments: nat, proto: Protocol, interval: nat, at: Time)
    | Does(id: nat, a: Act, at: Time)
    | UpdateValid(keys: set<ApiKey>, at: Time)
    | EvictFeeders(readings: map<ApiKey, Time>, at: Time)

  ghost function Pending(s: State, key: ApiKey, proto: Protocol): set<nat> {
    set i | i in s.sessions && s.sessions[i].key == key && s.sessions[i].proto == proto
            && (s.sessions[i].phase == Admitted || s.sessions[i].phase == Sent)
  }

  ghost function Live(s: State, key: ApiKey, proto: Protocol): set<nat> {
    set i | i in s.sessions && s.sessions[i].key == key && s.sessions[i].proto == proto
            && s.sessions[i].phase == Running
  }

  /** K bounds the sessions of one feeder and protocol between the limit check and registration. */
  ghost predicate Allowed(K: nat, s: State, t: Session, a: Act, at: Time) {
    match a
    case LookUp(key, first) => t.phase == New && key in s.valid && |first| <= BUFFER_SIZE
    case Authenticate(_, _) => t.phase == LookedUp
    case Admit =>
      t.phase == Authenticated
      && GetNumConnections(s.reg, t.key, t.proto) < MAX_CONNECTIONS_PER_PROTO && |Pending(s, t.key, t.proto)| < K
    case SendFirst => t.phase == Admitted && ValidProtocol(t.proto)
    case Register(_, _, _) => t.phase == Sent
    case GiveUp => t.phase == New || t.phase == LookedUp || t.phase == Authenticated || t.phase == Admitted
    case Cancel => true
    case LoopDoes(up, act) => t.phase == Running && LoopAllowed(t, up, act, at, s.valid)
    case Teardown => t.phase == Running && t.cancelled && Over(t.up) && Over(t.down)
  }

  ghost predicate Enabled(K: nat, s: State, step: Step) {
    && s.now <= step.at
    && match step
       case Accept(id, increments, _, _, _) => id !in s.sessions && increments >= 1
       case Does(id, a, at) => id in s.sessions && Allowed(K, s, s.sessions[id], a, at)
       case UpdateValid(_, _) => true
       case EvictFeeders(_, _) => true
  }

  function NewSession(ticket: nat, num: nat, proto: Protocol, interval: nat): Session {
    Session(New, ticket, num, proto, interval, ApiKey(0), [], [], [], IDLE, IDLE, false, 0, 0, 0, 0, 0, 0)
  }

  function BytesOf(reg: Statistics, fk: FlatKey): (U64, U64) {
    if Has(reg, fk) then (Get(reg, fk).bytesIn, Get(reg, fk).bytesOut) else (0, 0)
  }

  function RegAfter(reg: Statistics, op: Option<Op>): (Statistics, Outcome) {
    if op.None? then (reg, Done) else Apply(reg, op.value)
  }

  ghost function Fire(s: State, step: Step): State {
    match step
    case Accept(id, increments, proto, interval, at) =>
      if s.M < 2 || s.counter >= s.M then s
      else
        var num := Tracker.Candidate(s.M, s.counter, increments);
        s.(now := at, counter := num, advance := s.advance + increments,
           sessions := s.sessions[id := NewSession(s.advance + increments, num, proto, interval)])
    case Does(id, a, at) =>
      if id !in s.sessions then s
      else
        var t := s.sessions[id];
        var (reg, o) := RegAfter(s.reg, OpFor(t, a, at));
        var (bytesIn, bytesOut) := BytesOf(s.reg, KeyFor(t));
        s.(now := at, reg := reg, sessions := s.sessions[id := Effect(t, a, at, o, bytesIn, bytesOut)])
    case UpdateValid(keys, at) =>
      s.(now := at, valid := keys,
         revoked := map k | k in s.revoked.Keys + s.valid :: if k in s.valid then at else s.revoked[k])
    case EvictFeeders(readings, at) =>
      s.(now := at, reg := EvictStale(s.reg, readings))
  }

  ghost function After(s: State, steps: seq<Step>): State {
    if steps == [] then s else Fire(After(s, steps[..|steps| - 1]), steps[|steps| - 1])
  }

  ghost predicate IsRun(K: nat, s: State, steps: seq<Step>) {
    steps == [] ||
    (IsRun(K, s, steps[..|steps| - 1]) && Enabled(K, After(s, steps[..|steps| - 1]), steps[|steps| - 1]))
  }

  ghost predicate Start(s: State) {
    s.M >= 2 && s.counter == 0 && s.advance == 0 && s.sessions == map[] && s.revoked == map[]
    && s.reg == Statistics(true, map[], 0, 0, 0, 0)
  }

  // ---- building runs

  lemma NoSteps(K: nat, s: State)
    ensures IsRun(K, s, []) && After(s, []) == s
  {
  }

  lemma OneMore(K: nat, s: State, steps: seq<Step>, step: Step)
    requires IsRun(K, s, steps) && Enabled(K, After(s, steps), step)
    ensures IsRun(K, s, steps + [step]) && After(s, steps + [step]) == Fire(After(s, steps), step)
  {
    assert (steps + [step])[..|steps|] == steps;
  }
}
