/** The forwarding loop as it is written: a reused buffer, a byte count, a timer and a time stamp behind a
    pointer.  What the environment answers in each iteration, and what the clock reads, is given as a turn.
    The loop is proved to extend a run of the session machine, on the real registry, and to deliver exactly
    the chunks that were read and written. */
module ProtocolProxy {
  import opened Common
  import opened Registry
  import opened Sessions
  import FeederDb
  import RegistryHeap
  import SessionStreams

  datatype ReadResult = Data(bytes: seq<Byte>) | DeadlineExceeded | ReadError

  /** The environment's answers and the clock readings of one iteration, in the order they come about: the
      reading for the read deadline, the return of the read, the reading for the write deadline, the return of
      the write, two readings for the update of the counters, and those of the validity check, before which the
      list of valid feeders was last polled with this outcome. */
  datatype Turn = Turn(
    cancelled: bool, readDeadlineSet: bool, read: ReadResult, writeDeadlineSet: bool, written: bool,
    poll: FeederDb.Fetch, armed: Time, got: Time, handed: Time, wrote: Time,
    tick: Time, tock: Time, asked: Time, lookedUp: Time, stamped: Time)

  datatype ProxyError = DeadlineNotSet | NotRead | NotWritten | NotCounted(error: Error) | FeederNoLongerValid

  datatype Exit = StillRunning | ContextDone | Stopped(error: ProxyError)

  /** The buffer holds any chunk that can be read, the clock does not go back, and reads and writes keep
      their deadlines. */
  predicate Plausible(turn: Turn) {
    && turn.armed <= turn.got <= turn.handed <= turn.wrote <= turn.tick <= turn.tock
    && turn.tock <= turn.asked <= turn.lookedUp <= turn.stamped
    && (turn.read.Data? ==> |turn.read.bytes| <= BUFFER_SIZE && turn.got <= turn.armed + READ_TIMEOUT)
    && (turn.read.DeadlineExceeded? ==> turn.got >= turn.armed + READ_TIMEOUT)
    && (turn.written ==> turn.wrote <= turn.handed + WRITE_TIMEOUT)
  }

  /** The keys that are valid when the iteration makes its check: none after a failed poll. */
  ghost function Listed(turn: Turn): set<ApiKey> {
    FeederDb.Keys(FeederDb.StoredBy(turn.poll))
  }

  /** The turns follow each other, the first no earlier than `now`. */
  predicate InOrder(turns: seq<Turn>, now: Time) {
    forall i :: 0 <= i < |turns| ==> Plausible(turns[i]) && EndBefore(turns, now, i) <= turns[i].armed
  }

  function EndBefore(turns: seq<Turn>, now: Time, i: nat): Time
    requires i <= |turns|
  {
    if i == 0 then now else turns[i - 1].stamped
  }

  /** The chunk an iteration delivers. */
  function Delivered(turn: Turn): seq<Byte> {
    if !turn.cancelled && turn.readDeadlineSet && turn.read.Data? && turn.writeDeadlineSet && turn.written
    then turn.read.bytes else []
  }

  function AllDelivered(turns: seq<Turn>): seq<Byte> {
    if turns == [] then [] else AllDelivered(turns[..|turns| - 1]) + Delivered(turns[|turns| - 1])
  }

  // ---- when the loop goes on, and why it stops

  /** The error with which bytes for a connection are not counted, if the registry does not hold it. */
  function MissingCounter(s: Statistics, fk: FlatKey): Option<Error> {
    if fk.key !in s.feeders then Some(APIKeyNotFound)
    else if fk.proto !in s.feeders[fk.key].connections then Some(ProtoNotFound)
    else if fk.num !in s.feeders[fk.key].connections[fk.proto].details then Some(ConnNumNotFound)
    else None
  }

  /** Nothing failed in reading and writing; that nothing came before the read deadline is no failure. */
  predicate GoesThrough(turn: Turn) {
    && !turn.cancelled && turn.readDeadlineSet
    && (turn.read.DeadlineExceeded? || (turn.read.Data? && turn.writeDeadlineSet && turn.written))
  }

  /** How an iteration ends, given the timer, the time of the last authentication, how long that is good for,
      and what is missing in the registry. */
  ghost function ExitOf(turn: Turn, timer: Time, lastAuth: Time, interval: nat, key: ApiKey, missing: Option<Error>)
    : Exit
  {
    if turn.cancelled then ContextDone
    else if !turn.readDeadlineSet then Stopped(DeadlineNotSet)
    else if turn.read.ReadError? then Stopped(NotRead)
    else if turn.read.Data? && !turn.writeDeadlineSet then Stopped(DeadlineNotSet)
    else if turn.read.Data? && !turn.written then Stopped(NotWritten)
    else if missing.Some? && turn.tick > timer + SECOND then Stopped(NotCounted(missing.value))
    else if turn.asked > lastAuth + interval && key !in Listed(turn) then Stopped(FeederNoLongerValid)
    else StillRunning
  }

  /** The loop goes on if and only if it was not cancelled, nothing failed in reading and writing, a report
      that is due finds its counter, and the key is listed if it is time to look it up; an exceeded read
      deadline alone never ends it.  Each reason to stop is given exactly when it applies. */
  lemma GoesOnIff(turn: Turn, timer: Time, lastAuth: Time, interval: nat, key: ApiKey, missing: Option<Error>)
    ensures var exit := ExitOf(turn, timer, lastAuth, interval, key, missing);
            var counted := turn.tick <= timer + SECOND || missing.None?;
            && (exit == StillRunning <==>
                  !turn.cancelled && turn.readDeadlineSet && !turn.read.ReadError?
                  && (turn.read.Data? ==> turn.writeDeadlineSet && turn.written) && counted
                  && (turn.asked > lastAuth + interval ==> key in Listed(turn)))
            && (exit == ContextDone <==> turn.cancelled)
            && (exit == Stopped(DeadlineNotSet) <==>
                  !turn.cancelled && (!turn.readDeadlineSet || (turn.read.Data? && !turn.writeDeadlineSet)))
            && (exit == Stopped(NotRead) <==> !turn.cancelled && turn.readDeadlineSet && turn.read.ReadError?)
            && (exit == Stopped(NotWritten) <==>
                  !turn.cancelled && turn.readDeadlineSet && turn.read.Data? && turn.writeDeadlineSet && !turn.written)
            && (forall e :: exit == Stopped(NotCounted(e)) <==>
                  GoesThrough(turn) && turn.tick > timer + SECOND && missing == Some(e))
            && (exit == Stopped(FeederNoLongerValid) <==>
                  GoesThrough(turn) && counted && turn.asked > lastAuth + interval && key !in Listed(turn))
  {
    hide Listed;
  }

  /** The timer and the last authentication when turn i begins, if the loop gets that far. */
  function TimerAt(turns: seq<Turn>, start: Time, i: nat): Time
    requires i <= |turns|
  {
    if i == 0 then start
    else
      var timer := TimerAt(turns, start, i - 1);
      if turns[i - 1].tick > timer + SECOND then turns[i - 1].tock else timer
  }

  function LastAuthAt(turns: seq<Turn>, lastAuth: Time, interval: nat, i: nat): Time
    requires i <= |turns|
  {
    if i == 0 then lastAuth
    else
      var before := LastAuthAt(turns, lastAuth, interval, i - 1);
      if turns[i - 1].asked > before + interval then turns[i - 1].stamped else before
  }

  /** How turn i ends, if the loop gets that far. */
  ghost function ExitAt(turns: seq<Turn>, i: nat, start: Time, lastAuth: Time, interval: nat, key: ApiKey,
                        missing: Option<Error>)
    : Exit
    requires i < |turns|
  {
    ExitOf(turns[i], TimerAt(turns, start, i), LastAuthAt(turns, lastAuth, interval, i), interval, key, missing)
  }

  /** None of the turns used so far ends the loop, except the last one if it has stopped, as that turn says. */
  ghost predicate StopsBy(turns: seq<Turn>, used: nat, exit: Exit, start: Time, lastAuth: Time, interval: nat,
                          key: ApiKey, missing: Option<Error>)
  {
    && used <= |turns|
    && (forall i: nat :: i < used && (i + 1 < used || exit == StillRunning) ==>
          ExitAt(turns, i, start, lastAuth, interval, key, missing) == StillRunning)
    && (exit != StillRunning ==> used > 0 && exit == ExitAt(turns, used - 1, start, lastAuth, interval, key, missing))
  }

  /** The loop ends with the first turn that ends it, as that turn says, or uses up all turns. */
  ghost predicate StopsFirst(turns: seq<Turn>, used: nat, exit: Exit, start: Time, lastAuth: Time, interval: nat,
                             key: ApiKey, missing: Option<Error>)
  {
    StopsBy(turns, used, exit, start, lastAuth, interval, key, missing) && (exit == StillRunning ==> used == |turns|)
  }

  lemma OneMoreTurn(turns: seq<Turn>, used: nat, exit: Exit, start: Time, lastAuth: Time, interval: nat,
                    key: ApiKey, missing: Option<Error>)
    requires used < |turns| && StopsBy(turns, used, StillRunning, start, lastAuth, interval, key, missing)
    requires exit == ExitAt(turns, used, start, lastAuth, interval, key, missing)
    ensures StopsBy(turns, used + 1, exit, start, lastAuth, interval, key, missing)
  {
    hide ExitAt;
  }

  /** So where a loop ends and why is determined by its turns, and it uses them all if and only if none of
      them has a reason to stop. */
  lemma StopIsDetermined(turns: seq<Turn>, used: nat, exit: Exit, used': nat, exit': Exit, start: Time, lastAuth: Time,
                         interval: nat, key: ApiKey, missing: Option<Error>)
    requires StopsFirst(turns, used, exit, start, lastAuth, interval, key, missing)
    requires StopsFirst(turns, used', exit', start, lastAuth, interval, key, missing)
    ensures used == used' && exit == exit'
    ensures exit == StillRunning <==>
              forall i: nat :: i < |turns| ==>
                ExitAt(turns, i, start, lastAuth, interval, key, missing) == StillRunning
  {
    hide ExitAt;
  }

  /** A registered and listed feeder may stay silent for any number of turns, and the loop goes on. */
  lemma SilenceIsNoReason(turns: seq<Turn>, used: nat, exit: Exit, start: Time, lastAuth: Time, interval: nat,
                          key: ApiKey, missing: Option<Error>)
    requires StopsFirst(turns, used, exit, start, lastAuth, interval, key, missing)
    requires forall i :: 0 <= i < |turns| ==>
               && !turns[i].cancelled && turns[i].readDeadlineSet && turns[i].read.DeadlineExceeded?
               && key in Listed(turns[i])
    requires missing.None?
    ensures exit == StillRunning && used == |turns|
  {
    hide Listed, TimerAt, LastAuthAt;
  }

  // ---- a run of the session machine, seen from one of its sessions

  datatype Trace = Trace(K: nat, s: State, id: nat, steps: seq<Step>)

  ghost function Here(tr: Trace): State {
    After(tr.s, tr.steps)
  }

  ghost predicate Runs(tr: Trace) {
    IsRun(tr.K, tr.s, tr.steps) && tr.id in Here(tr).sessions && Here(tr).sessions[tr.id].phase == Running
  }

  ghost function Own(tr: Trace): Session
    requires Runs(tr)
  {
    Here(tr).sessions[tr.id]
  }

  ghost predicate Extends(tr: Trace, longer: Trace) {
    && Runs(longer) && longer.K == tr.K && longer.s == tr.s && longer.id == tr.id && tr.steps <= longer.steps
    && Here(longer).advance == Here(tr).advance
  }

  ghost function Plus(tr: Trace, step: Step): Trace {
    tr.(steps := tr.steps + [step])
  }

  lemma Fired(tr: Trace, step: Step)
    requires Runs(tr) && Enabled(tr.K, Here(tr), step)
    ensures IsRun(tr.K, tr.s, Plus(tr, step).steps) && Here(Plus(tr, step)) == Fire(Here(tr), step)
  {
    assert Plus(tr, step).steps[..|tr.steps|] == tr.steps;
  }

  function Stream(t: Session, up: bool): seq<Byte> {
    if up then t.toServer else t.toClient
  }

  /** What a step of a loop does to its session, beside the loop itself. */
  predicate Moved(t: Session, t': Session, up: bool, act: LoopAct, at: Time, o: Outcome) {
    && KeyFor(t') == KeyFor(t) && t'.interval == t.interval
    && LoopOf(t', up) == LoopNext(LoopOf(t, up), act, at, o)
    && t'.lastAuth == (if act.Record? && LoopOf(t, up).pc.Stamp? then at else t.lastAuth)
    && Stream(t', up) == Stream(t, up) + (if act.Wrote? && LoopOf(t, up).pc.Write? then LoopOf(t, up).pc.chunk else [])
    && t'.cancelled == (t.cancelled || act.CancelSession?)
  }

  lemma LoopMoves(t: Session, up: bool, act: LoopAct, at: Time, o: Outcome)
    ensures Moved(t, LoopEffect(t, up, act, at, o), up, act, at, o)
    ensures LoopEffect(t, up, act, at, o).phase == t.phase
  {
    hide LoopNext;
  }

  /** One more step of the loop, other than a report. */
  lemma Then(base: Trace, tr: Trace, up: bool, act: LoopAct, at: Time) returns (longer: Trace)
    requires Runs(tr) && Extends(base, tr) && !act.Report?
    requires Here(tr).now <= at && LoopAllowed(Own(tr), up, act, at, Here(tr).valid)
    ensures Runs(longer) && Extends(base, longer) && Moved(Own(tr), Own(longer), up, act, at, Done)
    ensures Here(longer).now == at && Here(longer).reg == Here(tr).reg && Here(longer).valid == Here(tr).valid
  {
    hide After, IsRun, LoopAllowed, Apply, BytesOf, LoopEffect, Moved;
    var step := Does(tr.id, LoopDoes(up, act), at);
    Fired(tr, step);
    LoopMoves(Own(tr), up, act, at, Done);
    longer := Plus(tr, step);
    Longer(base, tr, longer);
  }

  lemma ThenReport(base: Trace, tr: Trace, up: bool, at: Time) returns (longer: Trace)
    requires Runs(tr) && Extends(base, tr) && Here(tr).now <= at && LoopAllowed(Own(tr), up, Report, at, Here(tr).valid)
    ensures var (reg, o) := RegAfter(Here(tr).reg, OpFor(Own(tr), LoopDoes(up, Report), at));
            && Runs(longer) && Extends(base, longer) && Moved(Own(tr), Own(longer), up, Report, at, o)
            && Here(longer).now == at && Here(longer).reg == reg && Here(longer).valid == Here(tr).valid
  {
    hide After, IsRun, LoopAllowed, Apply, BytesOf, LoopEffect, OpFor, Moved;
    var step := Does(tr.id, LoopDoes(up, Report), at);
    Fired(tr, step);
    LoopMoves(Own(tr), up, Report, at, RegAfter(Here(tr).reg, OpFor(Own(tr), LoopDoes(up, Report), at)).1);
    longer := Plus(tr, step);
    Longer(base, tr, longer);
  }

  /** The session is cancelled from outside. */
  lemma ThenCancelled(base: Trace, tr: Trace) returns (longer: Trace)
    requires Runs(tr) && Extends(base, tr)
    ensures Runs(longer) && Extends(base, longer) && Own(longer) == Own(tr).(cancelled := true)
    ensures Here(longer).now == Here(tr).now && Here(longer).reg == Here(tr).reg
  {
    hide After, IsRun, BytesOf;
    var step := Does(tr.id, Cancel, Here(tr).now);
    Fired(tr, step);
    longer := Plus(tr, step);
    Longer(base, tr, longer);
  }

  /** The session is cancelled from outside, and the loop sees it. */
  lemma ThenQuit(base: Trace, tr: Trace, up: bool) returns (longer: Trace)
    requires Runs(tr) && Extends(base, tr) && LoopOf(Own(tr), up).pc == Top
    ensures Runs(longer) && Extends(base, longer)
    ensures Here(longer).now == Here(tr).now && Here(longer).reg == Here(tr).reg
    ensures var t, t' := Own(tr), Own(longer);
            && KeyFor(t') == KeyFor(t) && t'.interval == t.interval && t'.lastAuth == t.lastAuth && t'.cancelled
            && Stream(t', up) == Stream(t, up) && LoopOf(t', up) == LoopOf(t, up).(pc := Returned)
  {
    hide After, IsRun, Runs, Extends, Own, Here;
    longer := ThenCancelled(base, tr);
    longer := Then(base, longer, up, Quit, Here(longer).now);
  }

  /** The list of valid feeders has been polled again. */
  lemma ThenPolled(base: Trace, tr: Trace, keys: set<ApiKey>, at: Time) returns (longer: Trace)
    requires Runs(tr) && Extends(base, tr) && Here(tr).now <= at
    ensures Runs(longer) && Extends(base, longer) && Own(longer) == Own(tr)
    ensures Here(longer).now == at && Here(longer).reg == Here(tr).reg && Here(longer).valid == keys
  {
    hide After, IsRun;
    Fired(tr, UpdateValid(keys, at));
    longer := Plus(tr, UpdateValid(keys, at));
    Longer(base, tr, longer);
  }

  // ---- the objects a loop works on

  class TimeCell {
    var time: Time

    constructor (time: Time)
      ensures this.time == time
    {
      this.time := time;
    }
  }

  /** A connection, with the bytes that reached its far end. */
  class Conn {
    var received: seq<Byte>

    constructor ()
      ensures received == []
    {
      received := [];
    }
  }

  class Config {
    const key: ApiKey
    const connNum: nat
    const proto: Protocol
    const interval: nat
    const up: bool
    const remote: Conn
    const lastAuthCheck: TimeCell
    const validFeeders: FeederDb.ValidFeeders
    const stats: RegistryHeap.Stats

    constructor (key: ApiKey, connNum: nat, proto: Protocol, interval: nat, up: bool, remote: Conn,
                 lastAuthCheck: TimeCell, validFeeders: FeederDb.ValidFeeders, stats: RegistryHeap.Stats)
      requires stats.Valid() && remote !in stats.Repr && lastAuthCheck !in stats.Repr && validFeeders !in stats.Repr
      ensures Valid()
      ensures this.key == key && this.connNum == connNum && this.proto == proto && this.interval == interval
      ensures this.up == up && this.remote == remote && this.lastAuthCheck == lastAuthCheck
      ensures this.validFeeders == validFeeders && this.stats == stats
    {
      this.key, this.connNum, this.proto, this.interval, this.up := key, connNum, proto, interval, up;
      this.remote, this.lastAuthCheck, this.validFeeders, this.stats := remote, lastAuthCheck, validFeeders, stats;
    }

    ghost predicate Valid()
      reads stats, stats.Repr
    {
      stats.Valid() && remote !in stats.Repr && lastAuthCheck !in stats.Repr && validFeeders !in stats.Repr
    }

    /** The state of the machine is that of the program. */
    ghost predicate Agrees(tr: Trace)
      reads stats, lastAuthCheck, remote
    {
      && Runs(tr)
      && var t := Own(tr);
         && KeyFor(t) == FlatKey(key, proto, connNum) && t.interval == interval && t.lastAuth == lastAuthCheck.time
         && Stream(t, up) == remote.received
         && Here(tr).reg == stats.View()
    }

    ghost function Loop(tr: Trace): Sessions.Loop
      requires Runs(tr)
    {
      LoopOf(Own(tr), up)
    }

    /** The connection is in a sound registry. */
    ghost predicate Counted()
      reads stats
    {
      Good(stats.View()) && FlatKey(key, proto, connNum) in Flat(stats.View())
    }

    ghost function Missing(): Option<Error>
      reads stats
    {
      MissingCounter(stats.View(), FlatKey(key, proto, connNum))
    }

    lemma CountedIsFound()
      ensures Counted() ==> Missing().None?
    {
      hide Good;
    }

    /** The key is looked up, and the time stamp moved if it is listed. */
    method LookUpAgain(turn: Turn, ghost base: Trace, ghost tr: Trace) returns (valid: bool, ghost longer: Trace)
      requires Valid() && Extends(base, tr) && Agrees(tr) && Loop(tr).pc == Lookup && Plausible(turn)
      requires Here(tr).now <= turn.lookedUp && Here(tr).valid == FeederDb.Keys(validFeeders.feeders)
      modifies lastAuthCheck
      ensures Valid() && Extends(base, longer) && Agrees(longer) && Here(longer).now <= turn.stamped
      ensures Own(longer).cancelled == Own(tr).cancelled
      ensures valid <==> key in FeederDb.Keys(validFeeders.feeders)
      ensures lastAuthCheck.time == if valid then turn.stamped else old(lastAuthCheck.time)
      ensures Loop(longer) == if valid then Loop(tr).(pc := Top, sample := turn.stamped) else Loop(tr).(pc := Returned)
    {
      hide After, IsRun, Runs, Extends, Own, Here, Stream, RegistryHeap.Stats.Valid, FeederDb.Keys;
      valid := validFeeders.IsValidApiKey(key);
      if !valid {
        longer := Then(base, tr, up, NoLongerValid, turn.lookedUp);
        return;
      }
      longer := Then(base, tr, up, StillValid, turn.lookedUp);
      lastAuthCheck.time := turn.stamped;
      longer := Then(base, longer, up, Record, turn.stamped);
    }

    /** The check made at the end of an iteration. */
    method FeederStillValid(turn: Turn, ghost base: Trace, ghost tr: Trace) returns (valid: bool, ghost longer: Trace)
      requires Valid() && Extends(base, tr) && Agrees(tr) && Loop(tr).pc == Auth && Plausible(turn)
      requires Here(tr).now <= turn.asked
      modifies lastAuthCheck, validFeeders
      ensures Valid() && Extends(base, longer) && Agrees(longer) && Here(longer).now <= turn.stamped
      ensures Own(longer).cancelled == Own(tr).cancelled
      ensures valid <==> turn.asked <= old(lastAuthCheck.time) + interval || key in Listed(turn)
      ensures lastAuthCheck.time == if valid && turn.asked > old(lastAuthCheck.time) + interval then turn.stamped
                                    else old(lastAuthCheck.time)
      ensures var again := turn.asked > old(lastAuthCheck.time) + interval;
              Loop(longer) == if !valid then Loop(tr).(pc := Returned)
                              else Loop(tr).(pc := Top, sample := if again then turn.stamped else turn.asked)
    {
      hide After, IsRun, Runs, Extends, Own, Here, Stream, RegistryHeap.Stats.Valid, FeederDb.Keys;
      validFeeders.Poll(turn.poll);     // done by another goroutine before the check
      longer := ThenPolled(base, tr, Listed(turn), turn.asked);
      if turn.asked > lastAuthCheck.time + interval {
        longer := Then(base, longer, up, LoopAct.Stale, turn.asked);
        valid, longer := LookUpAgain(turn, base, longer);
      } else {
        longer := Then(base, longer, up, Fresh, turn.asked);
        valid := true;
      }
    }

    function CountOp(byteCount: U64, at: Time): Op {
      AddBytes(key, connNum, proto, if up then byteCount else 0, if up then 0 else byteCount, at)
    }

    lemma ReportIsCount(tr: Trace, at: Time)
      requires Agrees(tr)
      ensures OpFor(Own(tr), LoopDoes(up, Report), at) == Some(CountOp(Loop(tr).byteCount, at))
    {
    }

    /** The counters are updated at most once a second. */
    method UpdateStats(turn: Turn, timer: Time, byteCount: U64, ghost base: Trace, ghost tr: Trace)
      returns (o: Outcome, timer': Time, byteCount': U64, ghost longer: Trace)
      requires Valid() && Extends(base, tr) && Agrees(tr) && Loop(tr).pc == Tally && Plausible(turn)
      requires Here(tr).now <= turn.tick && Loop(tr).timer == timer && Loop(tr).byteCount == byteCount
      modifies stats.Repr
      ensures Valid() && stats.Repr == old(stats.Repr) && o != Panic
      ensures Extends(base, longer) && Agrees(longer) && Here(longer).now <= turn.tock
      ensures Own(longer).cancelled == Own(tr).cancelled
      ensures var pc := if o == Done then Auth else Returned;
              Loop(longer) == Loop(tr).(pc := pc, timer := timer', byteCount := byteCount')
      ensures old(Counted()) ==> Counted() && o == Done
      ensures Missing() == old(Missing())
      ensures o == if turn.tick > timer + SECOND && Missing().Some? then Failed(Missing().value) else Done
      ensures turn.tick <= timer + SECOND ==>
                o == Done && timer' == timer && byteCount' == byteCount && stats.View() == old(stats.View())
      ensures turn.tick > timer + SECOND ==>
                && timer' == turn.tock && byteCount' == (if o == Done then 0 else byteCount)
                && (stats.View(), o) == Apply(old(stats.View()), CountOp(byteCount, turn.tock))
    {
      hide After, IsRun, Runs, Extends, Own, Here, Stream, OpFor, RegistryHeap.Stats.Valid, Apply, Good, Flat;
      timer', byteCount', o := timer, byteCount, Done;
      if turn.tick > timer + SECOND {
        timer' := turn.tock;
        ReportIsCount(tr, turn.tock);
        longer := ThenReport(base, tr, up, turn.tock);
        if up {
          o := stats.IncrementByteCounters(key, connNum, proto, byteCount, 0, turn.tock);
        } else {
          o := stats.IncrementByteCounters(key, connNum, proto, 0, byteCount, turn.tock);
        }
        CountedOrNot(old(stats.View()), CountOp(byteCount, turn.tock));
        MissingIsFailing(old(stats.View()), CountOp(byteCount, turn.tock));
        if o != Done {
          return;
        }
        byteCount' := 0;
      } else {
        longer := Then(base, tr, up, Skip, turn.tick);
      }
    }

    /** Reads what there is into the front of the buffer. */
    method ReadInto(buf: array<Byte>, bytes: seq<Byte>) returns (n: nat)
      requires |bytes| <= buf.Length
      modifies buf
      ensures n == |bytes| && buf[..n] == bytes && buf[n..] == old(buf[n..])
    {
      n := 0;
      while n < |bytes|
        invariant n <= |bytes| && buf[..n] == bytes[..n] && buf[n..] == old(buf[n..])
      {
        buf[n] := bytes[n];
        n := n + 1;
      }
    }

    /** Writes on the front of the buffer. */
    method Send(turn: Turn, chunk: seq<Byte>, byteCount: U64, ghost base: Trace, ghost tr: Trace)
      returns (failed: Option<ProxyError>, byteCount': U64, ghost longer: Trace)
      requires Valid() && Extends(base, tr) && Agrees(tr) && Plausible(turn)
      requires Loop(tr).pc == ArmWrite(chunk) && Loop(tr).byteCount == byteCount && Here(tr).now <= turn.handed
      modifies remote
      ensures Valid() && Extends(base, longer) && Agrees(longer) && Here(longer).now <= turn.wrote
      ensures Own(longer).cancelled == Own(tr).cancelled
      ensures Moves(tr, longer, if failed == None then Tally else Returned, byteCount')
      ensures failed == if !turn.writeDeadlineSet then Some(DeadlineNotSet)
                        else if !turn.written then Some(NotWritten) else None
      ensures remote.received == old(remote.received) + if failed == None then chunk else []
      ensures byteCount' == if failed == None then Add64(byteCount, |chunk| % TWO_TO_THE_64) else byteCount
    {
      hide After, IsRun, Runs, Extends, Own, Here, RegistryHeap.Stats.Valid;
      failed, byteCount' := None, byteCount;
      if !turn.writeDeadlineSet {
        longer := Then(base, tr, up, Fail, turn.handed);
        return Some(DeadlineNotSet), byteCount, longer;
      }
      longer := Then(base, tr, up, SetWriteDeadline, turn.handed);
      if !turn.written {
        longer := Then(base, longer, up, Fail, turn.wrote);
        return Some(NotWritten), byteCount, longer;
      }
      remote.received := remote.received + chunk;
      byteCount' := Add64(byteCount, |chunk| % TWO_TO_THE_64);
      longer := Then(base, longer, up, Wrote, turn.wrote);
    }

    /** The loop is now at `pc` with this count, in the same iteration. */
    ghost predicate Moves(tr: Trace, longer: Trace, pc: LoopPc, byteCount: U64)
      requires Runs(tr) && Runs(longer)
    {
      && Loop(longer).pc == pc && Loop(longer).byteCount == byteCount && Loop(longer).timer == Loop(tr).timer
      && Loop(longer).iterations == Loop(tr).iterations
    }

    /** Reads one chunk into the front of the buffer. */
    method Receive(turn: Turn, buf: array<Byte>, ghost base: Trace, ghost tr: Trace)
      returns (failed: Option<ProxyError>, bytesRead: Option<nat>, ghost longer: Trace)
      requires Valid() && Extends(base, tr) && Agrees(tr) && Plausible(turn)
      requires buf.Length == BUFFER_SIZE && buf !in stats.Repr && Loop(tr).pc == ArmRead && Here(tr).now <= turn.armed
      modifies buf
      ensures Valid() && Extends(base, longer) && Agrees(longer) && Here(longer).now <= turn.got
      ensures Own(longer).cancelled == Own(tr).cancelled
      ensures failed == if !turn.readDeadlineSet then Some(DeadlineNotSet)
                        else if turn.read.ReadError? then Some(NotRead) else None
      ensures bytesRead.Some? <==> turn.readDeadlineSet && turn.read.Data?
      ensures bytesRead.Some? ==> bytesRead.value <= buf.Length && buf[..bytesRead.value] == turn.read.bytes
      ensures var pc := if failed.Some? then Returned else if bytesRead.None? then Tally else ArmWrite(turn.read.bytes);
              Moves(tr, longer, pc, Loop(tr).byteCount)
    {
      hide After, IsRun, Runs, Extends, Own, Here, Stream, RegistryHeap.Stats.Valid;
      failed, bytesRead := None, None;
      if !turn.readDeadlineSet {
        longer := Then(base, tr, up, Fail, turn.armed);
        return Some(DeadlineNotSet), None, longer;
      }
      longer := Then(base, tr, up, SetReadDeadline, turn.armed);
      match turn.read
      case ReadError =>
        longer := Then(base, longer, up, Fail, turn.got);
        failed := Some(NotRead);
      case DeadlineExceeded =>
        longer := Then(base, longer, up, GotNothing, turn.got);
      case Data(bytes) =>
        longer := Then(base, longer, up, GotChunk(bytes), turn.got);
        var n := ReadInto(buf, bytes);
        bytesRead := Some(n);
    }

    /** Reads one chunk and writes it on. */
    method Forward(turn: Turn, buf: array<Byte>, byteCount: U64, ghost base: Trace, ghost tr: Trace)
      returns (failed: Option<ProxyError>, byteCount': U64, ghost longer: Trace)
      requires Valid() && Extends(base, tr) && Agrees(tr) && Plausible(turn)
      requires buf.Length == BUFFER_SIZE && buf !in stats.Repr && !turn.cancelled
      requires Loop(tr).pc == ArmRead && Loop(tr).byteCount == byteCount && Here(tr).now <= turn.armed
      modifies buf, remote
      ensures Valid() && Extends(base, longer) && Agrees(longer) && Here(longer).now <= turn.wrote
      ensures Own(longer).cancelled == Own(tr).cancelled
      ensures Moves(tr, longer, if failed == None then Tally else Returned, byteCount')
      ensures remote.received == old(remote.received) + Delivered(turn)
      ensures byteCount' == Add64(byteCount, |Delivered(turn)| % TWO_TO_THE_64)
      ensures failed == if !turn.readDeadlineSet then Some(DeadlineNotSet)
                        else if turn.read.ReadError? then Some(NotRead)
                        else if turn.read.DeadlineExceeded? then None
                        else if !turn.writeDeadlineSet then Some(DeadlineNotSet)
                        else if !turn.written then Some(NotWritten) else None
    {
      hide After, IsRun, Runs, Extends, Own, Here, Stream, LoopOf, RegistryHeap.Stats.Valid;
      byteCount' := byteCount;
      var bytesRead: Option<nat>;
      failed, bytesRead, longer := Receive(turn, buf, base, tr);
      if failed == None && bytesRead.Some? {
        failed, byteCount', longer := Send(turn, buf[..bytesRead.value], byteCount, base, longer);
      }
    }

    /** What follows the forwarding in an iteration. */
    method Settle(turn: Turn, timer: Time, byteCount: U64, ghost base: Trace, ghost tr: Trace)
      returns (exit: Exit, timer': Time, byteCount': U64, ghost longer: Trace)
      requires Valid() && Extends(base, tr) && Agrees(tr) && Plausible(turn)
      requires Loop(tr).pc == Tally && Loop(tr).timer == timer && Loop(tr).byteCount == byteCount
      requires Here(tr).now <= turn.tick
      modifies lastAuthCheck, validFeeders, stats.Repr
      ensures Valid() && stats.Repr == old(stats.Repr)
      ensures Extends(base, longer) && Agrees(longer) && Here(longer).now <= turn.stamped
      ensures Own(longer).cancelled == Own(tr).cancelled && exit != ContextDone
      ensures var l, l' := Loop(tr), Loop(longer);
              && l'.pc == (if exit.StillRunning? then Top else Returned)
              && l'.timer == timer' && l'.byteCount == byteCount' && l'.iterations == l.iterations
      ensures old(Counted()) ==> Counted()
      ensures Missing() == old(Missing())
      ensures GoesThrough(turn) ==>
                exit == ExitOf(turn, timer, old(lastAuthCheck.time), interval, key, old(Missing()))
      ensures exit == StillRunning ==>
                && timer' == (if turn.tick > timer + SECOND then turn.tock else timer)
                && lastAuthCheck.time == if turn.asked > old(lastAuthCheck.time) + interval then turn.stamped
                                         else old(lastAuthCheck.time)
    {
      hide After, IsRun, Runs, Extends, Own, Here, Stream, RegistryHeap.Stats.Valid, Apply, FeederDb.Keys, Counted,
           Missing, Listed;
      var o: Outcome;
      o, timer', byteCount', longer := UpdateStats(turn, timer, byteCount, base, tr);
      if o != Done {
        return Stopped(NotCounted(o.error)), timer', byteCount', longer;
      }
      var valid: bool;
      valid, longer := FeederStillValid(turn, base, longer);
      exit := if valid then StillRunning else Stopped(FeederNoLongerValid);
    }

    /** One pass through the loop body. */
    method Iterate(turn: Turn, buf: array<Byte>, timer: Time, byteCount: U64, ghost base: Trace, ghost tr: Trace)
      returns (exit: Exit, timer': Time, byteCount': U64, ghost longer: Trace)
      requires Valid() && Extends(base, tr) && Agrees(tr) && Plausible(turn)
      requires buf.Length == BUFFER_SIZE && buf !in stats.Repr
      requires Loop(tr).pc == Top && Loop(tr).timer == timer && Loop(tr).byteCount == byteCount
      requires Here(tr).now <= turn.armed && (Own(tr).cancelled ==> turn.cancelled)
      modifies buf, remote, lastAuthCheck, validFeeders, stats.Repr
      ensures Valid() && stats.Repr == old(stats.Repr)
      ensures Extends(base, longer) && Agrees(longer) && Here(longer).now <= turn.stamped
      ensures Own(longer).cancelled == turn.cancelled
      ensures var l, l' := Loop(tr), Loop(longer);
              && l'.pc == (if exit.StillRunning? then Top else Returned)
              && l'.timer == timer' && l'.byteCount == byteCount'
              && l'.iterations == l.iterations + if turn.cancelled then 0 else 1
      ensures remote.received == old(remote.received) + Delivered(turn)
      ensures old(Counted()) ==> Counted()
      ensures Missing() == old(Missing())
      ensures exit == ContextDone <==> turn.cancelled
      ensures exit == ExitOf(turn, timer, old(lastAuthCheck.time), interval, key, old(Missing()))
      ensures exit == StillRunning ==>
                && timer' == (if turn.tick > timer + SECOND then turn.tock else timer)
                && lastAuthCheck.time == if turn.asked > old(lastAuthCheck.time) + interval then turn.stamped
                                         else old(lastAuthCheck.time)
    {
      hide After, IsRun, Runs, Extends, Own, Here, Stream, RegistryHeap.Stats.Valid, FeederDb.Keys, Delivered, Counted,
           Missing, Listed;
      if turn.cancelled {
        longer := ThenQuit(base, tr, up);
        NothingDelivered(turn);
        return ContextDone, timer, byteCount, longer;
      }
      longer := Then(base, tr, up, Enter, Here(tr).now);
      var failed: Option<ProxyError>;
      failed, byteCount', longer := Forward(turn, buf, byteCount, base, longer);
      if failed.Some? {
        return Stopped(failed.value), timer, byteCount', longer;
      }
      exit, timer', byteCount', longer := Settle(turn, timer, byteCount', base, longer);
    }

    /** The goroutine starts its timer. */
    lemma Launched(start: Time, tr: Trace) returns (longer: Trace)
      requires Agrees(tr) && Here(tr).now <= start && Loop(tr).pc == Launching
      ensures Extends(tr, longer) && Agrees(longer) && Here(longer).now == start
      ensures Own(longer).cancelled == Own(tr).cancelled && Loop(longer) == Loop(tr).(pc := Top, timer := start)
    {
      hide After, IsRun, Runs, Extends, Own, Here, Stream;
      AgreesRuns(tr);
      longer := Then(tr, tr, up, Launch, start);
    }

    /** The whole loop, for as long as the environment's answers last.  Whatever run of the session machine
        led to the creation of its goroutine, and whenever that starts, the loop extends it to a longer run,
        and what reached the far end is what the iterations delivered, in order. */
    method Run(start: Time, turns: seq<Turn>, ghost tr: Trace)
      returns (exit: Exit, byteCount: U64, used: nat, ghost longer: Trace)
      requires Valid() && Agrees(tr) && InOrder(turns, start) && Here(tr).now <= start
      requires Loop(tr).pc == Launching && Loop(tr).byteCount == 0
      requires Own(tr).cancelled && turns != [] ==> turns[0].cancelled
      modifies remote, lastAuthCheck, validFeeders, stats.Repr
      ensures Valid() && Extends(tr, longer) && Agrees(longer) && used <= |turns|
      ensures Loop(longer).byteCount == byteCount && Loop(longer).pc == (if exit.StillRunning? then Top else Returned)
      ensures Loop(longer).iterations == Loop(tr).iterations + used - if exit == ContextDone then 1 else 0
      ensures remote.received == old(remote.received) + AllDelivered(turns[..used])
      ensures StopsFirst(turns, used, exit, start, old(lastAuthCheck.time), interval, key, old(Missing()))
      ensures old(Counted()) ==> Counted() && old(Missing()).None?
    {
      hide After, IsRun, Runs, Extends, Own, Here, Agrees, Counted, InOrder, Moves, RegistryHeap.Stats.Valid,
           FeederDb.Keys, AllDelivered, Plausible, Missing, ExitOf;
      var timer := start;
      ghost var lastAuth, missing := lastAuthCheck.time, Missing();
      CountedIsFound();
      byteCount, used, exit := 0, 0, StillRunning;
      var buf := new Byte[BUFFER_SIZE];
      AgreesRuns(tr);
      longer := Launched(start, tr);
      AgreesRuns(longer);
      NoneDelivered(turns[..0]);
      while used < |turns| && exit.StillRunning?
        invariant used <= |turns| && Valid() && fresh(buf) && buf !in stats.Repr && stats.Repr == old(stats.Repr)
        invariant Extends(tr, longer) && Runs(longer) && Agrees(longer)
        invariant Here(longer).now <= EndBefore(turns, start, used)
        invariant Loop(longer).pc == (if exit.StillRunning? then Top else Returned)
        invariant Loop(longer).timer == timer && Loop(longer).byteCount == byteCount
        invariant Loop(longer).iterations == Loop(tr).iterations + used - if exit == ContextDone then 1 else 0
        invariant exit.StillRunning? && Own(longer).cancelled ==> used == 0 && Own(tr).cancelled
        invariant remote.received == old(remote.received) + AllDelivered(turns[..used])
        invariant old(Counted()) ==> Counted()
        invariant Missing() == missing
        invariant exit == StillRunning ==>
                    timer == TimerAt(turns, start, used)
                    && lastAuthCheck.time == LastAuthAt(turns, lastAuth, interval, used)
        invariant StopsBy(turns, used, exit, start, lastAuth, interval, key, missing)
        invariant exit == ContextDone ==> used > 0 && turns[used - 1].cancelled
        decreases |turns| - used
      {
        TurnInOrder(turns, start, used);
        exit, timer, byteCount, longer := Iterate(turns[used], buf, timer, byteCount, tr, longer);
        OneMoreTurn(turns, used, exit, start, lastAuth, interval, key, missing);
        AgreesRuns(longer);
        MoreDelivered(turns, used);
        used := used + 1;
      }
    }

    /** The registry's counter and the loop's count together account for every byte that was delivered
        after the first chunk, and the counter never exceeds it. */
    ghost predicate Accounts(tr: Trace, byteCount: U64)
      requires Runs(tr)
      reads remote, stats
    {
      var fk, m := FlatKey(key, proto, connNum), Flat(stats.View());
      fk in m && if up
        then Same64(|remote.received|, |Own(tr).first| + m[fk].bytesIn + byteCount)
             && |Own(tr).first| + m[fk].bytesIn <= |remote.received|
        else Same64(|remote.received|, m[fk].bytesOut + byteCount) && m[fk].bytesOut <= |remote.received|
    }

    /** What `Run` leaves behind, if it extended a run from start-up, is accounted for. */
    lemma ReachableAccounts(tr: Trace, longer: Trace)
      requires Runs(tr) && Extends(tr, longer) && Agrees(longer)
      ensures Start(tr.s) && Here(tr).advance <= tr.s.M - 1 ==> Accounts(longer, Loop(longer).byteCount)
    {
      hide After, IsRun, Start, Flat;
      if Start(tr.s) && Here(tr).advance <= tr.s.M - 1 {
        SessionStreams.BytesAccountedFor(longer.K, longer.s, longer.steps, longer.id);
      }
    }

    /** In every run from start-up, a loop whose goroutine has not started has counted nothing. */
    lemma NothingBeforeLaunch(tr: Trace)
      requires Runs(tr) && Start(tr.s) && Loop(tr).pc == Launching
      ensures Loop(tr).byteCount == 0 && Loop(tr).iterations == 0
    {
      hide After, IsRun, Start;
      SessionStreams.FaithfulAlways(tr.K, tr.s, tr.steps);
      assert SessionStreams.Faithful(Own(tr));
    }

    lemma AgreesRuns(tr: Trace)
      requires Agrees(tr)
      ensures Runs(tr) && Extends(tr, tr)
    {
    }
  }

  lemma TurnInOrder(turns: seq<Turn>, now: Time, i: nat)
    requires InOrder(turns, now) && i < |turns|
    ensures Plausible(turns[i]) && EndBefore(turns, now, i) <= turns[i].armed
  {
  }

  lemma NothingDelivered(turn: Turn)
    requires turn.cancelled
    ensures Delivered(turn) == []
  {
  }

  lemma NoneDelivered(turns: seq<Turn>)
    requires turns == []
    ensures AllDelivered(turns) == []
  {
  }

  lemma MoreDelivered(turns: seq<Turn>, n: nat)
    requires n < |turns|
    ensures AllDelivered(turns[..n + 1]) == AllDelivered(turns[..n]) + Delivered(turns[n])
  {
    assert turns[..n + 1][..n] == turns[..n];
  }

  /** Adding to the counters never panics, and succeeds on a registered connection, which it keeps. */
  lemma CountedOrNot(s: Statistics, op: Op)
    requires op.AddBytes?
    ensures Apply(s, op).1 != Panic
    ensures var fk := FlatKey(op.key, op.p, op.num);
            Good(s) && fk in Flat(s) ==> Good(Apply(s, op).0) && fk in Flat(Apply(s, op).0) && Apply(s, op).1 == Done
  {
    hide Good, Flat;
    if Good(s) {
      GoodPreserved(s, op);
      FlatRefinement(s, op);
    }
  }

  /** Adding to the counters fails exactly as what is missing says, and leaves that as it is. */
  lemma MissingIsFailing(s: Statistics, op: Op)
    requires op.AddBytes?
    ensures var missing := MissingCounter(s, FlatKey(op.key, op.p, op.num));
            && Apply(s, op).1 == (if missing.Some? then Outcome.Failed(missing.value) else Done)
            && MissingCounter(Apply(s, op).0, FlatKey(op.key, op.p, op.num)) == missing
    ensures MissingCounter(s, FlatKey(op.key, op.p, op.num)).None? <==> Has(s, FlatKey(op.key, op.p, op.num))
  {
    hide AddBytesTo, AddTotals;
    TotalsKeepFeeders(s, op.p, op.bytesIn, op.bytesOut);
  }

  lemma Longer(a: Trace, b: Trace, c: Trace)
    requires Extends(a, b) && Extends(b, c)
    ensures Extends(a, c) && Runs(c)
  {
  }
}
