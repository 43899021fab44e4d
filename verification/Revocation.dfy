/** How long a feeder that is no longer valid can still exchange data. */
module Revocation {
  import opened Common
  import opened Registry
  import opened Sessions
  import SessionNumbers
  import Tracker

  /** A look-up of the key at time `at` found it valid, and the key has left the valid set only since. */
  ghost predicate WasValid(s: State, key: ApiKey, at: Time) {
    at <= s.now && (key in s.valid || (key in s.revoked && at <= s.revoked[key] <= s.now))
  }

  // ---- the clock readings of one loop

  predicate InIteration(pc: LoopPc) {
    !pc.NotStarted? && !pc.Launching? && !pc.Top? && !pc.Returned? && !pc.Ended?
  }

  /** The comparison with the last authentication that let the current iteration start was made
      between the start of the iteration before it and the start of this one. */
  predicate Compared(l: Loop, lastAuth: Time, interval: nat, now: Time) {
    && l.sample <= lastAuth + interval && l.sample <= now && l.began <= now
    && (l.pc.Launching? ==> l.iterations == 0)
    && (l.pc.Top? && l.iterations >= 1 ==> l.began <= l.sample)
    && (InIteration(l.pc) ==> l.sample <= l.began && (l.iterations >= 2 ==> l.previous <= l.sample))
  }

  /** A chunk arrives within a read deadline set in this iteration, and its write deadline was set after
      it arrived. */
  predicate Timed(l: Loop, now: Time) {
    match l.pc
    case Read(deadline) => l.began <= l.armed <= now && deadline == l.armed + READ_TIMEOUT
    case ArmWrite(_) => l.began <= l.armed && l.got <= l.armed + READ_TIMEOUT && l.got <= now
    case Write(_, deadline) =>
      l.began <= l.armed && l.got <= l.armed + READ_TIMEOUT && l.got <= l.handed <= now
      && deadline == l.handed + WRITE_TIMEOUT
    case _ => true
  }

  predicate ClockedLoop(l: Loop, lastAuth: Time, interval: nat, now: Time) {
    l.pc.NotStarted? || (Compared(l, lastAuth, interval, now) && Timed(l, now))
  }

  predicate Asks(act: LoopAct) {
    act.Fresh? || act.Stale? || act.StillValid? || act.NoLongerValid? || act.Record?
  }

  lemma TransferClocked(t: Session, up: bool, act: LoopAct, at: Time, o: Outcome, valid: set<ApiKey>, now: Time)
    requires ClockedLoop(LoopOf(t, up), t.lastAuth, t.interval, now) && now <= at
    requires LoopAllowed(t, up, act, at, valid) && !Asks(act)
    ensures ClockedLoop(LoopNext(LoopOf(t, up), act, at, o), t.lastAuth, t.interval, at)
  {
  }

  lemma AskClocked(t: Session, up: bool, act: LoopAct, at: Time, o: Outcome, valid: set<ApiKey>, now: Time)
    requires ClockedLoop(LoopOf(t, up), t.lastAuth, t.interval, now) && t.lastAuth <= now <= at
    requires LoopAllowed(t, up, act, at, valid) && Asks(act)
    ensures ClockedLoop(LoopNext(LoopOf(t, up), act, at, o), if act.Record? then at else t.lastAuth, t.interval, at)
  {
    hide Timed;
    NotTimed(LoopNext(LoopOf(t, up), act, at, o), at);
  }

  lemma NotTimed(l: Loop, now: Time)
    ensures !l.pc.Read? && !HasChunk(l.pc) ==> Timed(l, now)
  {
  }

  /** Time passing, and a later authentication recorded by the other loop, keep a loop clocked. */
  lemma LaterClocked(l: Loop, lastAuth: Time, lastAuth': Time, interval: nat, now: Time, now': Time)
    requires ClockedLoop(l, lastAuth, interval, now) && lastAuth <= lastAuth' && now <= now'
    ensures ClockedLoop(l, lastAuth', interval, now')
  {
  }

  // ---- sessions

  /** A look-up not yet recorded found the key valid. */
  ghost predicate FoundValid(s: State, t: Session, l: Loop) {
    l.pc.Stamp? ==> WasValid(s, t.key, l.pc.found)
  }

  ghost predicate ClockedSession(s: State, t: Session) {
    && (t.phase != New && t.phase != Finished && t.phase != GaveUp ==> WasValid(s, t.key, t.validAt))
    && (t.phase == Admitted || t.phase == Sent || t.phase == Running ==> t.validAt <= t.lastAuth <= s.now)
    && (t.phase == Running ==>
          && ClockedLoop(t.up, t.lastAuth, t.interval, s.now) && ClockedLoop(t.down, t.lastAuth, t.interval, s.now)
          && FoundValid(s, t, t.up) && FoundValid(s, t, t.down))
  }

  ghost predicate Clocked(s: State) {
    forall i :: i in s.sessions ==> ClockedSession(s, s.sessions[i])
  }

  lemma FoundValidKept(s: State, s': State, t: Session, up: bool, act: LoopAct, at: Time, o: Outcome)
    requires FoundValid(s, t, LoopOf(t, up)) && LoopAllowed(t, up, act, at, s.valid)
    requires s.now <= at == s'.now && s'.valid == s.valid && s'.revoked == s.revoked
    ensures FoundValid(s', t, LoopNext(LoopOf(t, up), act, at, o))
    ensures act.Record? ==> LoopOf(t, up).pc.Stamp? && WasValid(s', t.key, LoopOf(t, up).pc.found)
  {
  }

  lemma LoopStepClocked(s: State, s': State, t: Session, up: bool, act: LoopAct, at: Time, o: Outcome)
    requires ClockedSession(s, t) && t.phase == Running && LoopAllowed(t, up, act, at, s.valid)
    requires s.now <= at == s'.now && s'.valid == s.valid && s'.revoked == s.revoked
    ensures ClockedSession(s', LoopEffect(t, up, act, at, o))
    ensures t.lastAuth <= LoopEffect(t, up, act, at, o).lastAuth
  {
    hide ClockedLoop, FoundValid, LoopNext, LoopAllowed;
    var lastAuth := if act.Record? then at else t.lastAuth;
    if Asks(act) {
      AskClocked(t, up, act, at, o, s.valid, s.now);
    } else {
      TransferClocked(t, up, act, at, o, s.valid, s.now);
    }
    LaterClocked(LoopOf(t, !up), t.lastAuth, lastAuth, t.interval, s.now, at);
    FoundValidKept(s, s', t, up, act, at, o);
    StillFound(s, s', t, LoopOf(t, !up));
    Unrelated(s', t, LoopEffect(t, up, act, at, o));
  }

  lemma StillFound(s: State, s': State, t: Session, l: Loop)
    requires FoundValid(s, t, l) && s.now <= s'.now && s'.valid == s.valid && s'.revoked == s.revoked
    ensures FoundValid(s', t, l)
  {
  }

  lemma Unrelated(s: State, t: Session, t': Session)
    requires t'.key == t.key
    ensures forall l :: FoundValid(s, t, l) ==> FoundValid(s, t', l)
  {
  }

  lemma StartedClocked(s: State, t: Session, at: Time)
    requires t.lastAuth <= at
    ensures ClockedLoop(Sessions.Started(at, t.lastAuth), t.lastAuth, t.interval, at)
    ensures ClockedLoop(IDLE, t.lastAuth, t.interval, at)
    ensures FoundValid(s, t, Sessions.Started(at, t.lastAuth)) && FoundValid(s, t, IDLE)
  {
  }

  lemma StepClocked(K: nat, s: State, s': State, t: Session, a: Act, at: Time, o: Outcome, bytesIn: U64, bytesOut: U64)
    requires ClockedSession(s, t) && Allowed(K, s, t, a, at)
    requires s.now <= at == s'.now && s'.valid == s.valid && s'.revoked == s.revoked
    ensures ClockedSession(s', Effect(t, a, at, o, bytesIn, bytesOut))
    ensures t.phase == Running ==> t.lastAuth <= Effect(t, a, at, o, bytesIn, bytesOut).lastAuth
  {
    hide GetNumConnections, LoopEffect, LoopAllowed, ClockedLoop, FoundValid, Sessions.Started;
    var t' := Effect(t, a, at, o, bytesIn, bytesOut);
    if a.LoopDoes? {
      LoopStepClocked(s, s', t, a.up, a.act, at, o);
    } else {
      if t.phase == Running {
        LaterClocked(t.up, t.lastAuth, t.lastAuth, t.interval, s.now, at);
        LaterClocked(t.down, t.lastAuth, t.lastAuth, t.interval, s.now, at);
        StillFound(s, s', t, t.up);
        StillFound(s, s', t, t.down);
      } else if t.phase == Sent {
        StartedClocked(s', t, at);
      }
      if t'.key == t.key {
        Unrelated(s', t, t');
      }
    }
  }

  /** Time passing and changes of the valid set keep what was known about a session. */
  lemma OtherClocked(s: State, s': State, t: Session)
    requires ClockedSession(s, t) && s.now <= s'.now
    requires (s'.valid == s.valid && s'.revoked == s.revoked)
             || s'.revoked == (map k | k in s.revoked.Keys + s.valid :: if k in s.valid then s'.now else s.revoked[k])
    ensures ClockedSession(s', t)
  {
    hide ClockedLoop;
    if t.phase == Running {
      LaterClocked(t.up, t.lastAuth, t.lastAuth, t.interval, s.now, s'.now);
      LaterClocked(t.down, t.lastAuth, t.lastAuth, t.interval, s.now, s'.now);
    }
  }

  lemma ClockedKept(K: nat, s: State, step: Step)
    requires Clocked(s) && Enabled(K, s, step) && s.M >= 2 && s.counter < s.M
    ensures Clocked(Fire(s, step))
  {
    hide Effect, Allowed, RegAfter, EvictStale, OpFor, BytesOf, Tracker.Candidate, ClockedSession;
    var s' := Fire(s, step);
    forall i | i in s'.sessions ensures ClockedSession(s', s'.sessions[i]) {
      if i in s.sessions && s'.sessions[i] == s.sessions[i] {
        OtherClocked(s, s', s.sessions[i]);
      } else if step.Accept? {
        NewClocked(s', s'.sessions[i]);
      }
      if step.Does? && i == step.id {
        var t := s.sessions[i];
        var (reg, o) := RegAfter(s.reg, OpFor(t, step.a, step.at));
        var (bytesIn, bytesOut) := BytesOf(s.reg, KeyFor(t));
        StepClocked(K, s, s', t, step.a, step.at, o, bytesIn, bytesOut);
      }
    }
  }

  lemma NewClocked(s: State, t: Session)
    requires t.phase == New
    ensures ClockedSession(s, t)
  {
  }

  lemma {:induction false} ClockedAlways(K: nat, s: State, steps: seq<Step>)
    requires Start(s) && IsRun(K, s, steps)
    ensures Clocked(After(s, steps)) && SessionNumbers.Numbered(After(s, steps))
  {
    hide Fire, Enabled, Clocked, SessionNumbers.Numbered;
    SessionNumbers.NumberedAlways(K, s, steps);
    if steps == [] {
      StartClocked(s);
    } else {
      var prefix, step := steps[..|steps| - 1], steps[|steps| - 1];
      ClockedAlways(K, s, prefix);
      CounterInRange(After(s, prefix));
      ClockedKept(K, After(s, prefix), step);
    }
  }

  lemma StartClocked(s: State)
    requires Start(s)
    ensures Clocked(s)
  {
  }

  lemma CounterInRange(s: State)
    requires SessionNumbers.Numbered(s)
    ensures s.M >= 2 && s.counter < s.M
  {
  }

  // ---- the bounds

  /** Time the loop itself lets pass within an iteration, outside of any read or write: from its start to
      setting the read deadline, and from a chunk's arrival to setting the write deadline. */
  function Stall(l: Loop): Time {
    (l.armed - l.began) + (l.handed - l.got)
  }

  /** A write that succeeds does so, by its own and the read's deadline, within three seconds of the start
      of its iteration, not counting what the loop lets pass itself. */
  lemma WrittenByDeadline(l: Loop, lastAuth: Time, interval: nat, now: Time, at: Time)
    requires ClockedLoop(l, lastAuth, interval, now) && l.pc.Write? && at <= l.pc.deadline
    ensures at <= l.began + Stall(l) + READ_TIMEOUT + WRITE_TIMEOUT && 0 <= l.armed - l.began && 0 <= l.handed - l.got
    ensures l.sample <= l.began && l.sample <= lastAuth + interval
    ensures l.iterations >= 2 ==> l.previous <= l.sample
  {
  }

  /** In every run, a chunk is written no later than the validity interval and three seconds after the last
      recorded authentication, plus what passed between the comparison before its iteration and the
      iteration's start, plus the stall; that authentication goes back to a look-up that found the key valid.
      From the second iteration on the comparison is the one that ended the iteration before. */
  lemma ForwardedSoonAfterCheck(K: nat, s: State, steps: seq<Step>, id: nat, up: bool, at: Time)
    requires Start(s) && IsRun(K, s, steps) && Enabled(K, After(s, steps), Does(id, LoopDoes(up, Wrote), at))
    ensures var t := After(s, steps).sessions[id];
            var l := LoopOf(t, up);
            && at <= t.lastAuth + t.interval + (l.began - l.sample) + Stall(l) + 3 * SECOND
            && 0 <= l.began - l.sample && 0 <= l.armed - l.began && 0 <= l.handed - l.got
            && (l.iterations >= 2 ==> l.previous <= l.sample)
            && t.validAt <= t.lastAuth <= at && WasValid(After(s, steps), t.key, t.validAt)
  {
    hide After, IsRun, Start, SessionNumbers.Numbered, ClockedLoop;
    ClockedAlways(K, s, steps);
    var c := After(s, steps);
    var t := c.sessions[id];
    assert ClockedSession(c, t);
    WrittenByDeadline(LoopOf(t, up), t.lastAuth, t.interval, c.now, at);
  }

  /** Once a key has left the valid set, the forwarding loops write nothing for it in either direction later
      than the validity interval and three seconds after it left, plus the time a successful look-up took to
      be recorded, plus what passed between comparing and the iteration's start, plus the stall.  For the
      first iteration the comparison is the admission, so what passed includes starting and dialling the
      container and the first write, which is not covered itself. */
  lemma RevocationBound(K: nat, s: State, steps: seq<Step>, id: nat, up: bool, at: Time)
    requires Start(s) && IsRun(K, s, steps) && Enabled(K, After(s, steps), Does(id, LoopDoes(up, Wrote), at))
    requires After(s, steps).sessions[id].key !in After(s, steps).valid
    ensures var t := After(s, steps).sessions[id];
            var l := LoopOf(t, up);
            && t.key in After(s, steps).revoked
            && at <= After(s, steps).revoked[t.key] + t.interval + 3 * SECOND
                     + (t.lastAuth - t.validAt) + (l.began - l.sample) + Stall(l)
  {
    hide After, IsRun, Start, Enabled, Stall;
    ForwardedSoonAfterCheck(K, s, steps, id, up, at);
  }

  /** What is known of the first chunk: the look-up that admitted its session found the key valid, and it
      was made before the admission. */
  lemma FirstChunkWasLookedUp(K: nat, s: State, steps: seq<Step>, id: nat, at: Time)
    requires Start(s) && IsRun(K, s, steps) && Enabled(K, After(s, steps), Does(id, SendFirst, at))
    ensures var t := After(s, steps).sessions[id];
            WasValid(After(s, steps), t.key, t.validAt) && t.validAt <= t.lastAuth <= at
  {
    hide After, IsRun, Start, SessionNumbers.Numbered;
    ClockedAlways(K, s, steps);
    assert ClockedSession(After(s, steps), After(s, steps).sessions[id]);
  }

  ghost predicate HasStarted(s: State, id: nat) {
    id in s.sessions && (s.sessions[id].phase == Running || s.sessions[id].phase == Finished)
  }

  lemma ActKeepsStarted(K: nat, s: State, t: Session, a: Act, at: Time, o: Outcome, bytesIn: U64, bytesOut: U64)
    requires (t.phase == Running || t.phase == Finished) && Allowed(K, s, t, a, at)
    ensures var t' := Effect(t, a, at, o, bytesIn, bytesOut);
            && (t'.phase == Running || t'.phase == Finished) && (t.phase == Finished ==> t'.lastAuth == t.lastAuth)
  {
  }

  lemma LastAuthStep(K: nat, s: State, step: Step, id: nat)
    requires Clocked(s) && Enabled(K, s, step) && HasStarted(s, id)
    ensures HasStarted(Fire(s, step), id) && s.sessions[id].lastAuth <= Fire(s, step).sessions[id].lastAuth
  {
    hide Effect, Allowed, RegAfter, EvictStale, OpFor, BytesOf, Tracker.Candidate, ClockedSession;
    if step.Does? && step.id == id {
      var t := s.sessions[id];
      var (reg, o) := RegAfter(s.reg, OpFor(t, step.a, step.at));
      var (bytesIn, bytesOut) := BytesOf(s.reg, KeyFor(t));
      StepClocked(K, s, Fire(s, step), t, step.a, step.at, o, bytesIn, bytesOut);
      ActKeepsStarted(K, s, t, step.a, step.at, o, bytesIn, bytesOut);
    }
  }

  /** The authentication time shared by the loops of a session never goes back. */
  lemma {:induction false} LastAuthNeverGoesBack(K: nat, s: State, steps: seq<Step>, n: nat, id: nat)
    requires Start(s) && IsRun(K, s, steps) && n <= |steps| && HasStarted(After(s, steps[..n]), id)
    ensures HasStarted(After(s, steps), id)
    ensures After(s, steps[..n]).sessions[id].lastAuth <= After(s, steps).sessions[id].lastAuth
  {
    hide Fire, Enabled, Clocked, HasStarted, SessionNumbers.Numbered;
    assert steps[..|steps|] == steps;
    if n < |steps| {
      var prefix := steps[..|steps| - 1];
      assert prefix[..n] == steps[..n];
      LastAuthNeverGoesBack(K, s, prefix, n, id);
      ClockedAlways(K, s, prefix);
      LastAuthStep(K, After(s, prefix), steps[|steps| - 1], id);
    }
  }
}
