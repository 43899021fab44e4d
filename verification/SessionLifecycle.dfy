/** Registration, shutdown and unregistration of a session: a registered session is unregistered exactly
    once and only after its loops ended, and once cancelled it gets there in a bounded number of steps. */
module SessionLifecycle {
  import opened Common
  import opened Registry
  import opened Sessions
  import opened SessionNumbers
  import Tracker

  // ---- registered once, unregistered once

  /** How often a session was registered and unregistered, by phase. */
  predicate Paired(t: Session) {
    && (t.up.pc.Ended? || t.down.pc.Ended? ==> t.cancelled)
    && match t.phase
       case Running => t.registrations == 1 && t.unregistrations == 0
       case Finished => t.registrations == 1 && t.unregistrations == 1 && t.cancelled && Over(t.up) && Over(t.down)
       case _ => t.registrations == 0 && t.unregistrations == 0 && t.up == IDLE && t.down == IDLE
  }

  ghost predicate AllPaired(s: State) {
    forall i :: i in s.sessions ==> Paired(s.sessions[i])
  }

  lemma LoopStepPaired(t: Session, up: bool, act: LoopAct, at: Time, o: Outcome)
    requires Paired(t) && t.phase == Running
    ensures Paired(LoopEffect(t, up, act, at, o))
  {
    hide Over;
  }

  lemma StepPaired(K: nat, s: State, t: Session, a: Act, at: Time, o: Outcome, bytesIn: U64, bytesOut: U64)
    requires Paired(t) && Allowed(K, s, t, a, at) && (a.Teardown? ==> o == Done)
    ensures Paired(Effect(t, a, at, o, bytesIn, bytesOut))
  {
    hide GetNumConnections, LoopEffect, LoopAllowed;
    if a.LoopDoes? {
      LoopStepPaired(t, a.up, a.act, at, o);
    }
  }

  lemma PairedKept(K: nat, s: State, step: Step)
    requires Sound(s) && AllPaired(s) && Enabled(K, s, step)
    ensures AllPaired(Fire(s, step))
  {
    hide Effect, Apply, RegAfter, EvictStale, OpFor, BytesOf, Good, Flat, Numbered, Tracker.Candidate, LoopAllowed;
    if step.Does? {
      var t := s.sessions[step.id];
      var (reg, o) := RegAfter(s.reg, OpFor(t, step.a, step.at));
      var (bytesIn, bytesOut) := BytesOf(s.reg, KeyFor(t));
      FlatEffect(s, step.id, step.a, step.at, K);
      if step.a.Teardown? {
        MirrorsSession(s, step.id);
      }
      StepPaired(K, s, t, step.a, step.at, o, bytesIn, bytesOut);
    }
  }

  /** In every reachable state a session was registered exactly if it runs or has finished, and
      unregistered exactly if it has finished; it has finished only after both loops ended, and a loop
      that ended has cancelled the session. */
  lemma {:induction false} RegisteredAndUnregisteredOnce(K: nat, s: State, steps: seq<Step>)
    requires Start(s) && IsRun(K, s, steps) && After(s, steps).advance <= s.M - 1
    ensures AllPaired(After(s, steps))
  {
    hide Fire, Enabled, Sound, Paired;
    if steps != [] {
      var prefix, step := steps[..|steps| - 1], steps[|steps| - 1];
      NumberedAlways(K, s, prefix);
      NumberedKept(K, After(s, prefix), step);
      RegistryMirrorsSessions(K, s, prefix);
      RegisteredAndUnregisteredOnce(K, s, prefix);
      PairedKept(K, After(s, prefix), step);
    }
  }

  // ---- what is left once a session is cancelled

  /** Steps a loop of a cancelled session can still take. */
  function Rank(pc: LoopPc): nat {
    match pc
    case ArmRead => 10
    case Read(_) => 9
    case ArmWrite(_) => 8
    case Write(_, _) => 7
    case Tally => 6
    case Auth => 5
    case Lookup => 4
    case Stamp(_) => 3
    case Top => 2
    case Returned => 1
    case Ended => 0
    case Launching => 3
    case NotStarted => 0
  }

  function Remaining(t: Session): nat {
    Rank(t.up.pc) + Rank(t.down.pc)
  }

  lemma LoopStepAfterCancel(t: Session, up: bool, act: LoopAct, at: Time, o: Outcome, valid: set<ApiKey>)
    requires t.cancelled && LoopAllowed(t, up, act, at, valid)
    ensures var t' := LoopEffect(t, up, act, at, o);
            && t'.cancelled && t'.phase == t.phase && Remaining(t') < Remaining(t)
            && t'.up.iterations == t.up.iterations && t'.down.iterations == t.down.iterations
  {
    hide LoopNext;
    RankFalls(t, up, act, at, o, valid);
  }

  lemma RankFalls(t: Session, up: bool, act: LoopAct, at: Time, o: Outcome, valid: set<ApiKey>)
    requires t.cancelled && LoopAllowed(t, up, act, at, valid)
    ensures var l, l' := LoopOf(t, up), LoopNext(LoopOf(t, up), act, at, o);
            Rank(l'.pc) < Rank(l.pc) && l'.iterations == l.iterations
  {
  }

  /** A cancelled session stays cancelled and starts no iteration; its loops only use up what remains. */
  ghost predicate Winding(t: Session, loopSteps: nat, t': Session) {
    && t'.cancelled
    && t'.up.iterations <= t.up.iterations && t'.down.iterations <= t.down.iterations
    && (t.phase == Running && t'.phase == Running ==> Remaining(t') + loopSteps <= Remaining(t))
    && (t.phase == Running ==> loopSteps <= Remaining(t) && (t'.phase == Running || t'.phase == Finished))
    && (t.phase == Finished ==> t'.phase == Finished && loopSteps == 0)
  }

  lemma StepAfterCancel(K: nat, s: State, t: Session, a: Act, at: Time, o: Outcome, bytesIn: U64, bytesOut: U64)
    requires t.cancelled && Allowed(K, s, t, a, at)
    ensures Winding(t, if a.LoopDoes? then 1 else 0, Effect(t, a, at, o, bytesIn, bytesOut))
  {
    hide GetNumConnections, LoopAllowed, LoopEffect;
    if a.LoopDoes? {
      LoopStepAfterCancel(t, a.up, a.act, at, o, s.valid);
    }
  }

  function LoopStepsOf(steps: seq<Step>, id: nat): nat {
    if steps == [] then 0
    else
      var last := steps[|steps| - 1];
      LoopStepsOf(steps[..|steps| - 1], id) + if last.Does? && last.id == id && last.a.LoopDoes? then 1 else 0
  }

  lemma CancelledStep(K: nat, s: State, step: Step, id: nat)
    requires id in s.sessions && s.sessions[id].cancelled && Enabled(K, s, step)
    ensures id in Fire(s, step).sessions
    ensures Winding(s.sessions[id], LoopStepsOf([step], id), Fire(s, step).sessions[id])
  {
    hide Effect, RegAfter, Allowed, EvictStale, OpFor, BytesOf, Tracker.Candidate;
    assert [step][..0] == [];
    if step.Does? && step.id == id {
      var t := s.sessions[id];
      var (reg, o) := RegAfter(s.reg, OpFor(t, step.a, step.at));
      var (bytesIn, bytesOut) := BytesOf(s.reg, KeyFor(t));
      StepAfterCancel(K, s, t, step.a, step.at, o, bytesIn, bytesOut);
    }
  }

  /** However the run goes on after a session is cancelled: it stays cancelled, none of its loops starts
      another iteration, and they take no more steps than those left in the iterations under way. */
  lemma {:induction false} NoIterationAfterCancel(K: nat, s: State, steps: seq<Step>, id: nat)
    requires id in s.sessions && s.sessions[id].cancelled && IsRun(K, s, steps)
    ensures id in After(s, steps).sessions
    ensures Winding(s.sessions[id], LoopStepsOf(steps, id), After(s, steps).sessions[id])
    ensures s.sessions[id].phase == Running ==> LoopStepsOf(steps, id) <= 20
  {
    hide Fire, Enabled, Remaining;
    if steps != [] {
      var prefix, step := steps[..|steps| - 1], steps[|steps| - 1];
      NoIterationAfterCancel(K, s, prefix, id);
      CancelledStep(K, After(s, prefix), step, id);
      assert [step][..0] == [];
    }
    AtMostTwenty(s.sessions[id]);
  }

  lemma AtMostTwenty(t: Session)
    ensures Remaining(t) <= 20
  {
  }

  // ---- shutdown is always possible

  /** What a loop can do next, and when, with no help from either peer: nothing arrives before the read
      deadline and nothing is taken before the write deadline. */
  function NextTime(l: Loop, now: Time): Time {
    if (l.pc.Read? || l.pc.Write?) && now < l.pc.deadline then l.pc.deadline else now
  }

  function NextAct(t: Session, up: bool, at: Time, valid: set<ApiKey>): LoopAct {
    var l := LoopOf(t, up);
    match l.pc
    case Launching => Launch
    case Top => if t.cancelled then Quit else Enter
    case ArmRead => SetReadDeadline
    case Read(_) => GotNothing
    case ArmWrite(_) => SetWriteDeadline
    case Write(_, _) => Fail
    case Tally => if at > l.timer + SECOND then Report else Skip
    case Auth => if at > t.lastAuth + t.interval then LoopAct.Stale else Fresh
    case Lookup => if t.key in valid then StillValid else NoLongerValid
    case Stamp(_) => Record
    case _ => CancelSession
  }

  /** How long a loop can still be kept waiting by its deadlines before its iteration is over. */
  function Wait(l: Loop, now: Time): Time {
    match l.pc
    case ArmRead => READ_TIMEOUT
    case ArmWrite(_) => WRITE_TIMEOUT
    case _ => NextTime(l, now) - now
  }

  /** No loop is ever stuck. */
  lemma LoopNeverStuck(t: Session, up: bool, now: Time, valid: set<ApiKey>)
    requires !Over(LoopOf(t, up))
    ensures var at := NextTime(LoopOf(t, up), now);
            at >= now && LoopAllowed(t, up, NextAct(t, up, at, valid), at, valid)
  {
  }

  /** Taking that step uses up the waiting. */
  lemma WaitGets(t: Session, up: bool, now: Time, valid: set<ApiKey>, o: Outcome)
    requires t.cancelled && !Over(LoopOf(t, up))
    ensures var at := NextTime(LoopOf(t, up), now);
            var t' := LoopEffect(t, up, NextAct(t, up, at, valid), at, o);
            && at + Wait(LoopOf(t', up), at) <= now + Wait(LoopOf(t, up), now)
            && Wait(LoopOf(t', !up), at) <= Wait(LoopOf(t, !up), now)
  {
  }

  /** The next step of a cancelled running session towards its end. */
  function NextStep(t: Session, id: nat, now: Time, valid: set<ApiKey>): Step {
    if Over(t.up) && Over(t.down) then Does(id, Teardown, now)
    else
      var up := !Over(t.up);
      var at := NextTime(LoopOf(t, up), now);
      Does(id, LoopDoes(up, NextAct(t, up, at, valid)), at)
  }

  function Deadline(t: Session, now: Time): Time {
    now + Wait(t.up, now) + Wait(t.down, now)
  }

  lemma NextStepGets(K: nat, s: State, id: nat)
    requires IsRunning(s, id) && s.sessions[id].cancelled
    ensures var step := NextStep(s.sessions[id], id, s.now, s.valid);
            var s' := Fire(s, step);
            && Enabled(K, s, step) && id in s'.sessions && s'.advance == s.advance && s'.sessions[id].cancelled
            && Deadline(s'.sessions[id], s'.now) <= Deadline(s.sessions[id], s.now)
            && (s'.sessions[id].phase == Finished
                || (s'.sessions[id].phase == Running && Remaining(s'.sessions[id]) < Remaining(s.sessions[id])))
  {
    hide Apply, RegAfter, OpFor, BytesOf, LoopAllowed, LoopEffect, NextAct, Remaining, Wait, NextTime;
    var t := s.sessions[id];
    var step := NextStep(t, id, s.now, s.valid);
    var (reg, o) := RegAfter(s.reg, OpFor(t, step.a, step.at));
    if !step.a.Teardown? {
      LoopNeverStuck(t, step.a.up, s.now, s.valid);
      LoopStepAfterCancel(t, step.a.up, step.a.act, step.at, o, s.valid);
      WaitGets(t, step.a.up, s.now, s.valid, o);
    }
  }

  lemma WaitsForward(t: Session, now: Time)
    ensures now <= Deadline(t, now)
  {
  }

  /** From every reachable state a cancelled running session can go on to finish, in at most twenty-one
      steps of its own, with no help from its peers or any other session, waiting for nothing but the
      deadlines its loops have set or are about to set. */
  lemma {:induction false} ShutdownCompletes(K: nat, s: State, steps: seq<Step>, id: nat) returns (more: seq<Step>)
    requires Start(s) && IsRun(K, s, steps)
    requires IsRunning(After(s, steps), id) && After(s, steps).sessions[id].cancelled
    ensures IsRun(K, s, steps + more) && id in After(s, steps + more).sessions
    ensures After(s, steps + more).sessions[id].phase == Finished
    ensures After(s, steps + more).advance == After(s, steps).advance
    ensures After(s, steps + more).now <= Deadline(After(s, steps).sessions[id], After(s, steps).now)
    ensures |more| <= Remaining(After(s, steps).sessions[id]) + 1 <= 21
    ensures forall k :: 0 <= k < |more| ==> more[k].Does? && more[k].id == id
    decreases Remaining(After(s, steps).sessions[id])
  {
    hide After, IsRun, Start, Fire, Enabled, Remaining, Deadline;
    var c := After(s, steps);
    AtMostTwenty(c.sessions[id]);
    NextStepGets(K, c, id);
    var step := NextStep(c.sessions[id], id, c.now, c.valid);
    OneMore(K, s, steps, step);
    if After(s, steps + [step]).sessions[id].phase == Finished {
      more := [step];
      WaitsForward(After(s, steps + [step]).sessions[id], After(s, steps + [step]).now);
    } else {
      var rest := ShutdownCompletes(K, s, steps + [step], id);
      more := [step] + rest;
      assert steps + more == steps + [step] + rest;
    }
  }
}
