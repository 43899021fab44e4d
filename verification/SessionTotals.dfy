/** The global byte totals against what all sessions of the process ever delivered. */
module SessionTotals {
  import opened Common
  import opened MapSum
  import opened ByteConservation
  import opened Registry
  import opened Sessions
  import SessionNumbers
  import SessionStreams
  import Tracker

  /** What a session delivered in one direction after its first chunk and has reported since. */
  function Reported(t: Session, dir: Direction): int {
    if t.phase != Running && t.phase != Finished then 0
    else if dir.In? then |t.toServer| - |t.first| - t.up.byteCount
    else |t.toClient| - t.down.byteCount
  }

  ghost function Reports(sessions: map<nat, Session>, p: Protocol, dir: Direction): map<nat, int> {
    map i | i in sessions && sessions[i].proto == p :: Reported(sessions[i], dir)
  }

  ghost predicate Tallies(s: State, p: Protocol, dir: Direction)
    requires ValidProtocol(p)
  {
    Good(s.reg) && Same64(Global(s.reg, p, dir), Total(Reports(s.sessions, p, dir)))
  }

  /** What a loop step hands over to the registry in one direction, when the connection is found. */
  function HandedOver(t: Session, a: Act, o: Outcome, dir: Direction): int {
    if a.LoopDoes? && a.act.Report? && o == Done && a.up == dir.In? then LoopOf(t, a.up).byteCount else 0
  }

  lemma LoopStepReported(t: Session, up: bool, act: LoopAct, at: Time, o: Outcome, valid: set<ApiKey>, dir: Direction)
    requires t.phase == Running && LoopAllowed(t, up, act, at, valid)
    ensures Same64(Reported(LoopEffect(t, up, act, at, o), dir),
                   Reported(t, dir) + HandedOver(t, LoopDoes(up, act), o, dir))
  {
    if act.Wrote? {
      var count := LoopOf(t, up).byteCount;
      var n := |LoopOf(t, up).pc.chunk|;
      SessionStreams.ModuloSum(count, n);
      WroteReported(Reported(t, dir) + count, n, count);
    }
  }

  lemma WroteReported(total: int, n: nat, count: U64)
    ensures Same64(total + n - Add64(count, n % TWO_TO_THE_64), total - count)
  {
  }

  lemma ActReported(K: nat, s: State, t: Session, a: Act, at: Time, o: Outcome, bytesIn: U64, bytesOut: U64,
                    dir: Direction)
    requires SessionStreams.Faithful(t) && Allowed(K, s, t, a, at)
    ensures Same64(Reported(Effect(t, a, at, o, bytesIn, bytesOut), dir), Reported(t, dir) + HandedOver(t, a, o, dir))
  {
    hide GetNumConnections, LoopEffect, LoopAllowed, SessionStreams.LoopSound;
    if a.LoopDoes? {
      LoopStepReported(t, a.up, a.act, at, o, s.valid, dir);
    }
  }

  /** The registry's side of the same step. */
  lemma ActGlobal(reg: Statistics, t: Session, a: Act, at: Time, p: Protocol, dir: Direction)
    requires Good(reg) && ValidProtocol(p)
    ensures var (reg', o) := RegAfter(reg, OpFor(t, a, at));
            && Good(reg')
            && Same64(Global(reg', p, dir), Global(reg, p, dir) + if t.proto == p then HandedOver(t, a, o, dir) else 0)
  {
    hide Apply, Flat, Good, Global;
    var op := OpFor(t, a, at);
    if op.Some? {
      GoodPreserved(reg, op.value);
      FlatRefinement(reg, op.value);
      GlobalStep(reg, op.value, p, dir);
    }
  }

  lemma ReportsPut(sessions: map<nat, Session>, id: nat, t: Session, p: Protocol, dir: Direction)
    requires id in sessions ==> sessions[id].proto == t.proto
    ensures Reports(sessions[id := t], p, dir)
            == if t.proto == p then Reports(sessions, p, dir)[id := Reported(t, dir)] else Reports(sessions, p, dir)
    ensures t.proto == p ==> (id in Reports(sessions, p, dir) <==> id in sessions)
    ensures t.proto == p && id in sessions ==> Reports(sessions, p, dir)[id] == Reported(sessions[id], dir)
  {
  }

  lemma Shift(g: int, g': int, total: int, was: int, now: int, added: int)
    requires Same64(g, total) && Same64(g', g + added) && Same64(now, was + added)
    ensures Same64(g', total + now - was)
  {
    assert g' - (total + now - was) == (g' - (g + added)) + (g - total) - (now - (was + added));
  }

  lemma ActTallies(K: nat, s: State, id: nat, a: Act, at: Time, p: Protocol, dir: Direction)
    requires ValidProtocol(p) && Tallies(s, p, dir) && SessionStreams.AllFaithful(s)
    requires id in s.sessions && Allowed(K, s, s.sessions[id], a, at)
    ensures Tallies(Fire(s, Does(id, a, at)), p, dir)
  {
    hide Effect, RegAfter, OpFor, BytesOf, Allowed, Good, Global, Total, Reports, Reported, HandedOver,
         SessionStreams.Faithful;
    var t := s.sessions[id];
    var (reg, o) := RegAfter(s.reg, OpFor(t, a, at));
    var (bytesIn, bytesOut) := BytesOf(s.reg, KeyFor(t));
    var t' := Effect(t, a, at, o, bytesIn, bytesOut);
    SessionNumbers.EffectKeepsNumber(t, a, at, o, bytesIn, bytesOut);
    ActReported(K, s, t, a, at, o, bytesIn, bytesOut, dir);
    ActGlobal(s.reg, t, a, at, p, dir);
    ReportsPut(s.sessions, id, t', p, dir);
    if t.proto == p {
      TotalUpdate(Reports(s.sessions, p, dir), id, Reported(t', dir));
      Shift(Global(s.reg, p, dir), Global(reg, p, dir), Total(Reports(s.sessions, p, dir)),
            Reported(t, dir), Reported(t', dir), HandedOver(t, a, o, dir));
    } else {
      Shift(Global(s.reg, p, dir), Global(reg, p, dir), Total(Reports(s.sessions, p, dir)), 0, 0, 0);
    }
  }

  lemma StepTallies(K: nat, s: State, step: Step, p: Protocol, dir: Direction)
    requires ValidProtocol(p) && Tallies(s, p, dir) && SessionStreams.AllFaithful(s) && Enabled(K, s, step)
    ensures Tallies(Fire(s, step), p, dir)
  {
    hide Effect, RegAfter, Allowed, Good, Global, Total, Reports, SessionStreams.Faithful, Tracker.Candidate;
    match step
    case Accept(id, increments, proto, interval, at) =>
      if s.M >= 2 && s.counter < s.M {
        var t := Fire(s, step).sessions[id];
        ReportsPut(s.sessions, id, t, p, dir);
        TotalUpdate(Reports(s.sessions, p, dir), id, Reported(t, dir));
      }
    case Does(id, a, at) => ActTallies(K, s, id, a, at, p, dir);
    case UpdateValid(_, _) =>
    case EvictFeeders(readings, _) => EvictIsIdentity(s.reg, readings);
  }

  /** In every reachable state, for each protocol and direction, the global total is the sum over all
      sessions there ever were of what they delivered, less their first chunks and what their loops have
      not reported, modulo 2^64; numbers may even have been reused. */
  lemma {:induction false} TotalsAreDeliveries(K: nat, s: State, steps: seq<Step>, p: Protocol, dir: Direction)
    requires ValidProtocol(p) && Start(s) && IsRun(K, s, steps)
    ensures Same64(Global(After(s, steps).reg, p, dir), Total(Reports(After(s, steps).sessions, p, dir)))
    ensures Good(After(s, steps).reg)
  {
    hide Fire, Enabled, Good, Global, SessionStreams.AllFaithful;
    if steps == [] {
      StartTallies(s, p, dir);
    } else {
      var prefix := steps[..|steps| - 1];
      TotalsAreDeliveries(K, s, prefix, p, dir);
      SessionStreams.FaithfulAlways(K, s, prefix);
      StepTallies(K, After(s, prefix), steps[|steps| - 1], p, dir);
    }
  }

  lemma StartTallies(s: State, p: Protocol, dir: Direction)
    requires Start(s) && ValidProtocol(p)
    ensures Tallies(s, p, dir)
  {
    assert Reports(s.sessions, p, dir) == map[];
  }
}
