/** Undisturbed runs are all runs of whole operations, and beyond them lies a panic: two sessions of one
    feeder reach it from start-up. */
module SectionedPanic {
  import opened Common
  import opened Registry
  import opened Sessions
  import opened SessionNumbers
  import ByteConservation
  import Sections = RegistrySections
  import SessionLifecycle
  import SessionLimit
  import SessionTotals
  import Split = SessionSections

  // ---- the other direction: whole operations are sections that follow each other

  lemma Extended(K: nat, s: State, moves: seq<Split.Move>, move: Split.Move) returns (longer: seq<Split.Move>)
    requires Split.IsRun(K, s, moves) && Split.Enabled(K, Split.After(s, moves), move)
    ensures Split.IsRun(K, s, longer) && Split.After(s, longer) == Split.Fire(Split.After(s, moves), move).0
    ensures Split.NeverDisturbed(s, moves) && Split.Undisturbed(Split.After(s, longer)) ==>
              Split.NeverDisturbed(s, longer)
  {
    hide Split.Fire, Split.Enabled, Split.Undisturbed;
    longer := moves + [move];
    assert longer[..|moves|] == moves;
  }

  lemma InitKeepsBytes(reg: Statistics, key: ApiKey, fk: FlatKey)
    ensures BytesOf(InitFeeder(reg, key), fk) == BytesOf(reg, fk)
  {
  }

  /** An operation whose two sections follow each other directly is the whole operation. */
  lemma TwoInARow(K: nat, a: State, id: nat, act: Act, at: Time)
    requires Good(a.reg) && Split.TwoSections(act) && Enabled(K, a, Does(id, act, at))
    requires Sections.MayBegin(a.reg, Split.PendingOf(a.sessions[id], act))
    ensures var c := Split.Split(a, map[]);
            var c1 := Split.Fire(c, Split.Begin(id, act, at)).0;
            && Split.Enabled(K, c, Split.Begin(id, act, at)) && Split.Enabled(K, c1, Split.Finish(id, at))
            && Split.Undisturbed(c1)
            && Split.Fire(c1, Split.Finish(id, at)).0 == Split.Split(Fire(a, Does(id, act, at)), map[])
  {
    hide Good, Apply, Sections.Main, Effect, BytesOf;
    var t := a.sessions[id];
    var p := Split.PendingOf(t, act);
    Split.WholeOp(t, act, at);
    Sections.InitThenMain(a.reg, p, Split.Connected(act), at);
    GoodPreserved(a.reg, OpFor(t, act, at).value);
    InitKeepsBytes(a.reg, t.key, KeyFor(t));
  }

  lemma GoodAlways(K: nat, s: State, steps: seq<Step>)
    requires Start(s) && IsRun(K, s, steps)
    ensures Good(After(s, steps).reg)
  {
    SessionTotals.TotalsAreDeliveries(K, s, steps, BEAST, ByteConservation.In);
  }

  /** Every run of the session machine is an undisturbed run of the sectioned one. */
  lemma {:induction false} RunsAreSectionedRuns(K: nat, s: State, steps: seq<Step>) returns (moves: seq<Split.Move>)
    requires Start(s) && IsRun(K, s, steps)
    ensures Split.IsRun(K, s, moves) && Split.NeverDisturbed(s, moves)
    ensures Split.After(s, moves) == Split.Split(After(s, steps), map[])
  {
    hide Split.Enabled, Split.Fire, Fire, Enabled, Start, Good;
    if steps == [] {
      moves := [];
    } else {
      var prefix, step := steps[..|steps| - 1], steps[|steps| - 1];
      var a := After(s, prefix);
      GoodAlways(K, s, prefix);
      moves := RunsAreSectionedRuns(K, s, prefix);
      if InTwo(a, step) {
        Does2(K, a, step);
        moves := Extended(K, s, moves, Split.Begin(step.id, step.a, step.at));
        moves := Extended(K, s, moves, Split.Finish(step.id, step.at));
      } else {
        InOne(K, a, step);
        moves := Extended(K, s, moves, Split.One(step));
      }
    }
  }

  ghost predicate InTwo(a: State, step: Step) {
    step.Does? && step.id in a.sessions && Split.TwoSections(step.a)
    && Sections.MayBegin(a.reg, Split.PendingOf(a.sessions[step.id], step.a))
  }

  lemma Does2(K: nat, a: State, step: Step)
    requires Good(a.reg) && InTwo(a, step) && Enabled(K, a, step)
    ensures var c := Split.Split(a, map[]);
            var c1 := Split.Fire(c, Split.Begin(step.id, step.a, step.at)).0;
            && Split.Enabled(K, c, Split.Begin(step.id, step.a, step.at))
            && Split.Enabled(K, c1, Split.Finish(step.id, step.at))
            && Split.Undisturbed(c1)
            && Split.Fire(c1, Split.Finish(step.id, step.at)).0 == Split.Split(Fire(a, step), map[])
  {
    hide Good, Split.Fire, Split.Enabled, Fire, Enabled;
    TwoInARow(K, a, step.id, step.a, step.at);
  }

  lemma InOne(K: nat, a: State, step: Step)
    requires Enabled(K, a, step) && !InTwo(a, step)
    ensures Split.Enabled(K, Split.Split(a, map[]), Split.One(step))
    ensures Split.Fire(Split.Split(a, map[]), Split.One(step)).0 == Split.Split(Fire(a, step), map[])
  {
    hide Fire;
  }

  // ---- the panic

  /** Session i is about to be torn down and is the only one of its feeder that runs; session j of the
      same feeder is about to be registered. */
  ghost predicate Clash(a: State, i: nat, j: nat) {
    && IsRunning(a, i) && a.sessions[i].cancelled && Over(a.sessions[i].up) && Over(a.sessions[i].down)
    && Last(a, i, j)
  }

  ghost predicate Last(a: State, i: nat, j: nat) {
    && IsRunning(a, i) && j in a.sessions && a.sessions[j].phase == Sent && a.sessions[j].key == a.sessions[i].key
    && (forall x :: IsRunning(a, x) && a.sessions[x].key == a.sessions[i].key ==> x == i)
  }

  lemma OwnStepKeepsLast(K: nat, a: State, i: nat, j: nat, act: Act, at: Time)
    requires Last(a, i, j) && Enabled(K, a, Does(i, act, at))
    requires i in Fire(a, Does(i, act, at)).sessions && Fire(a, Does(i, act, at)).sessions[i].phase == Running
    ensures Last(Fire(a, Does(i, act, at)), i, j) && Fire(a, Does(i, act, at)).sessions[j] == a.sessions[j]
  {
    hide Effect, RegAfter, OpFor, BytesOf, GetNumConnections, LoopAllowed;
    var a' := Fire(a, Does(i, act, at));
    var (reg, o) := RegAfter(a.reg, OpFor(a.sessions[i], act, at));
    var (bytesIn, bytesOut) := BytesOf(a.reg, KeyFor(a.sessions[i]));
    PhaseEffect(K, a, i, act, at, o, bytesIn, bytesOut);
    forall x | IsRunning(a', x) && a'.sessions[x].key == a'.sessions[i].key ensures x == i {
      assert x != i ==> IsRunning(a, x);
    }
  }

  /** The running session can be cancelled and both its loops ended, with nothing else happening. */
  lemma {:induction false} Quiesces(K: nat, s: State, steps: seq<Step>, i: nat, j: nat) returns (longer: seq<Step>)
    requires Start(s) && IsRun(K, s, steps) && Last(After(s, steps), i, j) && After(s, steps).sessions[i].cancelled
    ensures IsRun(K, s, longer) && Clash(After(s, longer), i, j) && After(s, longer).advance == After(s, steps).advance
    ensures j in After(s, steps).sessions && j in After(s, longer).sessions
    ensures steps <= longer && After(s, longer).sessions[j] == After(s, steps).sessions[j]
    decreases SessionLifecycle.Remaining(After(s, steps).sessions[i])
  {
    hide After, IsRun, Start, Fire, Enabled, Last, SessionLifecycle.Remaining, SessionLifecycle.Deadline, Over;
    var a := After(s, steps);
    LastRuns(a, i, j);
    var t := a.sessions[i];
    if Over(t.up) && Over(t.down) {
      longer := steps;
    } else {
      SessionLifecycle.NextStepGets(K, a, i);
      var step := SessionLifecycle.NextStep(t, i, a.now, a.valid);
      OneMore(K, s, steps, step);
      LoopStepRuns(K, a, i, step);
      OwnStepKeepsLast(K, a, i, j, step.a, step.at);
      longer := Quiesces(K, s, steps + [step], i, j);
      assert steps <= steps + [step];
    }
  }

  lemma LastRuns(a: State, i: nat, j: nat)
    requires Last(a, i, j)
    ensures IsRunning(a, i) && j in a.sessions
  {
  }

  lemma LoopStepRuns(K: nat, a: State, i: nat, step: Step)
    requires IsRunning(a, i) && step.Does? && step.id == i && step.a.LoopDoes? && Enabled(K, a, step)
    ensures i in Fire(a, step).sessions && Fire(a, step).sessions[i].phase == Running
  {
    hide RegAfter, OpFor, BytesOf, LoopNext, LoopAllowed;
  }

  lemma OnlyConnection(a: State, i: nat, j: nat)
    requires Sound(a) && Last(a, i, j)
    ensures KeyFor(a.sessions[i]) in Flat(a.reg)
    ensures forall fk :: fk in Flat(a.reg) && fk.key == a.sessions[i].key ==> fk == KeyFor(a.sessions[i])
    ensures a.reg.initialised && Good(a.reg) && a.sessions[i].key in a.reg.feeders
    ensures ValidProtocol(a.sessions[i].proto) && ValidProtocol(a.sessions[j].proto)
  {
    hide Good;
    MirrorsSession(a, i);
    forall fk | fk in Flat(a.reg) && fk.key == a.sessions[i].key ensures fk == KeyFor(a.sessions[i]) {
      var x :| RunsFor(a, x, fk);
    }
    assert Has(a.reg, KeyFor(a.sessions[i]));
  }

  /** With both second sections ahead, the teardown finishes first and deletes the feeder; registering
      the other session then panics. */
  lemma ClashPanics(K: nat, s: State, moves: seq<Split.Move>, i: nat, j: nat) returns (longer: seq<Split.Move>)
    requires Split.IsRun(K, s, moves) && Split.After(s, moves).doing == map[]
    requires var a := Split.After(s, moves).s; Sound(a) && Clash(a, i, j)
    ensures Split.IsRun(K, s, longer)
    ensures var c := Split.After(s, longer);
            && Split.Enabled(K, c, Split.Finish(j, c.s.now)) && Split.Fire(c, Split.Finish(j, c.s.now)).1 == Panic
  {
    hide Split.After, Split.IsRun, Split.NeverDisturbed, Good, Flat, Effect, Numbered;
    var a := Split.After(s, moves).s;
    OnlyConnection(a, i, j);
    var conn := ConnFor(a.sessions[i], "", "");
    Sections.LastOneDeletes(a.reg, conn, a.now);
    LastUnregisters(a.reg, conn, a.now);
    FirstSections(K, a, i, j);
    SecondSection(a, i, j);
    longer := Extended(K, s, moves, Split.Begin(j, Register("", "", a.now), a.now));
    longer := Extended(K, s, longer, Split.Begin(i, Teardown, a.now));
    longer := Extended(K, s, longer, Split.Finish(i, a.now));
  }

  lemma LastUnregisters(reg: Statistics, conn: Connection, now: Time)
    requires Good(reg) && ValidProtocol(conn.proto) && KeyOf(conn) in Flat(reg)
    ensures UnregisterConnectionMain(reg, conn, now).1 == Done
  {
    hide Good, Flat, UnregisterConnectionMain;
    UnregisterFlat(reg, conn, now);
  }

  ghost function Begun(a: State, i: nat, j: nat): Split.Split {
    Split.Split(a, map[j := Register("", "", a.now), i := Teardown])
  }

  lemma FirstSections(K: nat, a: State, i: nat, j: nat)
    requires Clash(a, i, j) && a.reg.initialised && a.sessions[i].key in a.reg.feeders
    requires ValidProtocol(a.sessions[i].proto) && ValidProtocol(a.sessions[j].proto)
    ensures var c, r := Split.Split(a, map[]), Register("", "", a.now);
            var c1 := Split.Fire(c, Split.Begin(j, r, a.now)).0;
            && Split.Enabled(K, c, Split.Begin(j, r, a.now)) && Split.Enabled(K, c1, Split.Begin(i, Teardown, a.now))
            && Split.Fire(c1, Split.Begin(i, Teardown, a.now)).0 == Begun(a, i, j)
            && Split.Enabled(K, Begun(a, i, j), Split.Finish(i, a.now))
  {
  }

  lemma SecondSection(a: State, i: nat, j: nat)
    requires Clash(a, i, j)
    requires var r := UnregisterConnectionMain(a.reg, ConnFor(a.sessions[i], "", ""), a.now);
             a.sessions[i].key !in r.0.feeders && r.1 == Done
    ensures var c := Split.Fire(Begun(a, i, j), Split.Finish(i, a.now)).0;
            && c.s.now == a.now && j in c.doing && j in c.s.sessions
            && Split.Fire(c, Split.Finish(j, c.s.now)).1 == Panic
  {
    hide UnregisterConnectionMain, Effect, BytesOf;
  }

  /** From every reachable state in which a session is the only one of its feeder that runs, and another of
      that feeder is about to be registered, there is a continuation that panics. */
  lemma LastSessionCanPanic(K: nat, s: State, steps: seq<Step>, i: nat, j: nat) returns (moves: seq<Split.Move>)
    requires Start(s) && IsRun(K, s, steps) && After(s, steps).advance <= s.M - 1 && Last(After(s, steps), i, j)
    ensures Split.IsRun(K, s, moves)
    ensures var c := Split.After(s, moves);
            && Split.Enabled(K, c, Split.Finish(j, c.s.now)) && Split.Fire(c, Split.Finish(j, c.s.now)).1 == Panic
  {
    hide After, IsRun, Start, Last, Clash, Sound, Split.After, Split.IsRun, Split.NeverDisturbed, Split.Fire,
         Split.Enabled;
    var a := After(s, steps);
    LastRuns(a, i, j);
    Cancelled(K, a, i, j);
    OneMore(K, s, steps, Does(i, Cancel, a.now));
    var longer := Quiesces(K, s, steps + [Does(i, Cancel, a.now)], i, j);
    RegistryMirrorsSessions(K, s, longer);
    moves := RunsAreSectionedRuns(K, s, longer);
    moves := ClashPanics(K, s, moves, i, j);
  }

  lemma Cancelled(K: nat, a: State, i: nat, j: nat)
    requires Last(a, i, j)
    ensures var step := Does(i, Cancel, a.now);
            && Enabled(K, a, step) && i in Fire(a, step).sessions && Fire(a, step).sessions[i].cancelled
            && Last(Fire(a, step), i, j) && Fire(a, step).advance == a.advance
            && Fire(a, step).sessions[j] == a.sessions[j]
  {
    OwnStepKeepsLast(K, a, i, j, Cancel, a.now);
  }

  // ---- from start-up

  ghost predicate NoneUnderWay(c: State, key: ApiKey, proto: Protocol) {
    forall x :: x in c.sessions && c.sessions[x].key == key && c.sessions[x].proto == proto ==>
      c.sessions[x].phase != Admitted && c.sessions[x].phase != Sent && c.sessions[x].phase != Running
  }

  /** Beside whatever there was, session `id` of that feeder and protocol is in this phase. */
  ghost predicate Entered(c: State, c': State, id: nat, key: ApiKey, proto: Protocol, phase: Phase) {
    && c'.sessions.Keys == c.sessions.Keys + {id} && c'.advance == c.advance + 1 && c'.valid == c.valid
    && c'.now == c.now
    && (forall x :: x in c.sessions ==> c'.sessions[x] == c.sessions[x])
    && c'.sessions[id].key == key && c'.sessions[id].proto == proto && c'.sessions[id].phase == phase
  }

  lemma Joins(K: nat, s: State, steps: seq<Step>, id: nat, key: ApiKey, proto: Protocol, labelText: string,
              code: string)
    returns (longer: seq<Step>)
    requires K >= 1 && Start(s) && IsRun(K, s, steps) && After(s, steps).advance + 1 <= s.M - 1
    requires id !in After(s, steps).sessions && key in After(s, steps).valid
    ensures IsRun(K, s, longer) && Entered(After(s, steps), After(s, longer), id, key, proto, Authenticated)
    ensures steps <= longer && Does(id, Authenticate(labelText, code), After(s, steps).now) in longer
  {
    hide After, IsRun, Numbered, OpFor, Apply;
    NumberedAlways(K, s, steps);
    SessionLimit.NumberedBounds(After(s, steps));
    var c := After(s, steps);
    OneMore(K, s, steps, Accept(id, 1, proto, 0, c.now));
    longer := steps + [Accept(id, 1, proto, 0, c.now)];
    longer := SessionLimit.ActDone(K, s, longer, id, LookUp(key, []), c.now);
    longer := SessionLimit.ActDone(K, s, longer, id, Authenticate(labelText, code), c.now);
  }

  lemma Enters(K: nat, s: State, steps: seq<Step>, id: nat, key: ApiKey, proto: Protocol, labelText: string,
               code: string)
    returns (longer: seq<Step>)
    requires K >= 1 && Start(s) && IsRun(K, s, steps) && After(s, steps).advance + 1 <= s.M - 1
    requires id !in After(s, steps).sessions && key in After(s, steps).valid
    requires ValidProtocol(proto) && NoneUnderWay(After(s, steps), key, proto)
    ensures IsRun(K, s, longer) && Entered(After(s, steps), After(s, longer), id, key, proto, Sent)
    ensures steps <= longer && Does(id, Authenticate(labelText, code), After(s, steps).now) in longer
  {
    hide After, IsRun, Start, Sound, GetNumConnections;
    var c := After(s, steps);
    longer := Joins(K, s, steps, id, key, proto, labelText, code);
    var c' := After(s, longer);
    RegistryMirrorsSessions(K, s, longer);
    CountIsLive(c', key, proto);
    NobodyCounts(c', key, proto);
    longer := SessionLimit.ActDone(K, s, longer, id, Admit, c.now);
    longer := SessionLimit.ActDone(K, s, longer, id, SendFirst, c.now);
  }

  lemma NobodyCounts(c: State, key: ApiKey, proto: Protocol)
    requires NoneUnderWay(c, key, proto)
    ensures Live(c, key, proto) == {} && Pending(c, key, proto) == {}
  {
  }

  /** A feeder that connects for BEAST and for MLAT can bring the process down: some run from start-up
      reaches the panic. */
  lemma BeastAndMlatCanPanic(K: nat, s: State, key: ApiKey) returns (moves: seq<Split.Move>)
    requires K >= 1 && Start(s) && key in s.valid && s.M >= 3
    ensures Split.IsRun(K, s, moves)
    ensures var c := Split.After(s, moves);
            && Split.Enabled(K, c, Split.Finish(1, c.s.now)) && Split.Fire(c, Split.Finish(1, c.s.now)).1 == Panic
  {
    hide After, IsRun, Split.After, Split.IsRun, Split.Fire, Split.Enabled;
    NoSteps(K, s);
    var steps := Enters(K, s, [], 0, key, BEAST, "", "");
    var c := After(s, steps);
    steps := SessionLimit.ActDone(K, s, steps, 0, Register("", "", c.now), c.now);
    steps := Enters(K, s, steps, 1, key, MLAT, "", "");
    moves := LastSessionCanPanic(K, s, steps, 0, 1);
  }
}
