/** What the registry says of the sessions of the process: the endpoints and the time of a connection are those
    its session registered, and the label and code of a feeder are those of the last authentication since its
    entry was created, which a feeder can lose. */
module SessionRecords {
  import opened Common
  import opened Registry
  import opened Sessions
  import opened SessionNumbers
  import RegistryRecords
  import Sections = RegistrySections
  import SectionedPanic
  import SessionLimit
  import Tracker

  // ---- the connection of a running session

  /** Session `id` registers these endpoints at this time. */
  ghost predicate RegistersAs(step: Step, id: nat, c: ConnectionDetail) {
    && step.Does? && step.id == id && step.a.Register?
    && step.a.src == c.src && step.a.dst == c.dst && step.a.connected == c.timeConnected
  }

  lemma JustRegistered(K: nat, s: State, step: Step)
    requires Mirrors(s) && ProtocolsValid(s) && Enabled(K, s, step) && step.Does? && step.a.Register?
    ensures var s', fk := Fire(s, step), KeyFor(s.sessions[step.id]);
            && step.id in s'.sessions && KeyFor(s'.sessions[step.id]) == fk
            && fk in Flat(s'.reg) && RegistersAs(step, step.id, Flat(s'.reg)[fk])
  {
    hide Apply, Flat, Good, BytesOf;
    FlatEffect(s, step.id, step.a, step.at, K);
    StartsAsAllowed(K, s, step.id, step.a, step.at);
  }

  lemma OwnStaysRegistered(K: nat, s: State, step: Step)
    requires Mirrors(s) && ProtocolsValid(s) && Enabled(K, s, step) && step.Does? && !step.a.Register?
    requires IsRunning(Fire(s, step), step.id)
    ensures StillRegistered(s, Fire(s, step), step.id)
  {
    hide Effect, Apply, OpFor, BytesOf, Good, Flat, RegAfter, Allowed;
    var t := s.sessions[step.id];
    var (reg, o) := RegAfter(s.reg, OpFor(t, step.a, step.at));
    var (bytesIn, bytesOut) := BytesOf(s.reg, KeyFor(t));
    FlatEffect(s, step.id, step.a, step.at, K);
    PhaseEffect(K, s, step.id, step.a, step.at, o, bytesIn, bytesOut);
    StartsAsAllowed(K, s, step.id, step.a, step.at);
    MirrorsSession(s, step.id);
  }

  lemma OthersStayRegistered(K: nat, s: State, step: Step, i: nat)
    requires Numbered(s) && s.advance <= s.M - 1 && Mirrors(s) && ProtocolsValid(s) && Enabled(K, s, step)
    requires step.Does? && step.id != i && IsRunning(Fire(s, step), i)
    ensures StillRegistered(s, Fire(s, step), i)
  {
    hide Effect, Apply, OpFor, BytesOf, Good, Flat, Numbered, RegAfter, Allowed;
    FlatEffect(s, step.id, step.a, step.at, K);
    MirrorsSession(s, i);
    if KeyFor(s.sessions[i]) == KeyFor(s.sessions[step.id]) {
      NumbersDistinct(s, i, step.id);
    }
  }

  ghost predicate StillRegistered(s: State, s': State, i: nat) {
    && IsRunning(s, i) && IsRunning(s', i) && KeyFor(s'.sessions[i]) == KeyFor(s.sessions[i])
    && KeyFor(s.sessions[i]) in Flat(s.reg) && KeyFor(s.sessions[i]) in Flat(s'.reg)
    && var c, c' := Flat(s.reg)[KeyFor(s.sessions[i])], Flat(s'.reg)[KeyFor(s.sessions[i])];
       c'.src == c.src && c'.dst == c.dst && c'.timeConnected == c.timeConnected
  }

  /** Any other step leaves the endpoints and the time of a running session's connection alone. */
  lemma StaysRegistered(K: nat, s: State, step: Step, i: nat)
    requires Numbered(s) && s.advance <= s.M - 1 && Mirrors(s) && ProtocolsValid(s) && Enabled(K, s, step)
    requires IsRunning(Fire(s, step), i) && !(step.Does? && step.id == i && step.a.Register?)
    ensures StillRegistered(s, Fire(s, step), i)
  {
    hide Effect, Apply, OpFor, BytesOf, Good, Flat, Numbered, RegAfter, Allowed, Tracker.Candidate, EvictStale;
    match step
    case Does(id, a, at) =>
      if i == id {
        OwnStaysRegistered(K, s, step);
      } else {
        OthersStayRegistered(K, s, step, i);
      }
    case EvictFeeders(readings, _) =>
      EvictIsIdentity(s.reg, readings);
      MirrorsSession(s, i);
    case Accept(_, _, _, _, _) => MirrorsSession(s, i);
    case UpdateValid(_, _) => MirrorsSession(s, i);
  }

  /** In every run the registry holds, for each running session, the endpoints and the time with which that
      session registered. */
  lemma {:induction false} RunningIsRecorded(K: nat, s: State, steps: seq<Step>, id: nat) returns (j: int)
    requires Start(s) && IsRun(K, s, steps) && After(s, steps).advance <= s.M - 1 && IsRunning(After(s, steps), id)
    ensures 0 <= j < |steps|
    ensures var c := After(s, steps);
            KeyFor(c.sessions[id]) in Flat(c.reg) && RegistersAs(steps[j], id, Flat(c.reg)[KeyFor(c.sessions[id])])
  {
    hide Fire, Enabled, Flat, Good, Numbered, Mirrors, ProtocolsValid, KeyFor;
    if steps == [] {
      assert false;
    }
    var prefix, step := steps[..|steps| - 1], steps[|steps| - 1];
    var c := After(s, prefix);
    NumberedAlways(K, s, prefix);
    NumberedKept(K, c, step);
    RegistryMirrorsSessions(K, s, prefix);
    if step.Does? && step.id == id && step.a.Register? {
      JustRegistered(K, c, step);
      j := |steps| - 1;
    } else {
      StaysRegistered(K, c, step, id);
      j := RunningIsRecorded(K, s, prefix, id);
    }
  }

  // ---- the label of a feeder

  /** The step authenticates a session of that feeder. */
  ghost predicate Authenticates(s: State, step: Step, key: ApiKey) {
    step.Does? && step.a.Authenticate? && step.id in s.sessions && s.sessions[step.id].key == key
  }

  lemma StepLabels(s: State, step: Step, key: ApiKey)
    requires key in Fire(s, step).reg.feeders && s.reg.initialised
    ensures var f' := Fire(s, step).reg.feeders[key];
            if Authenticates(s, step, key) then f'.labelText == step.a.labelText && f'.code == step.a.code
            else if key in s.reg.feeders
            then f'.labelText == s.reg.feeders[key].labelText && f'.code == s.reg.feeders[key].code
            else f'.labelText == "" && f'.code == ""
  {
    hide Apply, Effect, BytesOf, Tracker.Candidate;
    match step
    case Does(id, a, at) =>
      if id in s.sessions {
        var op := OpFor(s.sessions[id], a, at);
        if op.Some? {
          OpLabels(s.reg, op.value, key);
        }
      }
    case EvictFeeders(_, _) =>
    case Accept(_, _, _, _, _) =>
    case UpdateValid(_, _) =>
  }

  lemma OpLabels(reg: Statistics, op: Op, key: ApiKey)
    requires reg.initialised && key in Apply(reg, op).0.feeders
    ensures var f' := Apply(reg, op).0.feeders[key];
            if RegistryRecords.Labels(op, key) then f'.labelText == op.f.labelText && f'.code == op.f.code
            else if key in reg.feeders
            then f'.labelText == reg.feeders[key].labelText && f'.code == reg.feeders[key].code
            else f'.labelText == "" && f'.code == ""
  {
    hide Apply;
    if RegistryRecords.Labels(op, key) {
      RegistryRecords.OutcomeOfLabelling(reg, op);
      RegistryRecords.RegisteredFeeder(reg, op.f, op.now);
    } else if key in reg.feeders {
      RegistryRecords.LabelKept(reg, op, key);
    } else {
      RegistryRecords.CreatedBlank(reg, op, key);
    }
  }

  lemma {:induction false} RegistryInitialised(K: nat, s: State, steps: seq<Step>)
    requires Start(s) && IsRun(K, s, steps)
    ensures After(s, steps).reg.initialised
  {
    hide Fire, Enabled;
    if steps != [] {
      RegistryInitialised(K, s, steps[..|steps| - 1]);
      FireInitialised(After(s, steps[..|steps| - 1]), steps[|steps| - 1]);
    }
  }

  lemma FireInitialised(s: State, step: Step)
    ensures Fire(s, step).reg.initialised == s.reg.initialised
  {
    hide Apply, Effect, BytesOf, Tracker.Candidate, OpFor;
    if step.Does? && step.id in s.sessions {
      var op := OpFor(s.sessions[step.id], step.a, step.at);
      if op.Some? {
        InitialisedKept(s.reg, op.value);
      }
    }
  }

  /** In every run an entry of the registry has the label and code of the last authentication of its feeder
      since the entry was created; if there was none since, it has neither. */
  lemma {:induction false} LabelIsTheLastAuthenticated(K: nat, s: State, steps: seq<Step>, key: ApiKey) returns (i: int)
    requires Start(s) && IsRun(K, s, steps) && key in After(s, steps).reg.feeders
    ensures 0 <= i < |steps|
    ensures forall j :: i < j <= |steps| ==> key in After(s, steps[..j]).reg.feeders
    ensures forall j :: i < j < |steps| ==> !Authenticates(After(s, steps[..j]), steps[j], key)
    ensures var f := After(s, steps).reg.feeders[key];
            if Authenticates(After(s, steps[..i]), steps[i], key)
            then f.labelText == steps[i].a.labelText && f.code == steps[i].a.code
            else key !in After(s, steps[..i]).reg.feeders && f.labelText == "" && f.code == ""
  {
    hide Fire, Enabled, Authenticates;
    if steps == [] {
      assert false;
    }
    var prefix, step := steps[..|steps| - 1], steps[|steps| - 1];
    var c := After(s, prefix);
    RegistryInitialised(K, s, prefix);
    StepLabels(c, step, key);
    assert steps[..|steps|] == steps;
    if !Authenticates(c, step, key) && key in c.reg.feeders {
      i := LabelIsTheLastAuthenticated(K, s, prefix, key);
      assert forall j :: 0 <= j < |steps| ==> prefix[..j] == steps[..j];
    } else {
      i := |steps| - 1;
    }
  }

  // ---- how a connected feeder loses its label

  ghost predicate Blank(s: State, j: nat) {
    && IsRunning(s, j) && s.sessions[j].key in s.reg.feeders
    && s.reg.feeders[s.sessions[j].key].labelText == "" && s.reg.feeders[s.sessions[j].key].code == ""
  }

  lemma TornDown(K: nat, a: State, i: nat, j: nat)
    requires Sound(a) && SectionedPanic.Clash(a, i, j)
    ensures var step := Does(i, Teardown, a.now);
            var a' := Fire(a, step);
            && Enabled(K, a, step) && a'.now == a.now && a'.advance == a.advance
            && j in a'.sessions && a'.sessions[j] == a.sessions[j] && a'.sessions[j].phase == Sent
            && a'.sessions[j].key !in a'.reg.feeders
  {
    hide Good, Flat, Numbered, UnregisterConnectionMain, Effect, BytesOf;
    SectionedPanic.OnlyConnection(a, i, j);
    var conn := ConnFor(a.sessions[i], "", "");
    assert InitFeeder(a.reg, conn.key) == a.reg;
    Sections.LastOneDeletes(a.reg, conn, a.now);
  }

  lemma RegistersBlank(K: nat, a: State, j: nat)
    requires Sound(a) && j in a.sessions && a.sessions[j].phase == Sent && a.sessions[j].key !in a.reg.feeders
    ensures var step := Does(j, Register("", "", a.now), a.now);
            && Enabled(K, a, step) && Blank(Fire(a, step), j)
            && Fire(a, step).sessions[j].key == a.sessions[j].key
  {
    hide Good, Flat, Numbered, Apply, BytesOf;
    var step := Does(j, Register("", "", a.now), a.now);
    FlatEffect(a, j, step.a, a.now, K);
    StartsAsAllowed(K, a, j, step.a, a.now);
    var reg := RegAfter(a.reg, OpFor(a.sessions[j], step.a, a.now)).0;
    assert Has(reg, KeyFor(a.sessions[j]));
    RegistryRecords.CreatedBlank(a.reg, OpFor(a.sessions[j], step.a, a.now).value, a.sessions[j].key);
  }

  /** From every reachable state in which a session is the only one of its feeder that runs, and another of
      that feeder is about to be registered, some continuation has the other run without label and code. */
  lemma LastSessionCanLoseTheLabel(K: nat, s: State, steps: seq<Step>, i: nat, j: nat) returns (longer: seq<Step>)
    requires Start(s) && IsRun(K, s, steps) && After(s, steps).advance <= s.M - 1
    requires SectionedPanic.Last(After(s, steps), i, j)
    ensures steps <= longer && IsRun(K, s, longer) && Blank(After(s, longer), j)
    ensures After(s, longer).sessions[j].key == After(s, steps).sessions[j].key
  {
    hide After, IsRun, Start, Fire, Enabled, Sound, SectionedPanic.Last, SectionedPanic.Clash;
    var a := After(s, steps);
    SectionedPanic.LastRuns(a, i, j);
    SectionedPanic.Cancelled(K, a, i, j);
    OneMore(K, s, steps, Does(i, Cancel, a.now));
    longer := SectionedPanic.Quiesces(K, s, steps + [Does(i, Cancel, a.now)], i, j);
    a := After(s, longer);
    RegistryMirrorsSessions(K, s, longer);
    TornDown(K, a, i, j);
    OneMore(K, s, longer, Does(i, Teardown, a.now));
    longer := longer + [Does(i, Teardown, a.now)];
    RegistryMirrorsSessions(K, s, longer);
    RegistersBlank(K, After(s, longer), j);
    OneMore(K, s, longer, Does(j, Register("", "", a.now), a.now));
    longer := longer + [Does(j, Register("", "", a.now), a.now)];
  }

  lemma StillIn<T>(a: seq<T>, b: seq<T>, x: T)
    requires a <= b && x in a
    ensures x in b
  {
  }

  /** A feeder that connects for BEAST and for MLAT can lose its label: some run from start-up authenticates
      both sessions with it, and ends with the second one running and registered without it. */
  lemma BeastAndMlatCanLoseTheLabel(K: nat, s: State, key: ApiKey, labelText: string, code: string)
    returns (longer: seq<Step>)
    requires K >= 1 && Start(s) && key in s.valid && s.M >= 3
    ensures IsRun(K, s, longer)
    ensures Does(0, Authenticate(labelText, code), s.now) in longer
    ensures Does(1, Authenticate(labelText, code), s.now) in longer
    ensures Blank(After(s, longer), 1) && After(s, longer).sessions[1].key == key
  {
    hide After, IsRun, Blank;
    NoSteps(K, s);
    var first := SectionedPanic.Enters(K, s, [], 0, key, BEAST, labelText, code);
    var c := After(s, first);
    var steps := SessionLimit.ActDone(K, s, first, 0, Register("", "", c.now), c.now);
    var second := SectionedPanic.Enters(K, s, steps, 1, key, MLAT, labelText, code);
    longer := LastSessionCanLoseTheLabel(K, s, second, 0, 1);
    StillIn(first, longer, Does(0, Authenticate(labelText, code), s.now));
    StillIn(second, longer, Does(1, Authenticate(labelText, code), s.now));
  }
}
