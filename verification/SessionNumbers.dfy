/** Connection numbers are unique among all sessions, so the registry mirrors the running sessions
    exactly: nothing is overwritten, no running session is missing, and the limit check counts them. */
module SessionNumbers {
  import opened Common
  import opened MapSum
  import opened Registry
  import opened Sessions
  import RegistryViews
  import Tracker

  /** Every session holds the number drawn at its own position of the cyclic sequence. */
  ghost predicate Numbered(s: State) {
    && s.M >= 2 && s.counter < s.M && s.counter == Tracker.Candidate(s.M, 0, s.advance)
    && (forall i :: i in s.sessions ==> HoldsTicket(s, i))
    && (forall i, j :: i in s.sessions && j in s.sessions && s.sessions[i].ticket == s.sessions[j].ticket ==> i == j)
  }

  ghost predicate HoldsTicket(s: State, i: nat)
    requires s.M >= 2 && i in s.sessions
  {
    var t := s.sessions[i];
    1 <= t.ticket <= s.advance && t.num == Tracker.Candidate(s.M, 0, t.ticket)
  }

  lemma EffectKeepsNumber(t: Session, a: Act, at: Time, o: Outcome, bytesIn: U64, bytesOut: U64)
    ensures var t' := Effect(t, a, at, o, bytesIn, bytesOut);
            t'.num == t.num && t'.ticket == t.ticket && t'.proto == t.proto
  {
    hide LoopNext;
  }

  lemma NumberedKept(K: nat, s: State, step: Step)
    requires Numbered(s) && Enabled(K, s, step)
    ensures Numbered(Fire(s, step)) && s.advance <= Fire(s, step).advance && Fire(s, step).M == s.M
  {
    hide Effect, Apply, EvictStale, Allowed, OpFor, BytesOf, Tracker.Candidate;
    match step
    case Accept(id, increments, proto, interval, at) =>
      Tracker.CandidateCompose(s.M, 0, s.advance, increments);
    case Does(id, a, at) =>
      var (reg, o) := RegAfter(s.reg, OpFor(s.sessions[id], a, at));
      var (bytesIn, bytesOut) := BytesOf(s.reg, KeyFor(s.sessions[id]));
      EffectKeepsNumber(s.sessions[id], a, at, o, bytesIn, bytesOut);
      var s' := Fire(s, step);
      forall i | i in s'.sessions ensures HoldsTicket(s', i) {
        assert HoldsTicket(s, i);
      }
    case UpdateValid(_, _) =>
    case EvictFeeders(_, _) =>
  }

  lemma {:induction false} NumberedAlways(K: nat, s: State, steps: seq<Step>)
    requires Start(s) && IsRun(K, s, steps)
    ensures Numbered(After(s, steps)) && After(s, steps).M == s.M
  {
    hide Fire, Enabled, Numbered;
    if steps == [] {
      StartNumbered(s);
    } else {
      NumberedAlways(K, s, steps[..|steps| - 1]);
      NumberedKept(K, After(s, steps[..|steps| - 1]), steps[|steps| - 1]);
    }
  }

  lemma StartNumbered(s: State)
    requires Start(s)
    ensures Numbered(s)
  {
  }

  /** While the counter has advanced at most M-1 in all, no two sessions ever got the same number. */
  lemma NumbersDistinct(s: State, i: nat, j: nat)
    requires Numbered(s) && s.advance <= s.M - 1
    requires i in s.sessions && j in s.sessions && s.sessions[i].num == s.sessions[j].num
    ensures i == j
  {
    assert HoldsTicket(s, i) && HoldsTicket(s, j);
    var a, b := s.sessions[i].ticket, s.sessions[j].ticket;
    if a < b {
      Tracker.CandidatesDistinct(s.M, 0, a, b);
    } else if b < a {
      Tracker.CandidatesDistinct(s.M, 0, b, a);
    }
  }

  // ---- the registry mirrors the running sessions

  ghost predicate IsRunning(s: State, i: nat) {
    i in s.sessions && s.sessions[i].phase == Running
  }

  ghost predicate RunsFor(s: State, i: nat, fk: FlatKey) {
    IsRunning(s, i) && KeyFor(s.sessions[i]) == fk
  }

  /** The registered connections are exactly those of the running sessions. */
  ghost predicate Mirrors(s: State) {
    && Good(s.reg) && s.reg.initialised
    && (forall i :: IsRunning(s, i) ==> KeyFor(s.sessions[i]) in Flat(s.reg))
    && (forall fk :: fk in Flat(s.reg) ==> exists i :: RunsFor(s, i, fk))
  }

  lemma MirrorsSession(s: State, i: nat)
    requires Mirrors(s) && IsRunning(s, i)
    ensures KeyFor(s.sessions[i]) in Flat(s.reg)
  {
  }

  /** A session that has not registered finds its place in the registry free. */
  lemma FreshKey(s: State, i: nat)
    requires Numbered(s) && s.advance <= s.M - 1 && Mirrors(s)
    requires i in s.sessions && s.sessions[i].phase != Running
    ensures KeyFor(s.sessions[i]) !in Flat(s.reg)
  {
    var fk := KeyFor(s.sessions[i]);
    if fk in Flat(s.reg) {
      var j :| RunsFor(s, j, fk);
      NumbersDistinct(s, i, j);
    }
  }

  /** What an action does to the flat registry. */
  lemma FlatEffect(s: State, i: nat, a: Act, at: Time, K: nat)
    requires Mirrors(s) && i in s.sessions && Allowed(K, s, s.sessions[i], a, at)
    ensures var t := s.sessions[i];
            var (reg, o) := RegAfter(s.reg, OpFor(t, a, at));
            && Good(reg) && reg.initialised
            && Flat(reg) == (match a
                             case Register(src, dst, connected) =>
                               if !ValidProtocol(t.proto) then Flat(s.reg)
                               else Flat(s.reg)[KeyFor(t) := NewDetail(ConnFor(t, src, dst), connected)]
                             case Teardown => if ValidProtocol(t.proto) then Flat(s.reg) - {KeyFor(t)} else Flat(s.reg)
                             case LoopDoes(up, act) =>
                               if act.Report? && KeyFor(t) in Flat(s.reg)
                               then
                                 var bytesIn := if up then t.up.byteCount else 0;
                                 var bytesOut := if up then 0 else t.down.byteCount;
                                 Flat(s.reg)[KeyFor(t) := AddBytesTo(Flat(s.reg)[KeyFor(t)], bytesIn, bytesOut)]
                               else Flat(s.reg)
                             case _ => Flat(s.reg))
            && (o == Done <==> match a
                             case Register(_, _, _) => ValidProtocol(t.proto)
                             case Teardown => ValidProtocol(t.proto) && KeyFor(t) in Flat(s.reg)
                             case LoopDoes(_, act) => act.Report? ==> KeyFor(t) in Flat(s.reg)
                             case _ => true)
  {
    hide Apply, Flat, Good;
    var op := OpFor(s.sessions[i], a, at);
    if op.Some? {
      GoodPreserved(s.reg, op.value);
      FlatRefinement(s.reg, op.value);
      InitialisedKept(s.reg, op.value);
    }
  }

  lemma MirrorsKept(K: nat, s: State, step: Step)
    requires Numbered(s) && s.advance <= s.M - 1 && Mirrors(s) && Enabled(K, s, step)
    requires step.Does? ==> ProtocolsValid(s)
    ensures Mirrors(Fire(s, step))
  {
    match step
    case Accept(_, _, _, _, _) => AcceptMirrors(K, s, step);
    case Does(id, a, at) => ActMirrors(K, s, id, a, at);
    case UpdateValid(_, _) => SameMirrors(s, Fire(s, step));
    case EvictFeeders(readings, _) =>
      EvictIsIdentity(s.reg, readings);
      SameMirrors(s, Fire(s, step));
  }

  lemma SameMirrors(s: State, s': State)
    requires Mirrors(s) && s'.reg == s.reg && s'.sessions == s.sessions
    ensures Mirrors(s')
  {
    hide Flat, Good;
    forall fk | fk in Flat(s'.reg) ensures exists i :: RunsFor(s', i, fk) {
      var i :| RunsFor(s, i, fk);
      assert RunsFor(s', i, fk);
    }
    forall i | IsRunning(s', i) ensures KeyFor(s'.sessions[i]) in Flat(s'.reg) {
      assert IsRunning(s, i);
    }
  }

  lemma AcceptMirrors(K: nat, s: State, step: Step)
    requires Mirrors(s) && Enabled(K, s, step) && step.Accept?
    ensures Mirrors(Fire(s, step))
  {
    hide Flat, Good, Tracker.Candidate, RegAfter, OpFor, BytesOf, Effect, EvictStale, Allowed;
    var s' := Fire(s, step);
    forall fk | fk in Flat(s'.reg) ensures exists i :: RunsFor(s', i, fk) {
      var i :| RunsFor(s, i, fk);
      assert RunsFor(s', i, fk);
    }
    forall i | IsRunning(s', i) ensures KeyFor(s'.sessions[i]) in Flat(s'.reg) {
      assert IsRunning(s, i);
    }
  }

  /** Sessions past the protocol switch have a supported protocol. */
  ghost predicate ProtocolsValid(s: State) {
    forall i :: i in s.sessions && (s.sessions[i].phase == Sent || s.sessions[i].phase == Running) ==>
      ValidProtocol(s.sessions[i].proto)
  }

  /** How an action moves a session between phases. */
  lemma PhaseEffect(K: nat, s: State, id: nat, a: Act, at: Time, o: Outcome, bytesIn: U64, bytesOut: U64)
    requires id in s.sessions && Allowed(K, s, s.sessions[id], a, at)
    ensures var t := s.sessions[id];
            var t' := Effect(t, a, at, o, bytesIn, bytesOut);
            && KeyFor(t').num == t.num && t'.proto == t.proto && (t.phase != New ==> KeyFor(t') == KeyFor(t))
            && (t'.phase == Running <==> (a.Register? && o == Done) || (t.phase == Running && !a.Teardown?))
            && (t'.phase == Sent ==> t.phase == Sent || a.SendFirst?)
            && (t'.phase == Admitted ==> t.phase == Admitted || a.Admit?)
  {
  }

  lemma ProtocolsValidKept(K: nat, s: State, step: Step)
    requires ProtocolsValid(s) && Enabled(K, s, step)
    ensures ProtocolsValid(Fire(s, step))
  {
    hide Effect, Apply, EvictStale, OpFor, BytesOf, Tracker.Candidate;
    if step.Does? {
      var (reg, o) := RegAfter(s.reg, OpFor(s.sessions[step.id], step.a, step.at));
      var (bytesIn, bytesOut) := BytesOf(s.reg, KeyFor(s.sessions[step.id]));
      PhaseEffect(K, s, step.id, step.a, step.at, o, bytesIn, bytesOut);
    }
  }

  /** A session acting, the registry's answer, and the state after it. */
  ghost predicate ActLeads(K: nat, s: State, s': State, id: nat, a: Act, at: Time) {
    && id in s.sessions && Allowed(K, s, s.sessions[id], a, at)
    && var t := s.sessions[id];
       var (reg, o) := RegAfter(s.reg, OpFor(t, a, at));
       var (bytesIn, bytesOut) := BytesOf(s.reg, KeyFor(t));
       && s'.reg == reg && s'.sessions == s.sessions[id := Effect(t, a, at, o, bytesIn, bytesOut)]
  }

  lemma ActRunningIsRegistered(K: nat, s: State, s': State, id: nat, a: Act, at: Time)
    requires Numbered(s) && s.advance <= s.M - 1 && Mirrors(s) && ProtocolsValid(s) && ActLeads(K, s, s', id, a, at)
    ensures Good(s'.reg) && s'.reg.initialised
    ensures forall i :: IsRunning(s', i) ==> KeyFor(s'.sessions[i]) in Flat(s'.reg)
  {
    hide Effect, Apply, OpFor, BytesOf, Good, Flat, Numbered, RegAfter, Allowed;
    var t := s.sessions[id];
    var (reg, o) := RegAfter(s.reg, OpFor(t, a, at));
    var (bytesIn, bytesOut) := BytesOf(s.reg, KeyFor(t));
    FlatEffect(s, id, a, at, K);
    PhaseEffect(K, s, id, a, at, o, bytesIn, bytesOut);
    StartsAsAllowed(K, s, id, a, at);
    forall i | IsRunning(s', i) ensures KeyFor(s'.sessions[i]) in Flat(s'.reg) {
      if i != id {
        assert IsRunning(s, i);
        if KeyFor(s.sessions[i]) == KeyFor(t) {
          NumbersDistinct(s, i, id);
        }
      } else if IsRunning(s, id) {
        MirrorsSession(s, id);
      }
    }
  }

  lemma StartsAsAllowed(K: nat, s: State, id: nat, a: Act, at: Time)
    requires ProtocolsValid(s) && id in s.sessions && Allowed(K, s, s.sessions[id], a, at)
    ensures a.Register? ==> s.sessions[id].phase == Sent && ValidProtocol(s.sessions[id].proto)
    ensures a.Teardown? ==> s.sessions[id].phase == Running && ValidProtocol(s.sessions[id].proto)
    ensures a.LoopDoes? ==> s.sessions[id].phase == Running
  {
  }

  lemma ActRegisteredIsRunning(K: nat, s: State, s': State, id: nat, a: Act, at: Time, fk: FlatKey)
    requires Numbered(s) && s.advance <= s.M - 1 && Mirrors(s) && ProtocolsValid(s) && ActLeads(K, s, s', id, a, at)
    requires fk in Flat(s'.reg)
    ensures exists i :: RunsFor(s', i, fk)
  {
    hide Effect, Apply, OpFor, BytesOf, Good, Flat, Numbered, RegAfter, Allowed;
    var t := s.sessions[id];
    var (reg, o) := RegAfter(s.reg, OpFor(t, a, at));
    var (bytesIn, bytesOut) := BytesOf(s.reg, KeyFor(t));
    FlatEffect(s, id, a, at, K);
    PhaseEffect(K, s, id, a, at, o, bytesIn, bytesOut);
    StartsAsAllowed(K, s, id, a, at);
    if fk == KeyFor(t) && IsRunning(s', id) {
      assert RunsFor(s', id, fk);
    } else {
      if !IsRunning(s, id) {
        FreshKey(s, id);
      }
      var i :| RunsFor(s, i, fk);
      assert RunsFor(s', i, fk);
    }
  }

  lemma ActMirrors(K: nat, s: State, id: nat, a: Act, at: Time)
    requires Numbered(s) && s.advance <= s.M - 1 && Mirrors(s) && ProtocolsValid(s)
    requires id in s.sessions && Allowed(K, s, s.sessions[id], a, at)
    ensures Mirrors(Fire(s, Does(id, a, at)))
  {
    hide Effect, OpFor, BytesOf, Good, Flat, Numbered, RegAfter, Allowed, ProtocolsValid;
    var s' := Fire(s, Does(id, a, at));
    assert ActLeads(K, s, s', id, a, at);
    hide ActLeads;
    ActRunningIsRegistered(K, s, s', id, a, at);
    forall fk | fk in Flat(s'.reg) ensures exists i :: RunsFor(s', i, fk) {
      ActRegisteredIsRunning(K, s, s', id, a, at, fk);
    }
  }

  ghost predicate Sound(s: State) {
    Numbered(s) && ProtocolsValid(s) && Mirrors(s)
  }

  lemma StartMirrors(s: State)
    requires Start(s)
    ensures Mirrors(s) && ProtocolsValid(s)
  {
    assert forall fk :: !Has(s.reg, fk);
  }

  /** In every reachable state, as long as the number counter has advanced at most M-1 in all, the
      registered connections are exactly those of the running sessions. */
  lemma {:induction false} RegistryMirrorsSessions(K: nat, s: State, steps: seq<Step>)
    requires Start(s) && IsRun(K, s, steps) && After(s, steps).advance <= s.M - 1
    ensures Sound(After(s, steps))
    ensures After(s, steps).M == s.M
  {
    hide Fire, Enabled, Numbered, Mirrors, ProtocolsValid;
    NumberedAlways(K, s, steps);
    if steps == [] {
      StartMirrors(s);
    } else {
      var prefix, step := steps[..|steps| - 1], steps[|steps| - 1];
      NumberedAlways(K, s, prefix);
      NumberedKept(K, After(s, prefix), step);
      RegistryMirrorsSessions(K, s, prefix);
      MirrorsKept(K, After(s, prefix), step);
      ProtocolsValidKept(K, After(s, prefix), step);
    }
  }

  /** Registering a session never overwrites a registered connection, even though numbers of accepted
      sessions need not be tracked by the incoming connection tracker. */
  lemma RegisterNeverOverwrites(K: nat, s: State, steps: seq<Step>, id: nat)
    requires Start(s) && IsRun(K, s, steps) && After(s, steps).advance <= s.M - 1
    requires id in After(s, steps).sessions && After(s, steps).sessions[id].phase == Sent
    ensures KeyFor(After(s, steps).sessions[id]) !in Flat(After(s, steps).reg)
  {
    hide After, IsRun, Start;
    RegistryMirrorsSessions(K, s, steps);
    FreshKey(After(s, steps), id);
  }

  /** The byte counters of a running session are always found, in either direction. */
  lemma CountersAlwaysFound(K: nat, s: State, steps: seq<Step>, id: nat, bytesIn: U64, bytesOut: U64, at: Time)
    requires Start(s) && IsRun(K, s, steps) && After(s, steps).advance <= s.M - 1
    requires IsRunning(After(s, steps), id)
    ensures var t := After(s, steps).sessions[id];
            Apply(After(s, steps).reg, AddBytes(t.key, t.num, t.proto, bytesIn, bytesOut, at)).1 == Done
  {
    hide After, IsRun, Start, Apply, Good, Flat;
    RegistryMirrorsSessions(K, s, steps);
    var t := After(s, steps).sessions[id];
    MirrorsSession(After(s, steps), id);
    FlatRefinement(After(s, steps).reg, AddBytes(t.key, t.num, t.proto, bytesIn, bytesOut, at));
  }

  // ---- the limit per feeder and protocol

  /** Sessions that count against the limit: running, or past the check and not yet registered. */
  ghost function Occupying(s: State, key: ApiKey, proto: Protocol): set<nat> {
    Pending(s, key, proto) + Live(s, key, proto)
  }

  /** The registry's count is the number of running sessions. */
  lemma CountIsLive(s: State, key: ApiKey, proto: Protocol)
    requires Sound(s) && s.advance <= s.M - 1
    ensures GetNumConnections(s.reg, key, proto) == |Live(s, key, proto)|
  {
    hide Good, Flat, GetNumConnections, Numbered;
    var live, own := Live(s, key, proto), RegistryViews.OfFeeder(Flat(s.reg), proto, key);
    RegistryViews.CountIsFlat(s.reg, proto, key);
    var f := (i: nat) => if i in s.sessions then KeyFor(s.sessions[i]) else FlatKey(key, proto, 0);
    forall i, j | i in live && j in live && f(i) == f(j) ensures i == j {
      NumbersDistinct(s, i, j);
    }
    forall i | i in live ensures f(i) in own {
      assert IsRunning(s, i);
    }
    forall fk | fk in own ensures exists i :: i in live && f(i) == fk {
      var i :| RunsFor(s, i, fk);
      assert i in live;
    }
    SameSize(live, own, f);
  }

  /** Only an admission adds to the sessions counted against the limit. */
  lemma OccupyingAfterAct(K: nat, s: State, id: nat, a: Act, at: Time, key: ApiKey, proto: Protocol)
    requires id in s.sessions && Allowed(K, s, s.sessions[id], a, at)
    ensures Occupying(Fire(s, Does(id, a, at)), key, proto) <= Occupying(s, key, proto) + if a.Admit? then {id} else {}
  {
    hide Effect, Apply, OpFor, BytesOf, GetNumConnections, RegAfter, LoopAllowed;
    var t := s.sessions[id];
    var s' := Fire(s, Does(id, a, at));
    var (reg, o) := RegAfter(s.reg, OpFor(t, a, at));
    var (bytesIn, bytesOut) := BytesOf(s.reg, KeyFor(t));
    PhaseEffect(K, s, id, a, at, o, bytesIn, bytesOut);
    assert s'.sessions == s.sessions[id := Effect(t, a, at, o, bytesIn, bytesOut)];
  }

  /** An admission for one feeder and protocol does not count for another. */
  lemma OccupyingElsewhere(K: nat, s: State, id: nat, at: Time, key: ApiKey, proto: Protocol)
    requires id in s.sessions && !(s.sessions[id].key == key && s.sessions[id].proto == proto)
    ensures Occupying(Fire(s, Does(id, Admit, at)), key, proto) <= Occupying(s, key, proto)
  {
    hide Apply, BytesOf, GetNumConnections;
  }

  lemma OccupyingOther(K: nat, s: State, step: Step, key: ApiKey, proto: Protocol)
    requires !step.Does? && Enabled(K, s, step)
    ensures Occupying(Fire(s, step), key, proto) <= Occupying(s, key, proto)
  {
    hide EvictStale, Tracker.Candidate;
  }

  lemma OccupyingSize(s: State, key: ApiKey, proto: Protocol)
    ensures |Occupying(s, key, proto)| <= |Pending(s, key, proto)| + |Live(s, key, proto)|
  {
  }

  lemma LimitStep(K: nat, s: State, step: Step, key: ApiKey, proto: Protocol)
    requires K >= 1 && Sound(s) && s.advance <= s.M - 1 && Enabled(K, s, step)
    requires |Occupying(s, key, proto)| <= MAX_CONNECTIONS_PER_PROTO - 1 + K
    ensures |Occupying(Fire(s, step), key, proto)| <= MAX_CONNECTIONS_PER_PROTO - 1 + K
  {
    hide Fire, Occupying, Pending, Live, Sound, GetNumConnections, LoopAllowed;
    var before, after := Occupying(s, key, proto), Occupying(Fire(s, step), key, proto);
    if !step.Does? {
      OccupyingOther(K, s, step, key, proto);
      Smaller(after, before);
    } else if step.a.Admit? && s.sessions[step.id].key == key && s.sessions[step.id].proto == proto {
      OccupyingAfterAct(K, s, step.id, step.a, step.at, key, proto);
      CountIsLive(s, key, proto);
      OccupyingSize(s, key, proto);
      Smaller(after, before + {step.id});
    } else {
      OccupyingAfterAct(K, s, step.id, step.a, step.at, key, proto);
      if step.a.Admit? {
        OccupyingElsewhere(K, s, step.id, step.at, key, proto);
      }
      Smaller(after, before);
    }
  }

  lemma Smaller(a: set<nat>, b: set<nat>)
    requires a <= b
    ensures |a| <= |b|
  {
    if a != {} {
      var x :| x in a;
      Smaller(a - {x}, b - {x});
    }
  }

  /** With at most K sessions of a feeder and protocol between the limit check and registration,
      running plus pending sessions never exceed the limit by more than K - 1. */
  lemma {:induction false} ConnectionLimit(K: nat, s: State, steps: seq<Step>, key: ApiKey, proto: Protocol)
    requires K >= 1 && Start(s) && IsRun(K, s, steps) && After(s, steps).advance <= s.M - 1
    ensures |Occupying(After(s, steps), key, proto)| <= K
    ensures GetNumConnections(After(s, steps).reg, key, proto) <= K
  {
    hide Fire, Enabled, Sound, GetNumConnections, Numbered;
    NumberedAlways(K, s, steps);
    RegistryMirrorsSessions(K, s, steps);
    CountIsLive(After(s, steps), key, proto);
    if steps == [] {
      assert Occupying(s, key, proto) == {} && Live(s, key, proto) == {};
    } else {
      var prefix, step := steps[..|steps| - 1], steps[|steps| - 1];
      NumberedAlways(K, s, prefix);
      NumberedKept(K, After(s, prefix), step);
      RegistryMirrorsSessions(K, s, prefix);
      ConnectionLimit(K, s, prefix, key, proto);
      LimitStep(K, After(s, prefix), step, key, proto);
      Smaller(Live(After(s, steps), key, proto), Occupying(After(s, steps), key, proto));
    }
  }
}
