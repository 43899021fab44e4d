/** All runs of the sectioned session machine, with feeders deleted between the sections of an action on
    them.  Until something panics they still are runs of the session machine, up to registry entries that
    hold no connection, so the sessions, their connections and their bytes keep all their invariants. */
module DisturbedSessions {
  import opened Common
  import opened DisturbedSections
  import opened Registry
  import opened Sessions
  import opened SessionNumbers
  import opened SessionSections
  import RegistryViews
  import Sections = RegistrySections
  import SessionLifecycle
  import SessionStreams
  import Tracker

  /** The same sessions, and the same connections in the registry. */
  ghost predicate SameConnections(c: Split, a: State) {
    && Partly(c.s.reg) && Good(a.reg) && Flat(c.s.reg) == Flat(a.reg) && c.s.reg.initialised == a.reg.initialised
    && a.now <= c.s.now && c.s == a.(now := c.s.now, reg := c.s.reg)
  }

  // ---- what the session machine reads of a registry is in its flat map

  lemma CountIsFlat(reg: Statistics, p: Protocol, u: ApiKey)
    requires Partly(reg)
    ensures GetNumConnections(reg, u, p) == |RegistryViews.OfFeeder(Flat(reg), p, u)|
  {
    PartlyEntry(reg, u);
    var own := Statistics(true, if Missing(reg, u) then map[] else map[u := reg.feeders[u]], 0, 0, 0, 0);
    RegistryViews.CountIsFlat(own, p, u);
    assert forall fk: FlatKey :: fk.key == u ==> (Has(reg, fk) <==> Has(own, fk));
    assert RegistryViews.OfFeeder(Flat(reg), p, u) == RegistryViews.OfFeeder(Flat(own), p, u);
  }

  lemma SameCounts(reg: Statistics, reg': Statistics)
    requires Partly(reg) && Partly(reg') && Flat(reg) == Flat(reg')
    ensures forall k, p :: GetNumConnections(reg, k, p) == GetNumConnections(reg', k, p)
  {
    hide Partly, Flat, GetNumConnections;
    forall k, p ensures GetNumConnections(reg, k, p) == GetNumConnections(reg', k, p) {
      CountIsFlat(reg, p, k);
      CountIsFlat(reg', p, k);
    }
  }

  lemma SameBytes(reg: Statistics, reg': Statistics, fk: FlatKey)
    requires Flat(reg) == Flat(reg')
    ensures BytesOf(reg, fk) == BytesOf(reg', fk)
  {
    hide Has, Get;
    assert Has(reg, fk) <==> fk in Flat(reg);
    assert Has(reg', fk) <==> fk in Flat(reg');
  }

  // ---- steps of one section

  /** An operation of one section in two registries with the same connections. */
  lemma SameOp(reg: Statistics, reg': Statistics, t: Session, act: Act, at: Time)
    requires Partly(reg) && Good(reg') && Flat(reg) == Flat(reg') && reg.initialised == reg'.initialised
    requires TwoSections(act) ==> !Sections.MayBegin(reg, PendingOf(t, act))
    ensures var (r, o) := RegAfter(reg, OpFor(t, act, at));
            var (r', o') := RegAfter(reg', OpFor(t, act, at));
            && (o == Done <==> o' == Done) && Partly(r) && Good(r') && Flat(r) == Flat(r')
            && r.initialised == reg.initialised && r'.initialised == reg.initialised
  {
    hide Partly, Good, Flat, Apply;
    var op := OpFor(t, act, at);
    if op.Some? {
      InitialisedKept(reg, op.value);
      InitialisedKept(reg', op.value);
      if act.LoopDoes? {
        BytesPartly(reg, op.value);
        GoodPreserved(reg', op.value);
        AddBytesFlat(reg, op.value);
        AddBytesFlat(reg', op.value);
      } else {
        Refused(reg, t, act, at);
        Refused(reg', t, act, at);
      }
    }
  }

  lemma ActSame(K: nat, c: Split, a: State, id: nat, act: Act, at: Time)
    requires SameConnections(c, a) && AllInProgress(c) && SessionSections.Enabled(K, c, One(Does(id, act, at)))
    ensures Sessions.Enabled(K, a, Does(id, act, at))
    ensures SameConnections(SessionSections.Fire(c, One(Does(id, act, at))).0, Sessions.Fire(a, Does(id, act, at)))
    ensures AllInProgress(SessionSections.Fire(c, One(Does(id, act, at))).0)
  {
    hide Good, Partly, Flat, Effect, RegAfter, OpFor, BytesOf, Ready, LoopAllowed, GetNumConnections, InProgress;
    var t := c.s.sessions[id];
    GoodIsPartly(a.reg);
    SameCounts(c.s.reg, a.reg);
    SameBytes(c.s.reg, a.reg, KeyFor(t));
    SameOp(c.s.reg, a.reg, t, act, at);
    var (r, o) := RegAfter(c.s.reg, OpFor(t, act, at));
    var (r', o') := RegAfter(a.reg, OpFor(t, act, at));
    var (bytesIn, bytesOut) := BytesOf(a.reg, KeyFor(t));
    EffectOutcome(t, act, at, o, o', bytesIn, bytesOut);
    if id in c.doing {
      CancelEffect(t, at, o, bytesIn, bytesOut);
    }
    SameRegs(c, SessionSections.Fire(c, One(Does(id, act, at))).0, id);
  }

  lemma OtherSame(K: nat, c: Split, a: State, step: Step)
    requires SameConnections(c, a) && AllInProgress(c) && SessionSections.Enabled(K, c, One(step)) && !step.Does?
    ensures Sessions.Enabled(K, a, step)
    ensures SameConnections(SessionSections.Fire(c, One(step)).0, Sessions.Fire(a, step))
    ensures AllInProgress(SessionSections.Fire(c, One(step)).0)
  {
    hide Good, Partly, Flat, Ready, InProgress, Tracker.Candidate, EvictStale;
    var c' := SessionSections.Fire(c, One(step)).0;
    if step.EvictFeeders? {
      EvictPartly(c.s.reg, step.readings);
      EvictIsIdentity(a.reg, step.readings);
      EvictKeepsFlag(c.s.reg, step.readings);
    }
    if step.Accept? {
      NotInProgress(c, step.id);
      SameRegs(c, c', step.id);
    } else {
      SameSessions(c, c');
    }
  }

  lemma EvictKeepsFlag(reg: Statistics, readings: map<ApiKey, Time>)
    ensures EvictStale(reg, readings).initialised == reg.initialised
  {
  }

  // ---- actions of two sections

  lemma BeginSame(K: nat, c: Split, a: State, id: nat, act: Act, at: Time)
    requires SameConnections(c, a) && AllInProgress(c)
    requires SessionSections.Enabled(K, c, SessionSections.Begin(id, act, at))
    ensures SameConnections(SessionSections.Fire(c, SessionSections.Begin(id, act, at)).0, a)
    ensures AllInProgress(SessionSections.Fire(c, SessionSections.Begin(id, act, at)).0)
  {
    hide Good, Partly, Flat, Ready, InProgress, InitFeeder, GetNumConnections;
    var p := PendingOf(c.s.sessions[id], act);
    InitPartly(c.s.reg, Sections.KeyOn(p));
    InitFeederFlat(c.s.reg, Sections.KeyOn(p));
    Sections.FlagKept(c.s.reg, Evict(map[]), p, 0, 0);
    BeginKeeps(K, c, id, act, at);
  }

  lemma BothMayBegin(c: Split, a: State, id: nat)
    requires AllInProgress(c) && id in c.doing && c.s.reg.initialised == a.reg.initialised
    ensures id in c.s.sessions && Ready(c.s.sessions[id], c.doing[id])
    ensures Sections.MayBegin(c.s.reg, PendingOf(c.s.sessions[id], c.doing[id]))
    ensures c.s.reg.initialised
    ensures Sections.MayBegin(a.reg, PendingOf(c.s.sessions[id], c.doing[id]))
  {
    hide Ready;
    assert InProgress(c, id);
  }

  /** A second section that does not panic, against the whole operation in a good registry. */
  lemma SameMain(reg: Statistics, reg': Statistics, p: Sections.Pending, connected: Time, at: Time)
    requires Partly(reg) && Good(reg') && Flat(reg) == Flat(reg') && reg.initialised && reg'.initialised
    requires Sections.MayBegin(reg, p) && Sections.Main(reg, p, connected, at).1 != Panic
    ensures var (r, o) := Sections.Main(reg, p, connected, at);
            var (r', o') := Apply(reg', Sections.OpOf(p, connected, at));
            && (o == Done <==> o' == Done) && Partly(r) && Good(r') && Flat(r) == Flat(r')
            && r.initialised && r'.initialised
  {
    hide Partly, Good, Flat, Apply, Sections.Main;
    var op := Sections.OpOf(p, connected, at);
    MainPartly(reg, p, connected, at);
    GoodPreserved(reg', op);
    FlatRefinement(reg', op);
    InitialisedKept(reg', op);
  }

  lemma FinishSame(K: nat, c: Split, a: State, id: nat, at: Time)
    requires SameConnections(c, a) && AllInProgress(c) && SessionSections.Enabled(K, c, Finish(id, at))
    requires SessionSections.Fire(c, Finish(id, at)).1 != Panic
    ensures Sessions.Enabled(K, a, Does(id, c.doing[id], at))
    ensures SameConnections(SessionSections.Fire(c, Finish(id, at)).0, Sessions.Fire(a, Does(id, c.doing[id], at)))
    ensures AllInProgress(SessionSections.Fire(c, Finish(id, at)).0)
  {
    hide Good, Partly, Flat, Sections.Main, Apply, Ready, BytesOf, Effect, PendingOf, InProgress;
    var t, act := c.s.sessions[id], c.doing[id];
    Finishing(c, id);
    WholeOp(t, act, at);
    BothMayBegin(c, a, id);
    SameMain(c.s.reg, a.reg, PendingOf(t, act), Connected(act), at);
    SameBytes(c.s.reg, a.reg, KeyFor(t));
    Leaves(c, SessionSections.Fire(c, Finish(id, at)).0, id, at);
    ReadyIsAllowed(K, a, id, act, at);
    var (bytesIn, bytesOut) := BytesOf(a.reg, KeyFor(t));
    EffectOutcome(t, act, at, Sections.Main(c.s.reg, PendingOf(t, act), Connected(act), at).1,
                  Apply(a.reg, Sections.OpOf(PendingOf(t, act), Connected(act), at)).1, bytesIn, bytesOut);
  }

  // ---- whole runs

  /** Nothing panicked along the run. */
  ghost predicate NoPanic(s: State, moves: seq<Move>) {
    moves == [] ||
    (var prefix, move := moves[..|moves| - 1], moves[|moves| - 1];
     NoPanic(s, prefix) && SessionSections.Fire(SessionSections.After(s, prefix), move).1 != Panic)
  }

  lemma MoveSame(K: nat, c: Split, a: State, move: Move)
    requires SameConnections(c, a) && AllInProgress(c) && SessionSections.Enabled(K, c, move)
    requires SessionSections.Fire(c, move).1 != Panic
    ensures AllInProgress(SessionSections.Fire(c, move).0)
    ensures var steps := StepsOf(c, move);
            && |steps| <= 1 && (steps != [] ==> Sessions.Enabled(K, a, steps[0]))
            && SameConnections(SessionSections.Fire(c, move).0, if steps == [] then a else Sessions.Fire(a, steps[0]))
  {
    hide SameConnections, AllInProgress, Sessions.Fire, Sessions.Enabled;
    match move
    case One(step) =>
      if step.Does? {
        ActSame(K, c, a, step.id, step.a, step.at);
      } else {
        OtherSame(K, c, a, step);
      }
    case Begin(id, act, at) => BeginSame(K, c, a, id, act, at);
    case Finish(id, at) => FinishSame(K, c, a, id, at);
  }

  lemma StartSame(s: State)
    requires Start(s)
    ensures SameConnections(Split(s, map[]), s) && AllInProgress(Split(s, map[]))
  {
  }

  /** Every run of lock sections in which nothing panics, whatever is deleted in between, is a run of the
      session machine with each operation at its second section, up to registry entries without connections. */
  lemma {:induction false} RunsUntilPanicAreRuns(K: nat, s: State, moves: seq<Move>)
    requires Start(s) && SessionSections.IsRun(K, s, moves) && NoPanic(s, moves)
    ensures Sessions.IsRun(K, s, Linear(s, moves))
    ensures SameConnections(SessionSections.After(s, moves), Sessions.After(s, Linear(s, moves)))
    ensures AllInProgress(SessionSections.After(s, moves))
  {
    hide SessionSections.Fire, SessionSections.Enabled, SameConnections, AllInProgress, StepsOf, Sessions.Fire,
         Sessions.Enabled, Start;
    if moves == [] {
      StartSame(s);
    } else {
      var prefix, move := moves[..|moves| - 1], moves[|moves| - 1];
      RunsUntilPanicAreRuns(K, s, prefix);
      var lin, steps := Linear(s, prefix), StepsOf(SessionSections.After(s, prefix), move);
      MoveSame(K, SessionSections.After(s, prefix), Sessions.After(s, lin), move);
      if steps == [] {
        assert lin + steps == lin;
      } else {
        assert steps == [steps[0]];
        Sessions.OneMore(K, s, lin, steps[0]);
      }
    }
  }

  /** The registered connections are exactly those of the running sessions. */
  ghost predicate Registered(s: State) {
    && (forall i :: IsRunning(s, i) ==> KeyFor(s.sessions[i]) in Flat(s.reg))
    && (forall fk :: fk in Flat(s.reg) ==> exists i :: RunsFor(s, i, fk))
  }

  lemma RegisteredCarriesOver(a: State, s: State)
    requires Mirrors(a) && s.sessions == a.sessions && Flat(s.reg) == Flat(a.reg)
    ensures Registered(s)
  {
    hide Good, Flat;
    forall fk | fk in Flat(s.reg) ensures exists i :: RunsFor(s, i, fk) {
      var i :| RunsFor(a, i, fk);
      assert RunsFor(s, i, fk);
    }
    forall i | IsRunning(s, i) ensures KeyFor(s.sessions[i]) in Flat(s.reg) {
      assert IsRunning(a, i);
    }
  }

  lemma SameMeans(c: Split, a: State)
    requires SameConnections(c, a)
    ensures c.s.sessions == a.sessions && Flat(c.s.reg) == Flat(a.reg) && c.s.advance == a.advance
    ensures forall k, p :: GetNumConnections(c.s.reg, k, p) == GetNumConnections(a.reg, k, p)
  {
    hide Good, Partly, Flat, GetNumConnections;
    GoodIsPartly(a.reg);
    SameCounts(c.s.reg, a.reg);
  }

  /** So until something panics, at every lock section of every run: the registered connections are those of
      the running sessions, each session is registered and unregistered once, streams are faithful, bytes
      balance, and the limit per feeder and protocol is kept. */
  lemma InvariantsUntilPanic(K: nat, s: State, moves: seq<Move>, key: ApiKey, proto: Protocol)
    requires K >= 1 && Start(s) && SessionSections.IsRun(K, s, moves) && NoPanic(s, moves)
    requires SessionSections.After(s, moves).s.advance <= s.M - 1
    ensures var s' := SessionSections.After(s, moves).s;
            && Registered(s') && SessionLifecycle.AllPaired(s') && SessionStreams.AllFaithful(s')
            && SessionStreams.Books(s')
            && GetNumConnections(s'.reg, key, proto) <= K
  {
    hide SessionSections.After, SessionSections.IsRun, NoPanic, Start, SameConnections, Mirrors, Registered, Numbered,
         ProtocolsValid, SessionLifecycle.AllPaired, SessionStreams.AllFaithful, SessionStreams.Books, Flat,
         GetNumConnections, Sessions.After, Sessions.IsRun;
    RunsUntilPanicAreRuns(K, s, moves);
    var lin := Linear(s, moves);
    var a, s' := Sessions.After(s, lin), SessionSections.After(s, moves).s;
    SameMeans(SessionSections.After(s, moves), a);
    RegistryMirrorsSessions(K, s, lin);
    SessionLifecycle.RegisteredAndUnregisteredOnce(K, s, lin);
    SessionStreams.FaithfulAlways(K, s, lin);
    SessionStreams.BooksAlways(K, s, lin);
    ConnectionLimit(K, s, lin, key, proto);
    RegisteredCarriesOver(a, s');
    BooksCarryOver(a, s');
    PairedCarriesOver(a, s');
  }

  // ---- exactly which runs do harm

  /** At every point nothing has panicked and every feeder has both protocols. */
  ghost predicate Harmless(s: State, moves: seq<Move>) {
    Good(SessionSections.After(s, moves).s.reg) &&
    (moves == [] ||
     (var prefix, move := moves[..|moves| - 1], moves[|moves| - 1];
      Harmless(s, prefix) && SessionSections.Fire(SessionSections.After(s, prefix), move).1 != Panic))
  }

  /** A second section that registers a feeder or a connection finds the feeder's entry. */
  ghost predicate FindsFeeder(c: Split, move: Move) {
    move.Finish? && move.id in c.doing && move.id in c.s.sessions && !c.doing[move.id].Teardown? ==>
      c.s.sessions[move.id].key in c.s.reg.feeders
  }

  ghost predicate FeedersFound(s: State, moves: seq<Move>) {
    moves == [] ||
    (var prefix, move := moves[..|moves| - 1], moves[|moves| - 1];
     FeedersFound(s, prefix) && FindsFeeder(SessionSections.After(s, prefix), move))
  }

  lemma OneKeepsGood(K: nat, c: Split, step: Step)
    requires Good(c.s.reg) && SessionSections.Enabled(K, c, One(step))
    ensures Good(Sessions.Fire(c.s, step).reg)
  {
    hide Good, Apply, Effect, Allowed, BytesOf, OpFor, Tracker.Candidate;
    match step
    case Does(id, act, at) =>
      var op := OpFor(c.s.sessions[id], act, at);
      if op.Some? {
        GoodPreserved(c.s.reg, op.value);
      }
    case EvictFeeders(readings, _) => EvictIsIdentity(c.s.reg, readings);
    case Accept(_, _, _, _, _) =>
    case UpdateValid(_, _) =>
  }

  lemma FinishHarmsIff(K: nat, c: Split, id: nat, at: Time)
    requires Good(c.s.reg) && AllInProgress(c) && SessionSections.Enabled(K, c, Finish(id, at))
    ensures Good(SessionSections.Fire(c, Finish(id, at)).0.s.reg) && SessionSections.Fire(c, Finish(id, at)).1 != Panic
            <==> FindsFeeder(c, Finish(id, at))
  {
    hide Good, Ready, Effect, BytesOf, Sections.Main;
    Finishing(c, id);
    assert InProgress(c, id);
    forall i | i in Regs(c).pending ensures Sections.MayBegin(c.s.reg, Regs(c).pending[i]) {
      assert InProgress(c, i);
    }
    Sections.FinishHarmsIffFeederGone(Regs(c), id, Connected(c.doing[id]), at);
  }

  lemma MoveHarmsIff(K: nat, c: Split, move: Move)
    requires Good(c.s.reg) && AllInProgress(c) && SessionSections.Enabled(K, c, move)
    ensures var (c', o) := SessionSections.Fire(c, move);
            Good(c'.s.reg) && o != Panic <==> FindsFeeder(c, move)
  {
    hide Good, AllInProgress, Sections.Main, Effect, Ready, InitFeeder, Sessions.Fire;
    match move
    case One(step) => OneKeepsGood(K, c, step);
    case Begin(id, act, at) => FeederOfGood(c.s.reg, Sections.KeyOn(PendingOf(c.s.sessions[id], act)));
    case Finish(id, at) => FinishHarmsIff(K, c, id, at);
  }

  lemma HarmlessIsNoPanic(s: State, moves: seq<Move>)
    requires Harmless(s, moves)
    ensures NoPanic(s, moves)
  {
  }

  /** A run of lock sections does no harm, neither a panic nor an entry without protocols, if and only if
      every second section of a registration finds its feeder's entry. */
  lemma {:induction false} HarmlessIffFeedersFound(K: nat, s: State, moves: seq<Move>)
    requires Start(s) && SessionSections.IsRun(K, s, moves)
    ensures Harmless(s, moves) <==> FeedersFound(s, moves)
  {
    hide SessionSections.Fire, SessionSections.Enabled, AllInProgress, Good, FindsFeeder, SameConnections, Start,
         StepsOf;
    if moves == [] {
      StartIsGood(s);
    } else {
      var prefix, move := moves[..|moves| - 1], moves[|moves| - 1];
      HarmlessIffFeedersFound(K, s, prefix);
      if Harmless(s, prefix) {
        HarmlessIsNoPanic(s, prefix);
        RunsUntilPanicAreRuns(K, s, prefix);
        MoveHarmsIff(K, SessionSections.After(s, prefix), move);
      }
    }
  }

  lemma StartIsGood(s: State)
    requires Start(s)
    ensures Good(s.reg)
  {
  }
}
