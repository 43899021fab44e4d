/** Interleavings of lock sections in general, with feeders deleted between the sections of an operation on
    them.  Up to a panic no connection and no byte is lost, and exactly those registrations do harm whose
    feeder is missing at their second section. */
module DisturbedSections {
  import opened Common
  import opened ByteConservation
  import opened Registry
  import opened RegistrySections

  /** Every entry is good, or has no protocols at all. */
  ghost predicate Partly(s: Statistics) {
    forall k :: k in s.feeders ==> PartlyFeeder(s.feeders[k])
  }

  ghost predicate PartlyFeeder(f: FeederStats) {
    GoodFeeder(f) || f.connections == map[]
  }

  lemma GoodIsPartly(s: Statistics)
    requires Good(s)
    ensures Partly(s)
  {
  }

  lemma PartlyEntry(s: Statistics, key: ApiKey)
    requires Partly(s)
    ensures PartlyFeeder(FeederOf(s, key))
    ensures FeederOf(s, key).connections != map[] ==> key in s.feeders && GoodFeeder(s.feeders[key])
    ensures forall p :: ValidProtocol(p) ==>
                          (p in FeederOf(s, key).connections <==> FeederOf(s, key).connections != map[])
  {
    assert key in s.feeders ==> PartlyFeeder(s.feeders[key]);
  }

  lemma PutPartly(s: Statistics, key: ApiKey, f: FeederStats)
    requires Partly(s) && PartlyFeeder(f)
    ensures Partly(PutFeeder(s, key, f)) && Partly(DropFeeder(s, key))
  {
  }

  /** Where a registration panics: the feeder's entry is missing, or has no protocols. */
  ghost predicate Missing(s: Statistics, key: ApiKey) {
    FeederOf(s, key).connections == map[]
  }

  // ---- one section

  lemma InitPartly(s: Statistics, key: ApiKey)
    requires Partly(s)
    ensures Partly(InitFeeder(s, key))
  {
    hide PartlyFeeder;
    assert PartlyFeeder(NEW_FEEDER) by {
      NewIsPartly();
    }
    PutPartly(s, key, NEW_FEEDER);
  }

  lemma NewIsPartly()
    ensures PartlyFeeder(NEW_FEEDER)
  {
    NewFeederIsGood();
  }

  lemma RelabelPartly(s: Statistics, f: FeederDetails, now: Time)
    requires Partly(s)
    ensures Partly(RegisterFeederMain(s, f, now)) && Flat(RegisterFeederMain(s, f, now)) == Flat(s)
  {
    hide Partly, Flat, GoodProto;
    PartlyEntry(s, f.key);
    PutPartly(s, f.key, FeederOf(s, f.key).(labelText := f.labelText, code := f.code, timeUpdated := now));
    RelabelFlat(s, f, now);
  }

  lemma RelabelFlat(s: Statistics, f: FeederDetails, now: Time)
    ensures Flat(RegisterFeederMain(s, f, now)) == Flat(s)
  {
    FlatEqual(RegisterFeederMain(s, f, now), Flat(s));
  }

  lemma ConnectPartly(s: Statistics, conn: Connection, connected: Time, now: Time)
    requires Partly(s) && ValidProtocol(conn.proto)
    ensures var (r, o) := RegisterConnectionMain(s, conn, connected, now);
            && Partly(r) && (o == Panic <==> Missing(s, conn.key)) && (o != Panic ==> o == Done)
            && Flat(r) == if o == Panic then Flat(s) else Flat(s)[KeyOf(conn) := NewDetail(conn, connected)]
  {
    hide WithConnection, NewDetail, GoodFeeder, Flat;
    PartlyEntry(s, conn.key);
    if !Missing(s, conn.key) {
      var f := s.feeders[conn.key];
      var c := NewDetail(conn, connected);
      var pd := WithConnection(f.connections[conn.proto], conn.num, c);
      WithConnectionGood(f.connections[conn.proto], conn.num, c);
      PutProtoGood(f, conn.proto, pd, now);
      PutPartly(s, conn.key, PutProto(f, conn.proto, pd, now));
      RegisterFlat(s, conn, connected, now);
    }
  }

  lemma DisconnectPartly(s: Statistics, conn: Connection, now: Time)
    requires Partly(s) && ValidProtocol(conn.proto)
    ensures var (r, o) := UnregisterConnectionMain(s, conn, now);
            && Partly(r) && Flat(r) == Flat(s) - {KeyOf(conn)}
            && o == if KeyOf(conn) in Flat(s) then Done else Failed(ConnNumNotFound)
  {
    hide WithoutConnection, GoodFeeder, NoneLeft, Flat;
    PartlyEntry(s, conn.key);
    EntryUnregisterFlat(s, conn, now);
    if Has(s, KeyOf(conn)) {
      var f := s.feeders[conn.key];
      var pd := WithoutConnection(f.connections[conn.proto], conn.num);
      WithoutConnectionGood(f.connections[conn.proto], conn.num);
      PutProtoGood(f, conn.proto, pd, now);
      PutPartly(s, conn.key, PutProto(f, conn.proto, pd, now));
      PutPartly(PutFeeder(s, conn.key, PutProto(f, conn.proto, pd, now)), conn.key, PutProto(f, conn.proto, pd, now));
    }
  }

  lemma BytesPartly(s: Statistics, op: Op)
    requires Partly(s) && op.AddBytes?
    ensures Partly(Apply(s, op).0) && Apply(s, op).1 != Panic
  {
    hide AddBytesTo, AddTotals, GoodFeeder, GoodProto;
    PartlyEntry(s, op.key);
    if Has(s, FlatKey(op.key, op.p, op.num)) {
      var f := s.feeders[op.key];
      ProtoIsGood(f, op.p);
      var pd := f.connections[op.p];
      var c := AddBytesTo(pd.details[op.num], op.bytesIn, op.bytesOut);
      AddedGood(pd, op.num, c);
      var f' := PutProto(f, op.p, pd.(details := pd.details[op.num := c]), op.now);
      PutProtoGood(f, op.p, pd.(details := pd.details[op.num := c]), op.now);
      TotalsKeepFeeders(s, op.p, op.bytesIn, op.bytesOut);
      PutPartly(AddTotals(s, op.p, op.bytesIn, op.bytesOut), op.key, f');
    }
  }

  lemma ProtoIsGood(f: FeederStats, p: Protocol)
    requires GoodFeeder(f) && p in f.connections
    ensures GoodProto(f.connections[p]) && ValidProtocol(p)
  {
  }

  /** The evictor removes only entries without protocols. */
  lemma EvictPartly(s: Statistics, readings: map<ApiKey, Time>)
    requires Partly(s)
    ensures Partly(EvictStale(s, readings)) && Flat(EvictStale(s, readings)) == Flat(s)
    ensures Good(s) ==> EvictStale(s, readings) == s
  {
    FlatEqual(EvictStale(s, readings), Flat(s));
    if Good(s) {
      EvictIsIdentity(s, readings);
    }
  }

  // ---- one step of an interleaving

  lemma MainPartly(s: Statistics, p: Pending, connected: Time, now: Time)
    requires Partly(s) && MayBegin(s, p)
    ensures var (r, o) := Main(s, p, connected, now);
            && Partly(r) && r.initialised == s.initialised
            && (o == Panic <==> p.Connect? && Missing(s, KeyOn(p)))
            && (o != Panic ==> Flat(r) == FlatApply(true, Flat(s), OpOf(p, connected, now)))
            && (o != Panic ==> (o == Done <==> Succeeds(true, Flat(s), OpOf(p, connected, now))))
  {
    hide Partly, Flat, RegisterFeederMain, RegisterConnectionMain, UnregisterConnectionMain, Missing;
    FlagKept(s, Evict(map[]), p, connected, now);
    match p
    case Feeder(f) => RelabelPartly(s, f, now);
    case Connect(conn) => ConnectPartly(s, conn, connected, now);
    case Disconnect(conn) => DisconnectPartly(s, conn, now);
  }

  /** Every step keeps all entries good or without protocols, means on the flat map what its whole operation
      means, and panics exactly if it registers a connection whose feeder is missing or has no protocols. */
  lemma StepPartly(c: State, step: Step)
    requires Partly(c.reg) && PendingAllowed(c) && Enabled(c, step)
    ensures var (c', o) := Fire(c, step);
            && Partly(c'.reg) && c'.reg.initialised == c.reg.initialised
            && (o == Panic <==>
                  step.Finish? && c.pending[step.id].Connect? && Missing(c.reg, KeyOn(c.pending[step.id])))
            && |OpsOf(c, step)| <= 1
            && (o != Panic ==>
                  Flat(c'.reg) == if OpsOf(c, step) == [] then Flat(c.reg)
                                  else FlatApply(c.reg.initialised, Flat(c.reg), OpsOf(c, step)[0]))
  {
    hide Partly, Flat, Main, Missing, IncrementByteCounters, EvictStale, InitFeeder;
    match step
    case Begin(id, p) =>
      InitPartly(c.reg, KeyOn(p));
      InitFeederFlat(c.reg, KeyOn(p));
      FlagKept(c.reg, Evict(map[]), p, 0, 0);
    case Finish(id, connected, now) => MainPartly(c.reg, c.pending[id], connected, now);
    case Direct(op) =>
      FlagKept(c.reg, op, Feeder(FeederDetails(ApiKey(0), "", "")), 0, 0);
      if op.AddBytes? {
        BytesPartly(c.reg, op);
        AddBytesFlat(c.reg, op);
      } else {
        EvictPartly(c.reg, op.readings);
      }
  }

  // ---- whole interleavings

  /** Nothing panicked. */
  ghost predicate NoPanic(s: Statistics, steps: seq<Step>) {
    steps == [] ||
    (var prefix, step := steps[..|steps| - 1], steps[|steps| - 1];
     NoPanic(s, prefix) && Fire(After(s, prefix), step).1 != Panic)
  }

  ghost function FlatExec(initialised: bool, m: FlatMap, ops: seq<Op>): FlatMap {
    if ops == [] then m
    else FlatApply(initialised, FlatExec(initialised, m, ops[..|ops| - 1]), ops[|ops| - 1])
  }

  lemma FlatExecMore(initialised: bool, m: FlatMap, ops: seq<Op>, more: seq<Op>)
    requires |more| <= 1
    ensures FlatExec(initialised, m, ops + more)
            == if more == [] then FlatExec(initialised, m, ops)
               else FlatApply(initialised, FlatExec(initialised, m, ops), more[0])
  {
    if more == [] {
      assert ops + more == ops;
    } else {
      assert (ops + more)[..|ops + more| - 1] == ops;
    }
  }

  /** However lock sections interleave and feeders are deleted, until something panics: the registered
      connections are those of the operations in the order of their main sections, so no deletion loses a
      live connection. */
  lemma {:induction false} NoConnectionIsLost(s: Statistics, steps: seq<Step>)
    requires Partly(s) && IsRun(s, steps) && NoPanic(s, steps)
    ensures Partly(After(s, steps).reg) && PendingAllowed(After(s, steps))
    ensures After(s, steps).reg.initialised == s.initialised
    ensures Flat(After(s, steps).reg) == FlatExec(s.initialised, Flat(s), Linear(s, steps))
  {
    hide Fire, Enabled, Partly, PendingAllowed, Flat, FlatExec, OpsOf;
    if steps == [] {
      NothingYet(s);
    } else {
      var prefix, step := steps[..|steps| - 1], steps[|steps| - 1];
      NoConnectionIsLost(s, prefix);
      StepPartly(After(s, prefix), step);
      PendingAllowedKept(After(s, prefix), step);
      FlatExecMore(s.initialised, Flat(s), Linear(s, prefix), OpsOf(After(s, prefix), step));
    }
  }

  lemma NothingYet(s: Statistics)
    ensures PendingAllowed(State(s, map[])) && FlatExec(s.initialised, Flat(s), []) == Flat(s)
  {
  }

  // ---- bytes

  ghost function RetiredAlong(initialised: bool, m: FlatMap, ops: seq<Op>, p: Protocol, dir: Direction): int {
    if ops == [] then 0
    else
      var prefix := ops[..|ops| - 1];
      RetiredAlong(initialised, m, prefix, p, dir)
      + Retired(initialised, FlatExec(initialised, m, prefix), ops[|ops| - 1], p, dir)
  }

  lemma RetiredMore(initialised: bool, m: FlatMap, ops: seq<Op>, op: Op, p: Protocol, dir: Direction)
    ensures RetiredAlong(initialised, m, ops + [op], p, dir)
            == RetiredAlong(initialised, m, ops, p, dir)
               + Retired(initialised, FlatExec(initialised, m, ops), op, p, dir)
  {
    assert (ops + [op])[..|ops|] == ops;
  }

  lemma MainKeepsTotals(s: Statistics, p: Pending, connected: Time, now: Time, q: Protocol, dir: Direction)
    requires ValidProtocol(q)
    ensures Global(Main(s, p, connected, now).0, q, dir) == Global(s, q, dir)
    ensures Global(InitFeeder(s, KeyOn(p)), q, dir) == Global(s, q, dir)
  {
    hide WithConnection, WithoutConnection, NoneLeft;
  }

  lemma SectionTotals(c: State, step: Step, p: Protocol, dir: Direction)
    requires ValidProtocol(p) && Enabled(c, step)
    ensures var ops := OpsOf(c, step);
            Same64(Global(Fire(c, step).0.reg, p, dir),
                   Global(c.reg, p, dir) + if ops == [] then 0 else Added(Flat(c.reg), ops[0], p, dir))
  {
    hide Main, InitFeeder, Apply, Global, Flat;
    match step
    case Begin(id, q) => MainKeepsTotals(c.reg, q, 0, 0, p, dir);
    case Finish(id, connected, now) => MainKeepsTotals(c.reg, c.pending[id], connected, now, p, dir);
    case Direct(op) => GlobalStep(c.reg, op, p, dir);
  }

  ghost predicate Balanced(initialised: bool, m: FlatMap, ops: seq<Op>, s: Statistics, p: Protocol, dir: Direction)
    requires ValidProtocol(p)
  {
    Same64(Global(s, p, dir), Live(Flat(s), p, dir) + RetiredAlong(initialised, m, ops, p, dir))
  }

  lemma StepBalanced(initialised: bool, m: FlatMap, ops: seq<Op>, c: State, step: Step, p: Protocol, dir: Direction)
    requires Partly(c.reg) && PendingAllowed(c) && Enabled(c, step) && Fire(c, step).1 != Panic && ValidProtocol(p)
    requires c.reg.initialised == initialised && Flat(c.reg) == FlatExec(initialised, m, ops)
    requires Balanced(initialised, m, ops, c.reg, p, dir)
    ensures Balanced(initialised, m, ops + OpsOf(c, step), Fire(c, step).0.reg, p, dir)
  {
    hide Fire, Enabled, Partly, PendingAllowed, Flat, FlatExec, OpsOf, Global, Live, FlatApply, Same64, Retired, Added,
         RetiredAlong;
    StepPartly(c, step);
    SectionTotals(c, step, p, dir);
    BalanceMore(initialised, m, ops, OpsOf(c, step), Global(c.reg, p, dir), Global(Fire(c, step).0.reg, p, dir),
                p, dir);
    FlatExecMore(initialised, m, ops, OpsOf(c, step));
  }

  lemma {:induction false} BalancedAlong(s: Statistics, steps: seq<Step>, p: Protocol, dir: Direction)
    requires Partly(s) && IsRun(s, steps) && NoPanic(s, steps) && ValidProtocol(p)
    requires Same64(Global(s, p, dir), Live(Flat(s), p, dir))
    ensures Balanced(s.initialised, Flat(s), Linear(s, steps), After(s, steps).reg, p, dir)
  {
    hide Fire, Enabled, Partly, PendingAllowed, Flat, FlatExec, OpsOf, Balanced, Live, Same64;
    if steps == [] {
      StartBalanced(s, p, dir);
    } else {
      var prefix, step := steps[..|steps| - 1], steps[|steps| - 1];
      BalancedAlong(s, prefix, p, dir);
      NoConnectionIsLost(s, prefix);
      StepBalanced(s.initialised, Flat(s), Linear(s, prefix), After(s, prefix), step, p, dir);
    }
  }

  lemma StartBalanced(s: Statistics, p: Protocol, dir: Direction)
    requires ValidProtocol(p) && Same64(Global(s, p, dir), Live(Flat(s), p, dir))
    ensures Balanced(s.initialised, Flat(s), [], s, p, dir)
  {
    hide Live, Flat, Global, Same64;
  }

  /** And each global byte total still equals the live connections plus the retired ones, modulo 2^64. */
  lemma NoByteIsLost(s: Statistics, steps: seq<Step>, p: Protocol, dir: Direction)
    requires Partly(s) && IsRun(s, steps) && NoPanic(s, steps) && ValidProtocol(p)
    requires Same64(Global(s, p, dir), Live(Flat(s), p, dir))
    ensures Same64(Global(After(s, steps).reg, p, dir),
                   Live(Flat(After(s, steps).reg), p, dir)
                   + RetiredAlong(s.initialised, Flat(s), Linear(s, steps), p, dir))
  {
    hide After, IsRun, NoPanic, Linear, Partly, Flat, Live, RetiredAlong, Same64;
    BalancedAlong(s, steps, p, dir);
  }

  lemma BalanceMore(
    initialised: bool, m: FlatMap, ops: seq<Op>, more: seq<Op>, g: int, g': int, p: Protocol, dir: Direction)
    requires |more| <= 1
    requires var m' := FlatExec(initialised, m, ops);
             && Same64(g, Live(m', p, dir) + RetiredAlong(initialised, m, ops, p, dir))
             && Same64(g', g + if more == [] then 0 else Added(m', more[0], p, dir))
    ensures Same64(g', Live(FlatExec(initialised, m, ops + more), p, dir)
                       + RetiredAlong(initialised, m, ops + more, p, dir))
  {
    hide FlatExec, Live, FlatApply, Same64, Retired, Added, RetiredAlong;
    var m' := FlatExec(initialised, m, ops);
    var r := RetiredAlong(initialised, m, ops, p, dir);
    FlatExecMore(initialised, m, ops, more);
    if more == [] {
      assert ops + more == ops;
      SameTotal(g, g', Live(m', p, dir) + r);
    } else {
      assert more == [more[0]];
      RetiredMore(initialised, m, ops, more[0], p, dir);
      LiveStep(initialised, m', more[0], p, dir);
      Combine64(g, g', Live(m', p, dir), Live(FlatExec(initialised, m, ops + more), p, dir), r,
                Added(m', more[0], p, dir), Retired(initialised, m', more[0], p, dir));
    }
  }

  lemma SameTotal(g: int, g': int, total: int)
    requires Same64(g, total) && Same64(g', g + 0)
    ensures Same64(g', total)
  {
    assert g' - total == (g' - (g + 0)) + (g - total);
  }

  // ---- exactly which interleavings do harm

  /** At every point nothing has panicked and every entry has both protocols. */
  ghost predicate Harmless(s: Statistics, steps: seq<Step>) {
    Good(After(s, steps).reg) &&
    (steps == [] ||
     (var prefix, step := steps[..|steps| - 1], steps[|steps| - 1];
      Harmless(s, prefix) && Fire(After(s, prefix), step).1 != Panic))
  }

  ghost predicate FindsFeeder(c: State, step: Step) {
    step.Finish? && step.id in c.pending && !c.pending[step.id].Disconnect? ==>
      KeyOn(c.pending[step.id]) in c.reg.feeders
  }

  /** Every second section of a registration found its feeder's entry. */
  ghost predicate FeedersFound(s: Statistics, steps: seq<Step>) {
    steps == [] ||
    (var prefix, step := steps[..|steps| - 1], steps[|steps| - 1];
     FeedersFound(s, prefix) && FindsFeeder(After(s, prefix), step))
  }

  lemma StepHarmsIff(c: State, step: Step)
    requires Good(c.reg) && PendingAllowed(c) && Enabled(c, step)
    ensures Good(Fire(c, step).0.reg) && Fire(c, step).1 != Panic <==> FindsFeeder(c, step)
  {
    hide Good, Main, Apply;
    match step
    case Begin(id, p) => FeederOfGood(c.reg, KeyOn(p));
    case Finish(id, connected, now) => FinishHarmsIffFeederGone(c, id, connected, now);
    case Direct(op) => GoodPreserved(c.reg, op);
  }

  /** An interleaving does no harm if and only if every second section of a registration finds its feeder
      there: deleted since and created again will do, missing will not, and nothing else matters. */
  lemma {:induction false} HarmlessIffFeedersFound(s: Statistics, steps: seq<Step>)
    requires Good(s) && IsRun(s, steps)
    ensures Harmless(s, steps) <==> FeedersFound(s, steps)
    ensures PendingAllowed(After(s, steps))
  {
    hide Fire, Enabled, PendingAllowed, Good, FindsFeeder;
    if steps == [] {
      NothingYet(s);
    } else {
      var prefix, step := steps[..|steps| - 1], steps[|steps| - 1];
      HarmlessIffFeedersFound(s, prefix);
      PendingAllowedKept(After(s, prefix), step);
      if Harmless(s, prefix) {
        assert Good(After(s, prefix).reg);
        StepHarmsIff(After(s, prefix), step);
      }
    }
  }
}
