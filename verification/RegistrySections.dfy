/** The registry at the granularity of its critical sections.  RegisterFeeder, RegisterConnection and
    UnregisterConnection each take the lock twice: once to make sure the feeder entry exists, once
    for their main work.  Other sections run in between. */
module RegistrySections {
  import opened Common
  import opened Registry

  /** An operation between its two sections. */
  datatype Pending = Feeder(f: FeederDetails) | Connect(conn: Connection) | Disconnect(conn: Connection)

  datatype State = State(reg: Statistics, pending: map<nat, Pending>)

  datatype Step =
    | Begin(id: nat, p: Pending)
    | Finish(id: nat, connected: Time, now: Time)
    | Direct(op: Op)

  function KeyOn(p: Pending): ApiKey {
    if p.Feeder? then p.f.key else p.conn.key
  }

  predicate MayBegin(s: Statistics, p: Pending) {
    s.initialised && (p.Feeder? || ValidProtocol(p.conn.proto))
  }

  /** The whole operation of which p is the second half. */
  function OpOf(p: Pending, connected: Time, now: Time): Op {
    match p
    case Feeder(f) => RegisterFeeder(f, now)
    case Connect(conn) => RegisterConnection(conn, connected, now)
    case Disconnect(conn) => UnregisterConnection(conn, now)
  }

  /** The second section. */
  function Main(s: Statistics, p: Pending, connected: Time, now: Time): (Statistics, Outcome) {
    match p
    case Feeder(f) => (RegisterFeederMain(s, f, now), Done)
    case Connect(conn) => RegisterConnectionMain(s, conn, connected, now)
    case Disconnect(conn) => UnregisterConnectionMain(s, conn, now)
  }

  ghost predicate Enabled(c: State, step: Step) {
    match step
    case Begin(id, p) => id !in c.pending && MayBegin(c.reg, p)
    case Finish(id, _, _) => id in c.pending
    case Direct(op) => op.AddBytes? || op.Evict?
  }

  ghost function Fire(c: State, step: Step): (State, Outcome) {
    match step
    case Begin(id, p) => (State(InitFeeder(c.reg, KeyOn(p)), c.pending[id := p]), Done)
    case Finish(id, connected, now) =>
      if id !in c.pending then (c, Done)
      else
        var (reg, o) := Main(c.reg, c.pending[id], connected, now);
        (State(reg, c.pending - {id}), o)
    case Direct(op) =>
      var (reg, o) := Apply(c.reg, op);
      (c.(reg := reg), o)
  }

  ghost function After(s: Statistics, steps: seq<Step>): State {
    if steps == [] then State(s, map[]) else Fire(After(s, steps[..|steps| - 1]), steps[|steps| - 1]).0
  }

  /** No feeder with an operation between its sections is missing: nothing deleted it in between. */
  ghost predicate Undisturbed(c: State) {
    forall id :: id in c.pending ==> KeyOn(c.pending[id]) in c.reg.feeders
  }

  ghost predicate IsRun(s: Statistics, steps: seq<Step>) {
    steps == [] ||
    (IsRun(s, steps[..|steps| - 1]) && Enabled(After(s, steps[..|steps| - 1]), steps[|steps| - 1]))
  }

  ghost predicate NeverDisturbed(s: Statistics, steps: seq<Step>) {
    Undisturbed(After(s, steps)) && (steps == [] || NeverDisturbed(s, steps[..|steps| - 1]))
  }

  ghost function OpsOf(c: State, step: Step): seq<Op> {
    match step
    case Begin(_, _) => []
    case Finish(id, connected, now) => if id in c.pending then [OpOf(c.pending[id], connected, now)] else []
    case Direct(op) => [op]
  }

  /** The operations in the order of their main sections. */
  ghost function Linear(s: Statistics, steps: seq<Step>): seq<Op> {
    if steps == [] then []
    else Linear(s, steps[..|steps| - 1]) + OpsOf(After(s, steps[..|steps| - 1]), steps[|steps| - 1])
  }

  // ---- the sectioned registry is the atomic one plus empty entries for pending feeders

  ghost function PendingKeys(c: State): set<ApiKey> {
    set id | id in c.pending :: KeyOn(c.pending[id])
  }

  ghost function Overlay(a: Statistics, keys: set<ApiKey>): Statistics {
    a.(feeders := map k | k in a.feeders.Keys + keys :: if k in a.feeders then a.feeders[k] else NEW_FEEDER)
  }

  lemma OverlayNothing(a: Statistics)
    ensures Overlay(a, {}) == a
  {
    assert Overlay(a, {}).feeders == a.feeders;
  }

  lemma OverlayInit(a: Statistics, keys: set<ApiKey>, k: ApiKey)
    ensures InitFeeder(Overlay(a, keys), k) == Overlay(a, keys + {k})
    ensures k in keys ==> Overlay(InitFeeder(a, k), keys) == Overlay(a, keys)
  {
    assert InitFeeder(Overlay(a, keys), k).feeders == Overlay(a, keys + {k}).feeders;
    if k in keys {
      assert Overlay(InitFeeder(a, k), keys).feeders == Overlay(a, keys).feeders;
    }
  }

  lemma OverlayPut(a: Statistics, keys: set<ApiKey>, k: ApiKey, f: FeederStats)
    ensures PutFeeder(Overlay(a, keys), k, f) == Overlay(PutFeeder(a, k, f), keys)
    ensures PutFeeder(Overlay(a, keys), k, f) == Overlay(PutFeeder(a, k, f), keys - {k})
  {
    assert PutFeeder(Overlay(a, keys), k, f).feeders == Overlay(PutFeeder(a, k, f), keys).feeders;
    assert PutFeeder(Overlay(a, keys), k, f).feeders == Overlay(PutFeeder(a, k, f), keys - {k}).feeders;
  }

  lemma OverlayDrop(a: Statistics, keys: set<ApiKey>, k: ApiKey)
    ensures DropFeeder(Overlay(a, keys), k) == Overlay(DropFeeder(a, k), keys - {k})
  {
    assert DropFeeder(Overlay(a, keys), k).feeders == Overlay(DropFeeder(a, k), keys - {k}).feeders;
  }

  lemma OverlaySame(a: Statistics, keys: set<ApiKey>, k: ApiKey)
    requires k in a.feeders
    ensures Overlay(a, keys - {k}) == Overlay(a, keys)
  {
    assert Overlay(a, keys - {k}).feeders == Overlay(a, keys).feeders;
  }

  lemma OverlayGood(a: Statistics, keys: set<ApiKey>)
    requires Good(a)
    ensures Good(Overlay(a, keys))
  {
    NewFeederIsGood();
  }

  /** A main section on a present feeder acts on the overlay as on the registry below. */
  lemma MainOnOverlay(b: Statistics, keys: set<ApiKey>, p: Pending, connected: Time, now: Time)
    requires KeyOn(p) in b.feeders
    ensures var (r, o) := Main(b, p, connected, now);
            var (r', o') := Main(Overlay(b, keys), p, connected, now);
            o' == o && r' == Overlay(r, if KeyOn(p) in r.feeders then keys else keys - {KeyOn(p)})
  {
    hide WithConnection, WithoutConnection, NewDetail, PutFeeder, DropFeeder, PutProto, NoneLeft;
    var k := KeyOn(p);
    var f := b.feeders[k];
    assert FeederOf(Overlay(b, keys), k) == f == FeederOf(b, k);
    match p
    case Feeder(d) =>
      OverlayPut(b, keys, k, f.(labelText := d.labelText, code := d.code, timeUpdated := now));
    case Connect(conn) =>
      if conn.proto in f.connections {
        var pd := WithConnection(f.connections[conn.proto], conn.num, NewDetail(conn, connected));
        OverlayPut(b, keys, k, PutProto(f, conn.proto, pd, now));
      }
    case Disconnect(conn) =>
      if conn.num in ProtoOf(f, conn.proto).details {
        var f' := PutProto(f, conn.proto, WithoutConnection(f.connections[conn.proto], conn.num), now);
        OverlayPut(b, keys, k, f');
        OverlayDrop(PutFeeder(b, k, f'), keys, k);
      }
  }

  lemma DirectOnOverlay(a: Statistics, keys: set<ApiKey>, op: Op)
    requires Good(a) && (op.AddBytes? || op.Evict?)
    ensures var (r, o) := Apply(a, op);
            var (r', o') := Apply(Overlay(a, keys), op);
            (o' == Done <==> o == Done) && r' == Overlay(r, keys)
  {
    hide Good, EvictStale;
    match op
    case AddBytes(key, num, p, bytesIn, bytesOut, now) =>
      AddBytesOnOverlay(a, keys, op);
    case Evict(readings) =>
      OverlayGood(a, keys);
      EvictIsIdentity(a, readings);
      EvictIsIdentity(Overlay(a, keys), readings);
  }

  lemma AddBytesOnOverlay(a: Statistics, keys: set<ApiKey>, op: Op)
    requires op.AddBytes?
    ensures var (r, o) := Apply(a, op);
            var (r', o') := Apply(Overlay(a, keys), op);
            (o' == Done <==> o == Done) && r' == Overlay(r, keys)
  {
    match op
    case AddBytes(key, num, p, bytesIn, bytesOut, now) =>
      var s' := Overlay(a, keys);
      if Has(a, FlatKey(key, p, num)) {
        var f := a.feeders[key];
        var pd := f.connections[p];
        var pd' := pd.(details := pd.details[num := AddBytesTo(pd.details[num], bytesIn, bytesOut)]);
        assert s'.feeders[key] == f;
        OverlayPut(AddTotals(a, p, bytesIn, bytesOut), keys, key, PutProto(f, p, pd', now));
        assert AddTotals(s', p, bytesIn, bytesOut) == Overlay(AddTotals(a, p, bytesIn, bytesOut), keys);
      }
  }

  ghost predicate Represents(c: State, a: Statistics) {
    Good(a) && c.reg == Overlay(a, PendingKeys(c))
  }

  lemma PendingKeysWith(c: State, id: nat, p: Pending, reg: Statistics)
    requires id !in c.pending
    ensures PendingKeys(State(reg, c.pending[id := p])) == PendingKeys(c) + {KeyOn(p)}
  {
    hide KeyOn;
    var c' := State(reg, c.pending[id := p]);
    forall k ensures k in PendingKeys(c') <==> k in PendingKeys(c) + {KeyOn(p)} {
      if k in PendingKeys(c) {
        var j :| j in c.pending && KeyOn(c.pending[j]) == k;
        assert j in c'.pending && c'.pending[j] == c.pending[j];
      }
      if k == KeyOn(p) {
        assert id in c'.pending && c'.pending[id] == p;
      }
    }
  }

  lemma BeginSimulates(c: State, a: Statistics, id: nat, p: Pending)
    requires Represents(c, a) && id !in c.pending
    ensures Represents(Fire(c, Begin(id, p)).0, a)
  {
    hide Good, Overlay, InitFeeder, PendingKeys, KeyOn;
    OverlayInit(a, PendingKeys(c), KeyOn(p));
    PendingKeysWith(c, id, p, InitFeeder(c.reg, KeyOn(p)));
  }

  /** Removing one pending operation removes at most its own key from the pending keys. */
  lemma PendingKeysAfter(c: State, id: nat, reg: Statistics)
    requires id in c.pending
    ensures var c' := State(reg, c.pending - {id});
            var k := KeyOn(c.pending[id]);
            k in PendingKeys(c) && PendingKeys(c') - {k} == PendingKeys(c) - {k} && PendingKeys(c') <= PendingKeys(c)
  {
    var c' := State(reg, c.pending - {id});
    var k := KeyOn(c.pending[id]);
    forall x | x in PendingKeys(c) && x != k ensures x in PendingKeys(c') {
      var j :| j in c.pending && KeyOn(c.pending[j]) == x;
      assert j in c'.pending;
    }
  }

  lemma OverlayAgree(a: Statistics, keys: set<ApiKey>, keys': set<ApiKey>, k: ApiKey)
    requires keys' - {k} == keys - {k} && (k in a.feeders || (k !in keys && k !in keys'))
    ensures Overlay(a, keys) == Overlay(a, keys')
  {
    if k in a.feeders {
      OverlaySame(a, keys, k);
      OverlaySame(a, keys', k);
    } else {
      assert keys == keys - {k} && keys' == keys' - {k};
    }
  }

  lemma InitThenMain(a: Statistics, p: Pending, connected: Time, now: Time)
    requires MayBegin(a, p)
    ensures Apply(a, OpOf(p, connected, now)) == Main(InitFeeder(a, KeyOn(p)), p, connected, now)
  {
  }

  /** A finishing section equals the whole operation performed at that moment. */
  lemma FinishSimulates(c: State, a: Statistics, id: nat, connected: Time, now: Time)
    requires Represents(c, a) && id in c.pending && MayBegin(a, c.pending[id])
    requires Undisturbed(Fire(c, Finish(id, connected, now)).0)
    ensures var op := OpOf(c.pending[id], connected, now);
            var (c', o) := Fire(c, Finish(id, connected, now));
            Represents(c', Apply(a, op).0) && o == Apply(a, op).1
  {
    hide Main, Overlay, Apply, Good, InitFeeder;
    var p := c.pending[id];
    var k := KeyOn(p);
    var (c', o) := Fire(c, Finish(id, connected, now));
    var keys := PendingKeys(c);
    var b := InitFeeder(a, k);
    PendingKeysAfter(c, id, c'.reg);
    OverlayInit(a, keys, k);
    FeederOfGood(a, k);
    MainOnOverlay(b, keys, p, connected, now);
    InitThenMain(a, p, connected, now);
    GoodPreserved(a, OpOf(p, connected, now));
    var r := Main(b, p, connected, now).0;
    if k in r.feeders {
      OverlayAgree(r, keys, PendingKeys(c'), k);
    } else {
      NotPending(c', r, keys, k);
      OverlayAgree(r, keys - {k}, PendingKeys(c'), k);
    }
  }

  lemma NotPending(c': State, r: Statistics, keys: set<ApiKey>, k: ApiKey)
    requires Undisturbed(c') && k !in r.feeders && c'.reg == Overlay(r, keys - {k})
    ensures k !in PendingKeys(c')
  {
  }

  ghost predicate PendingAllowed(c: State) {
    forall id :: id in c.pending ==> MayBegin(c.reg, c.pending[id])
  }

  lemma FlagKept(s: Statistics, op: Op, p: Pending, connected: Time, now: Time)
    ensures Apply(s, op).0.initialised == s.initialised
    ensures Main(s, p, connected, now).0.initialised == s.initialised
    ensures InitFeeder(s, KeyOn(p)).initialised == s.initialised
  {
    hide WithConnection, WithoutConnection, NoneLeft, Stale;
  }

  lemma PendingAllowedKept(c: State, step: Step)
    requires PendingAllowed(c) && Enabled(c, step)
    ensures PendingAllowed(Fire(c, step).0)
  {
    hide Main, Apply, InitFeeder;
    match step
    case Begin(id, p) => FlagKept(c.reg, Evict(map[]), p, 0, 0);
    case Finish(id, connected, now) => FlagKept(c.reg, Evict(map[]), c.pending[id], connected, now);
    case Direct(op) => FlagKept(c.reg, op, Feeder(FeederDetails(ApiKey(0), "", "")), 0, 0);
  }

  /** A finishing section returns exactly what the whole operation returns in the atomic registry; an
      operation of one section succeeds exactly if it does there (it may name another missing level). */
  ghost predicate SameOutcome(step: Step, o: Outcome, atomic: Outcome) {
    if step.Finish? then o == atomic else (o == Done <==> atomic == Done)
  }

  /** Every operation along the run returned what the whole operation returns at that point. */
  ghost predicate OutcomesAgree(s: Statistics, steps: seq<Step>) {
    steps == [] ||
    (var prefix, step := steps[..|steps| - 1], steps[|steps| - 1];
     && OutcomesAgree(s, prefix)
     && forall op :: op in OpsOf(After(s, prefix), step) ==>
          SameOutcome(step, Fire(After(s, prefix), step).1, Apply(Exec(s, Linear(s, prefix)), op).1))
  }

  /** In every interleaving in which no feeder is deleted between the two sections of an operation on
      it, the registry is the one obtained by the whole operations, in the order of their main
      sections, plus an empty entry for each feeder with an operation still pending; and each operation
      returns what it returns there. */
  lemma {:induction false} SectionsRefineOperations(s: Statistics, steps: seq<Step>)
    requires Good(s) && IsRun(s, steps) && NeverDisturbed(s, steps)
    ensures PendingAllowed(After(s, steps))
    ensures Represents(After(s, steps), Exec(s, Linear(s, steps)))
    ensures OutcomesAgree(s, steps)
  {
    hide Fire, Represents, Apply, Enabled, PendingAllowed, Undisturbed;
    if steps == [] {
      StartRepresents(s);
    } else {
      var prefix, step := steps[..|steps| - 1], steps[|steps| - 1];
      SectionsRefineOperations(s, prefix);
      var c, a := After(s, prefix), Exec(s, Linear(s, prefix));
      PendingAllowedKept(c, step);
      StepSimulates(c, a, step);
      if !step.Begin? {
        FinishHasOp(c, step);
        var op := OpsOf(c, step)[0];
        assert Linear(s, steps) == Linear(s, prefix) + [op];
        assert Linear(s, steps)[..|Linear(s, steps)| - 1] == Linear(s, prefix);
      } else {
        assert Linear(s, steps) == Linear(s, prefix);
      }
    }
  }

  lemma StartRepresents(s: Statistics)
    requires Good(s)
    ensures Represents(State(s, map[]), s) && PendingAllowed(State(s, map[]))
  {
    OverlayNothing(s);
    assert PendingKeys(State(s, map[])) == {};
  }

  lemma FinishHasOp(c: State, step: Step)
    requires Enabled(c, step) && !step.Begin?
    ensures |OpsOf(c, step)| == 1
  {
  }

  lemma StepSimulates(c: State, a: Statistics, step: Step)
    requires Represents(c, a) && PendingAllowed(c) && Enabled(c, step) && Undisturbed(Fire(c, step).0)
    ensures var ops := OpsOf(c, step);
            Represents(Fire(c, step).0, if ops == [] then a else Apply(a, ops[0]).0)
    ensures step.Finish? ==> Fire(c, step).1 == Apply(a, OpsOf(c, step)[0]).1
    ensures step.Direct? ==> (Fire(c, step).1 == Done <==> Apply(a, step.op).1 == Done)
  {
    hide Main, Overlay, Apply, Good, InitFeeder, Undisturbed;
    match step
    case Begin(id, p) => BeginSimulates(c, a, id, p);
    case Finish(id, connected, now) =>
      OverlayFlag(a, PendingKeys(c));
      FinishSimulates(c, a, id, connected, now);
    case Direct(op) =>
      DirectOnOverlay(a, PendingKeys(c), op);
      GoodPreserved(a, op);
      assert PendingKeys(Fire(c, step).0) == PendingKeys(c);
  }

  lemma OverlayFlag(a: Statistics, keys: set<ApiKey>)
    ensures Overlay(a, keys).initialised == a.initialised
  {
  }

  /** With no operation pending, an undisturbed interleaving ends exactly where the whole operations
      end; and both protocols of every feeder are present at every point of it. */
  lemma UndisturbedRunsAreAtomic(s: Statistics, steps: seq<Step>)
    requires Good(s) && IsRun(s, steps) && NeverDisturbed(s, steps)
    ensures Good(After(s, steps).reg)
    ensures After(s, steps).pending == map[] ==> After(s, steps).reg == Exec(s, Linear(s, steps))
  {
    var c, a := After(s, steps), Exec(s, Linear(s, steps));
    hide After, IsRun, NeverDisturbed, Linear, Exec;
    SectionsRefineOperations(s, steps);
    OverlayGood(a, PendingKeys(c));
    if c.pending == map[] {
      assert PendingKeys(c) == {};
      OverlayNothing(a);
    }
  }

  // ---- a deletion in between is the only interference that does harm

  /** Finishing an operation does harm exactly when its feeder is gone and it is a registration:
      registering a connection panics, registering a feeder leaves an entry without protocols. */
  lemma FinishHarmsIffFeederGone(c: State, id: nat, connected: Time, now: Time)
    requires Good(c.reg) && PendingAllowed(c) && id in c.pending
    ensures var (c', o) := Fire(c, Finish(id, connected, now));
            var p := c.pending[id];
            (o == Panic || !Good(c'.reg)) <==> (KeyOn(p) !in c.reg.feeders && !p.Disconnect?)
    ensures KeyOn(c.pending[id]) !in c.reg.feeders && c.pending[id].Connect? ==>
              Fire(c, Finish(id, connected, now)).1 == Panic
  {
    var p := c.pending[id];
    var k := KeyOn(p);
    if k in c.reg.feeders {
      assert InitFeeder(c.reg, k) == c.reg;
      InitThenMain(c.reg, p, connected, now);
      hide Main, Apply;
      GoodPreserved(c.reg, OpOf(p, connected, now));
    } else if p.Feeder? {
      var s' := RegisterFeederMain(c.reg, p.f, now);
      assert k in s'.feeders && s'.feeders[k].connections == map[];
      assert !GoodFeeder(s'.feeders[k]);
    }
  }

  lemma Extended(s: Statistics, steps: seq<Step>, step: Step) returns (longer: seq<Step>)
    requires IsRun(s, steps) && Enabled(After(s, steps), step)
    ensures IsRun(s, longer) && After(s, longer) == Fire(After(s, steps), step).0
  {
    longer := steps + [step];
    assert longer[..|steps|] == steps;
  }

  /** The interference exists: whenever a feeder has exactly one connection, a second registration
      for it that starts before the disconnection completes, and finishes after, panics. */
  lemma DeletionBetweenSectionsPanics(s: Statistics, conn: Connection, other: Connection)
    returns (steps: seq<Step>)
    requires Good(s) && s.initialised && ValidProtocol(conn.proto) && ValidProtocol(other.proto)
    requires KeyOf(conn) in Flat(s) && other.key == conn.key
    requires forall fk :: fk in Flat(s) && fk.key == conn.key ==> fk == KeyOf(conn)
    ensures IsRun(s, steps) && After(s, steps).pending == map[1 := Connect(other)]
    ensures Enabled(After(s, steps), Finish(1, 0, 0)) && Fire(After(s, steps), Finish(1, 0, 0)).1 == Panic
  {
    var c1 := State(s, map[1 := Connect(other)]);
    var c2 := State(s, map[1 := Connect(other), 2 := Disconnect(conn)]);
    assert conn.key in s.feeders by { assert Has(s, KeyOf(conn)); }
    BothBegin(s, conn, other);
    LastOneDeletes(s, conn, 0);
    DisconnectFinishes(s, conn, other);
    assert After(s, []) == State(s, map[]) && IsRun(s, []);
    hide After, IsRun, Fire, Enabled, Good, Flat;
    steps := Extended(s, [], Begin(1, Connect(other)));
    steps := Extended(s, steps, Begin(2, Disconnect(conn)));
    steps := Extended(s, steps, Finish(2, 0, 0));
  }

  lemma BothBegin(s: Statistics, conn: Connection, other: Connection)
    requires s.initialised && ValidProtocol(conn.proto) && ValidProtocol(other.proto)
    requires conn.key in s.feeders && other.key == conn.key
    ensures var c0, c1 := State(s, map[]), State(s, map[1 := Connect(other)]);
            var c2 := State(s, map[1 := Connect(other), 2 := Disconnect(conn)]);
            Enabled(c0, Begin(1, Connect(other))) && Fire(c0, Begin(1, Connect(other))).0 == c1 &&
            Enabled(c1, Begin(2, Disconnect(conn))) && Fire(c1, Begin(2, Disconnect(conn))).0 == c2
  {
  }

  lemma ConnectPanics(c: State, conn: Connection)
    requires c.pending == map[1 := Connect(conn)] && conn.key !in c.reg.feeders
    ensures Enabled(c, Finish(1, 0, 0)) && Fire(c, Finish(1, 0, 0)).1 == Panic
  {
  }

  lemma DisconnectFinishes(s: Statistics, conn: Connection, other: Connection)
    requires other.key == conn.key && conn.key !in UnregisterConnectionMain(s, conn, 0).0.feeders
    ensures var c2 := State(s, map[1 := Connect(other), 2 := Disconnect(conn)]);
            var c3 := Fire(c2, Finish(2, 0, 0)).0;
            Enabled(c2, Finish(2, 0, 0)) && c3.pending == map[1 := Connect(other)] &&
            Enabled(c3, Finish(1, 0, 0)) && Fire(c3, Finish(1, 0, 0)).1 == Panic
  {
    hide UnregisterConnectionMain, RegisterConnectionMain, RegisterFeederMain;
    var c2 := State(s, map[1 := Connect(other), 2 := Disconnect(conn)]);
    var c3 := Fire(c2, Finish(2, 0, 0)).0;
    assert c3.pending == map[1 := Connect(other)];
    ConnectPanics(c3, other);
  }

  lemma LastOneDeletes(s: Statistics, conn: Connection, now: Time)
    requires Good(s) && ValidProtocol(conn.proto) && KeyOf(conn) in Flat(s)
    requires forall fk :: fk in Flat(s) && fk.key == conn.key ==> fk == KeyOf(conn)
    ensures conn.key !in UnregisterConnectionMain(s, conn, now).0.feeders
  {
    hide UnregisterConnectionMain, Good, Has;
    UnregisterFlat(s, conn, now);
    assert !HoldsConnections(UnregisterConnectionMain(s, conn, now).0, conn.key);
    UnregisterDeletes(s, conn, now);
  }

  /** What is left by a feeder registration that finished after a deletion: further connections of
      that feeder panic until the evictor removes the entry, once it is over sixty seconds old. */
  lemma BrokenEntryPanicsUntilEvicted(s: Statistics, k: ApiKey, conn: Connection, readings: map<ApiKey, Time>)
    requires s.initialised && k in s.feeders && s.feeders[k].connections == map[]
    requires conn.key == k && ValidProtocol(conn.proto) && k in readings
    ensures Apply(s, RegisterConnection(conn, 0, 0)).1 == Panic
    ensures k !in EvictStale(s, readings).feeders <==> readings[k] - s.feeders[k].timeUpdated > STALE_AFTER
  {
  }
}
