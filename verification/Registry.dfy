/** The statistics registry as a value: feeders, their protocols, their connections and the cached
    totals, with one function per critical section.  Reading a missing entry yields a zero value;
    writing through one is a run-time panic. */
module Registry {
  import opened Common

  datatype ConnectionDetail = ConnectionDetail(
    src: string, dst: string, timeConnected: Time, bytesIn: U64, bytesOut: U64)

  datatype ProtocolDetail = ProtocolDetail(
    status: bool, connectionCount: nat, mostRecentConnection: Time, details: map<nat, ConnectionDetail>)

  datatype FeederStats = FeederStats(
    labelText: string, code: string, connections: map<Protocol, ProtocolDetail>, timeUpdated: Time)

  datatype Statistics = Statistics(
    initialised: bool, feeders: map<ApiKey, FeederStats>,
    bytesInBEAST: U64, bytesOutBEAST: U64, bytesInMLAT: U64, bytesOutMLAT: U64)

  datatype FeederDetails = FeederDetails(key: ApiKey, labelText: string, code: string)

  datatype Connection = Connection(key: ApiKey, src: string, dst: string, proto: Protocol, code: string, num: nat)

  datatype Error = NotInitialised | UnknownProtocol(p: Protocol) | APIKeyNotFound | ProtoNotFound | ConnNumNotFound

  datatype Outcome = Done | Failed(error: Error) | Panic

  const NO_CONNECTIONS := ProtocolDetail(false, 0, 0, map[])
  const NO_FEEDER := FeederStats("", "", map[], 0)
  const NEW_FEEDER := FeederStats("", "", map[BEAST := NO_CONNECTIONS, MLAT := NO_CONNECTIONS], 0)
  const STALE_AFTER: Time := 60 * SECOND

  /** Reads of the nested maps, with zero values for what is missing. */
  function FeederOf(s: Statistics, key: ApiKey): FeederStats {
    if key in s.feeders then s.feeders[key] else NO_FEEDER
  }

  function ProtoOf(f: FeederStats, p: Protocol): ProtocolDetail {
    if p in f.connections then f.connections[p] else NO_CONNECTIONS
  }

  function GetNumConnections(s: Statistics, key: ApiKey, p: Protocol): nat {
    ProtoOf(FeederOf(s, key), p).connectionCount
  }

  function PutFeeder(s: Statistics, key: ApiKey, f: FeederStats): Statistics {
    s.(feeders := s.feeders[key := f])
  }

  function PutProto(f: FeederStats, p: Protocol, pd: ProtocolDetail, now: Time): FeederStats {
    f.(connections := f.connections[p := pd], timeUpdated := now)
  }

  // ---- critical sections

  function InitFeeder(s: Statistics, key: ApiKey): Statistics {
    if key in s.feeders then s else PutFeeder(s, key, NEW_FEEDER)
  }

  function RegisterFeederMain(s: Statistics, f: FeederDetails, now: Time): Statistics {
    PutFeeder(s, f.key, FeederOf(s, f.key).(labelText := f.labelText, code := f.code, timeUpdated := now))
  }

  function NewDetail(conn: Connection, connected: Time): ConnectionDetail {
    ConnectionDetail(conn.src, conn.dst, connected, 0, 0)
  }

  function WithConnection(pd: ProtocolDetail, num: nat, c: ConnectionDetail): ProtocolDetail {
    var details := pd.details[num := c];
    ProtocolDetail(true, |details|, c.timeConnected, details)
  }

  function WithoutConnection(pd: ProtocolDetail, num: nat): ProtocolDetail {
    var details := pd.details - {num};
    pd.(status := |details| > 0, connectionCount := |details|, details := details)
  }

  /** Writing a connection into the nested maps panics when the feeder or its protocol is missing. */
  function RegisterConnectionMain(s: Statistics, conn: Connection, connected: Time, now: Time): (Statistics, Outcome) {
    var f := FeederOf(s, conn.key);
    if conn.proto !in f.connections then (s, Panic)
    else
      var pd := WithConnection(f.connections[conn.proto], conn.num, NewDetail(conn, connected));
      (PutFeeder(s, conn.key, PutProto(f, conn.proto, pd, now)), Done)
  }

  function UnregisterConnectionMain(s: Statistics, conn: Connection, now: Time): (Statistics, Outcome) {
    var f := FeederOf(s, conn.key);
    if conn.num !in ProtoOf(f, conn.proto).details then (s, Failed(ConnNumNotFound))
    else
      var pd := WithoutConnection(f.connections[conn.proto], conn.num);
      var f' := PutProto(f, conn.proto, pd, now);
      var s' := PutFeeder(s, conn.key, f');
      if NoneLeft(f') then (DropFeeder(s', conn.key), Done) else (s', Done)
  }

  predicate NoneLeft(f: FeederStats) {
    ProtoOf(f, BEAST).connectionCount == 0 && ProtoOf(f, MLAT).connectionCount == 0
  }

  function DropFeeder(s: Statistics, key: ApiKey): Statistics {
    s.(feeders := s.feeders - {key})
  }

  function AddTotals(s: Statistics, p: Protocol, bytesIn: U64, bytesOut: U64): Statistics {
    if p == BEAST
    then s.(bytesInBEAST := Add64(s.bytesInBEAST, bytesIn), bytesOutBEAST := Add64(s.bytesOutBEAST, bytesOut))
    else if p == MLAT
    then s.(bytesInMLAT := Add64(s.bytesInMLAT, bytesIn), bytesOutMLAT := Add64(s.bytesOutMLAT, bytesOut))
    else s
  }

  function AddBytesTo(c: ConnectionDetail, bytesIn: U64, bytesOut: U64): ConnectionDetail {
    c.(bytesIn := Add64(c.bytesIn, bytesIn), bytesOut := Add64(c.bytesOut, bytesOut))
  }

  function IncrementByteCounters(s: Statistics, key: ApiKey, num: nat, p: Protocol, bytesIn: U64, bytesOut: U64,
                                 now: Time)
    : (Statistics, Outcome)
  {
    if key !in s.feeders then (s, Failed(APIKeyNotFound))
    else if p !in s.feeders[key].connections then (s, Failed(ProtoNotFound))
    else if num !in s.feeders[key].connections[p].details then (s, Failed(ConnNumNotFound))
    else
      var f := s.feeders[key];
      var pd := f.connections[p];
      var pd' := pd.(details := pd.details[num := AddBytesTo(pd.details[num], bytesIn, bytesOut)]);
      (PutFeeder(AddTotals(s, p, bytesIn, bytesOut), key, PutProto(f, p, pd', now)), Done)
  }

  /** One pass of the evictor; readings[u] is the clock when feeder u is visited. */
  function EvictStale(s: Statistics, readings: map<ApiKey, Time>): Statistics {
    s.(feeders := map u | u in s.feeders && !Stale(s.feeders[u], u, readings) :: s.feeders[u])
  }

  predicate Stale(f: FeederStats, u: ApiKey, readings: map<ApiKey, Time>) {
    f.connections == map[] && u in readings && readings[u] - f.timeUpdated > STALE_AFTER
  }

  // ---- whole operations

  datatype Op =
    | RegisterFeeder(f: FeederDetails, now: Time)
    | RegisterConnection(conn: Connection, connected: Time, now: Time)
    | UnregisterConnection(conn: Connection, now: Time)
    | AddBytes(key: ApiKey, num: nat, p: Protocol, bytesIn: U64, bytesOut: U64, now: Time)
    | Evict(readings: map<ApiKey, Time>)

  /** An operation with nothing in between its critical sections. */
  function Apply(s: Statistics, op: Op): (Statistics, Outcome) {
    match op
    case RegisterFeeder(f, now) =>
      if !s.initialised then (s, Failed(NotInitialised))
      else (RegisterFeederMain(InitFeeder(s, f.key), f, now), Done)
    case RegisterConnection(conn, connected, now) =>
      if !s.initialised then (s, Failed(NotInitialised))
      else if !ValidProtocol(conn.proto) then (s, Failed(UnknownProtocol(conn.proto)))
      else RegisterConnectionMain(InitFeeder(s, conn.key), conn, connected, now)
    case UnregisterConnection(conn, now) =>
      if !s.initialised then (s, Failed(NotInitialised))
      else if !ValidProtocol(conn.proto) then (s, Failed(UnknownProtocol(conn.proto)))
      else UnregisterConnectionMain(InitFeeder(s, conn.key), conn, now)
    case AddBytes(key, num, p, bytesIn, bytesOut, now) =>
      IncrementByteCounters(s, key, num, p, bytesIn, bytesOut, now)
    case Evict(readings) => (EvictStale(s, readings), Done)
  }

  ghost function Exec(s: Statistics, ops: seq<Op>): Statistics {
    if ops == [] then s else Apply(Exec(s, ops[..|ops| - 1]), ops[|ops| - 1]).0
  }

  // ---- the invariant

  ghost predicate GoodProto(pd: ProtocolDetail) {
    pd.connectionCount == |pd.details| && (pd.status <==> pd.details != map[])
  }

  /** Both protocols are present and the cached fields agree with the details. */
  ghost predicate GoodFeeder(f: FeederStats) {
    && BEAST in f.connections && MLAT in f.connections
    && forall p :: p in f.connections ==> ValidProtocol(p) && GoodProto(f.connections[p])
  }

  ghost predicate Good(s: Statistics) {
    forall k :: k in s.feeders ==> GoodFeeder(s.feeders[k])
  }

  lemma NewFeederIsGood()
    ensures GoodFeeder(NEW_FEEDER)
  {
  }

  lemma PutFeederGood(s: Statistics, key: ApiKey, f: FeederStats)
    requires Good(s) && GoodFeeder(f)
    ensures Good(PutFeeder(s, key, f))
  {
  }

  lemma PutProtoGood(f: FeederStats, p: Protocol, pd: ProtocolDetail, now: Time)
    requires GoodFeeder(f) && ValidProtocol(p) && GoodProto(pd)
    ensures GoodFeeder(PutProto(f, p, pd, now))
  {
  }

  /** In a good registry the entry of a known feeder has exactly the two supported protocols. */
  lemma FeederOfGood(s: Statistics, key: ApiKey)
    requires Good(s)
    ensures GoodFeeder(FeederOf(InitFeeder(s, key), key)) && Good(InitFeeder(s, key))
            && key in InitFeeder(s, key).feeders
  {
    NewFeederIsGood();
    PutFeederGood(s, key, NEW_FEEDER);
  }

  lemma WithConnectionGood(pd: ProtocolDetail, num: nat, c: ConnectionDetail)
    ensures GoodProto(WithConnection(pd, num, c))
  {
    assert num in pd.details[num := c];
  }

  lemma WithoutConnectionGood(pd: ProtocolDetail, num: nat)
    ensures GoodProto(WithoutConnection(pd, num))
  {
    var details := pd.details - {num};
    if details != map[] {
      var k :| k in details;
    }
  }

  lemma RegisterFeederGood(s: Statistics, f: FeederDetails, now: Time)
    requires Good(s) && f.key in s.feeders
    ensures Good(RegisterFeederMain(s, f, now))
  {
    var y := s.feeders[f.key].(labelText := f.labelText, code := f.code, timeUpdated := now);
    assert GoodFeeder(s.feeders[f.key]);
    assert GoodFeeder(y);
    PutFeederGood(s, f.key, y);
  }

  lemma RegisterGood(s: Statistics, conn: Connection, connected: Time, now: Time)
    requires Good(s) && conn.key in s.feeders && ValidProtocol(conn.proto)
    ensures conn.proto in FeederOf(s, conn.key).connections
    ensures RegisterConnectionMain(s, conn, connected, now).1 == Done
    ensures Good(RegisterConnectionMain(s, conn, connected, now).0)
  {
    var f := s.feeders[conn.key];
    assert GoodFeeder(f);
    assert conn.proto in f.connections;
    var pd := WithConnection(f.connections[conn.proto], conn.num, NewDetail(conn, connected));
    WithConnectionGood(f.connections[conn.proto], conn.num, NewDetail(conn, connected));
    PutProtoGood(f, conn.proto, pd, now);
    PutFeederGood(s, conn.key, PutProto(f, conn.proto, pd, now));
  }

  lemma UnregisterGood(s: Statistics, conn: Connection, now: Time)
    requires Good(s) && ValidProtocol(conn.proto)
    ensures Good(UnregisterConnectionMain(s, conn, now).0)
    ensures UnregisterConnectionMain(s, conn, now).1 != Panic
  {
    if Has(s, KeyOf(conn)) {
      var f := s.feeders[conn.key];
      assert GoodFeeder(f);
      var pd := WithoutConnection(f.connections[conn.proto], conn.num);
      WithoutConnectionGood(f.connections[conn.proto], conn.num);
      PutProtoGood(f, conn.proto, pd, now);
      PutFeederGood(s, conn.key, PutProto(f, conn.proto, pd, now));
    }
  }

  lemma AddedGood(pd: ProtocolDetail, num: nat, c: ConnectionDetail)
    requires GoodProto(pd) && num in pd.details
    ensures GoodProto(pd.(details := pd.details[num := c]))
  {
    var details := pd.details[num := c];
    assert details.Keys == pd.details.Keys && |details| == |details.Keys| && |pd.details| == |pd.details.Keys|;
    assert num in details;
  }

  lemma TotalsKeepFeeders(s: Statistics, p: Protocol, bytesIn: U64, bytesOut: U64)
    ensures var t := AddTotals(s, p, bytesIn, bytesOut);
            t.feeders == s.feeders && t.initialised == s.initialised
  {
  }

  lemma ProtoGood(s: Statistics, key: ApiKey, p: Protocol)
    requires Good(s) && key in s.feeders && p in s.feeders[key].connections
    ensures GoodFeeder(s.feeders[key]) && GoodProto(s.feeders[key].connections[p])
  {
    assert GoodFeeder(s.feeders[key]);
  }

  lemma AddBytesGood(s: Statistics, op: Op)
    requires Good(s) && op.AddBytes?
    ensures Good(Apply(s, op).0) && Apply(s, op).1 != Panic
  {
    hide AddBytesTo, AddTotals, GoodProto, GoodFeeder;
    if Has(s, FlatKey(op.key, op.p, op.num)) {
      var f := s.feeders[op.key];
      ProtoGood(s, op.key, op.p);
      var pd := f.connections[op.p];
      var c := AddBytesTo(pd.details[op.num], op.bytesIn, op.bytesOut);
      AddedGood(pd, op.num, c);
      PutProtoGood(f, op.p, pd.(details := pd.details[op.num := c]), op.now);
      TotalsKeepFeeders(s, op.p, op.bytesIn, op.bytesOut);
      var t := AddTotals(s, op.p, op.bytesIn, op.bytesOut);
      PutFeederGood(t, op.key, PutProto(f, op.p, pd.(details := pd.details[op.num := c]), op.now));
    }
  }

  lemma NotStale(s: Statistics, u: ApiKey, readings: map<ApiKey, Time>)
    requires Good(s) && u in s.feeders
    ensures !Stale(s.feeders[u], u, readings)
  {
    assert GoodFeeder(s.feeders[u]);
    assert BEAST in s.feeders[u].connections;
  }

  /** In a good registry nothing is stale, so an eviction pass changes nothing. */
  lemma EvictIsIdentity(s: Statistics, readings: map<ApiKey, Time>)
    requires Good(s)
    ensures EvictStale(s, readings) == s
  {
    hide Good, GoodFeeder, Stale;
    forall u | u in s.feeders ensures !Stale(s.feeders[u], u, readings) {
      NotStale(s, u, readings);
    }
    assert EvictStale(s, readings).feeders == s.feeders;
  }

  /** Every operation keeps the invariant, and in a good registry none panics. */
  lemma GoodPreserved(s: Statistics, op: Op)
    requires Good(s)
    ensures Good(Apply(s, op).0) && Apply(s, op).1 != Panic
  {
    hide RegisterConnectionMain, UnregisterConnectionMain, RegisterFeederMain, IncrementByteCounters, EvictStale,
         InitFeeder, Good, GoodFeeder;
    match op
    case RegisterFeeder(f, now) =>
      FeederOfGood(s, f.key);
      RegisterFeederGood(InitFeeder(s, f.key), f, now);
    case RegisterConnection(conn, connected, now) =>
      FeederOfGood(s, conn.key);
      if ValidProtocol(conn.proto) {
        RegisterGood(InitFeeder(s, conn.key), conn, connected, now);
      }
    case UnregisterConnection(conn, now) =>
      FeederOfGood(s, conn.key);
      if ValidProtocol(conn.proto) {
        UnregisterGood(InitFeeder(s, conn.key), conn, now);
      }
    case AddBytes(_, _, _, _, _, _) => AddBytesGood(s, op);
    case Evict(readings) => EvictIsIdentity(s, readings);
  }

  lemma InitialisedKept(s: Statistics, op: Op)
    ensures Apply(s, op).0.initialised == s.initialised
  {
    hide WithConnection, WithoutConnection, NoneLeft, Stale;
  }

  lemma {:induction false} GoodAlways(s: Statistics, ops: seq<Op>)
    requires Good(s)
    ensures Good(Exec(s, ops))
  {
    if ops != [] {
      GoodAlways(s, ops[..|ops| - 1]);
      GoodPreserved(Exec(s, ops[..|ops| - 1]), ops[|ops| - 1]);
    }
  }

  // ---- the flat map a registry represents

  datatype FlatKey = FlatKey(key: ApiKey, proto: Protocol, num: nat)

  type FlatMap = map<FlatKey, ConnectionDetail>

  predicate Has(s: Statistics, fk: FlatKey) {
    fk.key in s.feeders && fk.proto in s.feeders[fk.key].connections
    && fk.num in s.feeders[fk.key].connections[fk.proto].details
  }

  function Get(s: Statistics, fk: FlatKey): ConnectionDetail
    requires Has(s, fk)
  {
    s.feeders[fk.key].connections[fk.proto].details[fk.num]
  }

  ghost function Flat(s: Statistics): (m: FlatMap)
    ensures forall fk :: fk in m <==> Has(s, fk)
    ensures forall fk :: fk in m ==> m[fk] == Get(s, fk)
  {
    var keys := set k, p, n | k in s.feeders && p in s.feeders[k].connections
                              && n in s.feeders[k].connections[p].details :: FlatKey(k, p, n);
    map fk | fk in keys :: Get(s, fk)
  }

  function KeyOf(conn: Connection): FlatKey {
    FlatKey(conn.key, conn.proto, conn.num)
  }

  /** What each operation means on the flat map: insert, remove, add bytes, or nothing. */
  ghost function FlatApply(initialised: bool, m: FlatMap, op: Op): FlatMap {
    match op
    case RegisterConnection(conn, connected, _) =>
      if initialised && ValidProtocol(conn.proto) then m[KeyOf(conn) := NewDetail(conn, connected)] else m
    case UnregisterConnection(conn, _) =>
      if initialised && ValidProtocol(conn.proto) then m - {KeyOf(conn)} else m
    case AddBytes(key, num, p, bytesIn, bytesOut, _) =>
      var fk := FlatKey(key, p, num);
      if fk in m then m[fk := AddBytesTo(m[fk], bytesIn, bytesOut)] else m
    case RegisterFeeder(_, _) => m
    case Evict(_) => m
  }

  /** When each operation succeeds, in terms of the flat map alone. */
  ghost predicate Succeeds(initialised: bool, m: FlatMap, op: Op) {
    match op
    case RegisterConnection(conn, _, _) => initialised && ValidProtocol(conn.proto)
    case UnregisterConnection(conn, _) => initialised && ValidProtocol(conn.proto) && KeyOf(conn) in m
    case AddBytes(key, num, p, _, _, _) => FlatKey(key, p, num) in m
    case RegisterFeeder(_, _) => initialised
    case Evict(_) => true
  }

  lemma FlatEqual(s: Statistics, m: FlatMap)
    requires forall fk :: Has(s, fk) <==> fk in m
    requires forall fk :: fk in m ==> Get(s, fk) == m[fk]
    ensures Flat(s) == m
  {
    assert forall fk :: fk in Flat(s) <==> fk in m;
  }

  /** Replacing the details of one protocol of one feeder. */
  lemma PutFlat(s: Statistics, key: ApiKey, p: Protocol, pd: ProtocolDetail, now: Time, m: FlatMap)
    requires key in s.feeders && p in s.feeders[key].connections
    requires forall fk :: fk in m <==> if fk.key == key && fk.proto == p then fk.num in pd.details else Has(s, fk)
    requires forall fk :: fk in m ==> m[fk] == if fk.key == key && fk.proto == p then pd.details[fk.num] else Get(s, fk)
    ensures Flat(PutFeeder(s, key, PutProto(s.feeders[key], p, pd, now))) == m
  {
    FlatEqual(PutFeeder(s, key, PutProto(s.feeders[key], p, pd, now)), m);
  }

  lemma InitFeederFlat(s: Statistics, key: ApiKey)
    ensures Flat(InitFeeder(s, key)) == Flat(s)
  {
    FlatEqual(InitFeeder(s, key), Flat(s));
  }

  lemma RegisterFlat(s: Statistics, conn: Connection, connected: Time, now: Time)
    requires conn.proto in FeederOf(s, conn.key).connections
    ensures RegisterConnectionMain(s, conn, connected, now).1 == Done
    ensures Flat(RegisterConnectionMain(s, conn, connected, now).0)
            == Flat(s)[KeyOf(conn) := NewDetail(conn, connected)]
  {
    FlatEqual(RegisterConnectionMain(s, conn, connected, now).0, Flat(s)[KeyOf(conn) := NewDetail(conn, connected)]);
  }

  /** A feeder entry whose counts are both zero holds no connection. */
  lemma EmptyWhenCountsAreZero(f: FeederStats)
    requires GoodFeeder(f) && NoneLeft(f)
    ensures forall p :: p in f.connections ==> f.connections[p].details == map[]
  {
    forall p | p in f.connections ensures f.connections[p].details == map[] {
      assert GoodProto(f.connections[p]);
      assert p == BEAST || p == MLAT;
    }
  }

  lemma RemoveFlat(s: Statistics, fk: FlatKey, now: Time)
    requires Has(s, fk)
    ensures var f := s.feeders[fk.key];
            var pd := WithoutConnection(f.connections[fk.proto], fk.num);
            Flat(PutFeeder(s, fk.key, PutProto(f, fk.proto, pd, now))) == Flat(s) - {fk}
  {
    var f := s.feeders[fk.key];
    var pd := WithoutConnection(f.connections[fk.proto], fk.num);
    PutFlat(s, fk.key, fk.proto, pd, now, Flat(s) - {fk});
  }

  lemma UnregisterFlat(s: Statistics, conn: Connection, now: Time)
    requires Good(s) && ValidProtocol(conn.proto)
    ensures Flat(UnregisterConnectionMain(s, conn, now).0) == Flat(s) - {KeyOf(conn)}
    ensures UnregisterConnectionMain(s, conn, now).1 == if KeyOf(conn) in Flat(s) then Done else Failed(ConnNumNotFound)
  {
    hide Flat, GoodFeeder, UnregisterConnectionMain;
    EntryUnregisterFlat(s, conn, now);
  }

  /** Only the entry of the connection's own feeder needs to be good. */
  lemma EntryUnregisterFlat(s: Statistics, conn: Connection, now: Time)
    requires ValidProtocol(conn.proto) && (Has(s, KeyOf(conn)) ==> GoodFeeder(s.feeders[conn.key]))
    ensures Flat(UnregisterConnectionMain(s, conn, now).0) == Flat(s) - {KeyOf(conn)}
    ensures UnregisterConnectionMain(s, conn, now).1 == if KeyOf(conn) in Flat(s) then Done else Failed(ConnNumNotFound)
  {
    hide Get, Flat, Good, WithoutConnection, NoneLeft;
    if !Has(s, KeyOf(conn)) {
      assert Flat(s) - {KeyOf(conn)} == Flat(s);
    } else {
      var f := s.feeders[conn.key];
      var pd := WithoutConnection(f.connections[conn.proto], conn.num);
      var f' := PutProto(f, conn.proto, pd, now);
      RemoveFlat(s, KeyOf(conn), now);
      if NoneLeft(f') {
        WithoutConnectionGood(f.connections[conn.proto], conn.num);
        PutProtoGood(f, conn.proto, pd, now);
        DropEmptyFeeder(PutFeeder(s, conn.key, f'), conn.key);
      }
    }
  }

  lemma DropEmptyFeeder(s: Statistics, key: ApiKey)
    requires key in s.feeders && GoodFeeder(s.feeders[key]) && NoneLeft(s.feeders[key])
    ensures Flat(DropFeeder(s, key)) == Flat(s)
  {
    EmptyWhenCountsAreZero(s.feeders[key]);
    FlatEqual(DropFeeder(s, key), Flat(s));
  }

  lemma AddBytesFlat(s: Statistics, op: Op)
    requires op.AddBytes?
    ensures Flat(Apply(s, op).0) == FlatApply(s.initialised, Flat(s), op)
    ensures Apply(s, op).1 == Done <==> FlatKey(op.key, op.p, op.num) in Flat(s)
  {
    hide AddBytesTo, AddTotals;
    TotalsKeepFeeders(s, op.p, op.bytesIn, op.bytesOut);
    var fk := FlatKey(op.key, op.p, op.num);
    if Has(s, fk) {
      var t := AddTotals(s, op.p, op.bytesIn, op.bytesOut);
      var pd := t.feeders[op.key].connections[op.p];
      var pd' := pd.(details := pd.details[op.num := AddBytesTo(pd.details[op.num], op.bytesIn, op.bytesOut)]);
      var m := Flat(s)[fk := AddBytesTo(Flat(s)[fk], op.bytesIn, op.bytesOut)];
      PutFlat(t, op.key, op.p, pd', op.now, m);
    }
  }

  lemma RegisterFeederFlat(s: Statistics, f: FeederDetails, now: Time)
    requires f.key in s.feeders
    ensures Flat(RegisterFeederMain(s, f, now)) == Flat(s)
  {
    FlatEqual(RegisterFeederMain(s, f, now), Flat(s));
  }

  /** Every operation on the nested registry is the corresponding operation on the flat map, and it
      succeeds exactly when the flat map says so. */
  lemma FlatRefinement(s: Statistics, op: Op)
    requires Good(s)
    ensures Flat(Apply(s, op).0) == FlatApply(s.initialised, Flat(s), op)
    ensures Apply(s, op).1 == Done <==> Succeeds(s.initialised, Flat(s), op)
  {
    hide RegisterConnectionMain, UnregisterConnectionMain, RegisterFeederMain, IncrementByteCounters, EvictStale,
         InitFeeder, Good, GoodFeeder, Has, Get;
    match op
    case RegisterFeeder(f, now) =>
      InitFeederFlat(s, f.key);
      FeederOfGood(s, f.key);
      RegisterFeederFlat(InitFeeder(s, f.key), f, now);
    case RegisterConnection(conn, connected, now) =>
      InitFeederFlat(s, conn.key);
      FeederOfGood(s, conn.key);
      if ValidProtocol(conn.proto) {
        RegisterGood(InitFeeder(s, conn.key), conn, connected, now);
        RegisterFlat(InitFeeder(s, conn.key), conn, connected, now);
      }
    case UnregisterConnection(conn, now) =>
      InitFeederFlat(s, conn.key);
      FeederOfGood(s, conn.key);
      if ValidProtocol(conn.proto) {
        UnregisterFlat(InitFeeder(s, conn.key), conn, now);
      }
    case AddBytes(_, _, _, _, _, _) => AddBytesFlat(s, op);
    case Evict(readings) => EvictIsIdentity(s, readings);
  }

  /** A failed operation leaves the flat map as it was. */
  lemma FailureChangesNothing(s: Statistics, op: Op)
    requires Good(s) && Apply(s, op).1 != Done
    ensures Flat(Apply(s, op).0) == Flat(s)
  {
    hide Apply, Flat, Good;
    FlatRefinement(s, op);
    match op
    case UnregisterConnection(conn, _) =>
      if s.initialised && ValidProtocol(conn.proto) {
        assert Flat(s) - {KeyOf(conn)} == Flat(s);
      }
    case RegisterFeeder(_, _) =>
    case RegisterConnection(_, _, _) =>
    case AddBytes(_, _, _, _, _, _) =>
    case Evict(_) =>
  }

  ghost predicate HoldsConnections(s: Statistics, key: ApiKey) {
    exists fk :: fk in Flat(s) && fk.key == key
  }

  lemma LiveFeederHoldsConnections(s: Statistics, key: ApiKey)
    requires key in s.feeders && GoodFeeder(s.feeders[key]) && !NoneLeft(s.feeders[key])
    ensures HoldsConnections(s, key)
  {
    var f := s.feeders[key];
    var p: Protocol := if ProtoOf(f, BEAST).connectionCount != 0 then BEAST else MLAT;
    assert p in f.connections && GoodProto(f.connections[p]);
    var n :| n in f.connections[p].details;
    assert FlatKey(key, p, n) in Flat(s);
  }

  lemma UnregisterDeletes(s: Statistics, conn: Connection, now: Time)
    requires Good(s) && Has(s, KeyOf(conn)) && ValidProtocol(conn.proto)
    ensures var s' := UnregisterConnectionMain(s, conn, now).0;
            conn.key !in s'.feeders <==> !HoldsConnections(s', conn.key)
  {
    UnregisterGood(s, conn, now);
    var s' := UnregisterConnectionMain(s, conn, now).0;
    var f := s.feeders[conn.key];
    var f' := PutProto(f, conn.proto, WithoutConnection(f.connections[conn.proto], conn.num), now);
    if !NoneLeft(f') {
      assert s' == PutFeeder(s, conn.key, f');
      LiveFeederHoldsConnections(s', conn.key);
    }
  }

  lemma UnregisterKeepsOthers(s: Statistics, conn: Connection, now: Time, key: ApiKey)
    requires key in s.feeders && (key != conn.key || UnregisterConnectionMain(s, conn, now).1 != Done)
    ensures key in UnregisterConnectionMain(s, conn, now).0.feeders
  {
  }

  lemma OnlyUnregisterDeletes(s: Statistics, op: Op, key: ApiKey)
    requires Good(s) && key in s.feeders
    requires !(op.UnregisterConnection? && op.conn.key == key && Apply(s, op).1 == Done)
    ensures key in Apply(s, op).0.feeders
  {
    hide UnregisterConnectionMain, EvictStale, Good, WithConnection;
    match op
    case Evict(readings) => EvictIsIdentity(s, readings);
    case UnregisterConnection(conn, now) =>
      if s.initialised && ValidProtocol(conn.proto) {
        UnregisterKeepsOthers(InitFeeder(s, conn.key), conn, now, key);
      }
    case RegisterFeeder(_, _) =>
    case RegisterConnection(_, _, _) =>
    case AddBytes(_, _, _, _, _, _) =>
  }

  /** A feeder entry disappears exactly when its last connection is unregistered: never through the
      evictor, and never while it still holds a connection. */
  lemma DeletedOnlyByLastUnregister(s: Statistics, op: Op, key: ApiKey)
    requires Good(s) && key in s.feeders
    ensures key !in Apply(s, op).0.feeders <==>
            op.UnregisterConnection? && op.conn.key == key && Apply(s, op).1 == Done
            && !HoldsConnections(Apply(s, op).0, key)
  {
    if op.UnregisterConnection? && op.conn.key == key && Apply(s, op).1 == Done {
      assert InitFeeder(s, key) == s;
      UnregisterDeletes(s, op.conn, op.now);
    } else {
      OnlyUnregisterDeletes(s, op, key);
    }
  }
}
