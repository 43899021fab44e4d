/** Loops over the registry: the gauges, the evictor and the replies to NATS requests.  Go visits a map
    in any order, so each loop picks an arbitrary remaining key. */
module RegistryViews {
  import opened Common
  import opened MapSum
  import opened Registry

  // ---------------------------------------------------------------------------------------------
  // Gauges
  // ---------------------------------------------------------------------------------------------

  /** The connections of one protocol. */
  ghost function OfProtocol(m: FlatMap, p: Protocol): set<FlatKey> {
    set fk | fk in m && fk.proto == p
  }

  /** The feeders with a connection of that protocol. */
  ghost function ActiveFeeders(m: FlatMap, p: Protocol): set<ApiKey> {
    set fk | fk in OfProtocol(m, p) :: fk.key
  }

  /** The connections of one protocol whose feeder has been visited. */
  ghost function Visited(m: FlatMap, p: Protocol, rest: set<ApiKey>): set<FlatKey> {
    set fk | fk in m && fk.proto == p && fk.key !in rest
  }

  ghost function OfFeeder(m: FlatMap, p: Protocol, u: ApiKey): set<FlatKey> {
    set fk | fk in m && fk.proto == p && fk.key == u
  }

  lemma BothThere(s: Statistics, u: ApiKey)
    requires Good(s) && u in s.feeders
    ensures forall p :: ValidProtocol(p) ==> p in s.feeders[u].connections && GoodProto(s.feeders[u].connections[p])
  {
    assert GoodFeeder(s.feeders[u]);
  }

  /** The cached count of a feeder is its number of connections in the flat map. */
  lemma CachedCount(s: Statistics, p: Protocol, u: ApiKey)
    requires Good(s) && u in s.feeders && ValidProtocol(p)
    ensures p in s.feeders[u].connections
    ensures s.feeders[u].connections[p].connectionCount == GetNumConnections(s, u, p) == |OfFeeder(Flat(s), p, u)|
    ensures s.feeders[u].connections[p].status <==> OfFeeder(Flat(s), p, u) != {}
  {
    hide Good, GoodFeeder;
    BothThere(s, u);
    var pd := s.feeders[u].connections[p];
    var own := OfFeeder(Flat(s), p, u);
    forall n | n in pd.details ensures FlatKey(u, p, n) in own {
      assert Has(s, FlatKey(u, p, n));
    }
    forall fk | fk in own ensures fk.num in pd.details && FlatKey(u, p, fk.num) == fk {
      assert Has(s, fk);
    }
    SameSize(pd.details.Keys, own, (n: nat) => FlatKey(u, p, n));
    assert |pd.details| == |pd.details.Keys|;
    assert pd.details == map[] <==> pd.details.Keys == {};
  }

  /** The number of connections of a feeder and protocol is what the flat map holds. */
  lemma CountIsFlat(s: Statistics, p: Protocol, u: ApiKey)
    requires Good(s)
    ensures GetNumConnections(s, u, p) == |OfFeeder(Flat(s), p, u)|
  {
    if u in s.feeders && ValidProtocol(p) {
      CachedCount(s, p, u);
    } else {
      if u in s.feeders {
        assert GoodFeeder(s.feeders[u]);
      }
      assert forall fk :: fk in OfFeeder(Flat(s), p, u) ==> Has(s, fk);
      assert OfFeeder(Flat(s), p, u) == {};
    }
  }

  lemma VisitedNone(s: Statistics, p: Protocol)
    ensures Visited(Flat(s), p, s.feeders.Keys) == {}
    ensures ActiveFeeders(Flat(s), p) - s.feeders.Keys == {}
  {
    assert forall fk :: fk in Flat(s) ==> Has(s, fk);
  }

  lemma VisitedAll(m: FlatMap, p: Protocol)
    ensures Visited(m, p, {}) == OfProtocol(m, p)
  {
  }

  lemma VisitedNext(m: FlatMap, p: Protocol, rest: set<ApiKey>, u: ApiKey)
    requires u in rest
    ensures |Visited(m, p, rest - {u})| == |Visited(m, p, rest)| + |OfFeeder(m, p, u)|
  {
    assert Visited(m, p, rest - {u}) == Visited(m, p, rest) + OfFeeder(m, p, u);
    assert Visited(m, p, rest) !! OfFeeder(m, p, u);
  }

  /** Number of active connections, accumulated over the cached counts. */
  method ConnectionsGauge(s: Statistics, p: Protocol) returns (n: nat)
    requires Good(s) && ValidProtocol(p)
    ensures n == |OfProtocol(Flat(s), p)|
  {
    hide Good, Flat, Visited, OfFeeder, OfProtocol, GetNumConnections;
    n := 0;
    var rest := s.feeders.Keys;
    VisitedNone(s, p);
    while rest != {}
      invariant rest <= s.feeders.Keys
      invariant n == |Visited(Flat(s), p, rest)|
    {
      var u :| u in rest;
      CachedCount(s, p, u);
      VisitedNext(Flat(s), p, rest, u);
      n := n + s.feeders[u].connections[p].connectionCount;
      rest := rest - {u};
    }
    VisitedAll(Flat(s), p);
  }

  lemma OneMoreVisited(active: set<ApiKey>, rest: set<ApiKey>, u: ApiKey)
    requires u in rest
    ensures |active - (rest - {u})| == |active - rest| + if u in active then 1 else 0
  {
    assert active - (rest - {u}) == (active - rest) + if u in active then {u} else {};
  }

  /** Number of feeders with an active connection, counted by their cached status. */
  method FeedersActiveGauge(s: Statistics, p: Protocol) returns (n: nat)
    requires Good(s) && ValidProtocol(p)
    ensures n == |ActiveFeeders(Flat(s), p)|
  {
    hide Good, Flat, OfFeeder, ActiveFeeders, GetNumConnections;
    n := 0;
    var rest := s.feeders.Keys;
    ghost var active := ActiveFeeders(Flat(s), p);
    VisitedNone(s, p);
    while rest != {}
      invariant rest <= s.feeders.Keys
      invariant n == |active - rest|
    {
      var u :| u in rest;
      CachedCount(s, p, u);
      ActiveIff(Flat(s), p, u);
      OneMoreVisited(active, rest, u);
      if s.feeders[u].connections[p].status == true {
        n := n + 1;
      }
      rest := rest - {u};
    }
    assert active - {} == active;
  }

  lemma ActiveIff(m: FlatMap, p: Protocol, u: ApiKey)
    ensures u in ActiveFeeders(m, p) <==> OfFeeder(m, p, u) != {}
  {
    if u in ActiveFeeders(m, p) {
      var fk :| fk in OfProtocol(m, p) && fk.key == u;
      assert fk in OfFeeder(m, p, u);
    }
    if OfFeeder(m, p, u) != {} {
      var fk :| fk in OfFeeder(m, p, u);
      assert fk in OfProtocol(m, p);
    }
  }

  // ---------------------------------------------------------------------------------------------
  // The evictor
  // ---------------------------------------------------------------------------------------------

  /** Collects the stale feeders in one loop and deletes them in another. */
  method EvictorPass(s: Statistics, readings: map<ApiKey, Time>) returns (s': Statistics)
    requires s.feeders.Keys <= readings.Keys
    ensures s' == EvictStale(s, readings)
  {
    var toEvict: seq<ApiKey> := [];
    var rest := s.feeders.Keys;
    while rest != {}
      invariant rest <= s.feeders.Keys
      invariant forall u :: u in toEvict <==> u in s.feeders && u !in rest && Stale(s.feeders[u], u, readings)
    {
      var u :| u in rest;
      if s.feeders[u].connections == map[] {
        if readings[u] - s.feeders[u].timeUpdated > STALE_AFTER {
          toEvict := toEvict + [u];
        }
      }
      rest := rest - {u};
    }
    s' := s;
    for i := 0 to |toEvict|
      invariant s' == s.(feeders := s'.feeders)
      invariant forall u :: u in s'.feeders <==> u in s.feeders && u !in toEvict[..i]
      invariant forall u :: u in s'.feeders ==> s'.feeders[u] == s.feeders[u]
    {
      s' := s'.(feeders := s'.feeders - {toEvict[i]});
    }
    assert toEvict[..|toEvict|] == toEvict;
    assert s'.feeders == EvictStale(s, readings).feeders;
  }

  // ---------------------------------------------------------------------------------------------
  // Replies to NATS requests
  // ---------------------------------------------------------------------------------------------

  /** What a handler remembers of the connections of one protocol while looping over them. */
  datatype Newest = Newest(connected: bool, bytesIn: U64, bytesOut: U64, time: Time)

  datatype ProtocolReply = ProtocolReply(feederCode: string, labelText: string, newest: Newest)

  datatype FeederReply = FeederReply(feederCode: string, labelText: string, beast: Newest, mlat: Newest)

  function NewestFrom(c: ConnectionDetail): Newest {
    Newest(true, c.bytesIn, c.bytesOut, c.timeConnected)
  }

  const NOTHING := Newest(false, 0, 0, 0)

  predicate Reports(r: Newest, c: ConnectionDetail) {
    r.connected && r.bytesIn == c.bytesIn && r.bytesOut == c.bytesOut && r.time == c.timeConnected
  }

  /** r is a connection with the latest nonzero time, or nothing if every time is zero. */
  ghost predicate IsNewest(details: map<nat, ConnectionDetail>, r: Newest) {
    && (forall n :: n in details ==> details[n].timeConnected <= r.time)
    && (r.connected ==> exists n :: n in details && 0 < r.time && Reports(r, details[n]))
    && (!r.connected ==> r.bytesIn == 0 && r.bytesOut == 0 && r.time == 0)
  }

  /** The loop shared by the metrics handlers. */
  method FindNewest(details: map<nat, ConnectionDetail>) returns (r: Newest)
    ensures IsNewest(details, r)
  {
    r := NOTHING;
    var rest := details.Keys;
    while rest != {}
      invariant rest <= details.Keys
      invariant forall n :: n in details && n !in rest ==> details[n].timeConnected <= r.time
      invariant r.connected ==> exists n :: n in details && 0 < r.time && Reports(r, details[n])
      invariant !r.connected ==> r == NOTHING
    {
      var n :| n in rest;
      if r.time < details[n].timeConnected {
        r := NewestFrom(details[n]);
      }
      rest := rest - {n};
    }
  }

  ghost predicate AnswersProtocol(s: Statistics, key: ApiKey, p: Protocol, reply: Option<ProtocolReply>) {
    exists r ::
      && IsNewest(ProtoOf(FeederOf(s, key), p).details, r)
      && reply == if r.connected then Some(ProtocolReply(s.feeders[key].code, s.feeders[key].labelText, r)) else None
  }

  ghost predicate AnswersFeeder(s: Statistics, key: ApiKey, reply: Option<FeederReply>) {
    exists b, m ::
      && IsNewest(ProtoOf(FeederOf(s, key), BEAST).details, b)
      && IsNewest(ProtoOf(FeederOf(s, key), MLAT).details, m)
      && reply == if b.connected || m.connected
                  then Some(FeederReply(s.feeders[key].code, s.feeders[key].labelText, b, m)) else None
  }

  /** The all-feeders reply holds, for each key, what the single-feeder handler may answer. */
  ghost predicate AnswersAll(s: Statistics, reply: map<ApiKey, FeederReply>) {
    forall key :: AnswersFeeder(s, key, if key in reply then Some(reply[key]) else None)
  }

  lemma NothingToFind(s: Statistics, key: ApiKey, p: Protocol)
    requires key !in s.feeders || p !in s.feeders[key].connections
    ensures IsNewest(ProtoOf(FeederOf(s, key), p).details, NOTHING)
  {
  }

  /** Metrics of one feeder and protocol; no reply if there is nothing to send. */
  method FeederProtocolMetrics(s: Statistics, key: ApiKey, p: Protocol) returns (reply: Option<ProtocolReply>)
    ensures AnswersProtocol(s, key, p, reply)
  {
    if key !in s.feeders || p !in s.feeders[key].connections {
      NothingToFind(s, key, p);
      return None;
    }
    var r := FindNewest(s.feeders[key].connections[p].details);
    reply := if r.connected then Some(ProtocolReply(s.feeders[key].code, s.feeders[key].labelText, r)) else None;
  }

  /** Metrics of one feeder over both protocols. */
  method FeederMetrics(s: Statistics, key: ApiKey) returns (reply: Option<FeederReply>)
    ensures AnswersFeeder(s, key, reply)
  {
    if key !in s.feeders {
      NothingToFind(s, key, BEAST);
      NothingToFind(s, key, MLAT);
      return None;
    }
    var b, m := NOTHING, NOTHING;
    if BEAST in s.feeders[key].connections {
      b := FindNewest(s.feeders[key].connections[BEAST].details);
    }
    if MLAT in s.feeders[key].connections {
      m := FindNewest(s.feeders[key].connections[MLAT].details);
    }
    reply := if b.connected || m.connected
             then Some(FeederReply(s.feeders[key].code, s.feeders[key].labelText, b, m)) else None;
  }

  /** Metrics of every feeder that has something to send. */
  method AllFeedersMetrics(s: Statistics) returns (reply: map<ApiKey, FeederReply>)
    ensures AnswersAll(s, reply)
  {
    reply := map[];
    var rest := s.feeders.Keys;
    while rest != {}
      invariant rest <= s.feeders.Keys
      invariant reply.Keys <= s.feeders.Keys - rest
      invariant forall key :: key in s.feeders && key !in rest ==>
                  AnswersFeeder(s, key, if key in reply then Some(reply[key]) else None)
    {
      var key :| key in rest;
      var one := FeederMetrics(s, key);
      if one.Some? {
        reply := reply[key := one.value];
      }
      rest := rest - {key};
    }
    forall key | key !in s.feeders ensures AnswersFeeder(s, key, None) {
      NothingToFind(s, key, BEAST);
      NothingToFind(s, key, MLAT);
    }
  }

  /** Whether the "connected" handler replies. */
  method FeederConnected(s: Statistics, key: ApiKey, p: Protocol) returns (replied: bool)
    ensures replied <==> ProtoOf(FeederOf(s, key), p).status
  {
    if key !in s.feeders || p !in s.feeders[key].connections {
      return false;
    }
    replied := s.feeders[key].connections[p].status;
  }

  ghost predicate NonzeroTimes(s: Statistics) {
    forall fk :: fk in Flat(s) ==> Flat(s)[fk].timeConnected > 0
  }

  /** Connections tied at the latest nonzero time carry the same counters. */
  ghost predicate TiesAgree(details: map<nat, ConnectionDetail>) {
    forall n, n' ::
      IsLatest(details, n) && IsLatest(details, n') ==> NewestFrom(details[n]) == NewestFrom(details[n'])
  }

  ghost predicate IsLatest(details: map<nat, ConnectionDetail>, n: nat) {
    && n in details && details[n].timeConnected > 0
    && forall k :: k in details ==> details[k].timeConnected <= details[n].timeConnected
  }

  lemma NewestIsLatest(details: map<nat, ConnectionDetail>, r: Newest)
    ensures IsNewest(details, r) && r.connected <==> exists n :: IsLatest(details, n) && r == NewestFrom(details[n])
  {
    if IsNewest(details, r) && r.connected {
      var n :| n in details && 0 < r.time && Reports(r, details[n]);
      assert IsLatest(details, n);
    }
  }

  /** Whatever the iteration order, the handlers find the same thing if and only if ties agree. */
  lemma NewestIsUniqueIff(details: map<nat, ConnectionDetail>)
    ensures (forall r, r' :: IsNewest(details, r) && IsNewest(details, r') ==> r == r') <==> TiesAgree(details)
  {
    hide IsNewest;
    forall r
      ensures IsNewest(details, r) && r.connected <==> exists n :: IsLatest(details, n) && r == NewestFrom(details[n])
    {
      NewestIsLatest(details, r);
    }
    if TiesAgree(details) {
      forall r, r' | IsNewest(details, r) && IsNewest(details, r') ensures r == r' {
        NothingIsNothing(details, r, r');
      }
    } else {
      var n, n' :| IsLatest(details, n) && IsLatest(details, n') && NewestFrom(details[n]) != NewestFrom(details[n']);
      assert IsNewest(details, NewestFrom(details[n])) && IsNewest(details, NewestFrom(details[n']));
    }
  }

  lemma NothingIsNothing(details: map<nat, ConnectionDetail>, r: Newest, r': Newest)
    requires IsNewest(details, r) && IsNewest(details, r')
    ensures r.connected == r'.connected && (!r.connected ==> r == r')
  {
  }

  lemma {:induction false} NewestExists(details: map<nat, ConnectionDetail>) returns (r: Newest)
    ensures IsNewest(details, r)
    decreases |details|
  {
    if details == map[] {
      r := NOTHING;
    } else {
      var n :| n in details;
      Shrinks(details, n);
      r := NewestExists(details - {n});
      assert forall k :: k in details ==> k == n || k in details - {n};
      if r.time < details[n].timeConnected {
        r := NewestFrom(details[n]);
      } else if r.connected {
        var k :| k in details - {n} && 0 < r.time && Reports(r, (details - {n})[k]);
        assert k in details && Reports(r, details[k]);
      }
    }
  }

  ghost function DetailsOf(s: Statistics, key: ApiKey, p: Protocol): map<nat, ConnectionDetail> {
    ProtoOf(FeederOf(s, key), p).details
  }

  /** The replies on one feeder, each as some iteration order may give it, tell the same. */
  ghost predicate Consistent(all: Option<FeederReply>, one: Option<FeederReply>, beast: Option<ProtocolReply>,
                             mlat: Option<ProtocolReply>)
  {
    && one == all
    && (one.Some? <==> beast.Some? || mlat.Some?)
    && (beast.Some? ==> beast.value == ProtocolReply(one.value.feederCode, one.value.labelText, one.value.beast))
    && (mlat.Some? ==> mlat.value == ProtocolReply(one.value.feederCode, one.value.labelText, one.value.mlat))
    && (one.Some? ==> (one.value.beast.connected <==> beast.Some?) && (one.value.mlat.connected <==> mlat.Some?))
  }

  ghost predicate Answer(s: Statistics, key: ApiKey, all: Option<FeederReply>, one: Option<FeederReply>,
                         beast: Option<ProtocolReply>, mlat: Option<ProtocolReply>) {
    && AnswersFeeder(s, key, all) && AnswersFeeder(s, key, one)
    && AnswersProtocol(s, key, BEAST, beast) && AnswersProtocol(s, key, MLAT, mlat)
  }

  lemma RepliesAgree(s: Statistics, key: ApiKey, all: Option<FeederReply>, one: Option<FeederReply>,
                     beast: Option<ProtocolReply>, mlat: Option<ProtocolReply>)
    requires TiesAgree(DetailsOf(s, key, BEAST)) && TiesAgree(DetailsOf(s, key, MLAT))
    requires Answer(s, key, all, one, beast, mlat)
    ensures Consistent(all, one, beast, mlat)
  {
    hide IsNewest, TiesAgree;
    NewestIsUniqueIff(DetailsOf(s, key, BEAST));
    NewestIsUniqueIff(DetailsOf(s, key, MLAT));
  }

  function ReplyOf(s: Statistics, key: ApiKey, p: Protocol, r: Newest): Option<ProtocolReply>
    requires r.connected ==> key in s.feeders
  {
    if r.connected then Some(ProtocolReply(s.feeders[key].code, s.feeders[key].labelText, r)) else None
  }

  function BothOf(s: Statistics, key: ApiKey, b: Newest, m: Newest): Option<FeederReply>
    requires b.connected || m.connected ==> key in s.feeders
  {
    if b.connected || m.connected then Some(FeederReply(s.feeders[key].code, s.feeders[key].labelText, b, m)) else None
  }

  lemma ConnectedIsThere(s: Statistics, key: ApiKey, p: Protocol, r: Newest)
    requires IsNewest(DetailsOf(s, key, p), r) && r.connected
    ensures key in s.feeders
  {
  }

  /** Two different findings for one protocol give replies that do not agree. */
  lemma TwoFindingsDisagree(s: Statistics, key: ApiKey, p: Protocol, r: Newest, r': Newest)
    returns (one: Option<FeederReply>, beast: Option<ProtocolReply>, mlat: Option<ProtocolReply>)
    requires ValidProtocol(p) && r != r' && IsNewest(DetailsOf(s, key, p), r) && IsNewest(DetailsOf(s, key, p), r')
    ensures Answer(s, key, one, one, beast, mlat) && !Consistent(one, one, beast, mlat)
  {
    hide IsNewest;
    NothingIsNothing(DetailsOf(s, key, p), r, r');
    ConnectedIsThere(s, key, p, r);
    ConnectedIsThere(s, key, p, r');
    var q := if p == BEAST then MLAT else BEAST;
    var o := NewestExists(DetailsOf(s, key, q));
    var b, m := if p == BEAST then r else o, if p == BEAST then o else r;
    one := BothOf(s, key, b, m);
    beast := ReplyOf(s, key, BEAST, if p == BEAST then r' else o);
    mlat := ReplyOf(s, key, MLAT, if p == BEAST then o else r');
  }

  /** The all-feeders, the single-feeder and the per-protocol replies on a feeder agree, whatever order each
      of them visited the maps in, if and only if ties at the latest time agree for both protocols. */
  lemma RepliesAgreeIff(s: Statistics, key: ApiKey)
    ensures (forall all, one, beast, mlat ::
              Answer(s, key, all, one, beast, mlat) ==> Consistent(all, one, beast, mlat))
            <==> TiesAgree(DetailsOf(s, key, BEAST)) && TiesAgree(DetailsOf(s, key, MLAT))
  {
    hide Answer, Consistent, IsNewest, TiesAgree;
    NewestIsUniqueIff(DetailsOf(s, key, BEAST));
    NewestIsUniqueIff(DetailsOf(s, key, MLAT));
    if TiesAgree(DetailsOf(s, key, BEAST)) && TiesAgree(DetailsOf(s, key, MLAT)) {
      forall all, one, beast, mlat | Answer(s, key, all, one, beast, mlat) ensures Consistent(all, one, beast, mlat) {
        RepliesAgree(s, key, all, one, beast, mlat);
      }
    } else {
      var p: Protocol := if TiesAgree(DetailsOf(s, key, BEAST)) then MLAT else BEAST;
      var r, r' :| IsNewest(DetailsOf(s, key, p), r) && IsNewest(DetailsOf(s, key, p), r') && r != r';
      var one, beast, mlat := TwoFindingsDisagree(s, key, p, r, r');
    }
  }

  /** "Connected" is answered exactly when the per-protocol metrics are sent, which is exactly when
      the flat map holds a connection of that feeder and protocol. */
  lemma ConnectedIffMetricsSent(s: Statistics, key: ApiKey, p: Protocol, reply: Option<ProtocolReply>)
    requires Good(s) && NonzeroTimes(s) && AnswersProtocol(s, key, p, reply)
    ensures reply.Some? <==> ProtoOf(FeederOf(s, key), p).status
    ensures reply.Some? <==> exists fk :: fk in Flat(s) && fk.key == key && fk.proto == p
  {
    var pd := ProtoOf(FeederOf(s, key), p);
    var r :| IsNewest(pd.details, r) && (reply.Some? <==> r.connected);
    if key in s.feeders && p in s.feeders[key].connections {
      assert GoodFeeder(s.feeders[key]);
      assert GoodProto(pd);
      if pd.details != map[] {
        var n :| n in pd.details;
        assert Has(s, FlatKey(key, p, n));
        assert FlatKey(key, p, n) in Flat(s);
        assert r.time > 0;
      }
    }
    if fk :| fk in Flat(s) && fk.key == key && fk.proto == p {
      assert Has(s, fk);
    }
  }
}
