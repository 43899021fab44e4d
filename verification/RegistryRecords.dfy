/** What the registry records, field by field: what each operation writes and what it leaves alone, the error
    it returns, and, over runs, whose label and which connections the replies report. */
module RegistryRecords {
  import opened Common
  import opened Registry
  import opened RegistryViews
  import ByteConservation

  /** Nothing has changed but the entry of one feeder and, if `totals`, the global byte totals. */
  ghost predicate OnlyEntry(s: Statistics, s': Statistics, key: ApiKey, totals: bool) {
    && s'.initialised == s.initialised
    && (forall k :: k != key ==> (k in s'.feeders <==> k in s.feeders))
    && (forall k :: k in s.feeders && k != key ==> s'.feeders[k] == s.feeders[k])
    && (!totals ==> s'.bytesInBEAST == s.bytesInBEAST && s'.bytesOutBEAST == s.bytesOutBEAST
                    && s'.bytesInMLAT == s.bytesInMLAT && s'.bytesOutMLAT == s.bytesOutMLAT)
  }

  // ---- registering a connection

  /** A registered connection has exactly this source, destination and time, and no bytes; it is the feeder's
      most recent one of its protocol, and counted.  All else stays as it was. */
  lemma ConnectionIsRecorded(s: Statistics, conn: Connection, connected: Time, now: Time)
    requires RegisterConnectionMain(s, conn, connected, now).1 == Done
    ensures var s' := RegisterConnectionMain(s, conn, connected, now).0;
            && OnlyEntry(s, s', conn.key, false) && conn.key in s.feeders && conn.key in s'.feeders
            && var f, f' := s.feeders[conn.key], s'.feeders[conn.key];
               && f'.labelText == f.labelText && f'.code == f.code && f'.timeUpdated == now
               && f'.connections.Keys == f.connections.Keys && conn.proto in f.connections
               && (forall q :: q in f.connections && q != conn.proto ==> f'.connections[q] == f.connections[q])
               && var pd, pd' := f.connections[conn.proto], f'.connections[conn.proto];
                  && pd'.status && pd'.mostRecentConnection == connected && pd'.connectionCount == |pd'.details|
                  && pd'.details == pd.details[conn.num := ConnectionDetail(conn.src, conn.dst, connected, 0, 0)]
  {
  }

  /** The same of the whole operation, in terms of the flat map. */
  lemma RegistrationIsRecorded(s: Statistics, conn: Connection, connected: Time, now: Time)
    requires Apply(s, RegisterConnection(conn, connected, now)).1 == Done
    ensures var s' := Apply(s, RegisterConnection(conn, connected, now)).0;
            var fk := FlatKey(conn.key, conn.proto, conn.num);
            && fk in Flat(s')
            && Flat(s')[fk].src == conn.src && Flat(s')[fk].dst == conn.dst
            && Flat(s')[fk].timeConnected == connected && Flat(s')[fk].bytesIn == 0 && Flat(s')[fk].bytesOut == 0
            && (forall other :: other != fk ==> (other in Flat(s') <==> other in Flat(s)))
            && (forall other :: other != fk && other in Flat(s) ==> Flat(s')[other] == Flat(s)[other])
            && s'.feeders[conn.key].connections[conn.proto].mostRecentConnection == connected
            && s'.feeders[conn.key].timeUpdated == now
  {
    hide Flat, RegisterConnectionMain, InitFeeder;
    var i := InitFeeder(s, conn.key);
    InitFeederFlat(s, conn.key);
    ConnectionIsRecorded(i, conn, connected, now);
    RecordedFlat(i, RegisterConnectionMain(i, conn, connected, now).0, conn, connected);
  }

  lemma RecordedFlat(s: Statistics, s': Statistics, conn: Connection, connected: Time)
    requires OnlyEntry(s, s', conn.key, false) && conn.key in s.feeders && conn.key in s'.feeders
    requires var f, f' := s.feeders[conn.key], s'.feeders[conn.key];
             && f'.connections.Keys == f.connections.Keys && conn.proto in f.connections
             && (forall q :: q in f.connections && q != conn.proto ==> f'.connections[q] == f.connections[q])
             && f'.connections[conn.proto].details
                == f.connections[conn.proto].details[conn.num := ConnectionDetail(conn.src, conn.dst, connected, 0, 0)]
    ensures Flat(s') == Flat(s)[FlatKey(conn.key, conn.proto, conn.num) :=
                                ConnectionDetail(conn.src, conn.dst, connected, 0, 0)]
  {
    var at, c := FlatKey(conn.key, conn.proto, conn.num), ConnectionDetail(conn.src, conn.dst, connected, 0, 0);
    assert s'.feeders.Keys == s.feeders.Keys;
    forall fk: FlatKey
      ensures Has(s', fk) <==> fk == at || Has(s, fk)
      ensures Has(s', fk) ==> Get(s', fk) == if fk == at then c else Get(s, fk)
    {
      if fk.key == conn.key && fk.proto != conn.proto && fk.proto in s.feeders[fk.key].connections {
        assert s'.feeders[fk.key].connections[fk.proto] == s.feeders[fk.key].connections[fk.proto];
      }
    }
    FlatEqual(s', Flat(s)[at := c]);
  }

  // ---- adding bytes

  /** Adding bytes changes the two counters of one connection, the two totals of its protocol, both by exactly
      these amounts up to wrap-around, and the feeder's time; nothing else. */
  lemma BytesAreRecorded(s: Statistics, key: ApiKey, num: nat, p: Protocol, bytesIn: U64, bytesOut: U64, now: Time)
    requires Apply(s, AddBytes(key, num, p, bytesIn, bytesOut, now)).1 == Done
    ensures var s' := Apply(s, AddBytes(key, num, p, bytesIn, bytesOut, now)).0;
            && OnlyEntry(s, s', key, true) && key in s.feeders && key in s'.feeders
            && var f, f' := s.feeders[key], s'.feeders[key];
               && f'.labelText == f.labelText && f'.code == f.code && f'.timeUpdated == now
               && f'.connections.Keys == f.connections.Keys && p in f.connections
               && (forall q :: q in f.connections && q != p ==> f'.connections[q] == f.connections[q])
               && var pd, pd' := f.connections[p], f'.connections[p];
                  && pd'.status == pd.status && pd'.connectionCount == pd.connectionCount
                  && pd'.mostRecentConnection == pd.mostRecentConnection
                  && pd'.details.Keys == pd.details.Keys && num in pd.details
                  && (forall n :: n in pd.details && n != num ==> pd'.details[n] == pd.details[n])
                  && var c, c' := pd.details[num], pd'.details[num];
                     && c'.src == c.src && c'.dst == c.dst && c'.timeConnected == c.timeConnected
                     && c'.bytesIn == (c.bytesIn + bytesIn) % 0x1_0000_0000_0000_0000
                     && c'.bytesOut == (c.bytesOut + bytesOut) % 0x1_0000_0000_0000_0000
    ensures TotalsRecorded(s, Apply(s, AddBytes(key, num, p, bytesIn, bytesOut, now)).0, p, bytesIn, bytesOut)
  {
    hide AddTotals;
    TotalsAreRecorded(s, p, bytesIn, bytesOut);
  }

  ghost predicate TotalsRecorded(s: Statistics, s': Statistics, p: Protocol, bytesIn: U64, bytesOut: U64) {
    && s'.bytesInBEAST == (s.bytesInBEAST + if p == BEAST then bytesIn else 0) % 0x1_0000_0000_0000_0000
    && s'.bytesOutBEAST == (s.bytesOutBEAST + if p == BEAST then bytesOut else 0) % 0x1_0000_0000_0000_0000
    && s'.bytesInMLAT == (s.bytesInMLAT + if p == MLAT then bytesIn else 0) % 0x1_0000_0000_0000_0000
    && s'.bytesOutMLAT == (s.bytesOutMLAT + if p == MLAT then bytesOut else 0) % 0x1_0000_0000_0000_0000
  }

  lemma TotalsAreRecorded(s: Statistics, p: Protocol, bytesIn: U64, bytesOut: U64)
    ensures var s' := AddTotals(s, p, bytesIn, bytesOut);
            s'.initialised == s.initialised && s'.feeders == s.feeders && TotalsRecorded(s, s', p, bytesIn, bytesOut)
  {
  }

  // ---- removing a connection

  /** Removing a connection takes out that one alone and counts again; the entry goes with the feeder's last. */
  lemma RemovalIsRecorded(s: Statistics, conn: Connection, now: Time)
    requires UnregisterConnectionMain(s, conn, now).1 == Done
    ensures var s' := UnregisterConnectionMain(s, conn, now).0;
            && OnlyEntry(s, s', conn.key, false) && conn.key in s.feeders
            && (conn.key in s'.feeders ==>
                  var f, f' := s.feeders[conn.key], s'.feeders[conn.key];
                  && f'.labelText == f.labelText && f'.code == f.code && f'.timeUpdated == now
                  && f'.connections.Keys == f.connections.Keys && conn.proto in f.connections
                  && (forall q :: q in f.connections && q != conn.proto ==> f'.connections[q] == f.connections[q])
                  && var pd, pd' := f.connections[conn.proto], f'.connections[conn.proto];
                     && pd'.details == pd.details - {conn.num} && pd'.connectionCount == |pd'.details|
                     && (pd'.status <==> |pd'.details| > 0)
                     && pd'.mostRecentConnection == pd.mostRecentConnection)
  {
  }

  // ---- registering a feeder

  /** The feeder's entry has exactly this label, code and time; its connections, of which a missing entry has
      none, stay as they were. */
  lemma FeederIsRecorded(s: Statistics, f: FeederDetails, now: Time)
    ensures var s' := RegisterFeederMain(s, f, now);
            && OnlyEntry(s, s', f.key, false) && f.key in s'.feeders
            && s'.feeders[f.key].labelText == f.labelText && s'.feeders[f.key].code == f.code
            && s'.feeders[f.key].timeUpdated == now
            && s'.feeders[f.key].connections == if f.key in s.feeders then s.feeders[f.key].connections else map[]
  {
  }

  /** The same of the whole operation, in which a new entry has both protocols and no connection. */
  lemma RegisteredFeeder(s: Statistics, f: FeederDetails, now: Time)
    requires Apply(s, RegisterFeeder(f, now)).1 == Done
    ensures var s' := Apply(s, RegisterFeeder(f, now)).0;
            && OnlyEntry(s, s', f.key, false) && f.key in s'.feeders
            && s'.feeders[f.key].labelText == f.labelText && s'.feeders[f.key].code == f.code
            && s'.feeders[f.key].timeUpdated == now
            && s'.feeders[f.key].connections
               == if f.key in s.feeders then s.feeders[f.key].connections
                  else map[BEAST := ProtocolDetail(false, 0, 0, map[]), MLAT := ProtocolDetail(false, 0, 0, map[])]
  {
    hide RegisterFeederMain;
    FeederIsRecorded(InitFeeder(s, f.key), f, now);
  }

  // ---- errors and eviction

  /** What each operation returns on a good registry, error by error. */
  lemma OutcomeIs(s: Statistics, op: Op)
    requires Good(s)
    ensures Apply(s, op).1 ==
            match op
            case RegisterFeeder(_, _) => if s.initialised then Done else Failed(NotInitialised)
            case RegisterConnection(conn, _, _) =>
              if !s.initialised then Failed(NotInitialised)
              else if conn.proto != BEAST && conn.proto != MLAT then Failed(UnknownProtocol(conn.proto)) else Done
            case UnregisterConnection(conn, _) =>
              if !s.initialised then Failed(NotInitialised)
              else if conn.proto != BEAST && conn.proto != MLAT then Failed(UnknownProtocol(conn.proto))
              else if FlatKey(conn.key, conn.proto, conn.num) in Flat(s) then Done else Failed(ConnNumNotFound)
            case AddBytes(key, num, p, _, _, _) =>
              if key !in s.feeders then Failed(APIKeyNotFound)
              else if p != BEAST && p != MLAT then Failed(ProtoNotFound)
              else if FlatKey(key, p, num) in Flat(s) then Done else Failed(ConnNumNotFound)
            case Evict(_) => Done
  {
    hide Good, GoodFeeder, Flat;
    FlatRefinement(s, op);
    if op.AddBytes? && op.key in s.feeders {
      BothThere(s, op.key);
      OnlyValid(s, op.key);
    } else if op.UnregisterConnection? {
      InitFeederFlat(s, op.conn.key);
      FeederOfGood(s, op.conn.key);
      if ValidProtocol(op.conn.proto) {
        UnregisterFlat(InitFeeder(s, op.conn.key), op.conn, op.now);
      }
    }
  }

  lemma OnlyValid(s: Statistics, key: ApiKey)
    requires Good(s) && key in s.feeders
    ensures forall p :: p in s.feeders[key].connections ==> ValidProtocol(p)
  {
    assert GoodFeeder(s.feeders[key]);
  }

  /** The evictor removes exactly the entries without protocols that were over sixty seconds old when it got to
      them, and changes nothing else. */
  lemma EvictedIff(s: Statistics, readings: map<ApiKey, Time>)
    requires s.feeders.Keys <= readings.Keys
    ensures var s' := EvictStale(s, readings);
            && s' == s.(feeders := s'.feeders)
            && (forall u :: u in s'.feeders <==>
                  u in s.feeders && !(|s.feeders[u].connections| == 0
                                      && readings[u] - s.feeders[u].timeUpdated > 60 * SECOND))
            && (forall u :: u in s'.feeders ==> s'.feeders[u] == s.feeders[u])
  {
  }

  // ---- whose label an entry carries

  predicate Labels(op: Op, key: ApiKey) {
    op.RegisterFeeder? && op.f.key == key
  }

  /** Only the registration of its feeder changes an entry's label or code. */
  lemma LabelKept(s: Statistics, op: Op, key: ApiKey)
    requires key in s.feeders && key in Apply(s, op).0.feeders && !Labels(op, key)
    ensures var f, f' := s.feeders[key], Apply(s, op).0.feeders[key];
            f'.labelText == f.labelText && f'.code == f.code
  {
    hide WithConnection, WithoutConnection, NoneLeft, AddBytesTo, AddTotals, NewDetail;
    if op.AddBytes? {
      TotalsKeepFeeders(s, op.p, op.bytesIn, op.bytesOut);
    }
  }

  /** An entry that any other operation creates has neither. */
  lemma CreatedBlank(s: Statistics, op: Op, key: ApiKey)
    requires key !in s.feeders && key in Apply(s, op).0.feeders && !Labels(op, key)
    ensures var f' := Apply(s, op).0.feeders[key]; f'.labelText == "" && f'.code == ""
  {
    hide WithConnection, WithoutConnection, NoneLeft, AddBytesTo, AddTotals, NewDetail;
    if op.AddBytes? {
      TotalsKeepFeeders(s, op.p, op.bytesIn, op.bytesOut);
    }
  }

  lemma {:induction false} InitialisedAlways(s: Statistics, ops: seq<Op>)
    ensures Exec(s, ops).initialised == s.initialised
  {
    hide Apply;
    if ops != [] {
      InitialisedAlways(s, ops[..|ops| - 1]);
      InitialisedKept(Exec(s, ops[..|ops| - 1]), ops[|ops| - 1]);
    }
  }

  /** Over every run from start-up, the label and code of an entry are those of the last registration of its
      feeder since the entry was created; without one they are empty, although its feeder may have been
      registered before: deleting an entry forgets them, and registering a connection creates it blank. */
  lemma {:induction false} LabelIsTheLastRegistered(ops: seq<Op>, key: ApiKey) returns (i: int)
    requires key in Exec(ByteConservation.EMPTY, ops).feeders
    ensures 0 <= i < |ops|
    ensures forall j :: i < j <= |ops| ==> key in Exec(ByteConservation.EMPTY, ops[..j]).feeders
    ensures forall j :: i < j < |ops| ==> !Labels(ops[j], key)
    ensures var f := Exec(ByteConservation.EMPTY, ops).feeders[key];
            if Labels(ops[i], key) then f.labelText == ops[i].f.labelText && f.code == ops[i].f.code
            else key !in Exec(ByteConservation.EMPTY, ops[..i]).feeders && f.labelText == "" && f.code == ""
  {
    hide Apply;
    if ops == [] {
      assert false;
    }
    var prefix, op := ops[..|ops| - 1], ops[|ops| - 1];
    var s := Exec(ByteConservation.EMPTY, prefix);
    assert ops[..|ops|] == ops;
    InitialisedAlways(ByteConservation.EMPTY, prefix);
    if Labels(op, key) {
      i := |ops| - 1;
      OutcomeOfLabelling(s, op);
      RegisteredFeeder(s, op.f, op.now);
    } else if key in s.feeders {
      i := LabelIsTheLastRegistered(prefix, key);
      LabelKept(s, op, key);
      assert forall j :: 0 <= j < |ops| ==> prefix[..j] == ops[..j];
    } else {
      i := |ops| - 1;
      CreatedBlank(s, op, key);
    }
  }

  lemma OutcomeOfLabelling(s: Statistics, op: Op)
    requires op.RegisterFeeder? && s.initialised
    ensures Apply(s, op).1 == Done
  {
  }

  /** So every reply on a feeder, of any handler, carries that label and code. */
  lemma RepliesCarryTheLabel(ops: seq<Op>, key: ApiKey, p: Protocol, one: Option<ProtocolReply>,
                             both: Option<FeederReply>)
    returns (i: int)
    requires var s := Exec(ByteConservation.EMPTY, ops);
             key in s.feeders && AnswersProtocol(s, key, p, one) && AnswersFeeder(s, key, both)
    ensures 0 <= i < |ops| && forall j :: i < j < |ops| ==> !Labels(ops[j], key)
    ensures forall j :: i < j <= |ops| ==> key in Exec(ByteConservation.EMPTY, ops[..j]).feeders
    ensures !Labels(ops[i], key) ==> key !in Exec(ByteConservation.EMPTY, ops[..i]).feeders
    ensures var labelText := if Labels(ops[i], key) then ops[i].f.labelText else "";
            var code := if Labels(ops[i], key) then ops[i].f.code else "";
            && (one.Some? ==> one.value.labelText == labelText && one.value.feederCode == code)
            && (both.Some? ==> both.value.labelText == labelText && both.value.feederCode == code)
  {
    hide Exec, IsNewest;
    i := LabelIsTheLastRegistered(ops, key);
  }

  // ---- which connections the replies report

  /** Connections are registered at nonzero readings of the clock. */
  predicate NonzeroClock(op: Op) {
    op.RegisterConnection? ==> op.connected > 0
  }

  lemma NonzeroKept(s: Statistics, op: Op)
    requires Good(s) && NonzeroTimes(s) && NonzeroClock(op)
    ensures NonzeroTimes(Apply(s, op).0)
  {
    hide Apply, Flat, Good;
    FlatRefinement(s, op);
  }

  lemma {:induction false} NonzeroAlways(s: Statistics, ops: seq<Op>)
    requires Good(s) && NonzeroTimes(s) && forall op :: op in ops ==> NonzeroClock(op)
    ensures NonzeroTimes(Exec(s, ops))
  {
    hide Apply, NonzeroTimes, Good, NonzeroClock;
    if ops != [] {
      var prefix := ops[..|ops| - 1];
      NonzeroAlways(s, prefix);
      GoodAlways(s, prefix);
      NonzeroKept(Exec(s, prefix), ops[|ops| - 1]);
    }
  }

  /** Over every run from start-up with connections registered at nonzero readings, "connected" is answered,
      and the metrics of a feeder and protocol are sent, exactly when a connection of it is registered. */
  lemma ConnectedIffMetricsSentInRuns(ops: seq<Op>, key: ApiKey, p: Protocol, reply: Option<ProtocolReply>)
    requires forall op :: op in ops ==> NonzeroClock(op)
    requires AnswersProtocol(Exec(ByteConservation.EMPTY, ops), key, p, reply)
    ensures var s := Exec(ByteConservation.EMPTY, ops);
            && (reply.Some? <==>
                  key in s.feeders && p in s.feeders[key].connections && s.feeders[key].connections[p].status)
            && (reply.Some? <==> exists fk :: fk in Flat(s) && fk.key == key && fk.proto == p)
  {
    hide Exec, Flat, Good, NonzeroTimes, AnswersProtocol;
    EmptyStart();
    NonzeroAlways(ByteConservation.EMPTY, ops);
    GoodAlways(ByteConservation.EMPTY, ops);
    ConnectedIffMetricsSent(Exec(ByteConservation.EMPTY, ops), key, p, reply);
  }

  lemma EmptyStart()
    ensures Good(ByteConservation.EMPTY) && NonzeroTimes(ByteConservation.EMPTY)
  {
  }
}
