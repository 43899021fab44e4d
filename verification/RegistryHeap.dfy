/** The statistics registry as the program holds it: maps are references, structs are copied out of
    them, changed and written back, and inner maps are shared by every copy of the outer struct.
    Each lock section, and each whole operation, is proved equal to its function of the value represented,
    on any registry, entries without protocols and missing feeders included. */
module RegistryHeap {
  import opened Common
  import opened Registry

  /** A mutable map from connection number to connection. */
  class ConnectionTable {
    var m: map<nat, ConnectionDetail>

    constructor ()
      ensures m == map[]
    {
      m := map[];
    }
  }

  datatype ProtocolEntry = ProtocolEntry(
    status: bool, connectionCount: nat, mostRecentConnection: Time, details: ConnectionTable)

  /** A mutable map from protocol to a struct that holds a reference to its connections. */
  class ProtocolTable {
    var m: map<Protocol, ProtocolEntry>

    constructor Nil()
      ensures m == map[]
    {
      m := map[];
    }

    constructor (beast: ConnectionTable, mlat: ConnectionTable)
      ensures m == map[BEAST := ProtocolEntry(false, 0, 0, beast), MLAT := ProtocolEntry(false, 0, 0, mlat)]
    {
      m := map[BEAST := ProtocolEntry(false, 0, 0, beast), MLAT := ProtocolEntry(false, 0, 0, mlat)];
    }
  }

  datatype FeederEntry = FeederEntry(labelText: string, code: string, connections: ProtocolTable, timeUpdated: Time)

  ghost predicate BothPresent<T>(m: map<Protocol, T>) {
    BEAST in m && MLAT in m && forall p :: p in m ==> ValidProtocol(p)
  }

  ghost predicate HoldsProtocol(tables: set<object>, e: ProtocolEntry, v: ProtocolDetail)
    reads tables
  {
    && e.details in tables
    && v.status == e.status && v.connectionCount == e.connectionCount
    && v.mostRecentConnection == e.mostRecentConnection && v.details == e.details.m
  }

  /** The tables of a feeder entry, all among `tables`, hold the protocols c: both, or none (a nil map). */
  ghost predicate Holds(tables: set<object>, t: ProtocolTable, c: map<Protocol, ProtocolDetail>)
    reads tables
  {
    && t in tables
    && ((t.m == map[] && c == map[])
        || (&& BothPresent(t.m) && BothPresent(c)
            && HoldsProtocol(tables, t.m[BEAST], c[BEAST])
            && HoldsProtocol(tables, t.m[MLAT], c[MLAT])
            && t.m[BEAST].details != t.m[MLAT].details))
  }

  ghost predicate Represents(tables: set<object>, f: FeederEntry, v: FeederStats)
    reads tables
  {
    && Holds(tables, f.connections, v.connections)
    && v.labelText == f.labelText && v.code == f.code && v.timeUpdated == f.timeUpdated
  }

  method NewEntry() returns (f: FeederEntry, ghost tables: set<object>)
    ensures fresh(tables) && Represents(tables, f, NEW_FEEDER)
  {
    var beast := new ConnectionTable();
    var mlat := new ConnectionTable();
    var table := new ProtocolTable(beast, mlat);
    f := FeederEntry("", "", table, 0);
    tables := {beast, mlat, table};
  }

  /** Inserts a connection and refreshes the cached fields of its protocol. */
  method PutConnection(t: ProtocolTable, p: Protocol, num: nat, c: ConnectionDetail,
                       ghost tables: set<object>, ghost v: map<Protocol, ProtocolDetail>)
    requires Holds(tables, t, v) && ValidProtocol(p) && p in v
    modifies tables
    ensures Holds(tables, t, v[p := WithConnection(v[p], num, c)])
  {
    var details := t.m[p].details;
    details.m := details.m[num := c];
    assert num in details.m;
    if |details.m| > 0 {
      var pd := t.m[p].(status := true, mostRecentConnection := c.timeConnected);
      pd := pd.(connectionCount := |details.m|);
      t.m := t.m[p := pd];
    }
  }

  /** Removes a connection and refreshes the cached fields of its protocol. */
  method RemoveConnection(t: ProtocolTable, p: Protocol, num: nat,
                          ghost tables: set<object>, ghost v: map<Protocol, ProtocolDetail>)
    requires Holds(tables, t, v) && ValidProtocol(p) && p in v
    modifies tables
    ensures Holds(tables, t, v[p := WithoutConnection(v[p], num)])
  {
    var details := t.m[p].details;
    details.m := details.m - {num};
    var c := t.m[p].(connectionCount := |details.m|);
    if |details.m| > 0 {
      c := c.(status := true);
    } else {
      c := c.(status := false);
    }
    t.m := t.m[p := c];
  }

  ghost function WithBytes(pd: ProtocolDetail, num: nat, bytesIn: U64, bytesOut: U64): ProtocolDetail
    requires num in pd.details
  {
    pd.(details := pd.details[num := AddBytesTo(pd.details[num], bytesIn, bytesOut)])
  }

  /** Adds to the counters of a connection, in the innermost map only. */
  method AddToConnection(t: ProtocolTable, p: Protocol, num: nat, bytesIn: U64, bytesOut: U64,
                         ghost tables: set<object>, ghost v: map<Protocol, ProtocolDetail>)
    requires Holds(tables, t, v) && ValidProtocol(p) && p in v && num in v[p].details
    modifies tables
    ensures Holds(tables, t, v[p := WithBytes(v[p], num, bytesIn, bytesOut)])
  {
    var details := t.m[p].details;
    var c := details.m[num];
    details.m := details.m[num := c.(bytesIn := Add64(c.bytesIn, bytesIn), bytesOut := Add64(c.bytesOut, bytesOut))];
  }

  lemma SameAs(tables: set<object>, f: FeederEntry, v: FeederStats)
    requires Represents(tables, f, v)
    ensures f.connections.m.Keys == v.connections.Keys && (BothPresent(v.connections) || v.connections == map[])
    ensures forall p :: p in v.connections ==>
              f.connections.m[p].connectionCount == v.connections[p].connectionCount
              && f.connections.m[p].details.m == v.connections[p].details
  {
  }

  /** No two feeders share a table. */
  ghost predicate Separate(owned: map<ApiKey, set<object>>) {
    forall k, k' :: k in owned && k' in owned && k != k' ==> owned[k] !! owned[k']
  }

  class Stats {
    var initialised: bool
    var feeders: map<ApiKey, FeederEntry>
    var bytesInBEAST: U64
    var bytesOutBEAST: U64
    var bytesInMLAT: U64
    var bytesOutMLAT: U64

    /** The entries this object represents, and the tables that make up each of them. */
    ghost var entries: map<ApiKey, FeederStats>
    ghost var owned: map<ApiKey, set<object>>
    ghost var Repr: set<object>

    ghost function View(): Statistics
      reads this
    {
      Statistics(initialised, entries, bytesInBEAST, bytesOutBEAST, bytesInMLAT, bytesOutMLAT)
    }

    ghost predicate EntryHolds(k: ApiKey)
      reads this, Repr
    {
      && k in feeders && k in entries && k in owned
      && this !in owned[k] && owned[k] <= Repr
      && Represents(owned[k], feeders[k], entries[k])
    }

    ghost predicate Valid()
      reads this, Repr
    {
      && this in Repr && Separate(owned)
      && (forall k :: k in entries ==> k in feeders)
      && (forall k :: k in owned ==> k in feeders)
      && (forall k :: k in feeders ==> EntryHolds(k))
    }

    /** Valid, except that the entry of one feeder is being changed. */
    ghost predicate OthersValid(key: ApiKey)
      reads this, Repr
    {
      && this in Repr && Separate(owned)
      && (forall k :: k in entries ==> k in feeders)
      && (forall k :: k in owned ==> k in feeders)
      && (forall k :: k in feeders && k != key ==> EntryHolds(k))
    }

    /** The tables of one feeder have been changed to hold c; nothing else has. */
    ghost predicate Changed(key: ApiKey, c: map<Protocol, ProtocolDetail>)
      reads this, Repr
    {
      && OthersValid(key)
      && key in feeders && key in entries && key in owned && this !in owned[key] && owned[key] <= Repr
      && Represents(owned[key], feeders[key], entries[key].(connections := c))
    }

    constructor ()
      ensures Valid() && fresh(Repr)
      ensures View() == Statistics(true, map[], 0, 0, 0, 0)
    {
      initialised, feeders, entries, owned := true, map[], map[], map[];
      bytesInBEAST, bytesOutBEAST, bytesInMLAT, bytesOutMLAT := 0, 0, 0, 0;
      Repr := {this};
    }

    lemma SameKeys()
      requires Valid()
      ensures this in Repr && forall k :: k in feeders <==> k in entries
    {
      assert forall k :: k in feeders ==> EntryHolds(k);
    }

    lemma Entry(key: ApiKey)
      requires Valid() && key in feeders
      ensures this in Repr && key in entries && key in owned && owned[key] <= Repr && this !in owned[key]
      ensures var f, v := feeders[key], entries[key];
              && Holds(owned[key], f.connections, v.connections)
              && v.labelText == f.labelText && v.code == f.code && v.timeUpdated == f.timeUpdated
              && f.connections.m.Keys == v.connections.Keys && (BothPresent(v.connections) || v.connections == map[])
              && forall p :: p in v.connections ==>
                   f.connections.m[p].connectionCount == v.connections[p].connectionCount
                   && f.connections.m[p].details.m == v.connections[p].details
    {
      assert EntryHolds(key);
      SameAs(owned[key], feeders[key], entries[key]);
    }

    /** Writes a copy of a feeder's struct back into the outer map, with its time updated. */
    method Touch(key: ApiKey, now: Time, ghost c: map<Protocol, ProtocolDetail>)
      requires Changed(key, c)
      modifies this`feeders, this`entries
      ensures Valid() && key in old(entries) && key in feeders
      ensures entries == old(entries)[key := old(entries)[key].(connections := c, timeUpdated := now)]
    {
      hide Holds, Separate;
      var s := feeders[key];
      s := s.(timeUpdated := now);
      feeders := feeders[key := s];
      entries := entries[key := entries[key].(connections := c, timeUpdated := now)];
    }

    // ---- changes to the tables of one feeder; every other entry keeps its value

    method PutInto(key: ApiKey, p: Protocol, num: nat, c: ConnectionDetail)
      requires Valid() && key in feeders && ValidProtocol(p) && key in entries && p in entries[key].connections
      modifies Repr - {this}
      ensures key in entries && p in entries[key].connections
      ensures var v := entries[key].connections; Changed(key, v[p := WithConnection(v[p], num, c)])
    {
      hide Holds, WithConnection, WithoutConnection;
      Entry(key);
      PutConnection(feeders[key].connections, p, num, c, owned[key], entries[key].connections);
    }

    method RemoveFrom(key: ApiKey, p: Protocol, num: nat)
      requires Valid() && key in feeders && ValidProtocol(p) && key in entries && p in entries[key].connections
      modifies Repr - {this}
      ensures key in entries && p in entries[key].connections
      ensures var v := entries[key].connections; Changed(key, v[p := WithoutConnection(v[p], num)])
    {
      hide Holds, WithConnection, WithoutConnection;
      Entry(key);
      RemoveConnection(feeders[key].connections, p, num, owned[key], entries[key].connections);
    }

    method AddTo(key: ApiKey, p: Protocol, num: nat, bytesIn: U64, bytesOut: U64)
      requires Valid() && key in feeders && ValidProtocol(p)
      requires key in entries && p in entries[key].connections && num in entries[key].connections[p].details
      modifies Repr - {this}
      ensures key in entries && p in entries[key].connections
      ensures var v := entries[key].connections;
              num in v[p].details && Changed(key, v[p := WithBytes(v[p], num, bytesIn, bytesOut)])
    {
      hide Holds, WithConnection, WithoutConnection;
      Entry(key);
      AddToConnection(feeders[key].connections, p, num, bytesIn, bytesOut, owned[key], entries[key].connections);
    }

    /** Makes sure there is an entry, with both protocols, for a feeder. */
    method InitFeederStats(key: ApiKey)
      requires Valid()
      modifies this`feeders, this`entries, this`owned, this`Repr
      ensures Valid() && fresh(Repr - old(Repr)) && key in feeders
      ensures View() == InitFeeder(old(View()), key)
    {
      if key !in feeders {
        AddEntry(key);
      } else {
        assert EntryHolds(key);
      }
    }

    method AddEntry(key: ApiKey)
      requires Valid() && key !in feeders
      modifies this`feeders, this`entries, this`owned, this`Repr
      ensures Valid() && fresh(Repr - old(Repr)) && key in feeders
      ensures entries == old(entries)[key := NEW_FEEDER]
    {
      hide Represents;
      var f;
      ghost var tables;
      f, tables := NewEntry();
      Adopt(key, f, tables, NEW_FEEDER);
    }

    /** Takes in an entry whose tables are new. */
    method Adopt(key: ApiKey, f: FeederEntry, ghost tables: set<object>, ghost v: FeederStats)
      requires Valid() && key !in feeders && Represents(tables, f, v) && tables !! Repr
      modifies this`feeders, this`entries, this`owned, this`Repr
      ensures Valid() && Repr == old(Repr) + tables && key in feeders && entries == old(entries)[key := v]
    {
      hide Represents;
      feeders := feeders[key := f];
      entries := entries[key := v];
      owned := owned[key := tables];
      Repr := Repr + tables;
    }

    method RegisterFeeder(f: FeederDetails, now: Time) returns (o: Outcome)
      requires Valid()
      modifies Repr
      ensures Valid() && fresh(Repr - old(Repr))
      ensures (View(), o) == Apply(old(View()), Op.RegisterFeeder(f, now))
    {
      hide Valid, InitFeeder, Registry.RegisterFeederMain;
      SameKeys();
      if !initialised {
        return Failed(NotInitialised);
      }
      InitFeederStats(f.key);
      RegisterFeederMain(f, now);
      o := Done;
    }

    /** The main section of RegisterFeeder: reads the entry, or a zero value, and writes it back changed. */
    method RegisterFeederMain(f: FeederDetails, now: Time)
      requires Valid()
      modifies this`feeders, this`entries, this`owned, this`Repr
      ensures Valid() && fresh(Repr - old(Repr))
      ensures View() == Registry.RegisterFeederMain(old(View()), f, now)
    {
      hide Valid, Represents;
      SameKeys();
      if f.key in feeders {
        Relabel(f, now);
      } else {
        var table := new ProtocolTable.Nil();
        var y := FeederEntry(f.labelText, f.code, table, now);
        NilRepresents(y);
        Adopt(f.key, y, {table}, FeederStats(f.labelText, f.code, map[], now));
      }
    }

    lemma NilRepresents(y: FeederEntry)
      requires y.connections.m == map[]
      ensures Represents({y.connections}, y, FeederStats(y.labelText, y.code, map[], y.timeUpdated))
    {
    }

    method Relabel(f: FeederDetails, now: Time)
      requires Valid() && f.key in feeders
      modifies this`feeders, this`entries
      ensures Valid() && f.key in old(entries)
      ensures var v := old(entries)[f.key].(labelText := f.labelText, code := f.code, timeUpdated := now);
              entries == old(entries)[f.key := v]
    {
      hide Holds, Separate;
      assert EntryHolds(f.key);
      var y := feeders[f.key];
      y := y.(labelText := f.labelText, code := f.code, timeUpdated := now);
      feeders := feeders[f.key := y];
      entries := entries[f.key := entries[f.key].(labelText := f.labelText, code := f.code, timeUpdated := now)];
    }

    method RegisterConnection(conn: Connection, connected: Time, now: Time) returns (o: Outcome)
      requires Valid()
      modifies Repr
      ensures Valid() && fresh(Repr - old(Repr))
      ensures (View(), o) == Apply(old(View()), Op.RegisterConnection(conn, connected, now))
    {
      hide Valid, InitFeeder, Registry.RegisterConnectionMain;
      SameKeys();
      if !initialised {
        return Failed(NotInitialised);
      }
      if !ValidProtocol(conn.proto) {
        return Failed(UnknownProtocol(conn.proto));
      }
      InitFeederStats(conn.key);
      o := RegisterConnectionMain(conn, connected, now);
    }

    /** The main section of RegisterConnection: writing through a map that is not there panics. */
    method RegisterConnectionMain(conn: Connection, connected: Time, now: Time) returns (o: Outcome)
      requires Valid() && ValidProtocol(conn.proto)
      modifies Repr
      ensures Valid() && Repr == old(Repr)
      ensures (View(), o) == Registry.RegisterConnectionMain(old(View()), conn, connected, now)
    {
      hide Valid, WithConnection;
      SameKeys();
      if conn.key !in feeders {
        return Panic;
      }
      Entry(conn.key);
      if conn.proto !in feeders[conn.key].connections.m {
        return Panic;
      }
      AddConnection(conn, connected, now);
      o := Done;
    }

    method AddConnection(conn: Connection, connected: Time, now: Time)
      requires Valid() && conn.key in feeders && ValidProtocol(conn.proto)
      requires conn.key in entries && conn.proto in entries[conn.key].connections
      modifies Repr
      ensures Valid() && Repr == old(Repr)
      ensures var v := old(entries)[conn.key];
              var pd := WithConnection(v.connections[conn.proto], conn.num, NewDetail(conn, connected));
              entries == old(entries)[conn.key := PutProto(v, conn.proto, pd, now)]
      ensures unchanged(`initialised, `bytesInBEAST, `bytesOutBEAST, `bytesInMLAT, `bytesOutMLAT)
    {
      hide Valid, Changed, WithConnection;
      Entry(conn.key);
      PutInto(conn.key, conn.proto, conn.num, ConnectionDetail(conn.src, conn.dst, connected, 0, 0));
      ghost var v := entries[conn.key].connections;
      Touch(conn.key, now, v[conn.proto := WithConnection(v[conn.proto], conn.num, NewDetail(conn, connected))]);
    }

    method UnregisterConnection(conn: Connection, now: Time) returns (o: Outcome)
      requires Valid()
      modifies Repr
      ensures Valid() && fresh(Repr - old(Repr))
      ensures (View(), o) == Apply(old(View()), Op.UnregisterConnection(conn, now))
    {
      hide Valid, InitFeeder, Registry.UnregisterConnectionMain;
      SameKeys();
      if !initialised {
        return Failed(NotInitialised);
      }
      if !ValidProtocol(conn.proto) {
        return Failed(UnknownProtocol(conn.proto));
      }
      InitFeederStats(conn.key);
      o := UnregisterConnectionMain(conn, now);
    }

    /** The main section of UnregisterConnection: reading through missing maps finds nothing. */
    method UnregisterConnectionMain(conn: Connection, now: Time) returns (o: Outcome)
      requires Valid() && ValidProtocol(conn.proto)
      modifies Repr
      ensures Valid() && Repr == old(Repr)
      ensures (View(), o) == Registry.UnregisterConnectionMain(old(View()), conn, now)
    {
      hide Valid, WithoutConnection;
      SameKeys();
      if conn.key !in feeders {
        return Failed(ConnNumNotFound);
      }
      Entry(conn.key);
      if conn.proto !in feeders[conn.key].connections.m {
        return Failed(ConnNumNotFound);
      }
      if conn.num !in feeders[conn.key].connections.m[conn.proto].details.m {
        return Failed(ConnNumNotFound);
      }
      DropFound(conn, now);
      DropIfEmpty(conn.key);
      o := Done;
    }

    method DropFound(conn: Connection, now: Time)
      requires Valid() && conn.key in feeders && ValidProtocol(conn.proto)
      requires conn.key in entries && conn.proto in entries[conn.key].connections
      modifies Repr
      ensures Valid() && Repr == old(Repr) && conn.key in feeders
      ensures var v := old(entries)[conn.key];
              var pd := WithoutConnection(v.connections[conn.proto], conn.num);
              entries == old(entries)[conn.key := PutProto(v, conn.proto, pd, now)]
      ensures unchanged(`initialised, `bytesInBEAST, `bytesOutBEAST, `bytesInMLAT, `bytesOutMLAT)
    {
      hide Valid, Changed, WithoutConnection;
      Entry(conn.key);
      RemoveFrom(conn.key, conn.proto, conn.num);
      ghost var v := entries[conn.key].connections;
      Touch(conn.key, now, v[conn.proto := WithoutConnection(v[conn.proto], conn.num)]);
    }

    /** Removes a feeder that has no connection left. */
    method DropIfEmpty(key: ApiKey)
      requires Valid() && key in feeders
      modifies this`feeders, this`entries, this`owned
      ensures Valid() && key in old(entries)
      ensures entries == if NoneLeft(old(entries)[key]) then old(entries) - {key} else old(entries)
    {
      Entry(key);
      var beast := CountConnections(key, BEAST);
      if beast == 0 {
        var mlat := CountConnections(key, MLAT);
        if mlat == 0 {
          Forget(key);
        }
      }
    }

    method Forget(key: ApiKey)
      requires Valid() && key in feeders
      modifies this`feeders, this`entries, this`owned
      ensures Valid() && entries == old(entries) - {key}
    {
      hide Represents;
      feeders := feeders - {key};
      entries := entries - {key};
      owned := owned - {key};
    }

    method IncrementByteCounters(key: ApiKey, num: nat, p: Protocol, bytesIn: U64, bytesOut: U64, now: Time)
      returns (o: Outcome)
      requires Valid()
      modifies Repr
      ensures Valid() && Repr == old(Repr)
      ensures (View(), o) == Apply(old(View()), AddBytes(key, num, p, bytesIn, bytesOut, now))
    {
      hide Valid, AddBytesTo, Add64;
      SameKeys();
      if key !in feeders {
        return Failed(APIKeyNotFound);
      }
      Entry(key);
      if p !in feeders[key].connections.m {
        return Failed(ProtoNotFound);
      }
      if num !in feeders[key].connections.m[p].details.m {
        return Failed(ConnNumNotFound);
      }
      AddFound(key, num, p, bytesIn, bytesOut, now);
      AddGlobals(p, bytesIn, bytesOut);
      o := Done;
    }

    method AddFound(key: ApiKey, num: nat, p: Protocol, bytesIn: U64, bytesOut: U64, now: Time)
      requires Valid() && key in feeders && ValidProtocol(p)
      requires key in entries && p in entries[key].connections && num in entries[key].connections[p].details
      modifies Repr
      ensures Valid() && Repr == old(Repr)
      ensures var v := old(entries)[key];
              var pd := v.connections[p];
              var pd' := pd.(details := pd.details[num := AddBytesTo(pd.details[num], bytesIn, bytesOut)]);
              entries == old(entries)[key := PutProto(v, p, pd', now)]
      ensures unchanged(`initialised, `bytesInBEAST, `bytesOutBEAST, `bytesInMLAT, `bytesOutMLAT)
    {
      hide Valid, Changed, AddBytesTo;
      Entry(key);
      AddTo(key, p, num, bytesIn, bytesOut);
      ghost var v := entries[key].connections;
      Touch(key, now, v[p := v[p].(details := v[p].details[num := AddBytesTo(v[p].details[num], bytesIn, bytesOut)])]);
    }

    method AddGlobals(p: Protocol, bytesIn: U64, bytesOut: U64)
      requires Valid()
      modifies this`bytesInBEAST, this`bytesOutBEAST, this`bytesInMLAT, this`bytesOutMLAT
      ensures Valid() && View() == AddTotals(old(View()), p, bytesIn, bytesOut)
    {
      hide Represents;
      match p {
        case BEAST =>
          bytesInBEAST := Add64(bytesInBEAST, bytesIn);
          bytesOutBEAST := Add64(bytesOutBEAST, bytesOut);
        case MLAT =>
          bytesInMLAT := Add64(bytesInMLAT, bytesIn);
          bytesOutMLAT := Add64(bytesOutMLAT, bytesOut);
        case Unsupported(_) =>
      }
    }

    method CountConnections(key: ApiKey, p: Protocol) returns (n: nat)
      requires Valid()
      ensures n == GetNumConnections(View(), key, p)
    {
      n := 0;
      if key in feeders {
        Entry(key);
        if p in feeders[key].connections.m {
          n := feeders[key].connections.m[p].connectionCount;
        }
      }
    }
  }
}
