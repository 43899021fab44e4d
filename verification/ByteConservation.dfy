/** No byte is lost or counted twice: the global totals account for live and retired connections. */
module ByteConservation {
  import opened Common
  import opened MapSum
  import opened Registry

  datatype Direction = In | Out

  function Bytes(c: ConnectionDetail, dir: Direction): U64 {
    if dir.In? then c.bytesIn else c.bytesOut
  }

  /** The global counter of a protocol and direction. */
  function Global(s: Statistics, p: Protocol, dir: Direction): U64
    requires ValidProtocol(p)
  {
    match (p, dir)
    case (BEAST, In) => s.bytesInBEAST
    case (BEAST, Out) => s.bytesOutBEAST
    case (MLAT, In) => s.bytesInMLAT
    case (MLAT, Out) => s.bytesOutMLAT
  }

  ghost function Column(m: FlatMap, p: Protocol, dir: Direction): map<FlatKey, int> {
    map fk | fk in m && fk.proto == p :: Bytes(m[fk], dir)
  }

  /** Sum over the live connections of a protocol. */
  ghost function Live(m: FlatMap, p: Protocol, dir: Direction): int {
    Total(Column(m, p, dir))
  }

  /** Bytes of the connection that an operation ends: unregistered, or overwritten by a new one. */
  ghost function Retired(initialised: bool, m: FlatMap, op: Op, p: Protocol, dir: Direction): int {
    if (op.RegisterConnection? || op.UnregisterConnection?) && initialised && ValidProtocol(op.conn.proto)
       && op.conn.proto == p && KeyOf(op.conn) in m
    then Bytes(m[KeyOf(op.conn)], dir) else 0
  }

  ghost function Added(m: FlatMap, op: Op, p: Protocol, dir: Direction): int {
    if op.AddBytes? && op.p == p && FlatKey(op.key, op.p, op.num) in m
    then if dir.In? then op.bytesIn else op.bytesOut
    else 0
  }

  lemma ColumnAt(m: FlatMap, fk: FlatKey, p: Protocol, dir: Direction)
    ensures fk in Column(m, p, dir) <==> fk in m && fk.proto == p
    ensures fk in m && fk.proto == p ==> Column(m, p, dir)[fk] == Bytes(m[fk], dir)
  {
  }

  lemma ColumnPut(m: FlatMap, fk: FlatKey, c: ConnectionDetail, p: Protocol, dir: Direction)
    ensures Column(m[fk := c], p, dir)
            == if fk.proto == p then Column(m, p, dir)[fk := Bytes(c, dir)] else Column(m, p, dir)
  {
  }

  lemma ColumnDrop(m: FlatMap, fk: FlatKey, p: Protocol, dir: Direction)
    ensures Column(m - {fk}, p, dir) == Column(m, p, dir) - {fk}
  {
  }

  lemma LiveStep(initialised: bool, m: FlatMap, op: Op, p: Protocol, dir: Direction)
    ensures Same64(Live(FlatApply(initialised, m, op), p, dir),
                   Live(m, p, dir) + Added(m, op, p, dir) - Retired(initialised, m, op, p, dir))
  {
    var col := Column(m, p, dir);
    hide Column, Total, Has, Get;
    match op
    case RegisterConnection(conn, connected, _) =>
      var c := NewDetail(conn, connected);
      ColumnAt(m, KeyOf(conn), p, dir);
      ColumnPut(m, KeyOf(conn), c, p, dir);
      TotalUpdate(col, KeyOf(conn), Bytes(c, dir));
    case UnregisterConnection(conn, _) =>
      ColumnAt(m, KeyOf(conn), p, dir);
      ColumnDrop(m, KeyOf(conn), p, dir);
      TotalRemove(col, KeyOf(conn));
    case AddBytes(key, num, q, bytesIn, bytesOut, _) =>
      var fk := FlatKey(key, q, num);
      if fk in m {
        var c := AddBytesTo(m[fk], bytesIn, bytesOut);
        ColumnAt(m, fk, p, dir);
        ColumnPut(m, fk, c, p, dir);
        TotalUpdate(col, fk, Bytes(c, dir));
        var was, more := Bytes(m[fk], dir), if dir.In? then bytesIn else bytesOut;
        Add64Same(was, more);
        assert Bytes(c, dir) == Add64(was, more);
        if q == p {
          Shift64(Total(col) - was, Bytes(c, dir), was + more);
        }
      }
    case RegisterFeeder(_, _) =>
    case Evict(_) =>
  }

  lemma Shift64(x: int, a: int, b: int)
    requires Same64(a, b)
    ensures Same64(x + a, x + b)
  {
    assert x + a - (x + b) == a - b;
  }

  lemma GlobalStep(s: Statistics, op: Op, p: Protocol, dir: Direction)
    requires ValidProtocol(p)
    ensures Same64(Global(Apply(s, op).0, p, dir), Global(s, p, dir) + Added(Flat(s), op, p, dir))
  {
    hide Flat, WithConnection, WithoutConnection, Good, GoodFeeder, NoneLeft;
    assert op.AddBytes? ==> (FlatKey(op.key, op.p, op.num) in Flat(s) <==> Has(s, FlatKey(op.key, op.p, op.num)));
    if op.AddBytes? {
      Add64Same(Global(s, p, In), op.bytesIn);
      Add64Same(Global(s, p, Out), op.bytesOut);
    }
  }

  /** Everything retired along a run. */
  ghost function RetiredTotal(s: Statistics, ops: seq<Op>, p: Protocol, dir: Direction): int {
    if ops == [] then 0
    else
      var prefix := ops[..|ops| - 1];
      RetiredTotal(s, prefix, p, dir)
      + Retired(s.initialised, Flat(Exec(s, prefix)), ops[|ops| - 1], p, dir)
  }

  lemma Combine64(g: int, g': int, l: int, l': int, r: int, a: int, d: int)
    requires Same64(g, l + r) && Same64(g', g + a) && Same64(l', l + a - d)
    ensures Same64(g', l' + (r + d))
  {
    Same64Plus(g, l + r, g', g + a);
    Same64Plus(g + g', l + r + g + a, 0, 0);
    assert (g' - (l' + r + d)) == (g' - (g + a)) + (g - (l + r)) - (l' - (l + a - d));
  }

  /** For each protocol and direction the global total equals the live connections plus the retired
      ones, modulo 2^64, after any sequence of operations. */
  lemma {:induction false} BytesAreConserved(s: Statistics, ops: seq<Op>, p: Protocol, dir: Direction)
    requires Good(s) && ValidProtocol(p)
    requires Same64(Global(s, p, dir), Live(Flat(s), p, dir))
    ensures Exec(s, ops).initialised == s.initialised
    ensures Same64(Global(Exec(s, ops), p, dir), Live(Flat(Exec(s, ops)), p, dir) + RetiredTotal(s, ops, p, dir))
  {
    hide Global, Live, Flat, Apply, FlatApply, Same64, Retired, Added, Good;
    if ops != [] {
      var prefix, op := ops[..|ops| - 1], ops[|ops| - 1];
      var t := Exec(s, prefix);
      BytesAreConserved(s, prefix, p, dir);
      GoodAlways(s, prefix);
      FlatRefinement(t, op);
      InitialisedKept(t, op);
      GlobalStep(t, op, p, dir);
      LiveStep(t.initialised, Flat(t), op, p, dir);
      var t' := Apply(t, op).0;
      Combine64(Global(t, p, dir), Global(t', p, dir), Live(Flat(t), p, dir), Live(Flat(t'), p, dir),
                RetiredTotal(s, prefix, p, dir), Added(Flat(t), op, p, dir),
                Retired(t.initialised, Flat(t), op, p, dir));
    }
  }

  const EMPTY := Statistics(true, map[], 0, 0, 0, 0)

  /** From start-up, so no byte is lost when connections are replaced or feeders deleted. */
  lemma BytesAreConservedFromStart(ops: seq<Op>, p: Protocol, dir: Direction)
    requires ValidProtocol(p)
    ensures Same64(Global(Exec(EMPTY, ops), p, dir),
                   Live(Flat(Exec(EMPTY, ops)), p, dir) + RetiredTotal(EMPTY, ops, p, dir))
  {
    hide Exec, RetiredTotal;
    assert Good(EMPTY) && Global(EMPTY, p, dir) == 0;
    assert Column(Flat(EMPTY), p, dir) == map[];
    hide Flat, Good, Global;
    BytesAreConserved(EMPTY, ops, p, dir);
  }
}
