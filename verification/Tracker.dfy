/** The incoming connection tracker: number allocator, evictor and per-source limiter. */
module Tracker {
  import opened Common

  datatype Entry = Entry(srcIP: IP, connTime: Time, connNum: nat)

  /** At most this many tracked connections per source address ... */
  const MAX_REQUESTS_PER_IP: nat := 3
  /** ... within this window. */
  const WINDOW: Time := 10 * SECOND

  // ---------------------------------------------------------------------------------------------
  // Connection numbers.  M is the number of values of an unsigned machine word.
  // ---------------------------------------------------------------------------------------------

  /** One increment of the counter, with a second increment when it wraps to 0. */
  function Bump(M: nat, c: nat): nat
    requires M >= 2 && c < M
  {
    var n := (c + 1) % M;
    if n == 0 then n + 1 else n
  }

  /** The counter after k increments. */
  function Candidate(M: nat, c: nat, k: nat): (n: nat)
    requires M >= 2 && c < M
    ensures n < M
    ensures k > 0 ==> n != 0
  {
    if k == 0 then c else Bump(M, Candidate(M, c, k - 1))
  }

  lemma ModStep(x: nat, m: nat)
    requires m > 0
    ensures (x + 1) % m == if x % m + 1 == m then 0 else x % m + 1
  {
    var q, r := x / m, x % m;
    assert x == m * q + r;
    if r + 1 == m {
      assert x + 1 == m * (q + 1) + 0 by { assert m * (q + 1) == m * q + m; }
      DivModUnique(x + 1, m, q + 1, 0);
    } else {
      DivModUnique(x + 1, m, q, r + 1);
    }
  }

  lemma DivModUnique(x: nat, m: nat, q: nat, r: nat)
    requires m > 0 && r < m && x == m * q + r
    ensures x / m == q && x % m == r
  {
    var q', r' := x / m, x % m;
    assert x == m * q' + r' && 0 <= r' < m;
    if q > q' {
      MulAtLeast(m, q - q');
      assert false;
    } else if q < q' {
      MulAtLeast(m, q' - q);
      assert false;
    }
  }

  lemma NearbyRemaindersDiffer(x: nat, d: nat, m: nat)
    requires 0 < d < m
    ensures (x + d) % m != x % m
  {
    var q, r := x / m, x % m;
    assert x == m * q + r;
    if r + d < m {
      DivModUnique(x + d, m, q, r + d);
    } else {
      assert m * (q + 1) == m * q + m;
      DivModUnique(x + d, m, q + 1, r + d - m);
    }
  }

  lemma MulAtLeast(m: nat, d: nat)
    requires d >= 1
    ensures m * d >= m
  {
    assert m * d == m + m * (d - 1);
  }

  /** The candidates run cyclically through 1 .. M-1, whatever the starting value. */
  lemma {:induction false} CandidateIsCyclic(M: nat, c: nat, k: nat)
    requires M >= 2 && c < M && k >= 1
    ensures Candidate(M, c, k) == (c + k - 1) % (M - 1) + 1
  {
    if k == 1 {
      assert Candidate(M, c, 0) == c;
      if c == M - 1 {
        DivModUnique(c, M - 1, 1, 0);
        DivModUnique(c + 1, M, 1, 0);
      } else {
        DivModUnique(c, M - 1, 0, c);
        DivModUnique(c + 1, M, 0, c + 1);
      }
    } else {
      CandidateIsCyclic(M, c, k - 1);
      ModStep(c + k - 2, M - 1);
      var r := (c + k - 2) % (M - 1);
      assert Candidate(M, c, k - 1) == r + 1;
      if r + 1 == M - 1 {
        DivModUnique(r + 2, M, 1, 0);
      } else {
        DivModUnique(r + 2, M, 0, r + 2);
      }
    }
  }

  /** Continuing from the b-th candidate is the same as never having stopped. */
  lemma {:induction false} CandidateCompose(M: nat, c: nat, a: nat, b: nat)
    requires M >= 2 && c < M
    ensures Candidate(M, Candidate(M, c, a), b) == Candidate(M, c, a + b)
  {
    if b > 0 {
      CandidateCompose(M, c, a, b - 1);
    }
  }

  /** M-1 consecutive candidates are pairwise distinct. */
  lemma CandidatesDistinct(M: nat, c: nat, j: nat, k: nat)
    requires M >= 2 && c < M && 1 <= j < k && k - j < M - 1
    ensures Candidate(M, c, j) != Candidate(M, c, k)
  {
    CandidateIsCyclic(M, c, j);
    CandidateIsCyclic(M, c, k);
    NearbyRemaindersDiffer(c + j - 1, k - j, M - 1);
  }

  lemma ReachRemainder(c: nat, m: nat, t: nat) returns (k: nat)
    requires t < m
    ensures 1 <= k <= m && (c + k - 1) % m == t
  {
    var q, r := c / m, c % m;
    var mq := m * q;
    assert c == mq + r;
    if t >= r {
      k := t - r + 1;
      DivModUnique(c + k - 1, m, q, t);
    } else {
      k := t - r + 1 + m;
      assert m * (q + 1) == mq + m;
      DivModUnique(c + k - 1, m, q + 1, t);
    }
  }

  /** Every nonzero number is among the next M-1 candidates. */
  lemma EveryNumberIsACandidate(M: nat, c: nat, n: nat) returns (k: nat)
    requires M >= 2 && c < M && 1 <= n < M
    ensures 1 <= k <= M - 1 && Candidate(M, c, k) == n
  {
    k := ReachRemainder(c, M - 1, n - 1);
    CandidateIsCyclic(M, c, k);
  }

  /** The numbers of the tracked connections. */
  ghost function Nums(s: seq<Entry>): set<nat> {
    set e | e in s :: e.connNum
  }

  /** Some nonzero number is not tracked. */
  ghost predicate SomeFree(M: nat, used: set<nat>) {
    exists n :: 1 <= n < M && n !in used
  }

  /** k is the number of increments to the cyclically first untracked nonzero number after c. */
  ghost predicate FirstFree(M: nat, c: nat, used: set<nat>, k: nat)
    requires M >= 2 && c < M
  {
    && k >= 1
    && Candidate(M, c, k) !in used
    && forall j :: 1 <= j < k ==> Candidate(M, c, j) in used
  }

  /** Candidates already rejected are distinct tracked numbers, so there are at most |used| of them. */
  lemma {:induction false} RejectedAreFew(M: nat, c: nat, used: set<nat>, k: nat)
    requires M >= 2 && c < M && k <= M - 1
    requires forall j :: 1 <= j <= k ==> Candidate(M, c, j) in used
    ensures k <= |used|
  {
    if k > 0 {
      var last := Candidate(M, c, k);
      forall j | 1 <= j < k ensures Candidate(M, c, j) in used - {last} {
        CandidatesDistinct(M, c, j, k);
      }
      RejectedAreFew(M, c, used - {last}, k - 1);
    }
  }

  /** The search for a number stops after at most |used| + 1 increments, and before a full cycle. */
  lemma SearchIsBounded(M: nat, c: nat, used: set<nat>, k: nat)
    requires M >= 2 && c < M && SomeFree(M, used)
    requires forall j :: 1 <= j <= k ==> Candidate(M, c, j) in used
    ensures k < M - 1 && k <= |used|
  {
    var n :| 1 <= n < M && n !in used;
    var h := EveryNumberIsACandidate(M, c, n);
    RejectedAreFew(M, c, used, k);
  }

  /** Where a search stops, a number is free, and not many were rejected before it. */
  lemma FoundIsFree(M: nat, c: nat, used: set<nat>, k: nat)
    requires M >= 2 && c < M && FirstFree(M, c, used, k)
    ensures SomeFree(M, used) && k <= |used| + 1
  {
    assert 1 <= Candidate(M, c, k) < M;
    SearchIsBounded(M, c, used, k - 1);
  }

  /** With fewer than M-1 tracked numbers one is always free. */
  lemma {:induction false} FewTrackedLeaveOneFree(M: nat, used: set<nat>)
    requires M >= 2 && |used| < M - 1
    ensures SomeFree(M, used)
  {
    if !SomeFree(M, used) {
      forall j | 1 <= j <= M - 1 ensures Candidate(M, 0, j) in used {
        assert 1 <= Candidate(M, 0, j) < M;
      }
      RejectedAreFew(M, 0, used, M - 1);
    }
  }

  /** The search ends if and only if some nonzero number is untracked; otherwise it runs forever. */
  lemma SearchEndsIffSomeFree(M: nat, c: nat, used: set<nat>)
    requires M >= 2 && c < M
    ensures SomeFree(M, used) <==> exists k :: FirstFree(M, c, used, k)
  {
    if SomeFree(M, used) {
      var n :| 1 <= n < M && n !in used;
      var h := EveryNumberIsACandidate(M, c, n);
      var k := 1;
      while Candidate(M, c, k) in used
        invariant 1 <= k <= h
        invariant forall j :: 1 <= j < k ==> Candidate(M, c, j) in used
        decreases h - k
      {
        k := k + 1;
      }
      assert FirstFree(M, c, used, k);
    }
    if k :| FirstFree(M, c, used, k) {
      assert 1 <= Candidate(M, c, k) < M;
    }
  }

  // ---------------------------------------------------------------------------------------------
  // Eviction and counting on the list of tracked connections
  // ---------------------------------------------------------------------------------------------

  /** Strictly over ten seconds old at the given reading. */
  predicate Expired(e: Entry, now: Time) {
    e.connTime + WINDOW < now
  }

  /** What an eviction pass keeps, entry i being judged at reading clock[i]. */
  function Kept(s: seq<Entry>, clock: seq<Time>): seq<Entry>
    requires |clock| == |s|
  {
    if s == [] then []
    else
      var n := |s| - 1;
      Kept(s[..n], clock[..n]) + if Expired(s[n], clock[n]) then [] else [s[n]]
  }

  /** The entries satisfying p, in order. */
  ghost function Select(s: seq<Entry>, p: Entry -> bool): seq<Entry> {
    if s == [] then []
    else Select(s[..|s| - 1], p) + if p(s[|s| - 1]) then [s[|s| - 1]] else []
  }

  ghost function IsFrom(ip: IP): Entry -> bool {
    (e: Entry) => e.srcIP == ip
  }

  /** The entries from one source, in order. */
  ghost function From(s: seq<Entry>, ip: IP): seq<Entry> {
    Select(s, IsFrom(ip))
  }

  ghost predicate Sorted(s: seq<Entry>) {
    forall i, j :: 0 <= i < j < |s| ==> s[i].connTime <= s[j].connTime
  }

  /** An eviction pass drops only entries that were expired when sampled: whatever must be kept
      (because no reading so far can have expired it) survives, in order. */
  lemma {:induction false} KeptRetains(s: seq<Entry>, clock: seq<Time>, p: Entry -> bool)
    requires |clock| == |s|
    requires forall i :: 0 <= i < |s| && p(s[i]) ==> !Expired(s[i], clock[i])
    ensures Select(Kept(s, clock), p) == Select(s, p)
  {
    if s != [] {
      var n := |s| - 1;
      KeptRetains(s[..n], clock[..n], p);
      var k := Kept(s[..n], clock[..n]);
      assert s[n] == s[..][n];
      if !Expired(s[n], clock[n]) {
        assert (k + [s[n]])[..|k|] == k;
      } else {
        assert k + [] == k;
      }
    }
  }

  /** An eviction pass only removes. */
  lemma {:induction false} KeptShrinks(s: seq<Entry>, clock: seq<Time>, p: Entry -> bool)
    requires |clock| == |s|
    ensures |Select(Kept(s, clock), p)| <= |Select(s, p)|
    ensures forall e :: e in Kept(s, clock) ==> e in s
  {
    if s != [] {
      var n := |s| - 1;
      KeptShrinks(s[..n], clock[..n], p);
      var k := Kept(s[..n], clock[..n]);
      if !Expired(s[n], clock[n]) {
        assert (k + [s[n]])[..|k|] == k;
      } else {
        assert k + [] == k;
      }
    }
  }

  /** An eviction pass keeps the list sorted. */
  lemma {:induction false} KeptSorted(s: seq<Entry>, clock: seq<Time>)
    requires |clock| == |s| && Sorted(s)
    ensures Sorted(Kept(s, clock))
  {
    if s != [] {
      var n := |s| - 1;
      KeptSorted(s[..n], clock[..n]);
      KeptShrinks(s[..n], clock[..n], _ => true);
      forall e | e in Kept(s[..n], clock[..n]) ensures e.connTime <= s[n].connTime {
        var i :| 0 <= i < n && s[i] == e;
      }
    }
  }

  ghost predicate SurvivesAt(s: seq<Entry>, clock: seq<Time>, e: Entry, i: int)
    requires |clock| == |s|
  {
    0 <= i < |s| && s[i] == e && clock[i] - e.connTime <= 10 * SECOND
  }

  /** Membership: entry i survives exactly when it is at most ten seconds old at its own reading. */
  lemma {:induction false} KeptIff(s: seq<Entry>, clock: seq<Time>, e: Entry)
    requires |clock| == |s|
    ensures e in Kept(s, clock) <==> exists i :: SurvivesAt(s, clock, e, i)
  {
    if s != [] {
      var n := |s| - 1;
      KeptIff(s[..n], clock[..n], e);
      if i :| SurvivesAt(s, clock, e, i) && i < n {
        assert SurvivesAt(s[..n], clock[..n], e, i);
      }
      if i :| SurvivesAt(s[..n], clock[..n], e, i) {
        assert SurvivesAt(s, clock, e, i);
      }
      assert SurvivesAt(s, clock, e, n) <==> s[n] == e && !Expired(e, clock[n]);
    }
  }

  /** ps are, in increasing order, the positions where the reading is at most ten seconds past the connection. */
  ghost predicate ArePositions(s: seq<Entry>, clock: seq<Time>, ps: seq<nat>)
    requires |clock| == |s|
  {
    && (forall i, j :: 0 <= i < j < |ps| ==> ps[i] < ps[j])
    && (forall k :: 0 <= k < |ps| ==> ps[k] < |s| && clock[ps[k]] - s[ps[k]].connTime <= 10 * SECOND)
    && (forall i: nat :: i < |s| && clock[i] - s[i].connTime <= 10 * SECOND ==> i in ps)
  }

  ghost predicate Picks(s: seq<Entry>, ps: seq<nat>, picked: seq<Entry>) {
    |picked| == |ps| && forall k :: 0 <= k < |ps| ==> ps[k] < |s| && picked[k] == s[ps[k]]
  }

  lemma PositionsMore(s: seq<Entry>, clock: seq<Time>, ps: seq<nat>)
    requires |clock| == |s| > 0 && ArePositions(s[..|s| - 1], clock[..|s| - 1], ps)
    ensures var n: nat := |s| - 1;
            ArePositions(s, clock, ps + if clock[n] - s[n].connTime <= 10 * SECOND then [n] else [])
  {
    var n: nat := |s| - 1;
    assert forall i: nat :: i < n ==> clock[..n][i] == clock[i] && s[..n][i] == s[i];
    assert n in ps + [n];
    assert ps + [] == ps;
  }

  /** Entry for entry: what is kept are the entries at those positions, in their order, and nothing else. */
  lemma {:induction false} KeptPositions(s: seq<Entry>, clock: seq<Time>) returns (ps: seq<nat>)
    requires |clock| == |s|
    ensures ArePositions(s, clock, ps) && Picks(s, ps, Kept(s, clock))
  {
    hide ArePositions;
    if s == [] {
      ps := [];
      NoPositions();
    } else {
      var n: nat := |s| - 1;
      ps := KeptPositions(s[..n], clock[..n]);
      PositionsMore(s, clock, ps);
      ps := ps + if clock[n] - s[n].connTime <= 10 * SECOND then [n] else [];
    }
  }

  lemma NoPositions()
    ensures ArePositions([], [], [])
  {
  }

  lemma SelectAppend(s: seq<Entry>, e: Entry, p: Entry -> bool)
    ensures Select(s + [e], p) == Select(s, p) + if p(e) then [e] else []
  {
    assert (s + [e])[..|s|] == s;
  }

  lemma {:induction false} SelectMembers(s: seq<Entry>, p: Entry -> bool)
    ensures forall e :: e in Select(s, p) <==> e in s && p(e)
  {
    if s != [] {
      SelectMembers(s[..|s| - 1], p);
      assert s == s[..|s| - 1] + [s[|s| - 1]];
    }
  }

  /** Selecting by the weaker condition first changes nothing. */
  lemma {:induction false} SelectTwice(s: seq<Entry>, p: Entry -> bool, q: Entry -> bool)
    requires forall e :: e in s && q(e) ==> p(e)
    ensures Select(Select(s, p), q) == Select(s, q)
  {
    if s != [] {
      var n := |s| - 1;
      SelectTwice(s[..n], p, q);
      var k := Select(s[..n], p);
      if p(s[n]) {
        assert (k + [s[n]])[..|k|] == k;
      } else {
        assert k + [] == k;
      }
    }
  }

  lemma {:induction false} SelectWeaker(s: seq<Entry>, p: Entry -> bool, q: Entry -> bool)
    requires forall e :: e in s && p(e) ==> q(e)
    ensures |Select(s, p)| <= |Select(s, q)|
  {
    if s != [] {
      SelectWeaker(s[..|s| - 1], p, q);
    }
  }

  // ---------------------------------------------------------------------------------------------
  // The tracker object
  // ---------------------------------------------------------------------------------------------

  /** A slice is a prefix of a backing array that eviction compacts in place. */
  class IncomingConnectionTracker {
    const M: nat
    var data: array<Entry>
    var len: nat
    var connectionNumber: nat

    ghost predicate Valid()
      reads this
    {
      M >= 2 && len <= data.Length && connectionNumber < M
    }

    ghost function Connections(): seq<Entry>
      reads this, data
      requires Valid()
    {
      data[..len]
    }

    constructor (M: nat)
      requires M >= 2
      ensures Valid() && this.M == M && fresh(data)
      ensures Connections() == [] && connectionNumber == 0
    {
      this.M := M;
      data := new Entry[0];
      len, connectionNumber := 0, 0;
    }

    /** Allocates the cyclically first nonzero number after the previous one that is not tracked.  The search
        is followed for at most `patience` iterations and is unfinished (None) after that: with some number
        untracked it ends within one iteration more than there are tracked numbers, and with none it is
        unfinished however long it is followed. */
    method GetNum(patience: nat) returns (num: Option<nat>, ghost iterations: nat)
      requires Valid()
      modifies this`connectionNumber
      ensures Valid() && iterations <= patience
      ensures connectionNumber == Candidate(M, old(connectionNumber), iterations)
      ensures num.Some? ==> num.value == connectionNumber
      ensures num.Some? ==> FirstFree(M, old(connectionNumber), Nums(Connections()), iterations)
      ensures num.Some? ==> iterations <= |Nums(Connections())| + 1
      ensures num.None? ==> iterations == patience
      ensures SomeFree(M, Nums(Connections())) && patience > |Nums(Connections())| ==> num.Some?
      ensures !SomeFree(M, Nums(Connections())) ==> num.None?
    {
      iterations := 0;
      ghost var used := Nums(Connections());
      var dupe := true;
      var left := patience;
      while dupe && left > 0
        invariant Valid() && data == old(data) && len == old(len) && iterations + left == patience
        invariant connectionNumber == Candidate(M, old(connectionNumber), iterations)
        invariant dupe ==> forall j :: 1 <= j <= iterations ==> Candidate(M, old(connectionNumber), j) in used
        invariant !dupe ==> FirstFree(M, old(connectionNumber), used, iterations)
        decreases left
      {
        iterations := iterations + 1;
        left := left - 1;
        connectionNumber := Bump(M, connectionNumber);
        dupe := IsTracked(connectionNumber);
      }
      if !dupe {
        num := Some(connectionNumber);
        FoundIsFree(M, old(connectionNumber), used, iterations);
      } else {
        num := None;
        if SomeFree(M, used) {
          SearchIsBounded(M, old(connectionNumber), used, iterations);
        }
      }
    }

    /** Whether a number is already in use. */
    method IsTracked(num: nat) returns (dupe: bool)
      requires Valid()
      ensures dupe <==> num in Nums(Connections())
    {
      dupe := false;
      var i := 0;
      while i < len
        invariant 0 <= i <= len && !dupe
        invariant forall j :: 0 <= j < i ==> data[j].connNum != num
      {
        if num == data[i].connNum {
          dupe := true;
          assert Connections()[i] == data[i];
          break;
        }
        i := i + 1;
      }
    }

    /** One eviction pass over the slice, compacting it in its own backing array. */
    method Evict(clock: seq<Time>)
      requires Valid() && |clock| == len
      modifies this`len, data
      ensures Valid() && data == old(data)
      ensures Connections() == Kept(old(Connections()), clock)
      ensures forall e :: e in Connections() <==> exists i :: SurvivesAt(old(Connections()), clock, e, i)
    {
      var i, j := 0, 0;
      while j < len
        invariant 0 <= i <= j <= len
        invariant data == old(data) && len == old(len)
        invariant data[..i] == Kept(old(Connections())[..j], clock[..j])
        invariant forall m :: j <= m < len ==> data[m] == old(data[m])
      {
        var c := data[j];
        assert old(Connections())[..j + 1][..j] == old(Connections())[..j];
        assert clock[..j + 1][..j] == clock[..j];
        assert old(Connections())[j] == c;
        if !(c.connTime + WINDOW < clock[j]) {
          data[i] := c;
          i := i + 1;
          assert data[..i] == data[..i - 1] + [c];
        } else {
          assert data[..i] + [] == data[..i];
        }
        j := j + 1;
      }
      assert old(Connections())[..j] == old(Connections()) && clock[..j] == clock;
      len := i;
      forall e ensures e in Connections() <==> exists k :: SurvivesAt(old(Connections()), clock, e, k) {
        KeptIff(old(Connections()), clock, e);
      }
    }

    /** First lock section of a check: counts the tracked connections from an address. */
    method CountFrom(ip: IP) returns (n: nat)
      requires Valid()
      ensures n == |From(Connections(), ip)|
    {
      n := 0;
      var i := 0;
      while i < len
        invariant 0 <= i <= len
        invariant n == |From(data[..i], ip)|
      {
        assert data[..i + 1][..i] == data[..i];
        if data[i].srcIP == ip {
          n := n + 1;
        }
        i := i + 1;
      }
    }

    /** Second lock section of a check: appends, growing the backing array when it is full. */
    method Append(e: Entry)
      requires Valid()
      modifies this`len, this`data, data
      ensures Valid() && (data == old(data) || fresh(data))
      ensures Connections() == old(Connections()) + [e]
    {
      if len == data.Length {
        var bigger := new Entry[2 * len + 1](
          k requires 0 <= k reads this, data => if k < len <= data.Length then data[k] else e);
        assert bigger[..len] == data[..len];
        data := bigger;
      }
      data[len] := e;
      len := len + 1;
      assert Connections() == old(Connections()) + [e];
    }

    /** A check that no other check interleaves with. */
    method Check(ip: IP, connNum: nat, now: Time) returns (accepted: bool)
      requires Valid()
      modifies this`len, this`data, data
      ensures Valid() && (data == old(data) || fresh(data))
      ensures accepted == (|From(old(Connections()), ip)| < MAX_REQUESTS_PER_IP)
      ensures Connections() == old(Connections()) + if accepted then [Entry(ip, now, connNum)] else []
    {
      var n := CountFrom(ip);
      accepted := !(n >= MAX_REQUESTS_PER_IP);
      if accepted {
        Append(Entry(ip, now, connNum));
      }
    }
  }
}
