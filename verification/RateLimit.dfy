/** The per-source rate limit under concurrency.  A check is two lock sections, so checks interleave
    with each other and with the evictor; the guarantee depends on how many are in flight at once. */
module RateLimit {
  import opened Common
  import opened Tracker

  datatype Request = Request(ip: IP, connNum: nat)

  /** `passed` holds the checks that counted few enough entries but have not appended yet;
      `accepted` is the history of every entry ever appended. */
  datatype State = State(now: Time, tracked: seq<Entry>, passed: map<nat, Request>, accepted: seq<Entry>)

  datatype Step =
    | Count(id: nat, req: Request, at: Time)
    | Append(id: nat, at: Time)
    | Evict(clock: seq<Time>, at: Time)

  const START := State(0, [], map[], [])

  /** Checks for one source that are past their count and have not appended. */
  ghost function InFlight(passed: map<nat, Request>, ip: IP): set<nat> {
    set id | id in passed && passed[id].ip == ip
  }

  /** Steps that can happen while at most K checks for any one source are in flight. */
  ghost predicate Enabled(K: nat, s: State, step: Step) {
    && s.now <= step.at
    && match step
       case Count(id, req, _) => id !in s.passed && |InFlight(s.passed, req.ip)| < K
       case Append(id, _) => id in s.passed
       case Evict(clock, at) => |clock| == |s.tracked| && forall i :: 0 <= i < |clock| ==> s.now <= clock[i] <= at
  }

  ghost function Fire(s: State, step: Step): State {
    match step
    case Count(id, req, at) =>
      if |From(s.tracked, req.ip)| >= MAX_REQUESTS_PER_IP then s.(now := at)
      else s.(now := at, passed := s.passed[id := req])
    case Append(id, at) =>
      if id !in s.passed then s
      else
        var e := Entry(s.passed[id].ip, at, s.passed[id].connNum);
        State(at, s.tracked + [e], s.passed - {id}, s.accepted + [e])
    case Evict(clock, at) =>
      if |clock| != |s.tracked| then s
      else s.(now := at, tracked := Kept(s.tracked, clock))
  }

  ghost function After(steps: seq<Step>): State {
    if steps == [] then START else Fire(After(steps[..|steps| - 1]), steps[|steps| - 1])
  }

  ghost predicate IsRun(K: nat, steps: seq<Step>) {
    steps == [] ||
    (IsRun(K, steps[..|steps| - 1]) && Enabled(K, After(steps[..|steps| - 1]), steps[|steps| - 1]))
  }

  ghost function Young(now: Time): Entry -> bool {
    (e: Entry) => !Expired(e, now)
  }

  /** Accepted from `ip` in the closed window of ten seconds starting at `a`. */
  ghost function InWindow(ip: IP, a: Time): Entry -> bool {
    (e: Entry) => e.srcIP == ip && a <= e.connTime <= a + 10 * SECOND
  }

  ghost predicate NotLater(s: seq<Entry>, now: Time) {
    forall i :: 0 <= i < |s| ==> s[i].connTime <= now
  }

  ghost predicate Bounded(K: nat, s: State) {
    forall ip :: Load(s, ip) <= MAX_REQUESTS_PER_IP - 1 + K
  }

  ghost predicate Ordered(s: State) {
    Sorted(s.tracked) && NotLater(s.tracked, s.now) && NotLater(s.accepted, s.now)
  }

  /** No unexpired entry has been lost. */
  ghost predicate Remembers(s: State) {
    Select(s.tracked, Young(s.now)) == Select(s.accepted, Young(s.now))
  }

  ghost predicate WindowsBounded(K: nat, s: State) {
    forall ip, a :: |Select(s.accepted, InWindow(ip, a))| <= MAX_REQUESTS_PER_IP - 1 + K
  }

  /** Load of one source: tracked plus passed-but-not-appended. */
  ghost function Load(s: State, ip: IP): nat {
    |From(s.tracked, ip)| + |InFlight(s.passed, ip)|
  }

  lemma InFlightAdd(passed: map<nat, Request>, id: nat, req: Request, ip: IP)
    requires id !in passed
    ensures |InFlight(passed[id := req], ip)| == |InFlight(passed, ip)| + if req.ip == ip then 1 else 0
  {
    assert InFlight(passed[id := req], ip) == InFlight(passed, ip) + if req.ip == ip then {id} else {};
  }

  lemma InFlightRemove(passed: map<nat, Request>, id: nat, ip: IP)
    requires id in passed
    ensures |InFlight(passed - {id}, ip)| == |InFlight(passed, ip)| - if passed[id].ip == ip then 1 else 0
  {
    InFlightAdd(passed - {id}, id, passed[id], ip);
    assert (passed - {id})[id := passed[id]] == passed;
  }

  lemma LoadBounded(K: nat, s: State, step: Step, ip: IP)
    requires Load(s, ip) <= MAX_REQUESTS_PER_IP - 1 + K && Enabled(K, s, step)
    ensures Load(Fire(s, step), ip) <= MAX_REQUESTS_PER_IP - 1 + K
  {
    match step
    case Count(id, req, _) =>
      InFlightAdd(s.passed, id, req, ip);
    case Append(id, at) =>
      var r := s.passed[id];
      SelectAppend(s.tracked, Entry(r.ip, at, r.connNum), IsFrom(ip));
      InFlightRemove(s.passed, id, ip);
    case Evict(clock, _) =>
      KeptShrinks(s.tracked, clock, IsFrom(ip));
  }

  lemma BoundedKept(K: nat, s: State, step: Step)
    requires Bounded(K, s) && Enabled(K, s, step)
    ensures Bounded(K, Fire(s, step))
  {
    forall ip ensures Load(Fire(s, step), ip) <= MAX_REQUESTS_PER_IP - 1 + K {
      LoadBounded(K, s, step, ip);
    }
  }

  lemma OrderedKept(K: nat, s: State, step: Step)
    requires Ordered(s) && Enabled(K, s, step)
    ensures Ordered(Fire(s, step))
  {
    if step.Evict? {
      KeptSorted(s.tracked, step.clock);
      KeptShrinks(s.tracked, step.clock, Young(0));
      var s' := Fire(s, step);
      forall i | 0 <= i < |s'.tracked| ensures s'.tracked[i].connTime <= s'.now {
        assert s'.tracked[i] in s.tracked;
      }
    }
  }

  lemma RemembersLater(s: State, at: Time)
    requires Remembers(s) && s.now <= at
    ensures Select(s.tracked, Young(at)) == Select(s.accepted, Young(at))
  {
    SelectTwice(s.tracked, Young(s.now), Young(at));
    SelectTwice(s.accepted, Young(s.now), Young(at));
  }

  lemma RemembersKept(K: nat, s: State, step: Step)
    requires Remembers(s) && Enabled(K, s, step)
    ensures Remembers(Fire(s, step))
  {
    RemembersLater(s, step.at);
    match step
    case Count(_, _, _) =>
    case Append(id, at) =>
      var e := Entry(s.passed[id].ip, at, s.passed[id].connNum);
      SelectAppend(s.tracked, e, Young(at));
      SelectAppend(s.accepted, e, Young(at));
    case Evict(clock, at) =>
      KeptRetains(s.tracked, clock, Young(at));
  }

  /** Everything accepted in a window that contains the present is unexpired, hence still tracked. */
  lemma OpenWindowIsTracked(s: State, ip: IP, a: Time)
    requires Ordered(s) && Remembers(s) && s.now <= a + WINDOW
    ensures |Select(s.accepted, InWindow(ip, a))| <= |From(s.tracked, ip)|
  {
    var w, y := InWindow(ip, a), Young(s.now);
    SelectTwice(s.accepted, y, w);
    SelectTwice(s.tracked, y, w);
    SelectWeaker(s.tracked, w, IsFrom(ip));
  }

  lemma WindowsKept(K: nat, s: State, step: Step)
    requires WindowsBounded(K, s) && Enabled(K, s, step)
    requires var s' := Fire(s, step); Ordered(s') && Remembers(s') && Bounded(K, s')
    ensures WindowsBounded(K, Fire(s, step))
  {
    var s' := Fire(s, step);
    forall ip, a ensures |Select(s'.accepted, InWindow(ip, a))| <= MAX_REQUESTS_PER_IP - 1 + K {
      if step.Append? {
        var e := Entry(s.passed[step.id].ip, step.at, s.passed[step.id].connNum);
        SelectAppend(s.accepted, e, InWindow(ip, a));
        if InWindow(ip, a)(e) {
          OpenWindowIsTracked(s', ip, a);
          assert Load(s', ip) <= MAX_REQUESTS_PER_IP - 1 + K;
        } else {
          assert s'.accepted == s.accepted + [e];
          assert |Select(s.accepted, InWindow(ip, a))| <= MAX_REQUESTS_PER_IP - 1 + K;
        }
      }
    }
  }

  ghost predicate Inv(K: nat, s: State) {
    Bounded(K, s) && Ordered(s) && Remembers(s) && WindowsBounded(K, s)
  }

  lemma {:induction false} InvAlways(K: nat, steps: seq<Step>)
    requires K >= 1 && IsRun(K, steps)
    ensures Inv(K, After(steps))
  {
    if steps == [] {
      assert forall ip :: InFlight(START.passed, ip) == {};
    } else {
      var s, step := After(steps[..|steps| - 1]), steps[|steps| - 1];
      InvAlways(K, steps[..|steps| - 1]);
      BoundedKept(K, s, step);
      OrderedKept(K, s, step);
      RemembersKept(K, s, step);
      WindowsKept(K, s, step);
    }
  }

  /** With at most K checks in flight per source, tracked plus passed entries of a source never
      exceed 2 + K, and no closed ten-second window holds more than 2 + K accepted connections. */
  lemma SlidingWindowLimit(K: nat, steps: seq<Step>, ip: IP, a: Time)
    requires K >= 1 && IsRun(K, steps)
    ensures Load(After(steps), ip) <= 2 + K
    ensures |Select(After(steps).accepted, InWindow(ip, a))| <= 2 + K
  {
    InvAlways(K, steps);
  }

  /** The tracked list is sorted by time in every reachable state. */
  lemma TrackedStaysSorted(K: nat, steps: seq<Step>)
    requires K >= 1 && IsRun(K, steps)
    ensures Sorted(After(steps).tracked)
  {
    InvAlways(K, steps);
  }

  // ---- what is accepted was checked

  lemma {:induction false} PassedWasCounted(K: nat, steps: seq<Step>, id: nat) returns (j: int)
    requires IsRun(K, steps) && id in After(steps).passed
    ensures 0 <= j < |steps| && steps[j].Count? && steps[j].id == id && steps[j].req == After(steps).passed[id]
  {
    hide From, Kept;
    var prefix, step := steps[..|steps| - 1], steps[|steps| - 1];
    if step.Count? && step.id == id {
      j := |steps| - 1;
    } else {
      j := PassedWasCounted(K, prefix, id);
    }
  }

  /** Every accepted entry comes from a check in the run: its source and number are those of the check, and its
      time is the reading of the check's second section. */
  lemma {:induction false} AcceptedWasChecked(K: nat, steps: seq<Step>, i: nat) returns (j: int, k: int)
    requires IsRun(K, steps) && i < |After(steps).accepted|
    ensures var e := After(steps).accepted[i];
            && 0 <= j < k < |steps| && steps[j].Count? && steps[j].req == Request(e.srcIP, e.connNum)
            && steps[k] == Append(steps[j].id, e.connTime)
  {
    hide From, Kept;
    var prefix, step := steps[..|steps| - 1], steps[|steps| - 1];
    if i < |After(prefix).accepted| {
      j, k := AcceptedWasChecked(K, prefix, i);
    } else {
      j := PassedWasCounted(K, prefix, step.id);
      k := |steps| - 1;
    }
  }

  // ---- a source that has been quiet is let in again

  /** Nothing from `ip` is tracked, and no check of it is under way. */
  ghost predicate Quiet(s: State, ip: IP) {
    From(s.tracked, ip) == [] && InFlight(s.passed, ip) == {}
  }

  lemma NothingFrom(s: seq<Entry>, ip: IP)
    ensures From(s, ip) == [] <==> forall e :: e in s ==> e.srcIP != ip
  {
    SelectMembers(s, IsFrom(ip));
    if From(s, ip) != [] {
      assert From(s, ip)[0] in From(s, ip);
    }
  }

  /** An eviction whose readings are all over ten seconds past what is tracked of a source drops all of it. */
  lemma EvictQuiets(s: State, ip: IP, clock: seq<Time>, at: Time)
    requires |clock| == |s.tracked| && InFlight(s.passed, ip) == {}
    requires forall i :: 0 <= i < |clock| && s.tracked[i].srcIP == ip ==> clock[i] - s.tracked[i].connTime > 10 * SECOND
    ensures Quiet(Fire(s, Evict(clock, at)), ip)
  {
    hide From;
    var s' := Fire(s, Evict(clock, at));
    NothingFrom(s'.tracked, ip);
    forall e | e in s'.tracked ensures e.srcIP != ip {
      KeptIff(s.tracked, clock, e);
    }
  }

  lemma QuietStays(K: nat, s: State, step: Step, ip: IP)
    requires Quiet(s, ip) && Enabled(K, s, step) && !(step.Count? && step.req.ip == ip)
    ensures Quiet(Fire(s, step), ip)
  {
    match step
    case Count(id, req, _) => assert InFlight(s.passed[id := req], ip) == InFlight(s.passed, ip);
    case Append(id, at) =>
      assert id !in InFlight(s.passed, ip);
      assert InFlight(s.passed - {id}, ip) == InFlight(s.passed, ip);
      SelectAppend(s.tracked, Entry(s.passed[id].ip, at, s.passed[id].connNum), IsFrom(ip));
    case Evict(clock, _) => KeptShrinks(s.tracked, clock, IsFrom(ip));
  }

  lemma {:induction false} QuietAlong(K: nat, steps: seq<Step>, more: seq<Step>, ip: IP)
    requires IsRun(K, steps + more) && Quiet(After(steps), ip)
    requires forall step :: step in more ==> !(step.Count? && step.req.ip == ip)
    ensures Quiet(After(steps + more), ip)
  {
    hide Fire, Enabled, Quiet;
    if more == [] {
      assert steps + more == steps;
    } else {
      var prefix, step := more[..|more| - 1], more[|more| - 1];
      assert (steps + more)[..|steps + more| - 1] == steps + prefix;
      QuietAlong(K, steps, prefix, ip);
      QuietStays(K, After(steps + prefix), step, ip);
    }
  }

  /** The limiter lets a source in again: after an eviction whose readings are all over ten seconds past every
      connection tracked from it, with none of its checks under way, its next check passes, in every run. */
  lemma QuietSourceIsLetIn(K: nat, steps: seq<Step>, clock: seq<Time>, at: Time, more: seq<Step>, next: Step)
    requires next.Count? && IsRun(K, steps + [Evict(clock, at)] + more + [next])
    requires InFlight(After(steps).passed, next.req.ip) == {} && |clock| == |After(steps).tracked|
    requires forall i :: 0 <= i < |clock| && After(steps).tracked[i].srcIP == next.req.ip ==>
                           clock[i] - After(steps).tracked[i].connTime > 10 * SECOND
    requires forall step :: step in more ==> !(step.Count? && step.req.ip == next.req.ip)
    ensures var s := After(steps + [Evict(clock, at)] + more + [next]);
            next.id in s.passed && s.passed[next.id] == next.req
  {
    hide Quiet, Enabled;
    var evicted := steps + [Evict(clock, at)];
    assert evicted[..|steps|] == steps;
    EvictQuiets(After(steps), next.req.ip, clock, at);
    assert (evicted + more + [next])[..|evicted + more|] == evicted + more;
    QuietAlong(K, evicted, more, next.req.ip);
    QuietPasses(After(evicted + more), next);
  }

  lemma QuietPasses(s: State, next: Step)
    requires next.Count? && Quiet(s, next.req.ip)
    ensures var s' := Fire(s, next); next.id in s'.passed && s'.passed[next.id] == next.req
  {
  }

  /** Exactly when a check passes, in every run: fewer than three connections of its source are tracked then. */
  lemma PassesIff(K: nat, steps: seq<Step>, next: Step)
    requires next.Count? && IsRun(K, steps + [next])
    ensures next.id in After(steps + [next]).passed <==> |From(After(steps).tracked, next.req.ip)| < 3
  {
    hide From;
    assert (steps + [next])[..|steps|] == steps;
  }

  // ---- the bound is reached

  ghost predicate AllAtZero(s: seq<Entry>, ip: IP) {
    forall i :: 0 <= i < |s| ==> s[i].srcIP == ip && s[i].connTime == 0
  }

  lemma {:induction false} AllSelected(s: seq<Entry>, ip: IP)
    requires AllAtZero(s, ip)
    ensures From(s, ip) == s && Select(s, InWindow(ip, 0)) == s
  {
    if s != [] {
      AllSelected(s[..|s| - 1], ip);
    }
  }

  lemma Extended(K: nat, steps: seq<Step>, step: Step) returns (longer: seq<Step>)
    requires IsRun(K, steps) && Enabled(K, After(steps), step)
    ensures IsRun(K, longer) && After(longer) == Fire(After(steps), step)
  {
    longer := steps + [step];
    assert longer[..|steps|] == steps;
  }

  /** Checks 0 .. j-1, all for one source. */
  ghost function Checks(ip: IP, j: nat): map<nat, Request> {
    if j == 0 then map[] else Checks(ip, j - 1)[j - 1 := Request(ip, j)]
  }

  lemma {:induction false} ChecksInFlight(ip: IP, j: nat)
    ensures |InFlight(Checks(ip, j), ip)| == j
    ensures forall id :: id in Checks(ip, j) ==> id < j
  {
    if j == 0 {
      assert InFlight(map[], ip) == {};
    } else {
      ChecksInFlight(ip, j - 1);
      InFlightAdd(Checks(ip, j - 1), j - 1, Request(ip, j), ip);
    }
  }

  ghost predicate Burst(s: State, ip: IP, entries: nat, inFlight: nat) {
    s.now == 0 && |s.accepted| == entries && AllAtZero(s.accepted, ip) && s.passed == Checks(ip, inFlight)
  }

  lemma CountPasses(K: nat, s: State, ip: IP, entries: nat, j: nat)
    requires Burst(s, ip, entries, j) && s.tracked == s.accepted
    requires entries < MAX_REQUESTS_PER_IP && j < K
    ensures Enabled(K, s, Count(j, Request(ip, j + 1), 0))
    ensures Fire(s, Count(j, Request(ip, j + 1), 0)) == s.(passed := Checks(ip, j + 1))
  {
    ChecksInFlight(ip, j);
    AllSelected(s.tracked, ip);
  }

  lemma AppendOne(K: nat, s: State, ip: IP, entries: nat, j: nat)
    requires Burst(s, ip, entries, j + 1)
    ensures Enabled(K, s, Append(j, 0))
    ensures Burst(Fire(s, Append(j, 0)), ip, entries + 1, j)
    ensures s.tracked == s.accepted ==> Fire(s, Append(j, 0)).tracked == Fire(s, Append(j, 0)).accepted
  {
    ChecksInFlight(ip, j);
    assert Checks(ip, j + 1) - {j} == Checks(ip, j);
  }

  /** Checks run one after the other, as long as the count allows. */
  lemma {:induction false} AcceptSerially(K: nat, ip: IP, entries: nat) returns (steps: seq<Step>)
    requires K >= 1 && entries < MAX_REQUESTS_PER_IP
    ensures IsRun(K, steps) && Burst(After(steps), ip, entries, 0) && After(steps).tracked == After(steps).accepted
  {
    steps := [];
    if entries > 0 {
      steps := AcceptSerially(K, ip, entries - 1);
      CountPasses(K, After(steps), ip, entries - 1, 0);
      steps := Extended(K, steps, Count(0, Request(ip, 1), 0));
      AppendOne(K, After(steps), ip, entries - 1, 0);
      steps := Extended(K, steps, Append(0, 0));
    }
  }

  /** Two connections accepted, and j further checks past their count. */
  lemma {:induction false} CountMany(K: nat, ip: IP, j: nat) returns (steps: seq<Step>)
    requires 1 <= K && j <= K
    ensures IsRun(K, steps) && Burst(After(steps), ip, 2, j) && After(steps).tracked == After(steps).accepted
  {
    if j == 0 {
      steps := AcceptSerially(K, ip, 2);
    } else {
      steps := CountMany(K, ip, j - 1);
      CountPasses(K, After(steps), ip, 2, j - 1);
      steps := Extended(K, steps, Count(j - 1, Request(ip, j), 0));
    }
  }

  /** Of the K checks that passed together, j have appended. */
  lemma {:induction false} AppendMany(K: nat, ip: IP, j: nat) returns (steps: seq<Step>)
    requires 1 <= K && j <= K
    ensures IsRun(K, steps) && Burst(After(steps), ip, 2 + j, K - j)
  {
    if j == 0 {
      steps := CountMany(K, ip, K);
    } else {
      steps := AppendMany(K, ip, j - 1);
      AppendOne(K, After(steps), ip, 1 + j, K - j);
      steps := Extended(K, steps, Append(K - j, 0));
    }
  }

  /** For every K some run accepts exactly 2 + K connections from one source in one instant. */
  lemma BoundIsReached(K: nat, ip: IP) returns (steps: seq<Step>)
    requires K >= 1
    ensures IsRun(K, steps)
    ensures |Select(After(steps).accepted, InWindow(ip, 0))| == 2 + K
  {
    steps := AppendMany(K, ip, K);
    AllSelected(After(steps).accepted, ip);
  }

  /** The configured limit holds in every run if and only if checks for a source never overlap. */
  lemma ConfiguredLimitIffSerialised(K: nat)
    requires K >= 1
    ensures (forall steps, ip, a :: IsRun(K, steps) ==>
              |Select(After(steps).accepted, InWindow(ip, a))| <= 3) <==> K == 1
  {
    if K == 1 {
      forall steps, ip, a | IsRun(K, steps)
        ensures |Select(After(steps).accepted, InWindow(ip, a))| <= 3
      {
        SlidingWindowLimit(K, steps, ip, a);
      }
    } else {
      var steps := BoundIsReached(K, NoIP);
    }
  }
}
