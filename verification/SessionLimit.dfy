/** The bound on running sessions per feeder and protocol is reached, so the configured limit holds in
    every run exactly when admissions for a feeder and protocol never overlap. */
module SessionLimit {
  import opened Common
  import opened Registry
  import opened Sessions
  import opened SessionNumbers
  import Tracker

  ghost function UpTo(n: nat): set<nat> {
    if n == 0 then {} else UpTo(n - 1) + {n - 1}
  }

  lemma {:induction false} UpToSize(n: nat)
    ensures |UpTo(n)| == n
    ensures forall i: nat :: i in UpTo(n) <==> i < n
  {
    if n > 0 {
      UpToSize(n - 1);
    }
  }

  /** n sessions of one feeder: the first r running, then those admitted up to m, the rest authenticated. */
  ghost predicate Crowd(s: State, key: ApiKey, r: nat, m: nat, n: nat) {
    && key in s.valid && s.advance == n
    && (forall i: nat :: i in s.sessions <==> i < n)
    && (forall i :: i in s.sessions ==>
          At(s.sessions[i], key, if i < r then Running else if i < m then Admitted else Authenticated))
  }

  ghost predicate At(t: Session, key: ApiKey, phase: Phase) {
    t.key == key && t.proto == BEAST && t.phase == phase
  }

  lemma SentIsValid(c: State, id: nat)
    requires Sound(c) && id in c.sessions && c.sessions[id].phase == Sent
    ensures ValidProtocol(c.sessions[id].proto)
  {
  }

  /** An action that is sure to succeed, as one more step of a run. */
  lemma ActDone(K: nat, s: State, steps: seq<Step>, id: nat, a: Act, at: Time) returns (longer: seq<Step>)
    requires Start(s) && IsRun(K, s, steps) && After(s, steps).advance <= s.M - 1
    requires id in After(s, steps).sessions && After(s, steps).now <= at
    requires Allowed(K, After(s, steps), After(s, steps).sessions[id], a, at)
    requires !a.Teardown? && (a.LoopDoes? ==> !a.act.Report?)
    ensures IsRun(K, s, longer) && longer == steps + [Does(id, a, at)]
    ensures var c, c' := After(s, steps), After(s, longer);
            && c'.advance == c.advance && c'.valid == c.valid && c'.revoked == c.revoked && c'.now == at
            && c'.sessions == c.sessions[id := Effect(c.sessions[id], a, at, Done, 0, 0)]
  {
    hide After, IsRun, Start, Apply, BytesOf, Good, Flat, Numbered, Mirrors, ProtocolsValid;
    var c := After(s, steps);
    RegistryMirrorsSessions(K, s, steps);
    FlatEffect(c, id, a, at, K);
    OneMore(K, s, steps, Does(id, a, at));
    longer := steps + [Does(id, a, at)];
    if a.Register? {
      SentIsValid(c, id);
    }
  }

  /** The same, in terms of what matters for the limit. */
  lemma ActExtended(K: nat, s: State, steps: seq<Step>, id: nat, a: Act) returns (longer: seq<Step>)
    requires Start(s) && IsRun(K, s, steps) && After(s, steps).advance <= s.M - 1
    requires id in After(s, steps).sessions
    requires Allowed(K, After(s, steps), After(s, steps).sessions[id], a, After(s, steps).now)
    requires !a.LoopDoes? && !a.Teardown?
    ensures IsRun(K, s, longer)
    ensures var c, c' := After(s, steps), After(s, longer);
            && c'.advance == c.advance && c'.valid == c.valid && c'.now == c.now
            && c'.sessions.Keys == c.sessions.Keys && id in c'.sessions
            && (forall i :: i in c.sessions && i != id ==> c'.sessions[i] == c.sessions[i])
            && Moved(c.sessions[id], a, c'.sessions[id])
  {
    hide After, IsRun, Start;
    longer := ActDone(K, s, steps, id, a, After(s, steps).now);
  }

  ghost predicate Moved(t: Session, a: Act, t': Session) {
    && t'.proto == t.proto && t'.key == (if a.LookUp? then a.key else t.key)
    && t'.phase == match a
                   case LookUp(_, _) => LookedUp
                   case Authenticate(_, _) => Authenticated
                   case Admit => Admitted
                   case SendFirst => Sent
                   case Register(_, _, _) => Running
                   case GiveUp => GaveUp
                   case _ => t.phase
  }

  lemma {:induction false} JoinAll(K: nat, s: State, key: ApiKey, n: nat) returns (steps: seq<Step>)
    requires K >= 1 && Start(s) && key in s.valid && n <= s.M - 1
    ensures IsRun(K, s, steps) && Crowd(After(s, steps), key, 0, 0, n)
  {
    steps := [];
    assert After(s, steps) == s && IsRun(K, s, steps);
    if n > 0 {
      steps := JoinAll(K, s, key, n - 1);
      steps := JoinOne(K, s, key, n - 1, steps);
    }
  }

  lemma JoinOne(K: nat, s: State, key: ApiKey, n: nat, steps: seq<Step>) returns (longer: seq<Step>)
    requires K >= 1 && Start(s) && n + 1 <= s.M - 1
    requires IsRun(K, s, steps) && Crowd(After(s, steps), key, 0, 0, n)
    ensures IsRun(K, s, longer) && Crowd(After(s, longer), key, 0, 0, n + 1)
  {
    hide After, IsRun, Numbered, OpFor, Apply, Tracker.Candidate;
    var c := After(s, steps);
    NumberedAlways(K, s, steps);
    NumberedBounds(c);
    OneMore(K, s, steps, Accept(n, 1, BEAST, 0, c.now));
    var mid := steps + [Accept(n, 1, BEAST, 0, c.now)];
    var c1 := After(s, mid);
    assert n in c1.sessions && c1.sessions[n].phase == New;
    longer := ActExtended(K, s, mid, n, LookUp(key, []));
    longer := ActExtended(K, s, longer, n, Authenticate("", ""));
    var c2 := After(s, longer);
    assert forall i :: i in c2.sessions <==> i in c1.sessions.Keys;
  }

  lemma NumberedBounds(s: State)
    requires Numbered(s)
    ensures s.M >= 2 && s.counter < s.M
  {
  }

  lemma {:induction false} AdmitAll(K: nat, s: State, key: ApiKey, m: nat) returns (steps: seq<Step>)
    requires K >= 1 && Start(s) && key in s.valid && m <= K <= s.M - 1
    ensures IsRun(K, s, steps) && Crowd(After(s, steps), key, 0, m, K)
  {
    if m == 0 {
      steps := JoinAll(K, s, key, K);
    } else {
      steps := AdmitAll(K, s, key, m - 1);
      steps := AdmitOne(K, s, key, m - 1, steps);
    }
  }

  lemma AdmitOne(K: nat, s: State, key: ApiKey, m: nat, steps: seq<Step>) returns (longer: seq<Step>)
    requires Start(s) && m < K <= s.M - 1
    requires IsRun(K, s, steps) && Crowd(After(s, steps), key, 0, m, K)
    ensures IsRun(K, s, longer) && Crowd(After(s, longer), key, 0, m + 1, K)
  {
    hide After, IsRun, Sound, GetNumConnections;
    var c := After(s, steps);
    RegistryMirrorsSessions(K, s, steps);
    CountIsLive(c, key, BEAST);
    assert Live(c, key, BEAST) == {};
    UpToSize(m);
    assert Pending(c, key, BEAST) == UpTo(m);
    longer := ActExtended(K, s, steps, m, Admit);
    var c' := After(s, longer);
    assert forall i :: i in c'.sessions <==> i in c.sessions.Keys;
  }

  lemma {:induction false} RunAll(K: nat, s: State, key: ApiKey, r: nat) returns (steps: seq<Step>)
    requires K >= 1 && Start(s) && key in s.valid && r <= K <= s.M - 1
    ensures IsRun(K, s, steps) && Crowd(After(s, steps), key, r, K, K)
  {
    if r == 0 {
      steps := AdmitAll(K, s, key, K);
    } else {
      steps := RunAll(K, s, key, r - 1);
      steps := RunOne(K, s, key, r - 1, steps);
    }
  }

  lemma RunOne(K: nat, s: State, key: ApiKey, r: nat, steps: seq<Step>) returns (longer: seq<Step>)
    requires Start(s) && r < K <= s.M - 1
    requires IsRun(K, s, steps) && Crowd(After(s, steps), key, r, K, K)
    ensures IsRun(K, s, longer) && Crowd(After(s, longer), key, r + 1, K, K)
  {
    hide After, IsRun, Pending;
    var c := After(s, steps);
    var mid := ActExtended(K, s, steps, r, SendFirst);
    longer := ActExtended(K, s, mid, r, Register("", "", 0));
    var c' := After(s, longer);
    assert forall i :: i in c'.sessions <==> i in c.sessions.Keys;
  }

  /** For every K some run has K sessions of one feeder and protocol registered at once. */
  lemma LimitIsReached(K: nat, s: State, key: ApiKey) returns (steps: seq<Step>)
    requires K >= 1 && Start(s) && key in s.valid && K <= s.M - 1
    ensures IsRun(K, s, steps) && After(s, steps).advance <= s.M - 1
    ensures GetNumConnections(After(s, steps).reg, key, BEAST) == K
  {
    hide After, IsRun, Sound, GetNumConnections;
    steps := RunAll(K, s, key, K);
    RegistryMirrorsSessions(K, s, steps);
    CountIsLive(After(s, steps), key, BEAST);
    UpToSize(K);
    assert Live(After(s, steps), key, BEAST) == UpTo(K);
  }

  /** The configured limit is kept in every run if and only if no two sessions of a feeder and
      protocol are ever between the limit check and registration together. */
  lemma ConfiguredLimitIffSerialised(K: nat, s: State)
    requires K >= 1 && Start(s) && s.valid != {} && K <= s.M - 1
    ensures (forall steps, key, proto :: IsRun(K, s, steps) && After(s, steps).advance <= s.M - 1 ==>
              GetNumConnections(After(s, steps).reg, key, proto) <= 1) <==> K == 1
  {
    hide After, IsRun, Start, GetNumConnections;
    if K == 1 {
      forall steps, key, proto | IsRun(K, s, steps) && After(s, steps).advance <= s.M - 1
        ensures GetNumConnections(After(s, steps).reg, key, proto) <= 1
      {
        ConnectionLimit(K, s, steps, key, proto);
      }
    } else {
      var key :| key in s.valid;
      var steps := LimitIsReached(K, s, key);
    }
  }
}
