/** The rate limiter in front of the sessions: a session is looked up only after the check of its source
    address has let it pass, so few sessions of one source get that far in any ten seconds. */
module Admission {
  import opened Common
  import opened MapSum
  import opened Sessions
  import opened Tracker
  import RateLimit
  import Registry
  import SessionLimit
  import SessionNumbers

  /** Per session: its source, its place in the history of accepted connections, and when its key was
      looked up. */
  datatype Gate = Gate(
    s: State, limiter: RateLimit.State, source: map<nat, IP>, place: map<nat, nat>, lookedUp: map<nat, Time>)

  datatype Move =
    | Arrives(id: nat, ip: IP, accept: Step)   // a connection is accepted
    | Counts(id: nat, at: Time)                // first lock section of its check
    | Tracks(id: nat, at: Time)                // second lock section
    | Evicts(clock: seq<Time>, at: Time)
    | Goes(step: Step)                         // any other step of any session

  function Asked(g: Gate, id: nat): RateLimit.Request
    requires id in g.source && id in g.s.sessions
  {
    RateLimit.Request(g.source[id], g.s.sessions[id].num)
  }

  /** L bounds the overlapping checks of one source, K the overlapping admissions of one feeder. */
  ghost predicate Enabled(L: nat, K: nat, g: Gate, move: Move) {
    match move
    case Arrives(id, _, accept) => accept.Accept? && accept.id == id && Sessions.Enabled(K, g.s, accept)
    case Counts(id, at) =>
      && id in g.s.sessions && id in g.source && g.s.sessions[id].phase == New && id !in g.place
      && RateLimit.Enabled(L, g.limiter, RateLimit.Count(id, Asked(g, id), at))
    case Tracks(id, at) => RateLimit.Enabled(L, g.limiter, RateLimit.Append(id, at))
    case Evicts(clock, at) => RateLimit.Enabled(L, g.limiter, RateLimit.Evict(clock, at))
    case Goes(step) =>
      && !step.Accept? && Sessions.Enabled(K, g.s, step)
      && (LooksUp(step) ==> step.id in g.place && g.limiter.now <= step.at)
  }

  predicate LooksUp(step: Step) {
    step.Does? && step.a.LookUp?
  }

  ghost function Fire(g: Gate, move: Move): Gate {
    match move
    case Arrives(id, ip, accept) => g.(s := Sessions.Fire(g.s, accept), source := g.source[id := ip])
    case Counts(id, at) =>
      if id !in g.source || id !in g.s.sessions then g
      else g.(limiter := RateLimit.Fire(g.limiter, RateLimit.Count(id, Asked(g, id), at)))
    case Tracks(id, at) =>
      g.(limiter := RateLimit.Fire(g.limiter, RateLimit.Append(id, at)), place := g.place[id := |g.limiter.accepted|])
    case Evicts(clock, at) => g.(limiter := RateLimit.Fire(g.limiter, RateLimit.Evict(clock, at)))
    case Goes(step) =>
      g.(s := Sessions.Fire(g.s, step),
         lookedUp := if LooksUp(step) then g.lookedUp[step.id := step.at] else g.lookedUp)
  }

  ghost function After(s: State, moves: seq<Move>): Gate {
    if moves == [] then Gate(s, RateLimit.START, map[], map[], map[])
    else Fire(After(s, moves[..|moves| - 1]), moves[|moves| - 1])
  }

  ghost predicate IsRun(L: nat, K: nat, s: State, moves: seq<Move>) {
    moves == [] ||
    (IsRun(L, K, s, moves[..|moves| - 1]) && Enabled(L, K, After(s, moves[..|moves| - 1]), moves[|moves| - 1]))
  }

  // ---- each side of a run is a run of its own machine

  ghost function LimiterSteps(g: Gate, move: Move): seq<RateLimit.Step> {
    match move
    case Counts(id, at) =>
      if id !in g.source || id !in g.s.sessions then [] else [RateLimit.Count(id, Asked(g, id), at)]
    case Tracks(id, at) => [RateLimit.Append(id, at)]
    case Evicts(clock, at) => [RateLimit.Evict(clock, at)]
    case _ => []
  }

  ghost function SessionSteps(move: Move): seq<Step> {
    match move
    case Arrives(_, _, accept) => [accept]
    case Goes(step) => [step]
    case _ => []
  }

  ghost function Limiter(s: State, moves: seq<Move>): seq<RateLimit.Step> {
    if moves == [] then []
    else Limiter(s, moves[..|moves| - 1]) + LimiterSteps(After(s, moves[..|moves| - 1]), moves[|moves| - 1])
  }

  ghost function Session(moves: seq<Move>): seq<Step> {
    if moves == [] then [] else Session(moves[..|moves| - 1]) + SessionSteps(moves[|moves| - 1])
  }

  lemma LimiterMoves(L: nat, K: nat, g: Gate, move: Move)
    requires Enabled(L, K, g, move)
    ensures var steps := LimiterSteps(g, move);
            && |steps| <= 1 && (steps != [] ==> RateLimit.Enabled(L, g.limiter, steps[0]))
            && Fire(g, move).limiter == if steps == [] then g.limiter else RateLimit.Fire(g.limiter, steps[0])
  {
    hide RateLimit.Fire, RateLimit.Enabled, Sessions.Fire;
  }

  lemma SessionMoves(L: nat, K: nat, g: Gate, move: Move)
    requires Enabled(L, K, g, move)
    ensures var steps := SessionSteps(move);
            && |steps| <= 1 && (steps != [] ==> Sessions.Enabled(K, g.s, steps[0]))
            && Fire(g, move).s == if steps == [] then g.s else Sessions.Fire(g.s, steps[0])
  {
    hide RateLimit.Fire, RateLimit.Enabled, Sessions.Fire;
  }

  lemma OneMoreLimit(L: nat, steps: seq<RateLimit.Step>, step: RateLimit.Step)
    requires RateLimit.IsRun(L, steps) && RateLimit.Enabled(L, RateLimit.After(steps), step)
    ensures RateLimit.IsRun(L, steps + [step])
    ensures RateLimit.After(steps + [step]) == RateLimit.Fire(RateLimit.After(steps), step)
  {
    assert (steps + [step])[..|steps|] == steps;
  }

  /** Behind the gate the limiter and the sessions run as they do on their own. */
  lemma {:induction false} BothSidesRun(L: nat, K: nat, s: State, moves: seq<Move>)
    requires IsRun(L, K, s, moves)
    ensures RateLimit.IsRun(L, Limiter(s, moves)) && After(s, moves).limiter == RateLimit.After(Limiter(s, moves))
    ensures Sessions.IsRun(K, s, Session(moves)) && After(s, moves).s == Sessions.After(s, Session(moves))
  {
    hide Fire, Enabled, LimiterSteps, SessionSteps, RateLimit.Fire, RateLimit.Enabled, Sessions.Fire, Sessions.Enabled;
    if moves != [] {
      var prefix, move := moves[..|moves| - 1], moves[|moves| - 1];
      var g := After(s, prefix);
      BothSidesRun(L, K, s, prefix);
      LimiterMoves(L, K, g, move);
      SessionMoves(L, K, g, move);
      var l, t := LimiterSteps(g, move), SessionSteps(move);
      if l == [] {
        assert Limiter(s, prefix) + l == Limiter(s, prefix);
      } else {
        assert l == [l[0]];
        OneMoreLimit(L, Limiter(s, prefix), l[0]);
      }
      if t == [] {
        assert Session(prefix) + t == Session(prefix);
      } else {
        assert t == [t[0]];
        Sessions.OneMore(K, s, Session(prefix), t[0]);
      }
    }
  }

  // ---- every looked-up session has its own place among the accepted connections

  ghost predicate Placed(g: Gate) {
    && (forall id :: id in g.place ==> HasPlace(g, id))
    && (forall i, j :: i in g.place && j in g.place && g.place[i] == g.place[j] ==> i == j)
    && (forall id :: id in g.limiter.passed ==> Passing(g, id))
    && (forall id :: id in g.lookedUp ==> id in g.place && Accepted(g, id) <= g.lookedUp[id])
    && (forall id :: id in g.source ==> id in g.s.sessions)
    && (forall i :: 0 <= i < |g.limiter.accepted| ==> g.limiter.accepted[i].connTime <= g.limiter.now)
  }

  ghost predicate HasPlace(g: Gate, id: nat) {
    id in g.place && id in g.source && g.place[id] < |g.limiter.accepted|
    && g.limiter.accepted[g.place[id]].srcIP == g.source[id]
  }

  ghost predicate Passing(g: Gate, id: nat) {
    id in g.limiter.passed && id in g.source && id !in g.place && g.limiter.passed[id].ip == g.source[id]
  }

  /** When a session's connection was accepted by the limiter. */
  ghost function Accepted(g: Gate, id: nat): Time {
    if HasPlace(g, id) then g.limiter.accepted[g.place[id]].connTime else 0
  }

  lemma StepKeepsSessions(K: nat, s: State, step: Step)
    requires Sessions.Enabled(K, s, step)
    ensures s.sessions.Keys <= Sessions.Fire(s, step).sessions.Keys
  {
    hide Effect, RegAfter, OpFor, BytesOf, Tracker.Candidate, Allowed;
  }

  lemma GoPlaced(L: nat, K: nat, g: Gate, move: Move)
    requires Placed(g) && Enabled(L, K, g, move) && (move.Goes? || move.Evicts?)
    ensures Placed(Fire(g, move))
  {
    hide Sessions.Fire, Sessions.Enabled, Kept;
    var g' := Fire(g, move);
    if move.Goes? {
      StepKeepsSessions(K, g.s, move.step);
    }
    forall id | id in g'.place ensures HasPlace(g', id) && Accepted(g', id) == Accepted(g, id) {
      assert HasPlace(g, id);
    }
    forall id | id in g'.limiter.passed ensures Passing(g', id) {
      assert Passing(g, id);
    }
  }

  lemma ArrivePlaced(L: nat, K: nat, g: Gate, move: Move)
    requires Placed(g) && Enabled(L, K, g, move) && move.Arrives? && g.s.M >= 2 && g.s.counter < g.s.M
    ensures Placed(Fire(g, move))
  {
    hide Tracker.Candidate;
    var g' := Fire(g, move);
    forall id | id in g'.place ensures HasPlace(g', id) && Accepted(g', id) == Accepted(g, id) {
      assert HasPlace(g, id);
    }
    forall id | id in g'.limiter.passed ensures Passing(g', id) {
      assert Passing(g, id);
    }
  }

  lemma CountPlaced(L: nat, K: nat, g: Gate, move: Move)
    requires Placed(g) && Enabled(L, K, g, move) && move.Counts?
    ensures Placed(Fire(g, move))
  {
    hide From;
    var g' := Fire(g, move);
    forall id | id in g'.place ensures HasPlace(g', id) && Accepted(g', id) == Accepted(g, id) {
      assert HasPlace(g, id);
    }
    forall id | id in g'.limiter.passed ensures Passing(g', id) {
      assert id != move.id ==> Passing(g, id);
    }
  }

  lemma TrackPlaced(L: nat, K: nat, g: Gate, move: Move)
    requires Placed(g) && Enabled(L, K, g, move) && move.Tracks?
    ensures Placed(Fire(g, move))
  {
    var g' := Fire(g, move);
    assert Passing(g, move.id);
    forall id | id in g'.place && id != move.id ensures HasPlace(g', id) && Accepted(g', id) == Accepted(g, id) {
      assert HasPlace(g, id);
    }
    assert HasPlace(g', move.id);
    forall id | id in g'.limiter.passed ensures Passing(g', id) {
      assert Passing(g, id);
    }
  }

  lemma {:induction false} PlacedAlways(L: nat, K: nat, s: State, moves: seq<Move>)
    requires Start(s) && IsRun(L, K, s, moves)
    ensures Placed(After(s, moves))
  {
    hide Fire, Enabled, Placed, Start, SessionNumbers.Numbered;
    if moves == [] {
      NothingPlaced(s);
    } else {
      var prefix, move := moves[..|moves| - 1], moves[|moves| - 1];
      var g := After(s, prefix);
      PlacedAlways(L, K, s, prefix);
      BothSidesRun(L, K, s, prefix);
      SessionNumbers.NumberedAlways(K, s, Session(prefix));
      SessionLimit.NumberedBounds(g.s);
      match move
      case Arrives(_, _, _) => ArrivePlaced(L, K, g, move);
      case Counts(_, _) => CountPlaced(L, K, g, move);
      case Tracks(_, _) => TrackPlaced(L, K, g, move);
      case Evicts(_, _) => GoPlaced(L, K, g, move);
      case Goes(_) => GoPlaced(L, K, g, move);
    }
  }

  lemma NothingPlaced(s: State)
    ensures Placed(Gate(s, RateLimit.START, map[], map[], map[]))
  {
  }

  // ---- counting

  /** Distinct positions that satisfy p are no more than the entries that do. */
  lemma {:induction false} PositionsSelected(s: seq<Entry>, p: Entry -> bool, positions: set<nat>)
    requires forall i :: i in positions ==> i < |s| && p(s[i])
    ensures |positions| <= |Select(s, p)|
  {
    if s == [] {
      assert positions == {};
    } else {
      var n: nat := |s| - 1;
      PositionsSelected(s[..n], p, positions - {n});
      if n in positions {
        assert p(s[n]);
      } else {
        assert positions - {n} == positions;
      }
    }
  }

  /** The sessions from `ip` whose connection was accepted in the window that starts at a. */
  ghost function AcceptedIn(g: Gate, ip: IP, a: Time): set<nat> {
    set id | id in g.place && g.source.Keys >= {id} && g.source[id] == ip && a <= Accepted(g, id) <= a + WINDOW
  }

  lemma PlacesCount(g: Gate, ip: IP, a: Time)
    requires Placed(g)
    ensures |AcceptedIn(g, ip, a)| <= |Select(g.limiter.accepted, RateLimit.InWindow(ip, a))|
  {
    hide Select;
    var ids := AcceptedIn(g, ip, a);
    var f := (id: nat) => if id in g.place then g.place[id] else 0;
    var positions := set id | id in ids :: f(id);
    SameSize(ids, positions, f);
    forall i | i in positions
      ensures i < |g.limiter.accepted| && RateLimit.InWindow(ip, a)(g.limiter.accepted[i])
    {
      var id :| id in ids && f(id) == i;
      assert HasPlace(g, id);
    }
    PositionsSelected(g.limiter.accepted, RateLimit.InWindow(ip, a), positions);
  }

  lemma WindowBound(L: nat, K: nat, s: State, moves: seq<Move>, ip: IP, a: Time)
    requires L >= 1 && Start(s) && IsRun(L, K, s, moves)
    ensures |AcceptedIn(After(s, moves), ip, a)| <= 2 + L
  {
    hide After, IsRun, Start, Select, Placed, AcceptedIn, Sessions.After, Sessions.IsRun, RateLimit.After,
         RateLimit.IsRun;
    PlacedAlways(L, K, s, moves);
    BothSidesRun(L, K, s, moves);
    RateLimit.SlidingWindowLimit(L, Limiter(s, moves), ip, a);
    PlacesCount(After(s, moves), ip, a);
  }

  /** The sessions from `ip` looked up in the window that starts at a, no later than n windows after their
      connection was accepted. */
  ghost function LookedUpIn(g: Gate, ip: IP, a: Time, n: nat): set<nat> {
    set id | id in g.lookedUp && g.source.Keys >= {id} && g.source[id] == ip && a <= g.lookedUp[id] <= a + WINDOW
             && g.lookedUp[id] - Accepted(g, id) <= n * WINDOW
  }

  /** The sessions from `ip` accepted in one of the windows that start at a, a - WINDOW, .., a - n * WINDOW. */
  ghost function AcceptedBack(g: Gate, ip: IP, a: Time, n: nat): set<nat>
    decreases n
  {
    AcceptedIn(g, ip, a) + if n == 0 then {} else AcceptedBack(g, ip, a - WINDOW, n - 1)
  }

  lemma {:induction false} BackBound(g: Gate, ip: IP, a: Time, n: nat, bound: nat)
    requires forall b :: |AcceptedIn(g, ip, b)| <= bound
    ensures |AcceptedBack(g, ip, a, n)| <= (n + 1) * bound
    decreases n
  {
    hide AcceptedIn;
    if n > 0 {
      BackBound(g, ip, a - WINDOW, n - 1, bound);
      assert (n + 1) * bound == bound + n * bound;
    }
  }

  lemma {:induction false} InSomeWindow(g: Gate, ip: IP, a: Time, n: nat, id: nat)
    requires id in g.place && id in g.source && g.source[id] == ip && a - n * WINDOW <= Accepted(g, id) <= a + WINDOW
    ensures id in AcceptedBack(g, ip, a, n)
    decreases n
  {
    hide Accepted;
    if n > 0 && Accepted(g, id) < a {
      InSomeWindow(g, ip, a - WINDOW, n - 1, id);
    }
  }

  lemma AllInSomeWindow(g: Gate, ip: IP, a: Time, n: nat)
    requires Placed(g)
    ensures LookedUpIn(g, ip, a, n) <= AcceptedBack(g, ip, a, n)
  {
    hide AcceptedBack, Accepted;
    forall id | id in LookedUpIn(g, ip, a, n) ensures id in AcceptedBack(g, ip, a, n) {
      InSomeWindow(g, ip, a, n, id);
    }
  }

  /** In every run, of the sessions from one source at most (n + 1) * (2 + L) are looked up within any closed
      window of ten seconds, counting those that took no more than n windows from their check to the look-up;
      a client is given one window for its handshake. */
  lemma SessionsPerSource(L: nat, K: nat, s: State, moves: seq<Move>, ip: IP, a: Time, n: nat)
    requires L >= 1 && Start(s) && IsRun(L, K, s, moves)
    ensures |LookedUpIn(After(s, moves), ip, a, n)| <= (n + 1) * (2 + L)
  {
    hide After, IsRun, Start, AcceptedBack, AcceptedIn, LookedUpIn, Placed;
    var g := After(s, moves);
    PlacedAlways(L, K, s, moves);
    forall b ensures |AcceptedIn(g, ip, b)| <= 2 + L {
      WindowBound(L, K, s, moves, ip, b);
    }
    BackBound(g, ip, a, n, 2 + L);
    AllInSomeWindow(g, ip, a, n);
    SessionNumbers.Smaller(LookedUpIn(g, ip, a, n), AcceptedBack(g, ip, a, n));
  }

  // ---- nobody gets past the gate otherwise

  /** A session that got past its look-up. */
  predicate PastLookUp(t: Sessions.Session) {
    t.phase != New && t.phase != GaveUp
  }

  ghost predicate OnlyLookedUp(g: Gate) {
    forall id :: id in g.s.sessions && PastLookUp(g.s.sessions[id]) ==> id in g.lookedUp
  }

  lemma ActPast(
    K: nat, s: State, t: Sessions.Session, a: Act, at: Time, o: Registry.Outcome, bytesIn: U64, bytesOut: U64)
    requires Sessions.Allowed(K, s, t, a, at) && PastLookUp(Effect(t, a, at, o, bytesIn, bytesOut))
    ensures PastLookUp(t) || a.LookUp?
  {
    hide LoopNext;
  }

  lemma OnlyLookedUpKept(L: nat, K: nat, g: Gate, move: Move)
    requires OnlyLookedUp(g) && Enabled(L, K, g, move) && g.s.M >= 2 && g.s.counter < g.s.M
    ensures OnlyLookedUp(Fire(g, move))
  {
    hide Effect, RegAfter, OpFor, BytesOf, Tracker.Candidate, Allowed, PastLookUp, RateLimit.Fire, Registry.EvictStale;
    if move.Arrives? {
      NewIsNotPast(NewSession(g.s.advance + move.accept.increments,
                              Tracker.Candidate(g.s.M, g.s.counter, move.accept.increments),
                              move.accept.proto, move.accept.interval));
    } else if move.Goes? && move.step.Does? {
      var step := move.step;
      var t := g.s.sessions[step.id];
      var (reg, o) := RegAfter(g.s.reg, OpFor(t, step.a, step.at));
      var (bytesIn, bytesOut) := BytesOf(g.s.reg, KeyFor(t));
      if PastLookUp(Effect(t, step.a, step.at, o, bytesIn, bytesOut)) {
        ActPast(K, g.s, t, step.a, step.at, o, bytesIn, bytesOut);
      }
    }
  }

  lemma NewIsNotPast(t: Sessions.Session)
    requires t.phase == New
    ensures !PastLookUp(t)
  {
  }

  /** In every run each session past its look-up was let pass by the limiter before. */
  lemma {:induction false} EverySessionWasLetPass(L: nat, K: nat, s: State, moves: seq<Move>, id: nat)
    requires Start(s) && IsRun(L, K, s, moves)
    requires id in After(s, moves).s.sessions && PastLookUp(After(s, moves).s.sessions[id])
    ensures var g := After(s, moves);
            id in g.lookedUp && HasPlace(g, id) && Accepted(g, id) <= g.lookedUp[id]
  {
    hide After, IsRun, Start, HasPlace, Accepted;
    PlacedAlways(L, K, s, moves);
    OnlyLookedUpAlways(L, K, s, moves);
  }

  lemma {:induction false} OnlyLookedUpAlways(L: nat, K: nat, s: State, moves: seq<Move>)
    requires Start(s) && IsRun(L, K, s, moves)
    ensures OnlyLookedUp(After(s, moves))
  {
    hide Fire, Enabled, OnlyLookedUp, Start, SessionNumbers.Numbered;
    if moves == [] {
      NobodyYet(s);
    } else {
      var prefix, move := moves[..|moves| - 1], moves[|moves| - 1];
      OnlyLookedUpAlways(L, K, s, prefix);
      BothSidesRun(L, K, s, prefix);
      SessionNumbers.NumberedAlways(K, s, Session(prefix));
      SessionLimit.NumberedBounds(After(s, prefix).s);
      OnlyLookedUpKept(L, K, After(s, prefix), move);
    }
  }

  lemma NobodyYet(s: State)
    requires Start(s)
    ensures OnlyLookedUp(After(s, []))
  {
  }
}
