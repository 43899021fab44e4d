/** What a session carries: both byte streams are faithful at every step, and the registry's counters
    account for every byte delivered except those read before registration and those not reported yet. */
module SessionStreams {
  import opened Common
  import opened Registry
  import opened Sessions
  import opened SessionNumbers
  import Tracker

  // ---- the streams

  /** Bytes read but not delivered: on their way to the other side, or lost to a failed write. */
  function InHand(l: Loop): seq<Byte> {
    if HasChunk(l.pc) then l.pc.chunk else l.lost
  }

  predicate LoopSound(l: Loop) {
    && |InHand(l)| <= BUFFER_SIZE
    && (l.lost != [] ==> l.pc == Returned || l.pc == Ended)
    && (l.pc == NotStarted ==> l == IDLE)
    && (l.pc == Launching ==> l.byteCount == 0 && l.iterations == 0)
  }

  /** Everything delivered so far is the bytes read so far, in order, less those in hand. */
  predicate Faithful(t: Session) {
    && LoopSound(t.up) && LoopSound(t.down)
    && match t.phase
       case New => t.up == IDLE && t.down == IDLE && t.toServer == [] && t.toClient == []
       case LookedUp => t.up == IDLE && t.down == IDLE && t.toServer == [] && t.toClient == []
       case Authenticated => t.up == IDLE && t.down == IDLE && t.toServer == [] && t.toClient == []
       case Admitted => t.up == IDLE && t.down == IDLE && t.toServer == [] && t.toClient == []
       case Sent => t.up == IDLE && t.down == IDLE && t.toServer == t.first && t.toClient == []
       case GaveUp => t.up == IDLE && t.down == IDLE && t.toClient == []
       case _ => t.toServer + InHand(t.up) == t.first + t.up.taken && t.toClient + InHand(t.down) == t.down.taken
  }

  /** One direction: `sent` was delivered of `first` and what the loop took. */
  lemma LoopStepCarries(t: Session, up: bool, act: LoopAct, at: Time, o: Outcome, valid: set<ApiKey>,
                        first: seq<Byte>, sent: seq<Byte>)
    requires LoopAllowed(t, up, act, at, valid) && LoopSound(LoopOf(t, up))
    requires sent + InHand(LoopOf(t, up)) == first + LoopOf(t, up).taken
    ensures var l, l' := LoopOf(t, up), LoopNext(LoopOf(t, up), act, at, o);
            && (act.Wrote? ==> l.pc.Write?)
            && LoopSound(l') && (sent + if act.Wrote? then l.pc.chunk else []) + InHand(l') == first + l'.taken
  {
    var l := LoopOf(t, up);
    if act.GotChunk? {
      assert sent + InHand(l) == sent;
      assert first + (l.taken + act.chunk) == (first + l.taken) + act.chunk;
    }
  }

  lemma LoopStepFaithful(t: Session, up: bool, act: LoopAct, at: Time, o: Outcome, valid: set<ApiKey>)
    requires t.phase == Running && Faithful(t) && LoopAllowed(t, up, act, at, valid)
    ensures Faithful(LoopEffect(t, up, act, at, o))
  {
    hide LoopNext, LoopAllowed, LoopSound, InHand;
    LoopStepCarries(t, up, act, at, o, valid, if up then t.first else [], if up then t.toServer else t.toClient);
    assert t.toServer + [] == t.toServer && t.toClient + [] == t.toClient && [] + t.down.taken == t.down.taken;
    var l' := LoopNext(LoopOf(t, up), act, at, o);
    assert [] + l'.taken == l'.taken;
  }

  lemma StepFaithful(K: nat, s: State, t: Session, a: Act, at: Time, o: Outcome, bytesIn: U64, bytesOut: U64)
    requires Faithful(t) && Allowed(K, s, t, a, at)
    ensures Faithful(Effect(t, a, at, o, bytesIn, bytesOut))
  {
    hide GetNumConnections, LoopEffect, LoopAllowed;
    if a.LoopDoes? {
      LoopStepFaithful(t, a.up, a.act, at, o, s.valid);
    }
  }

  ghost predicate AllFaithful(s: State) {
    forall i :: i in s.sessions ==> Faithful(s.sessions[i])
  }

  lemma FaithfulKept(K: nat, s: State, step: Step)
    requires AllFaithful(s) && Enabled(K, s, step)
    ensures AllFaithful(Fire(s, step))
  {
    hide Effect, Allowed, RegAfter, EvictStale, OpFor, BytesOf, Tracker.Candidate;
    if step.Does? {
      var t := s.sessions[step.id];
      var (reg, o) := RegAfter(s.reg, OpFor(t, step.a, step.at));
      var (bytesIn, bytesOut) := BytesOf(s.reg, KeyFor(t));
      StepFaithful(K, s, t, step.a, step.at, o, bytesIn, bytesOut);
    }
  }

  lemma {:induction false} FaithfulAlways(K: nat, s: State, steps: seq<Step>)
    requires Start(s) && IsRun(K, s, steps)
    ensures AllFaithful(After(s, steps))
  {
    hide Fire, Enabled, Faithful;
    if steps != [] {
      FaithfulAlways(K, s, steps[..|steps| - 1]);
      FaithfulKept(K, After(s, steps[..|steps| - 1]), steps[|steps| - 1]);
    }
  }

  /** In every run and either direction, what was delivered is a prefix of what was read, in read
      order; it falls short of it only by one chunk being written or lost to a failed write. */
  lemma StreamsAreFaithful(K: nat, s: State, steps: seq<Step>, id: nat)
    requires Start(s) && IsRun(K, s, steps) && id in After(s, steps).sessions
    requires After(s, steps).sessions[id].phase == Running || After(s, steps).sessions[id].phase == Finished
    ensures var t := After(s, steps).sessions[id];
            && t.toServer <= t.first + t.up.taken && t.toClient <= t.down.taken
            && |t.first + t.up.taken| - |t.toServer| <= 32000 && |t.down.taken| - |t.toClient| <= 32000
            && (!HasChunk(t.up.pc) && t.up.lost == [] ==> t.toServer == t.first + t.up.taken)
            && (!HasChunk(t.down.pc) && t.down.lost == [] ==> t.toClient == t.down.taken)
  {
    hide After, IsRun, Start;
    FaithfulAlways(K, s, steps);
    var t := After(s, steps).sessions[id];
    assert Faithful(t);
    assert |t.toServer| + |InHand(t.up)| == |t.first + t.up.taken|;
    assert t.toServer == (t.toServer + InHand(t.up))[..|t.toServer|];
    assert t.toClient == (t.toClient + InHand(t.down))[..|t.toClient|];
    if InHand(t.up) == [] {
      assert t.toServer + InHand(t.up) == t.toServer;
    }
    if InHand(t.down) == [] {
      assert t.toClient + InHand(t.down) == t.toClient;
    }
  }

  // ---- the accounts

  /** Of `total` bytes the registry counted `counter` and the loop still holds `residual`; both are
      exact up to 64-bit wrap-around. */
  ghost predicate Accounted(total: int, counter: U64, residual: U64) {
    exists held: nat :: IsSplit(total, held, counter, residual)
  }

  ghost predicate IsSplit(total: int, held: nat, counter: U64, residual: U64) {
    held <= total && residual == held % TWO_TO_THE_64 && counter == (total - held) % TWO_TO_THE_64
  }

  lemma AccountedStart()
    ensures Accounted(0, 0, 0)
  {
    assert IsSplit(0, 0, 0, 0);
  }

  lemma ModuloSum(a: int, b: int)
    ensures (a % TWO_TO_THE_64 + b % TWO_TO_THE_64) % TWO_TO_THE_64 == (a + b) % TWO_TO_THE_64
  {
  }

  lemma AccountedWrote(total: int, counter: U64, residual: U64, n: nat)
    requires Accounted(total, counter, residual)
    ensures Accounted(total + n, counter, Add64(residual, n % TWO_TO_THE_64))
  {
    var held: nat :| IsSplit(total, held, counter, residual);
    ModuloSum(held, n);
    assert IsSplit(total + n, held + n, counter, Add64(residual, n % TWO_TO_THE_64));
  }

  lemma AccountedReported(total: int, counter: U64, residual: U64)
    requires Accounted(total, counter, residual)
    ensures Accounted(total, Add64(counter, residual), 0)
  {
    var held: nat :| IsSplit(total, held, counter, residual);
    ModuloSum(total - held, held);
    assert IsSplit(total, 0, Add64(counter, residual), 0);
  }

  /** The registry never over-reports, and up to 2^64 bytes counter and residual add up exactly. */
  lemma AccountedMeans(total: int, counter: U64, residual: U64)
    requires Accounted(total, counter, residual)
    ensures Same64(total, counter + residual) && counter <= total
    ensures total < TWO_TO_THE_64 ==> counter + residual == total
  {
    var held: nat :| IsSplit(total, held, counter, residual);
    Same64Plus(held, residual, total - held, counter);
  }

  /** The two directions of a session against the counters of its connection. */
  ghost predicate Balanced(t: Session, bytesIn: U64, bytesOut: U64) {
    && Accounted(|t.toServer| - |t.first|, bytesIn, t.up.byteCount)
    && Accounted(|t.toClient|, bytesOut, t.down.byteCount)
  }

  ghost predicate BooksFor(s: State, i: nat) {
    i in s.sessions ==>
      var t := s.sessions[i];
      && (t.phase == Running ==>
            KeyFor(t) in Flat(s.reg) && Balanced(t, Flat(s.reg)[KeyFor(t)].bytesIn, Flat(s.reg)[KeyFor(t)].bytesOut))
      && (t.phase == Finished ==> Balanced(t, t.finalIn, t.finalOut))
  }

  ghost predicate Books(s: State) {
    forall i :: BooksFor(s, i)
  }

  /** A step of a loop, against the counters before and after it. */
  lemma LoopStepBalanced(t: Session, up: bool, act: LoopAct, at: Time, o: Outcome, valid: set<ApiKey>,
                         c: ConnectionDetail, c': ConnectionDetail)
    requires LoopAllowed(t, up, act, at, valid) && Balanced(t, c.bytesIn, c.bytesOut) && o == Done
    requires var bytesIn, bytesOut := if up then t.up.byteCount else 0, if up then 0 else t.down.byteCount;
             c' == if act.Report? then AddBytesTo(c, bytesIn, bytesOut) else c
    ensures Balanced(LoopEffect(t, up, act, at, o), c'.bytesIn, c'.bytesOut)
  {
    hide Accounted;
    var l := LoopOf(t, up);
    var total, counter := if up then |t.toServer| - |t.first| else |t.toClient|, if up then c.bytesIn else c.bytesOut;
    if act.Wrote? {
      AccountedWrote(total, counter, l.byteCount, |l.pc.chunk|);
    } else if act.Report? {
      AccountedReported(total, counter, l.byteCount);
    }
  }

  lemma OwnBooks(K: nat, s: State, id: nat, a: Act, at: Time)
    requires Mirrors(s) && ProtocolsValid(s) && BooksFor(s, id)
    requires id in s.sessions && Allowed(K, s, s.sessions[id], a, at) && Faithful(s.sessions[id])
    requires s.sessions[id].phase != Running ==> KeyFor(s.sessions[id]) !in Flat(s.reg)
    ensures BooksFor(Fire(s, Does(id, a, at)), id)
  {
    hide Apply, Flat, Good, RegAfter, Mirrors, Balanced, LoopEffect, OpFor, GetNumConnections;
    var t := s.sessions[id];
    var (reg, o) := RegAfter(s.reg, OpFor(t, a, at));
    var (bytesIn, bytesOut) := BytesOf(s.reg, KeyFor(t));
    var s' := Fire(s, Does(id, a, at));
    var t' := Effect(t, a, at, o, bytesIn, bytesOut);
    assert s'.sessions[id] == t' && s'.reg == reg;
    FlatEffect(s, id, a, at, K);
    if a.LoopDoes? {
      LoopKeepsKey(t, a.up, a.act, at, o);
      LoopStepBalanced(t, a.up, a.act, at, o, s.valid, Flat(s.reg)[KeyFor(t)], Flat(reg)[KeyFor(t)]);
    } else if a.Register? {
      if t'.phase == Running {
        RegisteredBalanced(t, t');
      }
    } else if a.Teardown? {
      TornDownBalanced(t, t', Flat(s.reg)[KeyFor(t)]);
    } else {
      OtherwiseBalanced(K, s, t, a, at, o, bytesIn, bytesOut);
    }
  }

  lemma LoopKeepsKey(t: Session, up: bool, act: LoopAct, at: Time, o: Outcome)
    ensures var t' := LoopEffect(t, up, act, at, o);
            KeyFor(t') == KeyFor(t) && t'.phase == t.phase
  {
  }

  lemma RegisteredBalanced(t: Session, t': Session)
    requires Faithful(t) && t.phase == Sent
    requires t'.toServer == t.toServer && t'.first == t.first && t'.toClient == t.toClient
    requires t'.up.byteCount == 0 && t'.down.byteCount == 0
    ensures Balanced(t', 0, 0)
  {
    hide Accounted;
    AccountedStart();
  }

  lemma TornDownBalanced(t: Session, t': Session, c: ConnectionDetail)
    requires Balanced(t, c.bytesIn, c.bytesOut)
    requires t'.toServer == t.toServer && t'.first == t.first && t'.toClient == t.toClient && t'.up == t.up
             && t'.down == t.down
    ensures Balanced(t', c.bytesIn, c.bytesOut)
  {
    hide Accounted;
  }

  lemma OtherwiseBalanced(K: nat, s: State, t: Session, a: Act, at: Time, o: Outcome, bytesIn: U64, bytesOut: U64)
    requires Allowed(K, s, t, a, at) && !a.LoopDoes? && !a.Register? && !a.Teardown?
    ensures var t' := Effect(t, a, at, o, bytesIn, bytesOut);
            && (t'.phase == Running ==> a.Cancel? && t.phase == Running && KeyFor(t') == KeyFor(t))
            && (t'.phase == Finished ==>
                  a.Cancel? && t.phase == Finished && t'.finalIn == t.finalIn && t'.finalOut == t.finalOut)
            && (forall b, c :: a.Cancel? && Balanced(t, b, c) ==> Balanced(t', b, c))
  {
    hide Accounted, GetNumConnections;
  }

  /** A session's counters are touched by nobody else. */
  lemma OthersBooks(K: nat, s: State, id: nat, a: Act, at: Time, i: nat)
    requires Numbered(s) && s.advance <= s.M - 1 && Mirrors(s) && BooksFor(s, i) && i != id
    requires id in s.sessions && Allowed(K, s, s.sessions[id], a, at)
    ensures BooksFor(Fire(s, Does(id, a, at)), i)
  {
    hide Apply, Flat, Good, RegAfter, Mirrors, Numbered, Balanced, Effect, OpFor, Allowed, BytesOf;
    var s' := Fire(s, Does(id, a, at));
    FlatEffect(s, id, a, at, K);
    if IsRunning(s, i) && KeyFor(s.sessions[i]) == KeyFor(s.sessions[id]) {
      NumbersDistinct(s, i, id);
    }
  }

  lemma BooksKept(K: nat, s: State, step: Step)
    requires Sound(s) && s.advance <= s.M - 1 && AllFaithful(s) && Books(s) && Enabled(K, s, step)
    ensures Books(Fire(s, step))
  {
    hide BooksFor, Flat, Good, Mirrors, Numbered, Faithful, Allowed, Apply, Effect;
    var s' := Fire(s, step);
    forall i: nat ensures BooksFor(s', i) {
      assert BooksFor(s, i);
      match step
      case Accept(id, increments, proto, interval, at) => AcceptBooks(K, s, step, i);
      case UpdateValid(_, _) => SameBooks(s, s', i);
      case EvictFeeders(readings, _) =>
        MirrorsGood(s);
        EvictIsIdentity(s.reg, readings);
        SameBooks(s, s', i);
      case Does(id, a, at) =>
        if i != id {
          OthersBooks(K, s, id, a, at, i);
        } else {
          if !IsRunning(s, id) {
            FreshKey(s, id);
          }
          OwnBooks(K, s, id, a, at);
        }
    }
  }

  lemma MirrorsGood(s: State)
    requires Mirrors(s)
    ensures Good(s.reg)
  {
  }

  lemma AcceptBooks(K: nat, s: State, step: Step, i: nat)
    requires BooksFor(s, i) && Enabled(K, s, step) && step.Accept?
    ensures BooksFor(Fire(s, step), i)
  {
    hide Flat, Balanced, Tracker.Candidate;
  }

  lemma SameBooks(s: State, s': State, i: nat)
    requires BooksFor(s, i) && s'.sessions == s.sessions && s'.reg == s.reg
    ensures BooksFor(s', i)
  {
    hide Flat, Balanced;
  }

  lemma {:induction false} BooksAlways(K: nat, s: State, steps: seq<Step>)
    requires Start(s) && IsRun(K, s, steps) && After(s, steps).advance <= s.M - 1
    ensures Books(After(s, steps)) && Sound(After(s, steps))
  {
    hide Fire, Enabled, Numbered, Mirrors, ProtocolsValid, AllFaithful;
    RegistryMirrorsSessions(K, s, steps);
    if steps != [] {
      var prefix, step := steps[..|steps| - 1], steps[|steps| - 1];
      NumberedAlways(K, s, prefix);
      NumberedKept(K, After(s, prefix), step);
      BooksAlways(K, s, prefix);
      FaithfulAlways(K, s, prefix);
      BooksKept(K, After(s, prefix), step);
    }
  }

  /** At every step of a running session, in both directions: the bytes delivered are the first chunk
      plus what the registry counted plus what the loop has not reported, modulo 2^64; the registry
      never over-reports; and below 2^64 bytes the sum is exact. */
  lemma BytesAccountedFor(K: nat, s: State, steps: seq<Step>, id: nat)
    requires Start(s) && IsRun(K, s, steps) && After(s, steps).advance <= s.M - 1
    requires IsRunning(After(s, steps), id)
    ensures var t := After(s, steps).sessions[id];
            && KeyFor(t) in Flat(After(s, steps).reg)
            && var c := Flat(After(s, steps).reg)[KeyFor(t)];
               && Same64(|t.toServer|, |t.first| + c.bytesIn + t.up.byteCount)
               && Same64(|t.toClient|, c.bytesOut + t.down.byteCount)
               && |t.first| + c.bytesIn <= |t.toServer| && c.bytesOut <= |t.toClient|
               && (|t.toServer| < TWO_TO_THE_64 ==> |t.toServer| == |t.first| + c.bytesIn + t.up.byteCount)
               && (|t.toClient| < TWO_TO_THE_64 ==> |t.toClient| == c.bytesOut + t.down.byteCount)
  {
    hide After, IsRun, Start, Accounted, Flat, Sound;
    BooksAlways(K, s, steps);
    assert BooksFor(After(s, steps), id);
    var t := After(s, steps).sessions[id];
    var c := Flat(After(s, steps).reg)[KeyFor(t)];
    AccountedMeans(|t.toServer| - |t.first|, c.bytesIn, t.up.byteCount);
    AccountedMeans(|t.toClient|, c.bytesOut, t.down.byteCount);
  }

  /** A finished session was under-reported by exactly its first chunk and the bytes its loops had not
      reported when they ended; so its counters are exact if and only if there were none of either. */
  lemma ExitUnderReports(K: nat, s: State, steps: seq<Step>, id: nat)
    requires Start(s) && IsRun(K, s, steps) && After(s, steps).advance <= s.M - 1
    requires id in After(s, steps).sessions && After(s, steps).sessions[id].phase == Finished
    ensures var t := After(s, steps).sessions[id];
            && (|t.toServer| < TWO_TO_THE_64 ==> |t.toServer| - t.finalIn == |t.first| + t.up.byteCount)
            && (|t.toClient| < TWO_TO_THE_64 ==> |t.toClient| - t.finalOut == t.down.byteCount)
            && |t.first| + t.finalIn <= |t.toServer| && t.finalOut <= |t.toClient|
            && (|t.toServer| < TWO_TO_THE_64 ==> (t.finalIn == |t.toServer| <==> t.first == [] && t.up.byteCount == 0))
            && (|t.toClient| < TWO_TO_THE_64 ==> (t.finalOut == |t.toClient| <==> t.down.byteCount == 0))
  {
    hide After, IsRun, Start, Accounted, Flat, Sound;
    BooksAlways(K, s, steps);
    assert BooksFor(After(s, steps), id);
    var t := After(s, steps).sessions[id];
    AccountedMeans(|t.toServer| - |t.first|, t.finalIn, t.up.byteCount);
    AccountedMeans(|t.toClient|, t.finalOut, t.down.byteCount);
  }
}
