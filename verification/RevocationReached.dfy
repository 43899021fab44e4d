/** The bound on forwarding after revocation is reached, whatever delays it counts. */
module RevocationReached {
  import opened Common
  import opened Registry
  import opened Sessions
  import opened Revocation
  import opened SessionNumbers
  import opened SessionLimit
  import Tracker

  /** Session 0 is the only one, and its key left the valid set at start-up. */
  ghost predicate Alone(c: State, s: State, key: ApiKey, interval: nat, phase: Phase, now: Time) {
    && c.sessions.Keys == {0} && c.advance == 1 && c.now == now
    && key !in c.valid && key in c.revoked && c.revoked[key] == s.now
    && var t := c.sessions[0];
       && t.key == key && t.proto == BEAST && t.interval == interval && t.phase == phase && !t.cancelled
       && t.validAt == s.now
  }

  /** Accepted, looked up, and revoked at once. */
  lemma Joined(K: nat, s: State, key: ApiKey, interval: nat, first: seq<Byte>) returns (steps: seq<Step>)
    requires Start(s) && key in s.valid && |first| <= BUFFER_SIZE
    ensures IsRun(K, s, steps) && Alone(After(s, steps), s, key, interval, LookedUp, s.now)
    ensures After(s, steps).sessions[0].first == first
  {
    hide After, IsRun, Numbered, OpFor, Apply, Tracker.Candidate;
    NoSteps(K, s);
    NumberedAlways(K, s, []);
    OneMore(K, s, [], Accept(0, 1, BEAST, interval, s.now));
    steps := [Accept(0, 1, BEAST, interval, s.now)];
    steps := ActDone(K, s, steps, 0, LookUp(key, first), s.now);
    OneMore(K, s, steps, UpdateValid({}, s.now));
    steps := steps + [UpdateValid({}, s.now)];
  }

  lemma MAtLeastTwo(s: State)
    requires Start(s)
    ensures s.M >= 2
  {
  }

  lemma Admitting(K: nat, s: State, steps: seq<Step>, key: ApiKey, interval: nat, at: Time) returns (longer: seq<Step>)
    requires K >= 1 && Start(s) && IsRun(K, s, steps) && s.now <= at
    requires Alone(After(s, steps), s, key, interval, LookedUp, s.now)
    ensures IsRun(K, s, longer) && Alone(After(s, longer), s, key, interval, Admitted, at)
    ensures After(s, longer).sessions[0].lastAuth == at
    ensures After(s, longer).sessions[0].first == After(s, steps).sessions[0].first
  {
    hide After, IsRun, Sound, GetNumConnections;
    MAtLeastTwo(s);
    longer := ActDone(K, s, steps, 0, Authenticate("", ""), s.now);
    var c := After(s, longer);
    RegistryMirrorsSessions(K, s, longer);
    CountIsLive(c, key, BEAST);
    assert Live(c, key, BEAST) == {} && Pending(c, key, BEAST) == {};
    longer := ActDone(K, s, longer, 0, Admit, at);
  }

  lemma Sending(K: nat, s: State, steps: seq<Step>, key: ApiKey, interval: nat, at: Time) returns (longer: seq<Step>)
    requires Start(s) && IsRun(K, s, steps) && Alone(After(s, steps), s, key, interval, Admitted, at)
    requires After(s, steps).sessions[0].lastAuth == at
    ensures IsRun(K, s, longer) && Alone(After(s, longer), s, key, interval, Running, at)
    ensures After(s, longer).sessions[0].lastAuth == at && After(s, longer).sessions[0].up == Sessions.Started(at, at)
  {
    hide After, IsRun, Start, GetNumConnections;
    MAtLeastTwo(s);
    longer := ActDone(K, s, steps, 0, SendFirst, at);
    longer := ActDone(K, s, longer, 0, Register("", "", at), at);
  }

  /** One step of the session's loop. */
  lemma LoopDone(K: nat, s: State, steps: seq<Step>, key: ApiKey, interval: nat, act: LoopAct, now: Time, at: Time)
    returns (longer: seq<Step>)
    requires Start(s) && IsRun(K, s, steps) && Alone(After(s, steps), s, key, interval, Running, now) && now <= at
    requires LoopAllowed(After(s, steps).sessions[0], true, act, at, After(s, steps).valid)
    requires !act.Report? && !act.Record? && !act.CancelSession?
    ensures IsRun(K, s, longer) && Alone(After(s, longer), s, key, interval, Running, at)
    ensures After(s, longer).sessions[0].lastAuth == After(s, steps).sessions[0].lastAuth
    ensures After(s, longer).sessions[0].up == LoopNext(After(s, steps).sessions[0].up, act, at, Done)
  {
    hide After, IsRun, Start, GetNumConnections, LoopNext, LoopAllowed;
    MAtLeastTwo(s);
    longer := ActDone(K, s, steps, 0, LoopDoes(true, act), at);
  }

  /** An iteration that reads and writes at the given clock readings, up to the write's deadline. */
  lemma Chunk(K: nat, s: State, steps: seq<Step>, key: ApiKey, interval: nat, chunk: seq<Byte>,
              now: Time, began: Time, armed: Time, got: Time, handed: Time) returns (longer: seq<Step>)
    requires Start(s) && IsRun(K, s, steps) && Alone(After(s, steps), s, key, interval, Running, now)
    requires After(s, steps).sessions[0].up.pc == Top && |chunk| <= BUFFER_SIZE
    requires now <= began <= armed <= got <= handed && got <= armed + READ_TIMEOUT
    ensures IsRun(K, s, longer) && Alone(After(s, longer), s, key, interval, Running, handed)
    ensures After(s, longer).sessions[0].lastAuth == After(s, steps).sessions[0].lastAuth
    ensures var l, l' := After(s, steps).sessions[0].up, After(s, longer).sessions[0].up;
            && l'.pc == Write(chunk, handed + WRITE_TIMEOUT) && l'.iterations == l.iterations + 1
            && l'.began == began && l'.armed == armed && l'.got == got && l'.handed == handed
            && l'.sample == l.sample && l'.timer == l.timer
  {
    hide After, IsRun, Start, Alone;
    NotCancelled(After(s, steps), s, key, interval, now);
    longer := LoopDone(K, s, steps, key, interval, Enter, now, began);
    longer := LoopDone(K, s, longer, key, interval, SetReadDeadline, began, armed);
    longer := LoopDone(K, s, longer, key, interval, GotChunk(chunk), armed, got);
    longer := LoopDone(K, s, longer, key, interval, SetWriteDeadline, got, handed);
  }

  lemma NotCancelled(c: State, s: State, key: ApiKey, interval: nat, now: Time)
    requires Alone(c, s, key, interval, Running, now)
    ensures !c.sessions[0].cancelled && c.sessions[0].interval == interval
  {
  }

  /** The first iteration, all at one instant but for its comparison at the very end of the interval. */
  lemma FirstIteration(K: nat, s: State, steps: seq<Step>, key: ApiKey, interval: nat, at: Time)
    returns (longer: seq<Step>)
    requires Start(s) && IsRun(K, s, steps) && Alone(After(s, steps), s, key, interval, Running, at)
    requires After(s, steps).sessions[0].lastAuth == at && After(s, steps).sessions[0].up == Sessions.Started(at, at)
    ensures IsRun(K, s, longer) && Alone(After(s, longer), s, key, interval, Running, at + interval)
    ensures After(s, longer).sessions[0].lastAuth == at
    ensures var l := After(s, longer).sessions[0].up; l.pc == Top && l.iterations == 1 && l.sample == at + interval
  {
    hide After, IsRun, Start, Alone;
    longer := LoopDone(K, s, steps, key, interval, Launch, at, at);
    longer := Chunk(K, s, longer, key, interval, [], at, at, at, at, at);
    longer := LoopDone(K, s, longer, key, interval, Wrote, at, at);
    longer := LoopDone(K, s, longer, key, interval, Skip, at, at);
    NotCancelled(After(s, longer), s, key, interval, at);
    longer := LoopDone(K, s, longer, key, interval, Fresh, at, at + interval);
  }

  /** The delays the bound counts: from a look-up to its record, from a comparison to the next iteration,
      from there to the read deadline, and from a chunk's arrival to the write deadline. */
  datatype Delays = Delays(record: nat, restart: nat, arm: nat, hand: nat)

  predicate Delayed(t: Session, d: Delays) {
    && t.lastAuth - t.validAt == d.record && t.up.began - t.up.sample == d.restart
    && t.up.armed - t.up.began == d.arm && t.up.handed - t.up.got == d.hand
  }

  /** A key that leaves the valid set right after its look-up: with any such delays, some run writes a
      chunk of it exactly when the bound says it still may, in the second iteration. */
  lemma RevocationBoundIsReached(K: nat, s: State, key: ApiKey, interval: nat, d: Delays, chunk: seq<Byte>)
    returns (steps: seq<Step>, at: Time)
    requires K >= 1 && Start(s) && key in s.valid && |chunk| <= BUFFER_SIZE
    ensures IsRun(K, s, steps) && Enabled(K, After(s, steps), Does(0, LoopDoes(true, Wrote), at))
    ensures key !in After(s, steps).valid && key in After(s, steps).revoked
    ensures var t := After(s, steps).sessions[0];
            && t.key == key && t.up.iterations == 2 && t.up.pc.Write? && t.up.pc.chunk == chunk
            && t.interval == interval
            && Delayed(t, d)
            && at == After(s, steps).revoked[key] + t.interval + 3 * SECOND
                     + (t.lastAuth - t.validAt) + (t.up.began - t.up.sample) + Stall(t.up)
  {
    hide After, IsRun, Start, GetNumConnections, RegAfter, OpFor, Effect;
    var admitted := s.now + d.record;
    var began := admitted + interval + d.restart;
    var got := began + d.arm + READ_TIMEOUT;
    MAtLeastTwo(s);
    steps := Joined(K, s, key, interval, []);
    steps := Admitting(K, s, steps, key, interval, admitted);
    steps := Sending(K, s, steps, key, interval, admitted);
    steps := FirstIteration(K, s, steps, key, interval, admitted);
    steps := Chunk(K, s, steps, key, interval, chunk, admitted + interval, began, began + d.arm, got, got + d.hand);
    at := got + d.hand + WRITE_TIMEOUT;
  }

  /** The first chunk has no such bound: the container is started and dialled before it is written, and it
      has no write deadline.  Whatever it is, and however late, some run still writes it for a key that left
      the valid set at start-up. */
  lemma FirstChunkIsUnbounded(K: nat, s: State, key: ApiKey, first: seq<Byte>, at: Time) returns (steps: seq<Step>)
    requires K >= 1 && Start(s) && key in s.valid && |first| <= BUFFER_SIZE && s.now <= at
    ensures IsRun(K, s, steps) && Enabled(K, After(s, steps), Does(0, SendFirst, at))
    ensures var c := After(s, steps);
            && c.sessions[0].key == key && c.sessions[0].first == first
            && key !in c.valid && key in c.revoked && c.revoked[key] == s.now
  {
    hide After, IsRun, Start, GetNumConnections;
    steps := Joined(K, s, key, 0, first);
    steps := Admitting(K, s, steps, key, 0, s.now);
  }
}
