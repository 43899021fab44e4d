/** The session machine with the two lock sections of a registry operation apart.  Registering a feeder,
    registering a connection and unregistering one each make sure of the feeder's entry first and do
    their main work later; any step of any other session may come in between. */
module SessionSections {
  import opened Common
  import opened Registry
  import opened Sessions
  import opened SessionNumbers
  import Sections = RegistrySections
  import SessionLifecycle
  import SessionStreams
  import Tracker

  /** `doing` holds the actions that are between their two sections, by session. */
  datatype Split = Split(s: State, doing: map<nat, Act>)

  datatype Move =
    | One(step: Step)
    | Begin(id: nat, a: Act, at: Time)
    | Finish(id: nat, at: Time)

  predicate TwoSections(a: Act) {
    a.Authenticate? || a.Register? || a.Teardown?
  }

  function PendingOf(t: Session, a: Act): Sections.Pending {
    match a
    case Authenticate(labelText, code) => Sections.Feeder(FeederDetails(t.key, labelText, code))
    case Register(src, dst, _) => Sections.Connect(ConnFor(t, src, dst))
    case _ => Sections.Disconnect(ConnFor(t, "", ""))
  }

  function Connected(a: Act): Time {
    if a.Register? then a.connected else 0
  }

  /** The registry and the operations under way. */
  function Regs(c: Split): Sections.State {
    Sections.State(c.s.reg, map id | id in c.doing && id in c.s.sessions :: PendingOf(c.s.sessions[id], c.doing[id]))
  }

  /** A session between two sections does nothing else, but may be cancelled from outside. */
  ghost predicate Enabled(K: nat, c: Split, move: Move) {
    match move
    case One(step) =>
      && Sessions.Enabled(K, c.s, step)
      && (step.Does? ==>
            && (step.id in c.doing ==> step.a.Cancel?)
            && (TwoSections(step.a) ==> !Sections.MayBegin(c.s.reg, PendingOf(c.s.sessions[step.id], step.a))))
    case Begin(id, a, at) =>
      && TwoSections(a) && id !in c.doing && Sessions.Enabled(K, c.s, Does(id, a, at))
      && Sections.MayBegin(c.s.reg, PendingOf(c.s.sessions[id], a))
    case Finish(id, at) => id in c.doing && id in c.s.sessions && c.s.now <= at
  }

  /** A panic ends the process. */
  ghost function Fire(c: Split, move: Move): (Split, Outcome) {
    match move
    case One(step) => (c.(s := Sessions.Fire(c.s, step)), Done)
    case Begin(id, a, at) =>
      if id !in c.s.sessions then (c, Done)
      else
        var reg := InitFeeder(c.s.reg, Sections.KeyOn(PendingOf(c.s.sessions[id], a)));
        (Split(c.s.(now := at, reg := reg), c.doing[id := a]), Done)
    case Finish(id, at) =>
      if id !in c.doing || id !in c.s.sessions then (c, Done)
      else
        var t, a := c.s.sessions[id], c.doing[id];
        var (reg, o) := Sections.Main(c.s.reg, PendingOf(t, a), Connected(a), at);
        var (bytesIn, bytesOut) := BytesOf(c.s.reg, KeyFor(t));
        if o == Panic then (c, Panic)
        else
          var t' := Effect(t, a, at, o, bytesIn, bytesOut);
          (Split(c.s.(now := at, reg := reg, sessions := c.s.sessions[id := t']), c.doing - {id}), o)
  }

  ghost function After(s: State, moves: seq<Move>): Split {
    if moves == [] then Split(s, map[]) else Fire(After(s, moves[..|moves| - 1]), moves[|moves| - 1]).0
  }

  ghost predicate IsRun(K: nat, s: State, moves: seq<Move>) {
    moves == [] ||
    (IsRun(K, s, moves[..|moves| - 1]) && Enabled(K, After(s, moves[..|moves| - 1]), moves[|moves| - 1]))
  }

  /** No feeder with an action between its sections is missing: nothing deleted it in between. */
  ghost predicate Undisturbed(c: Split) {
    forall id :: id in c.doing && id in c.s.sessions ==> c.s.sessions[id].key in c.s.reg.feeders
  }

  ghost predicate NeverDisturbed(s: State, moves: seq<Move>) {
    Undisturbed(After(s, moves)) && (moves == [] || NeverDisturbed(s, moves[..|moves| - 1]))
  }

  /** The steps of the session machine, with each operation at its second section. */
  ghost function StepsOf(c: Split, move: Move): seq<Step> {
    match move
    case One(step) => [step]
    case Begin(_, _, _) => []
    case Finish(id, at) => if id in c.doing then [Does(id, c.doing[id], at)] else []
  }

  ghost function Linear(s: State, moves: seq<Move>): seq<Step> {
    if moves == [] then []
    else Linear(s, moves[..|moves| - 1]) + StepsOf(After(s, moves[..|moves| - 1]), moves[|moves| - 1])
  }

  // ---- the sectioned machine is the session machine plus empty entries for pending feeders

  /** Where the session of an unfinished action is, and stays until it finishes. */
  predicate Ready(t: Session, a: Act) {
    match a
    case Authenticate(_, _) => t.phase == LookedUp
    case Register(_, _, _) => t.phase == Sent
    case Teardown => t.phase == Running && t.cancelled && Over(t.up) && Over(t.down)
    case _ => false
  }

  ghost predicate InProgress(c: Split, id: nat) {
    id in c.s.sessions && id in c.doing && Ready(c.s.sessions[id], c.doing[id])
    && Sections.MayBegin(c.s.reg, PendingOf(c.s.sessions[id], c.doing[id]))
  }

  ghost predicate AllInProgress(c: Split) {
    forall id :: id in c.doing ==> InProgress(c, id)
  }

  ghost predicate Represents(c: Split, a: State) {
    && Good(a.reg) && a.now <= c.s.now
    && c.s == a.(now := c.s.now, reg := Sections.Overlay(a.reg, Sections.PendingKeys(Regs(c))))
  }

  lemma OverlayReads(a: Statistics, keys: set<ApiKey>)
    ensures forall k, p :: GetNumConnections(Sections.Overlay(a, keys), k, p) == GetNumConnections(a, k, p)
    ensures forall fk :: BytesOf(Sections.Overlay(a, keys), fk) == BytesOf(a, fk)
    ensures Flat(Sections.Overlay(a, keys)) == Flat(a)
    ensures Sections.Overlay(a, keys).initialised == a.initialised
  {
    assert forall fk :: Has(Sections.Overlay(a, keys), fk) <==> Has(a, fk);
    FlatEqual(Sections.Overlay(a, keys), Flat(a));
  }

  /** The registry's side of a step of one section. */
  lemma OneSectionOp(a: Statistics, keys: set<ApiKey>, t: Session, act: Act, at: Time)
    requires Good(a) && (TwoSections(act) ==> !Sections.MayBegin(a, PendingOf(t, act)))
    ensures var (r, o) := RegAfter(a, OpFor(t, act, at));
            var (r', o') := RegAfter(Sections.Overlay(a, keys), OpFor(t, act, at));
            && (o' == Done <==> o == Done) && r' == Sections.Overlay(r, keys)
            && Good(r) && r.initialised == a.initialised
  {
    hide Good, Sections.Overlay, Apply;
    OverlayReads(a, keys);
    var op := OpFor(t, act, at);
    if op.Some? {
      GoodPreserved(a, op.value);
      InitialisedKept(a, op.value);
      if act.LoopDoes? {
        Sections.DirectOnOverlay(a, keys, op.value);
      } else {
        Refused(a, t, act, at);
        Refused(Sections.Overlay(a, keys), t, act, at);
      }
    }
  }

  /** An operation that may not begin returns before it touches the registry. */
  lemma Refused(a: Statistics, t: Session, act: Act, at: Time)
    requires TwoSections(act) && !Sections.MayBegin(a, PendingOf(t, act))
    ensures RegAfter(a, OpFor(t, act, at)).0 == a && RegAfter(a, OpFor(t, act, at)).1 != Done
  {
    hide UnregisterConnectionMain, RegisterConnectionMain;
  }

  lemma EffectOutcome(t: Session, a: Act, at: Time, o: Outcome, o': Outcome, bytesIn: U64, bytesOut: U64)
    requires o == Done <==> o' == Done
    ensures Effect(t, a, at, o, bytesIn, bytesOut) == Effect(t, a, at, o', bytesIn, bytesOut)
  {
    hide LoopEffect;
    if a.LoopDoes? {
      LoopEffectOutcome(t, a.up, a.act, at, o, o');
    }
  }

  lemma LoopEffectOutcome(t: Session, up: bool, act: LoopAct, at: Time, o: Outcome, o': Outcome)
    requires o == Done <==> o' == Done
    ensures LoopEffect(t, up, act, at, o) == LoopEffect(t, up, act, at, o')
  {
  }

  /** What is under way is not changed by a move that leaves its session alone, or only cancels it. */
  lemma SameRegs(c: Split, c': Split, id: nat)
    requires c'.doing == c.doing && AllInProgress(c) && c.s.sessions.Keys <= c'.s.sessions.Keys
    requires c'.s.reg.initialised == c.s.reg.initialised
    requires forall i :: i in c.s.sessions && i != id ==> c'.s.sessions[i] == c.s.sessions[i]
    requires id in c.doing ==> c'.s.sessions[id] == c.s.sessions[id].(cancelled := true)
    ensures Regs(c').pending == Regs(c).pending && Sections.PendingKeys(Regs(c')) == Sections.PendingKeys(Regs(c))
    ensures AllInProgress(c')
  {
    hide Sections.PendingKeys;
    forall i | i in c'.doing
      ensures InProgress(c', i) && PendingOf(c'.s.sessions[i], c.doing[i]) == PendingOf(c.s.sessions[i], c.doing[i])
    {
      assert InProgress(c, i);
    }
    assert forall i :: i in c.doing ==> i in c.s.sessions && i in c'.s.sessions;
    assert Regs(c').pending == Regs(c).pending;
    SamePendingKeys(Regs(c), Regs(c'));
  }

  lemma SamePendingKeys(c: Sections.State, c': Sections.State)
    requires c'.pending == c.pending
    ensures Sections.PendingKeys(c') == Sections.PendingKeys(c)
  {
  }

  /** An action of one section, in either machine. */
  lemma ActSimulates(K: nat, c: Split, a: State, id: nat, act: Act, at: Time)
    requires Represents(c, a) && AllInProgress(c) && Enabled(K, c, One(Does(id, act, at)))
    ensures Sessions.Enabled(K, a, Does(id, act, at))
    ensures Represents(Fire(c, One(Does(id, act, at))).0, Sessions.Fire(a, Does(id, act, at)))
    ensures AllInProgress(Fire(c, One(Does(id, act, at))).0)
  {
    hide Good, Sections.Overlay, Sections.PendingKeys, Effect, RegAfter, OpFor, BytesOf, Ready, LoopAllowed,
         GetNumConnections, InProgress;
    var keys := Sections.PendingKeys(Regs(c));
    var t := c.s.sessions[id];
    OverlayReads(a.reg, keys);
    OneSectionOp(a.reg, keys, t, act, at);
    MayBeginSame(c.s.reg, a.reg, PendingOf(t, act));
    var (r, o) := RegAfter(a.reg, OpFor(t, act, at));
    var (r', o') := RegAfter(c.s.reg, OpFor(t, act, at));
    var (bytesIn, bytesOut) := BytesOf(a.reg, KeyFor(t));
    EffectOutcome(t, act, at, o, o', bytesIn, bytesOut);
    OverlayReads(r, keys);
    var c' := Fire(c, One(Does(id, act, at))).0;
    if id in c.doing {
      CancelEffect(t, at, o', bytesIn, bytesOut);
    }
    SameRegs(c, c', id);
  }

  lemma MayBeginSame(a: Statistics, b: Statistics, p: Sections.Pending)
    requires a.initialised == b.initialised
    ensures Sections.MayBegin(a, p) <==> Sections.MayBegin(b, p)
  {
  }

  lemma CancelEffect(t: Session, at: Time, o: Outcome, bytesIn: U64, bytesOut: U64)
    ensures Effect(t, Cancel, at, o, bytesIn, bytesOut) == t.(cancelled := true)
  {
  }

  /** The steps that are nobody's action. */
  lemma OtherSimulates(K: nat, c: Split, a: State, step: Step)
    requires Represents(c, a) && AllInProgress(c) && Enabled(K, c, One(step)) && !step.Does?
    ensures Sessions.Enabled(K, a, step)
    ensures Represents(Fire(c, One(step)).0, Sessions.Fire(a, step)) && AllInProgress(Fire(c, One(step)).0)
  {
    hide Good, Sections.Overlay, Sections.PendingKeys, Ready, InProgress, Tracker.Candidate, EvictStale;
    var keys := Sections.PendingKeys(Regs(c));
    var c' := Fire(c, One(step)).0;
    if step.EvictFeeders? {
      Sections.OverlayGood(a.reg, keys);
      EvictIsIdentity(a.reg, step.readings);
      EvictIsIdentity(c.s.reg, step.readings);
    }
    var id := if step.Accept? then step.id else 0;
    if step.Accept? {
      NotInProgress(c, id);
      SameRegs(c, c', id);
    } else {
      SameSessions(c, c');
    }
  }

  lemma NotInProgress(c: Split, id: nat)
    requires AllInProgress(c) && id !in c.s.sessions
    ensures id !in c.doing
  {
  }

  lemma SameSessions(c: Split, c': Split)
    requires c'.doing == c.doing && c'.s.sessions == c.s.sessions && AllInProgress(c)
    requires c'.s.reg.initialised == c.s.reg.initialised
    ensures Sections.PendingKeys(Regs(c')) == Sections.PendingKeys(Regs(c)) && AllInProgress(c')
  {
    hide Sections.PendingKeys, Ready;
    forall i | i in c'.doing ensures InProgress(c', i) {
      assert InProgress(c, i);
    }
    SamePendingKeys(Regs(c), Regs(c'));
  }

  lemma BeginSimulates(K: nat, c: Split, a: State, id: nat, act: Act, at: Time)
    requires Represents(c, a) && AllInProgress(c) && Enabled(K, c, Begin(id, act, at))
    ensures Represents(Fire(c, Begin(id, act, at)).0, a) && AllInProgress(Fire(c, Begin(id, act, at)).0)
  {
    hide Good, Sections.Overlay, Sections.PendingKeys, Ready, GetNumConnections, InitFeeder, InProgress;
    var c' := Fire(c, Begin(id, act, at)).0;
    var p := PendingOf(c.s.sessions[id], act);
    NotYetPending(c, id);
    Sections.BeginSimulates(Regs(c), a.reg, id, p);
    assert Regs(c').pending == Regs(c).pending[id := p];
    assert Regs(c') == Sections.Fire(Regs(c), Sections.Begin(id, p)).0;
    BeginKeeps(K, c, id, act, at);
  }

  lemma BeginKeeps(K: nat, c: Split, id: nat, act: Act, at: Time)
    requires AllInProgress(c) && Enabled(K, c, Begin(id, act, at))
    ensures AllInProgress(Fire(c, Begin(id, act, at)).0)
  {
    hide Ready, GetNumConnections, InitFeeder, InProgress;
    var c' := Fire(c, Begin(id, act, at)).0;
    Sections.FlagKept(c.s.reg, Evict(map[]), PendingOf(c.s.sessions[id], act), 0, 0);
    ReadyToBegin(K, c.s, id, act, at);
    forall i | i in c'.doing ensures InProgress(c', i) {
      KeepsGoing(c, c', i, id);
    }
  }

  lemma NotYetPending(c: Split, id: nat)
    requires id !in c.doing
    ensures id !in Regs(c).pending
  {
  }

  lemma ReadyToBegin(K: nat, s: State, id: nat, act: Act, at: Time)
    requires TwoSections(act) && Sessions.Enabled(K, s, Does(id, act, at))
    ensures Ready(s.sessions[id], act)
  {
  }

  lemma KeepsGoing(c: Split, c': Split, i: nat, id: nat)
    requires AllInProgress(c) && c'.s.sessions == c.s.sessions && c'.s.reg.initialised == c.s.reg.initialised
    requires id in c'.s.sessions && id in c'.doing && Ready(c'.s.sessions[id], c'.doing[id])
    requires Sections.MayBegin(c'.s.reg, PendingOf(c'.s.sessions[id], c'.doing[id]))
    requires i in c'.doing && (i != id ==> i in c.doing && c'.doing[i] == c.doing[i])
    ensures InProgress(c', i)
  {
    hide Ready;
    if i != id {
      assert InProgress(c, i);
    }
  }

  // ---- finishing

  lemma WholeOp(t: Session, a: Act, at: Time)
    requires TwoSections(a)
    ensures OpFor(t, a, at) == Some(Sections.OpOf(PendingOf(t, a), Connected(a), at))
    ensures Sections.KeyOn(PendingOf(t, a)) == t.key
  {
  }

  /** A second section whose feeder is there does not panic. */
  lemma FinishDoesNotPanic(c: Split, id: nat, at: Time)
    requires Good(c.s.reg) && AllInProgress(c) && Undisturbed(c) && id in c.doing
    ensures id in c.s.sessions
    ensures Sections.Main(c.s.reg, PendingOf(c.s.sessions[id], c.doing[id]), Connected(c.doing[id]), at).1 != Panic
  {
    hide Good, Sections.Main, Ready;
    assert InProgress(c, id);
    var t, act := c.s.sessions[id], c.doing[id];
    forall i | i in Regs(c).pending ensures Sections.MayBegin(c.s.reg, Regs(c).pending[i]) {
      assert InProgress(c, i);
    }
    Sections.FinishHarmsIffFeederGone(Regs(c), id, Connected(act), at);
    Finishing(c, id);
  }

  lemma Finishing(c: Split, id: nat)
    requires AllInProgress(c) && id in c.doing
    ensures id in c.s.sessions && id in Regs(c).pending
    ensures Regs(c).pending[id] == PendingOf(c.s.sessions[id], c.doing[id])
    ensures Sections.KeyOn(Regs(c).pending[id]) == c.s.sessions[id].key && TwoSections(c.doing[id])
  {
    assert InProgress(c, id);
  }

  lemma ReadyIsAllowed(K: nat, s: State, id: nat, act: Act, at: Time)
    requires id in s.sessions && Ready(s.sessions[id], act) && s.now <= at
    ensures Sessions.Enabled(K, s, Does(id, act, at))
  {
  }

  lemma UndisturbedRegs(c: Split)
    requires AllInProgress(c) && Undisturbed(c)
    ensures Sections.Undisturbed(Regs(c))
  {
    forall i | i in Regs(c).pending ensures Sections.KeyOn(Regs(c).pending[i]) in c.s.reg.feeders {
      assert InProgress(c, i);
      assert c.s.sessions[i].key in c.s.reg.feeders;
    }
  }

  lemma FinishSimulates(K: nat, c: Split, a: State, id: nat, at: Time)
    requires Represents(c, a) && AllInProgress(c) && Enabled(K, c, Finish(id, at)) && Undisturbed(c)
    requires Undisturbed(Fire(c, Finish(id, at)).0)
    ensures Sessions.Enabled(K, a, Does(id, c.doing[id], at))
    ensures Represents(Fire(c, Finish(id, at)).0, Sessions.Fire(a, Does(id, c.doing[id], at)))
    ensures AllInProgress(Fire(c, Finish(id, at)).0) && Fire(c, Finish(id, at)).1 != Panic
  {
    hide Good, Sections.Overlay, Sections.PendingKeys, Sections.Main, Apply, Ready, BytesOf, Effect, PendingOf,
         Undisturbed, InProgress;
    var t, act := c.s.sessions[id], c.doing[id];
    var keys := Sections.PendingKeys(Regs(c));
    var p := PendingOf(t, act);
    var c' := Fire(c, Finish(id, at)).0;
    Sections.OverlayGood(a.reg, keys);
    OverlayReads(a.reg, keys);
    FinishDoesNotPanic(c, id, at);
    Finishing(c, id);
    WholeOp(t, act, at);
    Leaves(c, c', id, at);
    UndisturbedRegs(c');
    BeginsInBoth(c, a, id);
    Sections.FinishSimulates(Regs(c), a.reg, id, Connected(act), at);
    ReadyIsAllowed(K, a, id, act, at);
  }

  /** What a finished action leaves under way. */
  lemma Leaves(c: Split, c': Split, id: nat, at: Time)
    requires AllInProgress(c) && id in c.doing && id in c.s.sessions && c' == Fire(c, Finish(id, at)).0
    requires Fire(c, Finish(id, at)).1 != Panic
    ensures AllInProgress(c')
    ensures Regs(c') == Sections.Fire(Regs(c), Sections.Finish(id, Connected(c.doing[id]), at)).0
  {
    hide Sections.Main, Ready, Effect, BytesOf;
    Finishing(c, id);
    Sections.FlagKept(c.s.reg, Evict(map[]), Regs(c).pending[id], Connected(c.doing[id]), at);
    forall i | i in c'.doing ensures InProgress(c', i) {
      assert InProgress(c, i);
    }
    assert Regs(c').pending == Regs(c).pending - {id};
  }

  lemma BeginsInBoth(c: Split, a: State, id: nat)
    requires Represents(c, a) && AllInProgress(c) && id in c.doing
    ensures id in c.s.sessions && Ready(c.s.sessions[id], c.doing[id])
    ensures Sections.MayBegin(a.reg, PendingOf(c.s.sessions[id], c.doing[id]))
  {
    hide Good, Ready, Sections.Overlay;
    assert InProgress(c, id);
    OverlayReads(a.reg, Sections.PendingKeys(Regs(c)));
  }

  // ---- whole runs

  lemma MoveSimulates(K: nat, c: Split, a: State, move: Move)
    requires Represents(c, a) && AllInProgress(c) && Enabled(K, c, move) && Undisturbed(c)
             && Undisturbed(Fire(c, move).0)
    ensures Fire(c, move).1 != Panic && AllInProgress(Fire(c, move).0)
    ensures var steps := StepsOf(c, move);
            && |steps| <= 1 && (steps != [] ==> Sessions.Enabled(K, a, steps[0]))
            && Represents(Fire(c, move).0, if steps == [] then a else Sessions.Fire(a, steps[0]))
  {
    hide Represents, AllInProgress, Undisturbed, Sessions.Fire, Sessions.Enabled;
    match move
    case One(step) =>
      if step.Does? {
        ActSimulates(K, c, a, step.id, step.a, step.at);
      } else {
        OtherSimulates(K, c, a, step);
      }
    case Begin(id, act, at) => BeginSimulates(K, c, a, id, act, at);
    case Finish(id, at) => FinishSimulates(K, c, a, id, at);
  }

  lemma StartRepresents(s: State)
    requires Start(s)
    ensures Represents(Split(s, map[]), s) && AllInProgress(Split(s, map[]))
  {
    assert Sections.PendingKeys(Regs(Split(s, map[]))) == {};
    Sections.OverlayNothing(s.reg);
  }

  /** Every run of the sectioned machine in which no feeder is deleted between the two sections of an action
      on it is a run of the session machine, with each operation at its second section: the sessions, the
      valid keys and the number counter are the same, the registry differs only by empty entries for feeders
      with an action under way, and no move panics. */
  lemma {:induction false} SectionedRunsAreRuns(K: nat, s: State, moves: seq<Move>)
    requires Start(s) && IsRun(K, s, moves) && NeverDisturbed(s, moves)
    ensures Sessions.IsRun(K, s, Linear(s, moves))
    ensures Represents(After(s, moves), Sessions.After(s, Linear(s, moves))) && AllInProgress(After(s, moves))
    ensures moves != [] ==> Fire(After(s, moves[..|moves| - 1]), moves[|moves| - 1]).1 != Panic
  {
    hide Fire, Enabled, Represents, AllInProgress, Undisturbed, StepsOf, Sessions.Fire, Sessions.Enabled, Start;
    if moves == [] {
      StartRepresents(s);
    } else {
      var prefix, move := moves[..|moves| - 1], moves[|moves| - 1];
      SectionedRunsAreRuns(K, s, prefix);
      var lin, steps := Linear(s, prefix), StepsOf(After(s, prefix), move);
      MoveSimulates(K, After(s, prefix), Sessions.After(s, lin), move);
      if steps == [] {
        assert lin + steps == lin;
      } else {
        assert steps == [steps[0]];
        Sessions.OneMore(K, s, lin, steps[0]);
      }
    }
  }

  lemma CarriesOver(c: Split, a: State)
    requires Represents(c, a)
    ensures Flat(c.s.reg) == Flat(a.reg) && Good(c.s.reg) && c.s.reg.initialised == a.reg.initialised
    ensures c.s.sessions == a.sessions && c.s.M == a.M && c.s.counter == a.counter && c.s.advance == a.advance
    ensures forall k, p :: GetNumConnections(c.s.reg, k, p) == GetNumConnections(a.reg, k, p)
  {
    hide Good, Sections.PendingKeys;
    Sections.OverlayGood(a.reg, Sections.PendingKeys(Regs(c)));
    OverlayReads(a.reg, Sections.PendingKeys(Regs(c)));
  }

  lemma SoundCarriesOver(s: State, s': State)
    requires Sound(s) && s'.sessions == s.sessions && s'.M == s.M && s'.counter == s.counter && s'.advance == s.advance
    requires Flat(s'.reg) == Flat(s.reg) && Good(s'.reg) && s'.reg.initialised
    ensures Sound(s')
  {
    hide Good, Flat, Tracker.Candidate;
    forall i | i in s'.sessions ensures HoldsTicket(s', i) {
      assert HoldsTicket(s, i);
    }
    forall fk | fk in Flat(s'.reg) ensures exists i :: RunsFor(s', i, fk) {
      var i :| RunsFor(s, i, fk);
      assert RunsFor(s', i, fk);
    }
    forall i | IsRunning(s', i) ensures KeyFor(s'.sessions[i]) in Flat(s'.reg) {
      assert IsRunning(s, i);
    }
  }

  lemma BooksCarryOver(s: State, s': State)
    requires SessionStreams.Books(s) && s'.sessions == s.sessions && Flat(s'.reg) == Flat(s.reg)
    ensures SessionStreams.Books(s')
  {
    hide Flat, SessionStreams.Balanced;
    forall i: nat ensures SessionStreams.BooksFor(s', i) {
      assert SessionStreams.BooksFor(s, i);
    }
  }

  /** So in every such run the invariants hold at every lock section: the registry mirrors the running
      sessions, sessions are registered and unregistered once, the byte counters balance, and the limit per
      feeder and protocol is kept as in the session machine. */
  lemma InvariantsAtEverySection(K: nat, s: State, moves: seq<Move>, key: ApiKey, proto: Protocol)
    requires K >= 1 && Start(s) && IsRun(K, s, moves) && NeverDisturbed(s, moves)
    requires After(s, moves).s.advance <= s.M - 1
    ensures var s' := After(s, moves).s;
            && Sound(s') && SessionLifecycle.AllPaired(s') && SessionStreams.AllFaithful(s') && SessionStreams.Books(s')
            && GetNumConnections(s'.reg, key, proto) <= K
  {
    hide After, IsRun, NeverDisturbed, Start, Represents, Sound, SessionLifecycle.AllPaired, SessionStreams.AllFaithful,
         SessionStreams.Books, Good, Flat, GetNumConnections, Sessions.After, Sessions.IsRun;
    SectionedRunsAreRuns(K, s, moves);
    var lin := Linear(s, moves);
    var a, s' := Sessions.After(s, lin), After(s, moves).s;
    CarriesOver(After(s, moves), a);
    RegistryMirrorsSessions(K, s, lin);
    SessionLifecycle.RegisteredAndUnregisteredOnce(K, s, lin);
    SessionStreams.FaithfulAlways(K, s, lin);
    SessionStreams.BooksAlways(K, s, lin);
    ConnectionLimit(K, s, lin, key, proto);
    IsInitialised(a);
    SoundCarriesOver(a, s');
    BooksCarryOver(a, s');
    PairedCarriesOver(a, s');
  }

  lemma IsInitialised(s: State)
    requires Sound(s)
    ensures s.reg.initialised
  {
    hide Good, Flat;
  }

  lemma PairedCarriesOver(s: State, s': State)
    requires s'.sessions == s.sessions
    ensures SessionLifecycle.AllPaired(s) ==> SessionLifecycle.AllPaired(s')
    ensures SessionStreams.AllFaithful(s) ==> SessionStreams.AllFaithful(s')
  {
    hide SessionLifecycle.Paired, SessionStreams.Faithful;
  }

  /** What can go wrong, in any run: a second section panics exactly when it registers a connection and finds
      its feeder's entry missing, or there without its protocol. */
  lemma PanicsIffFeederMissing(c: Split, id: nat, at: Time)
    requires AllInProgress(c) && id in c.doing
    ensures id in c.s.sessions
    ensures var t := c.s.sessions[id];
            Fire(c, Finish(id, at)).1 == Panic
            <==> c.doing[id].Register? && t.proto !in FeederOf(c.s.reg, t.key).connections
  {
    hide Effect, BytesOf, UnregisterConnectionMain;
    assert InProgress(c, id);
    NeverPanics(c.s.reg, ConnFor(c.s.sessions[id], "", ""), at);
  }

  lemma NeverPanics(s: Statistics, conn: Connection, now: Time)
    ensures UnregisterConnectionMain(s, conn, now).1 != Panic
  {
  }
}
