/** The clients, the worker and Docker together: what a client is answered is the outcome of starting the
    container it asked for. */
module StartRequests {
  import opened Common
  import opened Containers = FeedInContainers
  import opened RollingReplacement
  import Rendezvous

  datatype State = State(talk: Rendezvous.State, fleet: Fleet)

  datatype Move =
    | Talks(step: Rendezvous.Step)     // a step of a client or of the channels
    | Starts(answers: StartAnswers)    // the worker carries out the request it holds
    | Changes(change: Containers.Step) // the checker, a kick, or a container that ends

  ghost predicate Enabled(s: State, move: Move) {
    match move
    case Talks(step) => !step.Complete? && Rendezvous.Enabled(s.talk, step)
    case Starts(_) => s.talk.worker.Working?
    case Changes(change) => !change.StartFor?
  }

  function Fire(s: State, image: string, move: Move): State {
    match move
    case Talks(step) => s.(talk := Rendezvous.Fire(s.talk, step))
    case Starts(answers) =>
      if !s.talk.worker.Working? then s
      else
        var (fleet, response) := StartResult(s.fleet, image, s.talk.worker.request, answers);
        State(Rendezvous.Fire(s.talk, Rendezvous.Complete(response)), fleet)
    case Changes(change) => s.(fleet := Containers.Apply(s.fleet, image, change))
  }

  function After(f: Fleet, image: string, moves: seq<Move>): State {
    if moves == [] then State(Rendezvous.START, f)
    else Fire(After(f, image, moves[..|moves| - 1]), image, moves[|moves| - 1])
  }

  ghost predicate IsRun(f: Fleet, image: string, moves: seq<Move>) {
    moves == [] ||
    (IsRun(f, image, moves[..|moves| - 1]) && Enabled(After(f, image, moves[..|moves| - 1]), moves[|moves| - 1]))
  }

  // ---- either side on its own

  function TalkSteps(s: State, image: string, move: Move): seq<Rendezvous.Step> {
    match move
    case Talks(step) => [step]
    case Starts(answers) =>
      if !s.talk.worker.Working? then []
      else [Rendezvous.Complete(StartResult(s.fleet, image, s.talk.worker.request, answers).1)]
    case Changes(_) => []
  }

  function FleetSteps(s: State, move: Move): seq<Containers.Step> {
    match move
    case Talks(_) => []
    case Starts(answers) => if s.talk.worker.Working? then [StartFor(s.talk.worker.request, answers)] else []
    case Changes(change) => [change]
  }

  function Talk(f: Fleet, image: string, moves: seq<Move>): seq<Rendezvous.Step> {
    if moves == [] then []
    else
      var prefix := moves[..|moves| - 1];
      Talk(f, image, prefix) + TalkSteps(After(f, image, prefix), image, moves[|moves| - 1])
  }

  function Work(f: Fleet, image: string, moves: seq<Move>): seq<Containers.Step> {
    if moves == [] then []
    else
      var prefix := moves[..|moves| - 1];
      Work(f, image, prefix) + FleetSteps(After(f, image, prefix), moves[|moves| - 1])
  }

  lemma SidesStep(s: State, image: string, move: Move)
    requires Enabled(s, move)
    ensures var talk, work := TalkSteps(s, image, move), FleetSteps(s, move);
            && |talk| <= 1 && |work| <= 1 && (talk != [] ==> Rendezvous.Enabled(s.talk, talk[0]))
            && Fire(s, image, move).talk == (if talk == [] then s.talk else Rendezvous.Fire(s.talk, talk[0]))
            && Fire(s, image, move).fleet == (if work == [] then s.fleet else Containers.Apply(s.fleet, image, work[0]))
  {
    hide StartResult, Rendezvous.Fire;
    if move.Starts? {
      Rendezvous.StartsMayAnswer(s.fleet, image, s.talk.worker.request, move.answers);
    }
  }

  lemma Appended<T>(a: seq<T>, b: seq<T>)
    requires |b| <= 1
    ensures b == [] ==> a + b == a
    ensures b != [] ==> a + b != [] && (a + b)[..|a + b| - 1] == a && (a + b)[|a + b| - 1] == b[0]
  {
  }

  /** The exchange of requests and responses, and the containers, each run as they do on their own. */
  lemma {:induction false} BothSidesRun(f: Fleet, image: string, moves: seq<Move>)
    requires IsRun(f, image, moves)
    ensures Rendezvous.IsRun(Rendezvous.START, Talk(f, image, moves))
    ensures After(f, image, moves).talk == Rendezvous.After(Rendezvous.START, Talk(f, image, moves))
    ensures After(f, image, moves).fleet == Containers.After(f, image, Work(f, image, moves))
  {
    hide Fire, Enabled, TalkSteps, FleetSteps, Rendezvous.Fire, Rendezvous.Enabled, Containers.Apply;
    if moves != [] {
      var prefix, move := moves[..|moves| - 1], moves[|moves| - 1];
      var s := After(f, image, prefix);
      BothSidesRun(f, image, prefix);
      SidesStep(s, image, move);
      Appended(Talk(f, image, prefix), TalkSteps(s, image, move));
      Appended(Work(f, image, prefix), FleetSteps(s, move));
    }
  }

  // ---- every response is the outcome of the start its client asked for

  /** At move j the worker held this request of c, and starting its container gave this response. */
  ghost predicate StartedAt(f: Fleet, image: string, moves: seq<Move>, j: int, c: nat, request: FeedInContainer,
                            response: Response)
  {
    && 0 <= j < |moves| && moves[j].Starts?
    && After(f, image, moves[..j]).talk.worker == Rendezvous.Working(c, request)
    && response == StartResult(After(f, image, moves[..j]).fleet, image, request, moves[j].answers).1
  }

  ghost predicate Started(f: Fleet, image: string, moves: seq<Move>, c: nat, request: FeedInContainer,
                          response: Response)
  {
    exists j :: StartedAt(f, image, moves, j, c, request, response)
  }

  ghost predicate AllStarted(f: Fleet, image: string, moves: seq<Move>, talk: Rendezvous.State) {
    && (talk.worker.Responding? ==>
          Started(f, image, moves, talk.worker.owner, talk.worker.request, talk.worker.response))
    && (forall c :: c in talk.clients && talk.clients[c].Answered? ==>
          Started(f, image, moves, c, talk.clients[c].request, talk.clients[c].response))
  }

  lemma StartedBefore(f: Fleet, image: string, moves: seq<Move>, c: nat, request: FeedInContainer, response: Response)
    requires moves != [] && Started(f, image, moves[..|moves| - 1], c, request, response)
    ensures Started(f, image, moves, c, request, response)
  {
    hide After, StartResult;
    var j :| StartedAt(f, image, moves[..|moves| - 1], j, c, request, response);
    assert moves[..|moves| - 1][..j] == moves[..j];
    assert StartedAt(f, image, moves, j, c, request, response);
  }

  lemma TalkStarted(f: Fleet, image: string, moves: seq<Move>)
    requires moves != [] && moves[|moves| - 1].Talks?
    requires var prefix := moves[..|moves| - 1];
             var s := After(f, image, prefix);
             Enabled(s, moves[|moves| - 1]) && AllStarted(f, image, prefix, s.talk) && Rendezvous.Correlated(s.talk)
    ensures AllStarted(f, image, moves, After(f, image, moves).talk)
  {
    hide Started, StartResult, After, Rendezvous.MayAnswer;
    var s := After(f, image, moves[..|moves| - 1]);
    var talk := Rendezvous.Fire(s.talk, moves[|moves| - 1].step);
    AfterTalk(f, image, moves);
    if talk.worker.Responding? {
      StartedBefore(f, image, moves, talk.worker.owner, talk.worker.request, talk.worker.response);
    }
    forall c | c in talk.clients && talk.clients[c].Answered?
      ensures Started(f, image, moves, c, talk.clients[c].request, talk.clients[c].response)
    {
      StartedBefore(f, image, moves, c, talk.clients[c].request, talk.clients[c].response);
    }
  }

  lemma AfterTalk(f: Fleet, image: string, moves: seq<Move>)
    requires moves != [] && moves[|moves| - 1].Talks?
    ensures After(f, image, moves).talk
            == Rendezvous.Fire(After(f, image, moves[..|moves| - 1]).talk, moves[|moves| - 1].step)
  {
    hide Rendezvous.Fire;
  }

  lemma WorkStarted(f: Fleet, image: string, moves: seq<Move>)
    requires moves != [] && !moves[|moves| - 1].Talks?
    requires var prefix := moves[..|moves| - 1];
             && Enabled(After(f, image, prefix), moves[|moves| - 1])
             && AllStarted(f, image, prefix, After(f, image, prefix).talk)
    ensures AllStarted(f, image, moves, After(f, image, moves).talk)
  {
    hide Started, StartResult, Containers.Apply, Rendezvous.MayAnswer;
    var prefix, move := moves[..|moves| - 1], moves[|moves| - 1];
    var s, s' := After(f, image, prefix), After(f, image, moves);
    assert s' == Fire(s, image, move);
    if move.Starts? {
      var w := s.talk.worker;
      Rendezvous.StartsMayAnswer(s.fleet, image, w.request, move.answers);
      assert s'.talk.clients == s.talk.clients;
      JustStarted(f, image, moves, w.owner, w.request);
    } else if s.talk.worker.Responding? {
      StartedBefore(f, image, moves, s.talk.worker.owner, s.talk.worker.request, s.talk.worker.response);
    }
    forall c | c in s'.talk.clients && s'.talk.clients[c].Answered?
      ensures Started(f, image, moves, c, s'.talk.clients[c].request, s'.talk.clients[c].response)
    {
      StartedBefore(f, image, moves, c, s'.talk.clients[c].request, s'.talk.clients[c].response);
    }
  }

  lemma JustStarted(f: Fleet, image: string, moves: seq<Move>, c: nat, request: FeedInContainer)
    requires moves != [] && moves[|moves| - 1].Starts?
    requires After(f, image, moves[..|moves| - 1]).talk.worker == Rendezvous.Working(c, request)
    ensures var fleet := After(f, image, moves[..|moves| - 1]).fleet;
            Started(f, image, moves, c, request, StartResult(fleet, image, request, moves[|moves| - 1].answers).1)
  {
    hide After, StartResult;
    var fleet := After(f, image, moves[..|moves| - 1]).fleet;
    assert StartedAt(f, image, moves, |moves| - 1, c, request,
                     StartResult(fleet, image, request, moves[|moves| - 1].answers).1);
  }

  lemma {:induction false} AllStartedAlways(f: Fleet, image: string, moves: seq<Move>)
    requires IsRun(f, image, moves)
    ensures AllStarted(f, image, moves, After(f, image, moves).talk)
  {
    hide Fire, Enabled, AllStarted, Rendezvous.Correlated;
    if moves == [] {
      NothingStarted(f, image);
    } else {
      var prefix := moves[..|moves| - 1];
      AllStartedAlways(f, image, prefix);
      BothSidesRun(f, image, prefix);
      Rendezvous.CorrelatedAlways(Talk(f, image, prefix));
      if moves[|moves| - 1].Talks? {
        TalkStarted(f, image, moves);
      } else {
        WorkStarted(f, image, moves);
      }
    }
  }

  lemma NothingStarted(f: Fleet, image: string)
    ensures AllStarted(f, image, [], After(f, image, []).talk)
  {
  }

  /** In every run, whatever else clients, the checker and containers did in between: the response a client
      got is what starting its own container gave at some move, and if it reports no error, the feeder's
      container ran then. */
  lemma AnsweredWithItsStart(f: Fleet, image: string, moves: seq<Move>, c: nat) returns (j: int)
    requires WellFormed(f) && IsRun(f, image, moves)
    requires var talk := After(f, image, moves).talk; c in talk.clients && talk.clients[c].Answered?
    ensures 0 <= j < |moves| && moves[j].Starts?
    ensures var client := After(f, image, moves).talk.clients[c];
            var before := After(f, image, moves[..j]).fleet;
            var (fleet, response) := StartResult(before, image, client.request, moves[j].answers);
            && client.response == response
            && (response.err == None ==> response.name == Some(client.request.key)
                                         && Holds(fleet.containers, client.request.key, true))
  {
    hide After, IsRun, StartResult, WellFormed;
    AllStartedAlways(f, image, moves);
    var client := After(f, image, moves).talk.clients[c];
    j :| StartedAt(f, image, moves, j, c, client.request, client.response);
    PrefixRuns(f, image, moves, j);
    BothSidesRun(f, image, moves[..j]);
    WellFormedAlways(f, image, Work(f, image, moves[..j]));
    StartSucceedsIff(After(f, image, moves[..j]).fleet, image, client.request, moves[j].answers);
  }

  lemma {:induction false} PrefixRuns(f: Fleet, image: string, moves: seq<Move>, j: nat)
    requires IsRun(f, image, moves) && j <= |moves|
    ensures IsRun(f, image, moves[..j])
  {
    hide Enabled, After;
    if j == |moves| {
      assert moves[..j] == moves;
    } else {
      PrefixRuns(f, image, moves[..|moves| - 1], j);
      assert moves[..|moves| - 1][..j] == moves[..j];
    }
  }
}
