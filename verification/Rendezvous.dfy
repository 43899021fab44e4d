/** Many clients and one worker exchange requests and responses over two unbuffered channels; a response
    carries nothing that says whom it is for.  The context may be cancelled and clients may time out at any
    moment; a `select` with several ready cases picks any of them. */
module Rendezvous {
  import opened Common
  import Containers = FeedInContainers

  datatype StartError = ContextCancelled | TimeoutRequest | TimeoutResponse

  datatype Client =
    | Submitting(request: Containers.FeedInContainer)
    | Waiting(request: Containers.FeedInContainer)
    | Answered(request: Containers.FeedInContainer, response: Containers.Response,
               answersTo: nat, answered: Containers.FeedInContainer)
    | Failed(request: Containers.FeedInContainer, error: StartError)

  /** `owner` records whose request the worker holds; the program keeps no such record. */
  datatype Worker =
    | Idle
    | Working(owner: nat, request: Containers.FeedInContainer)
    | Responding(owner: nat, request: Containers.FeedInContainer, response: Containers.Response)
    | Exited

  datatype State = State(cancelled: bool, worker: Worker, clients: map<nat, Client>)

  datatype Step =
    | Arrive(c: nat, request: Containers.FeedInContainer)
    | Submit(c: nat)
    | RequestTimeout(c: nat)
    | RequestCancelled(c: nat)
    | Complete(response: Containers.Response)
    | Deliver(c: nat)
    | ResponseTimeout(c: nat)
    | ResponseCancelled(c: nat)
    | Cancel
    | Exit

  predicate InPhase(s: State, c: nat, waiting: bool) {
    c in s.clients && if waiting then s.clients[c].Waiting? else s.clients[c].Submitting?
  }

  /** A successful response names the container of the request it was computed for. */
  predicate MayAnswer(request: Containers.FeedInContainer, response: Containers.Response) {
    response.err == None ==> response.name == Some(request.key)
  }

  lemma StartsMayAnswer(f: Containers.Fleet, image: string, request: Containers.FeedInContainer,
                        answers: Containers.StartAnswers)
    ensures MayAnswer(request, Containers.StartResult(f, image, request, answers).1)
  {
  }

  predicate Enabled(s: State, step: Step) {
    match step
    case Arrive(c, _) => c !in s.clients
    case Submit(c) => InPhase(s, c, false) && s.worker.Idle?
    case RequestTimeout(c) => InPhase(s, c, false)
    case RequestCancelled(c) => InPhase(s, c, false) && s.cancelled
    case Complete(response) => s.worker.Working? && MayAnswer(s.worker.request, response)
    case Deliver(c) => InPhase(s, c, true) && s.worker.Responding?
    case ResponseTimeout(c) => InPhase(s, c, true)
    case ResponseCancelled(c) => InPhase(s, c, true) && s.cancelled
    case Cancel => true
    case Exit => s.worker.Idle? && s.cancelled
  }

  function Fire(s: State, step: Step): State {
    if !Enabled(s, step) then s
    else match step
      case Arrive(c, request) => s.(clients := s.clients[c := Submitting(request)])
      case Submit(c) =>
        var request := s.clients[c].request;
        s.(worker := Working(c, request), clients := s.clients[c := Waiting(request)])
      case RequestTimeout(c) => s.(clients := s.clients[c := Failed(s.clients[c].request, TimeoutRequest)])
      case RequestCancelled(c) => s.(clients := s.clients[c := Failed(s.clients[c].request, ContextCancelled)])
      case Complete(response) => s.(worker := Responding(s.worker.owner, s.worker.request, response))
      case Deliver(c) =>
        var client := Answered(s.clients[c].request, s.worker.response, s.worker.owner, s.worker.request);
        s.(worker := Idle, clients := s.clients[c := client])
      case ResponseTimeout(c) => s.(clients := s.clients[c := Failed(s.clients[c].request, TimeoutResponse)])
      case ResponseCancelled(c) => s.(clients := s.clients[c := Failed(s.clients[c].request, ContextCancelled)])
      case Cancel => s.(cancelled := true)
      case Exit => s.(worker := Exited)
  }

  function After(s: State, steps: seq<Step>): State {
    if steps == [] then s else Fire(After(s, steps[..|steps| - 1]), steps[|steps| - 1])
  }

  predicate IsRun(s: State, steps: seq<Step>) {
    steps == [] || (IsRun(s, steps[..|steps| - 1]) && Enabled(After(s, steps[..|steps| - 1]), steps[|steps| - 1]))
  }

  const START := State(false, Idle, map[])

  // ---- correlation

  predicate Busy(w: Worker) {
    w.Working? || w.Responding?
  }

  /** A waiting client is the one whose request the worker holds, and every answer went to its asker. */
  ghost predicate Correlated(s: State) {
    && (forall c :: c in s.clients && s.clients[c].Waiting? ==>
          Busy(s.worker) && s.worker.owner == c && s.worker.request == s.clients[c].request)
    && (forall c :: c in s.clients && s.clients[c].Answered? ==>
          && s.clients[c].answersTo == c && s.clients[c].answered == s.clients[c].request
          && MayAnswer(s.clients[c].request, s.clients[c].response))
    && (s.worker.Responding? ==> MayAnswer(s.worker.request, s.worker.response))
    && (Busy(s.worker) ==> s.worker.owner in s.clients && s.clients[s.worker.owner].request == s.worker.request
                           && (s.clients[s.worker.owner].Waiting? || s.clients[s.worker.owner].Failed?))
  }

  lemma CorrelatedKept(s: State, step: Step)
    requires Correlated(s)
    ensures Correlated(Fire(s, step))
  {
  }

  lemma {:induction false} CorrelatedAlways(steps: seq<Step>)
    ensures Correlated(After(START, steps))
  {
    hide Fire, Correlated;
    if steps == [] {
      StartCorrelated();
    } else {
      CorrelatedAlways(steps[..|steps| - 1]);
      CorrelatedKept(After(START, steps[..|steps| - 1]), steps[|steps| - 1]);
    }
  }

  lemma StartCorrelated()
    ensures Correlated(START)
  {
  }

  /** In every reachable state at most one client waits for a response, and it is the one whose request
      the worker holds. */
  lemma OnlyTheOwnerWaits(steps: seq<Step>, c: nat, d: nat)
    requires var s := After(START, steps); InPhase(s, c, true) && InPhase(s, d, true)
    ensures c == d && Busy(After(START, steps).worker) && After(START, steps).worker.owner == c
  {
    hide After;
    CorrelatedAlways(steps);
  }

  /** Every response ever delivered answers the request of the client that received it; if it reports
      success, it names the container of that client's own feeder. */
  lemma ResponsesReachTheirAskers(steps: seq<Step>, c: nat)
    requires var s := After(START, steps); c in s.clients && s.clients[c].Answered?
    ensures var client := After(START, steps).clients[c];
            && client.answersTo == c && client.answered == client.request
            && (client.response.err == None ==> client.response.name == Some(client.request.key))
  {
    hide After;
    CorrelatedAlways(steps);
  }

  // ---- what a client ends with

  /** `r` was completed for the request that `c` submitted at i, and for no other, before the step k. */
  ghost predicate CompletedFor(steps: seq<Step>, c: nat, r: Containers.Response, i: int, j: int, k: int) {
    && 0 <= i < j < k <= |steps| && steps[i] == Submit(c) && steps[j] == Complete(r)
    && forall m :: i < m < k && m != j ==> !steps[m].Complete?
  }

  ghost predicate Held(steps: seq<Step>, c: nat, r: Containers.Response) {
    exists i, j :: CompletedFor(steps, c, r, i, j, |steps|)
  }

  ghost predicate Received(steps: seq<Step>, c: nat, r: Containers.Response) {
    exists i, j, k :: CompletedFor(steps, c, r, i, j, k) && k < |steps| && steps[k] == Deliver(c)
  }

  ghost predicate SubmittedAt(steps: seq<Step>, c: nat, i: int) {
    0 <= i < |steps| && steps[i] == Submit(c) && forall m :: i < m < |steps| ==> !steps[m].Complete?
  }

  ghost predicate UnderWork(steps: seq<Step>, c: nat) {
    exists i :: SubmittedAt(steps, c, i)
  }

  /** The steps behind what the worker holds. */
  ghost predicate WorkerTells(steps: seq<Step>, w: Worker) {
    match w
    case Working(owner, _) => UnderWork(steps, owner)
    case Responding(owner, _, response) => Held(steps, owner, response)
    case _ => true
  }

  /** The steps behind a client's state; the request is the one the client arrived with. */
  ghost predicate ClientTells(steps: seq<Step>, c: nat, client: Client) {
    && Arrive(c, client.request) in steps
    && (client.Submitting? ==> Submit(c) !in steps)
    && (client.Answered? <==> Deliver(c) in steps)
    && (client.Answered? ==> Received(steps, c, client.response))
    && (client.Failed? && client.error == TimeoutRequest <==> RequestTimeout(c) in steps)
    && (client.Failed? && client.error == TimeoutResponse <==> ResponseTimeout(c) in steps)
    && (client.Failed? && client.error == ContextCancelled <==>
          RequestCancelled(c) in steps || ResponseCancelled(c) in steps)
  }

  ghost predicate Unknown(steps: seq<Step>, c: nat) {
    && (forall request :: Arrive(c, request) !in steps)
    && Submit(c) !in steps && Deliver(c) !in steps && RequestTimeout(c) !in steps && ResponseTimeout(c) !in steps
    && RequestCancelled(c) !in steps && ResponseCancelled(c) !in steps
  }

  ghost predicate Told(steps: seq<Step>, s: State) {
    && WorkerTells(steps, s.worker)
    && (forall c :: c in s.clients ==> ClientTells(steps, c, s.clients[c]))
    && (forall c :: c !in s.clients ==> Unknown(steps, c))
  }

  lemma ReceivedStays(steps: seq<Step>, step: Step, c: nat, r: Containers.Response)
    requires Received(steps, c, r)
    ensures Received(steps + [step], c, r)
  {
    var i, j, k :| CompletedFor(steps, c, r, i, j, k) && k < |steps| && steps[k] == Deliver(c);
    assert CompletedFor(steps + [step], c, r, i, j, k) && (steps + [step])[k] == Deliver(c);
  }

  lemma DeliveredNow(steps: seq<Step>, c: nat, r: Containers.Response)
    requires Held(steps, c, r)
    ensures Received(steps + [Deliver(c)], c, r)
  {
    var i, j :| CompletedFor(steps, c, r, i, j, |steps|);
    assert CompletedFor(steps + [Deliver(c)], c, r, i, j, |steps|);
    assert (steps + [Deliver(c)])[|steps|] == Deliver(c);
  }

  lemma CompletedNow(steps: seq<Step>, c: nat, r: Containers.Response)
    requires UnderWork(steps, c)
    ensures Held(steps + [Complete(r)], c, r)
  {
    var i :| SubmittedAt(steps, c, i);
    assert CompletedFor(steps + [Complete(r)], c, r, i, |steps|, |steps| + 1);
  }

  lemma StillHeld(steps: seq<Step>, step: Step, c: nat, r: Containers.Response)
    requires Held(steps, c, r) && !step.Complete?
    ensures Held(steps + [step], c, r)
  {
    var i, j :| CompletedFor(steps, c, r, i, j, |steps|);
    assert CompletedFor(steps + [step], c, r, i, j, |steps| + 1);
  }

  lemma StillUnderWork(steps: seq<Step>, step: Step, c: nat)
    requires UnderWork(steps, c) && !step.Complete?
    ensures UnderWork(steps + [step], c)
  {
    var i :| SubmittedAt(steps, c, i);
    assert SubmittedAt(steps + [step], c, i);
  }

  lemma WorkerToldNext(steps: seq<Step>, s: State, step: Step)
    requires WorkerTells(steps, s.worker) && Enabled(s, step)
    ensures WorkerTells(steps + [step], Fire(s, step).worker)
  {
    hide Held, MayAnswer;
    if step.Submit? {
      assert SubmittedAt(steps + [step], step.c, |steps|);
    } else if step.Complete? {
      CompletedNow(steps, s.worker.owner, step.response);
    } else {
      if s.worker.Working? {
        StillUnderWork(steps, step, s.worker.owner);
      } else if s.worker.Responding? {
        StillHeld(steps, step, s.worker.owner, s.worker.response);
      }
    }
  }

  predicate Concerns(step: Step, c: nat) {
    !step.Complete? && !step.Cancel? && !step.Exit? && step.c == c
  }

  /** A step that does not concern a client leaves it, and what is told of it, as they were. */
  lemma ClientUnmoved(steps: seq<Step>, s: State, step: Step, c: nat)
    requires c in s.clients && ClientTells(steps, c, s.clients[c]) && !Concerns(step, c)
    ensures c in Fire(s, step).clients && Fire(s, step).clients[c] == s.clients[c]
    ensures ClientTells(steps + [step], c, s.clients[c])
  {
    hide Received, MayAnswer;
    if s.clients[c].Answered? {
      ReceivedStays(steps, step, c, s.clients[c].response);
    }
  }

  lemma ClientArrived(steps: seq<Step>, c: nat, request: Containers.FeedInContainer)
    requires Unknown(steps, c)
    ensures ClientTells(steps + [Arrive(c, request)], c, Submitting(request))
  {
    hide Received;
  }

  lemma ClientAnswered(steps: seq<Step>, c: nat, client: Client, response: Containers.Response, answered: Client)
    requires ClientTells(steps, c, client) && client.Waiting? && Held(steps, c, response)
    requires answered.Answered? && answered.request == client.request && answered.response == response
    ensures ClientTells(steps + [Deliver(c)], c, answered)
  {
    hide Received, Held;
    DeliveredNow(steps, c, response);
  }

  lemma ClientMoved(steps: seq<Step>, s: State, step: Step, c: nat)
    requires c in s.clients && ClientTells(steps, c, s.clients[c]) && Concerns(step, c) && Enabled(s, step)
    requires !step.Deliver?
    ensures ClientTells(steps + [step], c, Fire(s, step).clients[c])
  {
    hide Received, MayAnswer;
  }

  lemma ClientToldNext(steps: seq<Step>, s: State, step: Step, c: nat)
    requires Told(steps, s) && Correlated(s) && Enabled(s, step) && c in Fire(s, step).clients
    ensures ClientTells(steps + [step], c, Fire(s, step).clients[c])
  {
    hide ClientTells, Unknown, MayAnswer, Held, UnderWork;
    if c !in s.clients {
      ClientArrived(steps, c, step.request);
    } else if !Concerns(step, c) {
      ClientUnmoved(steps, s, step, c);
    } else if step.Deliver? {
      ClientAnswered(steps, c, s.clients[c], s.worker.response, Fire(s, step).clients[c]);
    } else {
      ClientMoved(steps, s, step, c);
    }
  }

  lemma UnknownNext(steps: seq<Step>, s: State, step: Step, c: nat)
    requires Told(steps, s) && Enabled(s, step) && c !in Fire(s, step).clients
    ensures Unknown(steps + [step], c)
  {
    hide WorkerTells, ClientTells;
    assert forall x :: x in steps + [step] <==> x in steps || x == step;
    assert Unknown(steps, c);
  }

  lemma {:induction false} ToldAlways(steps: seq<Step>)
    requires IsRun(START, steps)
    ensures Told(steps, After(START, steps))
  {
    hide Fire, Enabled, WorkerTells, ClientTells, Unknown, Correlated;
    if steps == [] {
      StartTold();
    } else {
      var prefix, step := steps[..|steps| - 1], steps[|steps| - 1];
      var s := After(START, prefix);
      ToldAlways(prefix);
      CorrelatedAlways(prefix);
      assert steps == prefix + [step];
      ToldNext(prefix, s, step);
    }
  }

  lemma ToldNext(steps: seq<Step>, s: State, step: Step)
    requires Told(steps, s) && Correlated(s) && Enabled(s, step)
    ensures Told(steps + [step], Fire(s, step))
  {
    hide Fire, Enabled, WorkerTells, ClientTells, Unknown, Correlated;
    WorkerToldNext(steps, s, step);
    forall c | c in Fire(s, step).clients ensures ClientTells(steps + [step], c, Fire(s, step).clients[c]) {
      ClientToldNext(steps, s, step, c);
    }
    forall c | c !in Fire(s, step).clients ensures Unknown(steps + [step], c) {
      UnknownNext(steps, s, step, c);
    }
  }

  lemma StartTold()
    ensures Told([], START)
  {
  }

  /** In every run, a client that was answered has the response the worker completed for its own request:
      it submitted, the worker completed exactly this one response, and that was delivered to it. */
  lemma ClientsGetWhatWasCompleted(steps: seq<Step>, c: nat) returns (i: int, j: int, k: int)
    requires IsRun(START, steps)
    requires c in After(START, steps).clients && After(START, steps).clients[c].Answered?
    ensures 0 <= i < j < k < |steps|
    ensures steps[i] == Submit(c) && steps[k] == Deliver(c)
    ensures steps[j] == Complete(After(START, steps).clients[c].response)
    ensures forall m :: i < m < k && m != j ==> !steps[m].Complete?
  {
    hide After, IsRun, WorkerTells;
    ToldAlways(steps);
    var client := After(START, steps).clients[c];
    assert ClientTells(steps, c, client);
    i, j, k :| CompletedFor(steps, c, client.response, i, j, k) && k < |steps| && steps[k] == Deliver(c);
  }

  /** In every run a client has the request it arrived with, is answered exactly if a response was delivered
      to it, and fails exactly as it gave up: waiting for the worker, waiting for the response, or because the
      context was cancelled in either place. */
  lemma ClientsEndAsTheyLeft(steps: seq<Step>, c: nat)
    requires IsRun(START, steps) && c in After(START, steps).clients
    ensures var client := After(START, steps).clients[c];
            && Arrive(c, client.request) in steps
            && (client.Answered? <==> Deliver(c) in steps)
            && (client.Failed? && client.error == TimeoutRequest <==> RequestTimeout(c) in steps)
            && (client.Failed? && client.error == TimeoutResponse <==> ResponseTimeout(c) in steps)
            && (client.Failed? && client.error == ContextCancelled <==>
                  RequestCancelled(c) in steps || ResponseCancelled(c) in steps)
  {
    hide After, IsRun, Received, WorkerTells;
    ToldAlways(steps);
    assert ClientTells(steps, c, After(START, steps).clients[c]);
  }

  /** The context is cancelled exactly if it was, and the worker is gone exactly if it left. */
  lemma {:induction false} CancelledAndExited(steps: seq<Step>)
    requires IsRun(START, steps)
    ensures After(START, steps).cancelled <==> Cancel in steps
    ensures After(START, steps).worker.Exited? <==> Exit in steps
  {
    hide Fire, Enabled;
    if steps != [] {
      var prefix, step := steps[..|steps| - 1], steps[|steps| - 1];
      CancelledAndExited(prefix);
      CancelsOrExits(After(START, prefix), step);
      assert forall x :: x in steps <==> x in prefix || x == step;
    }
  }

  lemma CancelsOrExits(s: State, step: Step)
    requires Enabled(s, step)
    ensures Fire(s, step).cancelled <==> s.cancelled || step == Cancel
    ensures Fire(s, step).worker.Exited? <==> s.worker.Exited? || step == Exit
  {
    hide MayAnswer;
  }

  // ---- progress

  /** The accepted request's client has given up. */
  predicate Abandoned(s: State) {
    Busy(s.worker) && !InPhase(s, s.worker.owner, true)
  }

  /** An abandoned worker waits for its own response to be taken, for ever. */
  ghost predicate Stuck(s: State) {
    && Busy(s.worker) && (forall c :: c in s.clients ==> !s.clients[c].Waiting?)
  }

  lemma StuckStep(s: State, step: Step)
    requires Stuck(s) && Enabled(s, step)
    ensures Stuck(Fire(s, step)) && !step.Submit? && !step.Deliver? && !step.Exit?
    ensures Fire(s, step).worker.owner == s.worker.owner
    ensures s.worker.Responding? ==> Fire(s, step).worker == s.worker
  {
  }

  lemma AbandonedIsStuck(steps: seq<Step>)
    requires Abandoned(After(START, steps))
    ensures Stuck(After(START, steps))
  {
    hide After;
    CorrelatedAlways(steps);
  }

  /** However a run goes on from a stuck state: the worker stays with the same request, no request is
      accepted, no response delivered, and the worker never exits, not even after cancellation. */
  lemma {:induction false} StuckForEver(s: State, steps: seq<Step>)
    requires Stuck(s) && IsRun(s, steps)
    ensures Stuck(After(s, steps)) && After(s, steps).worker.owner == s.worker.owner
    ensures forall k :: 0 <= k < |steps| ==> !steps[k].Submit? && !steps[k].Deliver? && !steps[k].Exit?
  {
    hide Fire, Enabled, Stuck;
    if steps != [] {
      var prefix := steps[..|steps| - 1];
      StuckForEver(s, prefix);
      StuckStep(After(s, prefix), steps[|steps| - 1]);
      forall k | 0 <= k < |steps| ensures !steps[k].Submit? && !steps[k].Deliver? && !steps[k].Exit? {
        if k < |steps| - 1 {
          assert prefix[k] == steps[k];
        }
      }
    }
  }

  /** The worker accepts requests again, or has exited. */
  ghost predicate CanRecover(s: State) {
    exists more :: IsRun(s, more) && !Busy(After(s, more).worker)
  }

  lemma Two(s: State, a: Step, b: Step)
    ensures After(s, [a]) == Fire(s, a) && After(s, [a, b]) == Fire(Fire(s, a), b)
    ensures IsRun(s, [a]) <==> Enabled(s, a)
    ensures IsRun(s, [a, b]) <==> Enabled(s, a) && Enabled(Fire(s, a), b)
  {
    hide Fire, Enabled;
    assert [a][..0] == [] && [a, b][..1] == [a];
    assert After(s, [a]) == Fire(After(s, []), a);
  }

  /** While the request's client still waits, the worker's own steps bring it back to accepting requests:
      it completes the request and hands the response over. */
  lemma WorkerReturns(steps: seq<Step>, response: Containers.Response) returns (more: seq<Step>)
    requires Busy(After(START, steps).worker) && !Abandoned(After(START, steps))
    requires MayAnswer(After(START, steps).worker.request, response)
    ensures |more| <= 2 && IsRun(After(START, steps), more) && After(After(START, steps), more).worker == Idle
    ensures var c := After(START, steps).worker.owner;
            && c in After(After(START, steps), more).clients && After(After(START, steps), more).clients[c].Answered?
            && After(After(START, steps), more).clients[c].response
               == if After(START, steps).worker.Working? then response else After(START, steps).worker.response
  {
    hide After, IsRun;
    var s := After(START, steps);
    var owner := s.worker.owner;
    Two(s, Complete(response), Deliver(owner));
    Two(s, Deliver(owner), Deliver(owner));
    more := if s.worker.Working? then [Complete(response), Deliver(owner)] else [Deliver(owner)];
  }

  /** In every reachable state with a request in the worker's hands, the worker can ever again accept a
      request or exit if and only if the client that made the request is still waiting. */
  lemma RecoversIffNotAbandoned(steps: seq<Step>)
    requires Busy(After(START, steps).worker)
    ensures CanRecover(After(START, steps)) <==> !Abandoned(After(START, steps))
  {
    hide After, IsRun, Abandoned, Stuck;
    var s := After(START, steps);
    if Abandoned(s) {
      AbandonedIsStuck(steps);
      forall more | IsRun(s, more) ensures Busy(After(s, more).worker) {
        StuckForEver(s, more);
        StuckIsBusy(After(s, more));
      }
    } else {
      var more := WorkerReturns(steps, Containers.Response(Some(Containers.NoClient), false, None, Containers.NO_ID));
      assert IsRun(s, more) && !Busy(After(s, more).worker);
    }
  }

  lemma StuckIsBusy(s: State)
    requires Stuck(s)
    ensures Busy(s.worker)
  {
  }

  /** An idle worker takes any submitted request, and exits once cancelled. */
  lemma IdleWorkerServes(s: State, c: nat)
    requires s.worker.Idle?
    ensures InPhase(s, c, false) ==>
              Enabled(s, Submit(c)) && Fire(s, Submit(c)).worker == Working(c, s.clients[c].request)
    ensures s.cancelled ==> Enabled(s, Exit) && Fire(s, Exit).worker == Exited
  {
  }

  /** A client can abandon its request as soon as it was accepted, so a single slow start can stop all
      later ones: from every state with an idle worker and a submitted request the worker can get stuck. */
  lemma OneTimeoutSuffices(s: State, c: nat) returns (more: seq<Step>)
    requires s.worker.Idle? && InPhase(s, c, false)
    requires forall d :: d in s.clients ==> !s.clients[d].Waiting?
    ensures IsRun(s, more) && Stuck(After(s, more)) && |more| == 2
  {
    hide After, IsRun;
    more := [Submit(c), ResponseTimeout(c)];
    Two(s, Submit(c), ResponseTimeout(c));
  }
}
