/** Feed-in containers: finding or creating one for a feeder, and replacing those that run an out-of-date
    image, over a Docker daemon that holds a list of containers and may refuse any request. */
module FeedInContainers {
  import opened Common

  /** A request to start the feed-in container of a feeder. */
  datatype FeedInContainer = FeedInContainer(
    lat: real, lon: real, labelText: string, key: ApiKey, code: string, addr: IP)

  datatype DockerError = NoClient | ListFailed | CreateFailed | StartFailed

  /** `id` 0 and `name` None are the zero values of the program's response. */
  datatype Response = Response(err: Option<DockerError>, startDelay: bool, name: Option<ApiKey>, id: nat)

  const NO_ID: nat := 0

  datatype Container = Container(id: nat, name: ApiKey, image: string, running: bool)

  /** The feed-in containers Docker holds, of which at most one bears the name of a given feeder. */
  datatype Fleet = Fleet(containers: seq<Container>, nextId: nat)

  ghost predicate WellFormed(f: Fleet) {
    && NO_ID < f.nextId
    && (forall c :: c in f.containers ==> NO_ID < c.id < f.nextId)
    && Distinct(f.containers)
  }

  ghost predicate Distinct(cs: seq<Container>) {
    forall i, j :: 0 <= i < j < |cs| ==> cs[i].id != cs[j].id && cs[i].name != cs[j].name
  }

  // ---- what Docker answers

  function Running(cs: seq<Container>): seq<Container> {
    if cs == [] then [] else (if cs[0].running then [cs[0]] else []) + Running(cs[1..])
  }

  function Named(cs: seq<Container>, name: ApiKey): seq<Container> {
    if cs == [] then [] else (if cs[0].name == name then [cs[0]] else []) + Named(cs[1..], name)
  }

  function WithoutId(cs: seq<Container>, id: nat): seq<Container> {
    if cs == [] then [] else (if cs[0].id != id then [cs[0]] else []) + WithoutId(cs[1..], id)
  }

  function Started(cs: seq<Container>, id: nat): seq<Container> {
    if cs == [] then [] else [if cs[0].id == id then cs[0].(running := true) else cs[0]] + Started(cs[1..], id)
  }

  /** Which requests Docker carries out; a name already in use makes a creation fail in any case.  The program
      asks for containers to be removed automatically, so one whose start fails stays behind only if the
      start request does not get as far as Docker's own clean-up; `leftBehind` says whether it does. */
  datatype StartAnswers = StartAnswers(client: bool, list: bool, create: bool, start: bool, leftBehind: bool)

  datatype CheckAnswers = CheckAnswers(client: bool, list: bool, refused: set<nat>)

  class Docker {
    var containers: seq<Container>
    var nextId: nat

    constructor (f: Fleet)
      ensures View() == f
    {
      containers, nextId := f.containers, f.nextId;
    }

    ghost function View(): Fleet
      reads this
    {
      Fleet(containers, nextId)
    }

    method ContainerRemove(id: nat, refused: set<nat>) returns (ok: bool)
      modifies this
      ensures ok <==> id !in refused
      ensures View() == if ok then Fleet(WithoutId(old(containers), id), old(nextId)) else old(View())
    {
      ok := id !in refused;
      if ok {
        containers := WithoutId(containers, id);
      }
    }

    method ContainerCreate(name: ApiKey, image: string, accepted: bool) returns (id: Option<nat>)
      modifies this
      ensures id.Some? <==> accepted && Named(old(containers), name) == []
      ensures id.Some? ==> id.value == old(nextId)
      ensures View() == if id.Some? then Created(old(View()), name, image) else old(View())
    {
      if !accepted || Named(containers, name) != [] {
        return None;
      }
      id := Some(nextId);
      containers, nextId := containers + [Container(nextId, name, image, false)], nextId + 1;
    }

    /** One pass of the checker: removes at most one container, then says how long to sleep. */
    method CheckFeederContainers(image: string, answers: CheckAnswers) returns (sleep: int, err: Option<DockerError>)
      modifies this
      ensures (View(), sleep, err) == CheckResult(old(View()), image, answers)
    {
      if !answers.client {
        return SECOND, Some(NoClient);
      }
      if !answers.list {
        return SECOND, Some(ListFailed);
      }
      var listed := Running(containers);
      var removed := false;
      var i := 0;
      while i < |listed|
        invariant 0 <= i <= |listed| && !removed && View() == old(View())
        invariant Victim(listed, image, answers.refused) == Victim(listed[i..], image, answers.refused)
      {
        if listed[i].image != image {
          var ok := ContainerRemove(listed[i].id, answers.refused);
          if ok {
            removed := true;
            break;
          }
        }
        i := i + 1;
      }
      sleep := if removed then 30 * SECOND else 300 * SECOND;
      err := None;
    }

    /** Finds the running container of a feeder, or creates and starts one. */
    method StartFeederContainers(image: string, request: FeedInContainer, answers: StartAnswers)
      returns (response: Response)
      modifies this
      ensures (View(), response) == StartResult(old(View()), image, request, answers)
    {
      if !answers.client {
        return Response(Some(NoClient), false, None, NO_ID);
      }
      var err: Option<DockerError> := None;
      response := Response(None, false, Some(request.key), NO_ID);
      var found: seq<Container> := [];
      if answers.list {
        found := Named(Running(containers), request.key);
      } else {
        err := Some(ListFailed);
      }
      if |found| == 0 {
        response := response.(startDelay := true);
        var id := ContainerCreate(request.key, image, answers.create);
        if id.None? {
          return Response(Some(CreateFailed), false, None, NO_ID);
        }
        response := response.(id := id.value);
        if !answers.start {
          if !answers.leftBehind {
            containers := WithoutId(containers, id.value);
          }
          return Response(Some(StartFailed), false, None, NO_ID);
        }
        containers := Started(containers, id.value);
      }
      response := response.(err := err);
    }
  }

  // ---- the same as functions of the fleet

  function Created(f: Fleet, name: ApiKey, image: string): Fleet {
    Fleet(f.containers + [Container(f.nextId, name, image, false)], f.nextId + 1)
  }

  /** The first listed container that is out of date and whose removal is not refused. */
  function Victim(listed: seq<Container>, image: string, refused: set<nat>): Option<nat> {
    if listed == [] then None
    else if listed[0].image != image && listed[0].id !in refused then Some(listed[0].id)
    else Victim(listed[1..], image, refused)
  }

  function CheckResult(f: Fleet, image: string, answers: CheckAnswers): (Fleet, int, Option<DockerError>) {
    if !answers.client then (f, SECOND, Some(NoClient))
    else if !answers.list then (f, SECOND, Some(ListFailed))
    else
      var victim := Victim(Running(f.containers), image, answers.refused);
      if victim.Some? then (f.(containers := WithoutId(f.containers, victim.value)), 30 * SECOND, None)
      else (f, 300 * SECOND, None)
  }

  function StartResult(f: Fleet, image: string, request: FeedInContainer, answers: StartAnswers): (Fleet, Response) {
    if !answers.client then (f, Response(Some(NoClient), false, None, NO_ID))
    else
      var err := if answers.list then None else Some(ListFailed);
      if answers.list && Named(Running(f.containers), request.key) != []
      then (f, Response(err, false, Some(request.key), NO_ID))
      else if !answers.create || Named(f.containers, request.key) != []
      then (f, Response(Some(CreateFailed), false, None, NO_ID))
      else
        var created := Created(f, request.key, image);
        var refused := if answers.leftBehind then created.containers else WithoutId(created.containers, f.nextId);
        if !answers.start then (created.(containers := refused), Response(Some(StartFailed), false, None, NO_ID))
        else
          var started := Started(created.containers, f.nextId);
          (created.(containers := started), Response(err, true, Some(request.key), f.nextId))
  }

  // ---- facts about the lists

  lemma {:induction false} InRunning(cs: seq<Container>, c: Container)
    ensures c in Running(cs) <==> c in cs && c.running
  {
    if cs != [] {
      InRunning(cs[1..], c);
    }
  }

  lemma {:induction false} InNamed(cs: seq<Container>, name: ApiKey, c: Container)
    ensures c in Named(cs, name) <==> c in cs && c.name == name
  {
    if cs != [] {
      InNamed(cs[1..], name, c);
    }
  }

  lemma {:induction false} InWithoutId(cs: seq<Container>, id: nat, c: Container)
    ensures c in WithoutId(cs, id) <==> c in cs && c.id != id
  {
    if cs != [] {
      InWithoutId(cs[1..], id, c);
    }
  }

  /** Starting changes one container only: the one just created, at the end of the list. */
  lemma {:induction false} StartedLast(cs: seq<Container>, c: Container)
    requires forall x :: x in cs ==> x.id != c.id
    ensures Started(cs + [c], c.id) == cs + [c.(running := true)]
  {
    if cs == [] {
      assert Started([c], c.id) == [c.(running := true)] + Started([], c.id);
    } else {
      assert (cs + [c])[1..] == cs[1..] + [c];
      StartedLast(cs[1..], c);
    }
  }

  lemma EmptyNamed(cs: seq<Container>, name: ApiKey)
    ensures Named(cs, name) == [] <==> forall c :: c in cs ==> c.name != name
  {
    forall c ensures c in Named(cs, name) <==> c in cs && c.name == name {
      InNamed(cs, name, c);
    }
    if Named(cs, name) != [] {
      assert Named(cs, name)[0] in Named(cs, name);
    }
  }

  ghost predicate Holds(cs: seq<Container>, name: ApiKey, running: bool) {
    exists c :: c in cs && c.name == name && c.running == running
  }

  lemma FindsRunning(cs: seq<Container>, name: ApiKey)
    ensures Named(Running(cs), name) != [] <==> Holds(cs, name, true)
  {
    EmptyNamed(Running(cs), name);
    forall c ensures c in Running(cs) <==> c in cs && c.running {
      InRunning(cs, c);
    }
  }

  // ---- one container per feeder, in every run

  datatype Step =
    | StartFor(request: FeedInContainer, startAnswers: StartAnswers)
    | Check(checkAnswers: CheckAnswers)
    | Kick(name: ApiKey)           // removes the feeder's container, running or not
    | Exit(id: nat)                // a running container ends and is removed with it

  function Apply(f: Fleet, image: string, step: Step): Fleet {
    match step
    case StartFor(request, answers) => StartResult(f, image, request, answers).0
    case Check(answers) => CheckResult(f, image, answers).0
    case Kick(name) =>
      var found := Named(f.containers, name);
      if |found| == 1 then f.(containers := WithoutId(f.containers, found[0].id)) else f
    case Exit(id) =>
      if exists c :: c in Running(f.containers) && c.id == id then f.(containers := WithoutId(f.containers, id)) else f
  }

  function After(f: Fleet, image: string, steps: seq<Step>): Fleet {
    if steps == [] then f else Apply(After(f, image, steps[..|steps| - 1]), image, steps[|steps| - 1])
  }

  lemma {:induction false} WithoutIdDistinct(cs: seq<Container>, id: nat)
    requires Distinct(cs)
    ensures Distinct(WithoutId(cs, id))
    ensures forall c :: c in WithoutId(cs, id) <==> c in cs && c.id != id
  {
    if cs != [] {
      var rest := WithoutId(cs[1..], id);
      WithoutIdDistinct(cs[1..], id);
      forall k | 0 <= k < |rest| ensures rest[k].id != cs[0].id && rest[k].name != cs[0].name {
        assert rest[k] in cs[1..];
      }
    }
  }

  lemma CreatedWellFormed(f: Fleet, name: ApiKey, image: string)
    requires WellFormed(f) && Named(f.containers, name) == []
    ensures WellFormed(Created(f, name, image))
    ensures var c := Container(f.nextId, name, image, false);
            var started := Started(Created(f, name, image).containers, f.nextId);
            && started == f.containers + [c.(running := true)]
            && WellFormed(Created(f, name, image).(containers := started))
  {
    EmptyNamed(f.containers, name);
    StartedLast(f.containers, Container(f.nextId, name, image, false));
  }

  lemma CreatedUndone(f: Fleet, name: ApiKey, image: string)
    requires WellFormed(f)
    ensures WithoutId(Created(f, name, image).containers, f.nextId) == f.containers
  {
    WithoutLast(f.containers, Container(f.nextId, name, image, false));
  }

  lemma {:induction false} WithoutLast(cs: seq<Container>, c: Container)
    requires forall x :: x in cs ==> x.id != c.id
    ensures WithoutId(cs + [c], c.id) == cs
  {
    if cs == [] {
      assert WithoutId([c], c.id) == WithoutId([], c.id);
    } else {
      assert (cs + [c])[1..] == cs[1..] + [c];
      WithoutLast(cs[1..], c);
    }
  }

  lemma WellFormedKept(f: Fleet, image: string, step: Step)
    requires WellFormed(f)
    ensures WellFormed(Apply(f, image, step))
  {
    hide Named, Running, WithoutId, Started, Victim, Created;
    forall id: nat ensures WellFormed(f.(containers := WithoutId(f.containers, id))) {
      WithoutIdDistinct(f.containers, id);
    }
    if step.StartFor? && Named(f.containers, step.request.key) == [] {
      CreatedWellFormed(f, step.request.key, image);
      CreatedUndone(f, step.request.key, image);
    }
  }

  /** The representation invariant of the model of Docker, which refuses a name in use: it holds after any
      starts, checks, kicks and exits. */
  lemma {:induction false} WellFormedAlways(f: Fleet, image: string, steps: seq<Step>)
    requires WellFormed(f)
    ensures WellFormed(After(f, image, steps))
  {
    hide Apply, WellFormed;
    if steps != [] {
      WellFormedAlways(f, image, steps[..|steps| - 1]);
      WellFormedKept(After(f, image, steps[..|steps| - 1]), image, steps[|steps| - 1]);
    }
  }
}
