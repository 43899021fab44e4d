/** The checker's pass, one Docker call at a time: the containers are listed once, and each removal is tried
    later.  Containers may start, end or be kicked between any two of these calls. */
module CheckerCalls {
  import opened FeedInContainers
  import opened RollingReplacement

  datatype Pass = Sleeping | Trying(todo: seq<Container>)

  datatype State = State(f: Fleet, pass: Pass)

  datatype Call =
    | Other(step: Step)            // a start, a kick or an exit
    | ListAll(answered: bool)
    | TryNext(refused: bool)       // looks at the next listed container, and removes it if out of date

  predicate Exists(f: Fleet, id: nat) {
    exists x :: x in f.containers && x.id == id
  }

  predicate Enabled(s: State, call: Call) {
    match call
    case Other(step) => !step.Check?
    case ListAll(_) => s.pass.Sleeping?
    case TryNext(_) => s.pass.Trying?
  }

  /** Removing a container that is no longer there fails, and the pass goes on. */
  function Fire(s: State, image: string, call: Call): State {
    match call
    case Other(step) => s.(f := Apply(s.f, image, step))
    case ListAll(answered) => if answered then s.(pass := Trying(Running(s.f.containers))) else s
    case TryNext(refused) =>
      if s.pass.Sleeping? || s.pass.todo == [] then s.(pass := Sleeping)
      else
        var c := s.pass.todo[0];
        if c.image != image && !refused && Exists(s.f, c.id)
        then State(s.f.(containers := WithoutId(s.f.containers, c.id)), Sleeping)
        else s.(pass := Trying(s.pass.todo[1..]))
  }

  function After(f: Fleet, image: string, calls: seq<Call>): State {
    if calls == [] then State(f, Sleeping) else Fire(After(f, image, calls[..|calls| - 1]), image, calls[|calls| - 1])
  }

  predicate IsRun(f: Fleet, image: string, calls: seq<Call>) {
    calls == [] ||
    (IsRun(f, image, calls[..|calls| - 1]) && Enabled(After(f, image, calls[..|calls| - 1]), calls[|calls| - 1]))
  }

  /** Passes that have ended along the run. */
  function Ended(f: Fleet, image: string, calls: seq<Call>): nat {
    if calls == [] then 0
    else
      var prefix, call := calls[..|calls| - 1], calls[|calls| - 1];
      var s' := Fire(After(f, image, prefix), image, call);
      Ended(f, image, prefix) + if call.TryNext? && s'.pass.Sleeping? then 1 else 0
  }

  /** No removal of a container that is there is refused. */
  predicate Unrefused(calls: seq<Call>) {
    forall call :: call in calls && call.TryNext? ==> !call.refused
  }

  function Stale(s: State, image: string): nat {
    OutOfDateCount(s.f.containers, image)
  }

  /** During a pass everything out of date is still to be tried, and what is to be tried is, if it is still
      there, the running container that was listed. */
  ghost predicate InStep(s: State, image: string) {
    s.pass.Trying? ==>
      && (forall c :: c in s.f.containers && OutOfDate(c, image) ==> c in s.pass.todo)
      && (forall c :: c in s.pass.todo ==> c.running && c.id < s.f.nextId)
      && (forall c, x :: c in s.pass.todo && x in s.f.containers && x.id == c.id ==> x == c)
  }

  /** The only container another step can add is a current one under a new id. */
  lemma OnlyCurrentOnesAppear(f: Fleet, image: string, step: Step)
    requires WellFormed(f) && !step.Check?
    ensures var f' := Apply(f, image, step);
            && f.nextId <= f'.nextId
            && forall x :: x in f'.containers ==> x in f.containers || (x.id == f.nextId && x.image == image)
  {
    hide Running, Named, Started, WithoutId;
    forall id ensures forall x :: x in WithoutId(f.containers, id) <==> x in f.containers && x.id != id {
      WithoutIdDistinct(f.containers, id);
    }
    if step.StartFor? && Named(f.containers, step.request.key) == [] {
      CreatedWellFormed(f, step.request.key, image);
      CreatedUndone(f, step.request.key, image);
    }
  }

  lemma ListedInStep(f: Fleet, image: string)
    requires WellFormed(f)
    ensures InStep(State(f, Trying(Running(f.containers))), image)
  {
    forall c ensures c in Running(f.containers) <==> c in f.containers && c.running {
      InRunning(f.containers, c);
    }
    forall c, x | c in Running(f.containers) && x in f.containers && x.id == c.id ensures x == c {
      if x != c {
        DistinctIds(f.containers, c, x);
      }
    }
  }

  lemma CallKeeps(s: State, image: string, call: Call)
    requires WellFormed(s.f) && Enabled(s, call) && InStep(s, image) && (call.TryNext? ==> !call.refused)
    ensures WellFormed(Fire(s, image, call).f) && InStep(Fire(s, image, call), image)
  {
    hide Apply, Running, WithoutId;
    match call
    case Other(step) =>
      WellFormedKept(s.f, image, step);
      OnlyCurrentOnesAppear(s.f, image, step);
    case ListAll(_) => ListedInStep(s.f, image);
    case TryNext(_) =>
      if s.pass.todo != [] {
        WithoutIdDistinct(s.f.containers, s.pass.todo[0].id);
        assert forall c :: c in s.pass.todo ==> c == s.pass.todo[0] || c in s.pass.todo[1..];
      }
  }

  /** No call raises the number of out-of-date containers, and a pass ends either with one less of them or
      with none left. */
  lemma CallCount(s: State, image: string, call: Call)
    requires WellFormed(s.f) && Enabled(s, call) && InStep(s, image) && (call.TryNext? ==> !call.refused)
    ensures var s' := Fire(s, image, call);
            && Stale(s', image) <= Stale(s, image)
            && (call.TryNext? && s'.pass.Sleeping? ==>
                  Stale(s', image) == if Stale(s, image) == 0 then 0 else Stale(s, image) - 1)
  {
    hide Apply, Running, WithoutId, OutOfDateCount;
    match call
    case Other(step) => StepCount(s.f, image, step);
    case ListAll(_) =>
    case TryNext(_) =>
      NoneOutOfDate(s.f.containers, image);
      if s.pass.todo != [] && Exists(s.f, s.pass.todo[0].id) {
        var c := s.pass.todo[0];
        var x :| x in s.f.containers && x.id == c.id;
        assert x == c;
        assert c.image != image ==> HasOutOfDate(s.f.containers, image, c.id);
        CountWithout(s.f.containers, c.id, image);
      }
  }

  /** In every run between rebuilds in which no removal of a container that is there is refused, n out-of-date
      containers are gone after at most n passes, whatever happens between the calls of a pass. */
  lemma {:induction false} ConvergesCallByCall(f: Fleet, image: string, calls: seq<Call>)
    requires WellFormed(f) && IsRun(f, image, calls) && Unrefused(calls)
    ensures var n, k := OutOfDateCount(f.containers, image), Ended(f, image, calls);
            Stale(After(f, image, calls), image) <= if k >= n then 0 else n - k
    ensures WellFormed(After(f, image, calls).f) && InStep(After(f, image, calls), image)
  {
    hide Fire, Enabled, WellFormed, InStep, OutOfDateCount;
    if calls == [] {
      Asleep(f, image);
    } else {
      var prefix, call := calls[..|calls| - 1], calls[|calls| - 1];
      assert call in calls && Unrefused(prefix);
      ConvergesCallByCall(f, image, prefix);
      CallKeeps(After(f, image, prefix), image, call);
      CallCount(After(f, image, prefix), image, call);
    }
  }

  lemma Asleep(f: Fleet, image: string)
    ensures InStep(State(f, Sleeping), image)
  {
  }

  // ---- what the checker leaves alone

  /** What is still to be tried is, if it is still there, the container that was listed; refused or not. */
  ghost predicate Listed(s: State) {
    s.pass.Trying? ==>
      && (forall c :: c in s.pass.todo ==> c.id < s.f.nextId)
      && (forall c, x :: c in s.pass.todo && x in s.f.containers && x.id == c.id ==> x == c)
  }

  lemma ListedKept(s: State, image: string, call: Call)
    requires WellFormed(s.f) && Enabled(s, call) && Listed(s)
    ensures WellFormed(Fire(s, image, call).f) && Listed(Fire(s, image, call))
  {
    hide Apply, Running, WithoutId;
    match call
    case Other(step) =>
      WellFormedKept(s.f, image, step);
      OnlyCurrentOnesAppear(s.f, image, step);
    case ListAll(_) => ListedInStep(s.f, image);
    case TryNext(_) =>
      if s.pass.todo != [] {
        WithoutIdDistinct(s.f.containers, s.pass.todo[0].id);
        assert forall c :: c in s.pass.todo ==> c == s.pass.todo[0] || c in s.pass.todo[1..];
      }
  }

  /** A call of the checker removes at most one container: an out-of-date one that was listed as running. */
  lemma TriesRemoveOutOfDate(s: State, image: string, refused: bool)
    requires WellFormed(s.f) && Listed(s) && s.pass.Trying?
    ensures var f' := Fire(s, image, TryNext(refused)).f;
            f' == s.f || (!refused && s.pass.todo != [] && s.pass.todo[0] in s.f.containers
                          && s.pass.todo[0].image != image && IsWithout(s.f.containers, s.pass.todo[0], f'.containers))
  {
    hide WithoutId;
    if s.pass.todo != [] && Exists(s.f, s.pass.todo[0].id) {
      var x :| x in s.f.containers && x.id == s.pass.todo[0].id;
      assert x == s.pass.todo[0];
      WithoutIdDistinct(s.f.containers, x.id);
      forall y | y in s.f.containers && y.id == x.id ensures y == x {
        if y != x {
          DistinctIds(s.f.containers, y, x);
        }
      }
    }
  }

  lemma CurrentStays(s: State, image: string, call: Call, c: Container)
    requires WellFormed(s.f) && Enabled(s, call) && Listed(s) && c in s.f.containers && c.image == image
    requires call != Other(Kick(c.name)) && call != Other(Exit(c.id))
    ensures c in Fire(s, image, call).f.containers
  {
    hide Apply, Running, WithoutId;
    match call
    case Other(step) => OthersStay(s.f, image, step, c);
    case ListAll(_) =>
    case TryNext(refused) => TriesRemoveOutOfDate(s, image, refused);
  }

  lemma OthersStay(f: Fleet, image: string, step: Step, c: Container)
    requires WellFormed(f) && !step.Check? && c in f.containers && step != Kick(c.name) && step != Exit(c.id)
    ensures c in Apply(f, image, step).containers
  {
    hide Running, Named, Started, WithoutId;
    forall id ensures forall x :: x in WithoutId(f.containers, id) <==> x in f.containers && x.id != id {
      WithoutIdDistinct(f.containers, id);
    }
    match step
    case StartFor(request, answers) =>
      if Named(f.containers, request.key) == [] {
        CreatedWellFormed(f, request.key, image);
        CreatedUndone(f, request.key, image);
      }
    case Kick(name) =>
      if |Named(f.containers, name)| == 1 {
        var x := Named(f.containers, name)[0];
        InNamed(f.containers, name, x);
        DistinctIds(f.containers, c, x);
      }
    case Exit(_) =>
  }

  /** In every run, whatever is refused and whatever happens between the calls, a container of the current
      image stays until its feeder is kicked or it ends by itself. */
  lemma {:induction false} CurrentOnesStay(f: Fleet, image: string, calls: seq<Call>, c: Container)
    requires WellFormed(f) && IsRun(f, image, calls) && c in f.containers && c.image == image
    requires Other(Kick(c.name)) !in calls && Other(Exit(c.id)) !in calls
    ensures WellFormed(After(f, image, calls).f) && Listed(After(f, image, calls))
    ensures c in After(f, image, calls).f.containers
  {
    hide Fire, Enabled, WellFormed, Listed;
    if calls == [] {
      NothingListed(f);
    } else {
      var prefix, call := calls[..|calls| - 1], calls[|calls| - 1];
      assert call in calls;
      CurrentOnesStay(f, image, prefix, c);
      ListedKept(After(f, image, prefix), image, call);
      CurrentStays(After(f, image, prefix), image, call, c);
    }
  }

  lemma NothingListed(f: Fleet)
    ensures Listed(State(f, Sleeping))
  {
  }
}
