/** Between image rebuilds the out-of-date feed-in containers are replaced one pass at a time, whatever
    else starts, ends or is kicked; and what a failed start leaves behind. */
module RollingReplacement {
  import opened Common
  import opened FeedInContainers

  predicate OutOfDate(c: Container, image: string) {
    c.running && c.image != image
  }

  function OutOfDateCount(cs: seq<Container>, image: string): nat {
    if cs == [] then 0 else (if OutOfDate(cs[0], image) then 1 else 0) + OutOfDateCount(cs[1..], image)
  }

  lemma {:induction false} CountAppended(cs: seq<Container>, c: Container, image: string)
    ensures OutOfDateCount(cs + [c], image) == OutOfDateCount(cs, image) + if OutOfDate(c, image) then 1 else 0
  {
    if cs == [] {
      assert [c][1..] == [];
    } else {
      assert (cs + [c])[1..] == cs[1..] + [c];
      CountAppended(cs[1..], c, image);
    }
  }

  ghost predicate HasOutOfDate(cs: seq<Container>, image: string, id: nat) {
    exists c :: c in cs && c.id == id && OutOfDate(c, image)
  }

  /** Removing a container lowers the count exactly if it was out of date. */
  lemma {:induction false} CountWithout(cs: seq<Container>, id: nat, image: string)
    requires Distinct(cs)
    ensures OutOfDateCount(WithoutId(cs, id), image)
            == OutOfDateCount(cs, image) - if HasOutOfDate(cs, image, id) then 1 else 0
  {
    if cs != [] {
      var rest := WithoutId(cs[1..], id);
      CountWithout(cs[1..], id, image);
      if cs[0].id == id {
        assert forall c :: c in cs[1..] ==> c.id != id;
        assert WithoutId(cs, id) == rest;
        assert OutOfDate(cs[0], image) ==> HasOutOfDate(cs, image, id);
      } else {
        assert ([cs[0]] + rest)[1..] == rest;
        assert HasOutOfDate(cs, image, id) <==> HasOutOfDate(cs[1..], image, id);
      }
    }
  }

  lemma {:induction false} NoneOutOfDate(cs: seq<Container>, image: string)
    ensures OutOfDateCount(cs, image) == 0 <==> forall c :: c in cs ==> !OutOfDate(c, image)
  {
    if cs != [] {
      NoneOutOfDate(cs[1..], image);
      assert cs[0] in cs;
    }
  }

  // ---- one pass

  ghost predicate Removable(f: Fleet, image: string, refused: set<nat>, c: Container) {
    c in f.containers && OutOfDate(c, image) && c.id !in refused
  }

  lemma {:induction false} VictimMeans(listed: seq<Container>, image: string, refused: set<nat>)
    ensures var victim := Victim(listed, image, refused);
            && (victim.Some? ==> exists c :: c in listed && c.id == victim.value && c.image != image
                                                && c.id !in refused)
            && (victim.None? ==> forall c :: c in listed ==> c.image == image || c.id in refused)
  {
    if listed != [] {
      VictimMeans(listed[1..], image, refused);
      assert listed[0] in listed;
    }
  }

  ghost predicate IsWithout(cs: seq<Container>, c: Container, cs': seq<Container>) {
    forall x :: x in cs' <==> x in cs && x != c
  }

  /** A pass that reaches Docker removes one container if it can, always an out-of-date one whose removal
      is not refused, and sleeps 30 seconds; only if there is none it changes nothing and sleeps 300. */
  lemma CheckPass(f: Fleet, image: string, answers: CheckAnswers)
    requires WellFormed(f)
    ensures var (f', sleep, err) := CheckResult(f, image, answers);
            && (!(answers.client && answers.list) ==>
                  f' == f && sleep == SECOND && err == Some(if answers.client then ListFailed else NoClient))
            && (answers.client && answers.list && (exists c :: Removable(f, image, answers.refused, c)) ==>
                  && err == None && sleep == 30 * SECOND
                  && OutOfDateCount(f'.containers, image) == OutOfDateCount(f.containers, image) - 1
                  && exists c :: Removable(f, image, answers.refused, c) && IsWithout(f.containers, c, f'.containers))
            && (answers.client && answers.list && !(exists c :: Removable(f, image, answers.refused, c)) ==>
                  f' == f && sleep == 300 * SECOND && err == None)
  {
    hide Running, WithoutId, Victim, OutOfDateCount;
    var cs := f.containers;
    forall c ensures c in Running(cs) <==> c in cs && c.running {
      InRunning(cs, c);
    }
    var victim := Victim(Running(cs), image, answers.refused);
    VictimMeans(Running(cs), image, answers.refused);
    if victim.Some? {
      var c :| c in Running(cs) && c.id == victim.value && c.image != image && c.id !in answers.refused;
      assert Removable(f, image, answers.refused, c);
      assert HasOutOfDate(cs, image, c.id);
      CountWithout(cs, c.id, image);
      WithoutIdDistinct(cs, c.id);
    }
  }

  // ---- runs

  lemma RemovalNeverRaises(f: Fleet, image: string, id: nat)
    requires WellFormed(f)
    ensures OutOfDateCount(WithoutId(f.containers, id), image) <= OutOfDateCount(f.containers, image)
  {
    CountWithout(f.containers, id, image);
  }

  lemma StartNeverRaises(f: Fleet, image: string, request: FeedInContainer, answers: StartAnswers)
    requires WellFormed(f)
    ensures OutOfDateCount(StartResult(f, image, request, answers).0.containers, image)
            == OutOfDateCount(f.containers, image)
  {
    hide Running, Named, Started, WithoutId, OutOfDateCount;
    if Named(f.containers, request.key) == [] {
      CreatedWellFormed(f, request.key, image);
      CreatedUndone(f, request.key, image);
      var c := Container(f.nextId, request.key, image, false);
      CountAppended(f.containers, c, image);
      CountAppended(f.containers, c.(running := true), image);
    }
  }

  predicate FreePass(step: Step) {
    step.Check? && step.checkAnswers.client && step.checkAnswers.list && step.checkAnswers.refused == {}
  }

  function Passes(steps: seq<Step>): nat {
    if steps == [] then 0 else Passes(steps[..|steps| - 1]) + if FreePass(steps[|steps| - 1]) then 1 else 0
  }

  /** No step raises the number of out-of-date containers, and an unhindered pass lowers it. */
  lemma StepCount(f: Fleet, image: string, step: Step)
    requires WellFormed(f)
    ensures var n, n' := OutOfDateCount(f.containers, image), OutOfDateCount(Apply(f, image, step).containers, image);
            n' <= n && (FreePass(step) ==> n' == if n == 0 then 0 else n - 1)
  {
    hide Running, Named, WithoutId, StartResult, Victim, OutOfDateCount;
    match step
    case StartFor(request, answers) => StartNeverRaises(f, image, request, answers);
    case Kick(name) =>
      if |Named(f.containers, name)| == 1 {
        RemovalNeverRaises(f, image, Named(f.containers, name)[0].id);
      }
    case Exit(id) => RemovalNeverRaises(f, image, id);
    case Check(answers) =>
      CheckPass(f, image, answers);
      NoneOutOfDate(f.containers, image);
      if FreePass(step) && OutOfDateCount(f.containers, image) > 0 {
        var c :| c in f.containers && OutOfDate(c, image);
        assert Removable(f, image, {}, c);
      }
  }

  /** In every run between rebuilds the number of out-of-date containers never rises, and each pass whose
      removals succeed lowers it until there is none. */
  lemma {:induction false} Converges(f: Fleet, image: string, steps: seq<Step>)
    requires WellFormed(f)
    ensures var n, k := OutOfDateCount(f.containers, image), Passes(steps);
            OutOfDateCount(After(f, image, steps).containers, image) <= if k >= n then 0 else n - k
  {
    hide Apply, WellFormed, OutOfDateCount, FreePass;
    if steps != [] {
      var prefix := steps[..|steps| - 1];
      Converges(f, image, prefix);
      WellFormedAlways(f, image, prefix);
      StepCount(After(f, image, prefix), image, steps[|steps| - 1]);
    }
  }

  /** After as many such passes as there were out-of-date containers, every running container is current
      and further passes change nothing and sleep 300 seconds. */
  lemma AllReplaced(f: Fleet, image: string, steps: seq<Step>, answers: CheckAnswers)
    requires WellFormed(f) && Passes(steps) >= OutOfDateCount(f.containers, image)
    requires answers.client && answers.list
    ensures forall c :: c in After(f, image, steps).containers && c.running ==> c.image == image
    ensures CheckResult(After(f, image, steps), image, answers) == (After(f, image, steps), 300 * SECOND, None)
  {
    hide After, WellFormed, CheckResult, OutOfDateCount;
    Converges(f, image, steps);
    WellFormedAlways(f, image, steps);
    NoneOutOfDate(After(f, image, steps).containers, image);
    CheckPass(After(f, image, steps), image, answers);
  }

  /** Passes alone need exactly as many rounds as there are out-of-date containers. */
  lemma {:induction false} PassesNeeded(f: Fleet, image: string, steps: seq<Step>)
    requires WellFormed(f) && forall step :: step in steps ==> FreePass(step)
    ensures var n := OutOfDateCount(f.containers, image);
            OutOfDateCount(After(f, image, steps).containers, image) == if |steps| >= n then 0 else n - |steps|
  {
    hide Apply, WellFormed, OutOfDateCount, FreePass;
    if steps != [] {
      var prefix := steps[..|steps| - 1];
      PassesNeeded(f, image, prefix);
      WellFormedAlways(f, image, prefix);
      assert steps[|steps| - 1] in steps;
      StepCount(After(f, image, prefix), image, steps[|steps| - 1]);
    }
  }

  ghost function Checks(passes: seq<CheckAnswers>): seq<Step> {
    seq(|passes|, i requires 0 <= i < |passes| => Check(passes[i]))
  }

  predicate Unhindered(answers: CheckAnswers) {
    FreePass(Check(answers))
  }

  /** An unhindered pass removes and sleeps 30 seconds exactly while something is out of date. */
  lemma FreeSleep(f: Fleet, image: string, answers: CheckAnswers)
    requires WellFormed(f) && Unhindered(answers)
    ensures var (_, sleep, err) := CheckResult(f, image, answers);
            err == None && sleep == if OutOfDateCount(f.containers, image) > 0 then 30 * SECOND else 300 * SECOND
  {
    hide CheckResult, OutOfDateCount;
    CheckPass(f, image, answers);
    NoneOutOfDate(f.containers, image);
    if OutOfDateCount(f.containers, image) > 0 {
      var c :| c in f.containers && OutOfDate(c, image);
      assert Removable(f, image, answers.refused, c);
    }
  }

  /** The checker's goroutine on its own, for as many passes as it makes before it is cancelled.  With
      nothing in its way it sleeps 30 seconds after each of the first n passes, where n containers were out
      of date, and 300 seconds after every later one. */
  method RunChecker(d: Docker, image: string, passes: seq<CheckAnswers>) returns (sleeps: seq<int>)
    requires WellFormed(d.View())
    modifies d
    ensures d.View() == After(old(d.View()), image, Checks(passes))
    ensures |sleeps| == |passes|
    ensures (forall answers :: answers in passes ==> Unhindered(answers)) ==>
              forall k :: 0 <= k < |passes| ==>
                sleeps[k] == (if k < OutOfDateCount(old(d.View()).containers, image) then 30 else 300) * SECOND
  {
    hide CheckResult, WellFormed, OutOfDateCount, After, Unhindered;
    sleeps := [];
    ghost var f := d.View();
    NoChecks(f, image);
    for i := 0 to |passes|
      invariant |sleeps| == i && d.View() == After(f, image, Checks(passes[..i]))
      invariant (forall answers :: answers in passes ==> Unhindered(answers)) ==>
                  forall k :: 0 <= k < i ==>
                    sleeps[k] == (if k < OutOfDateCount(f.containers, image) then 30 else 300) * SECOND
    {
      ghost var before := d.View();
      var sleepTime, err := d.CheckFeederContainers(image, passes[i]);
      sleeps := sleeps + [sleepTime];
      OneMoreCheck(f, image, passes, i);
      if forall answers :: answers in passes ==> Unhindered(answers) {
        AllFree(passes, i);
        WellFormedAlways(f, image, Checks(passes[..i]));
        PassesNeeded(f, image, Checks(passes[..i]));
        FreeSleep(before, image, passes[i]);
      }
    }
    assert passes[..|passes|] == passes;
  }

  lemma NoChecks(f: Fleet, image: string)
    ensures forall passes: seq<CheckAnswers> :: After(f, image, Checks(passes[..0])) == f
  {
  }

  lemma OneMoreCheck(f: Fleet, image: string, passes: seq<CheckAnswers>, i: nat)
    requires i < |passes|
    ensures After(f, image, Checks(passes[..i + 1]))
            == CheckResult(After(f, image, Checks(passes[..i])), image, passes[i]).0
  {
    hide CheckResult;
    assert Checks(passes[..i + 1])[..i] == Checks(passes[..i]);
  }

  lemma AllFree(passes: seq<CheckAnswers>, i: nat)
    requires i < |passes| && forall answers :: answers in passes ==> Unhindered(answers)
    ensures forall step :: step in Checks(passes[..i]) ==> FreePass(step)
    ensures Unhindered(passes[i])
  {
    hide FreePass;
    forall step | step in Checks(passes[..i]) ensures FreePass(step) {
      var k :| 0 <= k < i && step == Check(passes[k]);
      assert passes[k] in passes && Unhindered(passes[k]);
    }
    assert passes[i] in passes;
  }

  // ---- starting

  /** Exactly when a start succeeds, and what it guarantees then: the feeder's container runs, and it is a
      current one whose id is reported exactly if it was not running before. */
  lemma StartSucceedsIff(f: Fleet, image: string, request: FeedInContainer, answers: StartAnswers)
    requires WellFormed(f)
    ensures var (f', response) := StartResult(f, image, request, answers);
            var runs := Holds(f.containers, request.key, true);
            && (response.err == None <==>
                  answers.client && answers.list
                  && (runs || (!Holds(f.containers, request.key, false) && answers.create && answers.start)))
            && (response.err == None ==> Holds(f'.containers, request.key, true) && response.name == Some(request.key)
                                         && (response.id == NO_ID <==> runs) && (response.startDelay <==> !runs))
            && (response.err == None && runs ==> f' == f)
            && (response.err == None && !runs ==>
                  f'.containers == f.containers + [Container(response.id, request.key, image, true)])
  {
    hide Running, Named, Started;
    FindsRunning(f.containers, request.key);
    EmptyNamed(f.containers, request.key);
    EitherHolds(f.containers, request.key);
    if Named(f.containers, request.key) == [] {
      CreatedWellFormed(f, request.key, image);
      CreatedUndone(f, request.key, image);
      var (f', response) := StartResult(f, image, request, answers);
      if response.err == None {
        assert f'.containers[|f.containers|] == Container(f.nextId, request.key, image, true);
      }
    }
  }

  lemma EitherHolds(cs: seq<Container>, name: ApiKey)
    ensures (forall c :: c in cs ==> c.name != name) <==> !Holds(cs, name, true) && !Holds(cs, name, false)
  {
    forall c | c in cs && c.name == name ensures Holds(cs, name, c.running) {
      assert c in cs && c.name == name && c.running == c.running;
    }
  }

  /** Starting the container of a feeder again is harmless: it is found, and nothing changes. */
  lemma StartTwice(f: Fleet, image: string, request: FeedInContainer, answers: StartAnswers, again: StartAnswers)
    requires WellFormed(f) && StartResult(f, image, request, answers).1.err == None && again.client && again.list
    ensures var f' := StartResult(f, image, request, answers).0;
            StartResult(f', image, request, again) == (f', Response(None, false, Some(request.key), NO_ID))
  {
    hide Running, Named;
    StartSucceedsIff(f, image, request, answers);
    FindsRunning(StartResult(f, image, request, answers).0.containers, request.key);
  }

  /** Exactly when the feeder's container runs after a start, whatever the start reported: it did before, or
      it has just been created and started, listed or not. */
  lemma RunsAfterStartIff(f: Fleet, image: string, request: FeedInContainer, answers: StartAnswers)
    requires WellFormed(f)
    ensures var f' := StartResult(f, image, request, answers).0;
            var runs, idle := Holds(f.containers, request.key, true), Holds(f.containers, request.key, false);
            Holds(f'.containers, request.key, true) <==>
              runs || (!idle && answers.client && answers.create && answers.start)
  {
    hide Running, Named, Started, WithoutId;
    FindsRunning(f.containers, request.key);
    EmptyNamed(f.containers, request.key);
    EitherHolds(f.containers, request.key);
    var f' := StartResult(f, image, request, answers).0;
    if Named(f.containers, request.key) == [] {
      CreatedWellFormed(f, request.key, image);
      CreatedUndone(f, request.key, image);
      if answers.client && answers.create && answers.start {
        assert f'.containers[|f.containers|] == Container(f.nextId, request.key, image, true);
      }
    }
  }

  /** Exactly when a start reports failure although the feeder's container runs: it ran already but Docker
      could not be reached or did not list it, or it was created and started after a failed listing. */
  lemma FailureReportedThoughRunningIff(f: Fleet, image: string, request: FeedInContainer, answers: StartAnswers)
    requires WellFormed(f)
    ensures var (f', response) := StartResult(f, image, request, answers);
            var runs, idle := Holds(f.containers, request.key, true), Holds(f.containers, request.key, false);
            response.err.Some? && Holds(f'.containers, request.key, true) <==>
              || (runs && !(answers.client && answers.list))
              || (!runs && !idle && answers.client && !answers.list && answers.create && answers.start)
  {
    hide StartResult;
    StartSucceedsIff(f, image, request, answers);
    RunsAfterStartIff(f, image, request, answers);
  }

  /** The error reported in each of these cases, and that a running container is left as it was. */
  lemma FailureReportedThoughRunning(f: Fleet, image: string, request: FeedInContainer, answers: StartAnswers)
    requires WellFormed(f)
    requires var (f', response) := StartResult(f, image, request, answers);
             response.err.Some? && Holds(f'.containers, request.key, true)
    ensures var (f', response) := StartResult(f, image, request, answers);
            var runs := Holds(f.containers, request.key, true);
            && (runs ==> f' == f && response.err == Some(if answers.client then CreateFailed else NoClient))
            && (!runs ==> response.err == Some(ListFailed) && response.id == f.nextId
                          && f'.containers == f.containers + [Container(f.nextId, request.key, image, true)])
  {
    hide Running, Named, Started, WithoutId;
    FailureReportedThoughRunningIff(f, image, request, answers);
    FindsRunning(f.containers, request.key);
    EmptyNamed(f.containers, request.key);
    EitherHolds(f.containers, request.key);
    if Named(f.containers, request.key) == [] {
      CreatedWellFormed(f, request.key, image);
    }
  }

  /** Exactly when a start fails with which error, and what it then reports and changes. */
  lemma StartFailsWith(f: Fleet, image: string, request: FeedInContainer, answers: StartAnswers)
    requires WellFormed(f)
    ensures var (f', response) := StartResult(f, image, request, answers);
            var runs, idle := Holds(f.containers, request.key, true), Holds(f.containers, request.key, false);
            && (response.err == Some(NoClient) <==> !answers.client)
            && (response.err == Some(CreateFailed) <==>
                  answers.client && !(answers.list && runs) && (!answers.create || runs || idle))
            && (response.err == Some(StartFailed) <==>
                  answers.client && !runs && !idle && answers.create && !answers.start)
            && (response.err == Some(ListFailed) <==>
                  answers.client && !answers.list && !runs && !idle && answers.create && answers.start)
            && (response.err == Some(NoClient) || response.err == Some(CreateFailed) ==> f' == f)
            && (response.err.Some? && response.err != Some(ListFailed) ==>
                  response.name == None && response.id == 0 && !response.startDelay)
            && (response.err == Some(ListFailed) ==>
                  response.name == Some(request.key) && response.id == f.nextId && response.startDelay)
  {
    hide Running, Named, Started, WithoutId;
    FindsRunning(f.containers, request.key);
    EmptyNamed(f.containers, request.key);
    EitherHolds(f.containers, request.key);
  }

  /** The last case on its own: after a failed listing, a start can report the error although it has created
      and started the feeder's container. */
  lemma ListErrorHidesSuccess(f: Fleet, image: string, request: FeedInContainer, answers: StartAnswers)
    requires WellFormed(f) && answers.client && !answers.list && answers.create && answers.start
    requires !Holds(f.containers, request.key, true) && !Holds(f.containers, request.key, false)
    ensures var (f', response) := StartResult(f, image, request, answers);
            response.err == Some(ListFailed) && Holds(f'.containers, request.key, true)
  {
    hide StartResult;
    FailureReportedThoughRunningIff(f, image, request, answers);
    FailureReportedThoughRunning(f, image, request, answers);
  }

  // ---- a container that was created but could not be started

  lemma LeftoverStays(f: Fleet, image: string, step: Step, c: Container)
    requires WellFormed(f) && c in f.containers && !c.running && step != Kick(c.name)
    ensures c in Apply(f, image, step).containers
  {
    hide Running, Named, Started, WithoutId, Victim;
    forall x ensures x in Running(f.containers) <==> x in f.containers && x.running {
      InRunning(f.containers, x);
    }
    forall id ensures forall x :: x in WithoutId(f.containers, id) <==> x in f.containers && x.id != id {
      WithoutIdDistinct(f.containers, id);
    }
    match step
    case StartFor(request, answers) =>
      if Named(f.containers, request.key) == [] {
        CreatedWellFormed(f, request.key, image);
        CreatedUndone(f, request.key, image);
      }
    case Check(answers) =>
      VictimMeans(Running(f.containers), image, answers.refused);
      RunningIdsDiffer(f, c);
    case Exit(id) => RunningIdsDiffer(f, c);
    case Kick(name) =>
      if |Named(f.containers, name)| == 1 {
        var x := Named(f.containers, name)[0];
        InNamed(f.containers, name, x);
        DistinctIds(f.containers, c, x);
      }
  }

  lemma DistinctIds(cs: seq<Container>, c: Container, x: Container)
    requires Distinct(cs) && c in cs && x in cs && c != x
    ensures c.id != x.id && c.name != x.name
  {
    var i :| 0 <= i < |cs| && cs[i] == c;
    var j :| 0 <= j < |cs| && cs[j] == x;
  }

  lemma RunningIdsDiffer(f: Fleet, c: Container)
    requires WellFormed(f) && c in f.containers && !c.running
    ensures forall x :: x in f.containers && x.running ==> x.id != c.id
  {
    forall x | x in f.containers && x.running ensures x.id != c.id {
      DistinctIds(f.containers, c, x);
    }
  }

  /** A container that is there but does not run makes every later start for its feeder fail, in any run,
      until the feeder is kicked: the checker does not see it, and nothing else removes it. */
  lemma {:induction false} LeftoverBlocksStarts(f: Fleet, image: string, steps: seq<Step>, c: Container,
                                                request: FeedInContainer, answers: StartAnswers)
    requires WellFormed(f) && c in f.containers && !c.running && request.key == c.name
    requires Kick(c.name) !in steps
    ensures c in After(f, image, steps).containers
    ensures StartResult(After(f, image, steps), image, request, answers).1.err.Some?
  {
    hide Apply, StartResult, WellFormed;
    if steps != [] {
      var prefix := steps[..|steps| - 1];
      LeftoverBlocksStarts(f, image, prefix, c, request, answers);
      WellFormedAlways(f, image, prefix);
      LeftoverStays(After(f, image, prefix), image, steps[|steps| - 1], c);
    }
    WellFormedAlways(f, image, steps);
    LeftoverFails(After(f, image, steps), image, c, request, answers);
  }

  lemma LeftoverFails(f: Fleet, image: string, c: Container, request: FeedInContainer, answers: StartAnswers)
    requires WellFormed(f) && c in f.containers && !c.running && request.key == c.name
    ensures StartResult(f, image, request, answers).1.err.Some?
  {
    hide StartResult;
    StartSucceedsIff(f, image, request, answers);
    assert Holds(f.containers, request.key, false);
    if Holds(f.containers, request.key, true) {
      var x :| x in f.containers && x.name == request.key && x.running;
      DistinctIds(f.containers, c, x);
    }
  }

  /** What a start that Docker refuses after creation leaves behind, if anything, and that a kick clears it. */
  lemma RefusedStartLeaves(f: Fleet, image: string, request: FeedInContainer, answers: StartAnswers)
    requires WellFormed(f) && StartResult(f, image, request, answers).1.err == Some(StartFailed)
    ensures var f' := StartResult(f, image, request, answers).0;
            && WellFormed(f') && Named(f.containers, request.key) == []
            && f'.containers == f.containers
                                + (if answers.leftBehind then [Container(f.nextId, request.key, image, false)] else [])
            && forall x :: x in Apply(f', image, Kick(request.key)).containers <==> x in f.containers
  {
    hide Running, Started, WithoutId;
    var c := Container(f.nextId, request.key, image, false);
    EmptyNamed(f.containers, request.key);
    var f' := StartResult(f, image, request, answers).0;
    NamedAppended(f.containers, c);
    CreatedWellFormed(f, request.key, image);
    CreatedUndone(f, request.key, image);
    WithoutIdDistinct(f'.containers, c.id);
  }

  /** A kick removes the feeder's container, running or not, and no other. */
  lemma KickRemoves(f: Fleet, image: string, name: ApiKey)
    requires WellFormed(f)
    ensures forall x :: x in Apply(f, image, Kick(name)).containers <==> x in f.containers && x.name != name
  {
    hide WithoutId;
    var found := Named(f.containers, name);
    forall x ensures x in found <==> x in f.containers && x.name == name {
      InNamed(f.containers, name, x);
    }
    if found == [] {
      EmptyNamed(f.containers, name);
    } else {
      var c := found[0];
      assert c in found;
      NamedOnce(f.containers, name);
      WithoutIdDistinct(f.containers, c.id);
      forall x | x in f.containers && x != c ensures x.id != c.id && x.name != c.name {
        DistinctIds(f.containers, x, c);
      }
    }
  }

  lemma {:induction false} NamedOnce(cs: seq<Container>, name: ApiKey)
    requires Distinct(cs)
    ensures |Named(cs, name)| <= 1
  {
    if cs != [] {
      NamedOnce(cs[1..], name);
      if cs[0].name == name {
        assert forall c :: c in cs[1..] ==> c.name != name;
        EmptyNamed(cs[1..], name);
      }
    }
  }

  ghost predicate BlocksStarts(f: Fleet, image: string, key: ApiKey) {
    forall steps, later: FeedInContainer, again ::
      later.key == key && Kick(key) !in steps ==> StartResult(After(f, image, steps), image, later, again).1.err.Some?
  }

  /** After a start that Docker refused, every later start for the feeder fails in every run without a
      kick if and only if the container was left behind. */
  lemma RefusedStartBlocksIffLeftBehind(f: Fleet, image: string, request: FeedInContainer, answers: StartAnswers)
    requires WellFormed(f) && StartResult(f, image, request, answers).1.err == Some(StartFailed)
    ensures BlocksStarts(StartResult(f, image, request, answers).0, image, request.key) <==> answers.leftBehind
  {
    hide StartResult, After, WellFormed, Named, Apply;
    RefusedStartLeaves(f, image, request, answers);
    var f' := StartResult(f, image, request, answers).0;
    if answers.leftBehind {
      var c := Container(f.nextId, request.key, image, false);
      assert f'.containers[|f.containers|] == c;
      forall steps, later: FeedInContainer, again | later.key == request.key && Kick(request.key) !in steps
        ensures StartResult(After(f', image, steps), image, later, again).1.err.Some?
      {
        LeftoverBlocksStarts(f', image, steps, c, later, again);
      }
    } else {
      var all := StartAnswers(true, true, true, true, false);
      NoStepsTaken(f', image);
      assert f'.containers == f.containers;
      EmptyNamed(f'.containers, request.key);
      EitherHolds(f'.containers, request.key);
      StartSucceedsIff(f', image, request, all);
      assert StartResult(After(f', image, []), image, request, all).1.err == None;
    }
  }

  lemma NoStepsTaken(f: Fleet, image: string)
    ensures After(f, image, []) == f
  {
  }

  lemma {:induction false} NamedAppended(cs: seq<Container>, c: Container)
    requires forall x :: x in cs ==> x.name != c.name
    ensures Named(cs + [c], c.name) == [c]
  {
    if cs == [] {
      assert [c][1..] == [];
    } else {
      assert (cs + [c])[1..] == cs[1..] + [c];
      NamedAppended(cs[1..], c);
    }
  }
}
