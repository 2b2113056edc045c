/**
 * Interface segregation, after: working, sleeping and being managed are
 * separate capabilities, and each worker has only those it can honour. What
 * the workers and the captain print is modelled as the events they emit.
 */
module InterfaceSegregationAfter {

  /** The values a team list may hold: the two worker classes, or a value with none of the capabilities. */
  datatype Member = HumanWorker | AndroidWorker | Bystander

  predicate Workable(m: Member) { m.HumanWorker? || m.AndroidWorker? }

  predicate Sleepable(m: Member) { m.HumanWorker? }

  predicate Manageable(m: Member) { m.HumanWorker? || m.AndroidWorker? }

  /** One printed message. */
  datatype Event =
    | Worked(worker: Member)
    | Slept(worker: Member)
    | AssigningWork
    | TimeForRest

  method Work(worker: Member) returns (emitted: seq<Event>)
    requires Workable(worker)
    ensures emitted == [Worked(worker)]
  {
    emitted := [Worked(worker)];
  }

  method Sleep(worker: Member) returns (emitted: seq<Event>)
    requires Sleepable(worker)
    ensures emitted == [Slept(worker)]
  {
    emitted := [Slept(worker)];
  }

  /** What being managed emits: a human works and then rests, an android only works. */
  function ManagedEvents(worker: Member): seq<Event>
    requires Manageable(worker)
  {
    if worker.HumanWorker? then [Worked(worker), Slept(worker)] else [Worked(worker)]
  }

  method BeManaged(worker: Member) returns (emitted: seq<Event>)
    requires Manageable(worker)
    ensures emitted == ManagedEvents(worker)
    ensures Slept(worker) in emitted <==> Sleepable(worker)
  {
    emitted := Work(worker);
    if worker.HumanWorker? {
      var rest := Sleep(worker);
      emitted := emitted + rest;
    }
  }

  method Manage(worker: Member) returns (emitted: seq<Event>)
    requires Manageable(worker)
    ensures emitted == ManagedEvents(worker)
  {
    emitted := BeManaged(worker);
  }

  method AssignWork(worker: Member) returns (emitted: seq<Event>)
    requires Workable(worker)
    ensures emitted == [AssigningWork, Worked(worker)]
  {
    var work := Work(worker);
    emitted := [AssigningWork] + work;
  }

  /** Rest can only be scheduled for a worker that can sleep, which rules out androids. */
  method ScheduleRest(worker: Member) returns (emitted: seq<Event>)
    requires Sleepable(worker)
    ensures emitted == [TimeForRest, Slept(worker)]
    ensures worker == HumanWorker
  {
    var rest := Sleep(worker);
    emitted := [TimeForRest] + rest;
  }

  /** What managing a team emits: each manageable member's events in list order, nothing for the others. */
  function TeamEvents(team: seq<Member>): seq<Event>
  {
    if team == [] then []
    else
      var last := team[|team| - 1];
      TeamEvents(team[..|team| - 1]) + (if Manageable(last) then ManagedEvents(last) else [])
  }

  /** What coordinating a team emits: an assignment and the work, for each workable member in list order. */
  function CoordinationEvents(team: seq<Member>): seq<Event>
  {
    if team == [] then []
    else
      var last := team[|team| - 1];
      CoordinationEvents(team[..|team| - 1]) + (if Workable(last) then [AssigningWork, Worked(last)] else [])
  }

  method ManageTeam(workers: seq<Member>) returns (emitted: seq<Event>)
    ensures emitted == TeamEvents(workers)
  {
    emitted := [];
    for i := 0 to |workers|
      invariant emitted == TeamEvents(workers[..i])
    {
      assert workers[..i + 1][..i] == workers[..i];
      if Manageable(workers[i]) {
        var managed := Manage(workers[i]);
        emitted := emitted + managed;
      }
    }
    assert workers[..|workers|] == workers;
  }

  method CoordinateWork(workers: seq<Member>) returns (emitted: seq<Event>)
    ensures emitted == CoordinationEvents(workers)
  {
    emitted := [];
    for i := 0 to |workers|
      invariant emitted == CoordinationEvents(workers[..i])
    {
      assert workers[..i + 1][..i] == workers[..i];
      if Workable(workers[i]) {
        var given := AssignWork(workers[i]);
        emitted := emitted + given;
      }
    }
    assert workers[..|workers|] == workers;
  }

  lemma {:induction false} TeamEventsAppend(a: seq<Member>, b: seq<Member>)
    ensures TeamEvents(a + b) == TeamEvents(a) + TeamEvents(b)
    decreases |b|
  {
    if b == [] {
      assert a + b == a;
    } else {
      assert (a + b)[..|a + b| - 1] == a + b[..|b| - 1];
      TeamEventsAppend(a, b[..|b| - 1]);
    }
  }

  lemma {:induction false} CoordinationEventsAppend(a: seq<Member>, b: seq<Member>)
    ensures CoordinationEvents(a + b) == CoordinationEvents(a) + CoordinationEvents(b)
    decreases |b|
  {
    if b == [] {
      assert a + b == a;
    } else {
      assert (a + b)[..|a + b| - 1] == a + b[..|b| - 1];
      CoordinationEventsAppend(a, b[..|b| - 1]);
    }
  }

  /** Androids never sleep, however the team is made up. */
  lemma {:induction false} NoAndroidSleeps(team: seq<Member>)
    ensures Slept(AndroidWorker) !in TeamEvents(team)
    ensures TimeForRest !in TeamEvents(team)
    decreases |team|
  {
    if team != [] {
      NoAndroidSleeps(team[..|team| - 1]);
    }
  }

  /** The number of humans in a team. */
  function CountHumans(team: seq<Member>): nat
  {
    if team == [] then 0 else CountHumans(team[..|team| - 1]) + (if team[|team| - 1].HumanWorker? then 1 else 0)
  }

  /** The number of androids in a team. */
  function CountAndroids(team: seq<Member>): nat
  {
    if team == [] then 0 else CountAndroids(team[..|team| - 1]) + (if team[|team| - 1].AndroidWorker? then 1 else 0)
  }

  /** Managing a team emits two events per human and one per android; bystanders emit nothing. */
  lemma {:induction false} TeamEventsCount(team: seq<Member>)
    ensures |TeamEvents(team)| == 2 * CountHumans(team) + CountAndroids(team)
    decreases |team|
  {
    if team != [] {
      TeamEventsCount(team[..|team| - 1]);
    }
  }

  /** Coordinating a team emits two events per workable member. */
  lemma {:induction false} CoordinationEventsCount(team: seq<Member>)
    ensures |CoordinationEvents(team)| == 2 * (CountHumans(team) + CountAndroids(team))
    decreases |team|
  {
    if team != [] {
      CoordinationEventsCount(team[..|team| - 1]);
    }
  }
}
