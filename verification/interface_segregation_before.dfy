/**
 * Interface segregation, before: one worker interface demands both work and
 * sleep, so the robot's sleep can only throw, and managing a team stops at
 * the first robot. Printed messages are modelled as emitted events.
 */
module InterfaceSegregationBefore {
  import opened Wrappers

  datatype Worker = HumanWorker | RobotWorker

  datatype Event = Worked(worker: Worker) | Slept(worker: Worker)

  /** The message the robot's sleep throws. */
  const RobotsDontSleep: string := "Robots don't sleep!"

  method Work(worker: Worker) returns (emitted: seq<Event>)
    ensures emitted == [Worked(worker)]
  {
    emitted := [Worked(worker)];
  }

  /** Sleep succeeds for a human and throws for a robot, emitting nothing. */
  method Sleep(worker: Worker) returns (emitted: seq<Event>, failure: Option<string>)
    ensures failure.None? <==> worker.HumanWorker?
    ensures failure.Some? ==> failure.value == RobotsDontSleep && emitted == []
    ensures failure.None? ==> emitted == [Slept(worker)]
  {
    if worker.RobotWorker? {
      return [], Some(RobotsDontSleep);
    }
    emitted, failure := [Slept(worker)], None;
  }

  /** Manage: work, then sleep. The work is emitted even when the sleep throws. */
  method Manage(worker: Worker) returns (emitted: seq<Event>, failure: Option<string>)
    ensures |emitted| > 0 && emitted[0] == Worked(worker)
    ensures failure.None? <==> worker.HumanWorker?
    ensures failure.Some? ==> failure.value == RobotsDontSleep && emitted == [Worked(worker)]
    ensures failure.None? ==> emitted == [Worked(worker), Slept(worker)]
  {
    emitted := Work(worker);
    var rest;
    rest, failure := Sleep(worker);
    emitted := emitted + rest;
  }

  /** The events of a run of humans: work and sleep for each, in order. */
  function HumansEvents(team: seq<Worker>): seq<Event>
  {
    if team == [] then [] else HumansEvents(team[..|team| - 1]) + [Worked(team[|team| - 1]), Slept(team[|team| - 1])]
  }

  /** The position of the first robot in the team, or |team| when there is none. */
  function FirstRobot(team: seq<Worker>): (k: nat)
    ensures k <= |team|
    ensures forall i :: 0 <= i < k ==> team[i].HumanWorker?
    ensures k < |team| ==> team[k].RobotWorker?
  {
    if team == [] then 0
    else if team[0].RobotWorker? then 0
    else 1 + FirstRobot(team[1..])
  }

  /**
   * Manages each worker in order. The exception of a robot's sleep ends the
   * loop: the robot's work is emitted, and nothing for the workers after it.
   */
  method ManageTeam(workers: seq<Worker>) returns (emitted: seq<Event>, failure: Option<string>)
    ensures failure.None? <==> forall i :: 0 <= i < |workers| ==> workers[i].HumanWorker?
    ensures failure.None? ==> emitted == HumansEvents(workers)
    ensures failure.Some? ==>
      failure.value == RobotsDontSleep &&
      emitted == HumansEvents(workers[..FirstRobot(workers)]) + [Worked(RobotWorker)]
  {
    emitted, failure := [], None;
    var i := 0;
    while i < |workers|
      invariant 0 <= i <= FirstRobot(workers)
      invariant emitted == HumansEvents(workers[..i])
    {
      var managed, thrown := Manage(workers[i]);
      if thrown.Some? {
        return emitted + managed, thrown;
      }
      assert workers[..i + 1][..i] == workers[..i];
      emitted := emitted + managed;
      i := i + 1;
    }
    assert workers[..i] == workers;
  }

  /** A team of humans only: two events per human, in the team's order. */
  lemma {:induction false} HumansEventsShape(team: seq<Worker>)
    ensures |HumansEvents(team)| == 2 * |team|
    ensures forall i :: 0 <= i < |team| ==>
      HumansEvents(team)[2 * i] == Worked(team[i]) && HumansEvents(team)[2 * i + 1] == Slept(team[i])
    decreases |team|
  {
    if team != [] {
      var init := team[..|team| - 1];
      HumansEventsShape(init);
      forall i | 0 <= i < |team| - 1
        ensures HumansEvents(team)[2 * i] == Worked(team[i]) && HumansEvents(team)[2 * i + 1] == Slept(team[i])
      {
        assert init[i] == team[i];
      }
    }
  }
}
