/** The bulk commands `instances stop`, `instances start` and
    `instances reboot` (shotty/shotty.py:163-230): past the gate, one request
    per selected instance, each client error reported and passed over. */
module Bulk {
  import opened Inventory
  import opened Selector
  import opened Ec2
  import opened Commands

  /** The request an action sends for one instance. */
  function ActionCall(a: Action, id: string): (c: Call)
    ensures !c.CreateSnapshot? && !IsWait(c) && c.instanceId == id
  {
    match a
    case StopAction => Stop(id)
    case StartAction => Start(id)
    case RebootAction => Reboot(id)
  }

  /** Specification of the loop: for each instance in order, announce it,
      send its request, and report a client error. */
  function BulkStep(a: Action, rejects: set<Call>, sel: seq<Instance>): Step
    decreases |sel|
  {
    if sel == [] then Step([], [])
    else
      var id := sel[|sel| - 1].id;
      var c := ActionCall(a, id);
      BulkStep(a, rejects, sel[..|sel| - 1]).Then(
        Step([c], [Requesting(a, id)] + (if c in rejects then [CouldNot(a, id)] else [])))
  }

  method ActOnEach(ec2: Service, a: Action, sel: seq<Instance>) returns (lines: seq<Line>)
    modifies ec2
    ensures ec2.log == old(ec2.log) + BulkStep(a, ec2.rejects, sel).calls
    ensures lines == BulkStep(a, ec2.rejects, sel).lines
  {
    lines := [];
    var n := 0;
    while n < |sel|
      invariant n <= |sel|
      invariant ec2.log == old(ec2.log) + BulkStep(a, ec2.rejects, sel[..n]).calls
      invariant lines == BulkStep(a, ec2.rejects, sel[..n]).lines
    {
      assert sel[..n + 1][..n] == sel[..n];
      var i := sel[n];
      lines := lines + [Requesting(a, i.id)];
      var ok := ec2.Request(ActionCall(a, i.id));
      if !ok {
        lines := lines + [CouldNot(a, i.id)];
      }
      n := n + 1;
    }
    assert sel[..n] == sel;
  }

  /** The shared body of the three commands: the gate, the selection, the
      loop. */
  method BulkCommand(ec2: Service, a: Action, project: Option<string>, force: bool, instance: Option<string>)
    returns (r: Result<seq<Line>>)
    modifies ec2
    ensures !GateOpen(project, force) ==> r == Refused(GateMessage) && ec2.log == old(ec2.log)
    ensures GateOpen(project, force) ==>
              var s := BulkStep(a, ec2.rejects, FilterInstances(ec2.inventory, project, instance));
              r == Ok(s.lines) && ec2.log == old(ec2.log) + s.calls
  {
    if !GateOpen(project, force) {
      return Refused(GateMessage);
    }
    var sel := FilterInstances(ec2.inventory, project, instance);
    var lines := ActOnEach(ec2, a, sel);
    return Ok(lines);
  }

  method StopInstances(ec2: Service, project: Option<string>, force: bool, instance: Option<string>)
    returns (r: Result<seq<Line>>)
    modifies ec2
    ensures !GateOpen(project, force) ==> r == Refused(GateMessage) && ec2.log == old(ec2.log)
    ensures GateOpen(project, force) ==>
              var s := BulkStep(StopAction, ec2.rejects, FilterInstances(ec2.inventory, project, instance));
              r == Ok(s.lines) && ec2.log == old(ec2.log) + s.calls
  {
    r := BulkCommand(ec2, StopAction, project, force, instance);
  }

  method StartInstances(ec2: Service, project: Option<string>, force: bool, instance: Option<string>)
    returns (r: Result<seq<Line>>)
    modifies ec2
    ensures !GateOpen(project, force) ==> r == Refused(GateMessage) && ec2.log == old(ec2.log)
    ensures GateOpen(project, force) ==>
              var s := BulkStep(StartAction, ec2.rejects, FilterInstances(ec2.inventory, project, instance));
              r == Ok(s.lines) && ec2.log == old(ec2.log) + s.calls
  {
    r := BulkCommand(ec2, StartAction, project, force, instance);
  }

  method RebootInstances(ec2: Service, project: Option<string>, force: bool, instance: Option<string>)
    returns (r: Result<seq<Line>>)
    modifies ec2
    ensures !GateOpen(project, force) ==> r == Refused(GateMessage) && ec2.log == old(ec2.log)
    ensures GateOpen(project, force) ==>
              var s := BulkStep(RebootAction, ec2.rejects, FilterInstances(ec2.inventory, project, instance));
              r == Ok(s.lines) && ec2.log == old(ec2.log) + s.calls
  {
    r := BulkCommand(ec2, RebootAction, project, force, instance);
  }

  /** Every selected instance receives exactly one request, in selection
      order, whatever the client errors: an error on one instance does not
      stop the loop. */
  lemma {:induction false} OneRequestPerInstance(a: Action, rejects: set<Call>, sel: seq<Instance>)
    ensures |BulkStep(a, rejects, sel).calls| == |sel|
    ensures forall k :: 0 <= k < |sel| ==> BulkStep(a, rejects, sel).calls[k] == ActionCall(a, sel[k].id)
    decreases |sel|
  {
    if sel != [] {
      OneRequestPerInstance(a, rejects, sel[..|sel| - 1]);
    }
  }

  /** Every instance is announced, and a failure is reported for exactly the
      instances whose request got a client error. */
  lemma {:induction false} FailuresReported(a: Action, rejects: set<Call>, sel: seq<Instance>)
    ensures forall i :: i in sel ==> Requesting(a, i.id) in BulkStep(a, rejects, sel).lines
    ensures forall id :: CouldNot(a, id) in BulkStep(a, rejects, sel).lines <==>
              (exists i :: i in sel && i.id == id) && ActionCall(a, id) in rejects
    decreases |sel|
  {
    if sel != [] {
      var init, last := sel[..|sel| - 1], sel[|sel| - 1];
      assert sel == init + [last];
      FailuresReported(a, rejects, init);
    }
  }
}
