/** The snapshot orchestrator, the `instances snapshot` command
    (shotty/shotty.py:98-140): for each selected instance, stop it, request a
    snapshot of every volume that has none in progress, and start it again
    when it was running before. */
module Orchestrator {
  import opened Inventory
  import opened Selector
  import opened Guard
  import opened Ec2
  import opened Commands

  /** The description every snapshot request carries. */
  const Description := "Created by SnapshotAlyzer 3000"

  /** A run so far: what it sent and printed, and the request whose client
      error escaped and ended the run, if any. */
  datatype Run = Run(step: Step, crash: Option<Call>)

  // ---------------------------------------------------------------------
  // Specification of a run

  /** One volume: skipped when the guard fires; otherwise one snapshot
      request, whose client error is reported and passed over. */
  function VolumeStep(rejects: set<Call>, v: Volume): Step {
    if HasPendingSnapshot(v) then Step([], [Skipping(v.id)])
    else
      var c := CreateSnapshot(v.id, Description);
      Step([c], [Creating(v.id)] + (if c in rejects then [CouldNotSnapshot(v.id)] else []))
  }

  /** The volumes of one instance, in listing order. */
  function VolumesStep(rejects: set<Call>, vols: seq<Volume>): Step
    decreases |vols|
  {
    if vols == [] then Step([], [])
    else VolumesStep(rejects, vols[..|vols| - 1]).Then(VolumeStep(rejects, vols[|vols| - 1]))
  }

  /** One instance: stop it and wait until it is stopped, then its volumes,
      then start it and wait until it runs when the state read before the
      stop was running. A client error on the stop or the start is not
      caught: it ends the run. */
  function InstanceStep(rejects: set<Call>, i: Instance): Run {
    var stop := Stop(i.id);
    if stop in rejects then Run(Step([stop], [Stopping(i.id)]), Some(stop))
    else
      var body := Step([stop, WaitUntilStopped(i.id)], [Stopping(i.id)]).Then(VolumesStep(rejects, i.volumes));
      if i.state != Running then Run(body, None)
      else
        var start := Start(i.id);
        if start in rejects then Run(body.Then(Step([start], [Starting(i.id)])), Some(start))
        else Run(body.Then(Step([start, WaitUntilRunning(i.id)], [Starting(i.id)])), None)
  }

  /** The selected instances one after the other, up to the first escaped
      client error. */
  function InstancesRun(rejects: set<Call>, sel: seq<Instance>): Run
    decreases |sel|
  {
    if sel == [] then Run(Step([], []), None)
    else
      var prev := InstancesRun(rejects, sel[..|sel| - 1]);
      if prev.crash.Some? then prev
      else
        var t := InstanceStep(rejects, sel[|sel| - 1]);
        Run(prev.step.Then(t.step), t.crash)
  }

  /** A whole run: the instances, then the closing line when nothing
      escaped. */
  function SnapshotRun(rejects: set<Call>, sel: seq<Instance>): Run {
    var r := InstancesRun(rejects, sel);
    if r.crash.Some? then r else Run(r.step.Then(Step([], [JobsDone])), None)
  }

  // ---------------------------------------------------------------------
  // The command

  method SnapshotVolumes(ec2: Service, vols: seq<Volume>) returns (lines: seq<Line>)
    modifies ec2
    ensures ec2.log == old(ec2.log) + VolumesStep(ec2.rejects, vols).calls
    ensures lines == VolumesStep(ec2.rejects, vols).lines
  {
    lines := [];
    var k := 0;
    while k < |vols|
      invariant k <= |vols|
      invariant ec2.log == old(ec2.log) + VolumesStep(ec2.rejects, vols[..k]).calls
      invariant lines == VolumesStep(ec2.rejects, vols[..k]).lines
    {
      var v := vols[k];
      assert vols[..k + 1][..k] == vols[..k];
      if HasPendingSnapshot(v) {
        lines := lines + [Skipping(v.id)];
      } else {
        lines := lines + [Creating(v.id)];
        var ok := ec2.Request(CreateSnapshot(v.id, Description));
        if !ok {
          lines := lines + [CouldNotSnapshot(v.id)];
        }
      }
      k := k + 1;
    }
    assert vols[..k] == vols;
  }

  method SnapshotInstance(ec2: Service, i: Instance) returns (r: Run)
    modifies ec2
    ensures r == InstanceStep(ec2.rejects, i)
    ensures ec2.log == old(ec2.log) + r.step.calls
  {
    var lastState := i.state;
    var stopped := ec2.Request(Stop(i.id));
    if !stopped {
      return Run(Step([Stop(i.id)], [Stopping(i.id)]), Some(Stop(i.id)));
    }
    ec2.Wait(WaitUntilStopped(i.id));
    var volumeLines := SnapshotVolumes(ec2, i.volumes);
    var calls := [Stop(i.id), WaitUntilStopped(i.id)] + VolumesStep(ec2.rejects, i.volumes).calls;
    var lines := [Stopping(i.id)] + volumeLines;
    if lastState == Running {
      var started := ec2.Request(Start(i.id));
      if !started {
        return Run(Step(calls + [Start(i.id)], lines + [Starting(i.id)]), Some(Start(i.id)));
      }
      ec2.Wait(WaitUntilRunning(i.id));
      return Run(Step(calls + [Start(i.id), WaitUntilRunning(i.id)], lines + [Starting(i.id)]), None);
    }
    return Run(Step(calls, lines), None);
  }

  /** The `instances snapshot` command. The gate is checked before anything
      is selected or sent. */
  method CreateSnapshots(ec2: Service, project: Option<string>, force: bool, instance: Option<string>)
    returns (r: Result<Run>)
    modifies ec2
    ensures !GateOpen(project, force) ==> r == Refused(GateMessage) && ec2.log == old(ec2.log)
    ensures GateOpen(project, force) ==>
              r == Ok(SnapshotRun(ec2.rejects, FilterInstances(ec2.inventory, project, instance)))
    ensures GateOpen(project, force) ==> ec2.log == old(ec2.log) + r.value.step.calls
  {
    if !GateOpen(project, force) {
      return Refused(GateMessage);
    }
    var sel := FilterInstances(ec2.inventory, project, instance);
    var run := SnapshotEach(ec2, sel);
    return Ok(run);
  }

  /** The loop over the selected instances. */
  method SnapshotEach(ec2: Service, sel: seq<Instance>) returns (r: Run)
    modifies ec2
    ensures r == SnapshotRun(ec2.rejects, sel)
    ensures ec2.log == old(ec2.log) + r.step.calls
  {
    var done := Step([], []);
    var n := 0;
    while n < |sel|
      invariant n <= |sel|
      invariant InstancesRun(ec2.rejects, sel[..n]) == Run(done, None)
      invariant ec2.log == old(ec2.log) + done.calls
    {
      assert sel[..n + 1][..n] == sel[..n];
      var t := SnapshotInstance(ec2, sel[n]);
      done := done.Then(t.step);
      if t.crash.Some? {
        CrashIsFinal(ec2.rejects, sel, n + 1);
        return Run(done, t.crash);
      }
      n := n + 1;
    }
    assert sel[..n] == sel;
    return Run(done.Then(Step([], [JobsDone])), None);
  }

  /** Once a client error has escaped, later instances add nothing. */
  lemma {:induction false} CrashIsFinal(rejects: set<Call>, sel: seq<Instance>, k: nat)
    requires k <= |sel|
    requires InstancesRun(rejects, sel[..k]).crash.Some?
    ensures InstancesRun(rejects, sel) == InstancesRun(rejects, sel[..k])
    decreases |sel|
  {
    if k == |sel| {
      assert sel[..k] == sel;
    } else {
      var init := sel[..|sel| - 1];
      assert init[..k] == sel[..k];
      CrashIsFinal(rejects, init, k);
    }
  }

  // ---------------------------------------------------------------------
  // Properties

  /** Reference definition: the volumes the guard lets through, in order. */
  function Unguarded(vols: seq<Volume>): (r: seq<Volume>)
    decreases |vols|
    ensures |r| <= |vols|
    ensures forall v :: v in r <==> v in vols && !HasPendingSnapshot(v)
  {
    if vols == [] then []
    else
      var last := vols[|vols| - 1];
      assert vols == vols[..|vols| - 1] + [last];
      Unguarded(vols[..|vols| - 1]) + (if HasPendingSnapshot(last) then [] else [last])
  }

  /** One snapshot request, with the tool's description, per volume. */
  function SnapshotRequests(vols: seq<Volume>): seq<Call> {
    seq(|vols|, k requires 0 <= k < |vols| => CreateSnapshot(vols[k].id, Description))
  }

  lemma SnapshotRequestsAppend(a: seq<Volume>, b: seq<Volume>)
    ensures SnapshotRequests(a + b) == SnapshotRequests(a) + SnapshotRequests(b)
  {
    assert forall k :: 0 <= k < |b| ==> (a + b)[|a| + k] == b[k];
  }

  /** Within one instance, the snapshot requests are exactly one per
      unguarded volume, in listing order, whatever the client errors: a
      guarded volume is never snapshotted and an error on one volume does
      not keep the next from being attempted. */
  lemma {:induction false} VolumeRequestsAreUnguarded(rejects: set<Call>, vols: seq<Volume>)
    ensures VolumesStep(rejects, vols).calls == SnapshotRequests(Unguarded(vols))
    decreases |vols|
  {
    if vols != [] {
      var last := vols[|vols| - 1];
      VolumeRequestsAreUnguarded(rejects, vols[..|vols| - 1]);
      SnapshotRequestsAppend(Unguarded(vols[..|vols| - 1]), if HasPendingSnapshot(last) then [] else [last]);
    }
  }

  /** Every guarded volume is reported as skipped, every other one as being
      snapshotted, and every client error on a snapshot request is reported;
      conversely, each such line names a listed volume in that case. */
  lemma {:induction false} VolumeOutcomesReported(rejects: set<Call>, vols: seq<Volume>)
    ensures forall v :: v in vols && HasPendingSnapshot(v) ==> Skipping(v.id) in VolumesStep(rejects, vols).lines
    ensures forall v :: v in vols && !HasPendingSnapshot(v) ==> Creating(v.id) in VolumesStep(rejects, vols).lines
    ensures forall v :: v in vols && !HasPendingSnapshot(v) && CreateSnapshot(v.id, Description) in rejects ==>
              CouldNotSnapshot(v.id) in VolumesStep(rejects, vols).lines
    ensures forall id :: Skipping(id) in VolumesStep(rejects, vols).lines ==>
              exists v :: v in vols && v.id == id && HasPendingSnapshot(v)
    ensures forall id :: Creating(id) in VolumesStep(rejects, vols).lines ==>
              exists v :: v in vols && v.id == id && !HasPendingSnapshot(v)
    ensures forall id :: CouldNotSnapshot(id) in VolumesStep(rejects, vols).lines ==>
              exists v :: v in vols && v.id == id && !HasPendingSnapshot(v) &&
                           CreateSnapshot(id, Description) in rejects
    decreases |vols|
  {
    if vols != [] {
      var init, last := vols[..|vols| - 1], vols[|vols| - 1];
      VolumeOutcomesReported(rejects, init);
      assert vols == init + [last];
    }
  }

  /** Each instance is stopped, and waited for, before any of its volumes is
      considered; a rejected stop ends the run at once. */
  lemma StopComesFirst(rejects: set<Call>, i: Instance)
    ensures var t := InstanceStep(rejects, i);
      && t.step.calls[0] == Stop(i.id)
      && t.step.lines[0] == Stopping(i.id)
      && (Stop(i.id) in rejects ==> t.step.calls == [Stop(i.id)] && t.crash == Some(Stop(i.id)))
      && (Stop(i.id) !in rejects ==>
            var u := SnapshotRequests(Unguarded(i.volumes));
            && |t.step.calls| >= 2 + |u|
            && t.step.calls[1] == WaitUntilStopped(i.id)
            && t.step.calls[2..2 + |u|] == u)
  {
    VolumeRequestsAreUnguarded(rejects, i.volumes);
  }

  /** A start is requested exactly when the state read before the stop was
      running (and the stop went through), and only after every snapshot
      request of the instance. */
  lemma RestartOnlyIfWasRunning(rejects: set<Call>, i: Instance)
    ensures var calls := InstanceStep(rejects, i).step.calls;
      && (Start(i.id) in calls <==> i.state == Running && Stop(i.id) !in rejects)
      && (Start(i.id) in calls ==>
            2 + |Unguarded(i.volumes)| < |calls| &&
            calls[2 + |Unguarded(i.volumes)|] == Start(i.id) &&
            forall k :: 2 + |Unguarded(i.volumes)| < k < |calls| ==> !calls[k].CreateSnapshot?)
  {
    VolumeRequestsAreUnguarded(rejects, i.volumes);
    var u := SnapshotRequests(Unguarded(i.volumes));
    assert Start(i.id) !in u;
  }

  /** What a request sent on behalf of instance `i` may be. */
  predicate Concerns(c: Call, i: Instance) {
    match c
    case Stop(id) => id == i.id
    case WaitUntilStopped(id) => id == i.id
    case Start(id) => id == i.id && i.state == Running
    case WaitUntilRunning(id) => id == i.id && i.state == Running
    case Reboot(_) => false
    case CreateSnapshot(vid, d) =>
      d == Description && exists v :: v in i.volumes && v.id == vid && !HasPendingSnapshot(v)
  }

  lemma InstanceRequestsConcernIt(rejects: set<Call>, i: Instance)
    ensures forall c :: c in InstanceStep(rejects, i).step.calls ==> Concerns(c, i)
    ensures InstanceStep(rejects, i).crash.Some? ==>
              InstanceStep(rejects, i).crash.value in rejects &&
              InstanceStep(rejects, i).crash.value in {Stop(i.id), Start(i.id)}
  {
    VolumeRequestsAreUnguarded(rejects, i.volumes);
  }

  /** Every request of a run is one of: a stop or stop-wait of a selected
      instance, a start or start-wait of a selected instance that was
      running, or a snapshot of an unguarded volume of a selected instance;
      and only a rejected stop or start ends a run early. */
  lemma {:induction false} RunRequestsConcernSelection(rejects: set<Call>, sel: seq<Instance>)
    ensures forall c :: c in SnapshotRun(rejects, sel).step.calls ==> exists i :: i in sel && Concerns(c, i)
    ensures SnapshotRun(rejects, sel).crash.Some? ==>
              var c := SnapshotRun(rejects, sel).crash.value;
              c in rejects && (c.Stop? || c.Start?)
  {
    InstancesConcernSelection(rejects, sel);
  }

  lemma {:induction false} InstancesConcernSelection(rejects: set<Call>, sel: seq<Instance>)
    ensures forall c :: c in InstancesRun(rejects, sel).step.calls ==> exists i :: i in sel && Concerns(c, i)
    ensures InstancesRun(rejects, sel).crash.Some? ==>
              var c := InstancesRun(rejects, sel).crash.value;
              c in rejects && (c.Stop? || c.Start?)
    decreases |sel|
  {
    if sel != [] {
      var init, last := sel[..|sel| - 1], sel[|sel| - 1];
      InstancesConcernSelection(rejects, init);
      InstanceRequestsConcernIt(rejects, last);
      assert sel == init + [last];
    }
  }

  /** A volume the guard reports as pending is never passed to a snapshot
      request (when no other selected volume carries its id). */
  lemma NeverSnapshotsGuardedVolume(rejects: set<Call>, sel: seq<Instance>, volumeId: string)
    requires forall i, v :: i in sel && v in i.volumes && v.id == volumeId ==> HasPendingSnapshot(v)
    ensures forall d :: CreateSnapshot(volumeId, d) !in SnapshotRun(rejects, sel).step.calls
  {
    RunRequestsConcernSelection(rejects, sel);
  }

  /** An instance that was not running before the run never receives a
      start request. */
  lemma NoStartUnlessRunning(rejects: set<Call>, sel: seq<Instance>, instanceId: string)
    requires forall i :: i in sel && i.id == instanceId ==> i.state != Running
    ensures Start(instanceId) !in SnapshotRun(rejects, sel).step.calls
    ensures WaitUntilRunning(instanceId) !in SnapshotRun(rejects, sel).step.calls
  {
    RunRequestsConcernSelection(rejects, sel);
  }

  /** Client errors on snapshot requests change nothing about what else a
      run sends: two oracles that agree on every other request give the
      same requests and the same ending. */
  lemma {:induction false} SnapshotErrorsIsolated(r1: set<Call>, r2: set<Call>, sel: seq<Instance>)
    requires forall c: Call :: !c.CreateSnapshot? ==> (c in r1 <==> c in r2)
    ensures SnapshotRun(r1, sel).step.calls == SnapshotRun(r2, sel).step.calls
    ensures SnapshotRun(r1, sel).crash == SnapshotRun(r2, sel).crash
    decreases |sel|
  {
    InstancesIsolated(r1, r2, sel);
  }

  lemma {:induction false} InstancesIsolated(r1: set<Call>, r2: set<Call>, sel: seq<Instance>)
    requires forall c: Call :: !c.CreateSnapshot? ==> (c in r1 <==> c in r2)
    ensures InstancesRun(r1, sel).step.calls == InstancesRun(r2, sel).step.calls
    ensures InstancesRun(r1, sel).crash == InstancesRun(r2, sel).crash
    decreases |sel|
  {
    if sel != [] {
      var last := sel[|sel| - 1];
      InstancesIsolated(r1, r2, sel[..|sel| - 1]);
      VolumeRequestsAreUnguarded(r1, last.volumes);
      VolumeRequestsAreUnguarded(r2, last.volumes);
      assert Stop(last.id) in r1 <==> Stop(last.id) in r2;
      assert Start(last.id) in r1 <==> Start(last.id) in r2;
    }
  }

  /** When no stop or start is rejected, the run visits every selected
      instance to the end: every unguarded volume gets a snapshot request
      whatever errors those requests meet, every instance that was running
      is started again, and the closing line is printed. */
  lemma {:induction false} RunReachesEveryInstance(rejects: set<Call>, sel: seq<Instance>)
    requires forall i :: i in sel ==> Stop(i.id) !in rejects && Start(i.id) !in rejects
    ensures SnapshotRun(rejects, sel).crash == None
    ensures var lines := SnapshotRun(rejects, sel).step.lines; |lines| > 0 && lines[|lines| - 1] == JobsDone
    ensures forall i :: i in sel ==> Stop(i.id) in SnapshotRun(rejects, sel).step.calls
    ensures forall i, v :: i in sel && v in i.volumes && !HasPendingSnapshot(v) ==>
              CreateSnapshot(v.id, Description) in SnapshotRun(rejects, sel).step.calls
    ensures forall i :: i in sel && i.state == Running ==> Start(i.id) in SnapshotRun(rejects, sel).step.calls
  {
    InstancesReachEvery(rejects, sel);
  }

  lemma {:induction false} InstancesReachEvery(rejects: set<Call>, sel: seq<Instance>)
    requires forall i :: i in sel ==> Stop(i.id) !in rejects && Start(i.id) !in rejects
    ensures InstancesRun(rejects, sel).crash == None
    ensures forall i :: i in sel ==> Stop(i.id) in InstancesRun(rejects, sel).step.calls
    ensures forall i, v :: i in sel && v in i.volumes && !HasPendingSnapshot(v) ==>
              CreateSnapshot(v.id, Description) in InstancesRun(rejects, sel).step.calls
    ensures forall i :: i in sel && i.state == Running ==> Start(i.id) in InstancesRun(rejects, sel).step.calls
    decreases |sel|
  {
    if sel != [] {
      var init, last := sel[..|sel| - 1], sel[|sel| - 1];
      assert sel == init + [last];
      InstancesReachEvery(rejects, init);
      VolumeRequestsAreUnguarded(rejects, last.volumes);
      var u := Unguarded(last.volumes);
      forall v | v in last.volumes && !HasPendingSnapshot(v)
        ensures CreateSnapshot(v.id, Description) in InstanceStep(rejects, last).step.calls
      {
        var k :| 0 <= k < |u| && u[k] == v;
        assert SnapshotRequests(u)[k] == CreateSnapshot(v.id, Description);
      }
    }
  }

  /** A running instance selected by id, with one volume without snapshots
      and one whose newest snapshot is pending, nothing rejected: it is
      stopped, only the first volume is snapshotted, the second is reported
      as skipped, and the instance is started again. The command reaches
      this run only with `--force` or a project as well: the id alone does
      not open the gate. */
  lemma PendingVolumeScenario()
    ensures
      var v1 := Volume("v-1", "in-use", 8, false, []);
      var v2 := Volume("v-2", "in-use", 8, false, [Snapshot("snap-1", Pending, "40%", 0)]);
      var i := Instance("i-123", "t2.micro", "us-east-1a", Running, "", [], [v1, v2]);
      SnapshotRun({}, FilterInstances([i], None, Some("i-123"))) ==
        Run(Step([Stop("i-123"), WaitUntilStopped("i-123"), CreateSnapshot("v-1", Description),
                  Start("i-123"), WaitUntilRunning("i-123")],
                 [Stopping("i-123"), Creating("v-1"), Skipping("v-2"), Starting("i-123"), JobsDone]),
            None)
  {
    var v1 := Volume("v-1", "in-use", 8, false, []);
    var v2 := Volume("v-2", "in-use", 8, false, [Snapshot("snap-1", Pending, "40%", 0)]);
    var i := Instance("i-123", "t2.micro", "us-east-1a", Running, "", [], [v1, v2]);
    assert FilterInstances([i], None, Some("i-123")) == [i];
    assert [v1, v2][..1] == [v1] && [v1][..0] == [];
    assert !HasPendingSnapshot(v1) && HasPendingSnapshot(v2);
    assert VolumesStep({}, [v1]) == Step([CreateSnapshot("v-1", Description)], [Creating("v-1")]);
    assert VolumesStep({}, [v1, v2]) == Step([CreateSnapshot("v-1", Description)], [Creating("v-1"), Skipping("v-2")]);
    assert [i][..0] == [];
    assert InstancesRun({}, [i]) == InstanceStep({}, i);
  }
}
