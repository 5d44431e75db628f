# shotty, modelled in Dafny

`shotty` is a small command-line tool over the EC2 API. An operator picks a
set of instances: by instance id, by `Project` tag, or all of them. The tool
then lists their instances, volumes or snapshots. It can also stop, start or
reboot those instances. Its `instances snapshot` command stops each instance,
snapshots its volumes and restarts it.

This project models the decision logic of `shotty/shotty.py`. The cloud is an
inventory value plus a service object that logs the requests it receives.

- `inventory.dfy` (`Inventory`) holds the instances, volumes, snapshots and
  tags as datatypes. `Given` models Python truthiness of an option value.
- `selector.dfy` (`Selector`) holds the instance selection. An instance id
  wins over a project. A project alone selects by the `Project` tag. Neither
  selects the whole inventory.
- `guard.dfy` (`Guard`) holds the pending-snapshot guard. It looks only at
  the first entry of a volume's snapshot listing.
- `ec2.dfy` (`Ec2`) holds the EC2 resource as a class. Its one mutable field
  is the log of requests sent. Client errors come from an oracle set,
  `rejects`.
- `commands.dfy` (`Commands`) holds what the mutating commands share: console
  lines as values, the `--force` gate, and the gate's error.
- `orchestrator.dfy` (`Orchestrator`) holds `instances snapshot`. Each method
  is proved against a specification function: `SnapshotVolumes` against
  `VolumesStep`, `SnapshotInstance` against `InstanceStep`, and
  `SnapshotEach` and `CreateSnapshots` against `SnapshotRun`. The lemmas
  prove the lifecycle properties about those functions.
- `bulk.dfy` (`Bulk`) holds `instances stop|start|reboot`: the gate, then one
  request per instance. Errors are reported and the loop goes on.
- `reporters.dfy` (`Reporters`) holds the three listings and their row
  builders. This includes the early stop of the snapshot listing, the
  decimal size label and the tag dictionary.

Three behaviours of the code worth noting, which the model follows:

- The gate opens only on a non-empty project or on `--force`. An instance id
  alone does not open it (shotty/shotty.py:107, 172, 195, 218).
- In `instances snapshot`, a client error on an instance's stop or start is
  not caught. It ends the whole run, and "Job's done!" is not printed. Only
  snapshot errors are isolated per volume. The model records the escaped
  request as `Run.crash`.
- Without `--all`, a volume's listing prints every snapshot up to and
  including the first `completed` one, not just the newest snapshot.

## Model

| member | source | states |
|---|---|---|
| `Selector.Keep` | shotty/shotty.py:14-19 | the instances one service filter returns: exactly the inventory instances it matches, never more than the inventory |
| `Selector.FilterInstances` | shotty/shotty.py:11-23 | with an instance id: exactly the instances with that id, whatever the project; with only a project: exactly the instances tagged `Project` = project; with neither: the whole inventory in order |
| `Selector.KeepDistributes` | shotty/shotty.py:14-19 | a filter keeps inventory order: filtering a concatenation is the concatenation of the filtered parts |
| `Selector.InstanceIdTakesPrecedence` | shotty/shotty.py:14-17 | once an instance id is given, the project option has no effect on the selection |
| `Selector.InstanceIdSelectsAtMostOne` | shotty/shotty.py:14-16 | with unique instance ids, an id selects at most one instance, and that instance has the id |
| `Guard.HasPendingSnapshot` | shotty/shotty.py:25-27 | the guard fires only for a volume with a `pending` snapshot in its listing; `GuardReadsOnlyFirstSnapshot` pins down which entry decides |
| `Guard.GuardReadsOnlyFirstSnapshot` | shotty/shotty.py:25-27 | the guard is false for an empty listing, is decided by the first entry being `pending`, and ignores every later entry |
| `Ec2.Service.constructor` | shotty/shotty.py:234 | the resource the commands use starts with the given inventory and error oracle, and nothing has been sent |
| `Ec2.Service.Request` | shotty/shotty.py:125-129 | a request is always sent (appended to the log) and fails exactly when the oracle rejects it |
| `Ec2.Service.Wait` | shotty/shotty.py:117 | a wait is logged and always returns |
| `Commands.GateOpen` | shotty/shotty.py:107 | by definition: open iff `--force` is given or the project is non-empty; the instance id is not an argument. What a closed gate does is stated by `CreateSnapshots` and `BulkCommand` |
| `Orchestrator.VolumeStep` | shotty/shotty.py:119-129 | one volume, by definition: a "Skipping" line and no request when the guard fires; otherwise a "Creating" line, one snapshot request with the tool's description, and a failure line when it is rejected |
| `Orchestrator.InstanceStep` | shotty/shotty.py:114-136 | one instance, by definition: "Stopping" and the stop, where a rejected stop ends the run; the wait, the volumes, then when it was running "Starting" and the start, where a rejected start ends the run, else the wait for running |
| `Orchestrator.SnapshotRun` | shotty/shotty.py:113-138 | a whole run, by definition: the instances in selection order up to the first escaped error, and "Job's done" only when none escaped |
| `Orchestrator.CreateSnapshots` | shotty/shotty.py:104-140 | with no project and no `--force`, the gate error is returned and nothing is sent, even if an instance id is given; otherwise the log grows by exactly the requests of `SnapshotRun` over the selection |
| `Orchestrator.SnapshotEach` | shotty/shotty.py:113-138 | the instance loop sends and prints exactly `SnapshotRun`, and stops at the first escaped client error |
| `Orchestrator.SnapshotInstance` | shotty/shotty.py:113-136 | one instance: stop, wait, volumes, and a restart decided by the state read before the stop, as `InstanceStep` |
| `Orchestrator.SnapshotVolumes` | shotty/shotty.py:118-129 | the volume loop sends and prints exactly `VolumesStep` |
| `Orchestrator.CrashIsFinal` | shotty/shotty.py:116-134 | after a stop or start error escapes, later instances add no request and no line |
| `Orchestrator.Unguarded` | shotty/shotty.py:119-121 | the volumes the guard lets through are exactly the listed volumes without a pending snapshot |
| `Orchestrator.VolumeRequestsAreUnguarded` | shotty/shotty.py:118-129 | an instance's snapshot requests are exactly one per unguarded volume, in listing order, with the tool's description, whatever the client errors |
| `Orchestrator.VolumeOutcomesReported` | shotty/shotty.py:119-128 | each guarded volume gets a "Skipping" line; each unguarded one gets a "Creating" line, and a failure line when its request is rejected; conversely, a "Skipping" line names a guarded listed volume, a "Creating" line an unguarded one, and a failure line an unguarded one whose request was rejected |
| `Orchestrator.StopComesFirst` | shotty/shotty.py:114-118 | an instance's first request is its stop, then the wait for stopped, and only then the snapshot requests; a rejected stop ends everything |
| `Orchestrator.RestartOnlyIfWasRunning` | shotty/shotty.py:131-136 | a start is sent iff the state read before the stop was `running` and the stop went through, and only after all snapshot requests |
| `Orchestrator.InstanceRequestsConcernIt` | shotty/shotty.py:113-136 | every request for an instance is its stop or wait, a start only if it was running, or a snapshot of one of its unguarded volumes; in the model only a rejected stop or start escapes |
| `Orchestrator.RunRequestsConcernSelection` | shotty/shotty.py:113-138 | every request of a run belongs, in that sense, to a selected instance, and in the model a run ends early only on a rejected stop or start |
| `Orchestrator.NeverSnapshotsGuardedVolume` | shotty/shotty.py:119-121 | a volume whose guard reports a pending snapshot never gets a snapshot request |
| `Orchestrator.NoStartUnlessRunning` | shotty/shotty.py:131-136 | an instance that was not running before the run never gets a start or a wait for running |
| `Orchestrator.SnapshotErrorsIsolated` | shotty/shotty.py:125-136 | snapshot client errors change neither the other requests of a run nor how it ends |
| `Orchestrator.RunReachesEveryInstance` | shotty/shotty.py:113-138 | with no stop or start rejected, every selected instance is stopped, every unguarded volume gets a request, every instance that was running is restarted, and "Job's done" closes the run |
| `Orchestrator.PendingVolumeScenario` | shotty/shotty.py:113-138 | a running instance with a volume without snapshots and a volume with a pending one: stop, one snapshot, a skip, a restart |
| `Bulk.ActionCall` | shotty/shotty.py:181 | a bulk action's request names the instance and is neither a wait nor a snapshot |
| `Bulk.BulkStep` | shotty/shotty.py:178-184 | the bulk loop, by definition: per instance in order, an announcing line, one request, and a failure line when it is rejected |
| `Bulk.ActOnEach` | shotty/shotty.py:178-184 | the loop sends and prints exactly `BulkStep` |
| `Bulk.BulkCommand` | shotty/shotty.py:172-176 | the shared gate: without a project and without `--force`, the error is returned and nothing is sent; otherwise the loop runs over the selection |
| `Bulk.StopInstances` | shotty/shotty.py:169-184 | `instances stop`: gate, then one stop request per selected instance |
| `Bulk.StartInstances` | shotty/shotty.py:192-207 | `instances start`: gate, then one start request per selected instance |
| `Bulk.RebootInstances` | shotty/shotty.py:215-230 | `instances reboot`: gate, then one reboot request per selected instance |
| `Bulk.OneRequestPerInstance` | shotty/shotty.py:178-184 | every selected instance gets exactly one request, in selection order, whatever the client errors |
| `Bulk.FailuresReported` | shotty/shotty.py:178-184 | every instance is announced, and a failure line names exactly the instances whose request was rejected |
| `Reporters.DecimalString` | shotty/shotty.py:87 | a size prints as a non-empty string of digits without a leading zero |
| `Reporters.DecimalRoundTrip` | shotty/shotty.py:87 | reading the printed digits back gives the size |
| `Reporters.VolumeRowOf` | shotty/shotty.py:83-89 | a volume row's columns in printed order; `VolumeRowReadsBack` states what each column holds |
| `Reporters.VolumeRowReadsBack` | shotty/shotty.py:83-89 | a volume row names the volume, its instance and its state; its size column is the size's digits followed by `GiB`; its encryption column is `Encrypted` for an encrypted volume and `Not Encrypted` otherwise |
| `Reporters.ListVolumes` | shotty/shotty.py:76-91 | one row per volume of every selected instance, in order |
| `Reporters.TagDict` | shotty/shotty.py:153 | the tag dictionary has exactly the listed keys, and a repeated key keeps its last value |
| `Reporters.InstanceRowOf` | shotty/shotty.py:153-160 | an instance row's columns in printed order, its project taken from the tag dictionary with `<no project>` as default; `ProjectColumn` states the project column |
| `Reporters.ProjectColumn` | shotty/shotty.py:153-160 | the project column is `<no project>` without a `Project` tag, and the tag's value otherwise |
| `Reporters.ProjectListingShowsProject` | shotty/shotty.py:147-160 | listing a project's instances shows that project in every row |
| `Reporters.ListInstances` | shotty/shotty.py:147-161 | one row per selected instance, in order |
| `Reporters.UpToCompleted` | shotty/shotty.py:53-63 | the default listing of a volume is a prefix of its snapshots; no entry before the last is `completed`; it stops early only right after a `completed` one |
| `Reporters.UpToCompletedUnique` | shotty/shotty.py:53-63 | those three properties determine the printed prefix |
| `Reporters.Shown` | shotty/shotty.py:53-63 | the snapshots printed for one volume: all with `--all`, else `UpToCompleted`; `ShownStopsAtFirstCompleted` states the result |
| `Reporters.ShownStopsAtFirstCompleted` | shotty/shotty.py:63 | without `--all`, printing ends with the first `completed` snapshot; with `--all`, every snapshot is printed in listing order |
| `Reporters.ShownAllWithoutCompleted` | shotty/shotty.py:53-63 | a listing without a `completed` snapshot is printed whole |
| `Reporters.ListingScenario` | shotty/shotty.py:53-63 | completed, pending, completed: one row by default, three with `--all` |
| `Reporters.SnapshotRowOf` | shotty/shotty.py:54-61 | a snapshot row's columns in printed order: snapshot, volume and instance ids, state, progress, start time |
| `Reporters.ListVolumeSnapshots` | shotty/shotty.py:53-63 | the loop with its early stop prints exactly the rows of the shown snapshots |
| `Reporters.ListSnapshots` | shotty/shotty.py:46-65 | the rows of every shown snapshot of every volume of every selected instance, in order |

## Left out

- Credential and profile handling (shotty/shotty.py:5-9, 31-34) and the click decorators, options and help text. The resource is built from a given inventory and error oracle (`Ec2.Service.constructor`), not from a profile.
- What stop, start, reboot and snapshot requests do to the inventory: they are log entries, and the inventory is not updated.
- The waiters' polling and timeouts: `Ec2.Service.Wait` always returns, so a waiter error is not modelled.
- Client errors depend only on the request, through the fixed `rejects` set. An error that depends on timing or on earlier requests is not modelled.
- The service's filtering and lazy paging are not modelled. The selection is a sequence, and a `tag:Project` filter is modelled as "has a tag `Project` with that value". Wildcards (`*`, `?`) in the option value are not modelled, so a project such as `web*` selects only instances tagged with that exact string.
- Console text: lines and rows are values with the fields they print. The exact wording, the error message text `str(e)` and `strftime("%c")` are left out. The snapshot start time stays a number.
- Failing reads: listing instances, volumes and snapshots never fails, and every request failure is a client error. In the code, an error while listing (the instance loop, shotty/shotty.py:113; the volumes, 118; the guard's listing, 26) or a non-client error from `create_snapshot` (125-129 catch only client errors) is uncaught and ends the run, like a rejected stop. Likewise in `instances stop|start|reboot` (shotty/shotty.py:180-184, 203-207, 226-230) a non-client error from the request, such as a connection error or a read timeout, is uncaught and ends the loop, so later instances get no request.
- The unreachable `exit()` after each gate `raise`.
- The interleaving of printed lines and requests: a `Step` records the requests sent and the lines printed as two separate sequences, so that a line such as "Stopping" is printed before its request (shotty/shotty.py:115-116, 123-126, 132-133) is not modelled; only the order within each sequence is.
- `Reporters.ProjectColumn`: it states the tag's value only when tag keys are unique, as the service keeps them. With repeated keys, `TagDict` states that the last value wins.
- `Selector.InstanceIdSelectsAtMostOne`: it assumes instance ids are unique in the inventory, as EC2 ensures. Without that, the selection is every instance with the id (`Selector.FilterInstances`).
