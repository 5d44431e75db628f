/** What the mutating commands share: the console lines they print, the
    requests-and-lines record of a run, and the safety gate. */
module Commands {
  import opened Inventory
  import opened Ec2

  /** The bulk actions of the `instances` group. */
  datatype Action = StopAction | StartAction | RebootAction

  /** A console line, as the fields it reports. */
  datatype Line =
    | Stopping(instanceId: string)                  // the snapshot command stops an instance
    | Skipping(volumeId: string)                    // a snapshot of the volume is already in progress
    | Creating(volumeId: string)                    // a snapshot of the volume is requested
    | CouldNotSnapshot(volumeId: string)            // that request got a client error
    | Starting(instanceId: string)                  // the snapshot command restarts an instance
    | JobsDone                                      // the snapshot command finished
    | Requesting(action: Action, instanceId: string) // a bulk action is requested
    | CouldNot(action: Action, instanceId: string)   // that request got a client error

  /** The requests a piece of work sends and the lines it prints. */
  datatype Step = Step(calls: seq<Call>, lines: seq<Line>) {
    function Then(next: Step): Step {
      Step(calls + next.calls, lines + next.lines)
    }
  }

  /** A command's outcome: its result, or the exception the gate raises. */
  datatype Result<+T> = Ok(value: T) | Refused(message: string)

  const GateMessage := "Choose a project or use --force option to apply for all instances"

  /** The gate of every mutating command: a project or `--force` is needed;
      an instance id alone does not open it. */
  predicate GateOpen(project: Option<string>, force: bool) {
    Given(project) || force
  }
}
