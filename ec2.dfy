/** The EC2 resource the commands talk to, reduced to what the commands do
    with it: list the inventory, send requests, and wait for state changes.
    Every request and wait is appended to a log; whether a request is
    answered with a client error is decided by an oracle, `rejects`. */
module Ec2 {
  import opened Inventory

  /** A request sent to the service (or a wait on it). */
  datatype Call =
    | Stop(instanceId: string)
    | WaitUntilStopped(instanceId: string)
    | Start(instanceId: string)
    | WaitUntilRunning(instanceId: string)
    | Reboot(instanceId: string)
    | CreateSnapshot(volumeId: string, description: string)

  predicate IsWait(c: Call) {
    c.WaitUntilStopped? || c.WaitUntilRunning?
  }

  class Service {
    /** What the service lists, as read at the start of a command. */
    const inventory: seq<Instance>
    /** The requests the service answers with a client error. */
    const rejects: set<Call>
    /** Every request sent so far, in order. */
    var log: seq<Call>

    constructor (inventory: seq<Instance>, rejects: set<Call>)
      ensures this.inventory == inventory && this.rejects == rejects
      ensures log == []
    {
      this.inventory := inventory;
      this.rejects := rejects;
      log := [];
    }

    /** Sends a stop, start, reboot or snapshot request; `ok` is false when
        the service answers with a client error. The request is sent either
        way. */
    method Request(c: Call) returns (ok: bool)
      requires !IsWait(c)
      modifies this
      ensures log == old(log) + [c]
      ensures ok <==> c !in rejects
    {
      log := log + [c];
      ok := c !in rejects;
    }

    /** Blocks until the instance reaches the awaited state. */
    method Wait(c: Call)
      requires IsWait(c)
      modifies this
      ensures log == old(log) + [c]
    {
      log := log + [c];
    }
  }
}
