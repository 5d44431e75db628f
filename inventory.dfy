/** The cloud inventory the tool reads through its EC2 resource: instances,
    the volumes attached to each, and each volume's snapshot listing. All of
    them are point-in-time values; nothing here is written back. */
module Inventory {

  datatype Option<+T> = None | Some(value: T)

  /** One entry of an instance's tag list (a Key/Value pair). */
  datatype Tag = Tag(key: string, value: string)

  /** A snapshot as listed for a volume. The start time stays an abstract
      timestamp; its locale formatting is not modelled. */
  datatype Snapshot = Snapshot(id: string, state: string, progress: string, startTime: int)

  /** `snapshots` is the listing in the order the service returns it. */
  datatype Volume = Volume(id: string, state: string, size: nat, encrypted: bool, snapshots: seq<Snapshot>)

  /** An instance with its tag list (an absent list is the empty one) and its
      attached volumes. `state` is the name of its runtime state. */
  datatype Instance = Instance(
    id: string,
    instanceType: string,
    zone: string,
    state: string,
    publicDnsName: string,
    tags: seq<Tag>,
    volumes: seq<Volume>)

  const Pending := "pending"
  const Completed := "completed"
  const Running := "running"
  const ProjectKey := "Project"

  /** A command-line option counts as given when it is present and, as a
      Python string is truthy, non-empty. */
  predicate Given(o: Option<string>) {
    o.Some? && o.value != ""
  }

  /** The instance carries a tag `key` whose value is `value`: what a
      `tag:<key>` filter of the service matches. */
  predicate HasTag(i: Instance, key: string, value: string) {
    exists t :: t in i.tags && t.key == key && t.value == value
  }

  /** No two instances of the inventory share an id. */
  predicate UniqueIds(inv: seq<Instance>) {
    forall j, k :: 0 <= j < k < |inv| ==> inv[j].id != inv[k].id
  }

  /** No two tags of the list share a key. */
  predicate UniqueKeys(tags: seq<Tag>) {
    forall j, k :: 0 <= j < k < |tags| ==> tags[j].key != tags[k].key
  }
}
