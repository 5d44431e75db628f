/** The snapshot guard (shotty/shotty.py:25-27): a volume counts as having a
    snapshot in progress when the first entry of its snapshot listing is
    pending. Nothing after the first entry is looked at, so the guard relies
    on the service listing the most recent snapshot first. */
module Guard {
  import opened Inventory

  /** The guard fires only for a volume with some pending snapshot listed. */
  predicate HasPendingSnapshot(v: Volume)
    ensures HasPendingSnapshot(v) ==> exists k :: 0 <= k < |v.snapshots| && v.snapshots[k].state == Pending
  {
    |v.snapshots| > 0 && v.snapshots[0].state == Pending
  }

  /** False on an empty listing; otherwise decided by the first entry alone:
      replacing every later entry never changes the answer. */
  lemma GuardReadsOnlyFirstSnapshot(v: Volume, later: seq<Snapshot>)
    ensures v.snapshots == [] ==> !HasPendingSnapshot(v)
    ensures v.snapshots != [] ==>
              HasPendingSnapshot(v.(snapshots := [v.snapshots[0]] + later)) == HasPendingSnapshot(v)
    ensures v.snapshots != [] ==> (HasPendingSnapshot(v) <==> v.snapshots[0].state == Pending)
  {
  }
}
