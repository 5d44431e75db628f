/** The three listings (shotty/shotty.py:40-91 and 142-161): one row per
    snapshot, volume or instance of the selection, built field by field. */
module Reporters {
  import opened Inventory
  import opened Selector

  datatype SnapshotRow = SnapshotRow(
    snapshotId: string, volumeId: string, instanceId: string,
    state: string, progress: string, startTime: int)

  datatype VolumeRow = VolumeRow(
    volumeId: string, instanceId: string, state: string, size: string, encryption: string)

  datatype InstanceRow = InstanceRow(
    id: string, instanceType: string, zone: string, state: string,
    publicDnsName: string, project: string)

  const NoProject := "<no project>"

  // ---------------------------------------------------------------------
  // Decimal rendering of a size, as Python's str on a non-negative int

  predicate AllDigits(s: string) {
    forall k :: 0 <= k < |s| ==> '0' <= s[k] <= '9'
  }

  function DecimalString(n: nat): (s: string)
    ensures |s| > 0 && AllDigits(s)
    ensures |s| > 1 ==> s[0] != '0'
    decreases n
  {
    var d := ('0' as int + n % 10) as char;
    if n < 10 then [d] else DecimalString(n / 10) + [d]
  }

  /** The number a string of digits denotes. */
  function DecimalValue(s: string): nat
    requires AllDigits(s)
    decreases |s|
  {
    if s == [] then 0
    else DecimalValue(s[..|s| - 1]) * 10 + (s[|s| - 1] as int - '0' as int)
  }

  lemma {:induction false} DecimalRoundTrip(n: nat)
    ensures DecimalValue(DecimalString(n)) == n
    decreases n
  {
    var s := DecimalString(n);
    if n >= 10 {
      assert s[..|s| - 1] == DecimalString(n / 10);
      DecimalRoundTrip(n / 10);
    }
  }

  // ---------------------------------------------------------------------
  // Volume rows

  function SizeLabel(size: nat): string {
    DecimalString(size) + "GiB"
  }

  function EncryptionLabel(encrypted: bool): string {
    if encrypted then "Encrypted" else "Not Encrypted"
  }

  function VolumeRowOf(i: Instance, v: Volume): VolumeRow {
    VolumeRow(v.id, i.id, v.state, SizeLabel(v.size), EncryptionLabel(v.encrypted))
  }

  /** A volume row names the volume and its instance, and its size and
      encryption columns give back the volume's size and flag: the size is
      the decimal digits of the size followed by `GiB`. */
  lemma VolumeRowReadsBack(i: Instance, v: Volume)
    ensures var r := VolumeRowOf(i, v);
      && r.volumeId == v.id && r.instanceId == i.id && r.state == v.state
      && |r.size| > 3 && r.size[|r.size| - 3..] == "GiB"
      && AllDigits(r.size[..|r.size| - 3])
      && DecimalValue(r.size[..|r.size| - 3]) == v.size
      && r.encryption == (if v.encrypted then "Encrypted" else "Not Encrypted")
  {
    var r := VolumeRowOf(i, v);
    assert r.size[..|r.size| - 3] == DecimalString(v.size);
    DecimalRoundTrip(v.size);
  }

  function VolumeRowsOf(i: Instance): seq<VolumeRow> {
    seq(|i.volumes|, k requires 0 <= k < |i.volumes| => VolumeRowOf(i, i.volumes[k]))
  }

  /** Every volume of every selected instance, in order. */
  function VolumeListing(sel: seq<Instance>): seq<VolumeRow>
    decreases |sel|
  {
    if sel == [] then []
    else VolumeListing(sel[..|sel| - 1]) + VolumeRowsOf(sel[|sel| - 1])
  }

  method ListVolumes(inv: seq<Instance>, project: Option<string>, instance: Option<string>)
    returns (rows: seq<VolumeRow>)
    ensures rows == VolumeListing(FilterInstances(inv, project, instance))
  {
    var sel := FilterInstances(inv, project, instance);
    rows := [];
    var n := 0;
    while n < |sel|
      invariant n <= |sel|
      invariant rows == VolumeListing(sel[..n])
    {
      var i := sel[n];
      assert sel[..n + 1][..n] == sel[..n];
      var m := 0;
      while m < |i.volumes|
        invariant m <= |i.volumes|
        invariant rows == VolumeListing(sel[..n]) + VolumeRowsOf(i)[..m]
      {
        assert VolumeRowsOf(i)[..m + 1] == VolumeRowsOf(i)[..m] + [VolumeRowOf(i, i.volumes[m])];
        rows := rows + [VolumeRowOf(i, i.volumes[m])];
        m := m + 1;
      }
      assert VolumeRowsOf(i)[..m] == VolumeRowsOf(i);
      n := n + 1;
    }
    assert sel[..n] == sel;
  }

  // ---------------------------------------------------------------------
  // Instance rows

  /** The tag at index j is the last one with its key. */
  predicate LastWithKey(tags: seq<Tag>, j: int)
    requires 0 <= j < |tags|
  {
    forall l :: j < l < |tags| ==> tags[l].key != tags[j].key
  }

  /** The dictionary built from a tag list: one entry per key, and a key
      listed twice keeps the value listed last. */
  function TagDict(tags: seq<Tag>): (m: map<string, string>)
    decreases |tags|
    ensures forall key :: key in m <==> exists t :: t in tags && t.key == key
    ensures forall j :: 0 <= j < |tags| && LastWithKey(tags, j) ==>
              tags[j].key in m && m[tags[j].key] == tags[j].value
  {
    if tags == [] then map[]
    else
      var init, last := tags[..|tags| - 1], tags[|tags| - 1];
      assert tags == init + [last];
      TagDict(init)[last.key := last.value]
  }

  function ProjectLabel(tags: seq<Tag>): string {
    var m := TagDict(tags);
    if ProjectKey in m then m[ProjectKey] else NoProject
  }

  function InstanceRowOf(i: Instance): InstanceRow {
    InstanceRow(i.id, i.instanceType, i.zone, i.state, i.publicDnsName, ProjectLabel(i.tags))
  }

  /** The project column is `<no project>` for an instance without a
      `Project` tag, and the tag's value when the instance has one (with
      keys unique, as the service keeps them). */
  lemma ProjectColumn(i: Instance)
    ensures (forall t :: t in i.tags ==> t.key != ProjectKey) ==> InstanceRowOf(i).project == NoProject
    ensures UniqueKeys(i.tags) ==>
              forall p :: HasTag(i, ProjectKey, p) ==> InstanceRowOf(i).project == p
  {
    if UniqueKeys(i.tags) {
      forall p | HasTag(i, ProjectKey, p) ensures InstanceRowOf(i).project == p {
        var t :| t in i.tags && t.key == ProjectKey && t.value == p;
        var j :| 0 <= j < |i.tags| && i.tags[j] == t;
        assert LastWithKey(i.tags, j);
      }
    }
  }

  /** Listing the instances of a project shows that project in every row. */
  lemma ProjectListingShowsProject(inv: seq<Instance>, project: Option<string>)
    requires Given(project)
    requires forall i :: i in inv ==> UniqueKeys(i.tags)
    ensures forall i :: i in FilterInstances(inv, project, None) ==> InstanceRowOf(i).project == project.value
  {
    forall i | i in FilterInstances(inv, project, None)
      ensures InstanceRowOf(i).project == project.value
    {
      ProjectColumn(i);
    }
  }

  method ListInstances(inv: seq<Instance>, project: Option<string>, instance: Option<string>)
    returns (rows: seq<InstanceRow>)
    ensures var sel := FilterInstances(inv, project, instance);
      |rows| == |sel| && forall k :: 0 <= k < |sel| ==> rows[k] == InstanceRowOf(sel[k])
  {
    var sel := FilterInstances(inv, project, instance);
    rows := [];
    var n := 0;
    while n < |sel|
      invariant n <= |sel|
      invariant |rows| == n && forall k :: 0 <= k < n ==> rows[k] == InstanceRowOf(sel[k])
    {
      rows := rows + [InstanceRowOf(sel[n])];
      n := n + 1;
    }
  }

  // ---------------------------------------------------------------------
  // Snapshot rows

  /** The snapshots printed for a volume by default: its listing up to and
      including the first completed one, or all of it when none is. */
  function UpToCompleted(snaps: seq<Snapshot>): (r: seq<Snapshot>)
    ensures |r| <= |snaps| && r == snaps[..|r|]
    ensures forall k :: 0 <= k < |r| - 1 ==> r[k].state != Completed
    ensures |r| < |snaps| ==> |r| > 0 && r[|r| - 1].state == Completed
  {
    if snaps == [] then []
    else if snaps[0].state == Completed then [snaps[0]]
    else [snaps[0]] + UpToCompleted(snaps[1..])
  }

  /** The three properties above pin the printed prefix down. */
  lemma {:induction false} UpToCompletedUnique(snaps: seq<Snapshot>, r: seq<Snapshot>)
    requires |r| <= |snaps| && r == snaps[..|r|]
    requires forall k :: 0 <= k < |r| - 1 ==> r[k].state != Completed
    requires |r| < |snaps| ==> |r| > 0 && r[|r| - 1].state == Completed
    ensures r == UpToCompleted(snaps)
  {
    if snaps != [] && snaps[0].state != Completed {
      assert r[1..] == snaps[1..][..|r| - 1];
      UpToCompletedUnique(snaps[1..], r[1..]);
    }
  }

  /** The snapshots printed for a volume, with or without `--all`. */
  function Shown(snaps: seq<Snapshot>, listAll: bool): seq<Snapshot> {
    if listAll then snaps else UpToCompleted(snaps)
  }

  /** With `--all` every snapshot is printed in listing order; without it
      the listing stops right after its first completed snapshot. */
  lemma ShownStopsAtFirstCompleted(snaps: seq<Snapshot>, c: nat)
    requires c < |snaps| && snaps[c].state == Completed
    requires forall t :: 0 <= t < c ==> snaps[t].state != Completed
    ensures Shown(snaps, false) == snaps[..c + 1]
    ensures Shown(snaps, true) == snaps
  {
    UpToCompletedUnique(snaps, snaps[..c + 1]);
  }

  /** Without a completed snapshot the whole listing is printed. */
  lemma ShownAllWithoutCompleted(snaps: seq<Snapshot>, listAll: bool)
    requires forall t :: 0 <= t < |snaps| ==> snaps[t].state != Completed
    ensures Shown(snaps, listAll) == snaps
  {
    assert snaps[..|snaps|] == snaps;
    UpToCompletedUnique(snaps, snaps);
  }

  function SnapshotRowOf(i: Instance, v: Volume, s: Snapshot): SnapshotRow {
    SnapshotRow(s.id, v.id, i.id, s.state, s.progress, s.startTime)
  }

  function SnapshotRowsOf(i: Instance, v: Volume, ss: seq<Snapshot>): seq<SnapshotRow> {
    seq(|ss|, k requires 0 <= k < |ss| => SnapshotRowOf(i, v, ss[k]))
  }

  /** The printed snapshots of the given volumes of instance `i`. */
  function VolumesSnapshotListing(i: Instance, vols: seq<Volume>, listAll: bool): seq<SnapshotRow>
    decreases |vols|
  {
    if vols == [] then []
    else
      var last := vols[|vols| - 1];
      VolumesSnapshotListing(i, vols[..|vols| - 1], listAll) + SnapshotRowsOf(i, last, Shown(last.snapshots, listAll))
  }

  /** The printed snapshots of every volume of every selected instance. */
  function SnapshotListing(sel: seq<Instance>, listAll: bool): seq<SnapshotRow>
    decreases |sel|
  {
    if sel == [] then []
    else
      var last := sel[|sel| - 1];
      SnapshotListing(sel[..|sel| - 1], listAll) + VolumesSnapshotListing(last, last.volumes, listAll)
  }

  /** The rows of one volume, with the early stop of the listing. */
  method ListVolumeSnapshots(i: Instance, v: Volume, listAll: bool) returns (rows: seq<SnapshotRow>)
    ensures rows == SnapshotRowsOf(i, v, Shown(v.snapshots, listAll))
  {
    var snaps := v.snapshots;
    rows := [];
    var k := 0;
    while k < |snaps|
      invariant k <= |snaps|
      invariant listAll || forall t :: 0 <= t < k ==> snaps[t].state != Completed
      invariant rows == SnapshotRowsOf(i, v, snaps[..k])
    {
      var s := snaps[k];
      assert snaps[..k + 1] == snaps[..k] + [s];
      rows := rows + [SnapshotRowOf(i, v, s)];
      k := k + 1;
      if s.state == Completed && !listAll {
        ShownStopsAtFirstCompleted(snaps, k - 1);
        return;
      }
    }
    assert snaps[..k] == snaps;
    if !listAll {
      ShownAllWithoutCompleted(snaps, listAll);
    }
  }

  method ListSnapshots(inv: seq<Instance>, project: Option<string>, instance: Option<string>, listAll: bool)
    returns (rows: seq<SnapshotRow>)
    ensures rows == SnapshotListing(FilterInstances(inv, project, instance), listAll)
  {
    var sel := FilterInstances(inv, project, instance);
    rows := [];
    var n := 0;
    while n < |sel|
      invariant n <= |sel|
      invariant rows == SnapshotListing(sel[..n], listAll)
    {
      var i := sel[n];
      assert sel[..n + 1][..n] == sel[..n];
      var m := 0;
      while m < |i.volumes|
        invariant m <= |i.volumes|
        invariant rows == SnapshotListing(sel[..n], listAll) + VolumesSnapshotListing(i, i.volumes[..m], listAll)
      {
        assert i.volumes[..m + 1][..m] == i.volumes[..m];
        var volumeRows := ListVolumeSnapshots(i, i.volumes[m], listAll);
        rows := rows + volumeRows;
        m := m + 1;
      }
      assert i.volumes[..m] == i.volumes;
      n := n + 1;
    }
    assert sel[..n] == sel;
  }

  /** A listing newest first: completed, pending, completed. By default only
      the first is printed; with `--all`, all three in listing order. */
  lemma ListingScenario()
    ensures
      var snaps := [Snapshot("s1", Completed, "100%", 3), Snapshot("s2", Pending, "20%", 2),
                    Snapshot("s3", Completed, "100%", 1)];
      Shown(snaps, false) == snaps[..1] && Shown(snaps, true) == snaps
  {
  }
}
