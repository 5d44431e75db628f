/** The selector: turns the optional project and instance-id options into
    the sequence of instances a command works on (shotty/shotty.py:11-23). */
module Selector {
  import opened Inventory

  /** The one filter the selector asks the service for. */
  datatype Criterion = ById(id: string) | ByProject(project: string) | Everything

  predicate Matches(c: Criterion, i: Instance) {
    match c
    case ById(id) => i.id == id
    case ByProject(p) => HasTag(i, ProjectKey, p)
    case Everything => true
  }

  /** The instances of `inv` that `c` matches, in inventory order. */
  function Keep(inv: seq<Instance>, c: Criterion): (r: seq<Instance>)
    ensures |r| <= |inv|
    ensures forall i :: i in r <==> i in inv && Matches(c, i)
  {
    if inv == [] then []
    else (if Matches(c, inv[0]) then [inv[0]] else []) + Keep(inv[1..], c)
  }

  /** The selection: an instance id wins and the project is then ignored; a
      project alone selects by its `Project` tag; with neither, the whole
      inventory is selected. */
  function FilterInstances(inv: seq<Instance>, project: Option<string>, instance: Option<string>): (r: seq<Instance>)
    ensures Given(instance) ==> forall i :: i in r <==> i in inv && i.id == instance.value
    ensures !Given(instance) && Given(project) ==>
              forall i :: i in r <==> i in inv && HasTag(i, ProjectKey, project.value)
    ensures !Given(instance) && !Given(project) ==> r == inv
  {
    if Given(instance) then Keep(inv, ById(instance.value))
    else if Given(project) then Keep(inv, ByProject(project.value))
    else inv
  }

  /** Filtering keeps the inventory's order: filtering a concatenation is
      concatenating the filtered parts. */
  lemma {:induction false} KeepDistributes(a: seq<Instance>, b: seq<Instance>, c: Criterion)
    ensures Keep(a + b, c) == Keep(a, c) + Keep(b, c)
  {
    if a != [] {
      assert (a + b)[0] == a[0] && (a + b)[1..] == a[1..] + b;
      KeepDistributes(a[1..], b, c);
    } else {
      assert a + b == b;
    }
  }

  /** An instance id takes precedence: the project option has no effect. */
  lemma InstanceIdTakesPrecedence(inv: seq<Instance>, p1: Option<string>, p2: Option<string>, instance: Option<string>)
    requires Given(instance)
    ensures FilterInstances(inv, p1, instance) == FilterInstances(inv, p2, instance)
    ensures FilterInstances(inv, p1, instance) == FilterInstances(inv, None, instance)
  {
  }

  /** With ids unique in the inventory, an instance id selects at most one
      instance, and that one carries the id. */
  lemma {:induction false} InstanceIdSelectsAtMostOne(inv: seq<Instance>, project: Option<string>, instance: Option<string>)
    requires UniqueIds(inv)
    requires Given(instance)
    ensures |FilterInstances(inv, project, instance)| <= 1
    ensures forall i :: i in FilterInstances(inv, project, instance) ==> i.id == instance.value
  {
    AtMostOneWithId(inv, instance.value);
  }

  lemma {:induction false} AtMostOneWithId(inv: seq<Instance>, id: string)
    requires UniqueIds(inv)
    ensures |Keep(inv, ById(id))| <= 1
  {
    if inv != [] {
      assert UniqueIds(inv[1..]) by {
        forall j, k | 0 <= j < k < |inv[1..]| ensures inv[1..][j].id != inv[1..][k].id {
          assert inv[1..][j] == inv[j + 1] && inv[1..][k] == inv[k + 1];
        }
      }
      AtMostOneWithId(inv[1..], id);
      if inv[0].id == id {
        forall k | 0 <= k < |inv[1..]| ensures !Matches(ById(id), inv[1..][k]) {
          assert inv[1..][k] == inv[k + 1];
        }
        KeepNoneMatching(inv[1..], ById(id));
      }
    }
  }

  lemma {:induction false} KeepNoneMatching(inv: seq<Instance>, c: Criterion)
    requires forall k :: 0 <= k < |inv| ==> !Matches(c, inv[k])
    ensures Keep(inv, c) == []
  {
    if inv != [] {
      KeepNoneMatching(inv[1..], c);
    }
  }
}
