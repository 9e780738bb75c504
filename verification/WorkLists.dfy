/**
  The work list of a deep-verify run: one item for every file of a duplicate group but its
  first, the anchor, which the others are compared with.
 */
module WorkLists {
  datatype File = File(fileId: int, path: string)
  datatype Group = Group(files: seq<File>)
  datatype WorkItem = WorkItem(fileId: int, path: string, anchorFileId: int, anchorPath: string)

  /** The item that compares file `j` of a group with the group's anchor. */
  function ItemFor(group: Group, j: nat): WorkItem
    requires 1 <= j < |group.files|
  {
    WorkItem(group.files[j].fileId, group.files[j].path, group.files[0].fileId, group.files[0].path)
  }

  /** The items of one group: every file but the anchor. */
  function GroupItems(group: Group): (items: seq<WorkItem>)
    ensures |items| == if |group.files| < 2 then 0 else |group.files| - 1
    ensures forall k :: 0 <= k < |items| ==> items[k] == ItemFor(group, k + 1)
  {
    if |group.files| < 2 then []
    else seq(|group.files| - 1, k requires 0 <= k < |group.files| - 1 => ItemFor(group, k + 1))
  }

  /** The work items of the first `n` groups. */
  function WorkListTo(groups: seq<Group>, n: nat): seq<WorkItem>
    requires n <= |groups|
  {
    if n == 0 then [] else WorkListTo(groups, n - 1) + GroupItems(groups[n - 1])
  }

  function WorkList(groups: seq<Group>): seq<WorkItem> {
    WorkListTo(groups, |groups|)
  }

  /** Group size minus one, over those of the first `n` groups that have two files or more. */
  function PairsBefore(groups: seq<Group>, n: nat): nat
    requires n <= |groups|
  {
    if n == 0 then 0
    else PairsBefore(groups, n - 1) + if |groups[n - 1].files| >= 2 then |groups[n - 1].files| - 1 else 0
  }

  /** The number of comparisons the caller is promised. */
  function PairCount(groups: seq<Group>): nat {
    PairsBefore(groups, |groups|)
  }

  lemma {:induction false} WorkListToLength(groups: seq<Group>, n: nat)
    requires n <= |groups|
    ensures |WorkListTo(groups, n)| == PairsBefore(groups, n)
  {
    if n > 0 {
      WorkListToLength(groups, n - 1);
    }
  }

  lemma WorkListLength(groups: seq<Group>)
    ensures |WorkList(groups)| == PairCount(groups)
  {
    WorkListToLength(groups, |groups|);
  }

  lemma AppendedAt(front: seq<WorkItem>, items: seq<WorkItem>, k: nat)
    requires k < |items|
    ensures (front + items)[|front| + k] == items[k]
  {
  }

  /** The items of the latest group come after all earlier ones. */
  lemma LatestPlaces(groups: seq<Group>, g: nat, j: nat, item: WorkItem, place: nat)
    requires g < |groups| && 1 <= j < |groups[g].files|
    requires item == ItemFor(groups[g], j) && place == PairsBefore(groups, g) + j - 1
    ensures place < |WorkListTo(groups, g + 1)| && WorkListTo(groups, g + 1)[place] == item
  {
    WorkListToLength(groups, g);
    AppendedAt(WorkListTo(groups, g), GroupItems(groups[g]), j - 1);
  }

  lemma UnmovedAt(front: seq<WorkItem>, items: seq<WorkItem>, k: nat)
    requires k < |front|
    ensures (front + items)[k] == front[k]
  {
  }

  /** The work items of the groups from `m` up to `n`. */
  function WorkListBetween(groups: seq<Group>, m: nat, n: nat): seq<WorkItem>
    requires m <= n <= |groups|
  {
    if m == n then [] else WorkListBetween(groups, m, n - 1) + GroupItems(groups[n - 1])
  }

  lemma AppendedTwice(a: seq<WorkItem>, b: seq<WorkItem>, c: seq<WorkItem>)
    ensures (a + b) + c == a + (b + c)
  {
  }

  /** And they stay where they are when more groups follow. */
  lemma {:induction false} LaterGroupsAppend(groups: seq<Group>, m: nat, n: nat)
    requires m <= n <= |groups|
    ensures WorkListTo(groups, n) == WorkListTo(groups, m) + WorkListBetween(groups, m, n)
  {
    if m < n {
      LaterGroupsAppend(groups, m, n - 1);
      AppendedTwice(WorkListTo(groups, m), WorkListBetween(groups, m, n - 1), GroupItems(groups[n - 1]));
    }
  }

  /** File `j` of group `g` is enqueued once, at the place its predecessors leave it, against its own group's anchor. */
  lemma WorkListPlaces(groups: seq<Group>, g: nat, j: nat)
    requires g < |groups| && 1 <= j < |groups[g].files|
    ensures PairsBefore(groups, g) + j - 1 < |WorkList(groups)|
    ensures WorkList(groups)[PairsBefore(groups, g) + j - 1] == ItemFor(groups[g], j)
  {
    var item, place := ItemFor(groups[g], j), PairsBefore(groups, g) + j - 1;
    LatestPlaces(groups, g, j, item, place);
    LaterGroupsAppend(groups, g + 1, |groups|);
    UnmovedAt(WorkListTo(groups, g + 1), WorkListBetween(groups, g + 1, |groups|), place);
  }

  predicate DistinctIds(work: seq<WorkItem>) {
    forall i, j :: 0 <= i < j < |work| ==> work[i].fileId != work[j].fileId
  }
}
