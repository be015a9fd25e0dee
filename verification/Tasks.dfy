/** Tasks, lanes and the ordering of queue items (domain/models/tasks.py, domain/enums/command.py). */
module Tasks {

  datatype Option<+T> = None | Some(value: T)

  type Ip = string
  type BatchId = nat

  datatype CommandKind =
    | Connect | InfoLoad | StatusPoll | Control
    | Discovery | SetIp | Reset | VideoRefresh | FirmwareBatch

  /** The lanes of LANE_ORDER. */
  datatype TaskLane =
    | ControlLane | ConnectLane | InfoLane | PollHotLane | PollWarmLane | FirmwareLane | UdpAdminLane

  const LANE_ORDER: seq<TaskLane> :=
    [ControlLane, ConnectLane, InfoLane, PollHotLane, PollWarmLane, FirmwareLane, UdpAdminLane]

  /** `deviceIp` is "" when the source has None or ""; `batch` is the `_connect_batch_id` of the payload. */
  datatype TaskSpec = TaskSpec(
    taskId: string,
    deviceIp: Ip,
    command: CommandKind,
    lane: TaskLane,
    priority: int,
    batch: Option<BatchId>)

  datatype Item = Item(priority: int, sequence: nat, task: TaskSpec)

  /** Order of `_QueueItem.sort_key`: high priority first, then first come first served. */
  predicate Less(a: Item, b: Item) {
    a.priority > b.priority || (a.priority == b.priority && a.sequence < b.sequence)
  }

  /** High priority first, and first come first served among equals. */
  ghost predicate Sorted(s: seq<Item>) {
    forall i, j :: 0 <= i < j < |s| ==>
      s[i].priority > s[j].priority || (s[i].priority == s[j].priority && s[i].sequence < s[j].sequence)
  }

  /** The queues of all lanes; a value of this type has an entry for every lane. */
  type Lanes = m: map<TaskLane, seq<Item>> | forall l: TaskLane :: l in m
    witness map l: TaskLane :: []

  const EMPTY_LANES: Lanes := map l: TaskLane :: []

  function TasksOf(items: seq<Item>): (ts: seq<TaskSpec>)
    ensures |ts| == |items|
    ensures forall i :: 0 <= i < |items| ==> ts[i] == items[i].task
  {
    seq(|items|, i requires 0 <= i < |items| => items[i].task)
  }

  lemma EveryLaneIsOrdered(l: TaskLane) returns (k: nat)
    ensures k < |LANE_ORDER| && LANE_ORDER[k] == l
  {
    k := match l
         case ControlLane => 0
         case ConnectLane => 1
         case InfoLane => 2
         case PollHotLane => 3
         case PollWarmLane => 4
         case FirmwareLane => 5
         case UdpAdminLane => 6;
  }

  /** Sorted insertion: what `enqueue` does to the sorted view of a lane. */
  function Insert(s: seq<Item>, x: Item): (r: seq<Item>)
    ensures multiset(r) == multiset(s) + multiset{x}
    ensures |r| == |s| + 1
  {
    if s == [] then [x]
    else if Less(x, s[0]) then
      assert [x] + s == [x] + ([s[0]] + s[1..]);
      [x] + s
    else
      assert s == [s[0]] + s[1..];
      [s[0]] + Insert(s[1..], x)
  }

  lemma SortedTail(s: seq<Item>)
    requires Sorted(s) && s != []
    ensures Sorted(s[1..]) && forall y :: y in s[1..] ==> Less(s[0], y)
  {
  }

  lemma SortedCons(x: Item, r: seq<Item>)
    requires Sorted(r) && forall y :: y in r ==> Less(x, y)
    ensures Sorted([x] + r)
  {
    var s := [x] + r;
    forall i, j | 0 <= i < j < |s| ensures Less(s[i], s[j]) {
      assert s[j] == r[j - 1] && s[j] in r;
    }
  }

  lemma InsertSorted(s: seq<Item>, x: Item)
    requires Sorted(s)
    requires forall i :: 0 <= i < |s| ==> s[i].sequence != x.sequence
    ensures Sorted(Insert(s, x))
  {
    hide Sorted;
    if s == [] {
      NothingSorted();
      SortedCons(x, []);
      assert [x] + [] == [x];
    } else {
      SortedTail(s);
      if Less(x, s[0]) {
        assert s == [s[0]] + s[1..];
        SortedCons(x, s);
      } else {
        InsertSorted(s[1..], x);
        var r := Insert(s[1..], x);
        forall y | y in r ensures Less(s[0], y) {
          assert y in multiset(r) && (y == x || y in multiset(s[1..]));
        }
        SortedCons(s[0], r);
      }
    }
  }

  lemma NothingSorted()
    ensures Sorted([])
  {
  }

  lemma TailItems(s: seq<Item>)
    requires s != []
    ensures multiset(s) == multiset{s[0]} + multiset(s[1..])
    ensures multiset(s[1..]) == multiset(s) - multiset{s[0]}
  {
    assert s == [s[0]] + s[1..];
  }

  lemma HeadIsLeast(s: seq<Item>, x: Item)
    requires Sorted(s) && x in multiset(s)
    ensures x == s[0] || Less(s[0], x)
  {
    var i :| 0 <= i < |s| && s[i] == x;
  }

  lemma SameHead(a: seq<Item>, b: seq<Item>)
    requires Sorted(a) && Sorted(b) && multiset(a) == multiset(b)
    ensures |a| == |b|
    ensures a != [] ==> a[0] == b[0]
  {
    assert |a| == |multiset(a)| == |multiset(b)| == |b|;
    if a != [] {
      assert a[0] in multiset(a) && b[0] in multiset(b);
      HeadIsLeast(a, b[0]);
      HeadIsLeast(b, a[0]);
    }
  }

  /** Two strictly sorted sequences with the same items are the same sequence. */
  lemma {:induction false} SortedUnique(a: seq<Item>, b: seq<Item>)
    requires Sorted(a) && Sorted(b) && multiset(a) == multiset(b)
    ensures a == b
  {
    SameHead(a, b);
    if a == [] {
    } else {
      TailItems(a);
      TailItems(b);
      SortedUnique(a[1..], b[1..]);
      assert a == [a[0]] + a[1..] && b == [b[0]] + b[1..];
    }
  }
}
