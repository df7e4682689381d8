/** The work queue: sorted by descending priority, then ascending time (src/types.rs, `WorkQueue`). */
module WorkQueues {
  import opened Base
  import opened Ids
  import opened Items

  /** `existing` stays in front of a newly pushed `item`. */
  predicate Ahead(existing: WorkItem, item: WorkItem) {
    if existing.priority != item.priority then existing.priority > item.priority
    else existing.time <= item.time
  }

  ghost predicate Sorted(q: seq<WorkItem>) {
    forall i, j :: 0 <= i < j < |q| ==> Ahead(q[i], q[j])
  }

  function Insert(q: seq<WorkItem>, item: WorkItem): seq<WorkItem> {
    if q != [] && Ahead(q[0], item) then [q[0]] + Insert(q[1..], item) else [item] + q
  }

  function FindItem(q: seq<WorkItem>, id: AgentId): (r: Option<nat>)
    ensures r.Some? ==> r.value < |q| && q[r.value].id == id && forall i :: 0 <= i < r.value ==> q[i].id != id
    ensures r.None? ==> forall i :: 0 <= i < |q| ==> q[i].id != id
  {
    Position(q, (x: WorkItem) => x.id == id)
  }

  function RemoveItem(q: seq<WorkItem>, id: AgentId): seq<WorkItem> {
    match FindItem(q, id) case None => q case Some(p) => RemoveAt(q, p)
  }

  class WorkQueue {
    var items: seq<WorkItem>

    constructor ()
      ensures items == []
    {
      items := [];
    }

    ghost predicate Valid()
      reads this
    {
      Sorted(items)
    }

    /** How many leading items stay ahead of `item`, found by halving the range. */
    method PartitionPoint(item: WorkItem) returns (pos: nat)
      requires Valid()
      ensures pos <= |items|
      ensures forall i :: 0 <= i < pos ==> Ahead(items[i], item)
      ensures forall i :: pos <= i < |items| ==> !Ahead(items[i], item)
    {
      var lo, hi := 0, |items|;
      while lo < hi
        invariant 0 <= lo <= hi <= |items|
        invariant forall i :: 0 <= i < lo ==> Ahead(items[i], item)
        invariant forall i :: hi <= i < |items| ==> !Ahead(items[i], item)
      {
        var mid := (lo + hi) / 2;
        if Ahead(items[mid], item) {
          assert forall i :: 0 <= i < mid ==> Ahead(items[i], items[mid]);
          lo := mid + 1;
        } else {
          assert forall i :: mid < i < |items| ==> Ahead(items[mid], items[i]);
          hi := mid;
        }
      }
      pos := lo;
    }

    method Push(item: WorkItem)
      requires Valid()
      modifies this
      ensures Valid() && items == Insert(old(items), item)
    {
      var pos := PartitionPoint(item);
      InsertAt(items, item, pos);
      InsertSorted(items, item);
      items := items[..pos] + [item] + items[pos..];
    }

    method Remove(id: AgentId) returns (removed: Option<WorkItem>)
      requires Valid()
      modifies this
      ensures Valid() && items == RemoveItem(old(items), id)
      ensures removed == match FindItem(old(items), id) case None => None case Some(p) => Some(old(items)[p])
    {
      RemoveSorted(items, id);
      match FindItem(items, id) {
        case None => removed := None;
        case Some(p) =>
          removed := Some(items[p]);
          items := items[..p] + items[p + 1..];
      }
    }
  }

  lemma {:induction false} InsertAt(q: seq<WorkItem>, item: WorkItem, pos: nat)
    requires pos <= |q|
    requires forall i :: 0 <= i < pos ==> Ahead(q[i], item)
    requires pos < |q| ==> !Ahead(q[pos], item)
    ensures Insert(q, item) == q[..pos] + [item] + q[pos..]
  {
    if pos == 0 {
    } else {
      InsertAt(q[1..], item, pos - 1);
      assert q[..pos] == [q[0]] + q[1..][..pos - 1];
    }
  }

  lemma {:induction false} InsertContents(q: seq<WorkItem>, item: WorkItem)
    ensures |Insert(q, item)| == |q| + 1
    ensures multiset(Insert(q, item)) == multiset(q) + multiset{item}
    ensures forall x :: x in Insert(q, item) <==> x == item || x in q
  {
    if q != [] && Ahead(q[0], item) {
      assert q == [q[0]] + q[1..];
      InsertContents(q[1..], item);
    }
  }

  lemma {:induction false} InsertSorted(q: seq<WorkItem>, item: WorkItem)
    requires Sorted(q)
    ensures Sorted(Insert(q, item))
  {
    if q != [] && Ahead(q[0], item) {
      InsertSorted(q[1..], item);
      InsertContents(q[1..], item);
      var r := Insert(q[1..], item);
      forall i | 0 <= i < |r| ensures Ahead(q[0], r[i]) {
        assert r[i] in r;
      }
    }
  }

  lemma RemoveSorted(q: seq<WorkItem>, id: AgentId)
    requires Sorted(q)
    ensures Sorted(RemoveItem(q, id))
  {}

  // ---- Any run of pushes and removals, against the stable sort of what is left ----

  datatype QueueOp = Push(item: WorkItem) | Remove(id: AgentId)

  function Step(q: seq<WorkItem>, op: QueueOp): seq<WorkItem> {
    match op
    case Push(item) => Insert(q, item)
    case Remove(id) => RemoveItem(q, id)
  }

  function Run(q: seq<WorkItem>, ops: seq<QueueOp>): seq<WorkItem> {
    if ops == [] then q else Step(Run(q, ops[..|ops| - 1]), ops[|ops| - 1])
  }

  /** The items that share `like`'s priority and time, in order. */
  function SameRank(xs: seq<WorkItem>, like: WorkItem): seq<WorkItem> {
    if xs == [] then []
    else if xs[0].priority == like.priority && xs[0].time == like.time then [xs[0]] + SameRank(xs[1..], like)
    else SameRank(xs[1..], like)
  }

  /** `q` is sorted, and items of equal rank stand in the order `xs` lists them. */
  ghost predicate IsStableSortOf(q: seq<WorkItem>, xs: seq<WorkItem>) {
    Sorted(q) && forall like :: SameRank(q, like) == SameRank(xs, like)
  }

  function RemoveFirst(xs: seq<WorkItem>, x: WorkItem): seq<WorkItem> {
    if xs == [] then [] else if xs[0] == x then xs[1..] else [xs[0]] + RemoveFirst(xs[1..], x)
  }

  /** The admitted items not yet removed, in order of admission. */
  function Admitted(q: seq<WorkItem>, ops: seq<QueueOp>): seq<WorkItem> {
    if ops == [] then q
    else
      var before := Admitted(q, ops[..|ops| - 1]);
      match ops[|ops| - 1]
      case Push(item) => before + [item]
      case Remove(id) =>
        var queue := Run(q, ops[..|ops| - 1]);
        match FindItem(queue, id)
        case None => before
        case Some(p) => RemoveFirst(before, queue[p])
  }

  lemma {:induction false} SameRankAppend(a: seq<WorkItem>, b: seq<WorkItem>, like: WorkItem)
    ensures SameRank(a + b, like) == SameRank(a, like) + SameRank(b, like)
  {
    if a == [] {
      assert a + b == b;
    } else {
      assert (a + b)[1..] == a[1..] + b;
      SameRankAppend(a[1..], b, like);
    }
  }

  lemma {:induction false} SameRankMembers(xs: seq<WorkItem>, like: WorkItem)
    ensures forall x :: x in SameRank(xs, like) <==> x in xs && x.priority == like.priority && x.time == like.time
  {
    if xs != [] {
      SameRankMembers(xs[1..], like);
      assert xs == [xs[0]] + xs[1..];
    }
  }

  /** A sorted sequence is determined by its rank classes, so "the stable sort" is one sequence. */
  lemma {:induction false} StableSortUnique(a: seq<WorkItem>, b: seq<WorkItem>)
    requires Sorted(a) && Sorted(b)
    requires forall like :: SameRank(a, like) == SameRank(b, like)
    ensures a == b
  {
    if a != [] || b != [] {
      var x := if a != [] then a[0] else b[0];
      SameRankMembers(a, x);
      SameRankMembers(b, x);
      assert SameRank(a, x) == SameRank(b, x);
      assert x in a && x in b;
      SameRankMembers(a, b[0]); SameRankMembers(b, b[0]);
      SameRankMembers(a, a[0]); SameRankMembers(b, a[0]);
      assert SameRank(a, b[0]) == SameRank(b, b[0]);
      assert b[0] in SameRank(a, b[0]);
      assert a[0] in SameRank(b, a[0]);
      assert Ahead(a[0], b[0]) && Ahead(b[0], a[0]);
      assert a[0] == SameRank(a, a[0])[0] == SameRank(b, a[0])[0] == b[0];
      forall like ensures SameRank(a[1..], like) == SameRank(b[1..], like) {
        assert SameRank(a, like) == SameRank(b, like);
        if a[0].priority == like.priority && a[0].time == like.time {
          assert SameRank(a, like)[1..] == SameRank(a[1..], like);
          assert SameRank(b, like)[1..] == SameRank(b[1..], like);
        } else {
          assert SameRank(a, like) == SameRank(a[1..], like);
          assert SameRank(b, like) == SameRank(b[1..], like);
        }
      }
      StableSortUnique(a[1..], b[1..]);
    }
  }

  lemma {:induction false} InsertIsStable(q: seq<WorkItem>, item: WorkItem, like: WorkItem)
    requires Sorted(q)
    ensures SameRank(Insert(q, item), like) == SameRank(q, like) + SameRank([item], like)
  {
    if q != [] && Ahead(q[0], item) {
      InsertIsStable(q[1..], item, like);
    } else {
      forall x | x in q ensures x.priority != item.priority || x.time != item.time {
        assert x == q[0] || Ahead(q[0], x);
      }
      SameRankMembers(q, like);
      if SameRank(q, like) != [] { assert SameRank(q, like)[0] in SameRank(q, like); }
    }
  }

  /** Taking the first copy of `x` out of `xs` takes the first copy out of its rank class. */
  lemma {:induction false} RemoveFirstInRank(xs: seq<WorkItem>, x: WorkItem, like: WorkItem)
    ensures SameRank(RemoveFirst(xs, x), like) == RemoveFirst(SameRank(xs, like), x)
  {
    if xs != [] {
      RemoveFirstInRank(xs[1..], x, like);
      if xs[0] == x {
        SameRankMembers(xs[1..], like);
        if x.priority == like.priority && x.time == like.time {
          assert SameRank(xs, like)[1..] == SameRank(xs[1..], like);
        } else {
          assert SameRank(xs, like) == SameRank(xs[1..], like);
          RemoveFirstAbsent(SameRank(xs[1..], like), x);
        }
      } else {
        assert RemoveFirst(xs, x)[1..] == RemoveFirst(xs[1..], x);
        if xs[0].priority == like.priority && xs[0].time == like.time {
          assert SameRank(xs, like)[1..] == SameRank(xs[1..], like);
        }
      }
    }
  }

  lemma {:induction false} RemoveFirstAbsent(xs: seq<WorkItem>, x: WorkItem)
    requires x !in xs
    ensures RemoveFirst(xs, x) == xs
  {
    if xs != [] { RemoveFirstAbsent(xs[1..], x); }
  }

  lemma {:induction false} RemoveFirstAt(xs: seq<WorkItem>, x: WorkItem, p: nat)
    requires p < |xs| && xs[p] == x && forall i :: 0 <= i < p ==> xs[i] != x
    ensures RemoveFirst(xs, x) == RemoveAt(xs, p)
  {
    if p > 0 {
      RemoveFirstAt(xs[1..], x, p - 1);
      assert RemoveAt(xs, p) == [xs[0]] + RemoveAt(xs[1..], p - 1);
    }
  }

  /**
   * After any run of pushes and removals, from any sorted start, the queue is the stable sort of the
   * admitted items that were not removed. No assumption on ids: repeated ids are allowed.
   */
  lemma {:induction false} QueueIsStableSort(q: seq<WorkItem>, ops: seq<QueueOp>)
    requires Sorted(q)
    ensures IsStableSortOf(Run(q, ops), Admitted(q, ops))
  {
    if ops != [] {
      var prefix, op := ops[..|ops| - 1], ops[|ops| - 1];
      var queue, before := Run(q, prefix), Admitted(q, prefix);
      QueueIsStableSort(q, prefix);
      match op {
        case Push(item) =>
          InsertSorted(queue, item);
          forall like ensures SameRank(Insert(queue, item), like) == SameRank(before + [item], like) {
            InsertIsStable(queue, item, like);
            SameRankAppend(before, [item], like);
          }
        case Remove(id) =>
          RemoveSorted(queue, id);
          match FindItem(queue, id) {
            case None =>
            case Some(p) =>
              var x := queue[p];
              RemoveFirstAt(queue, x, p);
              forall like ensures SameRank(RemoveFirst(queue, x), like) == SameRank(RemoveFirst(before, x), like) {
                RemoveFirstInRank(queue, x, like);
                RemoveFirstInRank(before, x, like);
              }
          }
      }
    }
  }

  lemma RunAppend(q: seq<WorkItem>, ops: seq<QueueOp>, op: QueueOp)
    ensures Run(q, ops + [op]) == Step(Run(q, ops), op)
  {
    assert (ops + [op])[..|ops|] == ops;
  }
}
