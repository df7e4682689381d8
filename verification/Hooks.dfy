/** The hook list: one hook per name, highest priority first (src/python.rs `register_hook`, `run_hooks_inner`). */
module HookTables {
  import opened Base
  import opened Items

  /** `retain(|h| h.name != name)`. */
  function Without(hooks: seq<Hook>, name: string): (r: seq<Hook>)
    ensures forall h :: h in r <==> h in hooks && h.name != name
  {
    if hooks == [] then []
    else
      var last := hooks[|hooks| - 1];
      assert hooks == hooks[..|hooks| - 1] + [last];
      Without(hooks[..|hooks| - 1], name) + if last.name == name then [] else [last]
  }

  /** Inserts behind every hook of at least the same priority. */
  function Place(hooks: seq<Hook>, hook: Hook): seq<Hook> {
    if hooks == [] || hooks[|hooks| - 1].priority >= hook.priority then hooks + [hook]
    else Place(hooks[..|hooks| - 1], hook) + [hooks[|hooks| - 1]]
  }

  /** `sort_by` on descending priority, which is stable. */
  function StableSort(hooks: seq<Hook>): seq<Hook> {
    if hooks == [] then [] else Place(StableSort(hooks[..|hooks| - 1]), hooks[|hooks| - 1])
  }

  function Registered(hooks: seq<Hook>, hook: Hook): seq<Hook> {
    StableSort(Without(hooks, hook.name) + [hook])
  }

  class HookTable {
    var hooks: seq<Hook>

    constructor ()
      ensures hooks == []
    {
      hooks := [];
    }

    method Retain(name: string)
      modifies this
      ensures hooks == Without(old(hooks), name)
    {
      var kept: seq<Hook> := [];
      for i := 0 to |hooks|
        invariant hooks == old(hooks)
        invariant kept == Without(hooks[..i], name)
      {
        assert hooks[..i + 1][..i] == hooks[..i];
        if hooks[i].name != name { kept := kept + [hooks[i]]; }
      }
      assert hooks[..|hooks|] == hooks;
      hooks := kept;
    }

    /** Replaces the hook of that name if there is one; the newcomer goes behind its equals. */
    method Register(hook: Hook)
      modifies this
      ensures hooks == Registered(old(hooks), hook)
    {
      Retain(hook.name);
      hooks := hooks + [hook];
      Sort();
    }

    /** Insertion sort: stands for the library's stable sort. */
    method Sort()
      modifies this
      ensures hooks == StableSort(old(hooks))
    {
      var sorted: seq<Hook> := [];
      for n := 0 to |hooks|
        invariant hooks == old(hooks)
        invariant sorted == StableSort(hooks[..n])
      {
        assert hooks[..n + 1][..n] == hooks[..n];
        sorted := Place(sorted, hooks[n]);
      }
      assert hooks[..|hooks|] == hooks;
      hooks := sorted;
    }

    /** Index of the first hook that accepts; an expression that raises counts as not accepting. */
    method Match(accepts: Hook -> bool) returns (found: Option<nat>)
      ensures found == Position(hooks, accepts)
    {
      for i := 0 to |hooks|
        invariant forall j :: 0 <= j < i ==> !accepts(hooks[j])
      {
        if accepts(hooks[i]) {
          return Some(i);
        }
      }
      return None;
    }
  }

  // ---- Any run of registrations, removals and clears ----

  datatype TableOp = Register(hook: Hook) | Drop(name: string) | Clear

  function Step(hooks: seq<Hook>, op: TableOp): seq<Hook> {
    match op
    case Register(hook) => Registered(hooks, hook)
    case Drop(name) => Without(hooks, name)
    case Clear => []
  }

  function Run(ops: seq<TableOp>): seq<Hook> {
    if ops == [] then [] else Step(Run(ops[..|ops| - 1]), ops[|ops| - 1])
  }

  /** The hooks still registered, in the order of their latest registration. */
  function Roster(ops: seq<TableOp>): seq<Hook> {
    if ops == [] then []
    else
      var before := Roster(ops[..|ops| - 1]);
      match ops[|ops| - 1]
      case Register(hook) => Without(before, hook.name) + [hook]
      case Drop(name) => Without(before, name)
      case Clear => []
  }

  ghost predicate UniqueNames(hooks: seq<Hook>) {
    forall i, j :: 0 <= i < j < |hooks| ==> hooks[i].name != hooks[j].name
  }

  ghost predicate ByPriority(hooks: seq<Hook>) {
    forall i, j :: 0 <= i < j < |hooks| ==> hooks[i].priority >= hooks[j].priority
  }

  /** The hooks of one priority, in order. */
  function OfPriority(hooks: seq<Hook>, priority: int): seq<Hook> {
    if hooks == [] then []
    else
      var last := hooks[|hooks| - 1];
      OfPriority(hooks[..|hooks| - 1], priority) + if last.priority == priority then [last] else []
  }

  ghost predicate SameRanks(a: seq<Hook>, b: seq<Hook>) {
    forall p :: OfPriority(a, p) == OfPriority(b, p)
  }

  lemma OfPrioritySnoc(hooks: seq<Hook>, hook: Hook, p: int)
    ensures OfPriority(hooks + [hook], p) == OfPriority(hooks, p) + if hook.priority == p then [hook] else []
  {
    assert (hooks + [hook])[..|hooks|] == hooks;
  }

  lemma {:induction false} PlaceSorted(hooks: seq<Hook>, hook: Hook)
    requires ByPriority(hooks)
    ensures ByPriority(Place(hooks, hook))
    ensures forall h :: h in Place(hooks, hook) <==> h in hooks || h == hook
  {
    if hooks != [] && hooks[|hooks| - 1].priority < hook.priority {
      var front, last := hooks[..|hooks| - 1], hooks[|hooks| - 1];
      PlaceSorted(front, hook);
      var placed := Place(front, hook);
      assert hooks == front + [last];
      forall i | 0 <= i < |placed| ensures placed[i].priority >= last.priority {
        assert placed[i] in placed;
      }
    }
  }

  lemma {:induction false} OfPriorityAbsent(hooks: seq<Hook>, p: int)
    requires forall h :: h in hooks ==> h.priority != p
    ensures OfPriority(hooks, p) == []
  {
    if hooks != [] { OfPriorityAbsent(hooks[..|hooks| - 1], p); }
  }

  lemma {:induction false} PlaceKeepsRanks(hooks: seq<Hook>, hook: Hook, p: int)
    requires ByPriority(hooks)
    ensures OfPriority(Place(hooks, hook), p) == OfPriority(hooks + [hook], p)
  {
    OfPrioritySnoc(hooks, hook, p);
    if hooks != [] && hooks[|hooks| - 1].priority < hook.priority {
      var front, last := hooks[..|hooks| - 1], hooks[|hooks| - 1];
      PlaceKeepsRanks(front, hook, p);
      OfPrioritySnoc(front, hook, p);
      OfPrioritySnoc(Place(front, hook), last, p);
    }
  }

  /** The sort orders by priority, keeps the members, and keeps equal priorities in order. */
  lemma {:induction false} SortIsStable(hooks: seq<Hook>)
    ensures ByPriority(StableSort(hooks)) && SameRanks(StableSort(hooks), hooks)
    ensures forall h :: h in StableSort(hooks) <==> h in hooks
  {
    if hooks != [] {
      var front, last := hooks[..|hooks| - 1], hooks[|hooks| - 1];
      SortIsStable(front);
      PlaceSorted(StableSort(front), last);
      assert hooks == front + [last];
      forall p ensures OfPriority(StableSort(hooks), p) == OfPriority(hooks, p) {
        PlaceKeepsRanks(StableSort(front), last, p);
        OfPrioritySnoc(StableSort(front), last, p);
        assert OfPriority(StableSort(front), p) == OfPriority(front, p);
      }
    }
  }

  lemma WithoutSnoc(hooks: seq<Hook>, hook: Hook, name: string)
    ensures Without(hooks + [hook], name) == Without(hooks, name) + if hook.name == name then [] else [hook]
  {
    assert (hooks + [hook])[..|hooks|] == hooks;
  }

  /** Dropping a name commutes with picking a priority. */
  lemma {:induction false} WithoutInRank(hooks: seq<Hook>, name: string, p: int)
    ensures OfPriority(Without(hooks, name), p) == Without(OfPriority(hooks, p), name)
  {
    if hooks != [] {
      var front, last := hooks[..|hooks| - 1], hooks[|hooks| - 1];
      WithoutInRank(front, name, p);
      if last.name == name {
        assert Without(hooks, name) == Without(front, name);
      } else {
        OfPrioritySnoc(Without(front, name), last, p);
      }
      if last.priority == p {
        WithoutSnoc(OfPriority(front, p), last, name);
      } else {
        assert OfPriority(hooks, p) == OfPriority(front, p);
      }
    }
  }

  lemma {:induction false} WithoutNobody(hooks: seq<Hook>, name: string)
    requires forall i :: 0 <= i < |hooks| ==> hooks[i].name != name
    ensures Without(hooks, name) == hooks
  {
    if hooks != [] {
      var front, last := hooks[..|hooks| - 1], hooks[|hooks| - 1];
      WithoutNobody(front, name);
      assert Without(hooks, name) == front + [last];
    }
  }

  lemma RemoveAtFront(hooks: seq<Hook>, p: nat)
    requires p < |hooks| - 1
    ensures RemoveAt(hooks, p) == RemoveAt(hooks[..|hooks| - 1], p) + [hooks[|hooks| - 1]]
  {}

  /** Leaving out a name that one hook bears takes that hook and moves nothing else. */
  lemma {:induction false} WithoutTakesOne(hooks: seq<Hook>, name: string, p: nat)
    requires p < |hooks| && hooks[p].name == name
    requires forall i :: 0 <= i < |hooks| && i != p ==> hooks[i].name != name
    ensures Without(hooks, name) == RemoveAt(hooks, p)
  {
    var front := hooks[..|hooks| - 1];
    if p == |front| {
      WithoutNobody(front, name);
      assert RemoveAt(hooks, p) == front;
    } else {
      WithoutTakesOne(front, name, p);
      RemoveAtFront(hooks, p);
    }
  }

  lemma {:induction false} WithoutKeepsOrder(hooks: seq<Hook>, name: string)
    requires ByPriority(hooks)
    ensures ByPriority(Without(hooks, name))
  {
    if hooks != [] {
      WithoutKeepsOrder(hooks[..|hooks| - 1], name);
      var rest := Without(hooks[..|hooks| - 1], name);
      forall i | 0 <= i < |rest| ensures rest[i].priority >= hooks[|hooks| - 1].priority {
        assert rest[i] in rest;
      }
    }
  }

  lemma {:induction false} WithoutKeepsNames(hooks: seq<Hook>, name: string)
    requires UniqueNames(hooks)
    ensures UniqueNames(Without(hooks, name))
    ensures forall h :: h in Without(hooks, name) ==> h.name != name
  {
    if hooks != [] {
      WithoutKeepsNames(hooks[..|hooks| - 1], name);
      var rest := Without(hooks[..|hooks| - 1], name);
      forall i | 0 <= i < |rest| ensures rest[i].name != hooks[|hooks| - 1].name {
        assert rest[i] in rest;
      }
    }
  }

  lemma {:induction false} PlaceKeepsNames(hooks: seq<Hook>, hook: Hook)
    requires UniqueNames(hooks) && forall h :: h in hooks ==> h.name != hook.name
    ensures UniqueNames(Place(hooks, hook))
    ensures forall h :: h in Place(hooks, hook) ==> h in hooks || h == hook
  {
    if hooks != [] && hooks[|hooks| - 1].priority < hook.priority {
      var front, last := hooks[..|hooks| - 1], hooks[|hooks| - 1];
      PlaceKeepsNames(front, hook);
      var placed := Place(front, hook);
      forall i | 0 <= i < |placed| ensures placed[i].name != last.name {
        assert placed[i] in placed;
      }
    }
  }

  lemma {:induction false} SortKeepsNames(hooks: seq<Hook>)
    requires UniqueNames(hooks)
    ensures UniqueNames(StableSort(hooks))
    ensures forall h :: h in StableSort(hooks) ==> h in hooks
  {
    if hooks != [] {
      var front, last := hooks[..|hooks| - 1], hooks[|hooks| - 1];
      SortKeepsNames(front);
      PlaceKeepsNames(StableSort(front), last);
    }
  }

  /** One registration keeps names unique and the list sorted. */
  lemma RegisterKeepsTable(hooks: seq<Hook>, hook: Hook)
    requires UniqueNames(hooks) && ByPriority(hooks)
    ensures UniqueNames(Registered(hooks, hook)) && ByPriority(Registered(hooks, hook))
  {
    WithoutKeepsNames(hooks, hook.name);
    SortKeepsNames(Without(hooks, hook.name) + [hook]);
    SortIsStable(Without(hooks, hook.name) + [hook]);
  }

  lemma StepKeepsTable(hooks: seq<Hook>, op: TableOp)
    requires UniqueNames(hooks) && ByPriority(hooks)
    ensures UniqueNames(Step(hooks, op)) && ByPriority(Step(hooks, op))
  {
    match op {
      case Register(hook) => RegisterKeepsTable(hooks, hook);
      case Drop(name) => WithoutKeepsNames(hooks, name); WithoutKeepsOrder(hooks, name);
      case Clear =>
    }
  }

  lemma StepKeepsRanks(hooks: seq<Hook>, before: seq<Hook>, op: TableOp)
    requires SameRanks(hooks, before)
    ensures op.Register? ==> SameRanks(Step(hooks, op), Without(before, op.hook.name) + [op.hook])
    ensures op.Drop? ==> SameRanks(Step(hooks, op), Without(before, op.name))
  {
    match op {
      case Register(hook) =>
        var joined := Without(hooks, hook.name) + [hook];
        SortIsStable(joined);
        forall p ensures OfPriority(StableSort(joined), p) == OfPriority(Without(before, hook.name) + [hook], p) {
          assert OfPriority(StableSort(joined), p) == OfPriority(joined, p);
          OfPrioritySnoc(Without(hooks, hook.name), hook, p);
          OfPrioritySnoc(Without(before, hook.name), hook, p);
          WithoutInRank(hooks, hook.name, p);
          WithoutInRank(before, hook.name, p);
        }
      case Drop(name) =>
        forall p ensures OfPriority(Without(hooks, name), p) == OfPriority(Without(before, name), p) {
          WithoutInRank(hooks, name, p);
          WithoutInRank(before, name, p);
        }
      case Clear =>
    }
  }

  /**
   * After any run the list holds one hook per name, sorted by priority, and equal priorities stand in
   * the order of their latest registration.
   */
  lemma {:induction false} TableIsStableSort(ops: seq<TableOp>)
    ensures UniqueNames(Run(ops)) && ByPriority(Run(ops)) && SameRanks(Run(ops), Roster(ops))
  {
    if ops != [] {
      var prefix, op := ops[..|ops| - 1], ops[|ops| - 1];
      TableIsStableSort(prefix);
      StepKeepsTable(Run(prefix), op);
      StepKeepsRanks(Run(prefix), Roster(prefix), op);
    }
  }

  lemma {:induction false} OfPriorityMembers(hooks: seq<Hook>, p: int)
    ensures forall h :: h in OfPriority(hooks, p) <==> h in hooks && h.priority == p
  {
    if hooks != [] {
      OfPriorityMembers(hooks[..|hooks| - 1], p);
      assert hooks == hooks[..|hooks| - 1] + [hooks[|hooks| - 1]];
    }
  }

  /** `peers` lists `best`, and nothing before it accepts. */
  ghost predicate FirstAccepting(peers: seq<Hook>, best: Hook, accepts: Hook -> bool) {
    exists j :: 0 <= j < |peers| && peers[j] == best && forall i :: 0 <= i < j ==> !accepts(peers[i])
  }

  lemma {:induction false} FirstInRank(hooks: seq<Hook>, k: nat, accepts: Hook -> bool)
    requires k < |hooks| && accepts(hooks[k]) && forall i :: 0 <= i < k ==> !accepts(hooks[i])
    ensures FirstAccepting(OfPriority(hooks, hooks[k].priority), hooks[k], accepts)
  {
    var p := hooks[k].priority;
    var front := hooks[..|hooks| - 1];
    var rank := OfPriority(front, p);
    if k == |hooks| - 1 {
      OfPriorityMembers(front, p);
      forall i | 0 <= i < |rank| ensures !accepts(rank[i]) { assert rank[i] in rank; }
      assert OfPriority(hooks, p)[|rank|] == hooks[k];
    } else {
      FirstInRank(front, k, accepts);
      var j :| 0 <= j < |rank| && rank[j] == hooks[k] && forall i :: 0 <= i < j ==> !accepts(rank[i]);
      assert OfPriority(hooks, p)[j] == hooks[k];
    }
  }

  lemma SameRanksSameMembers(a: seq<Hook>, b: seq<Hook>, h: Hook)
    requires SameRanks(a, b) && h in b
    ensures h in a
  {
    OfPriorityMembers(a, h.priority);
    OfPriorityMembers(b, h.priority);
    assert OfPriority(a, h.priority) == OfPriority(b, h.priority);
  }

  /**
   * The hook that gets an item is one of highest priority among those that accept it, and of those the
   * one registered first.
   */
  lemma MatchedHookIsBest(ops: seq<TableOp>, accepts: Hook -> bool, k: nat)
    requires Position(Run(ops), accepts) == Some(k)
    ensures forall h :: h in Roster(ops) && accepts(h) ==> h.priority <= Run(ops)[k].priority
    ensures FirstAccepting(OfPriority(Roster(ops), Run(ops)[k].priority), Run(ops)[k], accepts)
  {
    TableIsStableSort(ops);
    var hooks, roster := Run(ops), Roster(ops);
    FirstInRank(hooks, k, accepts);
    assert OfPriority(hooks, hooks[k].priority) == OfPriority(roster, hooks[k].priority);
    forall h | h in roster && accepts(h) ensures h.priority <= hooks[k].priority {
      SameRanksSameMembers(hooks, roster, h);
    }
  }
}
