/**
 * The in-memory task store: a map from id to task and the next id to hand
 * out. StoreState and the After* functions are the store's abstract view
 * and its transitions; TaskStorage is the store itself, a class whose
 * methods update its two fields in place and are proved against those
 * functions. The readers-writer lock that serialises the methods is not
 * modelled: every method runs alone.
 */
module Storage {
  import opened Wrappers
  import opened Models

  /** What the store holds: the tasks by id and the counter for the next id. */
  datatype StoreState = StoreState(tasks: map<int, Task>, nextID: int)

  /**
   * Every stored key is an id already handed out, and each task is stored
   * under its own id.
   */
  ghost predicate Inv(s: StoreState)
  {
    && s.nextID >= 1
    && forall k :: k in s.tasks ==> 1 <= k < s.nextID && s.tasks[k].id == k
  }

  /** The state `NewTaskStorage` starts from: no tasks, next id 1. */
  const Empty := StoreState(map[], 1)

  /** `Create`: store a new, not yet done task under the next id and advance the counter. */
  function AfterCreate(s: StoreState, title: string): (r: (StoreState, Task))
    requires Inv(s)
    ensures Inv(r.0)
    ensures r.1 == Task(s.nextID, title, false)
    ensures r.1.id !in s.tasks
    ensures r.0.tasks.Keys == s.tasks.Keys + {r.1.id} && r.0.tasks[r.1.id] == r.1
    ensures forall k :: k in s.tasks ==> r.0.tasks[k] == s.tasks[k]
    ensures r.0.nextID == s.nextID + 1
  {
    var task := Task(s.nextID, title, false);
    (StoreState(s.tasks[s.nextID := task], s.nextID + 1), task)
  }

  /** `Update`: set `done` on an existing task; report whether it existed. */
  function AfterUpdate(s: StoreState, id: int, done: bool): (r: (StoreState, bool))
    requires Inv(s)
    ensures Inv(r.0)
    ensures r.1 <==> id in s.tasks
    ensures !r.1 ==> r.0 == s
    ensures r.0.tasks.Keys == s.tasks.Keys
    ensures r.1 ==> r.0.tasks[id] == Task(id, s.tasks[id].title, done)
    ensures forall k :: k in s.tasks && k != id ==> r.0.tasks[k] == s.tasks[k]
    ensures r.0.nextID == s.nextID
  {
    if id !in s.tasks then (s, false)
    else (StoreState(s.tasks[id := s.tasks[id].(done := done)], s.nextID), true)
  }

  /** `Delete`: remove an existing task; the counter stays where it is. */
  function AfterDelete(s: StoreState, id: int): (r: (StoreState, bool))
    requires Inv(s)
    ensures Inv(r.0)
    ensures r.1 <==> id in s.tasks
    ensures !r.1 ==> r.0 == s
    ensures r.0.tasks.Keys == s.tasks.Keys - {id}
    ensures forall k :: k in r.0.tasks ==> r.0.tasks[k] == s.tasks[k]
    ensures r.0.nextID == s.nextID
  {
    if id !in s.tasks then (s, false)
    else (StoreState(s.tasks - {id}, s.nextID), true)
  }

  /** Repeating an update with the same value changes nothing more. */
  lemma UpdateIdempotent(s: StoreState, id: int, done: bool)
    requires Inv(s)
    ensures AfterUpdate(AfterUpdate(s, id, done).0, id, done) == AfterUpdate(s, id, done)
  {
    if id in s.tasks {
      var once := AfterUpdate(s, id, done).0;
      var task := s.tasks[id].(done := done);
      assert once.tasks == s.tasks[id := task];
      assert once.tasks[id].(done := done) == task;
      assert once.tasks[id := task] == once.tasks;
    }
  }

  // ---------------------------------------------------------------------------
  // Listings: Go's map iteration has no fixed order, so a listing is any
  // duplicate-free sequence holding exactly the wanted stored tasks.
  // ---------------------------------------------------------------------------

  /** Whether a listing wants task t: `GetAll` (no filter) wants all, `GetByStatus(d)` those with done == d. */
  predicate Wanted(t: Task, filter: Option<bool>)
  {
    filter.None? || t.done == filter.value
  }

  /** `r` lists the stored tasks of `m` that `filter` wants, each once, in some order. */
  ghost predicate Lists(r: seq<Task>, m: map<int, Task>, filter: Option<bool>)
  {
    && (forall i, j :: 0 <= i < j < |r| ==> r[i] != r[j])
    && (forall i :: 0 <= i < |r| ==> r[i].id in m && m[r[i].id] == r[i] && Wanted(r[i], filter))
    && (forall k :: k in m && Wanted(m[k], filter) ==> m[k] in r)
  }

  lemma {:induction false} DistinctCount(r: seq<Task>, t: Task)
    requires forall i, j :: 0 <= i < j < |r| ==> r[i] != r[j]
    ensures multiset(r)[t] == if t in r then 1 else 0
    decreases |r|
  {
    if r != [] {
      var rest := r[1..];
      assert r == [r[0]] + rest;
      assert forall i, j :: 0 <= i < j < |rest| ==> rest[i] != rest[j] by {
        forall i, j | 0 <= i < j < |rest| ensures rest[i] != rest[j] {
          assert rest[i] == r[i + 1] && rest[j] == r[j + 1];
        }
      }
      assert r[0] !in rest by {
        forall i | 0 <= i < |rest| ensures rest[i] != r[0] {
          assert rest[i] == r[i + 1];
        }
      }
      DistinctCount(rest, t);
    }
  }

  /** A listing holds each wanted stored task exactly once and nothing else. */
  lemma ListedOnce(r: seq<Task>, m: map<int, Task>, filter: Option<bool>, t: Task)
    requires Lists(r, m, filter)
    ensures multiset(r)[t] == if t.id in m && m[t.id] == t && Wanted(t, filter) then 1 else 0
  {
    DistinctCount(r, t);
    if t in r {
      var i :| 0 <= i < |r| && r[i] == t;
      assert r[i].id in m && m[r[i].id] == r[i];
    }
    if t.id in m && m[t.id] == t && Wanted(t, filter) {
      assert m[t.id] in r;
    }
  }

  /** Any two listings with the same filter are permutations of each other. */
  lemma ListingsAgree(r1: seq<Task>, r2: seq<Task>, m: map<int, Task>, filter: Option<bool>)
    requires Lists(r1, m, filter) && Lists(r2, m, filter)
    ensures multiset(r1) == multiset(r2)
  {
    forall t ensures multiset(r1)[t] == multiset(r2)[t] {
      ListedOnce(r1, m, filter, t);
      ListedOnce(r2, m, filter, t);
    }
    assert forall t :: multiset(r1)[t] == multiset(r2)[t];
  }

  /**
   * The done listing and the not-done listing never share a task, and
   * together they are a permutation of the full listing.
   */
  lemma ListingsPartition(m: map<int, Task>, doneList: seq<Task>, openList: seq<Task>, all: seq<Task>)
    requires Lists(doneList, m, Some(true))
    requires Lists(openList, m, Some(false))
    requires Lists(all, m, None)
    ensures forall t :: !(t in doneList && t in openList)
    ensures multiset(doneList + openList) == multiset(all)
    ensures |doneList| + |openList| == |all|
  {
    forall t ensures multiset(doneList + openList)[t] == multiset(all)[t] {
      ListedOnce(doneList, m, Some(true), t);
      ListedOnce(openList, m, Some(false), t);
      ListedOnce(all, m, None, t);
      assert multiset(doneList + openList) == multiset(doneList) + multiset(openList);
    }
    assert forall t :: multiset(doneList + openList)[t] == multiset(all)[t];
    assert multiset(doneList + openList) == multiset(all);
    assert |multiset(doneList + openList)| == |doneList + openList|;
    forall t | t in doneList ensures t !in openList {
      ListedOnce(doneList, m, Some(true), t);
      ListedOnce(openList, m, Some(false), t);
    }
  }

  // ---------------------------------------------------------------------------
  // Runs of operations and the ids they hand out
  // ---------------------------------------------------------------------------

  /** A store call that changes state. */
  datatype Op = CreateOp(title: string) | UpdateOp(id: int, done: bool) | DeleteOp(id: int)

  function Apply(s: StoreState, op: Op): (r: StoreState)
    requires Inv(s)
    ensures Inv(r)
    ensures r.nextID == if op.CreateOp? then s.nextID + 1 else s.nextID
  {
    match op
    case CreateOp(title) => AfterCreate(s, title).0
    case UpdateOp(id, done) => AfterUpdate(s, id, done).0
    case DeleteOp(id) => AfterDelete(s, id).0
  }

  /** The state after a sequence of calls; the counter never goes down. */
  function Run(s: StoreState, ops: seq<Op>): (r: StoreState)
    requires Inv(s)
    ensures Inv(r)
    ensures r.nextID >= s.nextID
    decreases |ops|
  {
    if ops == [] then s else Run(Apply(s, ops[0]), ops[1..])
  }

  /** The ids the Create calls of a run return, in call order. */
  function CreatedIds(s: StoreState, ops: seq<Op>): seq<int>
    requires Inv(s)
    decreases |ops|
  {
    if ops == [] then []
    else
      var head := if ops[0].CreateOp? then [s.nextID] else [];
      head + CreatedIds(Apply(s, ops[0]), ops[1..])
  }

  /**
   * The ids a run hands out are strictly increasing, never below the
   * starting counter and all below the final one: none is handed out twice.
   */
  lemma {:induction false} CreatedIdsIncrease(s: StoreState, ops: seq<Op>)
    requires Inv(s)
    ensures forall i :: 0 <= i < |CreatedIds(s, ops)| ==> s.nextID <= CreatedIds(s, ops)[i] < Run(s, ops).nextID
    ensures forall i, j :: 0 <= i < j < |CreatedIds(s, ops)| ==> CreatedIds(s, ops)[i] < CreatedIds(s, ops)[j]
    decreases |ops|
  {
    if ops != [] {
      var s1 := Apply(s, ops[0]);
      var rest := CreatedIds(s1, ops[1..]);
      CreatedIdsIncrease(s1, ops[1..]);
      assert Run(s, ops) == Run(s1, ops[1..]);
      if ops[0].CreateOp? {
        var ids := [s.nextID] + rest;
        assert CreatedIds(s, ops) == ids;
        assert forall i :: 1 <= i < |ids| ==> ids[i] == rest[i - 1];
      }
    }
  }

  /** Running `a` and then `b` is running `a + b`. */
  lemma {:induction false} RunAppend(s: StoreState, a: seq<Op>, b: seq<Op>)
    requires Inv(s)
    ensures Run(s, a + b) == Run(Run(s, a), b)
    decreases |a|
  {
    if a == [] {
      assert a + b == b;
    } else {
      var s1 := Apply(s, a[0]);
      assert (a + b)[0] == a[0];
      assert (a + b)[1..] == a[1..] + b;
      assert Run(s, a + b) == Run(s1, a[1..] + b);
      RunAppend(s1, a[1..], b);
    }
  }

  /** The ids `a + b` hands out are those of `a`, then those of `b` from where `a` left off. */
  lemma {:induction false} CreatedIdsAppend(s: StoreState, a: seq<Op>, b: seq<Op>)
    requires Inv(s)
    ensures CreatedIds(s, a + b) == CreatedIds(s, a) + CreatedIds(Run(s, a), b)
    decreases |a|
  {
    if a == [] {
      assert a + b == b;
    } else {
      var s1 := Apply(s, a[0]);
      var head := if a[0].CreateOp? then [s.nextID] else [];
      assert (a + b)[0] == a[0];
      assert (a + b)[1..] == a[1..] + b;
      assert CreatedIds(s, a + b) == head + CreatedIds(s1, a[1..] + b);
      CreatedIdsAppend(s1, a[1..], b);
      assert Run(s, a) == Run(s1, a[1..]);
      assert CreatedIds(s, a) == head + CreatedIds(s1, a[1..]);
    }
  }

  /** An id that was handed out and is no longer stored never comes back. */
  lemma {:induction false} StaysRetired(s: StoreState, k: int, ops: seq<Op>)
    requires Inv(s) && k < s.nextID && k !in s.tasks
    ensures k !in Run(s, ops).tasks
    ensures k !in CreatedIds(s, ops)
    decreases |ops|
  {
    if ops != [] {
      StaysRetired(Apply(s, ops[0]), k, ops[1..]);
    }
  }

  /** After `Delete(k)`, no later call recreates task k or hands out id k again. */
  lemma DeletedIdNeverReused(s: StoreState, before: seq<Op>, k: int, after: seq<Op>)
    requires Inv(s) && k in Run(s, before).tasks
    ensures k !in Run(s, before + [DeleteOp(k)] + after).tasks
    ensures k !in CreatedIds(Run(s, before + [DeleteOp(k)]), after)
  {
    var del := [DeleteOp(k)];
    var gone := Apply(Run(s, before), DeleteOp(k));
    assert Run(Run(s, before), del) == gone;
    RunAppend(s, before, del);
    RunAppend(s, before + del, after);
    StaysRetired(gone, k, after);
  }

  /** N Create calls hand out the N consecutive ids starting at the counter. */
  lemma {:induction false} CreatesAreConsecutive(s: StoreState, ops: seq<Op>)
    requires Inv(s)
    requires forall i :: 0 <= i < |ops| ==> ops[i].CreateOp?
    ensures CreatedIds(s, ops) == seq(|ops|, i => s.nextID + i)
    ensures Run(s, ops).nextID == s.nextID + |ops|
    ensures forall k :: k in Run(s, ops).tasks <==> k in s.tasks || s.nextID <= k < s.nextID + |ops|
    decreases |ops|
  {
    if ops != [] {
      var s' := Apply(s, ops[0]);
      var rest := ops[1..];
      assert forall i :: 0 <= i < |rest| ==> rest[i] == ops[i + 1];
      CreatesAreConsecutive(s', rest);
      assert s'.tasks.Keys == s.tasks.Keys + {s.nextID};
      assert Run(s, ops) == Run(s', rest);
      assert CreatedIds(s, ops) == [s.nextID] + CreatedIds(s', rest);
      assert seq(|ops|, i => s.nextID + i) == [s.nextID] + seq(|rest|, i => s'.nextID + i);
    }
  }

  /** From a fresh store, N Create calls return exactly the ids 1..N. */
  lemma FreshStoreIds(ops: seq<Op>)
    requires forall i :: 0 <= i < |ops| ==> ops[i].CreateOp?
    ensures CreatedIds(Empty, ops) == seq(|ops|, i => i + 1)
    ensures forall k :: k in Run(Empty, ops).tasks <==> 1 <= k <= |ops|
  {
    CreatesAreConsecutive(Empty, ops);
  }

  // ---------------------------------------------------------------------------
  // The store object
  // ---------------------------------------------------------------------------

  /** `TaskStorage`: the map of tasks and the id counter, updated in place. */
  class TaskStorage {
    var tasks: map<int, Task>
    var nextID: int

    function State(): StoreState
      reads this
    {
      StoreState(tasks, nextID)
    }

    ghost predicate Valid()
      reads this
    {
      Inv(State())
    }

    /** `NewTaskStorage`. */
    constructor ()
      ensures Valid() && State() == Empty
    {
      tasks := map[];
      nextID := 1;
    }

    method Create(title: string) returns (task: Task)
      requires Valid()
      modifies this
      ensures Valid()
      ensures (State(), task) == AfterCreate(old(State()), title)
      ensures task == Task(old(nextID), title, false) && task.id !in old(tasks)
      ensures tasks == old(tasks)[task.id := task] && nextID == old(nextID) + 1
    {
      task := Task(nextID, title, false);
      tasks := tasks[nextID := task];
      nextID := nextID + 1;
    }

    /** The stored task, or the zero task and `false` when there is none. */
    method GetByID(id: int) returns (task: Task, found: bool)
      ensures found <==> id in tasks
      ensures task == if found then tasks[id] else ZeroTask
    {
      found := id in tasks;
      task := if found then tasks[id] else ZeroTask;
    }

    /** A snapshot of every stored task, in no particular order. */
    method GetAll() returns (all: seq<Task>)
      requires Valid()
      ensures Lists(all, tasks, None)
      ensures |all| == |tasks|
    {
      all := [];
      var pending := tasks.Keys;
      while exists k :: k in pending
        invariant pending <= tasks.Keys
        invariant |all| + |pending| == |tasks|
        invariant forall i :: 0 <= i < |all| ==>
                    all[i].id in tasks && all[i].id !in pending && tasks[all[i].id] == all[i]
        invariant forall k :: k in tasks && k !in pending ==> tasks[k] in all
        invariant forall i, j :: 0 <= i < j < |all| ==> all[i] != all[j]
        decreases |pending|
      {
        var k :| k in pending;
        all := all + [tasks[k]];
        pending := pending - {k};
      }
      assert pending == {};
    }

    /** A snapshot of the tasks whose `done` flag is `done`, in no particular order. */
    method GetByStatus(done: bool) returns (matching: seq<Task>)
      requires Valid()
      ensures Lists(matching, tasks, Some(done))
    {
      matching := [];
      var pending := tasks.Keys;
      while exists k :: k in pending
        invariant pending <= tasks.Keys
        invariant forall i :: 0 <= i < |matching| ==>
                    && matching[i].id in tasks && matching[i].id !in pending
                    && tasks[matching[i].id] == matching[i] && matching[i].done == done
        invariant forall k :: k in tasks && k !in pending && tasks[k].done == done ==> tasks[k] in matching
        invariant forall i, j :: 0 <= i < j < |matching| ==> matching[i] != matching[j]
        decreases |pending|
      {
        var k :| k in pending;
        if tasks[k].done == done {
          matching := matching + [tasks[k]];
        }
        pending := pending - {k};
      }
    }

    method Update(id: int, done: bool) returns (ok: bool)
      requires Valid()
      modifies this
      ensures Valid()
      ensures (State(), ok) == AfterUpdate(old(State()), id, done)
      ensures ok <==> id in old(tasks)
      ensures tasks == if ok then old(tasks)[id := old(tasks)[id].(done := done)] else old(tasks)
      ensures nextID == old(nextID)
    {
      if id !in tasks {
        return false;
      }
      var task := tasks[id];
      task := task.(done := done);
      tasks := tasks[id := task];
      return true;
    }

    method Delete(id: int) returns (ok: bool)
      requires Valid()
      modifies this
      ensures Valid()
      ensures (State(), ok) == AfterDelete(old(State()), id)
      ensures ok <==> id in old(tasks)
      ensures tasks == old(tasks) - {id}
      ensures nextID == old(nextID)
    {
      if id !in tasks {
        return false;
      }
      tasks := tasks - {id};
      return true;
    }
  }
}
