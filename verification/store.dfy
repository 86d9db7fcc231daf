/** The in-memory task store: the `tasks` array and the `nextId` counter,
    both process-wide in the service, here one immutable value. */
module TaskStore {

  /** One tracked item. `createdAt` is the ISO-8601 text the clock gave
      when the task was created. */
  datatype Task = Task(id: int, title: string, done: bool, createdAt: string)

  /** The whole mutable state of the service. */
  datatype Store = Store(tasks: seq<Task>, nextId: int)

  /** The state at process start: no tasks, next id 1. */
  const Initial: Store := Store([], 1)

  /** The store invariant: ids are exactly 1..N in insertion order, the
      counter is one past the last id, and every task still has the shape
      it was created with (non-empty title, not done). */
  ghost predicate Valid(s: Store) {
    && s.nextId == |s.tasks| + 1
    && (forall i :: 0 <= i < |s.tasks| ==> s.tasks[i].id == i + 1)
    && (forall i :: 0 <= i < |s.tasks| ==> s.tasks[i].title != "" && !s.tasks[i].done)
  }

  /** Allocates the next id, builds an undone task stamped `now`, and
      appends it. Returns the new task and the new store. */
  function Create(s: Store, title: string, now: string): (r: (Task, Store))
    ensures r.0.id == s.nextId && r.0.title == title && !r.0.done && r.0.createdAt == now
    ensures r.1.nextId == s.nextId + 1
    ensures |r.1.tasks| == |s.tasks| + 1 && r.1.tasks[..|s.tasks|] == s.tasks
    ensures r.1.tasks[|s.tasks|] == r.0
  {
    var t := Task(s.nextId, title, false, now);
    (t, Store(s.tasks + [t], s.nextId + 1))
  }

  lemma InitialValid()
    ensures Valid(Initial) && |Initial.tasks| == 0
  {
  }

  /** Creating a task with a non-empty title keeps the store valid, and the
      new task's id is one more than the number of tasks before. */
  lemma CreatePreservesValid(s: Store, title: string, now: string)
    requires Valid(s) && title != ""
    ensures Valid(Create(s, title, now).1)
    ensures Create(s, title, now).0.id == |s.tasks| + 1
  {
    var (t, s') := Create(s, title, now);
    forall i | 0 <= i < |s'.tasks|
      ensures s'.tasks[i].id == i + 1
      ensures s'.tasks[i].title != "" && !s'.tasks[i].done
    {
      if i < |s.tasks| {
        assert s'.tasks[i] == s'.tasks[..|s.tasks|][i] == s.tasks[i];
      }
    }
  }

  /** In a valid store ids strictly increase with position, so no id repeats. */
  lemma ValidIdsStrictlyIncrease(s: Store)
    requires Valid(s)
    ensures forall i, j :: 0 <= i < j < |s.tasks| ==> s.tasks[i].id < s.tasks[j].id
    ensures forall i, j :: 0 <= i < |s.tasks| && 0 <= j < |s.tasks| && s.tasks[i].id == s.tasks[j].id ==> i == j
    ensures forall i :: 0 <= i < |s.tasks| ==> 1 <= s.tasks[i].id < s.nextId
  {
  }
}
