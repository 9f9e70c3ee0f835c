/**
  The `POMOtask` record, the two queries the bot runs over the task table
  (`done < pomos` for ongoing tasks, `done = pomos` for completed ones) and the
  word the completion message uses.
 */
module Tasks {

  /** One row of the task table; its id is the key it is stored under. */
  datatype Task = Task(owner: int, name: string, needed: int, done: int)

  /** The zero `POMOtask{}` a user's draft is reset to. */
  const EmptyDraft := Task(0, "", 0, 0)

  /** The filter `done < pomos` used by the task list and the task choice. */
  predicate Ongoing(t: Task) {
    t.done < t.needed
  }

  /** The filter `done = pomos` used by the completed-tasks list. */
  predicate Finished(t: Task) {
    t.done == t.needed
  }

  /** The ids of `owner`'s ongoing tasks. */
  function OngoingIds(store: map<nat, Task>, owner: int): (ids: set<nat>)
    ensures forall id :: id in ids <==> id in store && store[id].owner == owner && Ongoing(store[id])
  {
    set id | id in store && store[id].owner == owner && Ongoing(store[id])
  }

  /** The ids of `owner`'s completed tasks. */
  function FinishedIds(store: map<nat, Task>, owner: int): (ids: set<nat>)
    ensures forall id :: id in ids <==> id in store && store[id].owner == owner && Finished(store[id])
  {
    set id | id in store && store[id].owner == owner && Finished(store[id])
  }

  /**
    No task shows in both lists, and a task of `owner` shows in one of them
    exactly when it is not over-completed; a task whose done count went past
    its needed count (or whose needed count was never positive and was
    overtaken) is listed nowhere.
   */
  lemma ListsPartitionOwnTasks(store: map<nat, Task>, owner: int, id: nat)
    requires id in store && store[id].owner == owner
    ensures !(id in OngoingIds(store, owner) && id in FinishedIds(store, owner))
    ensures id in OngoingIds(store, owner) || id in FinishedIds(store, owner) <==> store[id].done <= store[id].needed
  {
  }

  /** One finished pomodoro: the done count goes up by exactly one. */
  function Increment(t: Task): (r: Task)
    ensures r.done == t.done + 1
    ensures r.owner == t.owner && r.name == t.name && r.needed == t.needed
  {
    t.(done := t.done + 1)
  }

  /** What the completion message says about the task. */
  datatype Status = Completed | OnePomoAhead

  /** The closure that compares the needed count with the done count. */
  function StatusOf(needed: int, done: int): (s: Status)
    ensures s == Completed <==> needed == done
  {
    if needed == done then Completed else OnePomoAhead
  }

  /** The word the completion message puts after "is now". */
  function StatusWord(s: Status): string {
    match s
    case Completed => "completed ✅"
    case OnePomoAhead => "1 pomo ahead"
  }

  /**
    After a pomodoro the message says "completed" exactly when the task now
    belongs in the completed list, and "1 pomo ahead" exactly when it is still
    ongoing or has gone past its needed count.
   */
  lemma StatusAgreesWithLists(t: Task)
    ensures StatusOf(Increment(t).needed, Increment(t).done) == Completed <==> Finished(Increment(t))
    ensures StatusOf(Increment(t).needed, Increment(t).done) == OnePomoAhead
        <==> Ongoing(Increment(t)) || Increment(t).done > Increment(t).needed
  {
  }

  /**
    A task that was offered (ongoing) before one pomodoro is afterwards either
    still ongoing or completed, never past its needed count.
   */
  lemma OngoingTaskNeverOvershoots(t: Task)
    requires Ongoing(t)
    ensures Ongoing(Increment(t)) || Finished(Increment(t))
    ensures StatusOf(Increment(t).needed, Increment(t).done) == Completed <==> t.needed == t.done + 1
  {
  }
}
