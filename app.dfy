/**
  The bot's per-user bookkeeping: the `App` record with its per-user maps, one
  method per handler, the expiry and stop branches of the timer goroutine, and
  the body of the update loop. The task table is kept in memory and hands out
  ids 1, 2, 3, ... as the database does.
 */
module Bot {
  import opened Wrappers
  import opened Decimal
  import opened Tasks
  import opened Timers
  import opened Dialogue

  const Uint64Modulus: int := 0x1_0000_0000_0000_0000

  /** `uint(i)` on a 64-bit platform: a negative value wraps around. */
  function AsUint(i: int): (u: nat)
    ensures 0 <= i ==> u == i
    ensures -Uint64Modulus <= i < 0 ==> u == i + Uint64Modulus
  {
    if i < 0 then i % Uint64Modulus else i
  }

  /** The task id a button press stores: `uint` of the parsed data, 0 when it does not parse. */
  function ChosenTaskId(data: string): (id: nat)
    ensures ParseInt(data).None? ==> id == 0
    ensures ParseInt(data).Some? && ParseInt(data).value >= 0 ==> id == ParseInt(data).value
  {
    AsUint(AtoiOrZero(data))
  }

  /** The button of task `id` carries `id` printed in decimal; choosing it stores `id`. */
  lemma ChosenTaskIdOfButton(id: nat)
    ensures ChosenTaskId(FormatNat(id)) == id
  {
    ParseFormatNat(id);
  }

  /** Data that does not parse stores task id 0, which no task has. */
  lemma ChosenTaskIdOfUnparsable(data: string)
    requires ParseInt(data).None?
    ensures ChosenTaskId(data) == 0
  {
  }

  /** `m` and `m'` agree on every key other than `k`. */
  ghost predicate SameExceptAt<V>(m: map<int, V>, m': map<int, V>, k: int) {
    forall u :: u != k ==> (u in m <==> u in m') && (u in m ==> m[u] == m'[u])
  }

  /** Actions whose handlers only send messages. */
  predicate SendsOnly(act: Action) {
    act in {MainMenu, ShowTasksList, ShowCompleted, ShowRemainingTime, UnknownCommand, ShowStartMessage, ShowErr, Ignore}
  }

  class App {
    /** `UserPlace`: where each user is in the dialogue. */
    var places: map<int, Place>
    /** `AddingTask`: each user's task under construction. */
    var drafts: map<int, Task>
    /** `TaskToComplete`: the task id each user chose for the pomodoro. */
    var selected: map<int, nat>
    /** `PomoTimer`: each user's timer. */
    var timers: map<int, Timer>
    /** The timer goroutines blocked waiting for their deadline or a stop, one entry per goroutine. */
    var waiting: multiset<int>
    /** The task table, by id. */
    var tasks: map<nat, Task>
    /** The id the table gives the next row it stores. */
    var nextId: nat

    ghost predicate Valid()
      reads this
    {
      && 1 <= nextId
      && (forall id :: id in tasks ==> 1 <= id < nextId)
      && (forall u :: u in waiting ==> u in timers)
    }

    constructor ()
      ensures Valid()
      ensures places == map[] && drafts == map[] && selected == map[] && timers == map[]
      ensures waiting == multiset{} && tasks == map[] && nextId == 1
    {
      places, drafts, selected, timers := map[], map[], map[], map[];
      waiting, tasks, nextId := multiset{}, map[], 1;
    }

    function PlaceFor(user: int): Place
      reads this
    {
      PlaceOf(places, user)
    }

    /** A user without a draft reads as the zero `POMOtask{}`. */
    function DraftOf(user: int): (t: Task)
      reads this
      ensures user !in drafts ==> t == EmptyDraft
      ensures user in drafts ==> t == drafts[user]
    {
      if user in drafts then drafts[user] else EmptyDraft
    }

    /** A user who never chose a task reads as task id 0. */
    function SelectedOf(user: int): (id: nat)
      reads this
      ensures user !in selected ==> id == 0
      ensures user in selected ==> id == selected[user]
    {
      if user in selected then selected[user] else 0
    }

    /** "add task": ask for a name and move to the task-name prompt, from any place. */
    method AddTaskMessage(user: int)
      requires Valid()
      modifies this
      ensures Valid()
      ensures places == old(places)[user := AddTaskPart1]
      ensures drafts == old(drafts) && selected == old(selected) && timers == old(timers)
      ensures waiting == old(waiting) && tasks == old(tasks) && nextId == old(nextId)
    {
      places := places[user := AddTaskPart1];
    }

    /** Text at the task-name prompt: the draft gets the text as its name and the sender as owner. */
    method AddTaskP1(user: int, text: string)
      requires Valid()
      modifies this
      ensures Valid()
      ensures drafts == old(drafts)[user := Task(user, text, 0, 0)]
      ensures places == old(places)[user := AddTaskPart2]
      ensures selected == old(selected) && timers == old(timers)
      ensures waiting == old(waiting) && tasks == old(tasks) && nextId == old(nextId)
    {
      drafts := drafts[user := Task(user, text, 0, 0)];
      places := places[user := AddTaskPart2];
    }

    /**
      Text at the count prompt. Text that does not parse changes nothing (the
      user is asked again). An integer `n`, of any sign, stores one new task
      with the draft's name and owner, `n` needed and none done, resets the
      draft and returns the user to idle.
     */
    method AddTaskP2(user: int, text: string) returns (created: Option<nat>)
      requires Valid()
      modifies this
      ensures Valid()
      ensures ParseInt(text).None? ==>
        && created == None
        && places == old(places) && drafts == old(drafts) && tasks == old(tasks) && nextId == old(nextId)
      ensures ParseInt(text).Some? ==>
        && created == Some(old(nextId))
        && old(nextId) !in old(tasks)
        && tasks == old(tasks)[old(nextId) := Task(old(DraftOf(user)).owner, old(DraftOf(user)).name, ParseInt(text).value, 0)]
        && |tasks| == |old(tasks)| + 1
        && nextId == old(nextId) + 1
        && drafts == old(drafts)[user := EmptyDraft]
        && places == old(places)[user := Idle]
      ensures selected == old(selected) && timers == old(timers) && waiting == old(waiting)
    {
      var parsed := ParseInt(text);
      if parsed.None? {
        created := None;
        return;
      }
      var draft := DraftOf(user);
      var task := draft.(needed := parsed.value, done := 0);
      created := Some(nextId);
      tasks := tasks[nextId := task];
      nextId := nextId + 1;
      drafts := drafts[user := EmptyDraft];
      places := places[user := Idle];
    }

    /** "tasks list": the user's tasks with fewer done than needed. Changes nothing. */
    method ShowTasksList(user: int) returns (ids: set<nat>)
      requires Valid()
      ensures forall id :: id in ids <==> id in tasks && tasks[id].owner == user && tasks[id].done < tasks[id].needed
    {
      ids := OngoingIds(tasks, user);
    }

    /** "completed tasks": the user's tasks with as many done as needed. Changes nothing. */
    method ShowCompleted(user: int) returns (ids: set<nat>)
      requires Valid()
      ensures forall id :: id in ids <==> id in tasks && tasks[id].owner == user && tasks[id].done == tasks[id].needed
    {
      ids := FinishedIds(tasks, user);
    }

    /** "start pomo": offer the user's ongoing tasks and move to the task choice, from any place. */
    method StartPomo(user: int) returns (offered: set<nat>)
      requires Valid()
      modifies this
      ensures Valid()
      ensures forall id :: id in offered <==> id in tasks && tasks[id].owner == user && Ongoing(tasks[id])
      ensures places == old(places)[user := StartPomo1]
      ensures drafts == old(drafts) && selected == old(selected) && timers == old(timers)
      ensures waiting == old(waiting) && tasks == old(tasks) && nextId == old(nextId)
    {
      offered := OngoingIds(tasks, user);
      places := places[user := StartPomo1];
    }

    /**
      A button press while choosing a task (`StartPOMO1`): store the pressed
      id (0 when the data does not parse) and move to the duration choice.
     */
    method ChooseTask(user: int, data: string)
      requires Valid()
      modifies this
      ensures Valid()
      ensures selected == old(selected)[user := ChosenTaskId(data)]
      ensures places == old(places)[user := StartPomo2]
      ensures drafts == old(drafts) && timers == old(timers)
      ensures waiting == old(waiting) && tasks == old(tasks) && nextId == old(nextId)
    {
      selected := selected[user := ChosenTaskId(data)];
      places := places[user := StartPomo2];
    }

    /**
      A button press while choosing a duration (`StartPOMO2` and the start of
      `StartTimer`): a new timer of that many minutes (0 when the data does not
      parse) starting now, and one more goroutine waiting on it. The user's
      place is left at the duration choice.
     */
    method ChooseDuration(user: int, data: string, now: int)
      requires Valid()
      modifies this
      ensures Valid()
      ensures timers == old(timers)[user := Started(AtoiOrZero(data), now)]
      ensures waiting == old(waiting) + multiset{user}
      ensures places == old(places) && drafts == old(drafts) && selected == old(selected)
      ensures tasks == old(tasks) && nextId == old(nextId)
    {
      timers := timers[user := Started(AtoiOrZero(data), now)];
      waiting := waiting + multiset{user};
    }

    /**
      "remaining": the timer's duration minus the time since its start, not
      clamped. `None` stands for the nil-pointer panic when the user has no timer.
     */
    method ShowRemainingTime(user: int, now: int) returns (r: Option<int>)
      requires Valid()
      ensures r.Some? <==> user in timers
      ensures r.Some? ==> r.value == timers[user].duration - (now - timers[user].start)
    {
      if user in timers {
        r := Some(Remaining(timers[user], now));
      } else {
        r := None;
      }
    }

    /**
      "stop", received by one of this user's waiting goroutines: the timer's
      duration becomes what was remaining and that goroutine ends. With no
      goroutine of this user waiting nothing changes here.
     */
    method Stop(user: int, now: int) returns (stopped: bool)
      requires Valid()
      modifies this
      ensures Valid()
      ensures stopped <==> user in old(waiting)
      ensures stopped ==> timers == old(timers)[user := Stopped(old(timers)[user], now)]
      ensures stopped ==> waiting == old(waiting) - multiset{user}
      ensures !stopped ==> timers == old(timers) && waiting == old(waiting)
      ensures places == old(places) && drafts == old(drafts) && selected == old(selected)
      ensures tasks == old(tasks) && nextId == old(nextId)
    {
      stopped := user in waiting;
      if stopped {
        timers := timers[user := Stopped(timers[user], now)];
        waiting := waiting - multiset{user};
      }
    }

    /**
      "restart": the timer keeps its duration, starts again now, and one more
      goroutine waits on it. `false` stands for the nil-pointer panic when the
      user has no timer; nothing changes then.
     */
    method Restart(user: int, now: int) returns (restarted: bool)
      requires Valid()
      modifies this
      ensures Valid()
      ensures restarted <==> user in old(timers)
      ensures restarted ==> timers == old(timers)[user := Restarted(old(timers)[user], now)]
      ensures restarted ==> waiting == old(waiting) + multiset{user}
      ensures !restarted ==> timers == old(timers) && waiting == old(waiting)
      ensures places == old(places) && drafts == old(drafts) && selected == old(selected)
      ensures tasks == old(tasks) && nextId == old(nextId)
    {
      restarted := user in timers;
      if restarted {
        timers := timers[user := Restarted(timers[user], now)];
        waiting := waiting + multiset{user};
      }
    }

    /**
      The deadline branch of one of this user's waiting goroutines: the task
      the user chose gets exactly one more pomodoro done, and the status says
      whether it is now completed. The task is looked up when the deadline
      passes, whatever its owner. With no goroutine waiting nothing fires; a
      chosen id with no task changes no task and reports no status.
     */
    method Expire(user: int) returns (fired: bool, status: Option<Status>)
      requires Valid()
      modifies this
      ensures Valid()
      ensures fired <==> user in old(waiting)
      ensures !fired ==> status == None && waiting == old(waiting) && tasks == old(tasks)
      ensures fired ==> waiting == old(waiting) - multiset{user}
      ensures fired && old(SelectedOf(user)) in old(tasks) ==>
        var id := old(SelectedOf(user));
        && tasks == old(tasks)[id := Increment(old(tasks)[id])]
        && status == Some(StatusOf(tasks[id].needed, tasks[id].done))
      ensures fired && old(SelectedOf(user)) !in old(tasks) ==> status == None && tasks == old(tasks)
      ensures places == old(places) && drafts == old(drafts) && selected == old(selected)
      ensures timers == old(timers) && nextId == old(nextId)
    {
      fired := user in waiting;
      status := None;
      if fired {
        waiting := waiting - multiset{user};
        var id := SelectedOf(user);
        if id in tasks {
          var task := Increment(tasks[id]);
          tasks := tasks[id := task];
          status := Some(StatusOf(task.needed, task.done));
        }
      }
    }

    /**
      One pass of the update loop: route the event by the sender's place and
      run the handler. Only the sender's entries change, no existing task is
      altered (only an expiry does that), and the sender's new place is the
      one the dialogue prescribes.
     */
    method Handle(e: Event, now: int) returns (act: Action)
      requires Valid()
      modifies this
      ensures Valid()
      ensures act == Route(old(PlaceFor(e.user)), e)
      ensures PlaceFor(e.user) == Next(old(PlaceFor(e.user)), e)
      ensures SameExceptAt(places, old(places), e.user) && SameExceptAt(drafts, old(drafts), e.user)
      ensures SameExceptAt(selected, old(selected), e.user) && SameExceptAt(timers, old(timers), e.user)
      ensures forall u :: u != e.user ==> waiting[u] == old(waiting)[u]
      ensures forall id :: id in old(tasks) ==> id in tasks && tasks[id] == old(tasks)[id]
      ensures act.AddTaskMessage? ==> places == old(places)[e.user := AddTaskPart1]
      ensures act.AddTaskP1? ==> drafts == old(drafts)[e.user := Task(e.user, e.text, 0, 0)]
      ensures act.AddTaskP2? && ParseInt(e.text).None? ==> tasks == old(tasks) && nextId == old(nextId) && drafts == old(drafts)
      ensures act.AddTaskP2? && ParseInt(e.text).Some? ==>
        && tasks == old(tasks)[old(nextId) := Task(old(DraftOf(e.user)).owner, old(DraftOf(e.user)).name, ParseInt(e.text).value, 0)]
        && nextId == old(nextId) + 1
        && drafts == old(drafts)[e.user := EmptyDraft]
      ensures act.ChooseTask? ==> selected == old(selected)[e.user := ChosenTaskId(e.data)]
      ensures act.ChooseDuration? ==>
        timers == old(timers)[e.user := Started(AtoiOrZero(e.data), now)] && waiting == old(waiting) + multiset{e.user}
      ensures act.Stop? && e.user in old(waiting) ==>
        timers == old(timers)[e.user := Stopped(old(timers)[e.user], now)] && waiting == old(waiting) - multiset{e.user}
      ensures act.Restart? && e.user in old(timers) ==>
        timers == old(timers)[e.user := Restarted(old(timers)[e.user], now)] && waiting == old(waiting) + multiset{e.user}
      ensures !act.AddTaskP2? ==> tasks == old(tasks) && nextId == old(nextId)
      ensures !act.AddTaskP1? && !act.AddTaskP2? ==> drafts == old(drafts)
      ensures !act.ChooseTask? ==> selected == old(selected)
      ensures !act.ChooseDuration? && !act.Stop? && !act.Restart? ==> timers == old(timers) && waiting == old(waiting)
      ensures SendsOnly(act) ==>
        && places == old(places) && drafts == old(drafts) && selected == old(selected)
        && timers == old(timers) && waiting == old(waiting) && tasks == old(tasks) && nextId == old(nextId)
    {
      act := Route(PlaceFor(e.user), e);
      var user := e.user;
      match act {
        case AddTaskMessage =>
          AddTaskMessage(user);
        case StartPomo =>
          var _ := StartPomo(user);
        case Stop =>
          var _ := Stop(user, now);
        case Restart =>
          var _ := Restart(user, now);
        case ChooseTask =>
          ChooseTask(user, e.data);
        case ChooseDuration =>
          ChooseDuration(user, e.data, now);
        case AddTaskP1 =>
          AddTaskP1(user, e.text);
        case AddTaskP2 =>
          var _ := AddTaskP2(user, e.text);
        case ShowTasksList =>
          var _ := ShowTasksList(user);
        case ShowCompleted =>
          var _ := ShowCompleted(user);
        case ShowRemainingTime =>
          var _ := ShowRemainingTime(user, now);
        case _ =>
      }
    }
  }
}
