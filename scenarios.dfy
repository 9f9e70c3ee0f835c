/**
  Whole conversations driven through the update loop, from a fresh bot.
 */
module Scenarios {
  import opened Wrappers
  import opened Decimal
  import opened Tasks
  import opened Timers
  import opened Dialogue
  import opened Bot

  /** A fresh bot in which `user` pressed "add task" and typed the name `name`. */
  method AtCountPrompt(user: int, name: string) returns (app: App)
    requires name != ""
    ensures fresh(app) && app.Valid()
    ensures app.PlaceFor(user) == AddTaskPart2 && app.DraftOf(user) == Task(user, name, 0, 0)
    ensures app.tasks == map[] && app.nextId == 1 && app.waiting == multiset{}
  {
    app := new App();
    var _ := app.Handle(Callback(user, "add task"), 0);
    assert app.PlaceFor(user) == AddTaskPart1 && app.tasks == map[] && app.nextId == 1;
    var _ := app.Handle(Message(user, name), 0);
  }

  /**
    A task named "write report": at the count prompt "abc" creates nothing and
    keeps the user at the prompt; "4" then creates the task with 4 needed and
    none done, as task 1, and returns the user to idle.
   */
  method CountPromptScenario(user: int) returns (afterAbc: Place, storedAfterAbc: nat, created: Option<Task>, afterFour: Place)
    ensures afterAbc == AddTaskPart2 && storedAfterAbc == 0
    ensures created == Some(Task(user, "write report", 4, 0))
    ensures afterFour == Idle
  {
    var app := AtCountPrompt(user, "write report");
    assert ParseInt("abc") == None by {
      ParseRejectsNonDigit("abc", 1);
    }
    var _ := app.Handle(Message(user, "abc"), 0);
    afterAbc, storedAfterAbc := app.PlaceFor(user), |app.tasks|;
    assert app.tasks == map[] && app.nextId == 1;
    assert app.DraftOf(user) == Task(user, "write report", 0, 0);
    assert ParseInt("4") == Some(4) by {
      assert FormatNat(4) == "4";
      ParseFormatNat(4);
    }
    var _ := app.Handle(Message(user, "4"), 0);
    created := if 1 in app.tasks then Some(app.tasks[1]) else None;
    afterFour := app.PlaceFor(user);
  }

  /** A fresh bot in which `user` added the task "focus" needing one pomodoro: it is task 1. */
  method OneTaskAdded(user: int) returns (app: App)
    ensures fresh(app) && app.Valid()
    ensures app.tasks == map[1 := Task(user, "focus", 1, 0)]
    ensures app.PlaceFor(user) == Idle && app.waiting == multiset{}
  {
    app := AtCountPrompt(user, "focus");
    assert ParseInt("1") == Some(1) by {
      assert FormatNat(1) == "1";
      ParseFormatNat(1);
    }
    var _ := app.Handle(Message(user, "1"), 0);
  }

  /** From there, "start pomo" and the button of task 1 select that task. */
  method OneTaskChosen(user: int) returns (app: App)
    ensures fresh(app) && app.Valid()
    ensures app.tasks == map[1 := Task(user, "focus", 1, 0)]
    ensures app.SelectedOf(user) == 1 && app.PlaceFor(user) == StartPomo2
    ensures app.waiting == multiset{}
  {
    app := OneTaskAdded(user);
    var _ := app.Handle(Callback(user, "start pomo"), 0);
    TaskButtonRoutesToChoice(user, 1);
    ChosenTaskIdOfButton(1);
    var _ := app.Handle(Callback(user, FormatNat(1)), 0);
  }

  /**
    From there: a 25-minute duration button, then "restart" a minute later
    while the first goroutine is still waiting.
   */
  method RestartedWhileRunning(user: int) returns (app: App)
    ensures fresh(app) && app.Valid()
    ensures app.tasks == map[1 := Task(user, "focus", 1, 0)] && app.SelectedOf(user) == 1
    ensures app.waiting == multiset{user, user}
    ensures user in app.timers && app.timers[user] == Timer(25 * 60 * Second, 60 * Second)
  {
    app := OneTaskChosen(user);
    assert Keyword("25") == None;
    assert AtoiOrZero("25") == 25 by {
      assert FormatNat(25) == "25";
      ParseFormatNat(25);
    }
    var _ := app.Handle(Callback(user, "25"), 0);
    assert app.waiting == multiset{user} && user in app.timers;
    assert app.timers[user] == Timer(25 * 60 * Second, 0);
    assert app.tasks == map[1 := Task(user, "focus", 1, 0)] && app.SelectedOf(user) == 1;
    assert Route(app.PlaceFor(user), Callback(user, "restart")) == Restart;
    var _ := app.Handle(Callback(user, "restart"), 60 * Second);
  }

  /**
    A one-pomodoro task, a 25-minute timer, and "restart" pressed while the
    timer is still running: a second goroutine waits on the same timer, both
    deadlines fire, and the task ends with two pomodoros done. The first
    expiry reports "completed", the second "1 pomo ahead", and the task then
    shows in neither list.
   */
  method RestartWhileRunningScenario(user: int) returns (first: Option<Status>, second: Option<Status>, done: int, ongoing: set<nat>, finished: set<nat>)
    ensures first == Some(Completed) && second == Some(OnePomoAhead)
    ensures done == 2
    ensures 1 !in ongoing && 1 !in finished
  {
    var app := RestartedWhileRunning(user);
    var fired;
    fired, first := app.Expire(user);
    fired, second := app.Expire(user);
    done := app.tasks[1].done;
    ongoing := app.ShowTasksList(user);
    finished := app.ShowCompleted(user);
  }
}
