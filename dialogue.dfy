/**
  The per-user dialogue: the five places a user can be in, the inbound events,
  and how the update loop routes an event to a handler. Button presses whose
  data is one of the fixed keywords are routed before the user's place is
  looked at; other button presses and plain text are routed by place.
 */
module Dialogue {
  import opened Wrappers
  import opened Decimal

  /** The `UserPlace` constants, `IDLE` through `START_POMO2`. */
  datatype Place = Idle | AddTaskPart1 | AddTaskPart2 | StartPomo1 | StartPomo2

  /** A user missing from the map reads as Go's zero value, `IDLE`. */
  function PlaceOf(places: map<int, Place>, user: int): (p: Place)
    ensures user !in places ==> p == Idle
    ensures user in places ==> p == places[user]
  {
    if user in places then places[user] else Idle
  }

  /** An inbound update: a button press, a `/command`, or plain text. */
  datatype Event =
    | Callback(user: int, data: string)
    | Command(user: int, name: string)
    | Message(user: int, text: string)

  /** The handler an event is given to. */
  datatype Action =
    | MainMenu | StartPomo | AddTaskMessage | ShowTasksList | ShowCompleted
    | ShowRemainingTime | Stop | Restart
    | ChooseTask        // StartPOMO1
    | ChooseDuration    // StartPOMO2
    | UnknownCommand
    | ShowStartMessage
    | AddTaskP1 | AddTaskP2 | ShowErr
    | Ignore

  /** The fixed button keywords of the update loop's `switch`. */
  function Keyword(data: string): (r: Option<Action>)
    ensures r.Some? ==> r.value in {MainMenu, StartPomo, AddTaskMessage, ShowTasksList, ShowCompleted, ShowRemainingTime, Stop, Restart}
    ensures r.Some? ==> |data| > 0 && !IsDigit(data[0])
  {
    if data == "start" then Some(MainMenu)
    else if data == "start pomo" then Some(StartPomo)
    else if data == "add task" then Some(AddTaskMessage)
    else if data == "tasks list" then Some(ShowTasksList)
    else if data == "completed tasks" then Some(ShowCompleted)
    else if data == "remaining" then Some(ShowRemainingTime)
    else if data == "stop" then Some(Stop)
    else if data == "restart" then Some(Restart)
    else None
  }

  /** The update loop's choice of handler for an event from a user in `place`. */
  function Route(place: Place, e: Event): (r: Action)
    ensures e.Callback? && Keyword(e.data).Some? ==> r == Keyword(e.data).value
    ensures r == ChooseTask <==> e.Callback? && Keyword(e.data).None? && place == StartPomo1
    ensures r == ChooseDuration <==> e.Callback? && Keyword(e.data).None? && place == StartPomo2
    ensures e.Command? ==> r in {ShowStartMessage, Ignore}
    ensures e.Message? ==> r in {AddTaskP1, AddTaskP2, ShowErr, Ignore}
    ensures r == AddTaskP1 <==> e.Message? && e.text != "" && place == AddTaskPart1
    ensures r == AddTaskP2 <==> e.Message? && e.text != "" && place == AddTaskPart2
  {
    match e
    case Callback(_, data) =>
      if Keyword(data).Some? then Keyword(data).value
      else if place == StartPomo1 then ChooseTask
      else if place == StartPomo2 then ChooseDuration
      else UnknownCommand
    case Command(_, name) =>
      if name == "start" then ShowStartMessage else Ignore
    case Message(_, text) =>
      if text == "" then Ignore
      else if place == AddTaskPart1 then AddTaskP1
      else if place == AddTaskPart2 then AddTaskP2
      else if place == Idle then ShowErr
      else Ignore
  }

  /** The sender's place after the routed handler has run. */
  function Next(place: Place, e: Event): (r: Place)
    ensures r != place ==> Route(place, e) in {AddTaskMessage, StartPomo, ChooseTask, AddTaskP1, AddTaskP2}
    ensures Route(place, e) == AddTaskMessage ==> r == AddTaskPart1
    ensures Route(place, e) == StartPomo ==> r == StartPomo1
    ensures Route(place, e) == ChooseTask ==> r == StartPomo2
    ensures e.Message? && (place == StartPomo1 || place == StartPomo2) ==> r == place
  {
    var act := Route(place, e);
    if act == AddTaskMessage then AddTaskPart1
    else if act == StartPomo then StartPomo1
    else if act == ChooseTask then StartPomo2
    else if act == AddTaskP1 then AddTaskPart2
    else if act == AddTaskP2 && e.Message? && ParseInt(e.text).Some? then Idle
    else place
  }

  /** Keyword buttons are handled the same way whatever place the user is in. */
  lemma KeywordsIgnorePlace(p: Place, q: Place, user: int, data: string)
    requires Keyword(data).Some?
    ensures Route(p, Callback(user, data)) == Route(q, Callback(user, data)) == Keyword(data).value
  {
  }

  /** "add task" moves the user to the task-name prompt from any place. */
  lemma AddTaskFromAnyPlace(p: Place, user: int)
    ensures Next(p, Callback(user, "add task")) == AddTaskPart1
  {
  }

  /** "start pomo" moves the user to the task choice from any place. */
  lemma StartPomoFromAnyPlace(p: Place, user: int)
    ensures Next(p, Callback(user, "start pomo")) == StartPomo1
  {
  }

  /**
    A button that is not a keyword moves only a user who is choosing a task;
    in any other place it changes nothing (in the duration choice it starts a
    timer and the user stays where they are).
   */
  lemma OtherButtonsByPlace(p: Place, user: int, data: string)
    requires Keyword(data).None?
    ensures Route(p, Callback(user, data)) == ChooseTask <==> p == StartPomo1
    ensures Route(p, Callback(user, data)) == ChooseDuration <==> p == StartPomo2
    ensures p != StartPomo1 ==> Next(p, Callback(user, data)) == p
    ensures p == StartPomo1 ==> Next(p, Callback(user, data)) == StartPomo2
  {
  }

  /** Text typed while choosing a task or a duration is ignored. */
  lemma TextIgnoredWhileChoosing(p: Place, user: int, text: string)
    requires p == StartPomo1 || p == StartPomo2
    ensures Route(p, Message(user, text)) == Ignore
    ensures Next(p, Message(user, text)) == p
  {
  }

  /** A non-empty text at the task-name prompt moves on to the count prompt. */
  lemma TaskNameMovesOn(user: int, text: string)
    requires text != ""
    ensures Route(AddTaskPart1, Message(user, text)) == AddTaskP1
    ensures Next(AddTaskPart1, Message(user, text)) == AddTaskPart2
  {
  }

  /** At the count prompt, text returns the user to idle exactly when it parses as an integer. */
  lemma CountMovesOnOnlyWhenParsed(user: int, text: string)
    ensures Next(AddTaskPart2, Message(user, text)) == Idle <==> ParseInt(text).Some?
    ensures ParseInt(text).None? ==> Next(AddTaskPart2, Message(user, text)) == AddTaskPart2
  {
  }

  /**
    Nothing in the duration choice itself leaves it: only the "start pomo" and
    "add task" keywords move the user out of `StartPomo2`.
   */
  lemma DurationChoiceIsSticky(e: Event)
    ensures Next(StartPomo2, e) != StartPomo2 <==> e.Callback? && (e.data == "start pomo" || e.data == "add task")
  {
  }

  /** The numeric data of a task button is never mistaken for a keyword. */
  lemma NumberIsNoKeyword(n: nat)
    ensures Keyword(FormatNat(n)) == None
  {
  }

  /** Pressing the button of an offered task while choosing a task routes to the task choice. */
  lemma TaskButtonRoutesToChoice(user: int, id: nat)
    ensures Route(StartPomo1, Callback(user, FormatNat(id))) == ChooseTask
    ensures Next(StartPomo1, Callback(user, FormatNat(id))) == StartPomo2
  {
  }
}
