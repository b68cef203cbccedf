/** The chat bot's handlers over the categorised document. Every handler
    works on the one category `ia`, resolves a 1-based number against the raw
    list of that category (not a filtered view), changes at most one record
    and answers with one reply. */
module DiscordBot {
  import opened Todo

  const Subcategory: string := "ia"

  datatype Status = InProgress | NotStarted

  /** One listed task: its number (raw position + 1), text and status. */
  datatype Line = Line(number: nat, text: string, status: Status)

  /** What a handler answers. `Raised` stands for an exception that escapes
      the handler before anything is saved: nothing is answered and the
      document is unchanged. */
  datatype Reply =
    | EmptyList
    | Listing(lines: seq<Line>)
    | MarkedComplete(item: int)
    | AlreadyCompleted(item: int)
    | InvalidIndex
    | StartedItem(item: int)
    | AlreadyInProgress(item: int)
    | StoppedTask
    | NothingInProgress
    | Raised

  /** A category's list after a handler, with the handler's reply. */
  datatype Handled = Handled(list: seq<Task>, reply: Reply)

  /** The tasks the bot lists: neither completed nor benched. */
  predicate Active(t: Task)
  {
    t.completed.None? && t.benched.None?
  }

  function LineFor(list: seq<Task>, i: nat): Line
    requires i < |list|
  {
    Line(i + 1, list[i].text, if list[i].inProgress then InProgress else NotStarted)
  }

  /** `!complete index`: an uncompleted task gets its completion stamp and
      nothing else; a completed task or a number outside the list changes
      nothing. A running task keeps running. */
  function Complete(list: seq<Task>, index: int, now: int): (r: Handled)
    ensures |r.list| == |list|
    ensures r.reply == InvalidIndex <==> !(1 <= index <= |list|)
    ensures r.reply == MarkedComplete(index) <==> 1 <= index <= |list| && list[index - 1].completed.None?
    ensures r.reply == AlreadyCompleted(index) <==> 1 <= index <= |list| && list[index - 1].completed.Some?
    ensures !r.reply.MarkedComplete? ==> r.list == list
    ensures r.reply.MarkedComplete? ==>
      var t, t' := list[index - 1], r.list[index - 1];
      && t'.completed == Some(now)
      && t'.inProgress == t.inProgress && t'.startTime == t.startTime && t'.timeSpent == t.timeSpent
      && t'.benched == t.benched && t'.unbenched == t.unbenched
      && t'.text == t.text && t'.created == t.created
    ensures forall j :: 0 <= j < |list| && j != index - 1 ==> r.list[j] == list[j]
  {
    if 0 < index <= |list| then
      var todo := list[index - 1];
      if todo.completed.None? then
        Handled(list[index - 1 := todo.(completed := Some(now))], MarkedComplete(index))
      else
        Handled(list, AlreadyCompleted(index))
    else
      Handled(list, InvalidIndex)
  }

  /** `!start index`: only a task that is neither completed nor running is
      started. Its bench stamp and the other tasks are not looked at, so
      several tasks may run at once. */
  function Start(list: seq<Task>, index: int, now: int): (r: Handled)
    ensures |r.list| == |list|
    ensures r.reply == InvalidIndex <==> !(1 <= index <= |list|)
    ensures r.reply == StartedItem(index) <==>
      1 <= index <= |list| && list[index - 1].completed.None? && !list[index - 1].inProgress
    ensures r.reply == AlreadyCompleted(index) <==> 1 <= index <= |list| && list[index - 1].completed.Some?
    ensures r.reply == AlreadyInProgress(index) <==>
      1 <= index <= |list| && list[index - 1].completed.None? && list[index - 1].inProgress
    ensures !r.reply.StartedItem? ==> r.list == list
    ensures r.reply.StartedItem? ==>
      var t, t' := list[index - 1], r.list[index - 1];
      && t'.inProgress && t'.startTime == Some(now)
      && t'.completed == t.completed && t'.benched == t.benched && t'.timeSpent == t.timeSpent
      && t'.unbenched == t.unbenched && t'.text == t.text && t'.created == t.created
    ensures forall j :: 0 <= j < |list| && j != index - 1 ==> r.list[j] == list[j]
  {
    if 0 < index <= |list| then
      var todo := list[index - 1];
      if todo.completed.None? && !todo.inProgress then
        Handled(list[index - 1 := todo.(inProgress := true, startTime := Some(now))], StartedItem(index))
      else if todo.completed.Some? then
        Handled(list, AlreadyCompleted(index))
      else
        Handled(list, AlreadyInProgress(index))
    else
      Handled(list, InvalidIndex)
  }

  /** The position of the first running task in list order. */
  function FirstInProgress(list: seq<Task>): (r: Option<nat>)
    ensures r.None? <==> forall j :: 0 <= j < |list| ==> !list[j].inProgress
    ensures r.Some? ==> r.value < |list| && list[r.value].inProgress
    ensures r.Some? ==> forall j :: 0 <= j < r.value ==> !list[j].inProgress
    decreases |list|
  {
    if list == [] then None
    else if list[0].inProgress then Some(0)
    else
      match FirstInProgress(list[1..])
      case None => None
      case Some(i) => Some(i + 1)
  }

  /** Task `i` runs and no task before it does. */
  predicate FirstRunning(list: seq<Task>, i: int)
  {
    0 <= i < |list| && list[i].inProgress && forall j :: 0 <= j < i ==> !list[j].inProgress
  }

  /** `!stop`: the first running task is stopped and the time since its start
      is added to its `time_spent`, negative or not. A running task without a
      start stamp or without `time_spent` raises, and nothing is saved. */
  function Stop(list: seq<Task>, now: int): (r: Handled)
    ensures |r.list| == |list|
    ensures r.reply == NothingInProgress <==> forall j :: 0 <= j < |list| ==> !list[j].inProgress
    ensures r.reply == Raised <==>
      exists i :: FirstRunning(list, i) && (list[i].startTime.None? || list[i].timeSpent.None?)
    ensures r.reply.NothingInProgress? || r.reply.Raised? || r.reply.StoppedTask?
    ensures !r.reply.StoppedTask? ==> r.list == list
    ensures r.reply.StoppedTask? ==>
      exists i :: FirstRunning(list, i)
        && (forall j :: 0 <= j < |list| && j != i ==> r.list[j] == list[j])
        && var t, t' := list[i], r.list[i];
        && t.startTime.Some? && t.timeSpent.Some?
        && !t'.inProgress && t'.startTime.None?
        && t'.timeSpent == Some(t.timeSpent.value + (now - t.startTime.value))
        && t'.completed == t.completed && t'.benched == t.benched && t'.unbenched == t.unbenched
        && t'.text == t.text && t'.created == t.created
  {
    match FirstInProgress(list)
    case None => Handled(list, NothingInProgress)
    case Some(i) =>
      assert FirstRunning(list, i);
      assert forall k :: FirstRunning(list, k) ==> k == i;
      var task := list[i];
      if task.startTime.None? || task.timeSpent.None? then
        Handled(list, Raised)
      else
        var elapsed := now - task.startTime.value;
        var task' := task.(inProgress := false, timeSpent := Some(task.timeSpent.value + elapsed), startTime := None);
        Handled(list[i := task'], StoppedTask)
  }

  /** Completing a task twice: the second call answers "already completed"
      and keeps the first completion stamp. */
  lemma CompleteTwiceKeepsFirstStamp(list: seq<Task>, index: int, t1: int, t2: int)
    requires 1 <= index <= |list| && list[index - 1].completed.None?
    ensures var first := Complete(list, index, t1);
      Complete(first.list, index, t2) == Handled(first.list, AlreadyCompleted(index))
      && first.list[index - 1].completed == Some(t1)
  {
  }

  /** No global check: with two runnable tasks, both can be started. */
  lemma TwoTasksCanRun(list: seq<Task>, i: int, k: int, t1: int, t2: int)
    requires 1 <= i <= |list| && 1 <= k <= |list| && i != k
    requires list[i - 1].completed.None? && !list[i - 1].inProgress
    requires list[k - 1].completed.None? && !list[k - 1].inProgress
    ensures var first := Start(list, i, t1);
      var second := Start(first.list, k, t2);
      first.reply == StartedItem(i) && second.reply == StartedItem(k)
      && second.list[i - 1].inProgress && second.list[k - 1].inProgress
  {
  }

  /** Start then stop on a list where nothing runs adds the elapsed time to
      the task and leaves it stopped without a start stamp; the rest of the
      list is as before. */
  lemma StartThenStopAddsElapsed(list: seq<Task>, index: int, t1: int, t2: int)
    requires 1 <= index <= |list|
    requires forall j :: 0 <= j < |list| ==> !list[j].inProgress
    requires list[index - 1].completed.None? && list[index - 1].timeSpent.Some?
    ensures var started := Start(list, index, t1);
      var stopped := Stop(started.list, t2);
      && stopped.reply == StoppedTask
      && stopped.list[index - 1]
           == list[index - 1].(timeSpent := Some(list[index - 1].timeSpent.value + (t2 - t1)), startTime := None)
      && forall j :: 0 <= j < |list| && j != index - 1 ==> stopped.list[j] == list[j]
  {
    var started := Start(list, index, t1);
    assert FirstInProgress(started.list) == Some(index - 1);
  }

  /** Stopping a task whose start stamp lies after the stop instant lowers its
      `time_spent`: nothing clamps the elapsed time at zero. */
  lemma StopDoesNotClamp(task: Task, start: int, spent: int, now: int)
    requires now < start
    ensures var running := task.(inProgress := true, startTime := Some(start), timeSpent := Some(spent));
      var r := Stop([running], now);
      r.reply == StoppedTask && r.list[0].timeSpent.value < spent
  {
    var running := task.(inProgress := true, startTime := Some(start), timeSpent := Some(spent));
    assert FirstInProgress([running]) == Some(0);
  }

  /** The JSON file holding the categorised document. */
  class BotFile {
    var subcategories: map<string, seq<Task>>

    constructor (contents: map<string, seq<Task>>)
      ensures subcategories == contents
    {
      subcategories := contents;
    }

    /** On connecting, the bot creates an empty `ia` category when there is
        none; an existing one is left alone. */
    method OnReady()
      modifies this
      ensures Subcategory in subcategories
      ensures Subcategory in old(subcategories) ==> subcategories == old(subcategories)
      ensures Subcategory !in old(subcategories) ==> subcategories == old(subcategories)[Subcategory := []]
    {
      if Subcategory !in subcategories {
        subcategories := subcategories[Subcategory := []];
      }
    }

    /** `!todos`: one line per task that is neither completed nor benched,
        in list order, numbered by raw position + 1 (so numbers may skip),
        with status "In Progress" exactly when the task runs. A missing
        category raises. */
    method ListTodos() returns (reply: Reply)
      ensures Subcategory !in subcategories ==> reply == Raised
      ensures Subcategory in subcategories && subcategories[Subcategory] == [] ==> reply == EmptyList
      ensures Subcategory in subcategories && subcategories[Subcategory] != [] ==>
        var list := subcategories[Subcategory];
        var shown := Positions(list, Active);
        && reply.Listing? && |reply.lines| == |shown|
        && forall k :: 0 <= k < |shown| ==> reply.lines[k] == LineFor(list, shown[k])
    {
      if Subcategory !in subcategories {
        return Raised;
      }
      var list := subcategories[Subcategory];
      if list == [] {
        return EmptyList;
      }
      var lines: seq<Line> := [];
      ghost var shown: seq<nat> := [];
      for idx := 0 to |list|
        invariant shown == Positions(list[..idx], Active)
        invariant |lines| == |shown|
        invariant forall k :: 0 <= k < |shown| ==> shown[k] < idx && lines[k] == LineFor(list, shown[k])
      {
        var todo := list[idx];
        assert list[..idx + 1][..idx] == list[..idx];
        if todo.completed.None? && todo.benched.None? {
          var status := if todo.inProgress then InProgress else NotStarted;
          lines := lines + [Line(idx + 1, todo.text, status)];
          shown := shown + [idx];
        }
      }
      assert list[..|list|] == list;
      reply := Listing(lines);
    }

    /** `!complete index` on the `ia` category. */
    method CompleteTodo(index: int, now: int) returns (reply: Reply)
      modifies this
      ensures Subcategory !in old(subcategories) ==> subcategories == old(subcategories) && reply == Raised
      ensures Subcategory in old(subcategories) ==>
        var r := Complete(old(subcategories)[Subcategory], index, now);
        subcategories == old(subcategories)[Subcategory := r.list] && reply == r.reply
    {
      if Subcategory !in subcategories {
        return Raised;
      }
      var list := subcategories[Subcategory];
      if 0 < index <= |list| {
        var todo := list[index - 1];
        if todo.completed.None? {
          subcategories := subcategories[Subcategory := list[index - 1 := todo.(completed := Some(now))]];
          reply := MarkedComplete(index);
        } else {
          reply := AlreadyCompleted(index);
        }
      } else {
        reply := InvalidIndex;
      }
    }

    /** `!start index` on the `ia` category. */
    method StartTodo(index: int, now: int) returns (reply: Reply)
      modifies this
      ensures Subcategory !in old(subcategories) ==> subcategories == old(subcategories) && reply == Raised
      ensures Subcategory in old(subcategories) ==>
        var r := Start(old(subcategories)[Subcategory], index, now);
        subcategories == old(subcategories)[Subcategory := r.list] && reply == r.reply
    {
      if Subcategory !in subcategories {
        return Raised;
      }
      var list := subcategories[Subcategory];
      if 0 < index <= |list| {
        var todo := list[index - 1];
        if todo.completed.None? && !todo.inProgress {
          subcategories := subcategories[Subcategory := list[index - 1 := todo.(inProgress := true, startTime := Some(now))]];
          reply := StartedItem(index);
        } else if todo.completed.Some? {
          reply := AlreadyCompleted(index);
        } else {
          reply := AlreadyInProgress(index);
        }
      } else {
        reply := InvalidIndex;
      }
    }

    /** `!stop` on the `ia` category: scans the list in order and stops the
        first running task. */
    method StopTodo(now: int) returns (reply: Reply)
      modifies this
      ensures Subcategory !in old(subcategories) ==> subcategories == old(subcategories) && reply == Raised
      ensures Subcategory in old(subcategories) ==>
        var r := Stop(old(subcategories)[Subcategory], now);
        subcategories == old(subcategories)[Subcategory := r.list] && reply == r.reply
    {
      if Subcategory !in subcategories {
        return Raised;
      }
      var list := subcategories[Subcategory];
      var stopped := false;
      var i := 0;
      while i < |list|
        invariant 0 <= i <= |list|
        invariant !stopped && subcategories == old(subcategories)
        invariant forall j :: 0 <= j < i ==> !list[j].inProgress
      {
        var task := list[i];
        if task.inProgress {
          if task.startTime.None? || task.timeSpent.None? {
            return Raised;
          }
          var elapsed := now - task.startTime.value;
          task := task.(inProgress := false);
          task := task.(timeSpent := Some(task.timeSpent.value + elapsed));
          task := task.(startTime := None);
          subcategories := subcategories[Subcategory := list[i := task]];
          reply := StoppedTask;
          stopped := true;
          break;
        }
        i := i + 1;
      }
      if !stopped {
        reply := NothingInProgress;
      }
    }
  }
}
