/** The console to-do list: a bare list of tasks kept in one JSON file, two
    filtered views of it, and the operations that resolve a number typed
    against the view on screen to a task of the list. */
module Idl {
  import opened Todo

  /** The record `add_todo` appends: no completion, bench or unbench stamp,
      and none of the time-tracking keys. */
  function Fresh(task: string, now: int): Task
  {
    Task(task, now, None, None, None, false, None, None)
  }

  /** Whether a task is listed in the benched view (`showBenched`) or in the
      main view. The main view lists an active task that was never benched,
      and also one that was unbenched, whatever its bench stamp says now. */
  predicate Shown(t: Task, showBenched: bool)
  {
    if showBenched then
      t.benched.Some? && t.completed.None?
    else
      (t.completed.None? && t.benched.None?) || (t.completed.None? && t.unbenched.Some?)
  }

  /** The list positions a view shows, in list order. */
  function View(todos: seq<Task>, showBenched: bool): seq<nat>
  {
    Positions(todos, t => Shown(t, showBenched))
  }

  /** The view holds every shown position once, in increasing order; a
      completed task is never shown in either view. */
  lemma ViewSpec(todos: seq<Task>, showBenched: bool)
    ensures StrictlyIncreasing(View(todos, showBenched)) && Within(View(todos, showBenched), |todos|)
    ensures forall x: nat :: x in View(todos, showBenched) <==> x < |todos| && Shown(todos[x], showBenched)
    ensures forall x: nat :: x in View(todos, showBenched) ==> todos[x].completed.None?
  {
    PositionsSpec(todos, t => Shown(t, showBenched));
  }

  /** Walks the list once and collects the positions of the tasks the chosen
      view shows; item `k + 1` on screen is task `displayed[k]`. */
  method DisplayTodos(todos: seq<Task>, showBenched: bool) returns (displayed: seq<nat>)
    ensures displayed == View(todos, showBenched)
    ensures StrictlyIncreasing(displayed) && Within(displayed, |todos|)
    ensures forall x: nat :: x in displayed <==> x < |todos| && Shown(todos[x], showBenched)
  {
    displayed := [];
    for idx := 0 to |todos|
      invariant displayed == View(todos[..idx], showBenched)
    {
      var todo := todos[idx];
      assert todos[..idx + 1][..idx] == todos[..idx];
      if showBenched {
        if todo.benched.Some? && todo.completed.None? {
          displayed := displayed + [idx];
        }
      } else {
        if todo.completed.None? && todo.benched.None? {
          displayed := displayed + [idx];
        } else if todo.completed.None? && todo.unbenched.Some? {
          displayed := displayed + [idx];
        }
      }
    }
    assert todos[..|todos|] == todos;
    ViewSpec(todos, showBenched);
  }

  /** The list after `mark_todo_complete(index, displayed)`. */
  function AfterComplete(todos: seq<Task>, displayed: seq<nat>, index: int, now: int): (r: seq<Task>)
    requires Within(displayed, |todos|)
    ensures |r| == |todos|
    ensures !(0 <= index < |displayed|) ==> r == todos
    ensures 0 <= index < |displayed| ==>
      var i := displayed[index];
      && r[i].completed == Some(now)
      && r[i].benched == todos[i].benched && r[i].unbenched == todos[i].unbenched
      && r[i].text == todos[i].text && r[i].created == todos[i].created
      && r[i].inProgress == todos[i].inProgress && r[i].startTime == todos[i].startTime
      && r[i].timeSpent == todos[i].timeSpent
      && forall j :: 0 <= j < |todos| && j != i ==> r[j] == todos[j]
  {
    if 0 <= index < |displayed| then
      var i := displayed[index];
      todos[i := todos[i].(completed := Some(now))]
    else
      todos
  }

  /** The list after `bench_todo_item(index, displayed)`: only the bench stamp
      of the chosen task changes; its unbench stamp stays as it was. */
  function AfterBench(todos: seq<Task>, displayed: seq<nat>, index: int, now: int): (r: seq<Task>)
    requires Within(displayed, |todos|)
    ensures |r| == |todos|
    ensures !(0 <= index < |displayed|) ==> r == todos
    ensures 0 <= index < |displayed| ==>
      var i := displayed[index];
      && r[i].benched == Some(now)
      && r[i].unbenched == todos[i].unbenched && r[i].completed == todos[i].completed
      && r[i].text == todos[i].text && r[i].created == todos[i].created
      && r[i].inProgress == todos[i].inProgress && r[i].startTime == todos[i].startTime
      && r[i].timeSpent == todos[i].timeSpent
      && forall j :: 0 <= j < |todos| && j != i ==> r[j] == todos[j]
  {
    if 0 <= index < |displayed| then
      var i := displayed[index];
      todos[i := todos[i].(benched := Some(now))]
    else
      todos
  }

  /** The list after `unbench_todo_item(index, displayed)`: the chosen task
      gets an unbench stamp and loses its bench stamp. */
  function AfterUnbench(todos: seq<Task>, displayed: seq<nat>, index: int, now: int): (r: seq<Task>)
    requires Within(displayed, |todos|)
    ensures |r| == |todos|
    ensures !(0 <= index < |displayed|) ==> r == todos
    ensures 0 <= index < |displayed| ==>
      var i := displayed[index];
      && r[i].unbenched == Some(now) && r[i].benched.None?
      && r[i].completed == todos[i].completed
      && r[i].text == todos[i].text && r[i].created == todos[i].created
      && r[i].inProgress == todos[i].inProgress && r[i].startTime == todos[i].startTime
      && r[i].timeSpent == todos[i].timeSpent
      && forall j :: 0 <= j < |todos| && j != i ==> r[j] == todos[j]
  {
    if 0 <= index < |displayed| then
      var i := displayed[index];
      todos[i := todos[i].(unbenched := Some(now), benched := None)]
    else
      todos
  }

  /** Completing item `index` of a view takes exactly that entry out of the
      view recomputed afterwards; the other entries keep their order. */
  lemma CompleteShrinksView(todos: seq<Task>, showBenched: bool, index: nat, now: int)
    requires index < |View(todos, showBenched)|
    ensures var displayed := View(todos, showBenched);
      View(AfterComplete(todos, displayed, index, now), showBenched)
        == displayed[..index] + displayed[index + 1..]
  {
    var displayed := View(todos, showBenched);
    ViewSpec(todos, showBenched);
    var d := displayed[index];
    assert displayed[index] in displayed;
    var t := todos[d].(completed := Some(now));
    PositionsAfterHide(todos, u => Shown(u, showBenched), d, t);
    WithoutAt(displayed, index);
  }

  /** Benching item `index` of the main view puts the task in the benched
      view; it leaves the main view unless it had been unbenched before, in
      which case it is listed in both views. */
  lemma BenchMovesToBenchedView(todos: seq<Task>, index: nat, now: int)
    requires index < |View(todos, false)|
    ensures var displayed := View(todos, false);
      var d := displayed[index];
      var after := AfterBench(todos, displayed, index, now);
      && d in View(after, true)
      && (d in View(after, false) <==> todos[d].unbenched.Some?)
  {
    var displayed := View(todos, false);
    ViewSpec(todos, false);
    assert displayed[index] in displayed;
    var after := AfterBench(todos, displayed, index, now);
    ViewSpec(after, true);
    ViewSpec(after, false);
  }

  /** Unbenching item `index` of the benched view moves the task back to the
      main view and out of the benched view. */
  lemma UnbenchMovesToMainView(todos: seq<Task>, index: nat, now: int)
    requires index < |View(todos, true)|
    ensures var displayed := View(todos, true);
      var d := displayed[index];
      var after := AfterUnbench(todos, displayed, index, now);
      d in View(after, false) && d !in View(after, true)
  {
    var displayed := View(todos, true);
    ViewSpec(todos, true);
    assert displayed[index] in displayed;
    var after := AfterUnbench(todos, displayed, index, now);
    ViewSpec(after, true);
    ViewSpec(after, false);
  }

  /** A task unbenched from the benched view and then benched again from the
      main view (where it is item `k`) is listed in both views. */
  lemma RebenchedShowsTwice(todos: seq<Task>, index: nat, k: nat, t1: int, t2: int)
    requires index < |View(todos, true)|
    requires var unbenched := AfterUnbench(todos, View(todos, true), index, t1);
      k < |View(unbenched, false)| && View(unbenched, false)[k] == View(todos, true)[index]
    ensures var d := View(todos, true)[index];
      var unbenched := AfterUnbench(todos, View(todos, true), index, t1);
      var rebenched := AfterBench(unbenched, View(unbenched, false), k, t2);
      d in View(rebenched, true) && d in View(rebenched, false)
  {
    var unbenched := AfterUnbench(todos, View(todos, true), index, t1);
    UnbenchMovesToMainView(todos, index, t1);
    BenchMovesToBenchedView(unbenched, k, t2);
  }

  /** A new task is listed last in the main view and not in the benched view. */
  lemma AddShowsLast(todos: seq<Task>, task: string, now: int)
    ensures View(todos + [Fresh(task, now)], false) == View(todos, false) + [|todos|]
    ensures View(todos + [Fresh(task, now)], true) == View(todos, true)
  {
    assert (todos + [Fresh(task, now)])[..|todos|] == todos;
  }

  /** The JSON file holding the bare task list. Every operation of the
      console re-reads the file, changes one record and writes it back. */
  class TodoFile {
    var todos: seq<Task>

    /** `contents` is what the file holds; a missing file holds `[]`. */
    constructor (contents: seq<Task>)
      ensures todos == contents
    {
      todos := contents;
    }

    /** Appends a fresh task at the end of the list. */
    method AddTodo(task: string, now: int)
      modifies this
      ensures todos == old(todos) + [Fresh(task, now)]
      ensures |todos| == |old(todos)| + 1 && todos[..|old(todos)|] == old(todos)
    {
      todos := todos + [Fresh(task, now)];
    }

    /** Marks item `index` (0-based) of the view `displayed` complete; an
      index outside the view changes nothing. */
    method MarkTodoComplete(index: int, displayed: seq<nat>, now: int) returns (marked: bool)
      requires Within(displayed, |todos|)
      modifies this
      ensures marked <==> 0 <= index < |displayed|
      ensures todos == AfterComplete(old(todos), displayed, index, now)
    {
      if 0 <= index < |displayed| {
        var todoIndex := displayed[index];
        todos := todos[todoIndex := todos[todoIndex].(completed := Some(now))];
        marked := true;
      } else {
        marked := false;
      }
    }

    /** Benches item `index` of the view `displayed`. */
    method BenchTodoItem(index: int, displayed: seq<nat>, now: int) returns (benched: bool)
      requires Within(displayed, |todos|)
      modifies this
      ensures benched <==> 0 <= index < |displayed|
      ensures todos == AfterBench(old(todos), displayed, index, now)
    {
      if 0 <= index < |displayed| {
        var todoIndex := displayed[index];
        todos := todos[todoIndex := todos[todoIndex].(benched := Some(now))];
        benched := true;
      } else {
        benched := false;
      }
    }

    /** Unbenches item `index` of the view `displayed`. */
    method UnbenchTodoItem(index: int, displayed: seq<nat>, now: int) returns (unbenched: bool)
      requires Within(displayed, |todos|)
      modifies this
      ensures unbenched <==> 0 <= index < |displayed|
      ensures todos == AfterUnbench(old(todos), displayed, index, now)
    {
      if 0 <= index < |displayed| {
        var todoIndex := displayed[index];
        todos := todos[todoIndex := todos[todoIndex].(unbenched := Some(now))];
        todos := todos[todoIndex := todos[todoIndex].(benched := None)];
        unbenched := true;
      } else {
        unbenched := false;
      }
    }
  }
}
