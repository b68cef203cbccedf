/** One turn of the console's main loop: the typed line is classified, then
    the list file is changed through the operations of module Idl. */
module IdlMain {
  import opened Todo
  import opened Idl

  /** What a typed line asks for. `BadBench` is a line starting with `b`
      whose rest is not a number: it is reported and nothing is added. */
  datatype Command =
    | Quit
    | ToggleView
    | Complete(index: int)
    | Bench(index: int)
    | BadBench
    | Add(task: string)

  function LowerChar(c: char): char
  {
    if 'A' <= c <= 'Z' then (c as int + 32) as char else c
  }

  /** `str.lower()`; no character outside ASCII lower-cases to `q`, `v` or
      `b`, the only letters the loop compares with. */
  function Lower(s: string): (r: string)
    ensures |r| == |s|
  {
    seq(|s|, i requires 0 <= i < |s| => LowerChar(s[i]))
  }

  predicate IsDigit(c: char)
  {
    '0' <= c <= '9'
  }

  /** `str.isdigit()` on ASCII input: non-empty and digits only. */
  predicate IsDigits(s: string)
  {
    |s| > 0 && forall i :: 0 <= i < |s| ==> IsDigit(s[i])
  }

  /** The decimal value of a string of digits, skipping underscores. */
  function DecimalValue(s: string): nat
    requires forall i :: 0 <= i < |s| ==> IsDigit(s[i]) || s[i] == '_'
    decreases |s|
  {
    if s == [] then 0
    else
      var n := |s| - 1;
      if s[n] == '_' then DecimalValue(s[..n])
      else
        assert IsDigit(s[n]);
        DecimalValue(s[..n]) * 10 + (s[n] as int - '0' as int)
  }

  /** The white space `int()` strips (its ASCII part). */
  predicate IsSpace(c: char)
  {
    c == ' ' || 9 <= c as int <= 13 || 28 <= c as int <= 31
  }

  function TrimStart(s: string): string
    decreases |s|
  {
    if |s| > 0 && IsSpace(s[0]) then TrimStart(s[1..]) else s
  }

  function TrimEnd(s: string): string
    decreases |s|
  {
    if |s| > 0 && IsSpace(s[|s| - 1]) then TrimEnd(s[..|s| - 1]) else s
  }

  /** Digits, with single underscores allowed between two digits. */
  predicate IsGrouped(s: string)
  {
    && |s| > 0 && IsDigit(s[0]) && IsDigit(s[|s| - 1])
    && (forall i :: 0 <= i < |s| ==> IsDigit(s[i]) || s[i] == '_')
    && (forall i :: 0 <= i < |s| - 1 && s[i] == '_' ==> s[i + 1] != '_')
  }

  /** Every character `TrimStart` keeps comes from its input. */
  lemma {:induction false} TrimStartFrom(s: string)
    ensures forall i :: 0 <= i < |TrimStart(s)| ==> TrimStart(s)[i] in s
    decreases |s|
  {
    if |s| > 0 && IsSpace(s[0]) {
      TrimStartFrom(s[1..]);
      assert forall c :: c in s[1..] ==> c in s;
    }
  }

  /** Every character `TrimEnd` keeps comes from its input. */
  lemma {:induction false} TrimEndFrom(s: string)
    ensures forall i :: 0 <= i < |TrimEnd(s)| ==> TrimEnd(s)[i] in s
    decreases |s|
  {
    if |s| > 0 && IsSpace(s[|s| - 1]) {
      TrimEndFrom(s[..|s| - 1]);
      assert forall c :: c in s[..|s| - 1] ==> c in s;
    }
  }

  /** Python's `int(s)` in base 10: surrounding white space, an optional sign,
      then grouped digits; anything else raises ValueError (None here). A
      plain digit string parses to its decimal value; a string without any
      digit raises. */
  function ParseInt(s: string): (r: Option<int>)
    ensures IsDigits(s) ==> r == Some(DecimalValue(s))
    ensures (forall i :: 0 <= i < |s| ==> !IsDigit(s[i])) ==> r.None?
  {
    TrimStartFrom(s);
    TrimEndFrom(TrimStart(s));
    assert IsDigits(s) ==> TrimStart(s) == s;
    assert IsDigits(s) ==> TrimEnd(s) == s;
    var t := TrimEnd(TrimStart(s));
    var signed := |t| > 0 && (t[0] == '+' || t[0] == '-');
    var body := if signed then t[1..] else t;
    assert |body| > 0 ==> body[0] in t;
    if IsGrouped(body) then
      var magnitude: int := DecimalValue(body);
      Some(if signed && t[0] == '-' then -magnitude else magnitude)
    else
      None
  }

  /** The dispatch of the main loop, in its order: quit, toggle, complete,
      bench, add. */
  function Classify(input: string): (c: Command)
    ensures c.Add? ==> c.task == input && !IsDigits(input) && !(|input| > 0 && LowerChar(input[0]) == 'b')
    ensures c.Complete? ==> IsDigits(input) && c.index + 1 == DecimalValue(input)
    ensures c.Bench? ==> |input| > 0 && LowerChar(input[0]) == 'b' && ParseInt(input[1..]) == Some(c.index + 1)
    ensures c.BadBench? ==> |input| > 0 && LowerChar(input[0]) == 'b' && ParseInt(input[1..]).None?
    ensures c == Quit <==> input == "q" || input == "Q"
    ensures c == ToggleView <==> input == "v" || input == "V"
  {
    if Lower(input) == "q" then Quit
    else if Lower(input) == "v" then ToggleView
    else if IsDigits(input) then Complete(DecimalValue(input) - 1)
    else if |input| > 0 && Lower(input)[0] == 'b' then
      match ParseInt(input[1..])
      case Some(n) => Bench(n - 1)
      case None => BadBench
    else Add(input)
  }

  /** Any line of digits completes item `n` of whatever view is on screen:
      there is no way to unbench from the main loop. */
  lemma DigitsAlwaysComplete(input: string)
    requires IsDigits(input)
    ensures Classify(input) == Complete(DecimalValue(input) - 1)
  {
  }

  /** Everything that is not a command is added as a task, verbatim (the
      empty line included). */
  lemma OtherInputIsAdded(input: string)
    requires input != "q" && input != "Q" && input != "v" && input != "V"
    requires !IsDigits(input) && !(|input| > 0 && LowerChar(input[0]) == 'b')
    ensures Classify(input) == Add(input)
  {
    if Lower(input) == "q" || Lower(input) == "v" {
      assert LowerChar(input[0]) == Lower(input)[0];
    }
  }

  /** A line that starts with `b` is never added, even when it is meant as a
      task: "buy milk" is a malformed bench command. */
  lemma BuyMilkIsNotAdded()
    ensures Classify("buy milk") == BadBench
  {
    var input := "buy milk";
    assert !IsDigits(input) by {
      assert !IsDigit(input[0]);
    }
    assert Lower(input)[0] == 'b';
    assert |Lower(input)| == 8;
    assert input[1..] == "uy milk";
    assert ParseInt("uy milk") == None by {
      assert TrimStart("uy milk") == "uy milk";
      assert TrimEnd("uy milk") == "uy milk";
      assert !IsDigit('u');
    }
  }

  /** `B` works like `b`, and Python's `int()` lets white space surround the
      number: "B 3 " benches item 3. */
  lemma PaddedBenchIsParsed()
    ensures Classify("B 3 ") == Bench(2)
  {
    var input := "B 3 ";
    assert !IsDigits(input) by {
      assert !IsDigit(input[0]);
    }
    assert Lower(input)[0] == 'b';
    assert |Lower(input)| == 4;
    assert input[1..] == " 3 ";
    assert TrimStart(" 3 ") == "3 " by {
      assert " 3 "[1..] == "3 ";
    }
    assert TrimEnd("3 ") == "3" by {
      assert "3 "[..1] == "3";
    }
    assert DecimalValue("3") == 3 by {
      assert "3"[..0] == "";
    }
  }

  /** The state of the console between two turns. */
  datatype Console = Console(todos: seq<Task>, showBenched: bool, quit: bool)

  /** One turn: the view is computed from the list, then the line typed is
      applied to the list or to the view switch. */
  function Step(todos: seq<Task>, showBenched: bool, input: string, now: int): (r: Console)
    ensures r.quit <==> input == "q" || input == "Q"
    ensures r.showBenched != showBenched <==> input == "v" || input == "V"
    ensures Classify(input).Add? ==> r.todos == todos + [Fresh(input, now)]
    ensures !Classify(input).Add? ==> |r.todos| == |todos|
    ensures !Classify(input).Complete? && !Classify(input).Bench? && !Classify(input).Add? ==> r.todos == todos
    ensures Classify(input).Complete? ==>
      r.todos == AfterComplete(todos, View(todos, showBenched), Classify(input).index, now)
    ensures Classify(input).Bench? ==>
      r.todos == AfterBench(todos, View(todos, showBenched), Classify(input).index, now)
  {
    var displayed := View(todos, showBenched);
    ViewSpec(todos, showBenched);
    match Classify(input)
    case Quit => Console(todos, showBenched, true)
    case ToggleView => Console(todos, !showBenched, false)
    case Complete(index) => Console(AfterComplete(todos, displayed, index, now), showBenched, false)
    case Bench(index) => Console(AfterBench(todos, displayed, index, now), showBenched, false)
    case BadBench => Console(todos, showBenched, false)
    case Add(task) => Console(todos + [Fresh(task, now)], showBenched, false)
  }

  /** No turn of the main loop takes a bench stamp away or a completion
      stamp away, and none changes a task's text: unbenching is reachable
      only through `unbench_todo_item`, which the loop never calls. */
  lemma MainNeverUnbenches(todos: seq<Task>, showBenched: bool, input: string, now: int)
    ensures var r := Step(todos, showBenched, input, now).todos;
      forall i :: 0 <= i < |todos| ==>
        && (todos[i].benched.Some? ==> r[i].benched.Some?)
        && (todos[i].completed.Some? ==> r[i].completed == todos[i].completed)
        && r[i].unbenched == todos[i].unbenched
        && r[i].text == todos[i].text
  {
    ViewSpec(todos, showBenched);
  }

  /** In the benched view, typing the number of an item completes that benched
      task, which stays benched. */
  lemma DigitsInBenchedViewComplete(todos: seq<Task>, input: string, now: int)
    requires IsDigits(input) && 1 <= DecimalValue(input) <= |View(todos, true)|
    ensures var d := View(todos, true)[DecimalValue(input) - 1];
      var r := Step(todos, true, input, now);
      && r.todos[d].completed == Some(now)
      && r.todos[d].benched == todos[d].benched && r.todos[d].benched.Some?
      && !r.quit && r.showBenched
  {
    ViewSpec(todos, true);
    var d := View(todos, true)[DecimalValue(input) - 1];
    assert d in View(todos, true);
  }

  /** One turn of `main` against the list file: the view is recomputed,
      the line is dispatched, and the file is changed as `Step` says. */
  method MainStep(file: TodoFile, showBenched: bool, input: string, now: int)
    returns (nextShowBenched: bool, quit: bool)
    modifies file
    ensures var r := Step(old(file.todos), showBenched, input, now);
      file.todos == r.todos && nextShowBenched == r.showBenched && quit == r.quit
  {
    var displayed := DisplayTodos(file.todos, showBenched);
    nextShowBenched, quit := showBenched, false;
    match Classify(input)
    case Quit =>
      quit := true;
    case ToggleView =>
      nextShowBenched := !showBenched;
    case Complete(index) =>
      var _ := file.MarkTodoComplete(index, displayed, now);
    case Bench(index) =>
      var _ := file.BenchTodoItem(index, displayed, now);
    case BadBench =>
    case Add(task) =>
      file.AddTodo(task, now);
  }
}
