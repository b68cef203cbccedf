/** The report's aggregation: one pass over every task of every category,
    counting completions per date and adding up `time_spent` per category and
    per task text. */
module Stats {
  import opened Todo
  import opened MapSums

  /** A task as the report visits it, with the category it is listed under. */
  datatype Entry = Entry(category: string, task: Task)

  function Tag(name: string, tasks: seq<Task>): seq<Entry>
  {
    seq(|tasks|, i requires 0 <= i < |tasks| => Entry(name, tasks[i]))
  }

  /** Every task of the document, category by category in the dictionary's
      order, each category's tasks in list order. */
  function Entries(categories: seq<(string, seq<Task>)>): seq<Entry>
    decreases |categories|
  {
    if categories == [] then []
    else
      var n := |categories| - 1;
      Entries(categories[..n]) + Tag(categories[n].0, categories[n].1)
  }

  lemma EntriesStep(categories: seq<(string, seq<Task>)>, i: nat)
    requires i < |categories|
    ensures Entries(categories[..i + 1]) == Entries(categories[..i]) + Tag(categories[i].0, categories[i].1)
  {
    assert categories[..i + 1][..i] == categories[..i];
  }

  lemma TagStep(name: string, tasks: seq<Task>, j: nat)
    requires j < |tasks|
    ensures Tag(name, tasks[..j + 1]) == Tag(name, tasks[..j]) + [Entry(name, tasks[j])]
  {
  }

  /** `task.get("time_spent")` is truthy: present and not zero. */
  predicate Timed(t: Task)
  {
    t.timeSpent.Some? && t.timeSpent.value != 0
  }

  /** How many entries were completed on date `d`. */
  function CompletedOn(es: seq<Entry>, dateOf: int -> int, d: int): nat
    decreases |es|
  {
    if es == [] then 0
    else
      var n := |es| - 1;
      var c := es[n].task.completed;
      CompletedOn(es[..n], dateOf, d) + (if c.Some? && dateOf(c.value) == d then 1 else 0)
  }

  /** How many entries are completed at all. */
  function CompletedCount(es: seq<Entry>): nat
    decreases |es|
  {
    if es == [] then 0
    else
      var n := |es| - 1;
      CompletedCount(es[..n]) + (if es[n].task.completed.Some? then 1 else 0)
  }

  /** Whether category `c` has an entry with non-zero time. */
  predicate CategoryTimed(es: seq<Entry>, c: string)
    decreases |es|
  {
    if es == [] then false
    else
      var n := |es| - 1;
      CategoryTimed(es[..n], c) || (es[n].category == c && Timed(es[n].task))
  }

  /** The non-zero times of the entries of category `c`, added up. */
  function CategoryTime(es: seq<Entry>, c: string): int
    decreases |es|
  {
    if es == [] then 0
    else
      var n := |es| - 1;
      CategoryTime(es[..n], c) + (if es[n].category == c && Timed(es[n].task) then es[n].task.timeSpent.value else 0)
  }

  /** A category without a timed entry has no time. */
  lemma {:induction false} UntimedCategoryHasNoTime(es: seq<Entry>, c: string)
    requires !CategoryTimed(es, c)
    ensures CategoryTime(es, c) == 0
    decreases |es|
  {
    if es != [] {
      UntimedCategoryHasNoTime(es[..|es| - 1], c);
    }
  }

  /** All non-zero times, added up. */
  function TotalTime(es: seq<Entry>): int
    decreases |es|
  {
    if es == [] then 0
    else
      var n := |es| - 1;
      TotalTime(es[..n]) + (if Timed(es[n].task) then es[n].task.timeSpent.value else 0)
  }

  /** The time of the last timed entry whose text is `name`. */
  function LastTime(es: seq<Entry>, name: string): Option<int>
    decreases |es|
  {
    if es == [] then None
    else
      var n := |es| - 1;
      if es[n].task.text == name && Timed(es[n].task) then Some(es[n].task.timeSpent.value)
      else LastTime(es[..n], name)
  }

  /** The per-date map holds exactly the dates with a completion, each with
      its number of completions; its values add up to the number of
      completed tasks. */
  ghost predicate DatesTallied(es: seq<Entry>, dateOf: int -> int, completedOn: map<int, int>)
  {
    && (forall d :: d in completedOn <==> CompletedOn(es, dateOf, d) > 0)
    && (forall d :: d in completedOn ==> completedOn[d] == CompletedOn(es, dateOf, d))
    && MapSum(completedOn) == CompletedCount(es)
  }

  /** The per-category map holds exactly the categories with a timed task,
      each with its total; its values add up to the total time. */
  ghost predicate CategoriesTallied(es: seq<Entry>, perCategory: map<string, int>)
  {
    && (forall c :: c in perCategory <==> CategoryTimed(es, c))
    && (forall c :: c in perCategory ==> perCategory[c] == CategoryTime(es, c))
    && MapSum(perCategory) == TotalTime(es)
  }

  /** The per-task map holds, for each text with a timed entry, the time of
      the last such entry. */
  ghost predicate TasksTallied(es: seq<Entry>, perTask: map<string, int>)
  {
    forall name :: (name in perTask <==> LastTime(es, name).Some?)
      && (name in perTask ==> LastTime(es, name) == Some(perTask[name]))
  }

  lemma DatesStep(es: seq<Entry>, e: Entry, dateOf: int -> int, completedOn: map<int, int>)
    requires DatesTallied(es, dateOf, completedOn)
    ensures e.task.completed.None? ==> DatesTallied(es + [e], dateOf, completedOn)
    ensures e.task.completed.Some? ==>
      var d := dateOf(e.task.completed.value);
      DatesTallied(es + [e], dateOf, completedOn[d := Get(completedOn, d) + 1])
  {
    assert (es + [e])[..|es|] == es;
    if e.task.completed.Some? {
      var d := dateOf(e.task.completed.value);
      MapSumBump(completedOn, d, 1);
    }
  }

  lemma CategoriesStep(es: seq<Entry>, e: Entry, perCategory: map<string, int>)
    requires CategoriesTallied(es, perCategory)
    ensures !Timed(e.task) ==> CategoriesTallied(es + [e], perCategory)
    ensures Timed(e.task) ==>
      var c, v := e.category, e.task.timeSpent.value;
      CategoriesTallied(es + [e], perCategory[c := Get(perCategory, c) + v])
  {
    var es' := es + [e];
    assert es'[..|es|] == es;
    if Timed(e.task) {
      var c, v := e.category, e.task.timeSpent.value;
      var perCategory' := perCategory[c := Get(perCategory, c) + v];
      MapSumBump(perCategory, c, v);
      if c !in perCategory {
        UntimedCategoryHasNoTime(es, c);
      }
    }
  }

  lemma TasksStep(es: seq<Entry>, e: Entry, perTask: map<string, int>)
    requires TasksTallied(es, perTask)
    ensures !Timed(e.task) ==> TasksTallied(es + [e], perTask)
    ensures Timed(e.task) ==> TasksTallied(es + [e], perTask[e.task.text := e.task.timeSpent.value])
  {
    assert (es + [e])[..|es|] == es;
  }

  /** The three dictionaries `process_data` fills. */
  datatype Tallies = Tallies(perCategory: map<string, int>, perTask: map<string, int>, completedOn: map<int, int>)

  /** What one turn of the inner loop does to the dictionaries. */
  function Absorb(t: Tallies, e: Entry, dateOf: int -> int): Tallies
  {
    var task := e.task;
    var completedOn :=
      if task.completed.Some? then
        var d := dateOf(task.completed.value);
        t.completedOn[d := Get(t.completedOn, d) + 1]
      else t.completedOn;
    if Timed(task) then
      Tallies(t.perCategory[e.category := Get(t.perCategory, e.category) + task.timeSpent.value],
              t.perTask[task.text := task.timeSpent.value],
              completedOn)
    else
      Tallies(t.perCategory, t.perTask, completedOn)
  }

  /** The dictionaries after visiting `es` in order, starting empty. */
  function Tally(es: seq<Entry>, dateOf: int -> int): Tallies
    decreases |es|
  {
    if es == [] then Tallies(map[], map[], map[])
    else
      var n := |es| - 1;
      Absorb(Tally(es[..n], dateOf), es[n], dateOf)
  }

  lemma TallyAppend(es: seq<Entry>, e: Entry, dateOf: int -> int)
    ensures Tally(es + [e], dateOf) == Absorb(Tally(es, dateOf), e, dateOf)
  {
    assert (es + [e])[..|es|] == es;
  }

  /** The three tallies of `es` hold what `process_data` promises. */
  ghost predicate Tallied(es: seq<Entry>, dateOf: int -> int, t: Tallies)
  {
    DatesTallied(es, dateOf, t.completedOn) && CategoriesTallied(es, t.perCategory) && TasksTallied(es, t.perTask)
  }

  /** Folding the entries in order yields exact tallies. */
  lemma {:induction false} TallyIsExact(es: seq<Entry>, dateOf: int -> int)
    ensures Tallied(es, dateOf, Tally(es, dateOf))
    decreases |es|
  {
    if es != [] {
      var n := |es| - 1;
      var t := Tally(es[..n], dateOf);
      TallyIsExact(es[..n], dateOf);
      assert es[..n] + [es[n]] == es;
      DatesStep(es[..n], es[n], dateOf, t.completedOn);
      CategoriesStep(es[..n], es[n], t.perCategory);
      TasksStep(es[..n], es[n], t.perTask);
    }
  }

  /** The body of the inner loop of `process_data`: one task of category
      `subcategory` added to the dictionaries. */
  method AbsorbTask(subcategory: string, task: Task, dateOf: int -> int,
                    perCategory0: map<string, int>, perTask0: map<string, int>, completedOn0: map<int, int>)
    returns (perCategory: map<string, int>, perTask: map<string, int>, completedOn: map<int, int>)
    ensures Tallies(perCategory, perTask, completedOn)
      == Absorb(Tallies(perCategory0, perTask0, completedOn0), Entry(subcategory, task), dateOf)
  {
    perCategory, perTask, completedOn := perCategory0, perTask0, completedOn0;
    if task.completed.Some? {
      var completedDate := dateOf(task.completed.value);
      completedOn := completedOn[completedDate := Get(completedOn, completedDate) + 1];
    }
    if task.timeSpent.Some? && task.timeSpent.value != 0 {
      perCategory := perCategory[subcategory := Get(perCategory, subcategory) + task.timeSpent.value];
      perTask := perTask[task.text := task.timeSpent.value];
    }
  }

  /** The inner loop of `process_data`: visits the tasks of one category in
      order, adding each to the dictionaries. */
  method TallyCategory(subcategory: string, tasks: seq<Task>, dateOf: int -> int,
                       perCategory0: map<string, int>, perTask0: map<string, int>, completedOn0: map<int, int>,
                       ghost before: seq<Entry>)
    returns (perCategory: map<string, int>, perTask: map<string, int>, completedOn: map<int, int>)
    requires Tallies(perCategory0, perTask0, completedOn0) == Tally(before, dateOf)
    ensures Tallies(perCategory, perTask, completedOn) == Tally(before + Tag(subcategory, tasks), dateOf)
  {
    perCategory, perTask, completedOn := perCategory0, perTask0, completedOn0;
    ghost var seen := before;
    for j := 0 to |tasks|
      invariant seen == before + Tag(subcategory, tasks[..j])
      invariant Tallies(perCategory, perTask, completedOn) == Tally(seen, dateOf)
    {
      var task := tasks[j];
      ghost var e := Entry(subcategory, task);
      TallyAppend(seen, e, dateOf);
      TagStep(subcategory, tasks, j);
      perCategory, perTask, completedOn := AbsorbTask(subcategory, task, dateOf, perCategory, perTask, completedOn);
      seen := seen + [e];
    }
    assert tasks[..|tasks|] == tasks;
  }

  /** `process_data`: the per-category totals, the per-task times and the
      per-date completion counts of the whole document. */
  method ProcessData(categories: seq<(string, seq<Task>)>, dateOf: int -> int)
    returns (perCategory: map<string, int>, perTask: map<string, int>, completedOn: map<int, int>)
    ensures Tallies(perCategory, perTask, completedOn) == Tally(Entries(categories), dateOf)
    ensures DatesTallied(Entries(categories), dateOf, completedOn)
    ensures CategoriesTallied(Entries(categories), perCategory)
    ensures TasksTallied(Entries(categories), perTask)
  {
    perCategory, perTask, completedOn := map[], map[], map[];
    for i := 0 to |categories|
      invariant Tallies(perCategory, perTask, completedOn) == Tally(Entries(categories[..i]), dateOf)
    {
      var (subcategory, tasks) := categories[i];
      EntriesStep(categories, i);
      perCategory, perTask, completedOn :=
        TallyCategory(subcategory, tasks, dateOf, perCategory, perTask, completedOn, Entries(categories[..i]));
    }
    assert categories[..|categories|] == categories;
    TallyIsExact(Entries(categories), dateOf);
  }
}
