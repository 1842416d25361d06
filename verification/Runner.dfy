/** The benchmark runner: the grid, the dispatch loop, and resuming after a cap or an interrupt. */
module Runner {
  import opened Actions
  import opened Phrases

  datatype Item = Item(id: string, refSlice: bool)
  datatype Cell = Cell(item: string, task: string, model: string, version: string)
  datatype Status = Completed | AbortedCostCap | Interrupted
  datatype Entry = Entry(cell: Cell, status: Status)

  /** Everything a run is over. */
  datatype Grid = Grid(items: seq<Item>, tasks: seq<string>, models: seq<string>, versions: map<string, string>)

  predicate IsDistinct<T(==)>(s: seq<T>) { forall i, j | 0 <= i < j < |s| :: s[i] != s[j] }

  function VersionOf(versions: map<string, string>, task: string): string {
    if task in versions then versions[task] else "v1"
  }

  /** Reference-resolution slices count for that task only, and it for them only. */
  predicate Fits(item: Item, task: string) { item.refSlice == (task == "reference_resolution") }

  predicate HasItem(items: seq<Item>, id: string, task: string) {
    exists i | 0 <= i < |items| :: items[i].id == id && Fits(items[i], task)
  }

  /** A cell of the full admissible grid. */
  predicate IsAdmissible(g: Grid, c: Cell) {
    && HasItem(g.items, c.item, c.task) && c.task in g.tasks && c.model in g.models
    && c.version == VersionOf(g.versions, c.task)
  }

  predicate IsProper(g: Grid) {
    && IsDistinct(g.tasks) && IsDistinct(g.models)
    && forall i, j | 0 <= i < j < |g.items| :: g.items[i].id != g.items[j].id
  }

  // ----- `_build_grid` -----

  function ModelCells(id: string, task: string, version: string, models: seq<string>, done: set<Cell>): seq<Cell> {
    if |models| == 0 then []
    else
      var c := Cell(id, task, models[|models| - 1], version);
      ModelCells(id, task, version, models[..|models| - 1], done) + if c in done then [] else [c]
  }

  function TaskCells(item: Item, tasks: seq<string>, g: Grid, done: set<Cell>): seq<Cell> {
    if |tasks| == 0 then []
    else
      var t := tasks[|tasks| - 1];
      TaskCells(item, tasks[..|tasks| - 1], g, done) +
      if Fits(item, t) then ModelCells(item.id, t, VersionOf(g.versions, t), g.models, done) else []
  }

  function ItemCells(items: seq<Item>, g: Grid, done: set<Cell>): seq<Cell> {
    if |items| == 0 then []
    else ItemCells(items[..|items| - 1], g, done) + TaskCells(items[|items| - 1], g.tasks, g, done)
  }

  function Cells(g: Grid, done: set<Cell>): seq<Cell> { ItemCells(g.items, g, done) }

  lemma Snoc<T>(s: seq<T>, x: T)
    requires |s| > 0
    ensures x in s <==> x in s[..|s| - 1] || x == s[|s| - 1]
  {
    assert s == s[..|s| - 1] + [s[|s| - 1]];
  }

  lemma {:induction false} ModelCellsAre(id: string, task: string, version: string, models: seq<string>,
        done: set<Cell>, c: Cell)
    ensures c in ModelCells(id, task, version, models, done) <==>
            c.item == id && c.task == task && c.version == version && c.model in models && c !in done
  {
    if |models| > 0 {
      ModelCellsAre(id, task, version, models[..|models| - 1], done, c);
      Snoc(models, c.model);
    }
  }

  lemma {:induction false} TaskCellsAre(item: Item, tasks: seq<string>, g: Grid, done: set<Cell>, c: Cell)
    ensures c in TaskCells(item, tasks, g, done) <==>
            c.item == item.id && Fits(item, c.task) && c.task in tasks && c.version == VersionOf(g.versions, c.task)
            && c.model in g.models && c !in done
  {
    if |tasks| > 0 {
      var t := tasks[|tasks| - 1];
      TaskCellsAre(item, tasks[..|tasks| - 1], g, done, c);
      ModelCellsAre(item.id, t, VersionOf(g.versions, t), g.models, done, c);
      Snoc(tasks, c.task);
    }
  }

  lemma HasItemSnoc(items: seq<Item>, id: string, task: string)
    requires |items| > 0
    ensures HasItem(items, id, task) <==>
            HasItem(items[..|items| - 1], id, task) || (items[|items| - 1].id == id && Fits(items[|items| - 1], task))
  {
    if HasItem(items, id, task) {
      var i :| 0 <= i < |items| && items[i].id == id && Fits(items[i], task);
      if i < |items| - 1 { assert items[..|items| - 1][i].id == id; }
    }
  }

  lemma {:induction false} ItemCellsAre(items: seq<Item>, g: Grid, done: set<Cell>, c: Cell)
    ensures c in ItemCells(items, g, done) <==>
            HasItem(items, c.item, c.task) && c.task in g.tasks && c.version == VersionOf(g.versions, c.task)
            && c.model in g.models && c !in done
  {
    if |items| > 0 {
      ItemCellsAre(items[..|items| - 1], g, done, c);
      TaskCellsAre(items[|items| - 1], g.tasks, g, done, c);
      HasItemSnoc(items, c.item, c.task);
    }
  }

  /** The grid is the admissible cells that are not done. */
  lemma CellsAreTheGrid(g: Grid, done: set<Cell>, c: Cell)
    ensures c in Cells(g, done) <==> IsAdmissible(g, c) && c !in done
  {
    ItemCellsAre(g.items, g, done, c);
  }

  lemma DistinctConcat<T>(a: seq<T>, b: seq<T>)
    requires IsDistinct(a) && IsDistinct(b) && forall x | x in a :: x !in b
    ensures IsDistinct(a + b)
  {
    forall i, j | 0 <= i < j < |a + b| ensures (a + b)[i] != (a + b)[j] {
      if i < |a| <= j { assert a[i] in a && b[j - |a|] in b; }
    }
  }

  lemma LastIsNew<T>(s: seq<T>)
    requires IsDistinct(s) && |s| > 0
    ensures s[|s| - 1] !in s[..|s| - 1] && IsDistinct(s[..|s| - 1])
  {
  }

  lemma {:induction false} ModelCellsDistinct(id: string, task: string, version: string, models: seq<string>,
        done: set<Cell>)
    requires IsDistinct(models)
    ensures IsDistinct(ModelCells(id, task, version, models, done))
  {
    if |models| > 0 {
      LastIsNew(models);
      var front, c := models[..|models| - 1], Cell(id, task, models[|models| - 1], version);
      ModelCellsDistinct(id, task, version, front, done);
      ModelCellsAre(id, task, version, front, done, c);
      DistinctConcat(ModelCells(id, task, version, front, done), if c in done then [] else [c]);
    }
  }

  lemma {:induction false} TaskCellsDistinct(item: Item, tasks: seq<string>, g: Grid, done: set<Cell>)
    requires IsDistinct(tasks) && IsDistinct(g.models)
    ensures IsDistinct(TaskCells(item, tasks, g, done))
  {
    if |tasks| > 0 {
      LastIsNew(tasks);
      var front, t := tasks[..|tasks| - 1], tasks[|tasks| - 1];
      var more := ModelCells(item.id, t, VersionOf(g.versions, t), g.models, done);
      TaskCellsDistinct(item, front, g, done);
      ModelCellsDistinct(item.id, t, VersionOf(g.versions, t), g.models, done);
      forall c | c in TaskCells(item, front, g, done) ensures c !in more {
        TaskCellsAre(item, front, g, done, c);
        ModelCellsAre(item.id, t, VersionOf(g.versions, t), g.models, done, c);
      }
      DistinctConcat(TaskCells(item, front, g, done), if Fits(item, t) then more else []);
    }
  }

  lemma {:induction false} ItemCellsDistinct(items: seq<Item>, g: Grid, done: set<Cell>)
    requires IsDistinct(g.tasks) && IsDistinct(g.models)
    requires forall i, j | 0 <= i < j < |items| :: items[i].id != items[j].id
    ensures IsDistinct(ItemCells(items, g, done))
  {
    if |items| > 0 {
      var front, item := items[..|items| - 1], items[|items| - 1];
      ItemCellsDistinct(front, g, done);
      TaskCellsDistinct(item, g.tasks, g, done);
      forall c | c in ItemCells(front, g, done) ensures c !in TaskCells(item, g.tasks, g, done) {
        ItemCellsAre(front, g, done, c);
        TaskCellsAre(item, g.tasks, g, done, c);
      }
      DistinctConcat(ItemCells(front, g, done), TaskCells(item, g.tasks, g, done));
    }
  }

  /** The nested loops: nothing admissible is missed, nothing else is there, and with distinct item
      ids, tasks and models no cell comes twice. */
  method BuildGrid(g: Grid, done: set<Cell>) returns (cells: seq<Cell>)
    ensures cells == Cells(g, done)
    ensures forall c :: c in cells <==> IsAdmissible(g, c) && c !in done
    ensures IsProper(g) ==> IsDistinct(cells)
  {
    hide IsAdmissible, Fits;
    cells := [];
    for i := 0 to |g.items|
      invariant cells == ItemCells(g.items[..i], g, done)
    {
      var item := g.items[i];
      assert g.items[..i + 1][..i] == g.items[..i];
      var row := TaskLoop(item, g, done);
      cells := cells + row;
    }
    assert g.items[..|g.items|] == g.items;
    forall c ensures c in cells <==> IsAdmissible(g, c) && c !in done { CellsAreTheGrid(g, done, c); }
    if IsProper(g) { ItemCellsDistinct(g.items, g, done); }
  }

  method TaskLoop(item: Item, g: Grid, done: set<Cell>) returns (cells: seq<Cell>)
    ensures cells == TaskCells(item, g.tasks, g, done)
  {
    cells := [];
    for j := 0 to |g.tasks|
      invariant cells == TaskCells(item, g.tasks[..j], g, done)
    {
      var task := g.tasks[j];
      assert g.tasks[..j + 1][..j] == g.tasks[..j];
      if item.refSlice && task != "reference_resolution" { continue; }
      if !item.refSlice && task == "reference_resolution" { continue; }
      var row := ModelLoop(item.id, task, VersionOf(g.versions, task), g.models, done);
      cells := cells + row;
    }
    assert g.tasks[..|g.tasks|] == g.tasks;
  }

  method ModelLoop(id: string, task: string, version: string, models: seq<string>, done: set<Cell>)
    returns (cells: seq<Cell>)
    ensures cells == ModelCells(id, task, version, models, done)
  {
    cells := [];
    for k := 0 to |models|
      invariant cells == ModelCells(id, task, version, models[..k], done)
    {
      var c := Cell(id, task, models[k], version);
      assert models[..k + 1][..k] == models[..k];
      if c in done { continue; }
      cells := cells + [c];
    }
    assert models[..|models|] == models;
  }

  // ----- one invocation -----

  /** How an invocation ends: with a code, refused before anything is dispatched, or by an exception. */
  datatype Exit = Code(code: int) | Refused | Raised

  /** The cost gate: below the threshold or confirmed, declined at the prompt, or unpriced. */
  datatype Gate = Passes | Declined | Unpriced

  datatype Args =
    | New(tasks: Option<seq<string>>, models: Option<seq<string>>)
    | Resume(tasks: Option<seq<string>>, models: Option<seq<string>>)

  /** What comes with a dispatched cell: the cost cap is reached, an interrupt arrives by the end of the
      dispatch, or one arrives while its row is being recorded. */
  datatype Answer = Answer(cap: bool, sigint: bool, late: bool)

  predicate Stops(a: Answer) { a.cap || a.sigint || a.late }

  /** A late interrupt does not reach the row. */
  function StatusOf(a: Answer): Status {
    if a.sigint then Interrupted else if a.cap then AbortedCostCap else Completed
  }

  datatype Outcome = Outcome(entries: seq<Entry>, exit: Exit)

  /** `_build_content` knows how to put the task's question; for any other it raises. */
  predicate HasShape(task: string) {
    task == "draft_reply" || task == "" || task == "coarse_class" || task == "sensitivity_class" ||
    task == "fine_class" || task == "summary_short" || task == "importance_scoring" || task == "action_extraction"
  }

  function CellsOf(entries: seq<Entry>): (cells: seq<Cell>)
    ensures |cells| == |entries| && forall i | 0 <= i < |entries| :: cells[i] == entries[i].cell
  {
    seq(|entries|, i requires 0 <= i < |entries| => entries[i].cell)
  }

  /** The dispatch loop from its `i`-th cell on. */
  function Dispatch(entries: seq<Entry>, cells: seq<Cell>, answers: nat -> Answer, i: nat): Outcome
    requires i <= |cells|
    decreases |cells| - i
  {
    if i == |cells| then Outcome(entries, Code(0))
    else if !HasShape(cells[i].task) || cells[i] in CellsOf(entries) then Outcome(entries, Raised)
    else
      var a := answers(i);
      var more := entries + [Entry(cells[i], StatusOf(a))];
      if a.cap then Outcome(more, Code(2))
      else if a.sigint || a.late then Outcome(more, Code(130))
      else Dispatch(more, cells, answers, i + 1)
  }

  // ----- `sorted` of a set of recorded names -----

  function SortedNames(names: seq<string>): (s: seq<string>)
    ensures forall t :: t in s <==> t in names
  {
    if names == [] then []
    else
      var x, rest := names[|names| - 1], SortedNames(names[..|names| - 1]);
      assert forall t :: t in names <==> t in names[..|names| - 1] || t == x;
      if x in rest then rest
      else
        var s := Insert(x, rest);
        assert forall t :: t in s <==> t in multiset(s);
        assert forall t :: t in rest <==> t in multiset(rest);
        s
  }

  lemma {:induction false} NamesAreSorted(names: seq<string>)
    ensures IsSorted(SortedNames(names)) && IsDistinct(SortedNames(names))
  {
    if names != [] {
      var x, rest := names[|names| - 1], SortedNames(names[..|names| - 1]);
      NamesAreSorted(names[..|names| - 1]);
      if x !in rest {
        InsertSorted(x, rest);
        InsertDistinct(x, rest);
      }
    }
  }

  lemma {:induction false} InsertDistinct(x: string, s: seq<string>)
    requires IsDistinct(s) && x !in s
    ensures IsDistinct(Insert(x, s))
  {
    if s != [] && !TextAtMost(x, s[0]) {
      InsertDistinct(x, s[1..]);
      var r := Insert(x, s[1..]);
      forall j | 0 <= j < |r| ensures r[j] != s[0] {
        assert r[j] in multiset(r);
        if r[j] != x { assert r[j] in s[1..]; }
      }
    }
  }

  function Tasks(cells: seq<Cell>): (names: seq<string>)
    ensures |names| == |cells| && forall i | 0 <= i < |cells| :: names[i] == cells[i].task
  {
    seq(|cells|, i requires 0 <= i < |cells| => cells[i].task)
  }

  function Models(cells: seq<Cell>): (names: seq<string>)
    ensures |names| == |cells| && forall i | 0 <= i < |cells| :: names[i] == cells[i].model
  {
    seq(|cells|, i requires 0 <= i < |cells| => cells[i].model)
  }

  predicate SameNames(a: seq<string>, b: seq<string>) { (set t | t in a) == (set t | t in b) }

  /** `_run_async` refuses the arguments: a new run wants tasks and models, a resumption wants recorded
      rows and, where it names tasks or models, theirs. */
  predicate IsRefused(before: seq<Cell>, args: Args) {
    match args
    case New(tasks, models) => tasks.None? || models.None?
    case Resume(tasks, models) =>
      || before == []
      || (tasks.Some? && !SameNames(tasks.value, Tasks(before)))
      || (models.Some? && !SameNames(models.value, Models(before)))
  }

  /** The grid of an invocation that is not refused: as asked for, or over the recorded rows' tasks and
      models. */
  function GridOf(before: seq<Cell>, args: Args, items: seq<Item>, versions: map<string, string>): Grid
    requires !IsRefused(before, args)
  {
    match args
    case New(tasks, models) => Grid(items, tasks.value, models.value, versions)
    case Resume(_, _) => Grid(items, SortedNames(Tasks(before)), SortedNames(Models(before)), versions)
  }

  function DoneOf(before: seq<Cell>, args: Args): set<Cell> {
    if args.Resume? then set c | c in before else {}
  }

  /** What one invocation does to the recorded rows, and how it ends. */
  function Invoke(
      before: seq<Entry>, args: Args, items: seq<Item>, versions: map<string, string>, gate: Gate,
      answers: nat -> Answer)
    : Outcome
  {
    if IsRefused(CellsOf(before), args) then Outcome(before, Refused)
    else
      var cells := Cells(GridOf(CellsOf(before), args, items, versions), DoneOf(CellsOf(before), args));
      if cells == [] then Outcome(before, Code(0))
      else match gate
        case Unpriced => Outcome(before, Refused)
        case Declined => Outcome(before, Code(0))
        case Passes => Dispatch(before, cells, answers, 0)
  }

  class RunTable {
    var entries: seq<Entry>

    function Recorded(): seq<Cell>
      reads this
    {
      CellsOf(entries)
    }

    /** `record_benchmark_run`: the table's unique key refuses a cell it has. */
    method Record(c: Cell, status: Status) returns (raised: bool)
      modifies this
      ensures raised <==> c in old(Recorded())
      ensures if raised then entries == old(entries) else entries == old(entries) + [Entry(c, status)]
    {
      raised := false;
      for i := 0 to |entries|
        invariant entries == old(entries) && forall j | 0 <= j < i :: entries[j].cell != c
      {
        if entries[i].cell == c { return true; }
      }
      entries := entries + [Entry(c, status)];
    }

    /** `_run_dispatch_loop` */
    method RunDispatchLoop(cells: seq<Cell>, answers: nat -> Answer) returns (exit: Exit)
      modifies this
      ensures Outcome(entries, exit) == Dispatch(old(entries), cells, answers, 0)
    {
      var sigint := false;
      for i := 0 to |cells|
        invariant !sigint && Dispatch(old(entries), cells, answers, 0) == Dispatch(entries, cells, answers, i)
      {
        if !HasShape(cells[i].task) { return Raised; }
        var a := answers(i);
        sigint := sigint || a.sigint;
        var status := if sigint then Interrupted else if a.cap then AbortedCostCap else Completed;
        var raised := Record(cells[i], status);
        if raised { return Raised; }
        sigint := sigint || a.late;
        if a.cap { return Code(2); }
        if sigint { return Code(130); }
      }
      return Code(0);
    }

    /** `_run_async` */
    method RunAsync(args: Args, items: seq<Item>, versions: map<string, string>, gate: Gate, answers: nat -> Answer)
      returns (exit: Exit)
      modifies this
      ensures Outcome(entries, exit) == Invoke(old(entries), args, items, versions, gate, answers)
    {
      hide Cells, Dispatch, HasShape;
      var done: set<Cell> := {};
      var tasks, models: seq<string> := [], [];
      if args.Resume? {
        done := set c | c in Recorded();
        if entries == [] { return Refused; }
        tasks, models := Tasks(Recorded()), Models(Recorded());
        if args.tasks.Some? && !SameNames(args.tasks.value, tasks) { return Refused; }
        if args.models.Some? && !SameNames(args.models.value, models) { return Refused; }
        tasks, models := SortedNames(tasks), SortedNames(models);
      } else {
        if args.tasks.None? || args.models.None? { return Refused; }
        tasks, models := args.tasks.value, args.models.value;
      }
      var cells := BuildGrid(Grid(items, tasks, models, versions), done);
      if cells == [] { return Code(0); }
      if gate.Unpriced? { return Refused; }
      if gate.Declined? { return Code(0); }
      exit := RunDispatchLoop(cells, answers);
    }
  }

  // ----- what the loop does -----

  /** An interrupt in time, the cap without one, and otherwise, even if an interrupt comes late, completed. */
  predicate IsStatusFor(s: Status, a: Answer) {
    && (s.Interrupted? <==> a.sigint) && (s.AbortedCostCap? <==> a.cap && !a.sigint)
    && (s.Completed? <==> !a.cap && !a.sigint)
  }

  /** The `k`-th row is the next cell's, with the status its answer calls for; nothing but the last
      stopped the loop. */
  predicate IsRecordedAt(
      before: seq<Entry>, cells: seq<Cell>, answers: nat -> Answer, i: nat, after: seq<Entry>, k: nat)
    requires |before| <= k < |after| <= |before| + |cells| - i
  {
    var j := i + k - |before|;
    && after[k].cell == cells[j] && IsStatusFor(after[k].status, answers(j)) && HasShape(cells[j].task)
    && (k < |after| - 1 ==> !answers(j).cap && !answers(j).sigint && !answers(j).late)
  }

  /** It records a prefix of the cells. */
  predicate IsPrefixRecorded(before: seq<Entry>, cells: seq<Cell>, answers: nat -> Answer, i: nat, after: seq<Entry>)
    requires i <= |cells|
  {
    && |before| <= |after| <= |before| + |cells| - i && after[..|before|] == before
    && forall k: nat | |before| <= k < |after| :: IsRecordedAt(before, cells, answers, i, after, k)
  }

  /** Exits of the loop, and what each means: everything recorded and nothing in the way; the cap; an
      interrupt, in time to mark its row or too late for it; or a cell that cannot be put or is there. */
  predicate IsExitOf(before: seq<Entry>, cells: seq<Cell>, answers: nat -> Answer, i: nat, out: Outcome)
    requires i <= |cells|
  {
    var n := |out.entries| - |before|;
    && 0 <= n <= |cells| - i
    && match out.exit
       case Code(code) =>
         if code == 0 then n == |cells| - i && (n > 0 ==> !Stops(answers(i + n - 1)))
         else
           && n > 0
           && var a := answers(i + n - 1);
              (a.cap || a.sigint || a.late) && (code == 2 <==> a.cap) && (code == 130 <==> !a.cap)
       case Raised =>
         && (n > 0 ==> !Stops(answers(i + n - 1)))
         && i + n < |cells| && (!HasShape(cells[i + n].task) || cells[i + n] in CellsOf(out.entries))
       case Refused => false
  }

  lemma {:induction false} DispatchRecords(before: seq<Entry>, cells: seq<Cell>, answers: nat -> Answer, i: nat)
    requires i <= |cells|
    ensures var out := Dispatch(before, cells, answers, i);
            && IsPrefixRecorded(before, cells, answers, i, out.entries)
            && IsExitOf(before, cells, answers, i, out)
            && (IsDistinct(CellsOf(before)) ==> IsDistinct(CellsOf(out.entries)))
    decreases |cells| - i
  {
    hide HasShape;
    if i < |cells| && HasShape(cells[i].task) && cells[i] !in CellsOf(before) {
      var more := before + [Entry(cells[i], StatusOf(answers(i)))];
      OneMoreCell(before, Entry(cells[i], StatusOf(answers(i))));
      if !Stops(answers(i)) {
        DispatchRecords(more, cells, answers, i + 1);
        Shift(before, cells, answers, i, Dispatch(more, cells, answers, i + 1));
      }
    }
  }

  lemma OneMoreCell(before: seq<Entry>, e: Entry)
    requires e.cell !in CellsOf(before)
    ensures IsDistinct(CellsOf(before)) ==> IsDistinct(CellsOf(before + [e]))
  {
    assert CellsOf(before + [e]) == CellsOf(before) + [e.cell];
  }

  lemma Shift(before: seq<Entry>, cells: seq<Cell>, answers: nat -> Answer, i: nat, out: Outcome)
    requires i < |cells| && HasShape(cells[i].task) && !Stops(answers(i))
    requires var more := before + [Entry(cells[i], StatusOf(answers(i)))];
             IsPrefixRecorded(more, cells, answers, i + 1, out.entries) && IsExitOf(more, cells, answers, i + 1, out)
    ensures IsPrefixRecorded(before, cells, answers, i, out.entries) && IsExitOf(before, cells, answers, i, out)
  {
    hide HasShape;
    var after := out.entries;
    var more := before + [Entry(cells[i], StatusOf(answers(i)))];
    assert after[..|before|] == after[..|more|][..|before|] == before;
    assert after[|before|] == after[..|more|][|before|];
    forall k: nat | |before| <= k < |after| ensures IsRecordedAt(before, cells, answers, i, after, k) {
      if k > |before| { assert IsRecordedAt(more, cells, answers, i + 1, after, k); }
    }
  }

  // ----- what an invocation does -----

  predicate HasTask(cells: seq<Cell>, t: string) { exists i | 0 <= i < |cells| :: cells[i].task == t }
  predicate HasModel(cells: seq<Cell>, m: string) { exists i | 0 <= i < |cells| :: cells[i].model == m }

  /** What the laws below need of an invocation that is not refused at its arguments. */
  ghost predicate IsRun(before: seq<Cell>, g: Grid, after: seq<Cell>, exit: Exit, gate: Gate) {
    && before <= after && (IsDistinct(before) ==> IsDistinct(after))
    && (forall i | |before| <= i < |after| :: IsAdmissible(g, after[i]) && HasShape(after[i].task))
    && (exit == Code(0) && !gate.Declined? ==> forall c | IsAdmissible(g, c) :: c in after)
  }

  lemma InvokeIsRun(
      before: seq<Entry>, args: Args, items: seq<Item>, versions: map<string, string>, gate: Gate,
      answers: nat -> Answer)
    requires !IsRefused(CellsOf(before), args)
    ensures var out := Invoke(before, args, items, versions, gate, answers);
            IsRun(CellsOf(before), GridOf(CellsOf(before), args, items, versions), CellsOf(out.entries), out.exit, gate)
  {
    hide IsAdmissible, HasShape, IsDistinct, Dispatch, Cells;
    var was := CellsOf(before);
    var g, done := GridOf(was, args, items, versions), DoneOf(was, args);
    var cells, out := Cells(g, done), Invoke(before, args, items, versions, gate, answers);
    forall c ensures c in cells <==> IsAdmissible(g, c) && c !in done { CellsAreTheGrid(g, done, c); }
    if cells == [] {
      forall c | IsAdmissible(g, c) ensures c in was { assert c in done; }
    } else if gate.Passes? {
      DispatchRecords(before, cells, answers, 0);
      RecordedCells(before, cells, answers, out.entries);
      var n := |out.entries| - |before|;
      forall i | |was| <= i < |CellsOf(out.entries)|
        ensures IsAdmissible(g, CellsOf(out.entries)[i]) && HasShape(CellsOf(out.entries)[i].task)
      {
        assert IsRecordedAt(before, cells, answers, 0, out.entries, i) && cells[i - |before|] in cells;
      }
      if out.exit == Code(0) {
        assert cells[..n] == cells;
        forall c | IsAdmissible(g, c) ensures c in CellsOf(out.entries) { assert c in done || c in cells; }
      }
    }
  }

  /** Without a confirmed gate, and where the arguments are refused, nothing is recorded: a declined gate
      ends well, an unpriced one is a refusal unless nothing is left to do. */
  lemma NothingWithoutTheGate(
      before: seq<Entry>, args: Args, items: seq<Item>, versions: map<string, string>, gate: Gate,
      answers: nat -> Answer)
    requires IsRefused(CellsOf(before), args) || !gate.Passes?
    ensures var out := Invoke(before, args, items, versions, gate, answers);
            && out.entries == before
            && (IsRefused(CellsOf(before), args) ==> out.exit == Refused)
            && (!IsRefused(CellsOf(before), args) && gate.Declined? ==> out.exit == Code(0))
            && (!IsRefused(CellsOf(before), args) && gate.Unpriced? ==>
                  (out.exit == Refused || out.exit == Code(0)) &&
                  (out.exit == Refused <==> exists c :: IsLeft(before, args, items, versions, c)))
  {
    hide IsAdmissible;
    if !IsRefused(CellsOf(before), args) {
      var g, done := GridOf(CellsOf(before), args, items, versions), DoneOf(CellsOf(before), args);
      var cells := Cells(g, done);
      forall c ensures c in cells <==> IsLeft(before, args, items, versions, c) { CellsAreTheGrid(g, done, c); }
      if cells != [] { assert cells[0] in cells; }
    }
  }

  /** A cell of the invocation's grid that a resumption has not recorded. */
  predicate IsLeft(before: seq<Entry>, args: Args, items: seq<Item>, versions: map<string, string>, c: Cell)
    requires !IsRefused(CellsOf(before), args)
  {
    IsAdmissible(GridOf(CellsOf(before), args, items, versions), c) && (args.Resume? ==> c !in CellsOf(before))
  }

  lemma RecordedCells(before: seq<Entry>, cells: seq<Cell>, answers: nat -> Answer, after: seq<Entry>)
    requires IsPrefixRecorded(before, cells, answers, 0, after)
    ensures CellsOf(after) == CellsOf(before) + cells[..|after| - |before|]
  {
    hide HasShape;
    forall k | 0 <= k < |before| ensures after[k] == before[k] { assert after[k] == after[..|before|][k]; }
    forall k | |before| <= k < |after| ensures after[k].cell == cells[k - |before|] {
      assert IsRecordedAt(before, cells, answers, 0, after, k);
    }
  }

  lemma ResumedGrid(before: seq<Cell>, args: Args, items: seq<Item>, versions: map<string, string>)
    requires args.Resume? && !IsRefused(before, args)
    ensures var g := GridOf(before, args, items, versions);
            (forall t :: t in g.tasks <==> HasTask(before, t)) && (forall m :: m in g.models <==> HasModel(before, m))
  {
    var tasks, models := Tasks(before), Models(before);
    forall t ensures t in tasks <==> HasTask(before, t) {
      if HasTask(before, t) { var i :| 0 <= i < |before| && before[i].task == t; assert tasks[i] == t; }
    }
    forall m ensures m in models <==> HasModel(before, m) {
      if HasModel(before, m) { var i :| 0 <= i < |before| && before[i].model == m; assert models[i] == m; }
    }
  }

  predicate SameTasks(named: seq<string>, cells: seq<Cell>) {
    && (forall t | t in named :: HasTask(cells, t))
    && forall i | 0 <= i < |cells| :: cells[i].task in named
  }

  predicate SameModels(named: seq<string>, cells: seq<Cell>) {
    && (forall m | m in named :: HasModel(cells, m))
    && forall i | 0 <= i < |cells| :: cells[i].model in named
  }

  /** A new run is refused exactly if tasks or models are not given; a resumption exactly if nothing is
      recorded, or it names other tasks or models than the recorded rows have, in whatever order and however
      often. */
  lemma RefusedIff(before: seq<Cell>, args: Args)
    ensures IsRefused(before, args) <==>
            if args.New? then !(args.tasks.Some? && args.models.Some?)
            else
              || |before| == 0
              || (args.tasks.Some? && !SameTasks(args.tasks.value, before))
              || (args.models.Some? && !SameModels(args.models.value, before))
  {
    if args.Resume? {
      if args.tasks.Some? { SameTasksIff(args.tasks.value, before); }
      if args.models.Some? { SameModelsIff(args.models.value, before); }
    }
  }

  lemma SameTasksIff(named: seq<string>, cells: seq<Cell>)
    ensures SameNames(named, Tasks(cells)) <==> SameTasks(named, cells)
  {
    var a, b := set t | t in named, set t | t in Tasks(cells);
    if a == b {
      forall t | t in named ensures HasTask(cells, t) {
        assert t in a;
        var i :| 0 <= i < |cells| && Tasks(cells)[i] == t;
        assert cells[i].task == t;
      }
      forall i | 0 <= i < |cells| ensures cells[i].task in named {
        assert Tasks(cells)[i] in b;
      }
    }
    if SameTasks(named, cells) {
      forall t | t in a ensures t in b {
        var i :| 0 <= i < |cells| && cells[i].task == t;
        assert Tasks(cells)[i] == t;
      }
    }
  }

  lemma SameModelsIff(named: seq<string>, cells: seq<Cell>)
    ensures SameNames(named, Models(cells)) <==> SameModels(named, cells)
  {
    var a, b := set t | t in named, set t | t in Models(cells);
    if a == b {
      forall m | m in named ensures HasModel(cells, m) {
        assert m in a;
        var i :| 0 <= i < |cells| && Models(cells)[i] == m;
        assert cells[i].model == m;
      }
      forall i | 0 <= i < |cells| ensures cells[i].model in named {
        assert Models(cells)[i] in b;
      }
    }
    if SameModels(named, cells) {
      forall m | m in a ensures m in b {
        var i :| 0 <= i < |cells| && cells[i].model == m;
        assert Models(cells)[i] == m;
      }
    }
  }

  // ----- a run and its resumptions -----

  /** One invocation of a history. */
  datatype Attempt = Attempt(args: Args, gate: Gate, answers: nat -> Answer)

  function OutcomeOf(g: Grid, before: seq<Entry>, a: Attempt): Outcome {
    Invoke(before, a.args, g.items, g.versions, a.gate, a.answers)
  }

  /** The recorded rows between invocations: first a new run over `g`, then resumptions of it, over the
      same corpus and policy, each stopped anywhere. */
  ghost predicate IsHistory(g: Grid, attempts: seq<Attempt>, states: seq<seq<Entry>>) {
    && |states| == |attempts| + 1 && |states[0]| == 0
    && forall k | 0 <= k < |attempts| ::
         && states[k + 1] == OutcomeOf(g, states[k], attempts[k]).entries
         && (if k == 0 then attempts[k].args == New(Some(g.tasks), Some(g.models)) else attempts[k].args.Resume?)
  }

  ghost predicate AreAdmissible(g: Grid, cells: seq<Cell>) {
    forall i | 0 <= i < |cells| :: IsAdmissible(g, cells[i]) && HasShape(cells[i].task)
  }

  lemma InvokeStaysInGrid(g: Grid, before: seq<Entry>, a: Attempt)
    requires AreAdmissible(g, CellsOf(before)) && IsDistinct(CellsOf(before))
    requires a.args.New? ==> a.args == New(Some(g.tasks), Some(g.models))
    ensures AreAdmissible(g, CellsOf(OutcomeOf(g, before, a).entries))
    ensures IsDistinct(CellsOf(OutcomeOf(g, before, a).entries))
  {
    hide HasShape, IsDistinct, Dispatch, Cells, SortedNames;
    var was, after := CellsOf(before), CellsOf(OutcomeOf(g, before, a).entries);
    if !IsRefused(was, a.args) {
      InvokeIsRun(before, a.args, g.items, g.versions, a.gate, a.answers);
      if a.args.Resume? { ResumedGrid(was, a.args, g.items, g.versions); }
      forall i | 0 <= i < |after| ensures IsAdmissible(g, after[i]) && HasShape(after[i].task) {
        if i < |was| {
          assert after[i] == was[i] && IsAdmissible(g, was[i]);
        } else if a.args.Resume? {
          var t, m := after[i].task, after[i].model;
          assert IsAdmissible(GridOf(was, a.args, g.items, g.versions), after[i]);
          assert HasTask(was, t) && HasModel(was, m);
          var j :| 0 <= j < |was| && was[j].task == t;
          var k :| 0 <= k < |was| && was[k].model == m;
          assert IsAdmissible(g, was[j]) && IsAdmissible(g, was[k]);
        }
      }
    }
  }

  /** However often a run is stopped and resumed, no cell is recorded twice and none outside its
      grid. */
  lemma {:induction false} NothingTwiceNothingElse(g: Grid, attempts: seq<Attempt>, states: seq<seq<Entry>>, k: nat)
    requires IsHistory(g, attempts, states) && k < |states|
    ensures AreAdmissible(g, CellsOf(states[k])) && IsDistinct(CellsOf(states[k]))
  {
    hide OutcomeOf, IsAdmissible, HasShape;
    if k > 0 {
      NothingTwiceNothingElse(g, attempts, states, k - 1);
      assert states[k - 1 + 1] == OutcomeOf(g, states[k - 1], attempts[k - 1]).entries;
      InvokeStaysInGrid(g, states[k - 1], attempts[k - 1]);
    }
  }

  /** The recorded cells are the full admissible grid. */
  ghost predicate IsComplete(g: Grid, cells: seq<Cell>) {
    forall c :: c in cells <==> IsAdmissible(g, c)
  }

  /** Every task and every model of the grid has a recorded row: what a resumption can see. */
  ghost predicate Covers(g: Grid, cells: seq<Cell>) {
    forall c | IsAdmissible(g, c) :: HasTask(cells, c.task) && HasModel(cells, c.model)
  }

  lemma SeenTasksStay(g: Grid, before: seq<Entry>, a: Attempt, c: Cell)
    requires a.args.Resume? && c in CellsOf(OutcomeOf(g, before, a).entries)
    ensures HasTask(CellsOf(before), c.task) && HasModel(CellsOf(before), c.model)
  {
    hide HasShape, IsDistinct, Dispatch, Cells, SortedNames;
    var was, after := CellsOf(before), CellsOf(OutcomeOf(g, before, a).entries);
    var i :| 0 <= i < |after| && after[i] == c;
    if i < |was| && (IsRefused(was, a.args) || after[i] == was[i]) {
      assert was[i] == c;
    } else {
      InvokeIsRun(before, a.args, g.items, g.versions, a.gate, a.answers);
      ResumedGrid(was, a.args, g.items, g.versions);
      assert IsAdmissible(GridOf(was, a.args, g.items, g.versions), after[i]);
    }
  }

  lemma GridIsWhole(g: Grid, was: seq<Cell>, args: Args, c: Cell)
    requires !IsRefused(was, args) && IsAdmissible(g, c)
    requires args == New(Some(g.tasks), Some(g.models)) || (args.Resume? && Covers(g, was))
    ensures IsAdmissible(GridOf(was, args, g.items, g.versions), c)
  {
    if args.Resume? {
      assert HasTask(was, c.task) && HasModel(was, c.model);
      ResumedGrid(was, args, g.items, g.versions);
    }
  }

  lemma ZeroCompletes(g: Grid, before: seq<Entry>, a: Attempt)
    requires OutcomeOf(g, before, a).exit == Code(0) && !a.gate.Declined?
    requires AreAdmissible(g, CellsOf(OutcomeOf(g, before, a).entries))
    requires a.args == New(Some(g.tasks), Some(g.models)) || (a.args.Resume? && Covers(g, CellsOf(before)))
    ensures IsComplete(g, CellsOf(OutcomeOf(g, before, a).entries))
  {
    hide IsAdmissible, HasShape, IsDistinct, Dispatch, Cells, SortedNames, Covers;
    var was, after := CellsOf(before), CellsOf(OutcomeOf(g, before, a).entries);
    InvokeIsRun(before, a.args, g.items, g.versions, a.gate, a.answers);
    forall c ensures c in after <==> IsAdmissible(g, c) {
      if c in after { var i :| 0 <= i < |after| && after[i] == c; assert IsAdmissible(g, after[i]); }
      if IsAdmissible(g, c) { GridIsWhole(g, was, a.args, c); }
    }
  }

  /** An invocation that ends with 0 leaves the full grid if it was the new run; a resumption does so
      exactly when the rows it found cover the grid's tasks and models. One that was declined at the cost
      gate ends with 0 as well, and has recorded nothing. */
  lemma ExitZero(g: Grid, attempts: seq<Attempt>, states: seq<seq<Entry>>, k: nat)
    requires IsHistory(g, attempts, states) && k < |attempts|
    requires OutcomeOf(g, states[k], attempts[k]).exit == Code(0)
    ensures if attempts[k].gate.Declined? then states[k + 1] == states[k]
            else IsComplete(g, CellsOf(states[k + 1])) <==> k == 0 || Covers(g, CellsOf(states[k]))
  {
    assert states[k + 1] == OutcomeOf(g, states[k], attempts[k]).entries;
    if !attempts[k].gate.Declined? { FinishedWithZero(g, attempts, states, k); }
  }

  lemma FinishedWithZero(g: Grid, attempts: seq<Attempt>, states: seq<seq<Entry>>, k: nat)
    requires IsHistory(g, attempts, states) && k < |attempts|
    requires OutcomeOf(g, states[k], attempts[k]).exit == Code(0) && !attempts[k].gate.Declined?
    ensures IsComplete(g, CellsOf(states[k + 1])) <==> k == 0 || Covers(g, CellsOf(states[k]))
  {
    hide OutcomeOf, IsAdmissible, HasShape;
    var a, before := attempts[k], states[k];
    NothingTwiceNothingElse(g, attempts, states, k + 1);
    assert states[k + 1] == OutcomeOf(g, before, a).entries;
    if k == 0 || Covers(g, CellsOf(before)) { ZeroCompletes(g, before, a); }
    if k > 0 && IsComplete(g, CellsOf(states[k + 1])) {
      forall c | IsAdmissible(g, c) ensures HasTask(CellsOf(before), c.task) && HasModel(CellsOf(before), c.model) {
        SeenTasksStay(g, before, a, c);
      }
    }
  }

  /** A declined invocation does end with 0, unless its arguments were refused before. */
  lemma DecliningEndsWithZero(g: Grid, attempts: seq<Attempt>, states: seq<seq<Entry>>, k: nat)
    requires IsHistory(g, attempts, states) && k < |attempts| && attempts[k].gate.Declined?
    ensures states[k + 1] == states[k]
    ensures OutcomeOf(g, states[k], attempts[k]).exit ==
            if IsRefused(CellsOf(states[k]), attempts[k].args) then Refused else Code(0)
  {
    assert states[k + 1] == OutcomeOf(g, states[k], attempts[k]).entries;
  }

  /** A grid with a reference-resolution cell is never completed: no prompt can be built for it. */
  lemma ReferenceResolutionIsNeverRecorded(
      g: Grid, attempts: seq<Attempt>, states: seq<seq<Entry>>, k: nat, c: Cell)
    requires IsHistory(g, attempts, states) && k < |states| && IsAdmissible(g, c) && c.task == "reference_resolution"
    ensures !IsComplete(g, CellsOf(states[k]))
  {
    NothingTwiceNothingElse(g, attempts, states, k);
    var cells := CellsOf(states[k]);
    assert forall i | 0 <= i < |cells| :: cells[i] != c by {
      forall i | 0 <= i < |cells| ensures cells[i] != c { assert HasShape(cells[i].task); }
    }
  }

  // ----- a resumption that loses a task -----

  function OneItem(): seq<Item> { [Item("i", false)] }

  function TwoTasks(): Grid { Grid(OneItem(), ["draft_reply", "fine_class"], ["m"], map[]) }

  /** An interrupt during the first cell's dispatch. */
  function AtOnce(): nat -> Answer { (i: nat) => Answer(false, i == 0, false) }

  function FirstRow(): Entry { Entry(Cell("i", "draft_reply", "m", "v1"), Interrupted) }

  lemma FirstAttempt()
    ensures Invoke([], New(Some(TwoTasks().tasks), Some(TwoTasks().models)), OneItem(), map[], Passes, AtOnce()) ==
            Outcome([FirstRow()], Code(130))
  {
    var g := TwoTasks();
    var item := OneItem()[0];
    var first, second := Cell("i", "draft_reply", "m", "v1"), Cell("i", "fine_class", "m", "v1");
    assert g.models[..0] == [] && g.tasks[..1] == ["draft_reply"] && g.tasks[..1][..0] == [] && g.items[..0] == [];
    assert ModelCells("i", "draft_reply", "v1", g.models, {}) == [first];
    assert ModelCells("i", "fine_class", "v1", g.models, {}) == [second];
    assert TaskCells(item, g.tasks[..1], g, {}) == [first];
    assert TaskCells(item, g.tasks, g, {}) == [first, second];
    assert Cells(g, {}) == [first, second];
    assert CellsOf([]) == [];
    assert [] + [FirstRow()] == [FirstRow()];
    assert Dispatch([], [first, second], AtOnce(), 0) == Outcome([FirstRow()], Code(130));
  }

  lemma SecondAttempt()
    ensures Invoke([FirstRow()], Resume(None, None), OneItem(), map[], Passes, AtOnce()) ==
            Outcome([FirstRow()], Code(0))
  {
    var was := CellsOf([FirstRow()]);
    var first := FirstRow().cell;
    assert was == [first] && Tasks(was) == ["draft_reply"] && Models(was) == ["m"];
    OneName("draft_reply");
    OneName("m");
    var g, done := GridOf(was, Resume(None, None), OneItem(), map[]), DoneOf(was, Resume(None, None));
    forall c ensures c !in Cells(g, done) {
      CellsAreTheGrid(g, done, c);
      if IsAdmissible(g, c) { assert c == first && first in was; }
    }
    EmptyOrNot(Cells(g, done));
  }

  lemma EmptyOrNot(cells: seq<Cell>)
    ensures cells == [] || exists c :: c in cells
  {
    if cells != [] { assert cells[0] in cells; }
  }

  lemma OneName(x: string)
    ensures SortedNames([x]) == [x]
  {
    assert [x][..0] == [];
  }

  /** A new run over two tasks is interrupted after its first cell and ends with 130. Resumed without
      further arguments it sees one task only, finds nothing left to do, and ends with 0. */
  lemma ResumptionShrinksTheGrid()
    ensures exists attempts: seq<Attempt>, states: seq<seq<Entry>> ::
              && IsHistory(TwoTasks(), attempts, states) && |attempts| == 2
              && OutcomeOf(TwoTasks(), states[0], attempts[0]).exit == Code(130)
              && OutcomeOf(TwoTasks(), states[1], attempts[1]).exit == Code(0)
              && !IsComplete(TwoTasks(), CellsOf(states[2]))
  {
    var g := TwoTasks();
    var attempts := [Attempt(New(Some(g.tasks), Some(g.models)), Passes, AtOnce()),
                     Attempt(Resume(None, None), Passes, AtOnce())];
    var states := [[], [FirstRow()], [FirstRow()]];
    FirstAttempt();
    SecondAttempt();
    assert IsHistory(g, attempts, states);
    var second := Cell("i", "fine_class", "m", "v1");
    assert OneItem()[0].id == "i" && Fits(OneItem()[0], "fine_class") && HasItem(OneItem(), "i", "fine_class");
    assert IsAdmissible(g, second) && second !in CellsOf(states[2]);
  }
}
