/** The six chat tools loaded into the registry, the filters their bodies build from their input,
    and the status tally of `fleet.stats`. */
module AllTools {
  import opened Wrappers
  import opened Text
  import opened Permissions
  import opened Machines
  import opened Gate
  import opened Store
  import opened Registry

  // ---- Registrations ----

  const FleetList := Tool("fleet.list", "List Vehicles", "Show fleet vehicles with optional filters", "fleet", FleetRead, false)
  const FleetStats := Tool("fleet.stats", "Fleet Summary", "Fleet status breakdown", "fleet", FleetRead, false)
  const TaskList := Tool("task.list", "List Tasks", "Show tasks with optional priority/status filter", "task", TaskRead, false)
  const IncidentList := Tool("incident.list", "List Incidents", "Show open incidents", "incident", IncidentRead, false)
  const FinanceSummary := Tool("finance.summary", "Finance Summary", "Revenue and payment overview", "finance", FinanceRead, false)
  const RentalsActive := Tool("rentals.active", "Active Rentals", "Show currently active rentals", "rental", RentalRead, false)

  const FleetSlash := SlashSpec("fleet", "List fleet vehicles", "/fleet [status] [search=...]")
  const FleetStatsSlash := SlashSpec("fleet-stats", "Fleet status summary", "/fleet-stats")
  const TasksSlash := SlashSpec("tasks", "List tasks", "/tasks [status|priority]")
  const IncidentsSlash := SlashSpec("incidents", "List open incidents", "/incidents [severity]")
  const FinanceSlash := SlashSpec("finance", "Finance overview", "/finance")
  const RentalsSlash := SlashSpec("rentals", "Active rentals", "/rentals")

  /** The registrations in file order, each with its slash command. */
  const Registrations: seq<(Tool, SlashSpec)> := [
    (FleetList, FleetSlash), (FleetStats, FleetStatsSlash), (TaskList, TasksSlash),
    (IncidentList, IncidentsSlash), (FinanceSummary, FinanceSlash), (RentalsActive, RentalsSlash)]

  function CommandOf(reg: (Tool, SlashSpec)): SlashCommand {
    SlashCommand(reg.1.command, reg.0.name, reg.1.description, reg.1.usage)
  }

  /** The names of `regs` differ pairwise. */
  predicate DistinctNames(regs: seq<(Tool, SlashSpec)>) {
    forall i, j :: 0 <= i < j < |regs| ==> regs[i].0.name != regs[j].0.name
  }

  /** The module's top-level `registerTool` calls, one per registration, in order, on an empty
      registry. */
  method RegisterEach(registry: ToolRegistry, regs: seq<(Tool, SlashSpec)>)
    requires registry.Valid() && DistinctNames(regs)
    requires registry.tools == map[] && registry.order == [] && registry.slashCommands == []
    modifies registry
    ensures registry.Valid()
    ensures |registry.order| == |regs| && |registry.slashCommands| == |regs|
    ensures forall j :: 0 <= j < |regs| ==>
      && registry.order[j] == regs[j].0.name
      && registry.order[j] in registry.tools && registry.tools[registry.order[j]] == regs[j].0
      && registry.slashCommands[j] == CommandOf(regs[j])
  {
    var i := 0;
    while i < |regs|
      invariant 0 <= i <= |regs|
      invariant registry.Valid()
      invariant |registry.order| == i && |registry.slashCommands| == i
      invariant forall j :: 0 <= j < i ==>
        && registry.order[j] == regs[j].0.name
        && registry.order[j] in registry.tools && registry.tools[registry.order[j]] == regs[j].0
        && registry.slashCommands[j] == CommandOf(regs[j])
    {
      var (tool, slash) := regs[i];
      assert tool.name !in registry.tools by {
        assert forall j :: 0 <= j < i ==> registry.order[j] != tool.name;
      }
      ghost var before := registry.tools;
      registry.RegisterTool(tool, Some(slash));
      assert registry.tools == before[tool.name := tool];
      assert forall j :: 0 <= j < i ==> registry.order[j] != tool.name;
      i := i + 1;
    }
  }

  /** Loading the module into a fresh registry: six tools under six distinct names, and a slash
      command for each, in file order. */
  method RegisterAll(registry: ToolRegistry)
    requires registry.Valid() && registry.tools == map[] && registry.order == [] && registry.slashCommands == []
    modifies registry
    ensures registry.Valid()
    ensures |registry.order| == |Registrations| && |registry.slashCommands| == |Registrations|
    ensures forall j :: 0 <= j < |Registrations| ==>
      && registry.order[j] == Registrations[j].0.name
      && registry.order[j] in registry.tools && registry.tools[registry.order[j]] == Registrations[j].0
      && registry.slashCommands[j] == CommandOf(Registrations[j])
  {
    NamesDistinct();
    RegisterEach(registry, Registrations);
  }

  /** The six names differ, so no registration replaces another. */
  lemma NamesDistinct()
    ensures DistinctNames(Registrations)
  {
    assert FleetList.name[1] != FleetStats.name[6];
    assert FleetList.name != FleetStats.name by { assert |FleetList.name| != |FleetStats.name|; }
  }

  /** Every tool only reads and needs a read capability. */
  lemma ReadOnlyTools()
    ensures forall i :: 0 <= i < |Registrations| ==>
      !Registrations[i].0.isWriteAction && Registrations[i].0.requiredPermission.IsRead()
  {
  }

  // ---- Input handling ----

  /** A string input that JavaScript treats as present: defined and non-empty. */
  function Present(input: map<string, string>, key: string): (r: Option<string>)
    ensures r.Some? <==> key in input && input[key] != ""
    ensures r.Some? ==> r.value == input[key]
  {
    if key in input && input[key] != "" then Some(input[key]) else None
  }

  const TaskStatusWords := ["PENDING", "IN_PROGRESS", "COMPLETED", "CANCELLED", "BLOCKED"]
  const PriorityWords := ["LOW", "MEDIUM", "HIGH", "URGENT"]

  datatype TaskWhere = TaskWhere(status: Option<string>, priority: Option<string>, branchId: Option<Id>)

  /** `task.list`'s `where`: explicit filters upper-cased; then `arg0`, upper-cased, is a status if
      it names one, else a priority if it names one, and otherwise ignored; the caller's branch, if
      any. */
  method TaskListWhere(input: map<string, string>, branchId: Option<Id>) returns (w: TaskWhere)
    ensures var arg := Present(input, "arg0");
      && (arg.Some? && Upper(arg.value) in TaskStatusWords ==> w.status == Some(Upper(arg.value)))
      && (!(arg.Some? && Upper(arg.value) in TaskStatusWords) ==>
            w.status == (if Present(input, "status").Some? then Some(Upper(input["status"])) else None))
      && (arg.Some? && Upper(arg.value) !in TaskStatusWords && Upper(arg.value) in PriorityWords ==>
            w.priority == Some(Upper(arg.value)))
      && (!(arg.Some? && Upper(arg.value) !in TaskStatusWords && Upper(arg.value) in PriorityWords) ==>
            w.priority == (if Present(input, "priority").Some? then Some(Upper(input["priority"])) else None))
    ensures w.branchId == branchId
  {
    w := TaskWhere(None, None, None);
    var status := Present(input, "status");
    if status.Some? {
      w := w.(status := Some(Upper(status.value)));
    }
    var priority := Present(input, "priority");
    if priority.Some? {
      w := w.(priority := Some(Upper(priority.value)));
    }
    var arg0 := Present(input, "arg0");
    if arg0.Some? {
      var val := Upper(arg0.value);
      if val in TaskStatusWords {
        w := w.(status := Some(val));
      } else if val in PriorityWords {
        w := w.(priority := Some(val));
      }
    }
    if branchId.Some? {
      w := w.(branchId := branchId);
    }
  }

  /** No word is both a task status and a priority, so trying statuses first loses nothing. */
  lemma StatusAndPriorityWordsDisjoint()
    ensures forall s :: s in TaskStatusWords ==> s !in PriorityWords
  {
  }

  datatype IncidentWhere = IncidentWhere(statusNotIn: seq<string>, severity: Option<string>, branchId: Option<Id>)

  /** `incident.list`'s `where`: closed incidents always excluded, severity from `arg0` over the
      explicit input, both upper-cased. */
  method IncidentListWhere(input: map<string, string>, branchId: Option<Id>) returns (w: IncidentWhere)
    ensures w.statusNotIn == ["CLOSED"]
    ensures Present(input, "arg0").Some? ==> w.severity == Some(Upper(input["arg0"]))
    ensures Present(input, "arg0").None? ==>
      w.severity == (if Present(input, "severity").Some? then Some(Upper(input["severity"])) else None)
    ensures w.branchId == branchId
  {
    w := IncidentWhere(["CLOSED"], None, None);
    var severity := Present(input, "severity");
    if severity.Some? {
      w := w.(severity := Some(Upper(severity.value)));
    }
    var arg0 := Present(input, "arg0");
    if arg0.Some? {
      w := w.(severity := Some(Upper(arg0.value)));
    }
    if branchId.Some? {
      w := w.(branchId := branchId);
    }
  }

  datatype FleetWhere = FleetWhere(isActive: bool, status: Option<string>, search: Option<string>, branchId: Option<Id>)

  /** `fleet.list`'s `where` as written: active vehicles, the explicit status and search, the
      caller's branch. */
  method FleetListWhere(input: map<string, string>, branchId: Option<Id>) returns (w: FleetWhere)
    ensures w.isActive && w.branchId == branchId
    ensures w.status == Present(input, "status") && w.search == Present(input, "search")
  {
    w := FleetWhere(true, None, None, None);
    var status := Present(input, "status");
    if status.Some? {
      w := w.(status := status);
    }
    var search := Present(input, "search");
    if search.Some? {
      w := w.(search := search);
    }
    if branchId.Some? {
      w := w.(branchId := branchId);
    }
  }

  /** The filter `fleet.list` evidently means, given its usage text "/fleet [status]": a positional
      word, upper-cased, is the status, as in the two other listing tools. */
  method FleetListWhereIntended(input: map<string, string>, branchId: Option<Id>) returns (w: FleetWhere)
    ensures w.isActive && w.branchId == branchId && w.search == Present(input, "search")
    ensures Present(input, "arg0").Some? ==> w.status == Some(Upper(input["arg0"]))
    ensures Present(input, "arg0").None? ==> w.status == Present(input, "status")
  {
    w := FleetListWhere(input, branchId);
    var arg0 := Present(input, "arg0");
    if arg0.Some? {
      w := w.(status := Some(Upper(arg0.value)));
    }
  }

  /** What `/fleet available` parses to, as written and as intended: the first drops the word,
      the second filters on AVAILABLE. */
  method FleetPositionalStatus() returns (asWritten: FleetWhere, intended: FleetWhere)
    ensures asWritten.status.None?
    ensures intended.status == Some("AVAILABLE")
  {
    var input := map["arg0" := "available"];
    asWritten := FleetListWhere(input, None);
    intended := FleetListWhereIntended(input, None);
    UpperAscii("available");
    assert Upper("available") == "AVAILABLE";
  }

  // ---- fleet.stats ----

  /** How often `x` occurs in `xs`. */
  function Count<T(==)>(xs: seq<T>, x: T): nat
    decreases |xs|
  {
    if xs == [] then 0
    else Count(xs[..|xs| - 1], x) + (if xs[|xs| - 1] == x then 1 else 0)
  }

  lemma {:induction false} CountPositive<T>(xs: seq<T>, x: T)
    ensures Count(xs, x) > 0 <==> x in xs
    decreases |xs|
  {
    if xs != [] {
      CountPositive(xs[..|xs| - 1], x);
      assert xs == xs[..|xs| - 1] + [xs[|xs| - 1]];
    }
  }

  /** The `forEach` that tallies the selected vehicles by status. */
  method StatusCounts(statuses: seq<VehicleStatus>) returns (total: nat, counts: map<VehicleStatus, nat>)
    ensures total == |statuses|
    ensures forall s :: s in counts <==> s in statuses
    ensures forall s :: s in counts ==> counts[s] == Count(statuses, s)
  {
    counts := map[];
    var i := 0;
    while i < |statuses|
      invariant 0 <= i <= |statuses|
      invariant forall s :: s in counts <==> s in statuses[..i]
      invariant forall s :: s in counts ==> counts[s] == Count(statuses[..i], s)
    {
      var s := statuses[i];
      var before := if s in counts then counts[s] else 0;
      assert statuses[..i + 1][..i] == statuses[..i];
      assert before == Count(statuses[..i], s) by {
        CountPositive(statuses[..i], s);
      }
      counts := counts[s := before + 1];
      assert statuses[..i + 1] == statuses[..i] + [s];
      i := i + 1;
    }
    assert statuses[..i] == statuses;
    total := |statuses|;
  }

  /** The sum of the counts of `ks`. */
  function SumCounts<T(==)>(ks: seq<T>, xs: seq<T>): nat {
    if ks == [] then 0 else Count(xs, ks[0]) + SumCounts(ks[1..], xs)
  }

  /** One more element adds one to the sum of any duplicate-free key list that holds it. */
  lemma {:induction false} SumCountsStep<T>(ks: seq<T>, xs: seq<T>, x: T)
    requires forall i, j :: 0 <= i < j < |ks| ==> ks[i] != ks[j]
    ensures SumCounts(ks, xs + [x]) == SumCounts(ks, xs) + (if x in ks then 1 else 0)
  {
    if ks != [] {
      assert (xs + [x])[..|xs + [x]| - 1] == xs;
      SumCountsStep(ks[1..], xs, x);
      assert x in ks <==> x == ks[0] || x in ks[1..];
    }
  }

  /** Summed over all keys, the counts give the length: every element is counted exactly once. */
  lemma {:induction false} SumCountsIsLength<T>(ks: seq<T>, xs: seq<T>)
    requires forall i, j :: 0 <= i < j < |ks| ==> ks[i] != ks[j]
    requires forall x :: x in xs ==> x in ks
    ensures SumCounts(ks, xs) == |xs|
    decreases |xs|
  {
    if xs == [] {
      ZeroCounts(ks);
    } else {
      var init := xs[..|xs| - 1];
      assert xs == init + [xs[|xs| - 1]];
      SumCountsIsLength(ks, init);
      SumCountsStep(ks, init, xs[|xs| - 1]);
    }
  }

  lemma {:induction false} ZeroCounts<T>(ks: seq<T>)
    ensures SumCounts(ks, []) == 0
  {
    if ks != [] {
      ZeroCounts(ks[1..]);
    }
  }

  /** Every vehicle status, in declaration order. */
  const AllStatuses: seq<VehicleStatus> := [
    Available, ReservedPrepPending, PickupReady, OnRent, ReturnPendingCheckin, InspectionInProgress,
    CleaningPending, MaintenancePending, DamageHold, ComplianceHold, TransferPending, TransferInTransit,
    OutOfService]

  /** The position of each status in `AllStatuses`. */
  function StatusIndex(s: VehicleStatus): (i: nat)
    ensures i < |AllStatuses| && AllStatuses[i] == s
  {
    match s
    case Available => 0 case ReservedPrepPending => 1 case PickupReady => 2 case OnRent => 3
    case ReturnPendingCheckin => 4 case InspectionInProgress => 5 case CleaningPending => 6
    case MaintenancePending => 7 case DamageHold => 8 case ComplianceHold => 9
    case TransferPending => 10 case TransferInTransit => 11 case OutOfService => 12
  }

  lemma AllStatusesDistinct()
    ensures forall i, j :: 0 <= i < j < |AllStatuses| ==> AllStatuses[i] != AllStatuses[j]
  {
    forall i, j | 0 <= i < j < |AllStatuses|
      ensures AllStatuses[i] != AllStatuses[j]
    {
      assert StatusIndex(AllStatuses[i]) == i;
      assert StatusIndex(AllStatuses[j]) == j;
    }
  }

  /** Every vehicle status is one of the statuses `fleet.stats` counts. */
  lemma StatusesCovered(statuses: seq<VehicleStatus>)
    ensures forall x :: x in statuses ==> x in AllStatuses
  {
    forall x | x in statuses
      ensures x in AllStatuses
    {
      assert AllStatuses[StatusIndex(x)] == x;
    }
  }

  /** The per-status counts of `fleet.stats` add up to its total. */
  lemma StatsAddUp(statuses: seq<VehicleStatus>)
    ensures SumCounts(AllStatuses, statuses) == |statuses|
  {
    StatusesCovered(statuses);
    AllStatusesDistinct();
    SumCountsIsLength(AllStatuses, statuses);
  }
}
