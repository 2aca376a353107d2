/**
 * The display side of the task table (src/components/Tasks/user/columns.jsx):
 * the three lookups from a task's type, status and priority to an icon or a
 * class string, the inline copies of them inside the column cells, and the
 * detail view shown by a row's "View" action.
 */
module TaskDisplay {
  import opened Wrappers
  import Text

  /** A task record as the API returns it under `data`. */
  datatype Task = Task(
    id: int,
    title: string,
    taskType: string,
    status: string,
    priority: string,
    team: string,
    task: string,
    createdAt: string,
    updatedAt: string)

  /** The three icon components the type column can show. */
  datatype Glyph = AlertCircle | Wrench | FileText

  /** An icon element: which glyph, with which class string. */
  datatype Icon = Icon(glyph: Glyph, className: string)

  const KnownTypes: set<string> := {"Bug", "Feature", "Documentation"}
  const KnownStatuses: set<string> := {"Done", "IN_PROGRESS", "TODO", "Backlog", "Canceled"}
  const KnownPriorities: set<string> := {"HIGH", "MEDIUM", "LOW"}

  const StatusFallback := "bg-gray-500/15 border border-gray-300 text-gray-300"
  const PriorityFallback := "text-gray-500"

  // ---------------------------------------------------------------------------
  // Reference tables: the mappings as data, with an explicit default.
  // ---------------------------------------------------------------------------

  /** The value of the first row whose key is `key`, or `default`. */
  function Lookup<V>(table: seq<(string, V)>, key: string, default: V): V {
    if table == [] then default
    else if table[0].0 == key then table[0].1
    else Lookup(table[1..], key, default)
  }

  const TypeTable: seq<(string, Option<Icon>)> := [
    ("Bug", Some(Icon(AlertCircle, "h-4 w-4 text-red-500"))),
    ("Feature", Some(Icon(Wrench, "h-4 w-4 text-blue-500"))),
    ("Documentation", Some(Icon(FileText, "h-4 w-4 text-yellow-500")))
  ]

  const StatusTable: seq<(string, string)> := [
    ("Done", "bg-emerald-500/15 border border-emerald-500 text-emerald-500"),
    ("IN_PROGRESS", "bg-blue-500/15 border border-blue-500 text-blue-500"),
    ("TODO", "bg-yellow-500/15 border border-yellow-500 text-yellow-500"),
    ("Backlog", "bg-gray-500/15 border border-gray-500 text-gray-500"),
    ("Canceled", "bg-red-500/15 border border-red-500 text-red-500")
  ]

  const PriorityTable: seq<(string, string)> := [
    ("HIGH", "text-red-500"),
    ("MEDIUM", "text-yellow-500"),
    ("LOW", "text-green-500")
  ]

  // ---------------------------------------------------------------------------
  // The module-level helpers.
  // ---------------------------------------------------------------------------

  /** `getTypeIcon`: an icon for the three known types, `null` for anything else. */
  function TypeIcon(taskType: string): (r: Option<Icon>)
    ensures r.Some? <==> taskType in KnownTypes
  {
    match taskType
    case "Bug" => Some(Icon(AlertCircle, "h-4 w-4 text-red-500"))
    case "Feature" => Some(Icon(Wrench, "h-4 w-4 text-blue-500"))
    case "Documentation" => Some(Icon(FileText, "h-4 w-4 text-yellow-500"))
    case _ => None
  }

  /** `getStatusColor`: a listed class per known status, the grey fallback otherwise. */
  function StatusColor(status: string): (r: string)
    ensures r != StatusFallback <==> status in KnownStatuses
  {
    match status
    case "Done" => "bg-emerald-500/15 border border-emerald-500 text-emerald-500"
    case "IN_PROGRESS" => "bg-blue-500/15 border border-blue-500 text-blue-500"
    case "TODO" => "bg-yellow-500/15 border border-yellow-500 text-yellow-500"
    case "Backlog" => "bg-gray-500/15 border border-gray-500 text-gray-500"
    case "Canceled" => "bg-red-500/15 border border-red-500 text-red-500"
    case _ => "bg-gray-500/15 border border-gray-300 text-gray-300"
  }

  /** `getPriorityColor`: red, yellow, green for the known priorities, grey otherwise. */
  function PriorityColor(priority: string): (r: string)
    ensures r != PriorityFallback <==> priority in KnownPriorities
  {
    match priority
    case "HIGH" => "text-red-500"
    case "MEDIUM" => "text-yellow-500"
    case "LOW" => "text-green-500"
    case _ => "text-gray-500"
  }

  /** A lookup returns the value of the first row whose key matches. */
  lemma {:induction false} LookupFirstMatch<V>(table: seq<(string, V)>, key: string, default: V, i: nat)
    requires i < |table| && table[i].0 == key
    requires forall j :: 0 <= j < i ==> table[j].0 != key
    ensures Lookup(table, key, default) == table[i].1
  {
    if i > 0 {
      LookupFirstMatch(table[1..], key, default, i - 1);
    }
  }

  /** A lookup of a key that no row has returns the default. */
  lemma {:induction false} LookupMissing<V>(table: seq<(string, V)>, key: string, default: V)
    requires forall j :: 0 <= j < |table| ==> table[j].0 != key
    ensures Lookup(table, key, default) == default
  {
    if table != [] {
      LookupMissing(table[1..], key, default);
    }
  }

  /** `getTypeIcon` is the type table with `null` as default. */
  lemma TypeIconMatchesTable(taskType: string)
    ensures TypeIcon(taskType) == Lookup(TypeTable, taskType, None)
  {
    match taskType
    case "Bug" => LookupFirstMatch(TypeTable, taskType, None, 0);
    case "Feature" => LookupFirstMatch(TypeTable, taskType, None, 1);
    case "Documentation" => LookupFirstMatch(TypeTable, taskType, None, 2);
    case _ => LookupMissing(TypeTable, taskType, None);
  }

  /** `getStatusColor` is the status table with the grey fallback as default. */
  lemma StatusColorMatchesTable(status: string)
    ensures StatusColor(status) == Lookup(StatusTable, status, StatusFallback)
  {
    match status
    case "Done" => LookupFirstMatch(StatusTable, status, StatusFallback, 0);
    case "IN_PROGRESS" => LookupFirstMatch(StatusTable, status, StatusFallback, 1);
    case "TODO" => LookupFirstMatch(StatusTable, status, StatusFallback, 2);
    case "Backlog" => LookupFirstMatch(StatusTable, status, StatusFallback, 3);
    case "Canceled" => LookupFirstMatch(StatusTable, status, StatusFallback, 4);
    case _ => LookupMissing(StatusTable, status, StatusFallback);
  }

  /** `getPriorityColor` is the priority table with "text-gray-500" as default. */
  lemma PriorityColorMatchesTable(priority: string)
    ensures PriorityColor(priority) == Lookup(PriorityTable, priority, PriorityFallback)
  {
    match priority
    case "HIGH" => LookupFirstMatch(PriorityTable, priority, PriorityFallback, 0);
    case "MEDIUM" => LookupFirstMatch(PriorityTable, priority, PriorityFallback, 1);
    case "LOW" => LookupFirstMatch(PriorityTable, priority, PriorityFallback, 2);
    case _ => LookupMissing(PriorityTable, priority, PriorityFallback);
  }

  /** Each known status gets its own class (the fallback is none of them, by `StatusColor`'s contract). */
  lemma StatusColorsDistinct(a: string, b: string)
    requires a in KnownStatuses && b in KnownStatuses && a != b
    ensures StatusColor(a) != StatusColor(b)
  {
    var colors := [StatusColor("Done"), StatusColor("IN_PROGRESS"), StatusColor("TODO"),
                   StatusColor("Backlog"), StatusColor("Canceled")];
    assert colors == [StatusTable[0].1, StatusTable[1].1, StatusTable[2].1, StatusTable[3].1, StatusTable[4].1];
  }

  /** Each known priority gets its own class (the fallback is none of them, by `PriorityColor`'s contract). */
  lemma PriorityColorsDistinct(a: string, b: string)
    requires a in KnownPriorities && b in KnownPriorities && a != b
    ensures PriorityColor(a) != PriorityColor(b)
  {

  }

  /** Each known type gets its own glyph. */
  lemma TypeIconsDistinct(a: string, b: string)
    requires a in KnownTypes && b in KnownTypes && a != b
    ensures TypeIcon(a).value.glyph != TypeIcon(b).value.glyph
  {
  }

  /** Every status, priority and type the helpers know starts with an upper-case letter. */
  lemma KnownNamesStartUpper(k: string)
    requires k in KnownStatuses + KnownPriorities + KnownTypes
    ensures |k| > 0 && Text.IsUpper(k[0])
  {
  }

  /**
   * Matching is exact and case-sensitive: the lower-case spelling of a known
   * status, priority or type ("done", "high", "bug", ...) falls through to the
   * default branch of all three helpers.
   */
  lemma LowerCaseFallsThrough(s: string)
    requires s in KnownStatuses + KnownPriorities + KnownTypes
    ensures StatusColor(Text.Lower(s)) == StatusFallback
    ensures PriorityColor(Text.Lower(s)) == PriorityFallback
    ensures TypeIcon(Text.Lower(s)) == None
  {
    var l := Text.Lower(s);
    KnownNamesStartUpper(s);
    assert !Text.IsUpper(l[0]);
    if l in KnownStatuses + KnownPriorities + KnownTypes {
      KnownNamesStartUpper(l);
    }
  }

  // ---------------------------------------------------------------------------
  // The column cells with their inline copies of the helpers.
  // ---------------------------------------------------------------------------

  /** The copy of `getTypeIcon` declared inside the "type" cell. */
  function CellTypeIcon(taskType: string): (r: Option<Icon>)
    ensures r.Some? <==> taskType in KnownTypes
  {
    match taskType
    case "Bug" => Some(Icon(AlertCircle, "h-4 w-4 text-red-500"))
    case "Feature" => Some(Icon(Wrench, "h-4 w-4 text-blue-500"))
    case "Documentation" => Some(Icon(FileText, "h-4 w-4 text-yellow-500"))
    case _ => None
  }

  /** The copy of `getStatusColor` declared inside the "status" cell. */
  function CellStatusColor(status: string): (r: string)
    ensures r != StatusFallback <==> status in KnownStatuses
  {
    match status
    case "Done" => "bg-emerald-500/15 border border-emerald-500 text-emerald-500"
    case "IN_PROGRESS" => "bg-blue-500/15 border border-blue-500 text-blue-500"
    case "TODO" => "bg-yellow-500/15 border border-yellow-500 text-yellow-500"
    case "Backlog" => "bg-gray-500/15 border border-gray-500 text-gray-500"
    case "Canceled" => "bg-red-500/15 border border-red-500 text-red-500"
    case _ => "bg-gray-500/15 border border-gray-300 text-gray-300"
  }

  /** The copy of `getPriorityColor` declared inside the "priority" cell. */
  function CellPriorityColor(priority: string): (r: string)
    ensures r != PriorityFallback <==> priority in KnownPriorities
  {
    match priority
    case "HIGH" => "text-red-500"
    case "MEDIUM" => "text-yellow-500"
    case "LOW" => "text-green-500"
    case _ => "text-gray-500"
  }

  /** The inline copies agree with the module-level helpers on every input. */
  lemma InlineCopiesAgree(taskType: string, status: string, priority: string)
    ensures CellTypeIcon(taskType) == TypeIcon(taskType)
    ensures CellStatusColor(status) == StatusColor(status)
    ensures CellPriorityColor(priority) == PriorityColor(priority)
  {
  }

  /** An icon (or none) followed by the raw type text. */
  datatype TypeView = TypeView(icon: Option<Icon>, text: string)

  /** A badge: its class string and its text. */
  datatype Badge = Badge(className: string, text: string)

  /** A text element: its class string and its text. */
  datatype Styled = Styled(className: string, text: string)

  /** The "type" cell: the type's icon, if it has one, and the raw type text. */
  function TypeCell(taskType: string): (r: TypeView)
    ensures r.text == taskType
    ensures r.icon == TypeIcon(taskType)
  {
    InlineCopiesAgree(taskType, "", "");
    TypeView(CellTypeIcon(taskType), taskType)
  }

  /** The "status" cell: a badge with the status class and fixed padding. */
  function StatusCell(status: string): (r: Badge)
    ensures r.text == status
    ensures r.className == StatusColor(status) + " px-1.5 py-0.5 text-xs"
  {
    InlineCopiesAgree("", status, "");
    Badge(CellStatusColor(status) + " px-1.5 py-0.5 text-xs", status)
  }

  /** The "priority" cell: the priority text in medium weight and the priority colour. */
  function PriorityCell(priority: string): (r: Styled)
    ensures r.text == priority
    ensures r.className == "font-medium " + PriorityColor(priority)
  {
    InlineCopiesAgree("", "", priority);
    Styled("font-medium " + CellPriorityColor(priority), priority)
  }

  // ---------------------------------------------------------------------------
  // The detail dialog's content.
  // ---------------------------------------------------------------------------

  /**
   * What the detail dialog shows of a task.  The two timestamps are kept as the
   * raw strings: their locale formatting is not part of this model.
   */
  datatype DetailView = DetailView(
    title: string,
    taskType: TypeView,
    priority: Styled,
    team: string,
    message: string,
    status: Badge,
    createdAt: string,
    updatedAt: string)

  /** The detail content, built with the module-level helpers. */
  function Detail(t: Task): (v: DetailView)
    ensures v.taskType.icon.Some? <==> t.taskType in KnownTypes
    ensures v.status.text == t.status && v.priority.text == t.priority
    ensures v.title == t.title && v.team == t.team && v.message == t.task
  {
    DetailView(
      t.title,
      TypeView(TypeIcon(t.taskType), t.taskType),
      Styled("font-medium " + PriorityColor(t.priority), t.priority),
      t.team,
      t.task,
      Badge(StatusColor(t.status) + " px-1.5 py-0.5 text-xs", t.status),
      t.createdAt,
      t.updatedAt)
  }

  /** The detail view renders type, priority and status exactly as the table cells do. */
  lemma DetailMatchesCells(t: Task)
    ensures Detail(t).taskType == TypeCell(t.taskType)
    ensures Detail(t).priority == PriorityCell(t.priority)
    ensures Detail(t).status == StatusCell(t.status)
  {
    InlineCopiesAgree(t.taskType, t.status, t.priority);
  }

  /** A bug in TODO with HIGH priority: red bug icon, yellow badge, red priority text. */
  lemma BugTodoHighDetail(t: Task)
    requires t.taskType == "Bug" && t.status == "TODO" && t.priority == "HIGH"
    ensures Detail(t).taskType.icon == Some(Icon(AlertCircle, "h-4 w-4 text-red-500"))
    ensures Detail(t).status.className
              == "bg-yellow-500/15 border border-yellow-500 text-yellow-500" + " px-1.5 py-0.5 text-xs"
    ensures Detail(t).priority.className == "font-medium " + "text-red-500"
  {
  }
}
