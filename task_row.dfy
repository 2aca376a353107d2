/**
 * The "actions" cell of the task table (src/components/Tasks/user/columns.jsx):
 * two pieces of per-row state, `isViewOpen` and `taskDetails`, changed by the
 * "View" handler and by the detail dialog's open/close callback.
 *
 * The HTTP request is not modelled; its outcome is an input.  `ViewState` and
 * the transition functions are the specification; `RowActionCell` is the
 * component, whose methods are proved against them.
 */
module TaskRow {
  import opened Wrappers
  import opened TaskDisplay

  /**
   * What the awaited GET of the row's task ends with: a response whose
   * `data.data` is a task, a response without one (`data.data` absent or
   * null, which the handler stores unchecked), or a thrown error.
   */
  datatype FetchOutcome = Fetched(data: Task) | FetchedWithoutData | FetchFailed

  /** A response arrived, with or without a task in it. */
  predicate Responded(outcome: FetchOutcome) {
    !outcome.FetchFailed?
  }

  datatype ViewState = ViewState(isViewOpen: bool, taskDetails: Option<Task>)

  /** Both `useState` hooks start empty: closed, with no details. */
  const Initial := ViewState(false, None)

  /** The dialog element exists only while `taskDetails` is non-null. */
  predicate DialogMounted(s: ViewState) {
    s.taskDetails.Some?
  }

  /** The dialog is visible: it exists and its `open` prop is true. */
  predicate DialogShown(s: ViewState) {
    DialogMounted(s) && s.isViewOpen
  }

  /** The dialog is asked to be open only when there are details to show. */
  predicate Consistent(s: ViewState) {
    s.isViewOpen ==> s.taskDetails.Some?
  }

  /**
   * `handleView` after its request settles: a response stores its payload,
   * whatever it is, and then opens the dialog; a failure is only logged.
   * A response without a task therefore clears the details and asks for an
   * open dialog that is not mounted.
   */
  function AfterView(s: ViewState, outcome: FetchOutcome): (r: ViewState)
    ensures outcome.Fetched? ==> DialogShown(r) && r.taskDetails == Some(outcome.data)
    ensures outcome.FetchedWithoutData? ==> r.isViewOpen && !DialogMounted(r) && !Consistent(r)
    ensures outcome.FetchFailed? ==> r == s
    ensures Consistent(s) && !outcome.FetchedWithoutData? ==> Consistent(r)
  {
    match outcome
    case Fetched(t) =>
      var stored := s.(taskDetails := Some(t));
      stored.(isViewOpen := true)
    case FetchedWithoutData =>
      var stored := s.(taskDetails := None);
      stored.(isViewOpen := true)
    case FetchFailed => s
  }

  /**
   * The dialog's `onOpenChange`, which is `setIsViewOpen` itself.  Only a
   * mounted dialog can call it.
   */
  function AfterOpenChange(s: ViewState, open: bool): (r: ViewState)
    requires DialogMounted(s)
    ensures r.isViewOpen == open
    ensures r.taskDetails == s.taskDetails
    ensures DialogMounted(r) && Consistent(r)
  {
    s.(isViewOpen := open)
  }

  /** The user actions that reach this cell. */
  datatype Event = View(outcome: FetchOutcome) | OpenChange(open: bool)

  /** One event; an open/close event with no dialog on screen cannot happen and changes nothing. */
  function Step(s: ViewState, e: Event): ViewState {
    match e
    case View(outcome) => AfterView(s, outcome)
    case OpenChange(open) => if DialogMounted(s) then AfterOpenChange(s, open) else s
  }

  /** The state after a sequence of events, starting from `s`. */
  function Run(s: ViewState, events: seq<Event>): ViewState
    decreases |events|
  {
    if events == [] then s else Run(Step(s, events[0]), events[1..])
  }

  /** Every response among `events` carries a task. */
  predicate PayloadsPresent(events: seq<Event>) {
    forall i :: 0 <= i < |events| ==> !(events[i].View? && events[i].outcome.FetchedWithoutData?)
  }

  /**
   * Every state the cell can reach from its initial state is consistent, as
   * long as the API answers with a task whenever it answers.
   */
  lemma {:induction false} RunKeepsConsistent(s: ViewState, events: seq<Event>)
    requires Consistent(s)
    requires PayloadsPresent(events)
    ensures Consistent(Run(s, events))
    decreases |events|
  {
    if events != [] {
      assert PayloadsPresent(events[1..]) by {
        forall i | 0 <= i < |events[1..]| ensures !(events[1..][i].View? && events[1..][i].outcome.FetchedWithoutData?) {
          assert events[1..][i] == events[i + 1];
        }
      }
      RunKeepsConsistent(Step(s, events[0]), events[1..]);
    }
  }

  /**
   * Once details have been fetched they are never cleared: closing the dialog
   * hides it but keeps the last task, and a later failure keeps it too.  Only
   * a response without a task clears them.
   */
  lemma {:induction false} RunKeepsMounted(s: ViewState, events: seq<Event>)
    requires DialogMounted(s)
    requires PayloadsPresent(events)
    ensures DialogMounted(Run(s, events))
    decreases |events|
  {
    if events != [] {
      assert PayloadsPresent(events[1..]) by {
        forall i | 0 <= i < |events[1..]| ensures !(events[1..][i].View? && events[1..][i].outcome.FetchedWithoutData?) {
          assert events[1..][i] == events[i + 1];
        }
      }
      RunKeepsMounted(Step(s, events[0]), events[1..]);
    }
  }

  /**
   * The details on screen are those of the last response, whatever failures
   * and open/close events came after it.
   */
  lemma {:induction false} RunShowsLastFetched(s: ViewState, events: seq<Event>, t: Task)
    requires s.taskDetails == Some(t)
    requires forall i :: 0 <= i < |events| ==> !(events[i].View? && Responded(events[i].outcome))
    ensures Run(s, events).taskDetails == Some(t)
    decreases |events|
  {
    if events != [] {
      RunShowsLastFetched(Step(s, events[0]), events[1..], t);
    }
  }

  /**
   * A response without a task, even after a task was shown, leaves the row
   * asking for an open dialog that is no longer mounted.
   */
  lemma EmptyResponseUnmounts(s: ViewState)
    ensures var r := Run(s, [View(FetchedWithoutData)]);
      r.isViewOpen && r.taskDetails.None? && !DialogShown(r)
  {
    assert [View(FetchedWithoutData)][1..] == [];
  }

  /** Closing and then viewing again with a failed request leaves the dialog closed on the old task. */
  lemma CloseThenFailedView(s: ViewState)
    requires DialogMounted(s)
    ensures Run(s, [OpenChange(false), View(FetchFailed)]) == s.(isViewOpen := false)
  {
    assert [OpenChange(false), View(FetchFailed)][1..] == [View(FetchFailed)];
  }

  /** The dialog element as rendered: its `open` prop and its content. */
  datatype DialogElement = DialogElement(open: bool, content: DetailView)

  /** The per-row component with its two state hooks. */
  class RowActionCell {
    var isViewOpen: bool
    var taskDetails: Option<Task>

    function State(): ViewState
      reads this
    {
      ViewState(isViewOpen, taskDetails)
    }

    constructor ()
      ensures State() == Initial
    {
      isViewOpen := false;
      taskDetails := None;
    }

    /** `handleView`, with the request's outcome as a parameter. */
    method HandleView(outcome: FetchOutcome)
      modifies this
      ensures State() == AfterView(old(State()), outcome)
    {
      match outcome {
        case Fetched(t) =>
          taskDetails := Some(t);
          isViewOpen := true;
        case FetchedWithoutData =>
          taskDetails := None;
          isViewOpen := true;
        case FetchFailed =>
      }
    }

    /** The dialog's `onOpenChange`, wired straight to `setIsViewOpen`. */
    method OnOpenChange(open: bool)
      requires DialogMounted(State())
      modifies this
      ensures State() == AfterOpenChange(old(State()), open)
    {
      isViewOpen := open;
    }

    /** `{taskDetails && <Dialog open={isViewOpen} ...>}`. */
    method Render() returns (dialog: Option<DialogElement>)
      ensures dialog.Some? <==> taskDetails.Some?
      ensures dialog.Some? ==> dialog.value.open == isViewOpen
      ensures dialog.Some? ==> dialog.value.content == Detail(taskDetails.value)
    {
      match taskDetails {
        case Some(t) => dialog := Some(DialogElement(isViewOpen, Detail(t)));
        case None => dialog := None;
      }
    }
  }
}
