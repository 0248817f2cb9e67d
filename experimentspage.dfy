/**
 * The decisions of the Experiments page (`pages/Experiments.tsx`): which
 * actions a row offers, the search box's filter, when the results link
 * appears, and the pagination arithmetic. The experiments are the API's
 * rows, so a description may be null.
 */
module ExperimentsPage {
  import opened Wrappers
  import opened Js
  import opened Domain
  import Lifecycle

  // ---------------------------------------------------------------------
  // Row actions
  // ---------------------------------------------------------------------

  datatype Action = StartAction | PauseAction | CompleteAction | DeleteAction

  function ActionName(a: Action): string {
    match a
    case StartAction => "start"
    case PauseAction => "pause"
    case CompleteAction => "complete"
    case DeleteAction => "delete"
  }

  /** `getAvailableActions` for a status string. */
  function AvailableActions(status: string): seq<string> {
    if status == "draft" then ["start", "delete"]
    else if status == "running" then ["pause", "complete"]
    else if status == "paused" then ["start", "complete"]
    else if status == "completed" then ["delete"]
    else []
  }

  /** The menu for each status the API can report, and nothing for any other string. */
  lemma AvailableActionsTable(status: string)
    ensures AvailableActions(StatusName(Draft)) == ["start", "delete"]
    ensures AvailableActions(StatusName(Running)) == ["pause", "complete"]
    ensures AvailableActions(StatusName(Paused)) == ["start", "complete"]
    ensures AvailableActions(StatusName(Completed)) == ["delete"]
    ensures (forall s: Status :: status != StatusName(s)) ==> AvailableActions(status) == []
  {
  }

  /** The controller call an action button leads to; delete reaches no route, so it has no effect here. */
  function Perform(e: Experiment, a: Action, now: int): Option<Result<Experiment, HttpError>> {
    match a
    case StartAction => Some(Lifecycle.Start(e, now))
    case PauseAction => Some(Lifecycle.Pause(e))
    case CompleteAction => Some(Ok(Lifecycle.Complete(e, now)))
    case DeleteAction => None
  }

  /**
   * The menu agrees with the controller's status guards: start is offered
   * exactly for the statuses `start` accepts (its remaining check is the
   * weights), pause exactly for the one `pause` accepts, and complete, which
   * the controller accepts from every status, only for running and paused.
   */
  lemma OfferedActionsPassGuards(e: Experiment, now: int)
    ensures "start" in AvailableActions(StatusName(e.status)) <==> e.status == Draft || e.status == Paused
    ensures "start" in AvailableActions(StatusName(e.status)) ==>
      (Lifecycle.Start(e, now).Ok? <==> Lifecycle.WeightsTotal100(e.variants)) &&
      (Lifecycle.Start(e, now).Err? ==> Lifecycle.Start(e, now).error == HttpError(400, "Variant weights must total 100%"))
    ensures "pause" in AvailableActions(StatusName(e.status)) <==> Lifecycle.Pause(e).Ok?
    ensures "complete" in AvailableActions(StatusName(e.status)) <==> e.status == Running || e.status == Paused
    ensures "delete" in AvailableActions(StatusName(e.status)) <==> e.status == Draft || e.status == Completed
  {
  }

  /** An experiment that has left draft has a start time. */
  predicate HasRun(e: Experiment) {
    e.status != Draft ==> e.startedAt.Some?
  }

  /** `experiment.status === 'running' || experiment.status === 'completed'`. */
  predicate ResultsLinkShown(status: string) {
    status == "running" || status == "completed"
  }

  /**
   * The actions the menu offers keep `HasRun`, so along them the results link
   * appears only for an experiment that has been started. (A direct call of
   * `complete` on a draft, which the menu never offers, would break this.)
   */
  lemma OfferedActionsKeepHasRun(e: Experiment, a: Action, now: int)
    requires HasRun(e) && ActionName(a) in AvailableActions(StatusName(e.status))
    ensures Perform(e, a, now).Some? && Perform(e, a, now).value.Ok? ==> HasRun(Perform(e, a, now).value.value)
    ensures ResultsLinkShown(StatusName(e.status)) <==> e.status == Running || e.status == Completed
    ensures ResultsLinkShown(StatusName(e.status)) ==> e.startedAt.Some?
  {
  }

  // ---------------------------------------------------------------------
  // The search filter
  // ---------------------------------------------------------------------

  /** The page's one failure: calling `toLowerCase` on a null description. */
  datatype PageError = TypeError

  /**
   * The search predicate as written: `||` reads the description only when the
   * name does not match, and a null description then throws.
   */
  function MatchesAsWritten(e: Experiment, term: string): Result<bool, PageError> {
    if Includes(Lower(e.name), Lower(term)) then Ok(true)
    else if e.description.None? then Err(TypeError)
    else Ok(Includes(Lower(e.description.value), Lower(term)))
  }

  /** `experiments.filter(...)` as written: the first throwing row aborts the whole filter. */
  function FilterAsWritten(es: seq<Experiment>, term: string): Result<seq<Experiment>, PageError> {
    if es == [] then Ok([])
    else match MatchesAsWritten(es[0], term)
      case Err(x) => Err(x)
      case Ok(keep) =>
        match FilterAsWritten(es[1..], term)
        case Err(x) => Err(x)
        case Ok(rest) => Ok((if keep then [es[0]] else []) + rest)
  }

  /** Every string includes the empty string. */
  lemma IncludesEmpty(hay: string)
    ensures Includes(hay, "")
  {
    assert OccursAt(hay, "", 0);
  }

  /**
   * The filter as written fails exactly when some row has a null description
   * and a name that does not contain the term.
   */
  lemma {:induction false} FilterAsWrittenFails(es: seq<Experiment>, term: string)
    ensures FilterAsWritten(es, term).Err? <==>
      exists i :: 0 <= i < |es| && es[i].description.None? && !Includes(Lower(es[i].name), Lower(term))
  {
    if es != [] {
      FilterAsWrittenFails(es[1..], term);
      if exists i :: 0 <= i < |es[1..]| && es[1..][i].description.None? && !Includes(Lower(es[1..][i].name), Lower(term)) {
        var i :| 0 <= i < |es[1..]| && es[1..][i].description.None? && !Includes(Lower(es[1..][i].name), Lower(term));
        assert es[i + 1] == es[1..][i];
      }
      if exists i :: 0 <= i < |es| && es[i].description.None? && !Includes(Lower(es[i].name), Lower(term)) {
        var i :| 0 <= i < |es| && es[i].description.None? && !Includes(Lower(es[i].name), Lower(term));
        if i > 0 {
          assert es[1..][i - 1] == es[i];
        }
      }
    }
  }

  /**
   * A concrete failure: a row named "Checkout" with a null description,
   * searched for "pricing", makes the filter throw instead of hiding the row.
   */
  lemma NullDescriptionBreaksSearch(e: Experiment)
    requires e.name == "Checkout" && e.description.None?
    ensures FilterAsWritten([e], "pricing") == Err(TypeError)
  {
    var name, term := Lower(e.name), Lower("pricing");
    assert term[0] == 'p';
    forall i | 0 <= i <= |name| - |term|
      ensures !OccursAt(name, term, i)
    {
      assert name[i] == LowerChar(e.name[i]);
    }
  }

  /** The search predicate with a null description treated as not matching (`description?.`). */
  predicate Matches(e: Experiment, term: string) {
    Includes(Lower(e.name), Lower(term)) ||
    (e.description.Some? && Includes(Lower(e.description.value), Lower(term)))
  }

  /** The filter over the corrected predicate. */
  function Filter(es: seq<Experiment>, term: string): (r: seq<Experiment>)
    ensures |r| <= |es|
    ensures forall e :: e in r <==> e in es && Matches(e, term)
  {
    if es == [] then []
    else (if Matches(es[0], term) then [es[0]] else []) + Filter(es[1..], term)
  }

  /** Filtering a concatenation filters each part, so the kept rows stay in their order. */
  lemma {:induction false} FilterAppend(a: seq<Experiment>, b: seq<Experiment>, term: string)
    ensures Filter(a + b, term) == Filter(a, term) + Filter(b, term)
  {
    if a == [] {
      assert a + b == b;
    } else {
      assert (a + b)[1..] == a[1..] + b;
      FilterAppend(a[1..], b, term);
    }
  }

  /** The empty search term keeps every row, in order. */
  lemma {:induction false} EmptyTermKeepsAll(es: seq<Experiment>)
    ensures Filter(es, "") == es
  {
    if es != [] {
      IncludesEmpty(Lower(es[0].name));
      EmptyTermKeepsAll(es[1..]);
    }
  }

  /** Where the filter as written does not throw, it keeps the same rows as the corrected one. */
  lemma {:induction false} FilterAgreesWhenDefined(es: seq<Experiment>, term: string)
    requires FilterAsWritten(es, term).Ok?
    ensures FilterAsWritten(es, term).value == Filter(es, term)
  {
    if es != [] {
      FilterAgreesWhenDefined(es[1..], term);
    }
  }

  // ---------------------------------------------------------------------
  // Pagination
  // ---------------------------------------------------------------------

  datatype Pagination = Pagination(page: int, limit: int, totalCount: int)

  function Min(a: int, b: int): int {
    if a <= b then a else b
  }

  /** The pagination bar is rendered only when there is more than one page's worth of rows. */
  predicate BarShown(p: Pagination) {
    p.totalCount > p.limit
  }

  /** "Showing <from> to <to> of <totalCount> results". */
  function ShowingFrom(p: Pagination): int {
    (p.page - 1) * p.limit + 1
  }

  function ShowingTo(p: Pagination): int {
    Min(p.page * p.limit, p.totalCount)
  }

  predicate PreviousDisabled(p: Pagination) {
    p.page <= 1
  }

  predicate NextDisabled(p: Pagination) {
    p.page * p.limit >= p.totalCount
  }

  /**
   * On a page that holds rows, the range names them: it starts at the first
   * row of the page, ends at its last or at the total, and spans at most one
   * page's worth; Next is enabled exactly when the next page holds rows, and
   * that page's range starts where this one ends. A page past the last row
   * shows a range whose start lies after its end.
   */
  lemma ShowingRange(p: Pagination)
    requires p.page >= 1 && p.limit >= 1
    ensures (p.page - 1) * p.limit < p.totalCount ==>
      1 <= ShowingFrom(p) <= ShowingTo(p) <= p.totalCount &&
      ShowingTo(p) - ShowingFrom(p) + 1 <= p.limit &&
      (NextDisabled(p) <==> ShowingTo(p) == p.totalCount) &&
      (!PreviousDisabled(p) ==> ShowingTo(p.(page := p.page - 1)) + 1 == ShowingFrom(p))
    ensures !NextDisabled(p) <==> ShowingFrom(p.(page := p.page + 1)) <= p.totalCount
    ensures !NextDisabled(p) ==> ShowingFrom(p.(page := p.page + 1)) == ShowingTo(p) + 1
    ensures (p.page - 1) * p.limit >= p.totalCount ==> ShowingFrom(p) > ShowingTo(p)
  {
    assert p.page * p.limit == (p.page - 1) * p.limit + p.limit;
    assert (p.page + 1 - 1) * p.limit == p.page * p.limit;
    assert (p.page - 1) * p.limit >= 0;
  }

  /** On the first page Previous is disabled; with the bar shown, Next is enabled there. */
  lemma FirstPage(p: Pagination)
    requires p.page == 1 && p.limit >= 1 && BarShown(p)
    ensures PreviousDisabled(p) && !NextDisabled(p)
    ensures ShowingFrom(p) == 1 && ShowingTo(p) == p.limit
  {
  }
}
