/**
 * `RiskWarningList` (components/risk/RiskWarningList.tsx): the warnings table
 * with type and status filters, per-row actions and the resolve dialog.
 * The component's five state variables are the fields of `RiskWarningList`;
 * the data comes from the `useRiskWarnings` hook it owns.
 */
module RiskWarningList {
  import opened Common
  import opened RiskWarningsHook

  /** The buttons a table row can show. */
  datatype Action = Resolve | Delete | ViewResolution

  /** The row actions offered for a warning in the given status. */
  function Actions(status: RiskWarningStatus): (acts: set<Action>)
    ensures Resolve in acts <==> status == ACTIVE
    ensures Delete in acts <==> status == ACTIVE
    ensures ViewResolution in acts <==> status == RESOLVED
    ensures status == IGNORED <==> acts == {}
  {
    match status
    case ACTIVE => {Resolve, Delete}
    case RESOLVED => {ViewResolution}
    case IGNORED => {}
  }

  /** `getLevelBadge`: the badge colours of a level. */
  function LevelBadge(level: RiskWarningLevel): (cls: string)
    ensures cls != ""
  {
    match level
    case LOW => "bg-green-100 text-green-800"
    case MEDIUM => "bg-yellow-100 text-yellow-800"
    case HIGH => "bg-orange-100 text-orange-800"
    case CRITICAL => "bg-red-100 text-red-800"
  }

  /** `getStatusBadge`: the badge colours of a status. */
  function StatusBadge(status: RiskWarningStatus): (cls: string)
    ensures cls != ""
  {
    match status
    case ACTIVE => "bg-blue-100 text-blue-800"
    case RESOLVED => "bg-green-100 text-green-800"
    case IGNORED => "bg-gray-100 text-gray-800"
  }

  /**
   * Each level has its own colours and so does each status; the only colour
   * a level shares with a status is green, for LOW and RESOLVED.
   */
  lemma BadgesDistinguish(l1: RiskWarningLevel, l2: RiskWarningLevel, s1: RiskWarningStatus, s2: RiskWarningStatus)
    ensures LevelBadge(l1) == LevelBadge(l2) <==> l1 == l2
    ensures StatusBadge(s1) == StatusBadge(s2) <==> s1 == s2
    ensures LevelBadge(l1) == StatusBadge(s1) <==> l1 == LOW && s1 == RESOLVED
  {
  }

  /** `handleResolve`'s guard: a warning is selected and the notes are not empty. */
  predicate ResolveGuard(selected: Option<RiskWarning>, notes: string) {
    selected.Some? && notes != ""
  }

  /** The notes View Resolution loads: the warning's own, or '' when it has none. */
  function ViewedNotes(w: RiskWarning): (notes: string)
    ensures w.resolutionNotes.Some? ==> notes == w.resolutionNotes.value
    ensures w.resolutionNotes.None? ==> notes == ""
  {
    match w.resolutionNotes
    case Some(n) => n
    case None => ""
  }

  class RiskWarningList {
    var selectedType: Option<RiskWarningType>
    var selectedStatus: RiskWarningStatus
    var resolutionNotes: string
    var selectedWarning: Option<RiskWarning>
    var isResolveDialogOpen: bool
    /**
     * The `useRiskWarnings(selectedType, selectedStatus)` instance. The page
     * takes only `warnings`, `loading`, `error`, `fetchWarnings`,
     * `resolveWarning` and `deleteWarning` from it and never calls `refresh`,
     * so the filters the hook was built with are never read again: every
     * fetch the page causes passes the page's current filters explicitly.
     */
    const hook: UseRiskWarnings

    constructor ()
      ensures selectedType == None && selectedStatus == ACTIVE
      ensures resolutionNotes == "" && selectedWarning == None && !isResolveDialogOpen
      ensures fresh(hook) && hook.warnings == [] && hook.initialType == None && hook.initialStatus == ACTIVE
    {
      selectedType := None;
      selectedStatus := ACTIVE;
      resolutionNotes := "";
      selectedWarning := None;
      isResolveDialogOpen := false;
      hook := new UseRiskWarnings(None, Some(ACTIVE));
    }

    /** The Resolve Warning button is disabled exactly when no notes are typed. */
    predicate ResolveDisabled()
      reads this
    {
      resolutionNotes == ""
    }

    /**
     * `handleTypeChange(value)`: the new filter, then the hook's effect
     * fetches with it.
     */
    method HandleTypeChange(value: RiskWarningType, api: RiskWarningApi)
      modifies this, hook
      ensures selectedType == Some(value)
      ensures selectedStatus == old(selectedStatus) && resolutionNotes == old(resolutionNotes)
      ensures selectedWarning == old(selectedWarning) && isResolveDialogOpen == old(isResolveDialogOpen)
      ensures api.list(GetByType(value, selectedStatus)).Ok? ==>
        hook.warnings == api.list(GetByType(value, selectedStatus)).value
      ensures !hook.loading
      ensures api.list(GetByType(value, selectedStatus)).Err? ==>
        hook.warnings == old(hook.warnings) && hook.error == Some(FetchFailed) &&
        hook.notices == old(hook.notices) + [ErrorToast(FetchFailed)]
      ensures api.list(GetByType(value, selectedStatus)).Ok? ==>
        hook.error == None && hook.notices == old(hook.notices)
    {
      selectedType := Some(value);
      hook.FetchWarnings(selectedType, Some(selectedStatus), api);
    }

    /** `handleStatusChange(value)`: likewise for the status filter. */
    method HandleStatusChange(value: RiskWarningStatus, api: RiskWarningApi)
      modifies this, hook
      ensures selectedStatus == value
      ensures selectedType == old(selectedType) && resolutionNotes == old(resolutionNotes)
      ensures selectedWarning == old(selectedWarning) && isResolveDialogOpen == old(isResolveDialogOpen)
      ensures api.list(SourceFor(selectedType, Some(value))).Ok? ==>
        hook.warnings == api.list(SourceFor(selectedType, Some(value))).value
      ensures !hook.loading
      ensures api.list(SourceFor(selectedType, Some(value))).Err? ==>
        hook.warnings == old(hook.warnings) && hook.error == Some(FetchFailed) &&
        hook.notices == old(hook.notices) + [ErrorToast(FetchFailed)]
      ensures api.list(SourceFor(selectedType, Some(value))).Ok? ==>
        hook.error == None && hook.notices == old(hook.notices)
    {
      selectedStatus := value;
      hook.FetchWarnings(selectedType, Some(selectedStatus), api);
    }

    /** Typing in the notes box. */
    method SetResolutionNotes(text: string)
      modifies this
      ensures resolutionNotes == text
      ensures selectedType == old(selectedType) && selectedStatus == old(selectedStatus)
      ensures selectedWarning == old(selectedWarning) && isResolveDialogOpen == old(isResolveDialogOpen)
    {
      resolutionNotes := text;
    }

    /** The dialog's `onOpenChange`. */
    method SetResolveDialogOpen(open: bool)
      modifies this
      ensures isResolveDialogOpen == open
      ensures selectedType == old(selectedType) && selectedStatus == old(selectedStatus)
      ensures selectedWarning == old(selectedWarning) && resolutionNotes == old(resolutionNotes)
    {
      isResolveDialogOpen := open;
    }

    /**
     * A click on one of a row's buttons; only rows on screen (the table is
     * not drawn while the hook holds an error), and only the buttons their
     * status shows, can be clicked. Resolve selects the row
     * and opens the dialog, Delete asks the hook to delete it, View
     * Resolution selects it and loads its notes.
     */
    method Click(w: RiskWarning, action: Action, api: RiskWarningApi) returns (deleted: Option<Outcome<()>>)
      requires hook.error.None? && w in hook.warnings && action in Actions(w.status)
      modifies this, hook
      ensures selectedType == old(selectedType) && selectedStatus == old(selectedStatus)
      ensures hook.error == old(hook.error)
      ensures action == Resolve ==>
        selectedWarning == Some(w) && isResolveDialogOpen && resolutionNotes == old(resolutionNotes) &&
        deleted.None? && hook.warnings == old(hook.warnings) &&
        hook.notices == old(hook.notices) && hook.loading == old(hook.loading)
      ensures action == Delete ==>
        deleted == Some(api.delete(w.id)) &&
        selectedWarning == old(selectedWarning) && resolutionNotes == old(resolutionNotes) &&
        isResolveDialogOpen == old(isResolveDialogOpen) && !hook.loading
      ensures action == Delete && api.delete(w.id).Ok? ==>
        hook.warnings == RemoveById(old(hook.warnings), w.id) &&
        hook.notices == old(hook.notices) + [SuccessToast("Risk warning deleted successfully")]
      ensures action == Delete && api.delete(w.id).Err? ==>
        hook.warnings == old(hook.warnings) &&
        hook.notices == old(hook.notices) + [ErrorToast("Failed to delete risk warning")]
      ensures action == ViewResolution ==>
        selectedWarning == Some(w) && resolutionNotes == ViewedNotes(w) &&
        isResolveDialogOpen == old(isResolveDialogOpen) && deleted.None? && hook.warnings == old(hook.warnings) &&
        hook.notices == old(hook.notices) && hook.loading == old(hook.loading)
    {
      deleted := None;
      match action {
        case Resolve =>
          selectedWarning := Some(w);
          isResolveDialogOpen := true;
        case Delete =>
          var r := hook.DeleteWarning(w.id, api);
          deleted := Some(r);
        case ViewResolution =>
          selectedWarning := Some(w);
          resolutionNotes := ViewedNotes(w);
      }
    }

    /**
     * `handleResolve`: nothing unless the guard holds; otherwise resolve the
     * selected warning as 'current-user' with the typed notes, and only when
     * that succeeds close the dialog and clear the notes and the selection.
     */
    method HandleResolve(api: RiskWarningApi) returns (r: Option<Outcome<RiskWarning>>)
      modifies this, hook
      ensures selectedType == old(selectedType) && selectedStatus == old(selectedStatus)
      ensures !ResolveGuard(old(selectedWarning), old(resolutionNotes)) ==>
        r.None? && selectedWarning == old(selectedWarning) && resolutionNotes == old(resolutionNotes) &&
        isResolveDialogOpen == old(isResolveDialogOpen) && hook.warnings == old(hook.warnings) &&
        hook.notices == old(hook.notices)
      ensures !ResolveGuard(old(selectedWarning), old(resolutionNotes)) ==> hook.loading == old(hook.loading)
      ensures hook.error == old(hook.error)
      ensures ResolveGuard(old(selectedWarning), old(resolutionNotes)) ==>
        r == Some(api.resolve(old(selectedWarning).value.id, "current-user", old(resolutionNotes))) &&
        !hook.loading
      ensures r.Some? && r.value.Ok? ==>
        !isResolveDialogOpen && resolutionNotes == "" && selectedWarning == None &&
        hook.warnings == ReplaceById(old(hook.warnings), old(selectedWarning).value.id, r.value.value) &&
        hook.notices == old(hook.notices) + [SuccessToast("Risk warning resolved successfully")]
      ensures r.Some? && r.value.Err? ==>
        isResolveDialogOpen == old(isResolveDialogOpen) && resolutionNotes == old(resolutionNotes) &&
        selectedWarning == old(selectedWarning) && hook.warnings == old(hook.warnings) &&
        hook.notices == old(hook.notices) + [ErrorToast("Failed to resolve risk warning")]
    {
      r := None;
      if selectedWarning.Some? && resolutionNotes != "" {
        var answer := hook.ResolveWarning(selectedWarning.value.id, "current-user", resolutionNotes, api);
        r := Some(answer);
        if answer.Ok? {
          isResolveDialogOpen := false;
          resolutionNotes := "";
          selectedWarning := None;
        }
      }
    }
  }

  /**
   * With a warning selected, the Resolve Warning button is disabled exactly
   * when `handleResolve` would do nothing.
   */
  lemma DisabledMatchesGuard(l: RiskWarningList)
    requires l.selectedWarning.Some?
    ensures l.ResolveDisabled() <==> !ResolveGuard(l.selectedWarning, l.resolutionNotes)
  {
  }
}
