/**
 * `useConfirm` (app/hooks/useConfirm.ts): a confirmation dialog whose
 * `confirm` returns a promise that the dialog's close handler settles.
 *
 * Promises are named by `PromiseId`s handed out in order; `settled` records the
 * value each promise settled with. Settling an already settled promise does
 * nothing, as for a JavaScript promise.
 */
module AppConfirm {
  import opened Common

  type PromiseId = nat

  /** `resolve(v)` on promise `p`: the first settlement sticks. */
  function Settle(settled: map<PromiseId, bool>, p: PromiseId, v: bool): map<PromiseId, bool> {
    if p in settled then settled else settled[p := v]
  }

  datatype ConfirmOptions = ConfirmOptions(
    title: string, message: string, confirmLabel: Option<string>, cancelLabel: Option<string>)

  /** The hook's single state record, holding the pending promise's resolver. */
  datatype ConfirmState = ConfirmState(
    isOpen: bool,
    title: string,
    message: string,
    confirmLabel: Option<string>,
    cancelLabel: Option<string>,
    resolve: Option<PromiseId>)

  /** The hook's state together with the promises it has created. */
  datatype World = World(confirmState: ConfirmState, settled: map<PromiseId, bool>, next: PromiseId)

  const InitialState := ConfirmState(false, "", "", None, None, None)

  /** Every promise named anywhere was created already. */
  predicate Valid(w: World) {
    (forall p :: p in w.settled ==> p < w.next) &&
    (w.confirmState.resolve.Some? ==> w.confirmState.resolve.value < w.next)
  }

  /** `confirm(options)`: a new promise, the dialog open with exactly these options. */
  function Ask(w: World, o: ConfirmOptions): World {
    World(ConfirmState(true, o.title, o.message, o.confirmLabel, o.cancelLabel, Some(w.next)),
          w.settled, w.next + 1)
  }

  /** `handleClose(v)`: settle the stored resolver, if any, with `v`; close the dialog. */
  function Close(w: World, v: bool): World {
    var settled := match w.confirmState.resolve
      case Some(p) => Settle(w.settled, p, v)
      case None => w.settled;
    World(w.confirmState.(isOpen := false), settled, w.next)
  }

  datatype Step = ConfirmStep(options: ConfirmOptions) | CloseStep(value: bool)

  function Apply(w: World, s: Step): World {
    match s
    case ConfirmStep(o) => Ask(w, o)
    case CloseStep(v) => Close(w, v)
  }

  /** A run of handler calls, first to last. */
  function Run(w: World, steps: seq<Step>): World
    decreases |steps|
  {
    if steps == [] then w else Run(Apply(w, steps[0]), steps[1..])
  }

  /** Once a promise has settled, no later handler call changes its value. */
  lemma {:induction false} SettledStays(w: World, steps: seq<Step>, p: PromiseId)
    requires p in w.settled
    ensures p in Run(w, steps).settled && Run(w, steps).settled[p] == w.settled[p]
    decreases |steps|
  {
    if steps != [] {
      SettledStays(Apply(w, steps[0]), steps[1..], p);
    }
  }

  /**
   * A promise whose resolver was overwritten before it settled never
   * settles, whatever handler calls follow.
   */
  lemma {:induction false} OrphanNeverSettles(w: World, steps: seq<Step>, p: PromiseId)
    requires Valid(w) && p < w.next && p !in w.settled && w.confirmState.resolve != Some(p)
    ensures p !in Run(w, steps).settled
    decreases |steps|
  {
    if steps != [] {
      var w' := Apply(w, steps[0]);
      assert Valid(w') && p < w'.next && p !in w'.settled && w'.confirmState.resolve != Some(p);
      OrphanNeverSettles(w', steps[1..], p);
    }
  }

  /**
   * Two `confirm` calls before any close: the first promise stays pending
   * forever, the second is the one the next close settles.
   */
  lemma SecondConfirmOrphansFirst(w: World, o1: ConfirmOptions, o2: ConfirmOptions, v: bool, later: seq<Step>)
    requires Valid(w)
    ensures Close(Ask(Ask(w, o1), o2), v).settled == w.settled[w.next + 1 := v]
    ensures w.next !in Run(Ask(Ask(w, o1), o2), later).settled
  {
    OrphanNeverSettles(Ask(Ask(w, o1), o2), later, w.next);
  }

  class UseConfirm {
    var confirmState: ConfirmState
    /** The value each promise returned by `confirm` has settled with. */
    var settled: map<PromiseId, bool>
    /** The name the next promise gets. */
    var next: PromiseId

    function State(): World
      reads this
    {
      World(confirmState, settled, next)
    }

    constructor ()
      ensures confirmState == ConfirmState(false, "", "", None, None, None)
      ensures settled == map[] && Valid(State())
    {
      confirmState := InitialState;
      settled := map[];
      next := 0;
    }

    /** `confirm({title, message, confirmLabel, cancelLabel})`. */
    method Confirm(options: ConfirmOptions) returns (p: PromiseId)
      requires Valid(State())
      modifies this
      ensures Valid(State())
      ensures p !in settled && p == old(next)
      ensures confirmState == ConfirmState(true, options.title, options.message,
                                           options.confirmLabel, options.cancelLabel, Some(p))
      ensures settled == old(settled)
      ensures State() == Ask(old(State()), options)
    {
      p := next;
      next := next + 1;
      confirmState := ConfirmState(true, options.title, options.message,
                                   options.confirmLabel, options.cancelLabel, Some(p));
    }

    /** `handleClose(value)`. */
    method HandleClose(value: bool)
      requires Valid(State())
      modifies this
      ensures Valid(State())
      ensures confirmState == old(confirmState).(isOpen := false)
      ensures old(confirmState.resolve).Some? ==>
        settled == Settle(old(settled), old(confirmState.resolve.value), value)
      ensures old(confirmState.resolve).None? ==> settled == old(settled)
      ensures State() == Close(old(State()), value)
    {
      if confirmState.resolve.Some? {
        settled := Settle(settled, confirmState.resolve.value, value);
      }
      confirmState := confirmState.(isOpen := false);
    }
  }

  /** A confirmation settles with exactly the value of the close that answers it. */
  method ConfirmThenClose(h: UseConfirm, options: ConfirmOptions, value: bool) returns (p: PromiseId)
    requires Valid(h.State())
    modifies h
    ensures p in h.settled && h.settled[p] == value && !h.confirmState.isOpen
  {
    p := h.Confirm(options);
    h.HandleClose(value);
  }
}
