/**
 * `useConfirm` (hooks/useConfirm.ts): a confirmation dialog kept in three
 * pieces of state (open flag, dialog texts, stored resolver) with separate
 * confirm and cancel handlers. Unlike app/hooks/useConfirm.ts, closing never
 * clears the stored resolver.
 */
module Confirm {
  import opened Common
  import opened Js
  import AppConfirm

  type PromiseId = AppConfirm.PromiseId

  datatype DialogProps = DialogProps(
    title: string, message: string, confirmLabel: Option<string>, cancelLabel: Option<string>)

  /** The three state variables of the hook plus the promises it has created. */
  datatype DialogWorld = DialogWorld(
    isOpen: bool,
    dialogProps: DialogProps,
    resolveRef: Option<PromiseId>,
    settled: map<PromiseId, bool>,
    next: PromiseId)

  const InitialProps := DialogProps("", "", None, None)

  /** The cancel button's text: the given label unless it is missing or empty. */
  function CancelLabel(p: DialogProps): (text: string)
    ensures Given(p.cancelLabel) ==> text == p.cancelLabel.value
    ensures !Given(p.cancelLabel) ==> text == "Cancel"
    ensures text != ""
  {
    if Given(p.cancelLabel) then p.cancelLabel.value else "Cancel"
  }

  /** The confirm button's text: the given label unless it is missing or empty. */
  function ConfirmLabel(p: DialogProps): (text: string)
    ensures Given(p.confirmLabel) ==> text == p.confirmLabel.value
    ensures !Given(p.confirmLabel) ==> text == "Confirm"
    ensures text != ""
  {
    if Given(p.confirmLabel) then p.confirmLabel.value else "Confirm"
  }

  /** `confirm(props)`: open with these texts and store a new promise's resolver. */
  function Ask(w: DialogWorld, props: DialogProps): DialogWorld {
    DialogWorld(true, props, Some(w.next), w.settled, w.next + 1)
  }

  /** `handleConfirm` (`true`) and `handleClose` (`false`): close, call the resolver if any. */
  function Answer(w: DialogWorld, v: bool): DialogWorld {
    var settled := match w.resolveRef
      case Some(p) => AppConfirm.Settle(w.settled, p, v)
      case None => w.settled;
    w.(isOpen := false, settled := settled)
  }

  /**
   * The stored resolver survives closing, so a second answer reaches the
   * same promise; it settled on the first answer and keeps that value.
   */
  lemma FirstAnswerWins(w: DialogWorld, props: DialogProps, first: bool, second: bool)
    ensures var p := w.next;
      Answer(Ask(w, props), first).resolveRef == Some(p) &&
      Answer(Answer(Ask(w, props), first), second).settled == Answer(Ask(w, props), first).settled &&
      (w.next !in w.settled ==> Answer(Answer(Ask(w, props), first), second).settled[p] == first)
  {
  }

  class UseConfirm {
    var isOpen: bool
    var dialogProps: DialogProps
    var resolveRef: Option<PromiseId>
    /** The value each promise returned by `confirm` has settled with. */
    var settled: map<PromiseId, bool>
    /** The name the next promise gets. */
    var next: PromiseId

    function State(): DialogWorld
      reads this
    {
      DialogWorld(isOpen, dialogProps, resolveRef, settled, next)
    }

    /** Every promise named anywhere was created already. */
    predicate Valid()
      reads this
    {
      (forall p :: p in settled ==> p < next) &&
      (resolveRef.Some? ==> resolveRef.value < next)
    }

    constructor ()
      ensures !isOpen && dialogProps == DialogProps("", "", None, None) && resolveRef == None
      ensures settled == map[] && Valid()
    {
      isOpen := false;
      dialogProps := InitialProps;
      resolveRef := None;
      settled := map[];
      next := 0;
    }

    /** `confirm(props)`. */
    method Confirm(props: DialogProps) returns (p: PromiseId)
      requires Valid()
      modifies this
      ensures Valid()
      ensures p !in settled && p == old(next)
      ensures isOpen && dialogProps == props && resolveRef == Some(p) && settled == old(settled)
      ensures State() == Ask(old(State()), props)
    {
      dialogProps := props;
      isOpen := true;
      p := next;
      next := next + 1;
      resolveRef := Some(p);
    }

    /** `handleConfirm`: the confirm button. */
    method HandleConfirm()
      requires Valid()
      modifies this
      ensures Valid()
      ensures !isOpen && dialogProps == old(dialogProps) && resolveRef == old(resolveRef)
      ensures State() == Answer(old(State()), true)
    {
      isOpen := false;
      if resolveRef.Some? {
        settled := AppConfirm.Settle(settled, resolveRef.value, true);
      }
    }

    /** `handleClose`: the cancel button, and the dialog's own `onClose` (backdrop, Escape). */
    method HandleClose()
      requires Valid()
      modifies this
      ensures Valid()
      ensures !isOpen && dialogProps == old(dialogProps) && resolveRef == old(resolveRef)
      ensures State() == Answer(old(State()), false)
    {
      isOpen := false;
      if resolveRef.Some? {
        settled := AppConfirm.Settle(settled, resolveRef.value, false);
      }
    }
  }

  /** A confirm answered by the confirm button settles `true`; a later cancel changes nothing. */
  method ConfirmThenDismiss(h: UseConfirm, props: DialogProps) returns (p: PromiseId)
    requires h.Valid()
    modifies h
    ensures p in h.settled && h.settled[p] && !h.isOpen
  {
    p := h.Confirm(props);
    h.HandleConfirm();
    h.HandleClose();
  }
}
