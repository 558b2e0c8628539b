/** ConfirmModalProvider and useConfirmModal (src/hooks/useConfirmModal.tsx): one cell holding the
    open dialog's options, set by openModal and cleared by cancel and by confirm. */
module ConfirmModal {
  import opened Wrappers
  import opened Http

  /** The options a caller passes; the confirm callback is known by its identity. */
  datatype Options = Options(title: string, message: string, confirmLabel: string, onConfirm: nat)

  /** The stored cell: the options with isOpen set. */
  datatype ModalProps = ModalProps(options: Options, isOpen: bool)

  /** The provider's context value, which exposes openModal. */
  datatype Context = ProviderContext

  const OutsideProvider := "useConfirmModal must be used within a ConfirmModalProvider"

  /** useConfirmModal: the context, or the Error it throws outside a provider. */
  function UseConfirmModal(context: Option<Context>): (r: Result<Context, Thrown>)
    ensures r.Success? <==> context.Some?
    ensures r.Failure? ==> r.error == ErrorThrown(OutsideProvider)
  {
    if context.None? then Failure(ErrorThrown(OutsideProvider)) else Success(context.value)
  }

  class Provider {
    var modalProps: Option<ModalProps>

    constructor()
      ensures modalProps.None?
    {
      modalProps := None;
    }

    /** The dialog is rendered whenever the cell is set. */
    predicate Rendered()
      reads this
    {
      modalProps.Some?
    }

    /** openModal replaces whatever was stored. */
    method OpenModal(options: Options)
      modifies this
      ensures modalProps == Some(ModalProps(options, true))
    {
      modalProps := Some(ModalProps(options, true));
    }

    /** onCancel is closeModal. */
    method Cancel()
      modifies this
      ensures modalProps.None?
    {
      modalProps := None;
    }

    /** onConfirm: the stored callback runs once, then the dialog closes. `ran` lists the
        callbacks called, in order. */
    method Confirm() returns (ran: seq<nat>)
      modifies this
      ensures old(modalProps).Some? ==> ran == [old(modalProps).value.options.onConfirm]
      ensures old(modalProps).None? ==> ran == []
      ensures modalProps.None?
    {
      ran := [];
      if modalProps.Some? {
        ran := ran + [modalProps.value.options.onConfirm];
      }
      modalProps := None;
    }
  }
}
