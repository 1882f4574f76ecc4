/** The add/edit modal shared by the CRUD pages: whether it is shown, the
    item being edited (none when adding), and the form's values. `F` is the
    form's value type and `defaults` what `form.reset()` restores. */
module FormModal {
  import opened Wrappers

  datatype Modal<I, F> = Modal(showModal: bool, editingItem: Option<I>, form: F)

  /** The resting state: hidden, nothing being edited, the form at its
      defaults. */
  predicate Closed<I, F(==)>(m: Modal<I, F>, defaults: F) {
    !m.showModal && m.editingItem.None? && m.form == defaults
  }

  /** The state the hook starts in. */
  function Initial<I, F>(defaults: F): (m: Modal<I, F>)
    ensures !m.showModal && m.editingItem.None?
  {
    Modal(false, None, defaults)
  }

  /** `openAddModal()`: a blank form for a new item. */
  function OpenAdd<I, F>(m: Modal<I, F>, defaults: F): (r: Modal<I, F>)
    ensures r.showModal && r.editingItem.None? && r.form == defaults
  {
    Modal(true, None, defaults)
  }

  /** `openEditModal(item, mapToForm)`: the form holds what `mapToForm`
      makes of the item, and the item is remembered. */
  function OpenEdit<I, F>(m: Modal<I, F>, item: I, mapToForm: I -> F): (r: Modal<I, F>)
    ensures r.showModal && r.editingItem == Some(item) && r.form == mapToForm(item)
  {
    Modal(true, Some(item), mapToForm(item))
  }

  /** `closeModal()`. */
  function Close<I, F(==)>(m: Modal<I, F>, defaults: F): (r: Modal<I, F>)
    ensures Closed(r, defaults)
  {
    Modal(false, None, defaults)
  }

  /** What a submit did: whether `onSubmit` was called. */
  datatype Submitted<I, F> = Submitted(modal: Modal<I, F>, calledOnSubmit: bool)

  /** `handleSubmit`: a form that fails validation does not reach
      `onSubmit`; a completed `onSubmit` closes the modal; one that throws
      leaves the modal exactly as it was. */
  function Submit<I, F(==)>(m: Modal<I, F>, valid: bool, saved: Outcome<()>, defaults: F): (r: Submitted<I, F>)
    ensures r.calledOnSubmit <==> valid
    ensures !(valid && saved.Returned?) ==> r.modal == m
    ensures valid && saved.Returned? ==> r.modal == Close(m, defaults)
  {
    if !valid then Submitted(m, false)
    else
      match saved
      case Threw(_) => Submitted(m, true)
      case Returned(_) => Submitted(Close(m, defaults), true)
  }

  /** Closing forgets how the modal was opened: after an add or an edit,
      closing gives the same state. */
  lemma CloseForgetsOpening<I, F>(m: Modal<I, F>, item: I, mapToForm: I -> F, defaults: F)
    ensures Close(OpenAdd(m, defaults), defaults) == Close(OpenEdit(m, item, mapToForm), defaults) == Initial(defaults)
  {
  }

  /** An edit whose save throws can be retried: the modal is still open on
      the same item and the same values. */
  lemma FailedSaveKeepsEdit<I, F>(m: Modal<I, F>, item: I, mapToForm: I -> F, message: string, defaults: F)
    ensures var shown := OpenEdit(m, item, mapToForm);
      var r := Submit(shown, true, Threw(message), defaults).modal;
      r.showModal && r.editingItem == Some(item) && r.form == mapToForm(item)
  {
  }
}
