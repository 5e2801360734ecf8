/**
 * The client's `ui` slice: whether the expense form, the sidebar and the
 * delete confirmation are shown, and which expense the form edits and the
 * confirmation deletes, each by the expense's id. `null` is None.
 */
module UiSlice {
  import opened Wrappers

  class UiStore {
    var showExpenseForm: bool
    var editingExpense: Option<int>
    var sidebarOpen: bool
    var showDeleteModal: bool
    var deletingExpense: Option<int>

    /** An expense is only being edited in an open form, and only deleted from an open confirmation. */
    predicate Valid()
      reads this
    {
      && (editingExpense.Some? ==> showExpenseForm)
      && (deletingExpense.Some? ==> showDeleteModal)
    }

    /** `initialState`: everything closed, nothing selected. */
    constructor ()
      ensures !showExpenseForm && editingExpense == None && !sidebarOpen
      ensures !showDeleteModal && deletingExpense == None
      ensures Valid()
    {
      showExpenseForm, editingExpense, sidebarOpen := false, None, false;
      showDeleteModal, deletingExpense := false, None;
    }

    /** `setShowExpenseForm`: closing the form also drops the expense it was editing. */
    method SetShowExpenseForm(show: bool)
      requires Valid()
      modifies this
      ensures Valid()
      ensures showExpenseForm == show
      ensures editingExpense == if show then old(editingExpense) else None
      ensures sidebarOpen == old(sidebarOpen)
      ensures showDeleteModal == old(showDeleteModal) && deletingExpense == old(deletingExpense)
    {
      showExpenseForm := show;
      if !show {
        editingExpense := None;
      }
    }

    /** `setEditingExpense`: selecting an expense opens the form, clearing the selection closes it. */
    method SetEditingExpense(expenseId: Option<int>)
      requires Valid()
      modifies this
      ensures Valid()
      ensures editingExpense == expenseId && showExpenseForm == expenseId.Some?
      ensures sidebarOpen == old(sidebarOpen)
      ensures showDeleteModal == old(showDeleteModal) && deletingExpense == old(deletingExpense)
    {
      editingExpense := expenseId;
      showExpenseForm := expenseId.Some?;
    }

    /** `setSidebarOpen`. */
    method SetSidebarOpen(open: bool)
      requires Valid()
      modifies this
      ensures Valid()
      ensures sidebarOpen == open
      ensures showExpenseForm == old(showExpenseForm) && editingExpense == old(editingExpense)
      ensures showDeleteModal == old(showDeleteModal) && deletingExpense == old(deletingExpense)
    {
      sidebarOpen := open;
    }

    /** `setShowDeleteModal`: closing the confirmation also drops the expense it was about. */
    method SetShowDeleteModal(show: bool)
      requires Valid()
      modifies this
      ensures Valid()
      ensures showDeleteModal == show
      ensures deletingExpense == if show then old(deletingExpense) else None
      ensures sidebarOpen == old(sidebarOpen)
      ensures showExpenseForm == old(showExpenseForm) && editingExpense == old(editingExpense)
    {
      showDeleteModal := show;
      if !show {
        deletingExpense := None;
      }
    }

    /** `setDeletingExpense`: selecting an expense opens the confirmation, clearing it closes it. */
    method SetDeletingExpense(expenseId: Option<int>)
      requires Valid()
      modifies this
      ensures Valid()
      ensures deletingExpense == expenseId && showDeleteModal == expenseId.Some?
      ensures sidebarOpen == old(sidebarOpen)
      ensures showExpenseForm == old(showExpenseForm) && editingExpense == old(editingExpense)
    {
      deletingExpense := expenseId;
      showDeleteModal := expenseId.Some?;
    }
  }
}
