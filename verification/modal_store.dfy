/** Two flags: whether the "add" dialog and the "edit" dialog are open. */
module ModalStore {
  class Modals {
    var isAddModalOpen: bool
    var isEditModalOpen: bool

    constructor ()
      ensures !isAddModalOpen && !isEditModalOpen
    {
      isAddModalOpen, isEditModalOpen := false, false;
    }

    // Each operation sets its flag to a constant and leaves the other one
    // alone, so doing it twice is the same as doing it once.

    method OpenAddModal()
      modifies this
      ensures isAddModalOpen && isEditModalOpen == old(isEditModalOpen)
    {
      isAddModalOpen := true;
    }

    method CloseAddModal()
      modifies this
      ensures !isAddModalOpen && isEditModalOpen == old(isEditModalOpen)
    {
      isAddModalOpen := false;
    }

    method OpenEditModal()
      modifies this
      ensures isEditModalOpen && isAddModalOpen == old(isAddModalOpen)
    {
      isEditModalOpen := true;
    }

    method CloseEditModal()
      modifies this
      ensures !isEditModalOpen && isAddModalOpen == old(isAddModalOpen)
    {
      isEditModalOpen := false;
    }
  }
}
