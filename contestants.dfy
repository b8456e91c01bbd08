/** The contestants page: the list of contestants with add, edit and delete
    modals. The working copies are reset to the empty contestant when a modal
    closes; the delete modal records the contestant's `id` and name. */
module Contestants {
  import opened Common
  import opened Entities

  const LoadFailed := "Failed to load contestants"
  const CreateFailed := "Failed to create contestant"
  const UpdateFailed := "Failed to update contestant"
  const DeleteFailed := "Failed to delete contestant"

  /** `getEmptyContestant`: `{ name: '' }`, with no id. */
  function EmptyContestant(): (c: Contestant)
    ensures c.name == "" && !Truthy(c.id)
  {
    Contestant(None, "")
  }

  class ContestantsPage {
    var contestants: seq<Contestant>
    var loading: bool
    var error: string
    var showAddModal: bool
    var showEditModal: bool
    var showDeleteModal: bool
    var newContestant: Contestant
    var editContestant: Contestant
    var deleteContestantId: string
    var deleteContestantName: string

    constructor ()
      ensures contestants == [] && !loading && error == ""
      ensures !showAddModal && !showEditModal && !showDeleteModal
      ensures newContestant == EmptyContestant() && editContestant == EmptyContestant()
      ensures deleteContestantId == "" && deleteContestantName == ""
    {
      contestants := [];
      loading, error := false, "";
      showAddModal, showEditModal, showDeleteModal := false, false, false;
      newContestant, editContestant := EmptyContestant(), EmptyContestant();
      deleteContestantId, deleteContestantName := "", "";
    }

    /** The state a finished list load leaves: loading is over; on success the
        list is the response's `data` (or empty), on failure the list is kept
        and the error is shown. */
    ghost predicate Loaded(r: Outcome<ListBody<Contestant>>, previous: seq<Contestant>)
      reads this
    {
      && !loading
      && (r.Success? ==> contestants == DataOrEmpty(r.payload) && error == "")
      && (r.Failure? ==> contestants == previous && error == ErrorText(r.message, LoadFailed))
    }

    /** `loadContestants` */
    method LoadContestants(r: Outcome<ListBody<Contestant>>) returns (calls: seq<Call<Contestant>>)
      modifies this`contestants, this`loading, this`error
      ensures calls == [ListAll]
      ensures Loaded(r, old(contestants))
    {
      loading := true;
      error := "";
      calls := [ListAll];
      match r
      case Success(body) =>
        contestants := DataOrEmpty(body);
        loading := false;
      case Failure(message) =>
        error := ErrorText(message, LoadFailed);
        loading := false;
    }

    method OpenAddModal()
      modifies this`newContestant, this`showAddModal
      ensures newContestant == EmptyContestant() && showAddModal
    {
      newContestant := EmptyContestant();
      showAddModal := true;
    }

    method CloseAddModal()
      modifies this`newContestant, this`showAddModal
      ensures newContestant == EmptyContestant() && !showAddModal
    {
      showAddModal := false;
      newContestant := EmptyContestant();
    }

    /** The edit modal works on a copy; the list is not touched until saved. */
    method OpenEditModal(contestant: Contestant)
      modifies this`editContestant, this`showEditModal
      ensures editContestant == contestant && showEditModal
    {
      editContestant := contestant;
      showEditModal := true;
    }

    method CloseEditModal()
      modifies this`editContestant, this`showEditModal
      ensures editContestant == EmptyContestant() && !showEditModal
    {
      showEditModal := false;
      editContestant := EmptyContestant();
    }

    method OpenDeleteModal(contestant: Contestant)
      modifies this`deleteContestantId, this`deleteContestantName, this`showDeleteModal
      ensures deleteContestantId == OrEmpty(contestant.id)
      ensures deleteContestantName == contestant.name && showDeleteModal
    {
      deleteContestantId := OrEmpty(contestant.id);
      deleteContestantName := contestant.name;
      showDeleteModal := true;
    }

    method CloseDeleteModal()
      modifies this`deleteContestantId, this`deleteContestantName, this`showDeleteModal
      ensures deleteContestantId == "" && deleteContestantName == "" && !showDeleteModal
    {
      showDeleteModal := false;
      deleteContestantId := "";
      deleteContestantName := "";
    }

    /** `addContestant`: on success the modal closes and the list is reloaded
        (with its own outcome `reload`); on failure the modal stays open. */
    method AddContestant(created: Outcome<()>, reload: Outcome<ListBody<Contestant>>)
      returns (calls: seq<Call<Contestant>>)
      modifies this`contestants, this`loading, this`error, this`newContestant, this`showAddModal
      ensures created.Success? ==> calls == [Create(old(newContestant)), ListAll]
      ensures created.Success? ==> !showAddModal && newContestant == EmptyContestant()
      ensures created.Success? ==> Loaded(reload, old(contestants))
      ensures created.Failure? ==> calls == [Create(old(newContestant))]
      ensures created.Failure? ==> !loading && error == ErrorText(created.message, CreateFailed)
      ensures created.Failure? ==> contestants == old(contestants)
      ensures created.Failure? ==> showAddModal == old(showAddModal) && newContestant == old(newContestant)
    {
      loading := true;
      error := "";
      calls := [Create(newContestant)];
      if created.Success? {
        loading := false;
        CloseAddModal();
        var more := LoadContestants(reload);
        calls := calls + more;
      } else {
        error := ErrorText(created.message, CreateFailed);
        loading := false;
      }
    }

    /** `updateContestant`: does nothing at all when the working copy has no id. */
    method UpdateContestant(updated: Outcome<()>, reload: Outcome<ListBody<Contestant>>)
      returns (calls: seq<Call<Contestant>>)
      modifies this`contestants, this`loading, this`error, this`editContestant, this`showEditModal
      ensures !Truthy(old(editContestant.id)) ==> calls == [] && unchanged(this)
      ensures Truthy(old(editContestant.id)) && updated.Success? ==>
                calls == [Update(old(editContestant.id.value), old(editContestant)), ListAll]
                && !showEditModal && editContestant == EmptyContestant()
                && Loaded(reload, old(contestants))
      ensures Truthy(old(editContestant.id)) && updated.Failure? ==>
                calls == [Update(old(editContestant.id.value), old(editContestant))]
                && !loading && error == ErrorText(updated.message, UpdateFailed)
                && contestants == old(contestants)
                && showEditModal == old(showEditModal) && editContestant == old(editContestant)
    {
      calls := [];
      if !Truthy(editContestant.id) {
        return;
      }
      loading := true;
      error := "";
      calls := [Update(editContestant.id.value, editContestant)];
      if updated.Success? {
        loading := false;
        CloseEditModal();
        var more := LoadContestants(reload);
        calls := calls + more;
      } else {
        error := ErrorText(updated.message, UpdateFailed);
        loading := false;
      }
    }

    /** `confirmDelete`: does nothing at all when no id was recorded. */
    method ConfirmDelete(deleted: Outcome<()>, reload: Outcome<ListBody<Contestant>>)
      returns (calls: seq<Call<Contestant>>)
      modifies this`contestants, this`loading, this`error
      modifies this`deleteContestantId, this`deleteContestantName, this`showDeleteModal
      ensures old(deleteContestantId) == "" ==> calls == [] && unchanged(this)
      ensures old(deleteContestantId) != "" && deleted.Success? ==>
                calls == [Delete(old(deleteContestantId)), ListAll]
                && !showDeleteModal && deleteContestantId == "" && deleteContestantName == ""
                && Loaded(reload, old(contestants))
      ensures old(deleteContestantId) != "" && deleted.Failure? ==>
                calls == [Delete(old(deleteContestantId))]
                && !loading && error == ErrorText(deleted.message, DeleteFailed)
                && contestants == old(contestants) && showDeleteModal == old(showDeleteModal)
                && deleteContestantId == old(deleteContestantId)
                && deleteContestantName == old(deleteContestantName)
    {
      calls := [];
      if deleteContestantId == "" {
        return;
      }
      loading := true;
      error := "";
      calls := [Delete(deleteContestantId)];
      if deleted.Success? {
        loading := false;
        CloseDeleteModal();
        var more := LoadContestants(reload);
        calls := calls + more;
      } else {
        error := ErrorText(deleted.message, DeleteFailed);
        loading := false;
      }
    }
  }
}
