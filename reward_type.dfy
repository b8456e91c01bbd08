/** The reward types page: the list of reward types with add, edit and delete
    modals, keyed on `id`. Closing a modal only hides it: the working copy and
    the recorded delete id stay as they were. */
module RewardTypes {
  import opened Common
  import opened Entities

  const LoadFailed := "Failed to load reward types"
  const CreateFailed := "Failed to create RewardType"
  const UpdateFailed := "Failed to update RewardType"
  const DeleteFailed := "Failed to delete RewardType"

  /** `getEmptyRewardType`: an empty name and measurement, with no id. */
  function EmptyRewardType(): (t: RewardType)
    ensures t.name == "" && t.measurement == "" && !Truthy(t.id)
  {
    RewardType(None, "", "")
  }

  class RewardTypesPage {
    var rewardTypes: seq<RewardType>
    var loading: bool
    var error: string
    var showAddModal: bool
    var showEditModal: bool
    var showDeleteModal: bool
    var newRewardType: RewardType
    var editRewardType: RewardType
    var deleteRewardTypeId: string
    var deleteRewardTypeName: string

    constructor ()
      ensures rewardTypes == [] && !loading && error == ""
      ensures !showAddModal && !showEditModal && !showDeleteModal
      ensures newRewardType == EmptyRewardType() && editRewardType == EmptyRewardType()
      ensures deleteRewardTypeId == "" && deleteRewardTypeName == ""
    {
      rewardTypes := [];
      loading, error := false, "";
      showAddModal, showEditModal, showDeleteModal := false, false, false;
      newRewardType, editRewardType := EmptyRewardType(), EmptyRewardType();
      deleteRewardTypeId, deleteRewardTypeName := "", "";
    }

    /** The state a finished list load leaves. */
    ghost predicate Loaded(r: Outcome<ListBody<RewardType>>, previous: seq<RewardType>)
      reads this
    {
      && !loading
      && (r.Success? ==> rewardTypes == DataOrEmpty(r.payload) && error == "")
      && (r.Failure? ==> rewardTypes == previous && error == ErrorText(r.message, LoadFailed))
    }

    /** `loadRewardTypes` */
    method LoadRewardTypes(r: Outcome<ListBody<RewardType>>) returns (calls: seq<Call<RewardType>>)
      modifies this`rewardTypes, this`loading, this`error
      ensures calls == [ListAll]
      ensures Loaded(r, old(rewardTypes))
    {
      loading := true;
      error := "";
      calls := [ListAll];
      match r
      case Success(body) =>
        rewardTypes := DataOrEmpty(body);
        loading := false;
      case Failure(message) =>
        error := ErrorText(message, LoadFailed);
        loading := false;
    }

    method OpenAddModal()
      modifies this`newRewardType, this`showAddModal
      ensures newRewardType == EmptyRewardType() && showAddModal
    {
      newRewardType := EmptyRewardType();
      showAddModal := true;
    }

    method CloseAddModal()
      modifies this`showAddModal
      ensures !showAddModal
    {
      showAddModal := false;
    }

    method OpenEditModal(rewardType: RewardType)
      modifies this`editRewardType, this`showEditModal
      ensures editRewardType == rewardType && showEditModal
    {
      editRewardType := rewardType;
      showEditModal := true;
    }

    method CloseEditModal()
      modifies this`showEditModal
      ensures !showEditModal
    {
      showEditModal := false;
    }

    method OpenDeleteModal(rewardType: RewardType)
      modifies this`deleteRewardTypeId, this`deleteRewardTypeName, this`showDeleteModal
      ensures deleteRewardTypeId == OrEmpty(rewardType.id)
      ensures deleteRewardTypeName == rewardType.name && showDeleteModal
    {
      deleteRewardTypeId := OrEmpty(rewardType.id);
      deleteRewardTypeName := rewardType.name;
      showDeleteModal := true;
    }

    method CloseDeleteModal()
      modifies this`showDeleteModal
      ensures !showDeleteModal
    {
      showDeleteModal := false;
    }

    /** `addRewardType` */
    method AddRewardType(created: Outcome<()>, reload: Outcome<ListBody<RewardType>>)
      returns (calls: seq<Call<RewardType>>)
      modifies this`rewardTypes, this`loading, this`error, this`showAddModal
      ensures created.Success? ==> calls == [Create(newRewardType), ListAll]
      ensures created.Success? ==> !showAddModal && Loaded(reload, old(rewardTypes))
      ensures created.Failure? ==> calls == [Create(newRewardType)]
      ensures created.Failure? ==> !loading && error == ErrorText(created.message, CreateFailed)
      ensures created.Failure? ==> rewardTypes == old(rewardTypes) && showAddModal == old(showAddModal)
    {
      loading := true;
      error := "";
      calls := [Create(newRewardType)];
      if created.Success? {
        loading := false;
        CloseAddModal();
        var more := LoadRewardTypes(reload);
        calls := calls + more;
      } else {
        error := ErrorText(created.message, CreateFailed);
        loading := false;
      }
    }

    /** `updateRewardType`: does nothing at all when the working copy has no `id`. */
    method UpdateRewardType(updated: Outcome<()>, reload: Outcome<ListBody<RewardType>>)
      returns (calls: seq<Call<RewardType>>)
      modifies this`rewardTypes, this`loading, this`error, this`showEditModal
      ensures !Truthy(editRewardType.id) ==> calls == [] && unchanged(this)
      ensures Truthy(editRewardType.id) && updated.Success? ==>
                calls == [Update(editRewardType.id.value, editRewardType), ListAll]
                && !showEditModal && Loaded(reload, old(rewardTypes))
      ensures Truthy(editRewardType.id) && updated.Failure? ==>
                calls == [Update(editRewardType.id.value, editRewardType)]
                && !loading && error == ErrorText(updated.message, UpdateFailed)
                && rewardTypes == old(rewardTypes) && showEditModal == old(showEditModal)
    {
      calls := [];
      if !Truthy(editRewardType.id) {
        return;
      }
      loading := true;
      error := "";
      calls := [Update(editRewardType.id.value, editRewardType)];
      if updated.Success? {
        loading := false;
        CloseEditModal();
        var more := LoadRewardTypes(reload);
        calls := calls + more;
      } else {
        error := ErrorText(updated.message, UpdateFailed);
        loading := false;
      }
    }

    /** `confirmDelete`: does nothing at all when no id was recorded; after a
        successful delete the recorded id is still there (only the flag clears). */
    method ConfirmDelete(deleted: Outcome<()>, reload: Outcome<ListBody<RewardType>>)
      returns (calls: seq<Call<RewardType>>)
      modifies this`rewardTypes, this`loading, this`error, this`showDeleteModal
      ensures deleteRewardTypeId == "" ==> calls == [] && unchanged(this)
      ensures deleteRewardTypeId != "" && deleted.Success? ==>
                calls == [Delete(deleteRewardTypeId), ListAll]
                && !showDeleteModal && Loaded(reload, old(rewardTypes))
      ensures deleteRewardTypeId != "" && deleted.Failure? ==>
                calls == [Delete(deleteRewardTypeId)]
                && !loading && error == ErrorText(deleted.message, DeleteFailed)
                && rewardTypes == old(rewardTypes) && showDeleteModal == old(showDeleteModal)
    {
      calls := [];
      if deleteRewardTypeId == "" {
        return;
      }
      loading := true;
      error := "";
      calls := [Delete(deleteRewardTypeId)];
      if deleted.Success? {
        loading := false;
        CloseDeleteModal();
        var more := LoadRewardTypes(reload);
        calls := calls + more;
      } else {
        error := ErrorText(deleted.message, DeleteFailed);
        loading := false;
      }
    }
  }
}
