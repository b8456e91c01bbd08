/** The categories page: the list of question categories with add, edit and
    delete modals, keyed on `_id`. Closing a modal only hides it: the working
    copy and the recorded delete id stay as they were. */
module Categories {
  import opened Common
  import opened Entities

  const LoadFailed := "Failed to load categories"
  const CreateFailed := "Failed to create category"
  const UpdateFailed := "Failed to update category"
  const DeleteFailed := "Failed to delete category"

  /** `getEmptyCategory` */
  function EmptyCategory(): (c: Category)
    ensures c.name == "" && c.description == Some("")
    ensures c.icon == Some("feather icon-tag") && c.color == Some("#007bff")
    ensures c.isActive == Some(true) && !Truthy(c.uid)
  {
    Category(None, "", Some(""), Some("feather icon-tag"), Some("#007bff"), Some(true))
  }

  class CategoriesPage {
    var categories: seq<Category>
    var loading: bool
    var error: string
    var showAddModal: bool
    var showEditModal: bool
    var showDeleteModal: bool
    var newCategory: Category
    var editCategory: Category
    var deleteCategoryId: string
    var deleteCategoryName: string

    constructor ()
      ensures categories == [] && !loading && error == ""
      ensures !showAddModal && !showEditModal && !showDeleteModal
      ensures newCategory == EmptyCategory() && editCategory == EmptyCategory()
      ensures deleteCategoryId == "" && deleteCategoryName == ""
    {
      categories := [];
      loading, error := false, "";
      showAddModal, showEditModal, showDeleteModal := false, false, false;
      newCategory, editCategory := EmptyCategory(), EmptyCategory();
      deleteCategoryId, deleteCategoryName := "", "";
    }

    /** The state a finished list load leaves. */
    ghost predicate Loaded(r: Outcome<ListBody<Category>>, previous: seq<Category>)
      reads this
    {
      && !loading
      && (r.Success? ==> categories == DataOrEmpty(r.payload) && error == "")
      && (r.Failure? ==> categories == previous && error == ErrorText(r.message, LoadFailed))
    }

    /** `loadCategories` */
    method LoadCategories(r: Outcome<ListBody<Category>>) returns (calls: seq<Call<Category>>)
      modifies this`categories, this`loading, this`error
      ensures calls == [ListAll]
      ensures Loaded(r, old(categories))
    {
      loading := true;
      error := "";
      calls := [ListAll];
      match r
      case Success(body) =>
        categories := DataOrEmpty(body);
        loading := false;
      case Failure(message) =>
        error := ErrorText(message, LoadFailed);
        loading := false;
    }

    method OpenAddModal()
      modifies this`newCategory, this`showAddModal
      ensures newCategory == EmptyCategory() && showAddModal
    {
      newCategory := EmptyCategory();
      showAddModal := true;
    }

    method CloseAddModal()
      modifies this`showAddModal
      ensures !showAddModal
    {
      showAddModal := false;
    }

    method OpenEditModal(category: Category)
      modifies this`editCategory, this`showEditModal
      ensures editCategory == category && showEditModal
    {
      editCategory := category;
      showEditModal := true;
    }

    method CloseEditModal()
      modifies this`showEditModal
      ensures !showEditModal
    {
      showEditModal := false;
    }

    method OpenDeleteModal(category: Category)
      modifies this`deleteCategoryId, this`deleteCategoryName, this`showDeleteModal
      ensures deleteCategoryId == OrEmpty(category.uid)
      ensures deleteCategoryName == category.name && showDeleteModal
    {
      deleteCategoryId := OrEmpty(category.uid);
      deleteCategoryName := category.name;
      showDeleteModal := true;
    }

    method CloseDeleteModal()
      modifies this`showDeleteModal
      ensures !showDeleteModal
    {
      showDeleteModal := false;
    }

    /** `addCategory` */
    method AddCategory(created: Outcome<()>, reload: Outcome<ListBody<Category>>)
      returns (calls: seq<Call<Category>>)
      modifies this`categories, this`loading, this`error, this`showAddModal
      ensures created.Success? ==> calls == [Create(newCategory), ListAll]
      ensures created.Success? ==> !showAddModal && Loaded(reload, old(categories))
      ensures created.Failure? ==> calls == [Create(newCategory)]
      ensures created.Failure? ==> !loading && error == ErrorText(created.message, CreateFailed)
      ensures created.Failure? ==> categories == old(categories) && showAddModal == old(showAddModal)
    {
      loading := true;
      error := "";
      calls := [Create(newCategory)];
      if created.Success? {
        loading := false;
        CloseAddModal();
        var more := LoadCategories(reload);
        calls := calls + more;
      } else {
        error := ErrorText(created.message, CreateFailed);
        loading := false;
      }
    }

    /** `updateCategory`: does nothing at all when the working copy has no `_id`. */
    method UpdateCategory(updated: Outcome<()>, reload: Outcome<ListBody<Category>>)
      returns (calls: seq<Call<Category>>)
      modifies this`categories, this`loading, this`error, this`showEditModal
      ensures !Truthy(editCategory.uid) ==> calls == [] && unchanged(this)
      ensures Truthy(editCategory.uid) && updated.Success? ==>
                calls == [Update(editCategory.uid.value, editCategory), ListAll]
                && !showEditModal && Loaded(reload, old(categories))
      ensures Truthy(editCategory.uid) && updated.Failure? ==>
                calls == [Update(editCategory.uid.value, editCategory)]
                && !loading && error == ErrorText(updated.message, UpdateFailed)
                && categories == old(categories) && showEditModal == old(showEditModal)
    {
      calls := [];
      if !Truthy(editCategory.uid) {
        return;
      }
      loading := true;
      error := "";
      calls := [Update(editCategory.uid.value, editCategory)];
      if updated.Success? {
        loading := false;
        CloseEditModal();
        var more := LoadCategories(reload);
        calls := calls + more;
      } else {
        error := ErrorText(updated.message, UpdateFailed);
        loading := false;
      }
    }

    /** `confirmDelete`: does nothing at all when no id was recorded; after a
        successful delete the recorded id is still there (only the flag clears). */
    method ConfirmDelete(deleted: Outcome<()>, reload: Outcome<ListBody<Category>>)
      returns (calls: seq<Call<Category>>)
      modifies this`categories, this`loading, this`error, this`showDeleteModal
      ensures deleteCategoryId == "" ==> calls == [] && unchanged(this)
      ensures deleteCategoryId != "" && deleted.Success? ==>
                calls == [Delete(deleteCategoryId), ListAll]
                && !showDeleteModal && Loaded(reload, old(categories))
      ensures deleteCategoryId != "" && deleted.Failure? ==>
                calls == [Delete(deleteCategoryId)]
                && !loading && error == ErrorText(deleted.message, DeleteFailed)
                && categories == old(categories) && showDeleteModal == old(showDeleteModal)
    {
      calls := [];
      if deleteCategoryId == "" {
        return;
      }
      loading := true;
      error := "";
      calls := [Delete(deleteCategoryId)];
      if deleted.Success? {
        loading := false;
        CloseDeleteModal();
        var more := LoadCategories(reload);
        calls := calls + more;
      } else {
        error := ErrorText(deleted.message, DeleteFailed);
        loading := false;
      }
    }
  }
}
