/** The teams page: the list of teams with add, edit and delete modals, keyed
    on `_id`. Closing a modal only hides it: the working copy and the recorded
    delete id stay as they were. */
module Teams {
  import opened Common
  import opened Entities

  const LoadFailed := "Failed to load teams"
  const CreateFailed := "Failed to create team"
  const UpdateFailed := "Failed to update team"
  const DeleteFailed := "Failed to delete team"

  /** `getEmptyTeam`: a blank team with the default colour and zero statistics. */
  function EmptyTeam(): (t: Team)
    ensures t.name == "" && t.description == Some("") && t.captain == Some("")
    ensures t.color == Some("#007bff") && t.isActive == Some(true)
    ensures t.totalScore == Some(0) && t.gamesPlayed == Some(0)
    ensures t.wins == Some(0) && t.losses == Some(0)
    ensures !Truthy(t.uid) && t.id.None?
  {
    Team(None, None, "", Some(""), Some("#007bff"), Some(""), Some(0), Some(0), Some(0), Some(0), Some(true))
  }

  class TeamsPage {
    var teams: seq<Team>
    var loading: bool
    var error: string
    var showAddModal: bool
    var showEditModal: bool
    var showDeleteModal: bool
    var newTeam: Team
    var editTeam: Team
    var deleteTeamId: string
    var deleteTeamName: string

    constructor ()
      ensures teams == [] && !loading && error == ""
      ensures !showAddModal && !showEditModal && !showDeleteModal
      ensures newTeam == EmptyTeam() && editTeam == EmptyTeam()
      ensures deleteTeamId == "" && deleteTeamName == ""
    {
      teams := [];
      loading, error := false, "";
      showAddModal, showEditModal, showDeleteModal := false, false, false;
      newTeam, editTeam := EmptyTeam(), EmptyTeam();
      deleteTeamId, deleteTeamName := "", "";
    }

    /** The state a finished list load leaves. */
    ghost predicate Loaded(r: Outcome<ListBody<Team>>, previous: seq<Team>)
      reads this
    {
      && !loading
      && (r.Success? ==> teams == DataOrEmpty(r.payload) && error == "")
      && (r.Failure? ==> teams == previous && error == ErrorText(r.message, LoadFailed))
    }

    /** `loadTeams` */
    method LoadTeams(r: Outcome<ListBody<Team>>) returns (calls: seq<Call<Team>>)
      modifies this`teams, this`loading, this`error
      ensures calls == [ListAll]
      ensures Loaded(r, old(teams))
    {
      loading := true;
      error := "";
      calls := [ListAll];
      match r
      case Success(body) =>
        teams := DataOrEmpty(body);
        loading := false;
      case Failure(message) =>
        error := ErrorText(message, LoadFailed);
        loading := false;
    }

    method OpenAddModal()
      modifies this`newTeam, this`showAddModal
      ensures newTeam == EmptyTeam() && showAddModal
    {
      newTeam := EmptyTeam();
      showAddModal := true;
    }

    method CloseAddModal()
      modifies this`showAddModal
      ensures !showAddModal
    {
      showAddModal := false;
    }

    method OpenEditModal(team: Team)
      modifies this`editTeam, this`showEditModal
      ensures editTeam == team && showEditModal
    {
      editTeam := team;
      showEditModal := true;
    }

    method CloseEditModal()
      modifies this`showEditModal
      ensures !showEditModal
    {
      showEditModal := false;
    }

    method OpenDeleteModal(team: Team)
      modifies this`deleteTeamId, this`deleteTeamName, this`showDeleteModal
      ensures deleteTeamId == OrEmpty(team.uid)
      ensures deleteTeamName == team.name && showDeleteModal
    {
      deleteTeamId := OrEmpty(team.uid);
      deleteTeamName := team.name;
      showDeleteModal := true;
    }

    method CloseDeleteModal()
      modifies this`showDeleteModal
      ensures !showDeleteModal
    {
      showDeleteModal := false;
    }

    /** `addTeam` */
    method AddTeam(created: Outcome<()>, reload: Outcome<ListBody<Team>>)
      returns (calls: seq<Call<Team>>)
      modifies this`teams, this`loading, this`error, this`showAddModal
      ensures created.Success? ==> calls == [Create(newTeam), ListAll]
      ensures created.Success? ==> !showAddModal && Loaded(reload, old(teams))
      ensures created.Failure? ==> calls == [Create(newTeam)]
      ensures created.Failure? ==> !loading && error == ErrorText(created.message, CreateFailed)
      ensures created.Failure? ==> teams == old(teams) && showAddModal == old(showAddModal)
    {
      loading := true;
      error := "";
      calls := [Create(newTeam)];
      if created.Success? {
        loading := false;
        CloseAddModal();
        var more := LoadTeams(reload);
        calls := calls + more;
      } else {
        error := ErrorText(created.message, CreateFailed);
        loading := false;
      }
    }

    /** `updateTeam`: does nothing at all when the working copy has no `_id`. */
    method UpdateTeam(updated: Outcome<()>, reload: Outcome<ListBody<Team>>)
      returns (calls: seq<Call<Team>>)
      modifies this`teams, this`loading, this`error, this`showEditModal
      ensures !Truthy(editTeam.uid) ==> calls == [] && unchanged(this)
      ensures Truthy(editTeam.uid) && updated.Success? ==>
                calls == [Update(editTeam.uid.value, editTeam), ListAll]
                && !showEditModal && Loaded(reload, old(teams))
      ensures Truthy(editTeam.uid) && updated.Failure? ==>
                calls == [Update(editTeam.uid.value, editTeam)]
                && !loading && error == ErrorText(updated.message, UpdateFailed)
                && teams == old(teams) && showEditModal == old(showEditModal)
    {
      calls := [];
      if !Truthy(editTeam.uid) {
        return;
      }
      loading := true;
      error := "";
      calls := [Update(editTeam.uid.value, editTeam)];
      if updated.Success? {
        loading := false;
        CloseEditModal();
        var more := LoadTeams(reload);
        calls := calls + more;
      } else {
        error := ErrorText(updated.message, UpdateFailed);
        loading := false;
      }
    }

    /** `confirmDelete`: does nothing at all when no id was recorded; after a
        successful delete the recorded id is still there (only the flag clears). */
    method ConfirmDelete(deleted: Outcome<()>, reload: Outcome<ListBody<Team>>)
      returns (calls: seq<Call<Team>>)
      modifies this`teams, this`loading, this`error, this`showDeleteModal
      ensures deleteTeamId == "" ==> calls == [] && unchanged(this)
      ensures deleteTeamId != "" && deleted.Success? ==>
                calls == [Delete(deleteTeamId), ListAll]
                && !showDeleteModal && Loaded(reload, old(teams))
      ensures deleteTeamId != "" && deleted.Failure? ==>
                calls == [Delete(deleteTeamId)]
                && !loading && error == ErrorText(deleted.message, DeleteFailed)
                && teams == old(teams) && showDeleteModal == old(showDeleteModal)
    {
      calls := [];
      if deleteTeamId == "" {
        return;
      }
      loading := true;
      error := "";
      calls := [Delete(deleteTeamId)];
      if deleted.Success? {
        loading := false;
        CloseDeleteModal();
        var more := LoadTeams(reload);
        calls := calls + more;
      } else {
        error := ErrorText(deleted.message, DeleteFailed);
        loading := false;
      }
    }
  }
}
