/** The seasons page: the list of seasons with add, edit and delete modals. The
    page keeps each season's `isActive` in step with the server's `status`
    after a load, and derives `status` from `isActive` before an update. */
module Seasons {
  import opened Common
  import opened Entities
  import opened Status

  const LoadFailed := "Failed to load seasons"
  const CreateFailed := "Failed to create season"
  const UpdateFailed := "Failed to update season"
  const DeleteFailed := "Failed to delete season"

  /** The season the add modal starts from: empty texts, an empty status and
      `isActive` true. */
  function EmptySeason(): (s: Season)
    ensures s.name == "" && s.description == Some("") && s.status == Some("")
    ensures s.isActive == Some(true) && s.id.None?
  {
    Season(None, "", Some(""), Some(""), Some(true))
  }

  /** A season whose flag agrees with its status. */
  predicate IsMirrored(s: Season) {
    s.isActive == Some(ActiveFromStatus(s.status))
  }

  /** `season.isActive = season.status === 'active'`, on one season. */
  function MirrorSeason(s: Season): (m: Season)
    ensures IsMirrored(m)
    ensures m.(isActive := s.isActive) == s
    ensures IsMirrored(s) ==> m == s
  {
    s.(isActive := Some(ActiveFromStatus(s.status)))
  }

  /** The `forEach` of `loadSeasons`: every season's flag is set from its
      status, and nothing else about any season changes. */
  method MirrorAll(seasons: seq<Season>) returns (r: seq<Season>)
    ensures |r| == |seasons|
    ensures forall i :: 0 <= i < |r| ==> IsMirrored(r[i])
    ensures forall i :: 0 <= i < |r| ==> r[i].(isActive := seasons[i].isActive) == seasons[i]
  {
    r := seasons;
    var i := 0;
    while i < |r|
      invariant 0 <= i <= |r| == |seasons|
      invariant forall j :: 0 <= j < i ==> r[j] == MirrorSeason(seasons[j])
      invariant forall j :: i <= j < |r| ==> r[j] == seasons[j]
    {
      r := r[i := MirrorSeason(r[i])];
      i := i + 1;
    }
  }

  /** The season as `updateSeason` sends it: `status` derived from `isActive`. */
  function SeasonToSave(s: Season): (t: Season)
    ensures t.status == Some(Active) <==> s.isActive == Some(true)
    ensures t.status == Some(Active) || t.status == Some(Inactive)
    ensures t.(status := s.status) == s
  {
    s.(status := Some(StatusFromActive(s.isActive)))
  }

  /** Editing a loaded season and saving it without touching the flag sends
      back the status the server sent, for the two statuses it uses; any other
      status is sent back as 'inactive'. */
  lemma EditUnchangedKeepsStatus(s: Season)
    requires IsMirrored(s)
    ensures s.status == Some(Active) || s.status == Some(Inactive) ==> SeasonToSave(s).status == s.status
    ensures s.status != Some(Active) ==> SeasonToSave(s).status == Some(Inactive)
  {
  }

  /** The add modal's season is sent as seeded: its flag says active while its
      status says neither 'active' nor 'inactive'. */
  lemma SeededSeasonNotMirrored()
    ensures EmptySeason().isActive == Some(true) && !ActiveFromStatus(EmptySeason().status)
    ensures !IsMirrored(EmptySeason())
  {
  }

  class SeasonsPage {
    var seasons: seq<Season>
    var loading: bool
    var error: string
    var showAddModal: bool
    var showEditModal: bool
    var showDeleteModal: bool
    var selectedSeason: Option<Season>
    var newSeason: Season

    /** Every season in the list has its flag in step with its status. */
    ghost predicate Valid()
      reads this
    {
      forall i :: 0 <= i < |seasons| ==> IsMirrored(seasons[i])
    }

    constructor ()
      ensures Valid()
      ensures seasons == [] && !loading && error == ""
      ensures !showAddModal && !showEditModal && !showDeleteModal
      ensures selectedSeason == None && newSeason == EmptySeason()
    {
      seasons := [];
      loading, error := false, "";
      showAddModal, showEditModal, showDeleteModal := false, false, false;
      selectedSeason := None;
      newSeason := EmptySeason();
    }

    /** The state a finished list load leaves. */
    ghost predicate Loaded(r: Outcome<ArrayBody<Season>>, previous: seq<Season>)
      reads this
    {
      && !loading
      && (r.Success? ==> |seasons| == |DataOrSelf(r.payload)| && error == ""
                         && forall i :: 0 <= i < |seasons| ==> seasons[i] == MirrorSeason(DataOrSelf(r.payload)[i]))
      && (r.Failure? ==> seasons == previous && error == ErrorText(r.message, LoadFailed))
    }

    /** `loadSeasons` */
    method LoadSeasons(r: Outcome<ArrayBody<Season>>) returns (calls: seq<Call<Season>>)
      requires Valid()
      modifies this`seasons, this`loading, this`error
      ensures Valid()
      ensures calls == [ListAll]
      ensures Loaded(r, old(seasons))
    {
      loading := true;
      error := "";
      calls := [ListAll];
      match r
      case Success(body) =>
        var data := DataOrSelf(body);
        seasons := MirrorAll(data);
        loading := false;
      case Failure(message) =>
        error := ErrorText(message, LoadFailed);
        loading := false;
    }

    method OpenAddModal()
      modifies this`newSeason, this`showAddModal
      ensures newSeason == EmptySeason() && showAddModal
    {
      newSeason := EmptySeason();
      showAddModal := true;
    }

    method CloseAddModal()
      modifies this`showAddModal
      ensures !showAddModal
    {
      showAddModal := false;
    }

    /** `openEditModal(seasons[i])`: the list element's flag is rewritten from
        its status before the copy is taken; on a list that came from a load the
        rewrite changes nothing. */
    method OpenEditModal(i: nat)
      requires i < |seasons|
      requires Valid()
      modifies this`seasons, this`selectedSeason, this`showEditModal
      ensures Valid()
      ensures seasons == old(seasons)[i := MirrorSeason(old(seasons)[i])]
      ensures seasons == old(seasons)
      ensures selectedSeason == Some(MirrorSeason(old(seasons)[i])) && showEditModal
    {
      seasons := seasons[i := MirrorSeason(seasons[i])];
      selectedSeason := Some(seasons[i]);
      showEditModal := true;
    }

    method CloseEditModal()
      modifies this`selectedSeason, this`showEditModal
      ensures selectedSeason == None && !showEditModal
    {
      showEditModal := false;
      selectedSeason := None;
    }

    method OpenDeleteModal(season: Season)
      modifies this`selectedSeason, this`showDeleteModal
      ensures selectedSeason == Some(season) && showDeleteModal
    {
      selectedSeason := Some(season);
      showDeleteModal := true;
    }

    method CloseDeleteModal()
      modifies this`selectedSeason, this`showDeleteModal
      ensures selectedSeason == None && !showDeleteModal
    {
      showDeleteModal := false;
      selectedSeason := None;
    }

    /** `addSeason`: sends the add modal's season as it stands, without
        deriving its status; the error is not cleared before the call. */
    method AddSeason(created: Outcome<()>, reload: Outcome<ArrayBody<Season>>)
      returns (calls: seq<Call<Season>>)
      requires Valid()
      modifies this`seasons, this`loading, this`error, this`showAddModal
      ensures Valid()
      ensures created.Success? ==> calls == [Create(newSeason), ListAll]
      ensures created.Success? ==> !showAddModal && Loaded(reload, old(seasons))
      ensures created.Failure? ==> calls == [Create(newSeason)]
      ensures created.Failure? ==> !loading && error == ErrorText(created.message, CreateFailed)
      ensures created.Failure? ==> seasons == old(seasons) && showAddModal == old(showAddModal)
    {
      loading := true;
      calls := [Create(newSeason)];
      if created.Success? {
        loading := false;
        CloseAddModal();
        var more := LoadSeasons(reload);
        calls := calls + more;
      } else {
        error := ErrorText(created.message, CreateFailed);
        loading := false;
      }
    }

    /** `updateSeason`: nothing happens without a selected season with an id;
        otherwise its status is derived from its flag and it is sent. */
    method UpdateSeason(updated: Outcome<()>, reload: Outcome<ArrayBody<Season>>)
      returns (calls: seq<Call<Season>>)
      requires Valid()
      modifies this`seasons, this`loading, this`error, this`selectedSeason, this`showEditModal
      ensures Valid()
      ensures old(selectedSeason).None? || !Truthy(old(selectedSeason).value.id) ==>
                calls == [] && unchanged(this)
      ensures old(selectedSeason).Some? && Truthy(old(selectedSeason).value.id) ==>
                var sent := SeasonToSave(old(selectedSeason).value);
                && (updated.Success? ==>
                      calls == [Update(sent.id.value, sent), ListAll]
                      && selectedSeason == None && !showEditModal
                      && Loaded(reload, old(seasons)))
                && (updated.Failure? ==>
                      calls == [Update(sent.id.value, sent)]
                      && selectedSeason == Some(sent) && showEditModal == old(showEditModal)
                      && !loading && error == ErrorText(updated.message, UpdateFailed)
                      && seasons == old(seasons))
    {
      calls := [];
      if selectedSeason.None? || !Truthy(selectedSeason.value.id) {
        return;
      }
      var sent := SeasonToSave(selectedSeason.value);
      selectedSeason := Some(sent);
      loading := true;
      calls := [Update(sent.id.value, sent)];
      if updated.Success? {
        loading := false;
        CloseEditModal();
        var more := LoadSeasons(reload);
        calls := calls + more;
      } else {
        error := ErrorText(updated.message, UpdateFailed);
        loading := false;
      }
    }

    /** `deleteSeason`: nothing happens without a selected season with an id. */
    method DeleteSeason(deleted: Outcome<()>, reload: Outcome<ArrayBody<Season>>)
      returns (calls: seq<Call<Season>>)
      requires Valid()
      modifies this`seasons, this`loading, this`error, this`selectedSeason, this`showDeleteModal
      ensures Valid()
      ensures old(selectedSeason).None? || !Truthy(old(selectedSeason).value.id) ==>
                calls == [] && unchanged(this)
      ensures old(selectedSeason).Some? && Truthy(old(selectedSeason).value.id) ==>
                var id := old(selectedSeason).value.id.value;
                && (deleted.Success? ==>
                      calls == [Delete(id), ListAll]
                      && selectedSeason == None && !showDeleteModal
                      && Loaded(reload, old(seasons)))
                && (deleted.Failure? ==>
                      calls == [Delete(id)]
                      && selectedSeason == old(selectedSeason) && showDeleteModal == old(showDeleteModal)
                      && !loading && error == ErrorText(deleted.message, DeleteFailed)
                      && seasons == old(seasons))
    {
      calls := [];
      if selectedSeason.None? || !Truthy(selectedSeason.value.id) {
        return;
      }
      var id := selectedSeason.value.id.value;
      loading := true;
      calls := [Delete(id)];
      if deleted.Success? {
        loading := false;
        CloseDeleteModal();
        var more := LoadSeasons(reload);
        calls := calls + more;
      } else {
        error := ErrorText(deleted.message, DeleteFailed);
        loading := false;
      }
    }
  }
}
