/** The episodes page: the list of episodes, optionally filtered by season
    through the `seasonId` query parameter, with add, edit and delete modals.
    Like the seasons page it keeps `isActive` in step with `status`: after
    every load, and before every add and update. */
module Episodes {
  import opened Common
  import opened Entities
  import opened Status

  const LoadFailed := "Failed to load episodes"
  const CreateFailed := "Failed to create episode"
  const UpdateFailed := "Failed to update episode"
  const DeleteFailed := "Failed to delete episode"
  const UnknownSeason := "Unknown"

  /** An episode whose flag agrees with its status. */
  predicate IsMirrored(e: Episode) {
    e.isActive == Some(ActiveFromStatus(e.status))
  }

  /** `episode.isActive = episode.status === 'active'`, on one episode. */
  function MirrorEpisode(e: Episode): (m: Episode)
    ensures IsMirrored(m)
    ensures m.(isActive := e.isActive) == e
    ensures IsMirrored(e) ==> m == e
  {
    e.(isActive := Some(ActiveFromStatus(e.status)))
  }

  /** The `forEach` of both loads: every episode's flag is set from its status,
      and nothing else about any episode changes. */
  method MirrorAll(episodes: seq<Episode>) returns (r: seq<Episode>)
    ensures |r| == |episodes|
    ensures forall i :: 0 <= i < |r| ==> IsMirrored(r[i])
    ensures forall i :: 0 <= i < |r| ==> r[i].(isActive := episodes[i].isActive) == episodes[i]
  {
    r := episodes;
    var i := 0;
    while i < |r|
      invariant 0 <= i <= |r| == |episodes|
      invariant forall j :: 0 <= j < i ==> r[j] == MirrorEpisode(episodes[j])
      invariant forall j :: i <= j < |r| ==> r[j] == episodes[j]
    {
      r := r[i := MirrorEpisode(r[i])];
      i := i + 1;
    }
  }

  /** The episode as `addEpisode` and `updateEpisode` send it. */
  function EpisodeToSave(e: Episode): (t: Episode)
    ensures t.status == Some(Active) <==> e.isActive == Some(true)
    ensures t.status == Some(Active) || t.status == Some(Inactive)
    ensures t.(status := e.status) == e
  {
    e.(status := Some(StatusFromActive(e.isActive)))
  }

  /** A loaded episode with status 'active' or 'inactive', saved without
      touching its flag, is sent exactly as it was loaded. */
  lemma LoadThenSaveRoundTrip(e: Episode)
    requires e.status == Some(Active) || e.status == Some(Inactive)
    ensures EpisodeToSave(MirrorEpisode(e)) == MirrorEpisode(e)
  {
  }

  /** The list request matching the season filter. */
  function ListCall(seasonId: string): (c: Call<Episode>)
    ensures seasonId != "" ==> c == ListBySeason(seasonId)
    ensures seasonId == "" ==> c == ListAll
  {
    if seasonId != "" then ListBySeason(seasonId) else ListAll
  }

  class EpisodesPage {
    var episodes: seq<Episode>
    var seasons: seq<Season>
    var selectedSeasonId: string
    var loading: bool
    var error: string
    var showAddModal: bool
    var showEditModal: bool
    var showDeleteModal: bool
    var selectedEpisode: Option<Episode>
    var newEpisode: Episode

    /** Every episode in the list has its flag in step with its status. */
    ghost predicate Valid()
      reads this
    {
      forall i :: 0 <= i < |episodes| ==> IsMirrored(episodes[i])
    }

    constructor ()
      ensures Valid()
      ensures episodes == [] && seasons == [] && selectedSeasonId == ""
      ensures !loading && error == ""
      ensures !showAddModal && !showEditModal && !showDeleteModal
      ensures selectedEpisode == None
      ensures newEpisode == Episode(None, None, "", "", "", None, Some(true))
    {
      episodes, seasons := [], [];
      selectedSeasonId := "";
      loading, error := false, "";
      showAddModal, showEditModal, showDeleteModal := false, false, false;
      selectedEpisode := None;
      newEpisode := Episode(None, None, "", "", "", None, Some(true));
    }

    /** The state a finished episode load leaves. */
    ghost predicate Loaded(r: Outcome<ArrayBody<Episode>>, previous: seq<Episode>)
      reads this
    {
      && !loading
      && (r.Success? ==> |episodes| == |DataOrSelf(r.payload)| && error == ""
                         && forall i :: 0 <= i < |episodes| ==> episodes[i] == MirrorEpisode(DataOrSelf(r.payload)[i]))
      && (r.Failure? ==> episodes == previous && error == ErrorText(r.message, LoadFailed))
    }

    /** `loadSeasons`: fills the season list used for names; a failure is only
        logged. */
    method LoadSeasons(r: Outcome<ArrayBody<Season>>)
      modifies this`seasons
      ensures r.Success? ==> seasons == DataOrSelf(r.payload)
      ensures r.Failure? ==> seasons == old(seasons)
    {
      if r.Success? {
        seasons := DataOrSelf(r.payload);
      }
    }

    /** `loadAllEpisodes` */
    method LoadAllEpisodes(r: Outcome<ArrayBody<Episode>>) returns (calls: seq<Call<Episode>>)
      requires Valid()
      modifies this`episodes, this`loading, this`error
      ensures Valid()
      ensures calls == [ListAll]
      ensures Loaded(r, old(episodes))
    {
      loading := true;
      error := "";
      calls := [ListAll];
      match r
      case Success(body) =>
        var data := DataOrSelf(body);
        loading := false;
        episodes := MirrorAll(data);
      case Failure(message) =>
        error := ErrorText(message, LoadFailed);
        loading := false;
    }

    /** `loadEpisodesBySeason` */
    method LoadEpisodesBySeason(seasonId: string, r: Outcome<ArrayBody<Episode>>)
      returns (calls: seq<Call<Episode>>)
      requires Valid()
      modifies this`episodes, this`loading, this`error
      ensures Valid()
      ensures calls == [ListBySeason(seasonId)]
      ensures Loaded(r, old(episodes))
    {
      loading := true;
      error := "";
      calls := [ListBySeason(seasonId)];
      match r
      case Success(body) =>
        var data := DataOrSelf(body);
        loading := false;
        episodes := MirrorAll(data);
      case Failure(message) =>
        error := ErrorText(message, LoadFailed);
        loading := false;
    }

    /** The `queryParams` subscription of `ngOnInit`: a `seasonId` parameter
        becomes the filter and the list is loaded by season; without one the
        whole list is loaded and the filter is left as it was. */
    method OnQueryParams(seasonIdParam: Option<string>, r: Outcome<ArrayBody<Episode>>)
      returns (calls: seq<Call<Episode>>)
      requires Valid()
      modifies this`episodes, this`loading, this`error, this`selectedSeasonId
      ensures Valid()
      ensures Truthy(seasonIdParam) ==>
                selectedSeasonId == seasonIdParam.value && calls == [ListBySeason(seasonIdParam.value)]
      ensures !Truthy(seasonIdParam) ==> selectedSeasonId == old(selectedSeasonId) && calls == [ListAll]
      ensures Loaded(r, old(episodes))
    {
      if Truthy(seasonIdParam) {
        selectedSeasonId := seasonIdParam.value;
        calls := LoadEpisodesBySeason(selectedSeasonId, r);
      } else {
        calls := LoadAllEpisodes(r);
      }
    }

    /** `onSeasonFilterChange` only navigates: the query parameter it puts in
        the URL, which the subscription above then receives. */
    function FilterQueryParam(): (q: Option<string>)
      reads this
      ensures q.Some? <==> selectedSeasonId != ""
      ensures q.Some? ==> q.value == selectedSeasonId && Truthy(q)
    {
      if selectedSeasonId != "" then Some(selectedSeasonId) else None
    }

    /** `openAddModal`: a blank episode in the filtered season, active. */
    method OpenAddModal()
      modifies this`newEpisode, this`showAddModal
      ensures newEpisode.seasonId == selectedSeasonId && newEpisode.name == ""
      ensures newEpisode.isActive == Some(true) && newEpisode.id.None? && newEpisode.status.None?
      ensures newEpisode.uid.None? && newEpisode.title == ""
      ensures showAddModal
    {
      newEpisode := Episode(None, None, selectedSeasonId, "", "", None, Some(true));
      showAddModal := true;
    }

    method CloseAddModal()
      modifies this`showAddModal
      ensures !showAddModal
    {
      showAddModal := false;
    }

    method OpenEditModal(episode: Episode)
      modifies this`selectedEpisode, this`showEditModal
      ensures selectedEpisode == Some(episode) && showEditModal
    {
      selectedEpisode := Some(episode);
      showEditModal := true;
    }

    method CloseEditModal()
      modifies this`selectedEpisode, this`showEditModal
      ensures selectedEpisode == None && !showEditModal
    {
      showEditModal := false;
      selectedEpisode := None;
    }

    method OpenDeleteModal(episode: Episode)
      modifies this`selectedEpisode, this`showDeleteModal
      ensures selectedEpisode == Some(episode) && showDeleteModal
    {
      selectedEpisode := Some(episode);
      showDeleteModal := true;
    }

    method CloseDeleteModal()
      modifies this`selectedEpisode, this`showDeleteModal
      ensures selectedEpisode == None && !showDeleteModal
    {
      showDeleteModal := false;
      selectedEpisode := None;
    }

    /** `addEpisode`: the status is derived from the flag before the call;
        after success the list is reloaded by the season filter. */
    method AddEpisode(created: Outcome<()>, reload: Outcome<ArrayBody<Episode>>)
      returns (calls: seq<Call<Episode>>)
      requires Valid()
      modifies this`episodes, this`loading, this`error, this`newEpisode, this`showAddModal
      ensures Valid()
      ensures newEpisode == EpisodeToSave(old(newEpisode))
      ensures created.Success? ==> calls == [Create(newEpisode), ListCall(selectedSeasonId)]
      ensures created.Success? ==> !showAddModal && Loaded(reload, old(episodes))
      ensures created.Failure? ==> calls == [Create(newEpisode)]
      ensures created.Failure? ==> !loading && error == ErrorText(created.message, CreateFailed)
      ensures created.Failure? ==> episodes == old(episodes) && showAddModal == old(showAddModal)
    {
      loading := true;
      newEpisode := EpisodeToSave(newEpisode);
      calls := [Create(newEpisode)];
      if created.Success? {
        loading := false;
        CloseAddModal();
        var more;
        if selectedSeasonId != "" {
          more := LoadEpisodesBySeason(selectedSeasonId, reload);
        } else {
          more := LoadAllEpisodes(reload);
        }
        calls := calls + more;
      } else {
        error := ErrorText(created.message, CreateFailed);
        loading := false;
      }
    }

    /** `updateEpisode`: nothing happens without a selected episode with an
        id; otherwise its status is derived from its flag and it is sent. */
    method UpdateEpisode(updated: Outcome<()>, reload: Outcome<ArrayBody<Episode>>)
      returns (calls: seq<Call<Episode>>)
      requires Valid()
      modifies this`episodes, this`loading, this`error, this`selectedEpisode, this`showEditModal
      ensures Valid()
      ensures old(selectedEpisode).None? || !Truthy(old(selectedEpisode).value.id) ==>
                calls == [] && unchanged(this)
      ensures old(selectedEpisode).Some? && Truthy(old(selectedEpisode).value.id) ==>
                var sent := EpisodeToSave(old(selectedEpisode).value);
                && (updated.Success? ==>
                      calls == [Update(sent.id.value, sent), ListCall(selectedSeasonId)]
                      && selectedEpisode == None && !showEditModal
                      && Loaded(reload, old(episodes)))
                && (updated.Failure? ==>
                      calls == [Update(sent.id.value, sent)]
                      && selectedEpisode == Some(sent) && showEditModal == old(showEditModal)
                      && !loading && error == ErrorText(updated.message, UpdateFailed)
                      && episodes == old(episodes))
    {
      calls := [];
      if selectedEpisode.None? || !Truthy(selectedEpisode.value.id) {
        return;
      }
      var sent := EpisodeToSave(selectedEpisode.value);
      selectedEpisode := Some(sent);
      loading := true;
      calls := [Update(sent.id.value, sent)];
      if updated.Success? {
        loading := false;
        CloseEditModal();
        var more;
        if selectedSeasonId != "" {
          more := LoadEpisodesBySeason(selectedSeasonId, reload);
        } else {
          more := LoadAllEpisodes(reload);
        }
        calls := calls + more;
      } else {
        error := ErrorText(updated.message, UpdateFailed);
        loading := false;
      }
    }

    /** `deleteEpisode`: nothing happens without a selected episode with an id. */
    method DeleteEpisode(deleted: Outcome<()>, reload: Outcome<ArrayBody<Episode>>)
      returns (calls: seq<Call<Episode>>)
      requires Valid()
      modifies this`episodes, this`loading, this`error, this`selectedEpisode, this`showDeleteModal
      ensures Valid()
      ensures old(selectedEpisode).None? || !Truthy(old(selectedEpisode).value.id) ==>
                calls == [] && unchanged(this)
      ensures old(selectedEpisode).Some? && Truthy(old(selectedEpisode).value.id) ==>
                var id := old(selectedEpisode).value.id.value;
                && (deleted.Success? ==>
                      calls == [Delete(id), ListCall(selectedSeasonId)]
                      && selectedEpisode == None && !showDeleteModal
                      && Loaded(reload, old(episodes)))
                && (deleted.Failure? ==>
                      calls == [Delete(id)]
                      && selectedEpisode == old(selectedEpisode) && showDeleteModal == old(showDeleteModal)
                      && !loading && error == ErrorText(deleted.message, DeleteFailed)
                      && episodes == old(episodes))
    {
      calls := [];
      if selectedEpisode.None? || !Truthy(selectedEpisode.value.id) {
        return;
      }
      var id := selectedEpisode.value.id.value;
      loading := true;
      calls := [Delete(id)];
      if deleted.Success? {
        loading := false;
        CloseDeleteModal();
        var more;
        if selectedSeasonId != "" {
          more := LoadEpisodesBySeason(selectedSeasonId, reload);
        } else {
          more := LoadAllEpisodes(reload);
        }
        calls := calls + more;
      } else {
        error := ErrorText(deleted.message, DeleteFailed);
        loading := false;
      }
    }

    /** `getSeasonName`: the name of the first season with that id, or
        'Unknown'. */
    function GetSeasonName(seasonId: string): (name: string)
      reads this
      ensures (forall j :: 0 <= j < |seasons| ==> seasons[j].id != Some(seasonId)) ==> name == UnknownSeason
      ensures forall j ::
                (0 <= j < |seasons| && seasons[j].id == Some(seasonId)
                 && forall k :: 0 <= k < j ==> seasons[k].id != Some(seasonId))
                ==> name == seasons[j].name
    {
      match FirstIndex(seasons, (s: Season) => s.id == Some(seasonId))
      case Some(i) => seasons[i].name
      case None => UnknownSeason
    }
  }
}
