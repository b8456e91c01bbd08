/** The competitions page: the list of competitions, filterable by season and
    by episode, with add, edit and delete modals, plus the lookups that turn
    season, episode and team references into display names. A competition's
    `teams` holds embedded team objects when it comes from the backend and
    bare identifiers when the page sends it back. */
module Competitions {
  import opened Common
  import opened Entities

  const LoadFailed := "Failed to load competitions"
  const CreateFailed := "Failed to create competition"
  const UpdateFailed := "Failed to update competition"
  const DeleteFailed := "Failed to delete competition"
  const MissingFields := "Season, episode and at least one team are required"
  const Created := "Competition created successfully"
  const Updated := "Competition updated successfully"
  const Deleted := "Competition deleted successfully"
  const NotAvailable := "N/A"
  /** What `toString` gives for a plain object. */
  const ObjectText := "[object Object]"

  // ---------------------------------------------------------------------------
  // Rendering identifiers as text

  function Digit(d: nat): (c: char)
    requires d < 10
    ensures '0' <= c <= '9' && c as int - '0' as int == d
  {
    ['0', '1', '2', '3', '4', '5', '6', '7', '8', '9'][d]
  }

  /** The decimal digits of `n`, most significant first, as `String(n)`. */
  function NatText(n: nat): (r: string)
    ensures |r| > 0
    ensures forall i :: 0 <= i < |r| ==> '0' <= r[i] <= '9'
    decreases n
  {
    if n < 10 then [Digit(n)] else NatText(n / 10) + [Digit(n % 10)]
  }

  /** The number a string of decimal digits denotes. */
  function DigitsValue(s: string): nat
    requires forall i :: 0 <= i < |s| ==> '0' <= s[i] <= '9'
  {
    if |s| == 0 then 0
    else DigitsValue(s[..|s| - 1]) * 10 + (s[|s| - 1] as int - '0' as int)
  }

  /** Reading back the digits of a number gives the number. */
  lemma {:induction false} NatTextRoundTrip(n: nat)
    ensures DigitsValue(NatText(n)) == n
    decreases n
  {
    var s := NatText(n);
    if n >= 10 {
      assert s[..|s| - 1] == NatText(n / 10);
      NatTextRoundTrip(n / 10);
    }
  }

  /** Different numbers render differently, so matching by text is matching by value. */
  lemma NatTextInjective(m: nat, n: nat)
    requires NatText(m) == NatText(n)
    ensures m == n
  {
    NatTextRoundTrip(m);
    NatTextRoundTrip(n);
  }

  /** The text of a negative number: a '-' followed by the digits of its magnitude. */
  function NegativeText(k: nat): (r: string)
    ensures |r| > 1 && r[0] == '-' && r[1..] == NatText(k)
    ensures forall i :: 1 <= i < |r| ==> '0' <= r[i] <= '9'
    ensures DigitsValue(r[1..]) == k
  {
    var r := "-" + NatText(k);
    assert r[1..] == NatText(k);
    NatTextRoundTrip(k);
    r
  }

  /** `String(v)` for a primitive identifier: a string is itself, a number its
      decimal form with a leading '-' when negative. */
  function ScalarText(v: Scalar): (r: string)
    ensures v.Str? ==> r == v.s
    ensures v.Num? ==> r != "" && (v.n < 0 <==> r[0] == '-')
    ensures v.Num? && v.n >= 0 ==>
              (forall i :: 0 <= i < |r| ==> '0' <= r[i] <= '9') && DigitsValue(r) == v.n
    ensures v.Num? && v.n < 0 ==>
              (forall i :: 1 <= i < |r| ==> '0' <= r[i] <= '9') && DigitsValue(r[1..]) == -v.n
  {
    match v
    case Str(s) => s
    case Num(n) =>
      if n < 0 then
        NegativeText(-n)
      else
        NatTextRoundTrip(n);
        NatText(n)
  }

  /** Two numbers with the same text are the same number, so matching a numeric
      identifier by its text is matching it by value. */
  lemma {:induction false} NumTextInjective(a: int, b: int)
    requires ScalarText(Num(a)) == ScalarText(Num(b))
    ensures a == b
  {
    var t := ScalarText(Num(a));
    if a < 0 {
      assert b < 0;
      assert DigitsValue(t[1..]) == -a && DigitsValue(t[1..]) == -b;
    } else {
      assert b >= 0;
      assert DigitsValue(t) == a && DigitsValue(t) == b;
    }
  }

  /** JavaScript truthiness of a primitive identifier: the empty string and
      the number 0 are the only falsy ones, so a falsy one renders as '' or '0',
      and a string is truthy exactly when its text is non-empty. */
  predicate ScalarTruthy(v: Scalar): (b: bool)
    ensures b <==> v != Str("") && v != Num(0)
    ensures !b ==> ScalarText(v) == "" || ScalarText(v) == "0"
    ensures v.Str? ==> (b <==> ScalarText(v) != "")
    ensures v.Num? && v.n > 0 ==> b
  {
    match v
    case Str(s) => s != ""
    case Num(n) => n != 0
  }

  // ---------------------------------------------------------------------------
  // Team-id normalisation for the edit modal

  /** One step of the `map` in `openEditModal`: an object becomes its `id`, or
      its `_id` when `id` is null or undefined; anything else is kept. A `null`
      entry is excluded: reading its `id` throws. */
  function IdOf(t: TeamRef): (r: TeamRef)
    requires !t.Null?
    ensures !r.TeamObject? && !r.Null?
    ensures !t.TeamObject? ==> r == t
    ensures t.TeamObject? && t.id.Some? ==> r == Primitive(t.id.value)
    ensures t.TeamObject? && t.id.None? && t.uid.Some? ==> r == Primitive(t.uid.value)
    ensures t.TeamObject? && t.id.None? && t.uid.None? ==> r == Undefined
  {
    match t
    case TeamObject(id, uid, _) =>
      if id.Some? then Primitive(id.value)
      else if uid.Some? then Primitive(uid.value)
      else Undefined
    case _ => t
  }

  predicate NoNull(teams: seq<TeamRef>) {
    forall i :: 0 <= i < |teams| ==> !teams[i].Null?
  }

  /** `teams.map(...)`: every entry normalised, same length, same order, and no
      embedded object left. */
  function TeamIds(teams: seq<TeamRef>): (r: seq<TeamRef>)
    requires NoNull(teams)
    ensures |r| == |teams|
    ensures forall i :: 0 <= i < |r| ==> r[i] == IdOf(teams[i])
    ensures forall i :: 0 <= i < |r| ==> !r[i].TeamObject? && !r[i].Null?
  {
    if |teams| == 0 then [] else [IdOf(teams[0])] + TeamIds(teams[1..])
  }

  /** Normalising twice is normalising once: a competition whose teams are
      already identifiers is sent back as it is. */
  lemma TeamIdsIdempotent(teams: seq<TeamRef>)
    requires NoNull(teams)
    ensures NoNull(TeamIds(teams))
    ensures TeamIds(TeamIds(teams)) == TeamIds(teams)
  {
  }

  /** Normalisation works entry by entry: it distributes over concatenation. */
  lemma TeamIdsAppend(a: seq<TeamRef>, b: seq<TeamRef>)
    requires NoNull(a) && NoNull(b)
    ensures NoNull(a + b)
    ensures TeamIds(a + b) == TeamIds(a) + TeamIds(b)
  {
  }

  /** `comp.teams || []` */
  function TeamsOrEmpty(c: Competition): (r: seq<TeamRef>)
    ensures c.teams.Some? ==> r == c.teams.value
    ensures c.teams.None? ==> r == []
  {
    if c.teams.Some? then c.teams.value else []
  }

  /** `{ ...comp, teams: teamIds }`: the edit modal's copy of a competition. */
  function EditCopy(c: Competition): (e: Competition)
    requires NoNull(TeamsOrEmpty(c))
    ensures e.teams.Some? && |e.teams.value| == |TeamsOrEmpty(c)|
    ensures forall i :: 0 <= i < |e.teams.value| ==> e.teams.value[i] == IdOf(TeamsOrEmpty(c)[i])
    ensures e.(teams := c.teams) == c
  {
    c.(teams := Some(TeamIds(TeamsOrEmpty(c))))
  }

  // ---------------------------------------------------------------------------
  // Filters and validation

  /** `getEmptyCompetition`: seeded from the selected filters, with no teams. */
  function EmptyCompetition(seasonId: string, episodeId: string): (c: Competition)
    ensures c.seasonId == seasonId && c.episodeId == episodeId && c.teams == Some([])
    ensures c.id.None? && c.name.None? && c.status.None?
  {
    Competition(None, seasonId, episodeId, Some([]), None, None)
  }

  /** The check at the top of `addCompetition`. */
  predicate ReadyToCreate(c: Competition): (b: bool)
    ensures b <==> c.seasonId != "" && c.episodeId != "" && |TeamsOrEmpty(c)| > 0
  {
    c.seasonId != "" && c.episodeId != "" && c.teams.Some? && |c.teams.value| > 0
  }

  /** A freshly seeded competition never passes the check: at least one team
      has to be chosen first. */
  lemma SeededNeverReady(seasonId: string, episodeId: string)
    ensures !ReadyToCreate(EmptyCompetition(seasonId, episodeId))
  {
  }

  /** The request `onFilterChange` issues: by episode when one is selected,
      otherwise by season when one is selected, otherwise all. */
  function FilterCall(seasonId: string, episodeId: string): (c: Call<Competition>)
    ensures c.ListByEpisode? <==> episodeId != ""
    ensures c.ListByEpisode? ==> c.episodeId == episodeId
    ensures c.ListBySeason? <==> episodeId == "" && seasonId != ""
    ensures c.ListBySeason? ==> c.seasonId == seasonId
    ensures c == ListAll <==> episodeId == "" && seasonId == ""
  {
    if episodeId != "" then ListByEpisode(episodeId)
    else if seasonId != "" then ListBySeason(seasonId)
    else ListAll
  }

  /** `episodes.filter(e => e.seasonId === id)` */
  function EpisodesOfSeason(episodes: seq<Episode>, id: string): (r: seq<Episode>)
    ensures |r| <= |episodes|
    ensures forall i :: 0 <= i < |r| ==> r[i].seasonId == id
    ensures forall e :: multiset(r)[e] == if e.seasonId == id then multiset(episodes)[e] else 0
  {
    if |episodes| == 0 then []
    else
      assert episodes == [episodes[0]] + episodes[1..];
      if episodes[0].seasonId == id then [episodes[0]] + EpisodesOfSeason(episodes[1..], id)
      else EpisodesOfSeason(episodes[1..], id)
  }

  /** Filtering keeps the original order: it distributes over concatenation. */
  lemma {:induction false} EpisodesOfSeasonAppend(a: seq<Episode>, b: seq<Episode>, id: string)
    ensures EpisodesOfSeason(a + b, id) == EpisodesOfSeason(a, id) + EpisodesOfSeason(b, id)
  {
    if |a| > 0 {
      assert (a + b)[0] == a[0];
      assert (a + b)[1..] == a[1..] + b;
      EpisodesOfSeasonAppend(a[1..], b, id);
    } else {
      assert a + b == b;
    }
  }

  /** When every episode belongs to the season, filtering keeps them all. */
  lemma {:induction false} EpisodesOfSeasonAll(episodes: seq<Episode>, id: string)
    requires forall i :: 0 <= i < |episodes| ==> episodes[i].seasonId == id
    ensures EpisodesOfSeason(episodes, id) == episodes
  {
    if |episodes| > 0 {
      EpisodesOfSeasonAll(episodes[1..], id);
      assert episodes == [episodes[0]] + episodes[1..];
    }
  }

  // ---------------------------------------------------------------------------
  // The page

  class CompetitionsPage {
    var competitions: seq<Competition>
    var seasons: seq<Season>
    var episodes: seq<Episode>
    var teams: seq<Team>
    var selectedSeasonId: string
    var selectedEpisodeId: string
    var loading: bool
    var error: string
    var successMessage: string
    var showAddModal: bool
    var showEditModal: bool
    var showDeleteModal: bool
    var newCompetition: Competition
    var editCompetition: Option<Competition>
    var selectedCompetition: Option<Competition>

    constructor ()
      ensures competitions == [] && seasons == [] && episodes == [] && teams == []
      ensures selectedSeasonId == "" && selectedEpisodeId == ""
      ensures !loading && error == "" && successMessage == ""
      ensures !showAddModal && !showEditModal && !showDeleteModal
      ensures newCompetition == EmptyCompetition("", "")
      ensures editCompetition == None && selectedCompetition == None
    {
      competitions, seasons, episodes, teams := [], [], [], [];
      selectedSeasonId, selectedEpisodeId := "", "";
      loading, error, successMessage := false, "", "";
      showAddModal, showEditModal, showDeleteModal := false, false, false;
      newCompetition := EmptyCompetition("", "");
      editCompetition, selectedCompetition := None, None;
    }

    /** The state a finished competition load leaves. */
    ghost predicate Loaded(r: Outcome<ArrayBody<Competition>>, previous: seq<Competition>)
      reads this
    {
      && !loading
      && (r.Success? ==> competitions == DataOrSelf(r.payload) && error == "")
      && (r.Failure? ==> competitions == previous && error == ErrorText(r.message, LoadFailed))
    }

    /** `loadFilters`: the three option lists; a failed one is only logged
        and its list stays as it was. */
    method LoadFilters(rs: Outcome<ArrayBody<Season>>, re: Outcome<ArrayBody<Episode>>,
                       rt: Outcome<ArrayBody<Team>>)
      modifies this`seasons, this`episodes, this`teams
      ensures rs.Success? ==> seasons == DataOrSelf(rs.payload)
      ensures rs.Failure? ==> seasons == old(seasons)
      ensures re.Success? ==> episodes == DataOrSelf(re.payload)
      ensures re.Failure? ==> episodes == old(episodes)
      ensures rt.Success? ==> teams == DataOrSelf(rt.payload)
      ensures rt.Failure? ==> teams == old(teams)
    {
      if rs.Success? {
        seasons := DataOrSelf(rs.payload);
      }
      if re.Success? {
        episodes := DataOrSelf(re.payload);
      }
      if rt.Success? {
        teams := DataOrSelf(rt.payload);
      }
    }

    /** The body shared by the three load methods, for the request `call`. */
    method Load(call: Call<Competition>, r: Outcome<ArrayBody<Competition>>)
      returns (calls: seq<Call<Competition>>)
      modifies this`competitions, this`loading, this`error
      ensures calls == [call]
      ensures Loaded(r, old(competitions))
    {
      loading := true;
      error := "";
      calls := [call];
      match r
      case Success(body) =>
        competitions := DataOrSelf(body);
        loading := false;
      case Failure(message) =>
        error := ErrorText(message, LoadFailed);
        loading := false;
    }

    /** `loadAllCompetitions` */
    method LoadAllCompetitions(r: Outcome<ArrayBody<Competition>>) returns (calls: seq<Call<Competition>>)
      modifies this`competitions, this`loading, this`error
      ensures calls == [ListAll]
      ensures Loaded(r, old(competitions))
    {
      calls := Load(ListAll, r);
    }

    /** `loadCompetitionsBySeason` */
    method LoadCompetitionsBySeason(seasonId: string, r: Outcome<ArrayBody<Competition>>)
      returns (calls: seq<Call<Competition>>)
      modifies this`competitions, this`loading, this`error
      ensures calls == [ListBySeason(seasonId)]
      ensures Loaded(r, old(competitions))
    {
      calls := Load(ListBySeason(seasonId), r);
    }

    /** `loadCompetitionsByEpisode` */
    method LoadCompetitionsByEpisode(episodeId: string, r: Outcome<ArrayBody<Competition>>)
      returns (calls: seq<Call<Competition>>)
      modifies this`competitions, this`loading, this`error
      ensures calls == [ListByEpisode(episodeId)]
      ensures Loaded(r, old(competitions))
    {
      calls := Load(ListByEpisode(episodeId), r);
    }

    /** `onFilterChange`: the episode filter wins over the season filter. */
    method OnFilterChange(r: Outcome<ArrayBody<Competition>>) returns (calls: seq<Call<Competition>>)
      modifies this`competitions, this`loading, this`error
      ensures calls == [FilterCall(selectedSeasonId, selectedEpisodeId)]
      ensures Loaded(r, old(competitions))
    {
      if selectedEpisodeId != "" {
        calls := LoadCompetitionsByEpisode(selectedEpisodeId, r);
      } else if selectedSeasonId != "" {
        calls := LoadCompetitionsBySeason(selectedSeasonId, r);
      } else {
        calls := LoadAllCompetitions(r);
      }
    }

    /** `onSeasonChange`: the episode filter is cleared first, so the list is
        never loaded by episode. */
    method OnSeasonChange(r: Outcome<ArrayBody<Competition>>) returns (calls: seq<Call<Competition>>)
      modifies this`competitions, this`loading, this`error, this`selectedEpisodeId
      ensures selectedEpisodeId == ""
      ensures calls == [FilterCall(selectedSeasonId, "")]
      ensures !calls[0].ListByEpisode?
      ensures Loaded(r, old(competitions))
    {
      selectedEpisodeId := "";
      calls := OnFilterChange(r);
    }

    /** `onEpisodeChange` */
    method OnEpisodeChange(r: Outcome<ArrayBody<Competition>>) returns (calls: seq<Call<Competition>>)
      modifies this`competitions, this`loading, this`error
      ensures calls == [FilterCall(selectedSeasonId, selectedEpisodeId)]
      ensures Loaded(r, old(competitions))
    {
      calls := OnFilterChange(r);
    }

    method OpenAddModal()
      modifies this`newCompetition, this`showAddModal
      ensures newCompetition == EmptyCompetition(selectedSeasonId, selectedEpisodeId) && showAddModal
    {
      newCompetition := EmptyCompetition(selectedSeasonId, selectedEpisodeId);
      showAddModal := true;
    }

    method CloseAddModal()
      modifies this`showAddModal
      ensures !showAddModal
    {
      showAddModal := false;
    }

    /** `openEditModal`: the copy has its teams reduced to identifiers and every
        other field as in `comp`. A `null` team entry makes the `map` throw
        before anything is assigned, so nothing changes. */
    method OpenEditModal(comp: Competition)
      modifies this`editCompetition, this`showEditModal
      ensures NoNull(TeamsOrEmpty(comp)) ==> editCompetition == Some(EditCopy(comp)) && showEditModal
      ensures !NoNull(TeamsOrEmpty(comp)) ==>
                editCompetition == old(editCompetition) && showEditModal == old(showEditModal)
    {
      if !NoNull(TeamsOrEmpty(comp)) {
        return;
      }
      editCompetition := Some(EditCopy(comp));
      showEditModal := true;
    }

    method CloseEditModal()
      modifies this`editCompetition, this`showEditModal
      ensures editCompetition == None && !showEditModal
    {
      showEditModal := false;
      editCompetition := None;
    }

    method OpenDeleteModal(comp: Competition)
      modifies this`selectedCompetition, this`showDeleteModal
      ensures selectedCompetition == Some(comp) && showDeleteModal
    {
      selectedCompetition := Some(comp);
      showDeleteModal := true;
    }

    method CloseDeleteModal()
      modifies this`selectedCompetition, this`showDeleteModal
      ensures selectedCompetition == None && !showDeleteModal
    {
      showDeleteModal := false;
      selectedCompetition := None;
    }

    /** `addCompetition`: an incomplete competition only sets the error, with no
        request and `loading` untouched; after a successful create the reload
        is always the unfiltered one. */
    method AddCompetition(created: Outcome<()>, reload: Outcome<ArrayBody<Competition>>)
      returns (calls: seq<Call<Competition>>)
      modifies this`competitions, this`loading, this`error, this`successMessage, this`showAddModal
      ensures !ReadyToCreate(newCompetition) ==>
                calls == [] && error == MissingFields
                && loading == old(loading) && competitions == old(competitions)
                && successMessage == old(successMessage) && showAddModal == old(showAddModal)
      ensures ReadyToCreate(newCompetition) && created.Success? ==>
                calls == [Create(newCompetition), ListAll]
                && !showAddModal && successMessage == Created
                && Loaded(reload, old(competitions))
      ensures ReadyToCreate(newCompetition) && created.Failure? ==>
                calls == [Create(newCompetition)]
                && !loading && error == ErrorText(created.message, CreateFailed)
                && successMessage == "" && competitions == old(competitions)
                && showAddModal == old(showAddModal)
    {
      if !ReadyToCreate(newCompetition) {
        error := MissingFields;
        calls := [];
        return;
      }
      loading := true;
      error := "";
      successMessage := "";
      calls := [Create(newCompetition)];
      if created.Success? {
        loading := false;
        CloseAddModal();
        var more := LoadAllCompetitions(reload);
        calls := calls + more;
        successMessage := Created;
      } else {
        error := ErrorText(created.message, CreateFailed);
        loading := false;
      }
    }

    /** `updateCompetition`: nothing happens without a working copy with an id;
        after a successful update the reload is always the unfiltered one. */
    method UpdateCompetition(updated: Outcome<()>, reload: Outcome<ArrayBody<Competition>>)
      returns (calls: seq<Call<Competition>>)
      modifies this`competitions, this`loading, this`error, this`successMessage
      modifies this`editCompetition, this`showEditModal
      ensures old(editCompetition).None? || !Truthy(old(editCompetition).value.id) ==>
                calls == [] && unchanged(this)
      ensures old(editCompetition).Some? && Truthy(old(editCompetition).value.id) ==>
                var sent := old(editCompetition).value;
                && (updated.Success? ==>
                      calls == [Update(sent.id.value, sent), ListAll]
                      && editCompetition == None && !showEditModal && successMessage == Updated
                      && Loaded(reload, old(competitions)))
                && (updated.Failure? ==>
                      calls == [Update(sent.id.value, sent)]
                      && !loading && error == ErrorText(updated.message, UpdateFailed)
                      && competitions == old(competitions) && successMessage == old(successMessage)
                      && editCompetition == old(editCompetition) && showEditModal == old(showEditModal))
    {
      calls := [];
      if editCompetition.None? || !Truthy(editCompetition.value.id) {
        return;
      }
      var sent := editCompetition.value;
      loading := true;
      error := "";
      calls := [Update(sent.id.value, sent)];
      if updated.Success? {
        loading := false;
        CloseEditModal();
        var more := LoadAllCompetitions(reload);
        calls := calls + more;
        successMessage := Updated;
      } else {
        error := ErrorText(updated.message, UpdateFailed);
        loading := false;
      }
    }

    /** `deleteCompetition`: nothing happens without a selection with an id;
        after a successful delete the reload is always the unfiltered one. */
    method DeleteCompetition(deleted: Outcome<()>, reload: Outcome<ArrayBody<Competition>>)
      returns (calls: seq<Call<Competition>>)
      modifies this`competitions, this`loading, this`error, this`successMessage
      modifies this`selectedCompetition, this`showDeleteModal
      ensures old(selectedCompetition).None? || !Truthy(old(selectedCompetition).value.id) ==>
                calls == [] && unchanged(this)
      ensures old(selectedCompetition).Some? && Truthy(old(selectedCompetition).value.id) ==>
                var id := old(selectedCompetition).value.id.value;
                && (deleted.Success? ==>
                      calls == [Delete(id), ListAll]
                      && selectedCompetition == None && !showDeleteModal && successMessage == Deleted
                      && Loaded(reload, old(competitions)))
                && (deleted.Failure? ==>
                      calls == [Delete(id)]
                      && !loading && error == ErrorText(deleted.message, DeleteFailed)
                      && competitions == old(competitions) && successMessage == old(successMessage)
                      && selectedCompetition == old(selectedCompetition)
                      && showDeleteModal == old(showDeleteModal))
    {
      calls := [];
      if selectedCompetition.None? || !Truthy(selectedCompetition.value.id) {
        return;
      }
      var id := selectedCompetition.value.id.value;
      loading := true;
      error := "";
      calls := [Delete(id)];
      if deleted.Success? {
        loading := false;
        CloseDeleteModal();
        var more := LoadAllCompetitions(reload);
        calls := calls + more;
        successMessage := Deleted;
      } else {
        error := ErrorText(deleted.message, DeleteFailed);
        loading := false;
      }
    }

    /** `getEpisodesForSeason(seasonId)`: the episodes of the given season, or
        of the selected one when none is given, in their original order; all
        episodes when neither is set. */
    function GetEpisodesForSeason(seasonId: Option<string>): (r: seq<Episode>)
      reads this
      ensures !Truthy(seasonId) && selectedSeasonId == "" ==> r == episodes
      ensures Truthy(seasonId) ==> r == EpisodesOfSeason(episodes, seasonId.value)
      ensures !Truthy(seasonId) && selectedSeasonId != "" ==> r == EpisodesOfSeason(episodes, selectedSeasonId)
    {
      var id := if Truthy(seasonId) then seasonId.value else selectedSeasonId;
      if id == "" then episodes else EpisodesOfSeason(episodes, id)
    }

    /** `getSeasonName`: 'N/A' for an empty id or no match, otherwise the name
        of the first season with that id. */
    function GetSeasonName(id: Option<string>): (name: string)
      reads this
      ensures !Truthy(id) ==> name == NotAvailable
      ensures Truthy(id) && (forall j :: 0 <= j < |seasons| ==> seasons[j].id != id) ==> name == NotAvailable
      ensures Truthy(id) ==>
                forall j ::
                  (0 <= j < |seasons| && seasons[j].id == id
                   && forall k :: 0 <= k < j ==> seasons[k].id != id)
                  ==> name == seasons[j].name
    {
      if !Truthy(id) then NotAvailable
      else
        match FirstIndex(seasons, (s: Season) => s.id == id)
        case Some(i) => seasons[i].name
        case None => NotAvailable
    }

    /** `getEpisodeName`: as `getSeasonName`, over the episodes' `id`. */
    function GetEpisodeName(id: Option<string>): (name: string)
      reads this
      ensures !Truthy(id) ==> name == NotAvailable
      ensures Truthy(id) && (forall j :: 0 <= j < |episodes| ==> episodes[j].id != id) ==> name == NotAvailable
      ensures Truthy(id) ==>
                forall j ::
                  (0 <= j < |episodes| && episodes[j].id == id
                   && forall k :: 0 <= k < j ==> episodes[k].id != id)
                  ==> name == episodes[j].name
    {
      if !Truthy(id) then NotAvailable
      else
        match FirstIndex(episodes, (e: Episode) => e.id == id)
        case Some(i) => episodes[i].name
        case None => NotAvailable
    }

    /** `team?.toString()`: nothing for `null` and `undefined`. */
    static function RefText(team: TeamRef): (r: Option<string>)
      ensures team.Null? || team.Undefined? <==> r.None?
      ensures team.Primitive? ==> r == Some(ScalarText(team.v))
      ensures team.TeamObject? ==> r == Some(ObjectText)
    {
      match team
      case Null => None
      case Undefined => None
      case Primitive(v) => Some(ScalarText(v))
      case TeamObject(_, _, _) => Some(ObjectText)
    }

    /** Whether a team of the list answers to the text `id`, by `id` or `_id`. */
    static predicate TeamMatches(t: Team, id: string): (b: bool)
      ensures t.id.Some? && ScalarText(t.id.value) == id ==> b
      ensures t.uid == Some(id) ==> b
      ensures b ==> (t.id.Some? && ScalarText(t.id.value) == id) || t.uid == Some(id)
    {
      (t.id.Some? && ScalarText(t.id.value) == id) || (t.uid.Some? && t.uid.value == id)
    }

    /** A team with a numeric `id` answers to the text of a number exactly when
        it is the same number, or when its `_id` is that text. */
    static lemma NumericIdMatches(t: Team, m: int, n: int)
      requires t.id == Some(Num(m))
      ensures TeamMatches(t, ScalarText(Num(n))) <==> m == n || t.uid == Some(ScalarText(Num(n)))
    {
      if ScalarText(Num(m)) == ScalarText(Num(n)) {
        NumTextInjective(m, n);
      }
    }

    /** The lookup at the end of `getTeamName`. */
    function LookupTeamName(id: string): (name: string)
      reads this
      ensures (forall j :: 0 <= j < |teams| ==> !TeamMatches(teams[j], id)) ==> name == "#" + id
      ensures forall j ::
                (0 <= j < |teams| && TeamMatches(teams[j], id)
                 && forall k :: 0 <= k < j ==> !TeamMatches(teams[k], id))
                ==> name == teams[j].name
    {
      match FirstIndex(teams, (t: Team) => TeamMatches(t, id))
      case Some(i) => teams[i].name
      case None => "#" + id
    }

    /** `getTeamName`: an embedded team object shows its name, or '#' and its
        id; a missing or empty reference shows '#-'; an identifier shows the
        name of the first team answering to it, or '#' and the identifier. */
    function GetTeamName(team: TeamRef): (name: string)
      reads this
      ensures team.TeamObject? && Truthy(team.name) ==> name == team.name.value
      ensures team.TeamObject? && !Truthy(team.name) && team.id.Some? && ScalarTruthy(team.id.value) ==>
                name == "#" + ScalarText(team.id.value)
      ensures team.Null? || team.Undefined? || team == Primitive(Str("")) ==> name == "#-"
      ensures team.Primitive? && ScalarText(team.v) != "" ==> name == LookupTeamName(ScalarText(team.v))
      ensures team.TeamObject? && !Truthy(team.name) && !(team.id.Some? && ScalarTruthy(team.id.value)) ==>
                name == LookupTeamName(ObjectText)
    {
      if team.TeamObject? && Truthy(team.name) then team.name.value
      else if team.TeamObject? && team.id.Some? && ScalarTruthy(team.id.value) then "#" + ScalarText(team.id.value)
      else
        var id := RefText(team);
        if !Truthy(id) then "#-" else LookupTeamName(id.value)
    }

    /** The name shown for a team does not change when the edit modal reduces
        an embedded team to its id, provided the first team of the list
        answering to that id is the embedded one. */
    lemma EditKeepsTeamName(team: TeamRef, i: nat)
      requires team.TeamObject? && team.id.Some? && Truthy(team.name)
      requires ScalarText(team.id.value) != ""
      requires i < |teams| && TeamMatches(teams[i], ScalarText(team.id.value))
      requires teams[i].name == team.name.value
      requires forall k :: 0 <= k < i ==> !TeamMatches(teams[k], ScalarText(team.id.value))
      ensures GetTeamName(IdOf(team)) == GetTeamName(team)
    {
    }
  }
}
