# Quiz show admin front end, modelled in Dafny

This project models the page controllers of the administration front end of a
quiz game show: the pages that list, create, edit and delete seasons, episodes,
questions, competitions, contestants, teams, categories and reward types, the
profile page, and the HTTP interceptor that attaches the session token to
outgoing requests.

Each page controller is a class whose fields are the page's state (the list,
the `loading` flag, the `error` text, the modal flags and the working copies),
and each of its methods is a method that changes exactly the fields it names.
A backend call is not performed: its result is a parameter of type
`Outcome` (the parsed body, or an error whose body may carry a `message`), and
each method returns the sequence of backend requests it issues, in order, so
that "no request is made" and "the reload is unfiltered" can be stated. When a
successful create, update or delete triggers a reload, the reload's own result
is a second parameter.

The pure parts are functions with their properties proved as lemmas:

- the mirror between a season's or episode's server `status` and its
  client-side `isActive` flag (`Status`, `Seasons`, `Episodes`);
- the normalisation of a competition's teams to bare identifiers when the edit
  modal opens, the priority between the episode filter, the season filter and
  no filter, the create check, the episode-by-season filter, and the season,
  episode and team name lookups (`Competitions`);
- `push` and `splice` on a question's answer options (`Questions`);
- the interceptor's rule: no credential for a login URL, a bearer header when
  a token is stored, the request untouched otherwise (`AuthInterceptor`).

JavaScript's truthiness, `x || fallback`, `x ?? y` and `find` are written out
in `Common`. Records are plain JSON objects, so a field the object may lack is
an `Option`.

Files: `common.dfy`, `entities.dfy`, `status.dfy`, `auth_interceptor.dfy`,
`profile.dfy`, `contestants.dfy`, `categories.dfy`, `teams.dfy`,
`reward_type.dfy`, `seasons.dfy`, `episodes.dfy`, `questions.dfy`,
`competitions.dfy`.

## Model

| member | source | states |
|---|---|---|
| Common.Truthy | src/app/demo/pages/questions/questions.component.ts:207 | JavaScript truthiness of an optional string: a missing value and '' are falsy, every non-empty string is truthy |
| Common.OrEmpty | src/app/demo/pages/questions/questions.component.ts:174 | `x || ''`: the value when it is a non-empty string, otherwise the empty string, and empty exactly when the value is falsy |
| Common.ErrorText | src/app/demo/pages/competitions/competitions.component.ts:96 | `err.error?.message || fallback`: the server's message when it is non-empty, otherwise the fallback; never empty when the fallback is not |
| Common.DataOrEmpty | src/app/demo/pages/questions/questions.component.ts:97 | `response.data || []`: the envelope's data when present, otherwise the empty list |
| Common.DataOrSelf | src/app/demo/pages/competitions/competitions.component.ts:92 | `response.data || response`: the envelope's data, or the bare array itself |
| Common.FirstIndex | src/app/demo/pages/competitions/competitions.component.ts:252 | the `find` used by every name lookup: the index of the first element satisfying the test, with no earlier one satisfying it, or none when no element does |
| Status.ActiveFromStatus | src/app/demo/pages/seasons/seasons.component.ts:45 | the loaded flag is true exactly when the status is 'active' |
| Status.StatusFromActive | src/app/demo/pages/seasons/seasons.component.ts:110 | the saved status is always 'active' or 'inactive', and 'active' exactly when the flag is true |
| Status.LoadThenSaveKeepsStatus | src/app/demo/pages/seasons/seasons.component.ts:110 | loading then saving unchanged gives back an 'active' or 'inactive' status |
| Status.UnknownStatusSavedInactive | src/app/demo/pages/seasons/seasons.component.ts:110 | any other status, or none, comes back as 'inactive' |
| Status.SaveThenLoadKeepsFlag | src/app/demo/pages/episodes/episodes.component.ts:140 | saving then loading gives back the flag, a missing flag as false |
| AuthInterceptor.Includes | src/app/theme/shared/auth.interceptor.ts:17 | `url.includes('/login')`: true exactly when the pattern occurs somewhere in the string |
| AuthInterceptor.AddsBearer | src/app/theme/shared/auth.interceptor.ts:17-23 | the bearer header is added exactly when '/login' occurs nowhere in the URL and a non-empty token is stored |
| AuthInterceptor.SetHeader | src/app/theme/shared/auth.interceptor.ts:24-28 | `setHeaders`: the named header holds the new value, no other spelling of that name survives, and every header with a different name is kept with its value |
| AuthInterceptor.Intercept | src/app/theme/shared/auth.interceptor.ts:10-36 | a login URL or a missing/empty token leaves the request as it is; otherwise `Authorization: Bearer <token>` is set, replacing any header of that name in any letter case, and URL, body and every differently named header are kept |
| AuthInterceptor.ExistingAuthorizationReplaced | src/app/theme/shared/auth.interceptor.ts:24-28 | a request already carrying `authorization` in lower case is sent without it once the bearer header is added |
| AuthInterceptor.LoginRequestUntouched | src/app/theme/shared/auth.interceptor.ts:17-20 | a request whose URL contains '/login' anywhere is never given a credential |
| AuthInterceptor.InterceptIdempotent | src/app/theme/shared/auth.interceptor.ts:23-28 | passing a request through the interceptor twice equals passing it once |
| Profile.ProfilePage.constructor | src/app/demo/pages/profile/profile.component.ts:14-23 | no profile, not loading, no error |
| Profile.ProfilePage.LoadUserProfile | src/app/demo/pages/profile/profile.component.ts:25-41 | the profile is replaced only by a successful envelope with data; loading always ends; a failure shows the server message or 'Failed to load user profile' |
| Profile.ProfilePage.StatusBadge | src/app/demo/pages/profile/profile.component.ts:43-46 | 'secondary' exactly without a profile, 'success' exactly for status 1, 'danger' exactly for any other status |
| Profile.ProfilePage.StatusText | src/app/demo/pages/profile/profile.component.ts:48-51 | 'Unknown' exactly without a profile, 'Active' exactly for status 1, 'Inactive' exactly otherwise |
| Profile.ProfilePage.BadgeAgreesWithText | src/app/demo/pages/profile/profile.component.ts:43-51 | badge and label always agree: success/Active, danger/Inactive, secondary/Unknown |
| Contestants.EmptyContestant | src/app/demo/pages/contestants/contestants.component.ts:43-48 | the blank contestant has an empty name and no id |
| Contestants.ContestantsPage.constructor | src/app/demo/pages/contestants/contestants.component.ts:15-41 | empty list, nothing loading, no error, all modals closed, empty working copies, no delete id recorded |
| Contestants.ContestantsPage.LoadContestants | src/app/demo/pages/contestants/contestants.component.ts:61-74 | one list request; loading ends; on success the list is the response's `data` (or empty) and the error is cleared; on failure the list is kept and the server message or 'Failed to load contestants' is shown |
| Contestants.ContestantsPage.OpenAddModal | src/app/demo/pages/contestants/contestants.component.ts:83-86 | the add modal opens on the empty record |
| Contestants.ContestantsPage.CloseAddModal | src/app/demo/pages/contestants/contestants.component.ts:88-91 | the add modal closes and its working copy is reset to the empty contestant |
| Contestants.ContestantsPage.OpenEditModal | src/app/demo/pages/contestants/contestants.component.ts:93-96 | the edit modal opens on a copy of the record; the list is untouched |
| Contestants.ContestantsPage.CloseEditModal | src/app/demo/pages/contestants/contestants.component.ts:98-101 | the edit modal closes and its working copy is reset to the empty contestant |
| Contestants.ContestantsPage.OpenDeleteModal | src/app/demo/pages/contestants/contestants.component.ts:103-107 | the delete modal records the record's `id` (or '' when absent) and its name |
| Contestants.ContestantsPage.CloseDeleteModal | src/app/demo/pages/contestants/contestants.component.ts:109-113 | the delete modal closes and the recorded id and name are cleared |
| Contestants.ContestantsPage.AddContestant | src/app/demo/pages/contestants/contestants.component.ts:116-131 | one create request with the working copy; on success the modal closes and the list is reloaded unfiltered; on failure the error is shown and the modal and list stay |
| Contestants.ContestantsPage.UpdateContestant | src/app/demo/pages/contestants/contestants.component.ts:133-149 | no request and no state change when the working copy has no `id`; otherwise one update request by that id, then as for add |
| Contestants.ContestantsPage.ConfirmDelete | src/app/demo/pages/contestants/contestants.component.ts:151-167 | no request and no state change when no id is recorded; otherwise one delete request by that id, then as for add |
| Categories.EmptyCategory | src/app/demo/pages/categories/categories.component.ts:33-41 | the blank category: empty texts, icon 'feather icon-tag', colour '#007bff', active, no `_id` |
| Categories.CategoriesPage.constructor | src/app/demo/pages/categories/categories.component.ts:13-31 | empty list, nothing loading, no error, all modals closed, empty working copies, no delete _id recorded |
| Categories.CategoriesPage.LoadCategories | src/app/demo/pages/categories/categories.component.ts:43-56 | one list request; loading ends; on success the list is the response's `data` (or empty) and the error is cleared; on failure the list is kept and the server message or 'Failed to load categories' is shown |
| Categories.CategoriesPage.OpenAddModal | src/app/demo/pages/categories/categories.component.ts:58-61 | the add modal opens on the empty record |
| Categories.CategoriesPage.CloseAddModal | src/app/demo/pages/categories/categories.component.ts:63-65 | only the add flag is cleared; the working copy stays |
| Categories.CategoriesPage.OpenEditModal | src/app/demo/pages/categories/categories.component.ts:67-70 | the edit modal opens on a copy of the record; the list is untouched |
| Categories.CategoriesPage.CloseEditModal | src/app/demo/pages/categories/categories.component.ts:72-74 | only the edit flag is cleared; the working copy stays |
| Categories.CategoriesPage.OpenDeleteModal | src/app/demo/pages/categories/categories.component.ts:76-80 | the delete modal records the record's `_id` (or '' when absent) and its name |
| Categories.CategoriesPage.CloseDeleteModal | src/app/demo/pages/categories/categories.component.ts:82-84 | only the delete flag is cleared; the recorded id and name stay |
| Categories.CategoriesPage.AddCategory | src/app/demo/pages/categories/categories.component.ts:86-100 | one create request with the working copy; on success the modal closes and the list is reloaded unfiltered; on failure the error is shown and the modal and list stay |
| Categories.CategoriesPage.UpdateCategory | src/app/demo/pages/categories/categories.component.ts:102-117 | no request and no state change when the working copy has no `_id`; otherwise one update request by that id, then as for add |
| Categories.CategoriesPage.ConfirmDelete | src/app/demo/pages/categories/categories.component.ts:119-134 | no request and no state change when no id is recorded; otherwise one delete request by that id, then as for add |
| Teams.EmptyTeam | src/app/demo/pages/teams/teams.component.ts:33-45 | the blank team: empty texts, colour '#007bff', zero score, games, wins and losses, active, no `_id` |
| Teams.TeamsPage.constructor | src/app/demo/pages/teams/teams.component.ts:13-31 | empty list, nothing loading, no error, all modals closed, empty working copies, no delete _id recorded |
| Teams.TeamsPage.LoadTeams | src/app/demo/pages/teams/teams.component.ts:47-60 | one list request; loading ends; on success the list is the response's `data` (or empty) and the error is cleared; on failure the list is kept and the server message or 'Failed to load teams' is shown |
| Teams.TeamsPage.OpenAddModal | src/app/demo/pages/teams/teams.component.ts:62-65 | the add modal opens on the empty record |
| Teams.TeamsPage.CloseAddModal | src/app/demo/pages/teams/teams.component.ts:67-69 | only the add flag is cleared; the working copy stays |
| Teams.TeamsPage.OpenEditModal | src/app/demo/pages/teams/teams.component.ts:71-74 | the edit modal opens on a copy of the record; the list is untouched |
| Teams.TeamsPage.CloseEditModal | src/app/demo/pages/teams/teams.component.ts:76-78 | only the edit flag is cleared; the working copy stays |
| Teams.TeamsPage.OpenDeleteModal | src/app/demo/pages/teams/teams.component.ts:80-84 | the delete modal records the record's `_id` (or '' when absent) and its name |
| Teams.TeamsPage.CloseDeleteModal | src/app/demo/pages/teams/teams.component.ts:86-88 | only the delete flag is cleared; the recorded id and name stay |
| Teams.TeamsPage.AddTeam | src/app/demo/pages/teams/teams.component.ts:90-104 | one create request with the working copy; on success the modal closes and the list is reloaded unfiltered; on failure the error is shown and the modal and list stay |
| Teams.TeamsPage.UpdateTeam | src/app/demo/pages/teams/teams.component.ts:106-121 | no request and no state change when the working copy has no `_id`; otherwise one update request by that id, then as for add |
| Teams.TeamsPage.ConfirmDelete | src/app/demo/pages/teams/teams.component.ts:123-138 | no request and no state change when no id is recorded; otherwise one delete request by that id, then as for add |
| RewardTypes.EmptyRewardType | src/app/demo/pages/reward-type/reward-type.component.ts:32-37 | the blank reward type has empty name and measurement and no id |
| RewardTypes.RewardTypesPage.constructor | src/app/demo/pages/reward-type/reward-type.component.ts:12-30 | empty list, nothing loading, no error, all modals closed, empty working copies, no delete id recorded |
| RewardTypes.RewardTypesPage.LoadRewardTypes | src/app/demo/pages/reward-type/reward-type.component.ts:39-52 | one list request; loading ends; on success the list is the response's `data` (or empty) and the error is cleared; on failure the list is kept and the server message or 'Failed to load reward types' is shown |
| RewardTypes.RewardTypesPage.OpenAddModal | src/app/demo/pages/reward-type/reward-type.component.ts:54-57 | the add modal opens on the empty record |
| RewardTypes.RewardTypesPage.CloseAddModal | src/app/demo/pages/reward-type/reward-type.component.ts:59-61 | only the add flag is cleared; the working copy stays |
| RewardTypes.RewardTypesPage.OpenEditModal | src/app/demo/pages/reward-type/reward-type.component.ts:63-66 | the edit modal opens on a copy of the record; the list is untouched |
| RewardTypes.RewardTypesPage.CloseEditModal | src/app/demo/pages/reward-type/reward-type.component.ts:68-70 | only the edit flag is cleared; the working copy stays |
| RewardTypes.RewardTypesPage.OpenDeleteModal | src/app/demo/pages/reward-type/reward-type.component.ts:72-76 | the delete modal records the record's `id` (or '' when absent) and its name |
| RewardTypes.RewardTypesPage.CloseDeleteModal | src/app/demo/pages/reward-type/reward-type.component.ts:78-80 | only the delete flag is cleared; the recorded id and name stay |
| RewardTypes.RewardTypesPage.AddRewardType | src/app/demo/pages/reward-type/reward-type.component.ts:82-96 | one create request with the working copy; on success the modal closes and the list is reloaded unfiltered; on failure the error is shown and the modal and list stay |
| RewardTypes.RewardTypesPage.UpdateRewardType | src/app/demo/pages/reward-type/reward-type.component.ts:98-113 | no request and no state change when the working copy has no `id`; otherwise one update request by that id, then as for add |
| RewardTypes.RewardTypesPage.ConfirmDelete | src/app/demo/pages/reward-type/reward-type.component.ts:115-130 | no request and no state change when no id is recorded; otherwise one delete request by that id, then as for add |
| Seasons.EmptySeason | src/app/demo/pages/seasons/seasons.component.ts:56-62 | the add modal's season: empty name, description and status, flag true, no id |
| Seasons.MirrorSeason | src/app/demo/pages/seasons/seasons.component.ts:45 | the flag now agrees with the status and nothing else about the season changes; an already consistent season is unchanged |
| Seasons.MirrorAll | src/app/demo/pages/seasons/seasons.component.ts:44-46 | every season of the loaded list has its flag in step with its status; length, order and every other field are kept |
| Seasons.SeasonToSave | src/app/demo/pages/seasons/seasons.component.ts:110 | the sent status is 'active' exactly when the flag is true, otherwise 'inactive'; nothing else changes |
| Seasons.EditUnchangedKeepsStatus | src/app/demo/pages/seasons/seasons.component.ts:107-110 | a loaded season saved with its flag untouched sends back 'active' or 'inactive' as loaded, and any other status as 'inactive' |
| Seasons.SeededSeasonNotMirrored | src/app/demo/pages/seasons/seasons.component.ts:56-62 | the add modal's season is created with flag true but an empty status: `addSeason` sends it without deriving the status |
| Seasons.SeasonsPage.constructor | src/app/demo/pages/seasons/seasons.component.ts:13-27 | empty list, no selection, all modals closed, the empty season as working copy; every listed season is consistent |
| Seasons.SeasonsPage.LoadSeasons | src/app/demo/pages/seasons/seasons.component.ts:38-54 | one list request; on success the list is the response's data with every flag rewritten from its status; on failure the list is kept and the message or 'Failed to load seasons' shown; the list stays consistent |
| Seasons.SeasonsPage.OpenAddModal | src/app/demo/pages/seasons/seasons.component.ts:56-64 | the add modal opens on the empty season |
| Seasons.SeasonsPage.CloseAddModal | src/app/demo/pages/seasons/seasons.component.ts:66-68 | only the add flag is cleared |
| Seasons.SeasonsPage.OpenEditModal | src/app/demo/pages/seasons/seasons.component.ts:70-75 | the listed season's flag is rewritten from its status (a no-op on a loaded list) and a copy of it becomes the selection |
| Seasons.SeasonsPage.CloseEditModal | src/app/demo/pages/seasons/seasons.component.ts:77-80 | the edit modal closes and the selection is cleared |
| Seasons.SeasonsPage.OpenDeleteModal | src/app/demo/pages/seasons/seasons.component.ts:82-85 | the season becomes the selection and the delete modal opens |
| Seasons.SeasonsPage.CloseDeleteModal | src/app/demo/pages/seasons/seasons.component.ts:87-90 | the delete modal closes and the selection is cleared |
| Seasons.SeasonsPage.AddSeason | src/app/demo/pages/seasons/seasons.component.ts:92-105 | one create request with the working copy as it stands; on success the modal closes and the list is reloaded; on failure the error is shown |
| Seasons.SeasonsPage.UpdateSeason | src/app/demo/pages/seasons/seasons.component.ts:107-124 | nothing happens without a selection with an id; otherwise the status is derived from the flag, the update is sent by id, and the list is reloaded on success |
| Seasons.SeasonsPage.DeleteSeason | src/app/demo/pages/seasons/seasons.component.ts:126-141 | nothing happens without a selection with an id; otherwise one delete request by id, and the list is reloaded on success |
| Episodes.MirrorEpisode | src/app/demo/pages/episodes/episodes.component.ts:69 | the flag now agrees with the status and nothing else changes; an already consistent episode is unchanged |
| Episodes.MirrorAll | src/app/demo/pages/episodes/episodes.component.ts:68-70 | every loaded episode has its flag in step with its status; length, order and every other field are kept |
| Episodes.EpisodeToSave | src/app/demo/pages/episodes/episodes.component.ts:158-160 | the sent status is 'active' exactly when the flag is true, otherwise 'inactive'; nothing else changes |
| Episodes.LoadThenSaveRoundTrip | src/app/demo/pages/episodes/episodes.component.ts:158-160 | a loaded 'active' or 'inactive' episode saved without touching its flag is sent exactly as loaded |
| Episodes.ListCall | src/app/demo/pages/episodes/episodes.component.ts:145-149 | the reload request follows the season filter: by season when one is selected, otherwise all |
| Episodes.EpisodesPage.constructor | src/app/demo/pages/episodes/episodes.component.ts:14-30 | empty lists, no filter, no selection, all modals closed |
| Episodes.EpisodesPage.LoadSeasons | src/app/demo/pages/episodes/episodes.component.ts:50-59 | the season list is the response's data on success and unchanged on failure |
| Episodes.EpisodesPage.LoadAllEpisodes | src/app/demo/pages/episodes/episodes.component.ts:61-77 | one unfiltered list request; on success the list is the data with flags mirrored from statuses; on failure the list is kept and the message or 'Failed to load episodes' shown |
| Episodes.EpisodesPage.LoadEpisodesBySeason | src/app/demo/pages/episodes/episodes.component.ts:79-95 | as for the unfiltered load, with one request by season |
| Episodes.EpisodesPage.OnQueryParams | src/app/demo/pages/episodes/episodes.component.ts:40-47 | a `seasonId` parameter becomes the filter and the list is loaded by season; without one the list is loaded unfiltered and the filter kept |
| Episodes.EpisodesPage.FilterQueryParam | src/app/demo/pages/episodes/episodes.component.ts:97-103 | the query parameter the filter change navigates to: the selected season exactly when one is selected |
| Episodes.EpisodesPage.OpenAddModal | src/app/demo/pages/episodes/episodes.component.ts:105-112 | the add modal opens on a blank active episode in the filtered season, with no id, `_id` or status |
| Episodes.EpisodesPage.CloseAddModal | src/app/demo/pages/episodes/episodes.component.ts:114-116 | only the add flag is cleared |
| Episodes.EpisodesPage.OpenEditModal | src/app/demo/pages/episodes/episodes.component.ts:118-121 | a copy of the episode becomes the selection |
| Episodes.EpisodesPage.CloseEditModal | src/app/demo/pages/episodes/episodes.component.ts:123-126 | the edit modal closes and the selection is cleared |
| Episodes.EpisodesPage.OpenDeleteModal | src/app/demo/pages/episodes/episodes.component.ts:128-131 | the episode becomes the selection |
| Episodes.EpisodesPage.CloseDeleteModal | src/app/demo/pages/episodes/episodes.component.ts:133-136 | the delete modal closes and the selection is cleared |
| Episodes.EpisodesPage.AddEpisode | src/app/demo/pages/episodes/episodes.component.ts:138-156 | the status is derived from the flag, one create request is sent, and on success the list is reloaded following the season filter |
| Episodes.EpisodesPage.UpdateEpisode | src/app/demo/pages/episodes/episodes.component.ts:158-178 | nothing happens without a selection with an id; otherwise the status is derived, the update sent by id and the list reloaded following the season filter |
| Episodes.EpisodesPage.DeleteEpisode | src/app/demo/pages/episodes/episodes.component.ts:180-199 | nothing happens without a selection with an id; otherwise one delete request by id and a reload following the season filter |
| Episodes.EpisodesPage.GetSeasonName | src/app/demo/pages/episodes/episodes.component.ts:201-204 | the name of the first season with that id, or 'Unknown' when none has it |
| Questions.EmptyQuestion | src/app/demo/pages/questions/questions.component.ts:65-79 | a multiple-choice question with four empty options, 10 points, medium difficulty, 30 seconds, order 1, active, no id and no episode |
| Questions.WithBlankOption | src/app/demo/pages/questions/questions.component.ts:252-255 | exactly one '' is appended after the existing options, a missing list counting as empty |
| Questions.SpliceStart | src/app/demo/pages/questions/questions.component.ts:260 | where `splice(index, 1)` acts: a negative index counts from the end, clamped to the list |
| Questions.SpliceOne | src/app/demo/pages/questions/questions.component.ts:260 | `splice(index, 1)`: at most one option is removed, those before it stay in place, those after it shift down by one, and the removed one is exactly the one missing from the multiset |
| Questions.RemoveAddedOption | src/app/demo/pages/questions/questions.component.ts:251-262 | removing the option just added, by its index or by -1, gives back the options as they were |
| Questions.RemoveInsideKeepsOrder | src/app/demo/pages/questions/questions.component.ts:258-262 | for an index inside the list the result is the options before it followed by the options after it |
| Questions.ListCall | src/app/demo/pages/questions/questions.component.ts:193-197 | the reload request follows the episode filter: by episode when one is selected, otherwise all |
| Questions.QuestionsPage.constructor | src/app/demo/pages/questions/questions.component.ts:15-34 | empty lists, no filter, all modals closed, both working copies the empty question |
| Questions.QuestionsPage.LoadEpisodes | src/app/demo/pages/questions/questions.component.ts:81-90 | the episode list is the response's data (or empty) on success and unchanged on failure |
| Questions.QuestionsPage.LoadAllQuestions | src/app/demo/pages/questions/questions.component.ts:92-105 | one unfiltered request; on success the list is the data or empty; on failure the list is kept and the message or 'Failed to load questions' shown |
| Questions.QuestionsPage.LoadQuestionsByEpisode | src/app/demo/pages/questions/questions.component.ts:107-125 | without a selected episode it is the unfiltered load; otherwise the same with one request by episode |
| Questions.QuestionsPage.OnQueryParams | src/app/demo/pages/questions/questions.component.ts:55-62 | an `episodeId` parameter becomes the filter and the list is loaded by episode; without one the list is loaded unfiltered |
| Questions.QuestionsPage.OnEpisodeFilterChange | src/app/demo/pages/questions/questions.component.ts:127-142 | the list is reloaded following the episode filter |
| Questions.QuestionsPage.GetEpisodeName | src/app/demo/pages/questions/questions.component.ts:144-147 | the title of the first episode whose `_id` matches, or 'Unknown Episode' |
| Questions.QuestionsPage.OpenAddModal | src/app/demo/pages/questions/questions.component.ts:150-156 | the add modal opens on the empty question placed in the filtered episode |
| Questions.QuestionsPage.CloseAddModal | src/app/demo/pages/questions/questions.component.ts:158-161 | the add modal closes and its working copy is reset to the empty question |
| Questions.QuestionsPage.OpenEditModal | src/app/demo/pages/questions/questions.component.ts:163-166 | a copy of the question becomes the edit working copy |
| Questions.QuestionsPage.CloseEditModal | src/app/demo/pages/questions/questions.component.ts:168-171 | the edit modal closes and its working copy is reset to the empty question |
| Questions.QuestionsPage.OpenDeleteModal | src/app/demo/pages/questions/questions.component.ts:173-177 | the question's `_id` (or '') and its text are recorded |
| Questions.QuestionsPage.CloseDeleteModal | src/app/demo/pages/questions/questions.component.ts:179-183 | the delete modal closes and the recorded id and text are cleared |
| Questions.QuestionsPage.AddQuestion | src/app/demo/pages/questions/questions.component.ts:186-204 | one create request; on success the modal closes, the working copy is reset, and the list is reloaded following the episode filter; on failure the error is shown |
| Questions.QuestionsPage.UpdateQuestion | src/app/demo/pages/questions/questions.component.ts:206-226 | no request and no state change without an `_id`; otherwise one update request by it, then as for add |
| Questions.QuestionsPage.ConfirmDelete | src/app/demo/pages/questions/questions.component.ts:228-248 | no request and no state change without a recorded id; otherwise one delete request by it, then as for add |
| Questions.QuestionsPage.AddOption | src/app/demo/pages/questions/questions.component.ts:251-256 | the add modal's options get one '' appended and nothing else changes; the edit working copy is untouched |
| Questions.QuestionsPage.RemoveOption | src/app/demo/pages/questions/questions.component.ts:258-262 | the add modal's options lose the element `splice(index, 1)` removes; a missing list is left alone |
| Questions.QuestionsPage.AddEditOption | src/app/demo/pages/questions/questions.component.ts:264-269 | as for the add modal, on the edit working copy only |
| Questions.QuestionsPage.RemoveEditOption | src/app/demo/pages/questions/questions.component.ts:271-275 | as for the add modal, on the edit working copy only |
| Competitions.ScalarText | src/app/demo/pages/competitions/competitions.component.ts:268 | the text of an identifier: a string is itself; a non-negative number gives digits that read back as the number; a negative one gives '-' followed by digits that read back as its magnitude |
| Competitions.Digit | src/app/demo/pages/competitions/competitions.component.ts:268 | the character of one decimal digit, whose code is '0' plus the digit |
| Competitions.NatText | src/app/demo/pages/competitions/competitions.component.ts:268 | `String(n)` for a natural number: a non-empty string of decimal digits (which read back as `n`, by the round-trip lemma) |
| Competitions.NatTextRoundTrip | src/app/demo/pages/competitions/competitions.component.ts:268 | reading the decimal form of a number back gives the number |
| Competitions.NatTextInjective | src/app/demo/pages/competitions/competitions.component.ts:275 | different natural numbers have different decimal forms |
| Competitions.NumTextInjective | src/app/demo/pages/competitions/competitions.component.ts:275 | two numbers with the same text are equal, so a numeric identifier matched by text is matched by value |
| Competitions.ScalarTruthy | src/app/demo/pages/competitions/competitions.component.ts:267 | truthiness of an identifier: falsy exactly for '' and the number 0, so a falsy one renders as '' or '0'; a string is truthy exactly when its text is non-empty, a positive number is truthy |
| Competitions.IdOf | src/app/demo/pages/competitions/competitions.component.ts:161-162 | an embedded team becomes its `id`, or its `_id` when `id` is null or undefined; any other entry is kept |
| Competitions.TeamIds | src/app/demo/pages/competitions/competitions.component.ts:161-163 | the normalised list has the same length and order, each entry normalised, and no embedded team left |
| Competitions.TeamIdsIdempotent | src/app/demo/pages/competitions/competitions.component.ts:161-163 | normalising an already normalised list changes nothing |
| Competitions.TeamIdsAppend | src/app/demo/pages/competitions/competitions.component.ts:161-163 | normalisation works entry by entry: it distributes over concatenation |
| Competitions.TeamsOrEmpty | src/app/demo/pages/competitions/competitions.component.ts:161 | `comp.teams || []`: the teams when present, otherwise the empty list |
| Competitions.EditCopy | src/app/demo/pages/competitions/competitions.component.ts:161-164 | the edit copy has the normalised teams (a missing list giving []) and every other field of the competition |
| Competitions.EmptyCompetition | src/app/demo/pages/competitions/competitions.component.ts:50-56 | the add modal's competition is seeded with the selected season and episode and no teams |
| Competitions.ReadyToCreate | src/app/demo/pages/competitions/competitions.component.ts:184 | the create check passes exactly when season and episode are non-empty and at least one team is chosen, a missing team list counting as none |
| Competitions.SeededNeverReady | src/app/demo/pages/competitions/competitions.component.ts:183-187 | a freshly seeded competition never passes the create check |
| Competitions.FilterCall | src/app/demo/pages/competitions/competitions.component.ts:141-149 | by episode exactly when an episode is selected, by season exactly when only a season is selected, all exactly when neither is |
| Competitions.EpisodesOfSeason | src/app/demo/pages/competitions/competitions.component.ts:247 | every kept episode belongs to the season, and each episode of the season is kept as often as it occurs |
| Competitions.EpisodesOfSeasonAppend | src/app/demo/pages/competitions/competitions.component.ts:247 | filtering keeps the original order: it distributes over concatenation |
| Competitions.EpisodesOfSeasonAll | src/app/demo/pages/competitions/competitions.component.ts:247 | when every episode belongs to the season nothing is dropped |
| Competitions.CompetitionsPage.constructor | src/app/demo/pages/competitions/competitions.component.ts:17-36 | empty lists, no filters, no messages, all modals closed, a seeded working copy and no edit copy or selection |
| Competitions.CompetitionsPage.LoadFilters | src/app/demo/pages/competitions/competitions.component.ts:58-85 | each of the season, episode and team lists becomes its response's data on success and is unchanged on failure |
| Competitions.CompetitionsPage.Load | src/app/demo/pages/competitions/competitions.component.ts:87-130 | the body shared by the three loads: exactly the given request; on success the list is the response's data, on failure it is kept and the message or 'Failed to load competitions' shown |
| Competitions.CompetitionsPage.LoadAllCompetitions | src/app/demo/pages/competitions/competitions.component.ts:87-100 | one unfiltered request; on success the list is the data, on failure it is kept and the message or 'Failed to load competitions' shown |
| Competitions.CompetitionsPage.LoadCompetitionsBySeason | src/app/demo/pages/competitions/competitions.component.ts:102-115 | as for the unfiltered load, with one request by season |
| Competitions.CompetitionsPage.LoadCompetitionsByEpisode | src/app/demo/pages/competitions/competitions.component.ts:117-130 | as for the unfiltered load, with one request by episode |
| Competitions.CompetitionsPage.OnFilterChange | src/app/demo/pages/competitions/competitions.component.ts:141-149 | exactly one load, the request chosen by the filter priority |
| Competitions.CompetitionsPage.OnSeasonChange | src/app/demo/pages/competitions/competitions.component.ts:132-135 | the episode filter is cleared first, so the load is never by episode |
| Competitions.CompetitionsPage.OnEpisodeChange | src/app/demo/pages/competitions/competitions.component.ts:137-139 | the load the filter priority chooses |
| Competitions.CompetitionsPage.OpenAddModal | src/app/demo/pages/competitions/competitions.component.ts:151-154 | the add modal opens on a competition seeded from the filters |
| Competitions.CompetitionsPage.CloseAddModal | src/app/demo/pages/competitions/competitions.component.ts:156-158 | only the add flag is cleared |
| Competitions.CompetitionsPage.OpenEditModal | src/app/demo/pages/competitions/competitions.component.ts:160-166 | the edit copy has its teams normalised; a `null` team entry throws and nothing changes |
| Competitions.CompetitionsPage.CloseEditModal | src/app/demo/pages/competitions/competitions.component.ts:168-171 | the edit modal closes and the edit copy is dropped |
| Competitions.CompetitionsPage.OpenDeleteModal | src/app/demo/pages/competitions/competitions.component.ts:173-176 | the competition becomes the selection |
| Competitions.CompetitionsPage.CloseDeleteModal | src/app/demo/pages/competitions/competitions.component.ts:178-181 | the delete modal closes and the selection is dropped |
| Competitions.CompetitionsPage.AddCompetition | src/app/demo/pages/competitions/competitions.component.ts:183-204 | an incomplete competition only sets the 'Season, episode and at least one team are required' error: no request, loading untouched; otherwise one create request and, on success, the unfiltered reload and the success message |
| Competitions.CompetitionsPage.UpdateCompetition | src/app/demo/pages/competitions/competitions.component.ts:206-223 | no request and no state change without an edit copy with an id; otherwise one update request by id and, on success, the unfiltered reload whatever the filters |
| Competitions.CompetitionsPage.DeleteCompetition | src/app/demo/pages/competitions/competitions.component.ts:225-242 | no request and no state change without a selection with an id; otherwise one delete request by id and, on success, the unfiltered reload whatever the filters |
| Competitions.CompetitionsPage.GetEpisodesForSeason | src/app/demo/pages/competitions/competitions.component.ts:244-248 | all episodes when neither the argument nor the selected season is set; otherwise exactly the episodes of that season, in order |
| Competitions.CompetitionsPage.GetSeasonName | src/app/demo/pages/competitions/competitions.component.ts:250-254 | 'N/A' for an empty id or no match, otherwise the name of the first season with that id |
| Competitions.CompetitionsPage.GetEpisodeName | src/app/demo/pages/competitions/competitions.component.ts:256-260 | 'N/A' for an empty id or no match, otherwise the name of the first episode with that id |
| Competitions.CompetitionsPage.RefText | src/app/demo/pages/competitions/competitions.component.ts:271 | `team?.toString()`: nothing for null and undefined, an identifier's text, '[object Object]' for an object |
| Competitions.CompetitionsPage.TeamMatches | src/app/demo/pages/competitions/competitions.component.ts:275 | a team answers to a text when its `id` renders as that text or its `_id` is that text, and only then |
| Competitions.CompetitionsPage.NumericIdMatches | src/app/demo/pages/competitions/competitions.component.ts:275 | a team with a numeric `id` answers to a number's text exactly when it is the same number or its `_id` is that text |
| Competitions.CompetitionsPage.LookupTeamName | src/app/demo/pages/competitions/competitions.component.ts:275-276 | the name of the first team answering to the text by `id` or `_id`, else '#' and the text |
| Competitions.CompetitionsPage.GetTeamName | src/app/demo/pages/competitions/competitions.component.ts:262-277 | an embedded team with a name shows it; one with a truthy id but no name shows '#'+id; one with neither is looked up as '[object Object]'; null, undefined and '' show '#-'; an identifier shows the looked-up name |
| Competitions.CompetitionsPage.EditKeepsTeamName | src/app/demo/pages/competitions/competitions.component.ts:262-277 | the shown team name is the same before and after the edit modal reduces the embedded team to its id, when that team is the first one answering to the id |

## Left out

- AuthInterceptor.SetHeader: header names are compared by folding ASCII letters only (header names are ASCII tokens), where `HttpHeaders` uses full `toLowerCase`; a request map holding two spellings of another header name is kept as given, which `HttpHeaders` cannot represent.
- HTTP, storage and the console: every backend call is replaced by its outcome, the stored token is a parameter of `Intercept`, and logging is dropped.
- Asynchrony: a request and its reply are modelled as completing inside the method that issues it; double submits, replies arriving out of order and the three parallel loads of `loadFilters` are not modelled.
- The timer that clears the competitions page's success message three seconds later is not modelled; the message is left set.
- Router navigation: `viewEpisodes` on the seasons page and the navigation in `onEpisodeFilterChange` are not modelled; on the episodes page the filter change is modelled by the query parameter it navigates to (`FilterQueryParam`) and the `queryParams` subscription by `OnQueryParams`.
- `ngOnInit` is not a member of its own: it is the composition of the load methods and the query-parameter handlers above.
- Shared references: records are values here. A shallow copy that shares its options array with the listed question (so that `addEditOption` also grows the listed question's options), and the delete modals that keep a reference to the listed record, are not modelled.
- Pages that store `response.data || response`: a reply that is an envelope without `data` would make the page store the envelope object itself as its list; such replies are excluded by the `ArrayBody` type.
- Seasons.SeasonsPage.OpenEditModal: takes the position of the season in the list instead of the season object, so opening the edit modal on a season that is not in the list is not modelled.
- Questions.SpliceOne: the index is an integer; `NaN`, fractional and infinite indices, which `splice` converts first, are not modelled.
- Competitions.ScalarText: numeric identifiers are integers; floating-point identifiers and their text are not modelled.
- Competitions.IdOf: an embedded team whose `id` and `_id` are both absent gives `undefined` here, whether the source would give `null` or `undefined`.
- Competitions.CompetitionsPage.GetTeamName: an embedded team object is assumed to have the default `toString` ('[object Object]').
- Episodes.EpisodesPage.OpenAddModal: the new episode's `title`, which the source leaves undefined, is the empty string here, because `title` is a plain string in this model.
- The profile page's `formatDate` is locale-dependent date formatting and is not part of this model.
- Fields that only the templates use (the question type and difficulty choices) and record fields the controllers never read are not modelled.
- The component test file for the reward types page is not part of this model.
