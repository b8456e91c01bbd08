/** The questions page: the list of questions, optionally filtered by episode
    through the `episodeId` query parameter, with add, edit and delete modals
    and in-place editing of a question's answer options. */
module Questions {
  import opened Common
  import opened Entities

  const LoadFailed := "Failed to load questions"
  const CreateFailed := "Failed to create question"
  const UpdateFailed := "Failed to update question"
  const DeleteFailed := "Failed to delete question"
  const UnknownEpisode := "Unknown Episode"

  /** `getEmptyQuestion`: a blank multiple-choice question with four empty
      options, worth 10 points, of medium difficulty, 30 seconds, order 1,
      active, with no id and no episode. */
  function EmptyQuestion(): (q: Question)
    ensures q.questionType == Some("multiple-choice") && q.options == Some(["", "", "", ""])
    ensures q.points == Some(10) && q.difficulty == Some("medium") && q.timeLimit == Some(30)
    ensures q.order == Some(1) && q.isActive == Some(true)
    ensures q.episodeId == "" && q.questionText == "" && q.correctAnswer == "" && q.explanation == Some("")
    ensures !Truthy(q.uid)
  {
    Question(None, "", "", Some("multiple-choice"), Some(["", "", "", ""]), "", Some(10),
             Some("medium"), Some(30), Some(""), Some(1), Some(true))
  }

  /** `if (!q.options) q.options = []; q.options.push('')`: the options list
      with one blank option appended, a missing list counting as empty. */
  function WithBlankOption(options: Option<seq<string>>): (r: seq<string>)
    ensures options.None? ==> r == [""]
    ensures options.Some? ==> |r| == |options.value| + 1 && r[..|options.value|] == options.value
    ensures r[|r| - 1] == ""
  {
    match options
    case None => [""]
    case Some(s) => s + [""]
  }

  /** Where `Array.prototype.splice(index, ...)` starts on an array of length
      `len`: a negative index counts from the end, and the result is clamped to
      `[0, len]`. */
  function SpliceStart(len: nat, index: int): (k: nat)
    ensures k <= len
    ensures 0 <= index <= len ==> k == index
    ensures index > len ==> k == len
    ensures -(len as int) <= index < 0 ==> k == len + index
    ensures index < -(len as int) ==> k == 0
  {
    if index < 0 then (if len + index < 0 then 0 else len + index)
    else if index > len then len
    else index
  }

  /** `a.splice(index, 1)` on the array `a`: removes the element at the start
      position when there is one and shifts the rest down. */
  function SpliceOne<T>(s: seq<T>, index: int): (r: seq<T>)
    ensures SpliceStart(|s|, index) < |s| ==> |r| == |s| - 1
    ensures SpliceStart(|s|, index) == |s| ==> r == s
    ensures forall j :: 0 <= j < SpliceStart(|s|, index) && j < |r| ==> r[j] == s[j]
    ensures forall j :: SpliceStart(|s|, index) <= j < |r| ==> r[j] == s[j + 1]
    ensures SpliceStart(|s|, index) < |s| ==>
              multiset(r) + multiset{s[SpliceStart(|s|, index)]} == multiset(s)
  {
    var k := SpliceStart(|s|, index);
    if k < |s| then
      assert s == s[..k] + [s[k]] + s[k + 1..];
      s[..k] + s[k + 1..]
    else s
  }

  /** Removing the option just added, by its index or by -1, gives back the
      options as they were. */
  lemma RemoveAddedOption(s: seq<string>)
    ensures SpliceOne(WithBlankOption(Some(s)), |s|) == s
    ensures SpliceOne(WithBlankOption(Some(s)), -1) == s
  {
  }

  /** For an index inside the list, removing keeps the relative order of the
      remaining options: they are exactly the options before and after it. */
  lemma RemoveInsideKeepsOrder(s: seq<string>, i: int)
    requires 0 <= i < |s|
    ensures SpliceOne(s, i) == s[..i] + s[i + 1..]
  {
  }

  /** The list request matching the episode filter. */
  function ListCall(episodeId: string): (c: Call<Question>)
    ensures episodeId != "" ==> c == ListByEpisode(episodeId)
    ensures episodeId == "" ==> c == ListAll
  {
    if episodeId != "" then ListByEpisode(episodeId) else ListAll
  }

  class QuestionsPage {
    var questions: seq<Question>
    var episodes: seq<Episode>
    var loading: bool
    var error: string
    var selectedEpisodeId: string
    var showAddModal: bool
    var showEditModal: bool
    var showDeleteModal: bool
    var newQuestion: Question
    var editQuestion: Question
    var deleteQuestionId: string
    var deleteQuestionText: string

    constructor ()
      ensures questions == [] && episodes == [] && !loading && error == ""
      ensures selectedEpisodeId == ""
      ensures !showAddModal && !showEditModal && !showDeleteModal
      ensures newQuestion == EmptyQuestion() && editQuestion == EmptyQuestion()
      ensures deleteQuestionId == "" && deleteQuestionText == ""
    {
      questions, episodes := [], [];
      loading, error := false, "";
      selectedEpisodeId := "";
      showAddModal, showEditModal, showDeleteModal := false, false, false;
      newQuestion, editQuestion := EmptyQuestion(), EmptyQuestion();
      deleteQuestionId, deleteQuestionText := "", "";
    }

    /** The state a finished question load leaves. */
    ghost predicate Loaded(r: Outcome<ListBody<Question>>, previous: seq<Question>)
      reads this
    {
      && !loading
      && (r.Success? ==> questions == DataOrEmpty(r.payload) && error == "")
      && (r.Failure? ==> questions == previous && error == ErrorText(r.message, LoadFailed))
    }

    /** `loadEpisodes`: fills the episode list used for names; a failure is
        only logged. */
    method LoadEpisodes(r: Outcome<ListBody<Episode>>)
      modifies this`episodes
      ensures r.Success? ==> episodes == DataOrEmpty(r.payload)
      ensures r.Failure? ==> episodes == old(episodes)
    {
      if r.Success? {
        episodes := DataOrEmpty(r.payload);
      }
    }

    /** `loadAllQuestions` */
    method LoadAllQuestions(r: Outcome<ListBody<Question>>) returns (calls: seq<Call<Question>>)
      modifies this`questions, this`loading, this`error
      ensures calls == [ListAll]
      ensures Loaded(r, old(questions))
    {
      loading := true;
      error := "";
      calls := [ListAll];
      match r
      case Success(body) =>
        questions := DataOrEmpty(body);
        loading := false;
      case Failure(message) =>
        error := ErrorText(message, LoadFailed);
        loading := false;
    }

    /** `loadQuestionsByEpisode`: without a selected episode it falls back to
        loading all questions. */
    method LoadQuestionsByEpisode(r: Outcome<ListBody<Question>>) returns (calls: seq<Call<Question>>)
      modifies this`questions, this`loading, this`error
      ensures calls == [ListCall(selectedEpisodeId)]
      ensures Loaded(r, old(questions))
    {
      if selectedEpisodeId == "" {
        calls := LoadAllQuestions(r);
        return;
      }
      loading := true;
      error := "";
      calls := [ListByEpisode(selectedEpisodeId)];
      match r
      case Success(body) =>
        questions := DataOrEmpty(body);
        loading := false;
      case Failure(message) =>
        error := ErrorText(message, LoadFailed);
        loading := false;
    }

    /** The `queryParams` subscription of `ngOnInit`: an `episodeId`
        parameter becomes the filter and the list is loaded by episode;
        without one the whole list is loaded and the filter is left as it was. */
    method OnQueryParams(episodeIdParam: Option<string>, r: Outcome<ListBody<Question>>)
      returns (calls: seq<Call<Question>>)
      modifies this`questions, this`loading, this`error, this`selectedEpisodeId
      ensures Truthy(episodeIdParam) ==>
                selectedEpisodeId == episodeIdParam.value && calls == [ListByEpisode(episodeIdParam.value)]
      ensures !Truthy(episodeIdParam) ==> selectedEpisodeId == old(selectedEpisodeId) && calls == [ListAll]
      ensures Loaded(r, old(questions))
    {
      if Truthy(episodeIdParam) {
        selectedEpisodeId := episodeIdParam.value;
        calls := LoadQuestionsByEpisode(r);
      } else {
        calls := LoadAllQuestions(r);
      }
    }

    /** `onEpisodeFilterChange`: reloads by the selected episode, or all. */
    method OnEpisodeFilterChange(r: Outcome<ListBody<Question>>) returns (calls: seq<Call<Question>>)
      modifies this`questions, this`loading, this`error
      ensures calls == [ListCall(selectedEpisodeId)]
      ensures Loaded(r, old(questions))
    {
      if selectedEpisodeId != "" {
        calls := LoadQuestionsByEpisode(r);
      } else {
        calls := LoadAllQuestions(r);
      }
    }

    /** `getEpisodeName`: the title of the first episode whose `_id` matches,
        or 'Unknown Episode'. */
    function GetEpisodeName(episodeId: string): (title: string)
      reads this
      ensures (forall j :: 0 <= j < |episodes| ==> episodes[j].uid != Some(episodeId)) ==> title == UnknownEpisode
      ensures forall j ::
                (0 <= j < |episodes| && episodes[j].uid == Some(episodeId)
                 && forall k :: 0 <= k < j ==> episodes[k].uid != Some(episodeId))
                ==> title == episodes[j].title
    {
      match FirstIndex(episodes, (e: Episode) => e.uid == Some(episodeId))
      case Some(i) => episodes[i].title
      case None => UnknownEpisode
    }

    /** `openAddModal`: a blank question in the filtered episode. */
    method OpenAddModal()
      modifies this`newQuestion, this`showAddModal
      ensures newQuestion == EmptyQuestion().(episodeId := selectedEpisodeId) && showAddModal
    {
      newQuestion := EmptyQuestion();
      if selectedEpisodeId != "" {
        newQuestion := newQuestion.(episodeId := selectedEpisodeId);
      }
      showAddModal := true;
    }

    method CloseAddModal()
      modifies this`newQuestion, this`showAddModal
      ensures newQuestion == EmptyQuestion() && !showAddModal
    {
      showAddModal := false;
      newQuestion := EmptyQuestion();
    }

    method OpenEditModal(question: Question)
      modifies this`editQuestion, this`showEditModal
      ensures editQuestion == question && showEditModal
    {
      editQuestion := question;
      showEditModal := true;
    }

    method CloseEditModal()
      modifies this`editQuestion, this`showEditModal
      ensures editQuestion == EmptyQuestion() && !showEditModal
    {
      showEditModal := false;
      editQuestion := EmptyQuestion();
    }

    method OpenDeleteModal(question: Question)
      modifies this`deleteQuestionId, this`deleteQuestionText, this`showDeleteModal
      ensures deleteQuestionId == OrEmpty(question.uid)
      ensures deleteQuestionText == question.questionText && showDeleteModal
    {
      deleteQuestionId := OrEmpty(question.uid);
      deleteQuestionText := question.questionText;
      showDeleteModal := true;
    }

    method CloseDeleteModal()
      modifies this`deleteQuestionId, this`deleteQuestionText, this`showDeleteModal
      ensures deleteQuestionId == "" && deleteQuestionText == "" && !showDeleteModal
    {
      showDeleteModal := false;
      deleteQuestionId := "";
      deleteQuestionText := "";
    }

    /** `addQuestion`: after success the list is reloaded by the episode filter. */
    method AddQuestion(created: Outcome<()>, reload: Outcome<ListBody<Question>>)
      returns (calls: seq<Call<Question>>)
      modifies this`questions, this`loading, this`error, this`newQuestion, this`showAddModal
      ensures created.Success? ==> calls == [Create(old(newQuestion)), ListCall(selectedEpisodeId)]
      ensures created.Success? ==> !showAddModal && newQuestion == EmptyQuestion()
      ensures created.Success? ==> Loaded(reload, old(questions))
      ensures created.Failure? ==> calls == [Create(old(newQuestion))]
      ensures created.Failure? ==> !loading && error == ErrorText(created.message, CreateFailed)
      ensures created.Failure? ==> questions == old(questions)
      ensures created.Failure? ==> showAddModal == old(showAddModal) && newQuestion == old(newQuestion)
    {
      loading := true;
      error := "";
      calls := [Create(newQuestion)];
      if created.Success? {
        loading := false;
        CloseAddModal();
        var more;
        if selectedEpisodeId != "" {
          more := LoadQuestionsByEpisode(reload);
        } else {
          more := LoadAllQuestions(reload);
        }
        calls := calls + more;
      } else {
        error := ErrorText(created.message, CreateFailed);
        loading := false;
      }
    }

    /** `updateQuestion`: does nothing at all when the working copy has no `_id`. */
    method UpdateQuestion(updated: Outcome<()>, reload: Outcome<ListBody<Question>>)
      returns (calls: seq<Call<Question>>)
      modifies this`questions, this`loading, this`error, this`editQuestion, this`showEditModal
      ensures !Truthy(old(editQuestion.uid)) ==> calls == [] && unchanged(this)
      ensures Truthy(old(editQuestion.uid)) && updated.Success? ==>
                calls == [Update(old(editQuestion.uid.value), old(editQuestion)), ListCall(selectedEpisodeId)]
                && !showEditModal && editQuestion == EmptyQuestion()
                && Loaded(reload, old(questions))
      ensures Truthy(old(editQuestion.uid)) && updated.Failure? ==>
                calls == [Update(old(editQuestion.uid.value), old(editQuestion))]
                && !loading && error == ErrorText(updated.message, UpdateFailed)
                && questions == old(questions)
                && showEditModal == old(showEditModal) && editQuestion == old(editQuestion)
    {
      calls := [];
      if !Truthy(editQuestion.uid) {
        return;
      }
      loading := true;
      error := "";
      calls := [Update(editQuestion.uid.value, editQuestion)];
      if updated.Success? {
        loading := false;
        CloseEditModal();
        var more;
        if selectedEpisodeId != "" {
          more := LoadQuestionsByEpisode(reload);
        } else {
          more := LoadAllQuestions(reload);
        }
        calls := calls + more;
      } else {
        error := ErrorText(updated.message, UpdateFailed);
        loading := false;
      }
    }

    /** `confirmDelete`: does nothing at all when no id was recorded. */
    method ConfirmDelete(deleted: Outcome<()>, reload: Outcome<ListBody<Question>>)
      returns (calls: seq<Call<Question>>)
      modifies this`questions, this`loading, this`error
      modifies this`deleteQuestionId, this`deleteQuestionText, this`showDeleteModal
      ensures old(deleteQuestionId) == "" ==> calls == [] && unchanged(this)
      ensures old(deleteQuestionId) != "" && deleted.Success? ==>
                calls == [Delete(old(deleteQuestionId)), ListCall(selectedEpisodeId)]
                && !showDeleteModal && deleteQuestionId == "" && deleteQuestionText == ""
                && Loaded(reload, old(questions))
      ensures old(deleteQuestionId) != "" && deleted.Failure? ==>
                calls == [Delete(old(deleteQuestionId))]
                && !loading && error == ErrorText(deleted.message, DeleteFailed)
                && questions == old(questions) && showDeleteModal == old(showDeleteModal)
                && deleteQuestionId == old(deleteQuestionId)
                && deleteQuestionText == old(deleteQuestionText)
    {
      calls := [];
      if deleteQuestionId == "" {
        return;
      }
      loading := true;
      error := "";
      calls := [Delete(deleteQuestionId)];
      if deleted.Success? {
        loading := false;
        CloseDeleteModal();
        var more;
        if selectedEpisodeId != "" {
          more := LoadQuestionsByEpisode(reload);
        } else {
          more := LoadAllQuestions(reload);
        }
        calls := calls + more;
      } else {
        error := ErrorText(deleted.message, DeleteFailed);
        loading := false;
      }
    }

    /** `addOption`: appends one blank option to the add modal's question,
        creating the list when it is missing; nothing else changes. */
    method AddOption()
      modifies this`newQuestion
      ensures newQuestion == old(newQuestion).(options := Some(WithBlankOption(old(newQuestion).options)))
    {
      newQuestion := newQuestion.(options := Some(WithBlankOption(newQuestion.options)));
    }

    /** `removeOption(index)`: splices one option out of the add modal's
        question when it has an options list. */
    method RemoveOption(index: int)
      modifies this`newQuestion
      ensures old(newQuestion).options.None? ==> newQuestion == old(newQuestion)
      ensures old(newQuestion).options.Some? ==>
                newQuestion == old(newQuestion).(options := Some(SpliceOne(old(newQuestion).options.value, index)))
    {
      if newQuestion.options.Some? {
        newQuestion := newQuestion.(options := Some(SpliceOne(newQuestion.options.value, index)));
      }
    }

    /** `addEditOption`: as `addOption`, on the edit modal's question. */
    method AddEditOption()
      modifies this`editQuestion
      ensures editQuestion == old(editQuestion).(options := Some(WithBlankOption(old(editQuestion).options)))
    {
      editQuestion := editQuestion.(options := Some(WithBlankOption(editQuestion.options)));
    }

    /** `removeEditOption(index)`: as `removeOption`, on the edit modal's question. */
    method RemoveEditOption(index: int)
      modifies this`editQuestion
      ensures old(editQuestion).options.None? ==> editQuestion == old(editQuestion)
      ensures old(editQuestion).options.Some? ==>
                editQuestion == old(editQuestion).(options := Some(SpliceOne(old(editQuestion).options.value, index)))
    {
      if editQuestion.options.Some? {
        editQuestion := editQuestion.(options := Some(SpliceOne(editQuestion.options.value, index)));
      }
    }
  }
}
