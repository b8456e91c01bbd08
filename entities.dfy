/** The records the pages exchange with the backend, with the fields the pages
    read or write. Records are plain JSON objects, so a field the object lacks is
    `None`; where different pages read the identity under different spellings
    (`id` and `_id`), the record carries both (`id` and `uid`). A display string
    that may be missing is kept as "" (the template renders a missing value as
    empty text). */
module Entities {
  import opened Common

  datatype Season = Season(
    id: Option<string>,
    name: string,
    description: Option<string>,
    status: Option<string>,
    isActive: Option<bool>)

  datatype Episode = Episode(
    id: Option<string>,
    uid: Option<string>,
    seasonId: string,
    name: string,
    title: string,
    status: Option<string>,
    isActive: Option<bool>)

  /** A primitive identifier: a JSON string or number. */
  datatype Scalar = Str(s: string) | Num(n: int)

  /** One entry of a competition's `teams`: the backend sends embedded team
      objects on reads, the page sends bare identifiers on writes. */
  datatype TeamRef =
    | Null
    | Undefined
    | Primitive(v: Scalar)
    | TeamObject(id: Option<Scalar>, uid: Option<Scalar>, name: Option<string>)

  datatype Competition = Competition(
    id: Option<string>,
    seasonId: string,
    episodeId: string,
    teams: Option<seq<TeamRef>>,
    name: Option<string>,
    status: Option<string>)

  datatype Team = Team(
    id: Option<Scalar>,
    uid: Option<string>,
    name: string,
    description: Option<string>,
    color: Option<string>,
    captain: Option<string>,
    totalScore: Option<int>,
    gamesPlayed: Option<int>,
    wins: Option<int>,
    losses: Option<int>,
    isActive: Option<bool>)

  datatype Question = Question(
    uid: Option<string>,
    episodeId: string,
    questionText: string,
    questionType: Option<string>,
    options: Option<seq<string>>,
    correctAnswer: string,
    points: Option<int>,
    difficulty: Option<string>,
    timeLimit: Option<int>,
    explanation: Option<string>,
    order: Option<int>,
    isActive: Option<bool>)

  datatype Contestant = Contestant(id: Option<string>, name: string)

  datatype Category = Category(
    uid: Option<string>,
    name: string,
    description: Option<string>,
    icon: Option<string>,
    color: Option<string>,
    isActive: Option<bool>)

  datatype RewardType = RewardType(id: Option<string>, name: string, measurement: string)

  datatype UserProfile = UserProfile(id: string, fullName: string, username: string, status: int)
}
