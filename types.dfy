/** The records of types.ts. Optional properties (`birthDate?` and the like) are `Option`s;
    `score` is a JavaScript number, kept as a `real` so that range checks such as
    `2 <= score <= 3` mean what they mean in the source. */
module Types {
  import opened Wrappers

  /** One analysed photo (types.ts:2-13). */
  datatype HealthReport = HealthReport(
    id: string,
    dogId: string,
    date: string,
    score: real,
    consistency: string,
    color: string,
    findings: seq<string>,
    analysis: string,
    imageUrl: string,
    recommendation: string)

  /** One dog (types.ts:15-23). `weight` stays an opaque string, as in the source. */
  datatype DogProfile = DogProfile(
    id: string,
    name: string,
    breed: string,
    avatarSeed: string,
    birthDate: Option<string>,
    weight: Option<string>,
    customAvatarUrl: Option<string>)

  /** A profile before App.addDog gives it an id (`Omit<DogProfile, 'id'>`). */
  datatype DogDraft = DogDraft(
    name: string,
    breed: string,
    avatarSeed: string,
    birthDate: Option<string>,
    weight: Option<string>,
    customAvatarUrl: Option<string>)

  /** types.ts:25-30. */
  datatype AnalysisStatus = Idle | Loading | Success | Error

  /** The draft with the id App.addDog assigns. */
  function WithId(d: DogDraft, id: string): (p: DogProfile)
    ensures p.id == id
    ensures p.name == d.name && p.breed == d.breed && p.avatarSeed == d.avatarSeed
    ensures p.birthDate == d.birthDate && p.weight == d.weight && p.customAvatarUrl == d.customAvatarUrl
  {
    DogProfile(id, d.name, d.breed, d.avatarSeed, d.birthDate, d.weight, d.customAvatarUrl)
  }
}
