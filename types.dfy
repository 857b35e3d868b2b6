/** The records and string unions of the application's type declarations. */
module Types {
  import opened Wrappers

  datatype Podcast = Podcast(
    id: string,
    title: string,
    author: string,
    description: string,
    imageUrl: string,
    episodes: seq<Episode>)

  /** An episode; `duration` is in seconds and the image is optional. */
  datatype Episode = Episode(
    id: string,
    podcastId: string,
    title: string,
    description: string,
    audioUrl: string,
    duration: real,
    publishDate: string,
    imageUrl: Option<string>)

  /** The string union `'general' | 'quote' | 'reference' | 'question'`. */
  datatype AnnotationType = General | Quote | Reference | Question

  /** The string each member of the union stands for. */
  function TypeName(t: AnnotationType): string
  {
    match t
    case General => "general"
    case Quote => "quote"
    case Reference => "reference"
    case Question => "question"
  }

  /** The union's members, in declaration order. */
  const AnnotationTypes: seq<AnnotationType> := [General, Quote, Reference, Question]

  /** A string belongs to the union exactly when it is one of the four names. */
  function ParseAnnotationType(s: string): (r: Option<AnnotationType>)
    ensures r.Some? <==> s in {"general", "quote", "reference", "question"}
  {
    if s == "general" then Some(General)
    else if s == "quote" then Some(Quote)
    else if s == "reference" then Some(Reference)
    else if s == "question" then Some(Question)
    else None
  }

  /** The union has exactly four members, each named by a distinct string that reads back as itself. */
  lemma AnnotationTypeUnion(t: AnnotationType, u: AnnotationType)
    ensures t in AnnotationTypes && |AnnotationTypes| == 4
    ensures ParseAnnotationType(TypeName(t)) == Some(t)
    ensures TypeName(t) == TypeName(u) ==> t == u
  {
  }

  /** An annotation: a note anchored at `timestamp` seconds of episode `episodeId`. */
  datatype Annotation = Annotation(
    id: string,
    episodeId: string,
    timestamp: real,
    text: string,
    kind: AnnotationType,
    createdAt: string,
    updatedAt: string,
    isPrivate: bool)

  /** `'playing' | 'paused' | 'loading'`: there is no idle member. */
  datatype PlayerState = Playing | Paused | Loading

  predicate IsPlaybackSpeed(r: real)
  {
    r == 0.5 || r == 0.75 || r == 1.0 || r == 1.25 || r == 1.5 || r == 1.75 || r == 2.0 || r == 2.5 || r == 3.0
  }

  /** `0.5 | 0.75 | 1 | 1.25 | 1.5 | 1.75 | 2 | 2.5 | 3`. */
  type PlaybackSpeed = r: real | IsPlaybackSpeed(r) witness 1.0
}
