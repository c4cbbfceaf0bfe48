/** The application's records: notebooks with their sources and generated
    artifacts, background jobs and notifications. The type declarations file
    of the application is not part of this model; the fields below are the
    ones the modelled code reads and writes. Identifiers are strings (the
    application draws them from crypto.randomUUID) and times are integers
    (milliseconds from Date.now). */
module Types {

  datatype SourceKind = Pdf | Audio | Image | Website | Youtube | CopiedText

  datatype Metadata =
    | NoMetadata
    | OriginalUrl(url: string)
    | FileInfo(filename: string, size: nat)

  datatype Source = Source(
    id: string,
    kind: SourceKind,
    title: string,
    content: string,
    createdAt: int,
    metadata: Metadata)

  datatype ArtifactKind = AudioOverview | Flashcards | Quiz | Infographic | SlideDeck

  /** The artifact type as the application spells it in text. */
  function KindName(k: ArtifactKind): string {
    match k
    case AudioOverview => "audioOverview"
    case Flashcards => "flashcards"
    case Quiz => "quiz"
    case Infographic => "infographic"
    case SlideDeck => "slideDeck"
  }

  datatype ArtifactStatus = Generating | Completed | Failed

  /** What an artifact holds: the empty object of a placeholder, the `null`
      a generator returns for an empty reply, the infographic's
      `{ imageUrl, prompt }`, or another generated object, of which the model
      keeps its optional `title` ("" when absent) and the rest as an opaque
      payload. */
  datatype Content =
    | EmptyObject
    | NullContent
    | ImageContent(imageUrl: string, prompt: string)
    | Generated(title: string, payload: string)

  datatype Artifact = Artifact(
    id: string,
    kind: ArtifactKind,
    title: string,
    content: Content,
    createdAt: int,
    status: ArtifactStatus)

  datatype Notebook = Notebook(
    id: string,
    title: string,
    sources: seq<Source>,
    artifacts: seq<Artifact>,
    createdAt: int,
    updatedAt: int)

  datatype JobStatus = Processing | JobCompleted | JobFailed

  datatype BackgroundJob = BackgroundJob(
    id: string,
    notebookId: string,
    kind: ArtifactKind,
    status: JobStatus)

  datatype NotificationLevel = Success | Error | Info

  datatype Notification = Notification(
    id: string,
    title: string,
    message: string,
    level: NotificationLevel)

  datatype Option<T> = None | Some(value: T)

  datatype Result<T> = Ok(value: T) | Fail(message: string)
}
