/** The background-job provider of App.tsx: starting a generation job puts a
    placeholder artifact at the front of the notebook and records a
    `processing` job; the job's end replaces the placeholder (success) or
    marks it failed, updates the job, and posts a notification.

    Notebook storage is a map from notebook id to notebook; getNotebookById
    reads it and saveNotebook writes the notebook back under its id. Job and
    notification ids (crypto.randomUUID), the clock, the rendered time of day
    and the outcome of the remote generation arrive as parameters. */
module Jobs {
  import opened Types
  import Js
  import Ai

  /** The outcome of the remote generation call: the content it returned, or
      an exception. */
  datatype Generation = Produced(content: Content) | Threw

  /** What the job's try block receives from a generator's result: a `Fail`
      is an exception, which the catch block turns into a failed job. */
  function OutcomeOf(r: Result<Content>): (g: Generation)
    ensures g.Threw? <==> r.Fail?
    ensures r.Ok? ==> g.content == r.value
  {
    if r.Ok? then Produced(r.value) else Threw
  }

  /** The label an artifact kind gets in placeholder titles. */
  function PlaceholderLabel(kind: ArtifactKind): string {
    if kind == AudioOverview then "Podcast" else KindName(kind)
  }

  /** The title of the placeholder shown while a job runs. */
  function PlaceholderTitle(kind: ArtifactKind): (title: string)
    ensures title == PlaceholderLabel(kind) + " (Generating...)"
  {
    PlaceholderLabel(kind) + " (Generating...)"
  }

  /** Placeholders of different kinds never share a title, so the artifact
      list tells the running jobs apart (the labels differ even in length). */
  lemma PlaceholderTitlesDistinct(k1: ArtifactKind, k2: ArtifactKind)
    requires k1 != k2
    ensures PlaceholderTitle(k1) != PlaceholderTitle(k2)
  {
    var t1, t2 := PlaceholderTitle(k1), PlaceholderTitle(k2);
    assert t1[..|PlaceholderLabel(k1)|] == PlaceholderLabel(k1);
    assert t2[..|PlaceholderLabel(k2)|] == PlaceholderLabel(k2);
    assert |PlaceholderLabel(k1)| != |PlaceholderLabel(k2)|;
  }

  function Placeholder(id: string, kind: ArtifactKind, now: int): (a: Artifact)
    ensures a.id == id && a.kind == kind && a.createdAt == now
    ensures a.status == Generating && a.content == EmptyObject
    ensures a.title == PlaceholderTitle(kind)
  {
    Artifact(id, kind, PlaceholderTitle(kind), EmptyObject, now, Generating)
  }

  /** `findIndex` on the artifact id. */
  function FindArtifact(artifacts: seq<Artifact>, id: string): (r: Option<nat>)
    ensures r.Some? ==> r.value < |artifacts| && artifacts[r.value].id == id
    ensures r.Some? ==> forall j :: 0 <= j < r.value ==> artifacts[j].id != id
    ensures r.None? ==> forall j :: 0 <= j < |artifacts| ==> artifacts[j].id != id
  {
    if artifacts == [] then None
    else if artifacts[0].id == id then Some(0)
    else match FindArtifact(artifacts[1..], id)
      case None => None
      case Some(k) => Some(k + 1)
  }

  /** The title of a finished artifact: the podcast's own title (or
      "Podcast") for an audio overview, the kind otherwise, then the time. */
  function CompletedTitle(kind: ArtifactKind, content: Content, timeText: string): string {
    var name :=
      if kind != AudioOverview then KindName(kind)
      else if content.Generated? && content.title != "" then content.title
      else "Podcast";
    name + " - " + timeText
  }

  /** Whether the success branch runs to its end: reading `content.title`
      of a null audio result throws, which sends the job to the failure
      branch. */
  predicate Succeeds(kind: ArtifactKind, outcome: Generation) {
    outcome.Produced? && !(kind == AudioOverview && outcome.content == NullContent)
  }

  /** A text artifact's job completes exactly when its reply is empty (the
      artifact then holds null) or parses; a malformed reply fails it. */
  lemma MalformedReplyFailsJob(kind: ArtifactKind, reply: Option<string>, parse: string -> Result<Content>)
    requires kind != AudioOverview
    ensures Succeeds(kind, OutcomeOf(Ai.TextArtifact(reply, parse)))
      <==> !Ai.Present(reply) || parse(reply.value).Ok?
  {
  }

  /** The success update: the first artifact with the placeholder's id gets
      the new title, the content and `completed`; its id, kind and creation
      time are kept, and every other artifact is untouched. Without such an
      artifact nothing changes. */
  function CompleteArtifact(artifacts: seq<Artifact>, placeholderId: string, kind: ArtifactKind,
                            content: Content, timeText: string): (r: seq<Artifact>)
    ensures |r| == |artifacts|
    ensures FindArtifact(artifacts, placeholderId).None? ==> r == artifacts
    ensures FindArtifact(artifacts, placeholderId).Some? ==>
      var k := FindArtifact(artifacts, placeholderId).value;
      && (forall i :: 0 <= i < |r| && i != k ==> r[i] == artifacts[i])
      && r[k].id == artifacts[k].id && r[k].kind == artifacts[k].kind
      && r[k].createdAt == artifacts[k].createdAt
      && r[k].status == Completed && r[k].content == content
      && r[k].title == CompletedTitle(kind, content, timeText)
  {
    match FindArtifact(artifacts, placeholderId)
    case None => artifacts
    case Some(k) =>
      artifacts[k := artifacts[k].(title := CompletedTitle(kind, content, timeText), content := content, status := Completed)]
  }

  /** The failure update: only the status of the first artifact with the
      placeholder's id changes, to `failed`. */
  function FailArtifact(artifacts: seq<Artifact>, placeholderId: string): (r: seq<Artifact>)
    ensures |r| == |artifacts|
    ensures FindArtifact(artifacts, placeholderId).None? ==> r == artifacts
    ensures FindArtifact(artifacts, placeholderId).Some? ==>
      var k := FindArtifact(artifacts, placeholderId).value;
      && (forall i :: 0 <= i < |r| && i != k ==> r[i] == artifacts[i])
      && r[k] == artifacts[k].(status := Failed)
  {
    match FindArtifact(artifacts, placeholderId)
    case None => artifacts
    case Some(k) => artifacts[k := artifacts[k].(status := Failed)]
  }

  /** When the placeholder is still at the front where startJob put it, the
      job's end rewrites exactly that entry and keeps the rest. */
  lemma {:induction false} FinishRewritesPlaceholder(p: Artifact, rest: seq<Artifact>, kind: ArtifactKind,
                                                     content: Content, timeText: string)
    ensures CompleteArtifact([p] + rest, p.id, kind, content, timeText)
      == [p.(title := CompletedTitle(kind, content, timeText), content := content, status := Completed)] + rest
    ensures FailArtifact([p] + rest, p.id) == [p.(status := Failed)] + rest
  {
    assert FindArtifact([p] + rest, p.id) == Some(0);
  }

  /** Neither update adds, removes or renames artifacts. */
  lemma FinishKeepsIds(artifacts: seq<Artifact>, placeholderId: string, kind: ArtifactKind,
                       content: Content, timeText: string)
    ensures var done := CompleteArtifact(artifacts, placeholderId, kind, content, timeText);
      forall i :: 0 <= i < |artifacts| ==> done[i].id == artifacts[i].id
    ensures var failed := FailArtifact(artifacts, placeholderId);
      forall i :: 0 <= i < |artifacts| ==> failed[i].id == artifacts[i].id
  {
  }

  /** `jobs.map(j => j.id === jobId ? { ...j, status } : j)`: jobs whose id
      matches get the new status, every other job is untouched. */
  function SetJobStatus(jobs: seq<BackgroundJob>, jobId: string, status: JobStatus): (r: seq<BackgroundJob>)
    ensures |r| == |jobs|
    ensures forall i :: 0 <= i < |jobs| && jobs[i].id != jobId ==> r[i] == jobs[i]
    ensures forall i :: 0 <= i < |jobs| && jobs[i].id == jobId ==> r[i] == jobs[i].(status := status)
  {
    if jobs == [] then []
    else
      var head := if jobs[0].id == jobId then jobs[0].(status := status) else jobs[0];
      [head] + SetJobStatus(jobs[1..], jobId, status)
  }

  /** A job can be updated any number of times; only the last status
      counts. */
  lemma {:induction false} SetJobStatusLastWins(jobs: seq<BackgroundJob>, jobId: string, s1: JobStatus, s2: JobStatus)
    ensures SetJobStatus(SetJobStatus(jobs, jobId, s1), jobId, s2) == SetJobStatus(jobs, jobId, s2)
  {
    var once := SetJobStatus(SetJobStatus(jobs, jobId, s1), jobId, s2);
    var direct := SetJobStatus(jobs, jobId, s2);
    assert |once| == |direct|;
    forall i | 0 <= i < |jobs| ensures once[i] == direct[i] {
      if jobs[i].id == jobId {
        assert SetJobStatus(jobs, jobId, s1)[i].id == jobId;
      }
    }
  }

  /** `notifications.filter(n => n.id !== id)`. */
  function WithoutNotification(notifications: seq<Notification>, id: string): (r: seq<Notification>)
    ensures forall i :: 0 <= i < |r| ==> r[i].id != id && r[i] in notifications
    ensures forall i :: 0 <= i < |notifications| && notifications[i].id != id ==> notifications[i] in r
    ensures forall n :: multiset(r)[n] == if n.id != id then multiset(notifications)[n] else 0
  {
    Js.FilterCounts(notifications, (n: Notification) => n.id != id);
    Js.Filter(notifications, (n: Notification) => n.id != id)
  }

  /** Dismissing works piecewise over any split of the list, so the entries
      that stay keep their relative order. */
  lemma DismissKeepsOrder(a: seq<Notification>, b: seq<Notification>, id: string)
    ensures WithoutNotification(a + b, id) == WithoutNotification(a, id) + WithoutNotification(b, id)
  {
    Js.FilterConcat(a, b, (n: Notification) => n.id != id);
  }

  /** Dismissing twice is dismissing once, and dismissing an id that is not
      present changes nothing. */
  lemma DismissIdempotent(notifications: seq<Notification>, id: string)
    ensures WithoutNotification(WithoutNotification(notifications, id), id) == WithoutNotification(notifications, id)
    ensures (forall i :: 0 <= i < |notifications| ==> notifications[i].id != id) ==>
      WithoutNotification(notifications, id) == notifications
  {
    var keep := (n: Notification) => n.id != id;
    Js.FilterIdempotent(notifications, keep);
    if forall i :: 0 <= i < |notifications| ==> notifications[i].id != id {
      Js.FilterAllKept(notifications, keep);
    }
  }

  /** Dismissing works piecewise: entries posted after a dismissal are not
      reordered relative to earlier ones. */
  lemma DismissAfterAppend(notifications: seq<Notification>, n: Notification, id: string)
    ensures WithoutNotification(notifications + [n], id)
      == WithoutNotification(notifications, id) + (if n.id != id then [n] else [])
  {
    DismissKeepsOrder(notifications, [n], id);
    assert [n][1..] == [];
    assert WithoutNotification([n], id) == (if n.id != id then [n] else []);
  }

  /** The storage write of saveNotebook after an in-place change of the
      artifacts of notebook `id`: nothing happens when the notebook is gone. */
  function UpdateArtifacts(store: map<string, Notebook>, id: string, artifacts: seq<Artifact>): map<string, Notebook>
    requires id in store
  {
    store[id := store[id].(artifacts := artifacts)]
  }

  class JobProvider {
    var jobs: seq<BackgroundJob>
    var notifications: seq<Notification>
    var store: map<string, Notebook>

    /** Every stored notebook is filed under its own id. */
    ghost predicate Valid()
      reads this
    {
      forall id :: id in store ==> store[id].id == id
    }

    constructor (saved: map<string, Notebook>)
      requires forall id :: id in saved ==> saved[id].id == id
      ensures Valid()
      ensures jobs == [] && notifications == [] && store == saved
    {
      jobs, notifications, store := [], [], saved;
    }

    /** Appends exactly one notification. */
    method AddNotification(id: string, title: string, message: string, level: NotificationLevel)
      requires Valid()
      modifies this`notifications
      ensures Valid()
      ensures notifications == old(notifications) + [Notification(id, title, message, level)]
    {
      notifications := notifications + [Notification(id, title, message, level)];
    }

    /** Removes every notification with the id and keeps the others in order. */
    method DismissNotification(id: string)
      requires Valid()
      modifies this`notifications
      ensures Valid()
      ensures notifications == WithoutNotification(old(notifications), id)
    {
      notifications := WithoutNotification(notifications, id);
    }

    /** The synchronous part of startJob: the placeholder goes to the front
        of the notebook's artifacts when the notebook exists, and one
        `processing` job is appended in any case. */
    method StartJob(notebookId: string, kind: ArtifactKind, jobId: string, placeholderId: string, now: int)
      requires Valid()
      modifies this`store, this`jobs
      ensures Valid()
      ensures notebookId in old(store) ==>
        store == UpdateArtifacts(old(store), notebookId,
                                 [Placeholder(placeholderId, kind, now)] + old(store)[notebookId].artifacts)
      ensures notebookId !in old(store) ==> store == old(store)
      ensures jobs == old(jobs) + [BackgroundJob(jobId, notebookId, kind, Processing)]
    {
      if notebookId in store {
        var notebook := store[notebookId];
        notebook := notebook.(artifacts := [Placeholder(placeholderId, kind, now)] + notebook.artifacts);
        store := store[notebook.id := notebook];
      }
      jobs := jobs + [BackgroundJob(jobId, notebookId, kind, Processing)];
    }

    /** The deferred part of startJob, once the generation has returned or
        thrown: the placeholder is completed or failed in storage (when the
        notebook and the placeholder are still there), the job gets the
        matching status, and one notification is posted. */
    method FinishJob(notebookId: string, kind: ArtifactKind, jobId: string, placeholderId: string,
                     outcome: Generation, timeText: string, notificationId: string)
      requires Valid()
      modifies this
      ensures Valid()
      ensures Succeeds(kind, outcome) ==>
        && store == (if notebookId in old(store)
                     then UpdateArtifacts(old(store), notebookId,
                            CompleteArtifact(old(store)[notebookId].artifacts, placeholderId, kind,
                                             outcome.content, timeText))
                     else old(store))
        && jobs == SetJobStatus(old(jobs), jobId, JobCompleted)
        && notifications == old(notifications) + [Notification(notificationId, "Generation Complete",
                              "Your " + KindName(kind) + " is ready to view.", Success)]
      ensures !Succeeds(kind, outcome) ==>
        && store == (if notebookId in old(store)
                     then UpdateArtifacts(old(store), notebookId,
                            FailArtifact(old(store)[notebookId].artifacts, placeholderId))
                     else old(store))
        && jobs == SetJobStatus(old(jobs), jobId, JobFailed)
        && notifications == old(notifications) + [Notification(notificationId, "Generation Failed",
                              "Something went wrong. Please try again.", Error)]
    {
      if Succeeds(kind, outcome) {
        if notebookId in store {
          var notebook := store[notebookId];
          if FindArtifact(notebook.artifacts, placeholderId).Some? {
            notebook := notebook.(artifacts := CompleteArtifact(notebook.artifacts, placeholderId, kind,
                                                                outcome.content, timeText));
            store := store[notebookId := notebook];
          }
        }
        jobs := SetJobStatus(jobs, jobId, JobCompleted);
        AddNotification(notificationId, "Generation Complete", "Your " + KindName(kind) + " is ready to view.", Success);
      } else {
        if notebookId in store {
          var notebook := store[notebookId];
          if FindArtifact(notebook.artifacts, placeholderId).Some? {
            notebook := notebook.(artifacts := FailArtifact(notebook.artifacts, placeholderId));
            store := store[notebookId := notebook];
          }
        }
        jobs := SetJobStatus(jobs, jobId, JobFailed);
        AddNotification(notificationId, "Generation Failed", "Something went wrong. Please try again.", Error);
      }
    }
  }
}

/** The notebook list page of App.tsx. */
module Dashboard {
  import opened Types
  import Js

  /** handleCreate: the title handed to createNotebook, untrimmed, or None
      when it is empty or only whitespace. */
  function HandleCreate(newTitle: string): (created: Option<string>)
    ensures created.None? <==> Js.AllSpace(newTitle)
    ensures created.Some? ==> created.value == newTitle
  {
    Js.BlankIffAllSpace(newTitle);
    if Js.IsBlank(newTitle) then None else Some(newTitle)
  }
}
