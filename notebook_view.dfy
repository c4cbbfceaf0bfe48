/** The notebook page's own updates: adding and deleting sources and
    renaming the notebook. Each builds a new notebook record stamped with
    the current time (a parameter) and hands it to onUpdate; here the
    functions return that record. */
module NotebookView {
  import opened Types
  import Js

  /** The fields an update must leave alone. */
  predicate SameIdentity(a: Notebook, b: Notebook) {
    a.id == b.id && a.artifacts == b.artifacts && a.createdAt == b.createdAt
  }

  /** addSource: the source goes to the end; earlier sources and everything
      but `updatedAt` stay. */
  function AddSource(notebook: Notebook, source: Source, now: int): (updated: Notebook)
    ensures SameIdentity(updated, notebook) && updated.title == notebook.title
    ensures |updated.sources| == |notebook.sources| + 1
    ensures updated.sources[..|notebook.sources|] == notebook.sources
    ensures updated.sources[|notebook.sources|] == source
    ensures updated.updatedAt == now
  {
    notebook.(sources := notebook.sources + [source], updatedAt := now)
  }

  function WithoutSource(sources: seq<Source>, sourceId: string): seq<Source> {
    Js.Filter(sources, (s: Source) => s.id != sourceId)
  }

  /** deleteSource: every source with the id goes; the others stay, in
      order. */
  function DeleteSource(notebook: Notebook, sourceId: string, now: int): (updated: Notebook)
    ensures SameIdentity(updated, notebook) && updated.title == notebook.title
    ensures forall i :: 0 <= i < |updated.sources| ==>
      updated.sources[i].id != sourceId && updated.sources[i] in notebook.sources
    ensures forall i :: 0 <= i < |notebook.sources| && notebook.sources[i].id != sourceId ==>
      notebook.sources[i] in updated.sources
    ensures forall s :: multiset(updated.sources)[s] == if s.id != sourceId then multiset(notebook.sources)[s] else 0
    ensures updated.updatedAt == now
  {
    Js.FilterCounts(notebook.sources, (s: Source) => s.id != sourceId);
    notebook.(sources := WithoutSource(notebook.sources, sourceId), updatedAt := now)
  }

  /** Deleting works piecewise over any split of the sources, so the sources
      that stay keep their relative order. */
  lemma DeleteKeepsOrder(notebook: Notebook, front: seq<Source>, back: seq<Source>, sourceId: string, now: int)
    requires notebook.sources == front + back
    ensures DeleteSource(notebook, sourceId, now).sources
      == WithoutSource(front, sourceId) + WithoutSource(back, sourceId)
  {
    Js.FilterConcat(front, back, (s: Source) => s.id != sourceId);
  }

  /** Deleting a source just added, under an id no other source has, gives
      back the original sources. */
  lemma DeleteUndoesAdd(notebook: Notebook, source: Source, t1: int, t2: int)
    requires forall i :: 0 <= i < |notebook.sources| ==> notebook.sources[i].id != source.id
    ensures DeleteSource(AddSource(notebook, source, t1), source.id, t2).sources == notebook.sources
  {
    var keep := (s: Source) => s.id != source.id;
    Js.FilterConcat(notebook.sources, [source], keep);
    Js.FilterAllKept(notebook.sources, keep);
    assert Js.Filter([source], keep) == [] + Js.Filter([source][1..], keep);
  }

  /** Deleting the same id twice is deleting it once. */
  lemma DeleteIdempotent(notebook: Notebook, sourceId: string, t1: int, t2: int)
    ensures DeleteSource(DeleteSource(notebook, sourceId, t1), sourceId, t2).sources
      == DeleteSource(notebook, sourceId, t1).sources
  {
    Js.FilterIdempotent(notebook.sources, (s: Source) => s.id != sourceId);
  }

  /** What saveTitle does: the record handed to onUpdate, if any, and the
      editing flag afterwards. */
  datatype TitleSave = TitleSave(update: Option<Notebook>, editing: bool)

  /** saveTitle: an update happens exactly when the edited title has some
      visible character and differs from the current one; the title is
      stored as typed, untrimmed. Editing ends either way. */
  function SaveTitle(notebook: Notebook, editedTitle: string, now: int): (r: TitleSave)
    ensures !r.editing
    ensures r.update.Some? <==> !Js.AllSpace(editedTitle) && editedTitle != notebook.title
    ensures r.update.Some? ==>
      && SameIdentity(r.update.value, notebook) && r.update.value.sources == notebook.sources
      && r.update.value.title == editedTitle && r.update.value.updatedAt == now
  {
    Js.BlankIffAllSpace(editedTitle);
    if !Js.IsBlank(editedTitle) && editedTitle != notebook.title then
      TitleSave(Some(notebook.(title := editedTitle, updatedAt := now)), false)
    else
      TitleSave(None, false)
  }

  /** Saving the title just saved again makes no further update. */
  lemma SaveTitleSettles(notebook: Notebook, editedTitle: string, t1: int, t2: int)
    requires SaveTitle(notebook, editedTitle, t1).update.Some?
    ensures SaveTitle(SaveTitle(notebook, editedTitle, t1).update.value, editedTitle, t2).update.None?
  {
  }
}
