/** The "add source" modal of the sources tab: which kind of source is being
    added, the text box, the title box, the chosen file, and the processing
    and error state. Adding a source validates the input, defaults the
    title, gathers the content and hands one new source to onAddSource.

    The remote steps are parameters: the cleaned page text or a failed
    fetch, the title the oEmbed service reported (if any), and the model's
    reply for an uploaded file or the error it threw; so are the new
    source's id, the clock and the rendered time of day. */
module SourcesTab {
  import opened Types
  import Js
  import Ai

  datatype ModalKind = TextModal | WebsiteModal | YoutubeModal | FileModal

  datatype FileKind = PdfFile | AudioFile | ImageFile

  function SourceKindOf(f: FileKind): SourceKind {
    match f
    case PdfFile => Pdf
    case AudioFile => Audio
    case ImageFile => Image
  }

  datatype SelectedFile = SelectedFile(name: string, mimeType: string, size: nat)

  /** The modal's inputs when "Add Source" is pressed. */
  datatype Form = Form(
    modal: Option<ModalKind>,
    fileType: Option<FileKind>,
    input: string,
    title: string,
    file: Option<SelectedFile>)

  /** What the remote steps returned: the page's visible text (None when the
      fetch failed), the oEmbed title, and the file reply or the message of
      the error it threw. */
  datatype Replies = Replies(
    pageText: Option<string>,
    oembedTitle: Option<string>,
    fileReply: Result<Option<string>>)

  const InvalidUrl: string := "Invalid URL"
  const InvalidYoutubeUrl: string := "Invalid YouTube URL"
  const NoContent: string := "No content could be extracted."
  const FetchFailed: string := "Could not fetch website content. It might be blocked or require a login."
  const FallbackError: string := "Failed to add source."

  const YoutubeHeader: string := "[YouTube Video Source]\nURL: "
  const YoutubeNote: string :=
    "\n\n(Note: Video transcript ingestion requires backend API. Treat this source as context for the video's existence.)"

  /** The placeholder content of a YouTube source: the link and the title. */
  function YoutubeContent(url: string, title: string): string {
    YoutubeHeader + url + "\nTitle: " + title + YoutubeNote
  }

  /** The user's title, or `fallback` when the title box is empty (a title
      of spaces is kept). */
  function TitleOr(title: string, fallback: string): string {
    if title == "" then fallback else title
  }

  /** The last step of handleAddSource's try block: no content is an
      error, otherwise the source is complete. */
  function Built(id: string, kind: SourceKind, title: string, content: string, now: int, metadata: Metadata)
    : Result<Source>
  {
    if content == "" then Fail(NoContent) else Ok(Source(id, kind, title, content, now, metadata))
  }

  /** The source handleAddSource builds, or the message of the error it
      throws. */
  function Intake(form: Form, replies: Replies, id: string, now: int, timeText: string): (r: Result<Source>)
    ensures form.modal == Some(WebsiteModal) && !Js.StartsWith(form.input, "http") ==> r == Fail(InvalidUrl)
    ensures form.modal == Some(YoutubeModal)
              && !Js.Includes(form.input, "youtube.com") && !Js.Includes(form.input, "youtu.be")
            ==> r == Fail(InvalidYoutubeUrl)
    ensures form.modal.None? || (form.modal == Some(FileModal) && (form.file.None? || form.fileType.None?))
            ==> r == Fail(NoContent)
    ensures form.modal == Some(TextModal) && form.input == "" ==> r == Fail(NoContent)
    ensures form.modal == Some(WebsiteModal) && Js.StartsWith(form.input, "http") && replies.pageText.None?
            ==> r == Fail(FetchFailed)
    ensures form.modal == Some(WebsiteModal) && Js.StartsWith(form.input, "http") && replies.pageText.Some?
            && Ai.CleanWebsiteText(replies.pageText.value) == ""
            ==> r == Fail(NoContent)
    ensures form.modal == Some(FileModal) && form.file.Some? && form.fileType.Some? && replies.fileReply.Fail?
            ==> r == Fail(replies.fileReply.message)
    ensures form.modal == Some(FileModal) && form.file.Some? && form.fileType.Some? && replies.fileReply.Ok?
            ==> r.Ok?
    ensures r.Ok? ==> r.value.content != "" && r.value.id == id && r.value.createdAt == now
    ensures r.Ok? && form.modal == Some(TextModal) ==>
      r.value.title == TitleOr(form.title, "Pasted Text " + timeText) && r.value.content == form.input
      && r.value.kind == CopiedText && r.value.metadata == NoMetadata
    ensures r.Ok? && form.modal == Some(WebsiteModal) ==>
      r.value.title == TitleOr(form.title, form.input) && r.value.metadata == OriginalUrl(form.input)
      && r.value.kind == Website
      && replies.pageText.Some? && r.value.content == Ai.CleanWebsiteText(replies.pageText.value)
    ensures r.Ok? && form.modal == Some(YoutubeModal) ==>
      r.value.title == (if Ai.Present(replies.oembedTitle) then replies.oembedTitle.value
                        else TitleOr(form.title, "YouTube Video"))
      && r.value.content == YoutubeContent(form.input, r.value.title)
      && r.value.kind == Youtube && r.value.metadata == OriginalUrl(form.input)
    ensures r.Ok? && form.modal == Some(FileModal) ==>
      r.value.title == TitleOr(form.title, form.file.value.name)
      && replies.fileReply.Ok? && r.value.content == Ai.ExtractedText(replies.fileReply.value)
      && r.value.kind == SourceKindOf(form.fileType.value)
      && r.value.metadata == FileInfo(form.file.value.name, form.file.value.size)
  {
    match form.modal
    case None => Fail(NoContent)
    case Some(TextModal) =>
      Built(id, CopiedText, TitleOr(form.title, "Pasted Text " + timeText), form.input, now, NoMetadata)
    case Some(WebsiteModal) =>
      if !Js.StartsWith(form.input, "http") then Fail(InvalidUrl)
      else if replies.pageText.None? then Fail(FetchFailed)
      else
        Built(id, Website, TitleOr(form.title, form.input), Ai.CleanWebsiteText(replies.pageText.value), now,
              OriginalUrl(form.input))
    case Some(YoutubeModal) =>
      if !Js.Includes(form.input, "youtube.com") && !Js.Includes(form.input, "youtu.be") then Fail(InvalidYoutubeUrl)
      else
        var title := if Ai.Present(replies.oembedTitle) then replies.oembedTitle.value
                     else TitleOr(form.title, "YouTube Video");
        Built(id, Youtube, title, YoutubeContent(form.input, title), now, OriginalUrl(form.input))
    case Some(FileModal) =>
      if form.file.None? || form.fileType.None? then Fail(NoContent)
      else if replies.fileReply.Fail? then Fail(replies.fileReply.message)
      else
        var file := form.file.value;
        Built(id, SourceKindOf(form.fileType.value), TitleOr(form.title, file.name),
              Ai.ExtractedText(replies.fileReply.value), now, FileInfo(file.name, file.size))
  }

  /** `err.message || "Failed to add source."`. */
  function ErrorText(message: string): (shown: string)
    ensures shown != ""
    ensures message != "" ==> shown == message
  {
    if message == "" then FallbackError else message
  }

  /** Every failure of a form that passed validation and had content comes
      from a remote step: a website whose fetch worked and yielded text, or
      a YouTube link that passed the check, always becomes a source. */
  lemma ValidInputsBecomeSources(form: Form, replies: Replies, id: string, now: int, timeText: string)
    ensures form.modal == Some(YoutubeModal) && Js.Includes(form.input, "youtube.com") ==>
      Intake(form, replies, id, now, timeText).Ok?
    ensures form.modal == Some(WebsiteModal) && Js.StartsWith(form.input, "http")
            && replies.pageText.Some? && Ai.CleanWebsiteText(replies.pageText.value) != "" ==>
      Intake(form, replies, id, now, timeText).Ok?
    ensures form.modal == Some(TextModal) && form.input != "" ==>
      Intake(form, replies, id, now, timeText).Ok?
  {
  }

  /** The body of handleAddSource's try block: the content, the title, the
      source type and the metadata are worked out step by step, and the
      first error thrown ends it. */
  method BuildSource(form: Form, replies: Replies, id: string, now: int, timeText: string)
    returns (r: Result<Source>)
    ensures r == Intake(form, replies, id, now, timeText)
  {
    var content := "";
    var finalTitle := form.title;
    var kind := CopiedText;
    var metadata := NoMetadata;
    ghost var expected := Intake(form, replies, id, now, timeText);

    if form.modal == Some(TextModal) {
      content := form.input;
      kind := CopiedText;
      if finalTitle == "" {
        finalTitle := "Pasted Text " + timeText;
      }
      assert expected == Built(id, kind, finalTitle, content, now, metadata);
    } else if form.modal == Some(WebsiteModal) {
      if !Js.StartsWith(form.input, "http") {
        return Fail(InvalidUrl);
      }
      if replies.pageText.None? {
        assert expected == Fail(FetchFailed);
        return Fail(FetchFailed);
      }
      content := Ai.CleanWebsiteText(replies.pageText.value);
      kind := Website;
      if finalTitle == "" {
        finalTitle := form.input;
      }
      metadata := OriginalUrl(form.input);
      assert expected == Built(id, kind, finalTitle, content, now, metadata);
    } else if form.modal == Some(YoutubeModal) {
      if !Js.Includes(form.input, "youtube.com") && !Js.Includes(form.input, "youtu.be") {
        return Fail(InvalidYoutubeUrl);
      }
      if Ai.Present(replies.oembedTitle) {
        finalTitle := replies.oembedTitle.value;
      }
      if finalTitle == "" {
        finalTitle := "YouTube Video";
      }
      assert finalTitle == (if Ai.Present(replies.oembedTitle) then replies.oembedTitle.value
                            else TitleOr(form.title, "YouTube Video"));
      content := YoutubeContent(form.input, finalTitle);
      kind := Youtube;
      metadata := OriginalUrl(form.input);
      assert expected == Built(id, kind, finalTitle, content, now, metadata);
    } else if form.modal == Some(FileModal) && form.file.Some? && form.fileType.Some? {
      if finalTitle == "" {
        finalTitle := form.file.value.name;
      }
      if replies.fileReply.Fail? {
        assert expected == Fail(replies.fileReply.message);
        return Fail(replies.fileReply.message);
      }
      content := Ai.ExtractedText(replies.fileReply.value);
      kind := SourceKindOf(form.fileType.value);
      metadata := FileInfo(form.file.value.name, form.file.value.size);
      assert expected == Built(id, kind, finalTitle, content, now, metadata);
    } else {
      assert expected == Fail(NoContent);
    }

    if content == "" {
      return Fail(NoContent);
    }
    r := Ok(Source(id, kind, finalTitle, content, now, metadata));
  }

  class SourceModal {
    var activeModal: Option<ModalKind>
    var fileType: Option<FileKind>
    var inputValue: string
    var titleValue: string
    var selectedFile: Option<SelectedFile>
    var isProcessing: bool
    var error: Option<string>
    // Every source handed to onAddSource, in order.
    var added: seq<Source>

    /** The "Add Source" button is enabled. */
    predicate AddEnabled()
      reads this
    {
      !isProcessing && (inputValue != "" || selectedFile.Some?)
    }

    predicate IsReset()
      reads this
    {
      && activeModal.None? && fileType.None? && inputValue == "" && titleValue == ""
      && selectedFile.None? && error.None? && !isProcessing
    }

    constructor ()
      ensures IsReset() && added == []
    {
      activeModal, fileType := None, None;
      inputValue, titleValue := "", "";
      selectedFile := None;
      isProcessing := false;
      error := None;
      added := [];
    }

    /** The buttons that open the modal: a file button also fixes the file
        type. */
    method Open(kind: ModalKind, fileKind: Option<FileKind>)
      modifies this`activeModal, this`fileType
      ensures activeModal == Some(kind)
      ensures fileType == (if kind == FileModal then fileKind else old(fileType))
    {
      activeModal := Some(kind);
      if kind == FileModal {
        fileType := fileKind;
      }
    }

    /** resetModal: every field back to its initial value, so the add
        button is disabled until something is typed or chosen. */
    method ResetModal()
      modifies this`activeModal, this`fileType, this`inputValue, this`titleValue,
               this`selectedFile, this`error, this`isProcessing
      ensures IsReset() && !AddEnabled()
    {
      activeModal := None;
      fileType := None;
      inputValue := "";
      titleValue := "";
      selectedFile := None;
      error := None;
      isProcessing := false;
    }

    /** handleFileSelect: the chosen file is kept, and its name becomes the
        title only when the title box is empty. */
    method HandleFileSelect(file: Option<SelectedFile>)
      modifies this`selectedFile, this`titleValue
      ensures file.None? ==> selectedFile == old(selectedFile) && titleValue == old(titleValue)
      ensures file.Some? ==> selectedFile == file && titleValue == TitleOr(old(titleValue), file.value.name)
      ensures file.Some? && !isProcessing ==> AddEnabled()
    {
      if file.Some? {
        selectedFile := file;
        if titleValue == "" {
          titleValue := file.value.name;
        }
      }
    }

    /** handleAddSource: on success the new source goes to onAddSource once
        and the modal is reset; on failure the error message is shown, the
        form is kept, and processing ends. */
    method HandleAddSource(replies: Replies, id: string, now: int, timeText: string)
      modifies this
      ensures var r := Intake(Form(old(activeModal), old(fileType), old(inputValue), old(titleValue),
                                   old(selectedFile)), replies, id, now, timeText);
        && (r.Ok? ==> added == old(added) + [r.value] && IsReset())
        && (r.Fail? ==>
              && added == old(added) && error == Some(ErrorText(r.message)) && !isProcessing
              && activeModal == old(activeModal) && fileType == old(fileType)
              && inputValue == old(inputValue) && titleValue == old(titleValue)
              && selectedFile == old(selectedFile))
    {
      error := None;
      isProcessing := true;
      var outcome := BuildSource(Form(activeModal, fileType, inputValue, titleValue, selectedFile),
                                 replies, id, now, timeText);
      if outcome.Fail? {
        error := Some(ErrorText(outcome.message));
      } else {
        added := added + [outcome.value];
        ResetModal();
      }
      isProcessing := false;
    }
  }
}
