/** The local logic of the generation service: how sources become a prompt
    context, how fetched website text is cleaned, how a data URL yields its
    base64 payload, which prompt a file gets, how long a podcast should be,
    which updates a chat answer emits, and when a generation throws or
    yields nothing. The remote model calls themselves are not modelled:
    their replies arrive as parameters. */
module Ai {
  import opened Types
  import Js

  /** JavaScript truthiness of an optional string: present and non-empty. */
  predicate Present(o: Option<string>) {
    o.Some? && o.value != ""
  }

  // -----------------------------------------------------------------------
  // formatContext
  // -----------------------------------------------------------------------

  function SourceBlock(s: Source): string {
    "SOURCE: " + s.title + "\nCONTENT:\n" + s.content + "\n---"
  }

  function Blocks(sources: seq<Source>): (blocks: seq<string>)
    ensures |blocks| == |sources|
    ensures forall i :: 0 <= i < |sources| ==> blocks[i] == SourceBlock(sources[i])
  {
    if sources == [] then [] else [SourceBlock(sources[0])] + Blocks(sources[1..])
  }

  /** The context handed to the model: one block per source, in order,
      separated by newlines; no sources give the empty string. */
  function FormatContext(sources: seq<Source>): (context: string)
    ensures context == "" <==> sources == []
    ensures sources != [] ==> Js.StartsWith(context, SourceBlock(sources[0]))
  {
    var blocks := Blocks(sources);
    assert |blocks| > 1 ==> Js.Join(blocks, "\n") == blocks[0] + "\n" + Js.Join(blocks[1..], "\n");
    Js.Join(blocks, "\n")
  }

  /** The context of two lists of sources is their contexts joined by a
      newline, so every source appears once and in its place. */
  lemma FormatContextConcat(a: seq<Source>, b: seq<Source>)
    requires a != [] && b != []
    ensures FormatContext(a + b) == FormatContext(a) + "\n" + FormatContext(b)
  {
    assert Blocks(a + b) == Blocks(a) + Blocks(b);
    Js.JoinConcat(Blocks(a), Blocks(b), "\n");
  }

  /** A single source renders as its own block. */
  lemma FormatContextSingle(s: Source)
    ensures FormatContext([s]) == "SOURCE: " + s.title + "\nCONTENT:\n" + s.content + "\n---"
  {
  }

  // -----------------------------------------------------------------------
  // fetchWebsiteContent: text.replace(/\s+/g, ' ').trim().substring(0, 50000)
  // -----------------------------------------------------------------------

  const WebsiteTextLimit: nat := 50000

  /** No two whitespace characters stand next to each other. */
  predicate NoAdjacentSpaces(s: string) {
    forall i :: 0 <= i < |s| - 1 ==> !(Js.IsSpace(s[i]) && Js.IsSpace(s[i + 1]))
  }

  /** The only whitespace left is the plain space. */
  predicate OnlyPlainSpaces(s: string) {
    forall i :: 0 <= i < |s| && Js.IsSpace(s[i]) ==> s[i] == ' '
  }

  predicate NotSpace(c: char) {
    !Js.IsSpace(c)
  }

  /** The visible characters of a string, whitespace removed. */
  function Visible(s: string): string {
    Js.Filter(s, NotSpace)
  }

  /** `replace(/\s+/g, ' ')`: every maximal run of whitespace becomes one
      space. */
  function CollapseWhitespace(s: string): (r: string)
    ensures (r == []) <==> (s == [])
    ensures s != [] ==> if Js.IsSpace(s[0]) then r[0] == ' ' else r[0] == s[0]
    ensures NoAdjacentSpaces(r) && OnlyPlainSpaces(r)
    decreases |s|
  {
    if s == [] then []
    else if Js.IsSpace(s[0]) then
      var rest := Js.TrimStart(s);
      assert |rest| < |s|;
      [' '] + CollapseWhitespace(rest)
    else
      [s[0]] + CollapseWhitespace(s[1..])
  }

  /** Collapsing whitespace keeps every visible character, in order. */
  lemma {:induction false} CollapseKeepsVisible(s: string)
    ensures Visible(CollapseWhitespace(s)) == Visible(s)
    decreases |s|
  {
    if s != [] {
      if Js.IsSpace(s[0]) {
        var rest := Js.TrimStart(s);
        var cut := |s| - |rest|;
        assert s == s[..cut] + rest;
        Js.FilterConcat(s[..cut], rest, NotSpace);
        Js.FilterNoneKept(s[..cut], NotSpace);
        CollapseKeepsVisible(rest);
        Js.FilterConcat([' '], CollapseWhitespace(rest), NotSpace);
      } else {
        assert s == [s[0]] + s[1..];
        Js.FilterConcat([s[0]], s[1..], NotSpace);
        CollapseKeepsVisible(s[1..]);
        Js.FilterConcat([s[0]], CollapseWhitespace(s[1..]), NotSpace);
      }
    }
  }

  /** Text already collapsed comes back unchanged, so collapsing twice is
      collapsing once. */
  lemma {:induction false} CollapseFixed(s: string)
    requires NoAdjacentSpaces(s) && OnlyPlainSpaces(s)
    ensures CollapseWhitespace(s) == s
    decreases |s|
  {
    if s != [] {
      var tail := s[1..];
      assert NoAdjacentSpaces(tail) && OnlyPlainSpaces(tail) by {
        forall i | 0 <= i < |tail| - 1 ensures !(Js.IsSpace(tail[i]) && Js.IsSpace(tail[i + 1])) {
          assert tail[i] == s[i + 1] && tail[i + 1] == s[i + 2];
        }
      }
      CollapseFixed(tail);
      if Js.IsSpace(s[0]) {
        assert tail == [] || !Js.IsSpace(tail[0]);
        assert Js.TrimStart(s) == Js.TrimStart(tail) == tail;
      }
    }
  }

  lemma CollapseIdempotent(s: string)
    ensures CollapseWhitespace(CollapseWhitespace(s)) == CollapseWhitespace(s)
  {
    CollapseFixed(CollapseWhitespace(s));
  }

  /** Two spaces between two words become one: "a  b" collapses to "a b". */
  lemma CollapseTwoWords()
    ensures CollapseWhitespace("a  b") == "a b"
  {
    assert "a  b" == "a" + "  " + "b";
    CollapseRun("a", "  ", "b");
    assert CollapseWhitespace("a") == "a" && CollapseWhitespace("b") == "b";
  }

  /** A run of whitespace between two visible characters (or an end of the
      text) becomes exactly one space: words are neither glued together nor
      kept apart by more than one space. */
  lemma {:induction false} CollapseRun(x: string, w: string, y: string)
    requires w != [] && Js.AllSpace(w)
    requires x == [] || !Js.IsSpace(x[|x| - 1])
    requires y == [] || !Js.IsSpace(y[0])
    ensures CollapseWhitespace(x + w + y) == CollapseWhitespace(x) + " " + CollapseWhitespace(y)
    decreases |x|
  {
    if x == [] {
      CollapseLeadingRun(x, w, y);
    } else if Js.IsSpace(x[0]) {
      Js.TrimStartKeepsLast(x);
      CollapseRun(Js.TrimStart(x), w, y);
      CollapseRunAfterSpace(x, w, y);
    } else {
      assert x[1..] == [] || x[1..][|x[1..]| - 1] == x[|x| - 1];
      CollapseRun(x[1..], w, y);
      CollapseRunAfterVisible(x, w, y);
    }
  }

  /** The inductive step of CollapseRun when x starts with whitespace. */
  lemma CollapseRunAfterSpace(x: string, w: string, y: string)
    requires x != [] && Js.IsSpace(x[0]) && Js.TrimStart(x) != []
    requires CollapseWhitespace(Js.TrimStart(x) + w + y)
      == CollapseWhitespace(Js.TrimStart(x)) + " " + CollapseWhitespace(y)
    ensures CollapseWhitespace(x + w + y) == CollapseWhitespace(x) + " " + CollapseWhitespace(y)
  {
    var rest := Js.TrimStart(x);
    CollapseSpaceStep(x, w + y);
    Assoc(x, w, y);
    Assoc(rest, w, y);
    var a, b := CollapseWhitespace(rest), CollapseWhitespace(y);
    Regroup([' '], a, " ", b);
  }

  /** The inductive step of CollapseRun when x starts with a visible character. */
  lemma CollapseRunAfterVisible(x: string, w: string, y: string)
    requires x != [] && !Js.IsSpace(x[0])
    requires CollapseWhitespace(x[1..] + w + y) == CollapseWhitespace(x[1..]) + " " + CollapseWhitespace(y)
    ensures CollapseWhitespace(x + w + y) == CollapseWhitespace(x) + " " + CollapseWhitespace(y)
  {
    CollapseVisibleStep(x, w + y);
    Assoc(x, w, y);
    Assoc(x[1..], w, y);
    var a, b := CollapseWhitespace(x[1..]), CollapseWhitespace(y);
    Regroup([x[0]], a, " ", b);
  }

  /** Leading whitespace before visible text becomes one space. */
  lemma CollapseLeadingRun(x: string, w: string, y: string)
    requires x == [] && w != [] && Js.AllSpace(w)
    requires y == [] || !Js.IsSpace(y[0])
    ensures CollapseWhitespace(x + w + y) == CollapseWhitespace(x) + " " + CollapseWhitespace(y)
  {
    var s := w + y;
    assert x + w + y == s;
    assert Js.IsSpace(s[0]) by { assert s[0] == w[0]; }
    Js.TrimStartAfterSpace(w, y);
    assert Js.TrimStart(s) == y;
    var b := CollapseWhitespace(y);
    assert CollapseWhitespace(s) == [' '] + b;
    assert CollapseWhitespace(x) == [];
    assert [] + " " + b == [' '] + b;
  }

  /** A leading run of x collapses the same way whatever follows x. */
  lemma CollapseSpaceStep(x: string, more: string)
    requires x != [] && Js.IsSpace(x[0]) && Js.TrimStart(x) != []
    ensures CollapseWhitespace(x + more) == [' '] + CollapseWhitespace(Js.TrimStart(x) + more)
    ensures CollapseWhitespace(x) == [' '] + CollapseWhitespace(Js.TrimStart(x))
  {
    assert (x + more)[0] == x[0];
    Js.TrimStartConcat(x, more);
  }

  /** A leading visible character of x is kept whatever follows x. */
  lemma CollapseVisibleStep(x: string, more: string)
    requires x != [] && !Js.IsSpace(x[0])
    ensures CollapseWhitespace(x + more) == [x[0]] + CollapseWhitespace(x[1..] + more)
    ensures CollapseWhitespace(x) == [x[0]] + CollapseWhitespace(x[1..])
  {
    assert (x + more)[0] == x[0] && (x + more)[1..] == x[1..] + more;
  }

  lemma Assoc<T>(a: seq<T>, b: seq<T>, c: seq<T>)
    ensures a + (b + c) == a + b + c
  {
  }

  lemma Regroup<T>(head: seq<T>, a: seq<T>, m: seq<T>, b: seq<T>)
    ensures head + (a + m + b) == (head + a) + m + b
  {
  }

  /** `substring(0, n)`. */
  function Prefix(s: string, n: nat): (r: string)
    ensures |r| <= n && |r| <= |s| && r == s[..|r|]
    ensures |s| <= n ==> r == s
    ensures |s| > n ==> |r| == n
  {
    if |s| <= n then s else s[..n]
  }

  /** The collapsed and trimmed text, before the length cut. */
  function Tidy(text: string): string {
    Js.Trim(CollapseWhitespace(text))
  }

  /** The text the website fetch returns. */
  function CleanWebsiteText(text: string): (r: string)
    ensures |r| <= WebsiteTextLimit
    ensures |r| <= |Tidy(text)| && r == Tidy(text)[..|r|]
    ensures |Tidy(text)| <= WebsiteTextLimit ==> r == Tidy(text)
    ensures |Tidy(text)| > WebsiteTextLimit ==> |r| == WebsiteTextLimit
    ensures r == [] || !Js.IsSpace(r[0])
    ensures NoAdjacentSpaces(r) && OnlyPlainSpaces(r)
  {
    var tidy := Tidy(text);
    TidyShape(text);
    var r := Prefix(tidy, WebsiteTextLimit);
    SliceKeepsShape(tidy, 0, |r|);
    assert r == [] || r[0] == tidy[0];
    r
  }

  /** Trimming collapsed text keeps it collapsed. */
  lemma TidyShape(text: string)
    ensures NoAdjacentSpaces(Tidy(text)) && OnlyPlainSpaces(Tidy(text))
  {
    var collapsed := CollapseWhitespace(text);
    var lo, hi := Js.TrimSlice(collapsed);
    SliceKeepsShape(collapsed, lo, hi);
  }

  /** Any slice of collapsed text is collapsed. */
  lemma SliceKeepsShape(x: string, lo: nat, hi: nat)
    requires lo <= hi <= |x| && NoAdjacentSpaces(x) && OnlyPlainSpaces(x)
    ensures NoAdjacentSpaces(x[lo..hi]) && OnlyPlainSpaces(x[lo..hi])
  {
    var y := x[lo..hi];
    forall i | 0 <= i < |y| - 1 ensures !(Js.IsSpace(y[i]) && Js.IsSpace(y[i + 1])) {
      assert y[i] == x[lo + i] && y[i + 1] == x[lo + i + 1];
    }
    forall i | 0 <= i < |y| && Js.IsSpace(y[i]) ensures y[i] == ' ' {
      assert y[i] == x[lo + i];
    }
  }

  /** Cutting whitespace off both ends keeps every visible character. */
  lemma VisibleOfSlice(x: string, lo: nat, hi: nat)
    requires lo <= hi <= |x| && Js.AllSpace(x[..lo]) && Js.AllSpace(x[hi..])
    ensures Visible(x[lo..hi]) == Visible(x)
  {
    var left, mid, right := x[..lo], x[lo..hi], x[hi..];
    assert x == left + mid + right;
    Js.FilterNoneKept(left, NotSpace);
    Js.FilterNoneKept(right, NotSpace);
    Js.FilterConcat(left + mid, right, NotSpace);
    Js.FilterConcat(left, mid, NotSpace);
    assert Visible(left) == [] && Visible(right) == [];
    calc {
      Visible(x);
      Visible(left + mid) + Visible(right);
      Visible(left) + Visible(mid) + Visible(right);
      Visible(mid);
    }
  }

  /** Collapsing and trimming keep every visible character, in order. */
  lemma TidyKeepsVisible(text: string)
    ensures Visible(Tidy(text)) == Visible(text)
  {
    var collapsed := CollapseWhitespace(text);
    var lo, hi := Js.TrimSlice(collapsed);
    VisibleOfSlice(collapsed, lo, hi);
    CollapseKeepsVisible(text);
  }

  /** Cleaning never reorders or invents visible characters: what it keeps
      is a prefix of the visible text of the page, and all of it when the
      tidied text fits the limit. */
  lemma CleanKeepsVisiblePrefix(text: string)
    ensures var kept := Visible(CleanWebsiteText(text));
      |kept| <= |Visible(text)| && Visible(text)[..|kept|] == kept
    ensures |Tidy(text)| <= WebsiteTextLimit ==> Visible(CleanWebsiteText(text)) == Visible(text)
  {
    TidyKeepsVisible(text);
    var tidy := Tidy(text);
    var r := CleanWebsiteText(text);
    Js.FilterOfPrefix(tidy, |r|, NotSpace);
  }

  /** The cut can leave a trailing space: 49999 visible characters followed
      by " b" clean to those characters and a space. */
  lemma TrailingSpaceAfterCut(w: string)
    requires |w| == 49999 && forall i :: 0 <= i < |w| ==> !Js.IsSpace(w[i])
    ensures CleanWebsiteText(w + " b") == w + " "
  {
    var text := w + " b";
    assert NoAdjacentSpaces(text) && OnlyPlainSpaces(text);
    CollapseFixed(text);
    assert Js.TrimStart(text) == text;
    assert Js.TrimEnd(text) == text;
    assert text[..WebsiteTextLimit] == w + " ";
  }

  // -----------------------------------------------------------------------
  // fileToBase64: result.split(',')[1]
  // -----------------------------------------------------------------------

  /** The payload of a data URL: the piece after the first comma, up to any
      next comma; `undefined` (None) when there is no comma. */
  function DataUrlPayload(dataUrl: string): (payload: Option<string>)
    ensures payload.None? <==> ',' !in dataUrl
    ensures payload.Some? ==> ',' !in payload.value
  {
    var parts := Js.Split(dataUrl, ',');
    Js.SplitHead(dataUrl, ',');
    if |parts| > 1 then Some(parts[1]) else None
  }

  /** A data URL whose header has no comma yields what follows the header
      up to the next comma, and the whole base64 text when it has none. */
  lemma DataUrlRoundTrip(header: string, data: string)
    requires ',' !in header
    ensures DataUrlPayload(header + "," + data) == Some(Js.Split(data, ',')[0])
    ensures ',' !in data ==> DataUrlPayload(header + "," + data) == Some(data)
  {
    var url := header + "," + data;
    var k := Js.IndexOf(url, ',');
    assert url[|header|] == ',';
    assert url[..|header|] == header;
    assert url[k + 1..] == data;
    Js.SplitHead(data, ',');
  }

  // -----------------------------------------------------------------------
  // processFileWithGemini
  // -----------------------------------------------------------------------

  /** The three instructions an uploaded file can get. */
  datatype IngestionPrompt = DocumentPrompt | AudioPrompt | ImagePrompt

  function PromptText(p: IngestionPrompt): string {
    match p
    case DocumentPrompt => "Extract all text from this document. Preserve formatting where possible."
    case AudioPrompt => "Transcribe this audio file verbatim. Identify speakers if possible."
    case ImagePrompt => "Extract all visible text from this image. Describe any charts or diagrams in detail."
  }

  const NoTextExtracted: string := "No text extracted."

  /** The instruction sent with an uploaded file, chosen by MIME type. */
  function ChoosePrompt(mimeType: string): (prompt: IngestionPrompt)
    ensures prompt == AudioPrompt <==> Js.StartsWith(mimeType, "audio/")
    ensures prompt == ImagePrompt <==> Js.StartsWith(mimeType, "image/")
    ensures prompt == DocumentPrompt <==>
      !Js.StartsWith(mimeType, "audio/") && !Js.StartsWith(mimeType, "image/")
  {
    if Js.StartsWith(mimeType, "audio/") then
      assert mimeType[0] == 'a';
      AudioPrompt
    else if Js.StartsWith(mimeType, "image/") then ImagePrompt
    else DocumentPrompt
  }

  /** The text a file yields: the model's reply, or a fixed notice when the
      reply is empty, so it is never empty. */
  function ExtractedText(reply: Option<string>): (text: string)
    ensures text != ""
    ensures Present(reply) ==> text == reply.value
    ensures !Present(reply) ==> text == NoTextExtracted
  {
    if Present(reply) then reply.value else NoTextExtracted
  }

  // -----------------------------------------------------------------------
  // generateAudioOverview: the length instruction
  // -----------------------------------------------------------------------

  datatype AudioLength = Short | Medium | Long

  const ShortInstruction: string := "about 5-8 minutes long, very concise"
  const LongInstruction: string := "about 10-17 minutes long, going into deep detail"
  const DefaultInstruction: string := "roughly 2 minutes long spoken"

  /** The length instruction in the script prompt; Medium gets the default. */
  function DurationInstruction(length: AudioLength): (instruction: string)
    ensures instruction == ShortInstruction <==> length == Short
    ensures instruction == LongInstruction <==> length == Long
    ensures instruction == DefaultInstruction <==> length == Medium
  {
    match length
    case Short => ShortInstruction
    case Long => LongInstruction
    case Medium => DefaultInstruction
  }

  // -----------------------------------------------------------------------
  // generateAnswer: the updates handed to onUpdate
  // -----------------------------------------------------------------------

  const NoSourcesMessage: string := "Please add sources to your notebook first."
  const AnswerErrorMessage: string := "Error generating response. Please check your API key or connection."

  /** One chunk of the answer stream: its text, if any, and whether it
      carries grounding metadata. */
  datatype StreamChunk = StreamChunk(text: Option<string>, grounding: bool)

  /** One call of onUpdate. */
  datatype Update = Update(text: string, grounding: bool)

  function ChunkText(c: StreamChunk): string {
    if c.text.Some? then c.text.value else ""
  }

  /** The onUpdate call a chunk would make: `chunk.text || ''` and its
      grounding flag. */
  function AsUpdate(c: StreamChunk): Update {
    Update(ChunkText(c), c.grounding)
  }

  /** One candidate update per chunk, in stream order. */
  function AsUpdates(chunks: seq<StreamChunk>): (updates: seq<Update>)
    ensures |updates| == |chunks|
    ensures forall i :: 0 <= i < |chunks| ==> updates[i] == AsUpdate(chunks[i])
  {
    if chunks == [] then [] else [AsUpdate(chunks[0])] + AsUpdates(chunks[1..])
  }

  /** The guard `if (text || groundingMetadata)`. */
  predicate Emitted(u: Update) {
    u.text != "" || u.grounding
  }

  /** The updates the stream loop emits: one per chunk with text or
      grounding, in stream order, carrying that chunk's text and grounding
      flag; the other chunks are skipped. */
  function StreamUpdates(chunks: seq<StreamChunk>): (updates: seq<Update>)
    ensures updates == Js.Filter(AsUpdates(chunks), Emitted)
    ensures |updates| <= |chunks|
    ensures forall i :: 0 <= i < |updates| ==> updates[i].text != "" || updates[i].grounding
  {
    if chunks == [] then []
    else
      var c := chunks[0];
      var text := ChunkText(c);
      assert AsUpdates(chunks)[1..] == AsUpdates(chunks[1..]);
      (if text != "" || c.grounding then [Update(text, c.grounding)] else []) + StreamUpdates(chunks[1..])
  }

  /** Everything generateAnswer emits: one notice when there are no sources;
      otherwise the stream's updates, then an error notice if the request or
      the stream threw after `chunks` had arrived. */
  function AnswerUpdates(sources: seq<Source>, chunks: seq<StreamChunk>, threw: bool): (updates: seq<Update>)
    ensures sources == [] ==> updates == [Update(NoSourcesMessage, false)]
    ensures sources != [] && !threw ==> updates == StreamUpdates(chunks)
    ensures sources != [] && threw ==> updates == StreamUpdates(chunks) + [Update(AnswerErrorMessage, false)]
  {
    if sources == [] then [Update(NoSourcesMessage, false)]
    else StreamUpdates(chunks) + (if threw then [Update(AnswerErrorMessage, false)] else [])
  }

  function UpdateTexts(updates: seq<Update>): string {
    if updates == [] then "" else updates[0].text + UpdateTexts(updates[1..])
  }

  /** The text of a run of updates grows by each update's text, in order. */
  lemma {:induction false} UpdateTextsAppend(updates: seq<Update>, u: Update)
    ensures UpdateTexts(updates + [u]) == UpdateTexts(updates) + u.text
  {
    if updates == [] {
      assert UpdateTexts([u]) == u.text + UpdateTexts([]);
    } else {
      assert (updates + [u])[1..] == updates[1..] + [u];
      UpdateTextsAppend(updates[1..], u);
    }
  }

  function ChunkTexts(chunks: seq<StreamChunk>): string {
    if chunks == [] then "" else ChunkText(chunks[0]) + ChunkTexts(chunks[1..])
  }

  /** Dropping empty chunks loses no text: the emitted texts concatenate to
      the streamed text. */
  lemma {:induction false} StreamKeepsText(chunks: seq<StreamChunk>)
    ensures UpdateTexts(StreamUpdates(chunks)) == ChunkTexts(chunks)
  {
    if chunks != [] {
      StreamKeepsText(chunks[1..]);
      var c := chunks[0];
      var rest := StreamUpdates(chunks[1..]);
      if ChunkText(c) != "" || c.grounding {
        assert ([Update(ChunkText(c), c.grounding)] + rest)[1..] == rest;
      } else {
        assert [] + rest == rest;
      }
    }
  }

  // -----------------------------------------------------------------------
  // Guard and throw paths of the generators
  // -----------------------------------------------------------------------

  const SpeechError: string := "Failed to generate speech"
  const ScriptError: string := "Failed to generate script"
  const AudioBytesError: string := "Failed to generate audio bytes"
  const InfographicError: string := "Failed to generate infographic image"
  const DefaultImagePrompt: string := "A professional infographic summarizing research data, dark mode, neon style."

  /** speakText: the base64 audio handed on to the WAV builder, or the
      error it throws when the reply has no inline audio. */
  function SpeechAudio(inlineData: Option<string>): (r: Result<string>)
    ensures r.Ok? <==> Present(inlineData)
    ensures r.Ok? ==> r.value == inlineData.value
    ensures r.Fail? ==> r.message == SpeechError
  {
    if Present(inlineData) then Ok(inlineData.value) else Fail(SpeechError)
  }

  /** generateAudioOverview: the script and the base64 audio, or the error
      of the first step that returned nothing. The speech reply is only
      asked for once the script exists. */
  function AudioOverview(script: Option<string>, inlineData: Option<string>): (r: Result<(string, string)>)
    ensures r.Ok? <==> Present(script) && Present(inlineData)
    ensures r.Ok? ==> r.value == (script.value, inlineData.value)
    ensures !Present(script) ==> r == Fail(ScriptError)
    ensures Present(script) && !Present(inlineData) ==> r == Fail(AudioBytesError)
  {
    if !Present(script) then Fail(ScriptError)
    else if !Present(inlineData) then Fail(AudioBytesError)
    else Ok((script.value, inlineData.value))
  }

  /** One part of a model reply; only whether it has inline data matters. */
  datatype Part = Part(inlineData: Option<string>)

  /** The index of the first part that has inline data. */
  function FirstInlineIndex(parts: seq<Part>): (r: Option<nat>)
    ensures r.Some? ==> r.value < |parts| && parts[r.value].inlineData.Some?
    ensures r.Some? ==> forall j :: 0 <= j < r.value ==> parts[j].inlineData.None?
    ensures r.None? ==> forall j :: 0 <= j < |parts| ==> parts[j].inlineData.None?
  {
    if parts == [] then None
    else if parts[0].inlineData.Some? then Some(0)
    else match FirstInlineIndex(parts[1..])
      case None => None
      case Some(k) => Some(k + 1)
  }

  /** The search loop over the image reply's parts: it stops at the first
      part with inline data and takes that part's data. */
  method PickInlineImage(parts: Option<seq<Part>>) returns (base64Image: Option<string>)
    ensures parts.None? ==> base64Image.None?
    ensures parts.Some? ==> match FirstInlineIndex(parts.value)
      case None => base64Image.None?
      case Some(k) => base64Image == parts.value[k].inlineData
  {
    base64Image := None;
    if parts.Some? {
      var i := 0;
      while i < |parts.value|
        invariant 0 <= i <= |parts.value|
        invariant forall j :: 0 <= j < i ==> parts.value[j].inlineData.None?
        invariant base64Image.None?
      {
        if parts.value[i].inlineData.Some? {
          base64Image := parts.value[i].inlineData;
          return;
        }
        i := i + 1;
      }
    }
  }

  /** The infographic artifact: the image URL built from the first inline
      image, or the error thrown when that image is missing or empty, with
      the image prompt (the model's reply or a fixed default). */
  function Infographic(promptReply: Option<string>, image: Option<string>): (r: Result<Content>)
    ensures r.Ok? <==> Present(image)
    ensures r.Fail? ==> r.message == InfographicError
    ensures r.Ok? ==> r.value.ImageContent? && Js.StartsWith(r.value.imageUrl, "data:image/png;base64,")
    ensures r.Ok? ==> r.value.imageUrl[|"data:image/png;base64,"|..] == image.value
    ensures r.Ok? ==> r.value.prompt == (if Present(promptReply) then promptReply.value else DefaultImagePrompt)
  {
    var imagePrompt := if Present(promptReply) then promptReply.value else DefaultImagePrompt;
    if !Present(image) then Fail(InfographicError)
    else Ok(ImageContent("data:image/png;base64," + image.value, imagePrompt))
  }

  /** A text artifact: the parsed reply, or null for an empty reply.
      `parse` stands for JSON.parse, whose SyntaxError on a malformed or
      truncated reply is a `Fail` that the generator passes on. */
  function TextArtifact(reply: Option<string>, parse: string -> Result<Content>): (r: Result<Content>)
    ensures r.Fail? <==> Present(reply) && parse(reply.value).Fail?
    ensures !Present(reply) ==> r == Ok(NullContent)
    ensures Present(reply) ==> r == parse(reply.value)
  {
    if Present(reply) then parse(reply.value) else Ok(NullContent)
  }
}
