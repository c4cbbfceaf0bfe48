/** The chat panel: a message list that starts with a welcome message, an
    input box and a loading flag. A submit appends the user's message and an
    empty streaming model message; each streamed chunk extends the model
    message's text; the end of the stream marks it settled. Message ids
    (crypto.randomUUID) arrive as parameters and are assumed fresh. */
module ChatTab {
  import Js
  import Ai

  datatype Role = User | Model

  datatype ChatMessage = ChatMessage(id: string, role: Role, text: string, isStreaming: bool)

  function WelcomeText(sourceCount: nat): string {
    "Hi! I'm ready to answer questions based on the " + Js.NatToString(sourceCount)
      + " sources in this notebook. What would you like to know?"
  }

  ghost predicate UniqueIds(messages: seq<ChatMessage>) {
    forall i, j :: 0 <= i < j < |messages| ==> messages[i].id != messages[j].id
  }

  ghost predicate FreshId(messages: seq<ChatMessage>, id: string) {
    forall i :: 0 <= i < |messages| ==> messages[i].id != id
  }

  /** `prev.map(m => m.id === id ? { ...m, text } : m)`. */
  function WithText(messages: seq<ChatMessage>, id: string, text: string): (r: seq<ChatMessage>)
    ensures |r| == |messages|
    ensures forall i :: 0 <= i < |r| ==>
      r[i] == if messages[i].id == id then messages[i].(text := text) else messages[i]
  {
    if messages == [] then []
    else
      [if messages[0].id == id then messages[0].(text := text) else messages[0]]
        + WithText(messages[1..], id, text)
  }

  /** `prev.map(m => m.id === id ? { ...m, isStreaming: false } : m)`. */
  function Settled(messages: seq<ChatMessage>, id: string): (r: seq<ChatMessage>)
    ensures |r| == |messages|
    ensures forall i :: 0 <= i < |r| ==>
      r[i] == if messages[i].id == id then messages[i].(isStreaming := false) else messages[i]
  {
    if messages == [] then []
    else
      [if messages[0].id == id then messages[0].(isStreaming := false) else messages[0]]
        + Settled(messages[1..], id)
  }

  /** With distinct ids, updating the last message's id touches it alone. */
  lemma UpdatesReachOnlyLast(messages: seq<ChatMessage>, text: string)
    requires UniqueIds(messages) && |messages| >= 1
    ensures var last := messages[|messages| - 1];
      && WithText(messages, last.id, text) == messages[..|messages| - 1] + [last.(text := text)]
      && Settled(messages, last.id) == messages[..|messages| - 1] + [last.(isStreaming := false)]
  {
    var n := |messages|;
    var last := messages[n - 1];
    var edited := WithText(messages, last.id, text);
    var settled := Settled(messages, last.id);
    var keptEdited := messages[..n - 1] + [last.(text := text)];
    var keptSettled := messages[..n - 1] + [last.(isStreaming := false)];
    forall i | 0 <= i < n ensures edited[i] == keptEdited[i] && settled[i] == keptSettled[i] {
      if i < n - 1 {
        assert messages[i].id != last.id;
      }
    }
  }

  lemma ReplaceLastKeepsIds(messages: seq<ChatMessage>, m: ChatMessage)
    requires UniqueIds(messages) && |messages| >= 1 && m.id == messages[|messages| - 1].id
    ensures UniqueIds(messages[..|messages| - 1] + [m])
  {
    var r := messages[..|messages| - 1] + [m];
    forall i, j | 0 <= i < j < |r| ensures r[i].id != r[j].id {
      assert r[i].id == messages[i].id && r[j].id == messages[j].id;
    }
  }

  /** Two messages under new, different ids keep the ids distinct. */
  lemma AppendFreshKeepsIds(messages: seq<ChatMessage>, a: ChatMessage, b: ChatMessage)
    requires UniqueIds(messages) && FreshId(messages, a.id) && FreshId(messages, b.id) && a.id != b.id
    ensures UniqueIds(messages + [a, b])
  {
    var r := messages + [a, b];
    forall i, j | 0 <= i < j < |r| ensures r[i].id != r[j].id {
      if j < |messages| {
        assert r[i] == messages[i] && r[j] == messages[j];
      } else if i < |messages| {
        assert r[i] == messages[i];
      }
    }
  }

  /** One streamed chunk on a list whose last message is the model message
      being streamed: only that message's text changes, and the ids stay
      distinct. */
  lemma StreamingStep(messages: seq<ChatMessage>, id: string, text: string, newText: string)
    requires UniqueIds(messages) && |messages| >= 1
    requires messages[|messages| - 1] == ChatMessage(id, Model, text, true)
    ensures var r := WithText(messages, id, newText);
      && r == messages[..|messages| - 1] + [ChatMessage(id, Model, newText, true)]
      && UniqueIds(r) && |r| >= 1 && r[|r| - 1] == ChatMessage(id, Model, newText, true)
  {
    var current := ChatMessage(id, Model, newText, true);
    UpdatesReachOnlyLast(messages, newText);
    ReplaceLastKeepsIds(messages, current);
    assert messages[|messages| - 1].(text := newText) == current;
  }

  class ChatPanel {
    var messages: seq<ChatMessage>
    var input: string
    var loading: bool
    // The id of the model message being streamed and its text so far
    // (modelMsgId and fullResponse of the request in flight).
    var streamId: string
    var streamed: string

    ghost predicate Valid()
      reads this
    {
      && |messages| >= 1
      && UniqueIds(messages)
      && (loading ==> messages[|messages| - 1] == ChatMessage(streamId, Model, streamed, true))
    }

    /** The panel opens with one model message greeting the user. */
    constructor (sourceCount: nat)
      ensures Valid()
      ensures messages == [ChatMessage("welcome", Model, WelcomeText(sourceCount), false)]
      ensures input == "" && !loading
    {
      messages := [ChatMessage("welcome", Model, WelcomeText(sourceCount), false)];
      input := "";
      loading := false;
      streamId, streamed := "", "";
    }

    method SetInput(text: string)
      requires Valid()
      modifies this`input
      ensures Valid() && input == text
    {
      input := text;
    }

    /** The synchronous start of handleSubmit: a blank input, or a request
        already in flight, makes it do nothing; otherwise the user message
        (with the input exactly as typed) and an empty streaming model
        message are appended, the input is cleared and loading starts. */
    method Submit(userId: string, modelId: string) returns (accepted: bool)
      requires Valid()
      requires userId != modelId && FreshId(messages, userId) && FreshId(messages, modelId)
      modifies this
      ensures Valid()
      ensures accepted <==> !Js.AllSpace(old(input)) && !old(loading)
      ensures !accepted ==> unchanged(this)
      ensures accepted ==>
        && messages == old(messages) + [ChatMessage(userId, User, old(input), false),
                                        ChatMessage(modelId, Model, "", true)]
        && input == "" && loading && streamId == modelId && streamed == ""
    {
      Js.BlankIffAllSpace(input);
      if Js.IsBlank(input) || loading {
        return false;
      }
      var question := ChatMessage(userId, User, input, false);
      var answer := ChatMessage(modelId, Model, "", true);
      AppendFreshKeepsIds(messages, question, answer);
      messages := messages + [question, answer];
      input := "";
      loading := true;
      streamId := modelId;
      streamed := "";
      accepted := true;
    }

    /** One onUpdate call: the chunk is appended to the response so far,
        which becomes the model message's text; no other message changes. */
    method OnChunk(chunk: string)
      requires Valid() && loading
      modifies this`messages, this`streamed
      ensures Valid()
      ensures streamed == old(streamed) + chunk
      ensures messages == old(messages)[..|old(messages)| - 1] + [ChatMessage(streamId, Model, streamed, true)]
    {
      var text := streamed + chunk;
      StreamingStep(messages, streamId, streamed, text);
      messages := WithText(messages, streamId, text);
      streamed := text;
    }

    /** The end of the request: the model message stops streaming and
        loading ends; nothing else changes. */
    method Finish()
      requires Valid() && loading
      modifies this`messages, this`loading
      ensures Valid() && !loading
      ensures messages == old(messages)[..|old(messages)| - 1] + [ChatMessage(streamId, Model, streamed, false)]
    {
      var updated := Settled(messages, streamId);
      UpdatesReachOnlyLast(messages, streamed);
      ReplaceLastKeepsIds(messages, ChatMessage(streamId, Model, streamed, false));
      messages := updated;
      loading := false;
    }

    /** A whole submit with the updates the answer stream delivers: when
        accepted, the list ends with the user's message and a settled model
        message whose text is all the updates' texts in order. */
    method HandleSubmit(userId: string, modelId: string, updates: seq<Ai.Update>) returns (accepted: bool)
      requires Valid()
      requires userId != modelId && FreshId(messages, userId) && FreshId(messages, modelId)
      modifies this
      ensures Valid()
      ensures accepted <==> !Js.AllSpace(old(input)) && !old(loading)
      ensures !accepted ==> messages == old(messages) && input == old(input) && loading == old(loading)
      ensures accepted ==>
        && messages == old(messages) + [ChatMessage(userId, User, old(input), false),
                                        ChatMessage(modelId, Model, Ai.UpdateTexts(updates), false)]
        && input == "" && !loading
    {
      accepted := Submit(userId, modelId);
      if !accepted {
        return;
      }
      ghost var before := messages[..|messages| - 1];
      var k := 0;
      while k < |updates|
        invariant 0 <= k <= |updates|
        invariant Valid() && loading && streamId == modelId && input == ""
        invariant streamed == Ai.UpdateTexts(updates[..k])
        invariant messages == before + [ChatMessage(modelId, Model, streamed, true)]
      {
        OnChunk(updates[k].text);
        Ai.UpdateTextsAppend(updates[..k], updates[k]);
        assert updates[..k + 1] == updates[..k] + [updates[k]];
        k := k + 1;
      }
      assert updates[..k] == updates;
      Finish();
    }
  }

  /** Streaming an answer to a notebook with sources shows exactly the text
      of the stream: chunks without text are dropped without loss. */
  lemma ChatShowsStreamedText(sources: seq<Ai.Types.Source>, chunks: seq<Ai.StreamChunk>)
    requires sources != []
    ensures Ai.UpdateTexts(Ai.AnswerUpdates(sources, chunks, false)) == Ai.ChunkTexts(chunks)
  {
    Ai.StreamKeepsText(chunks);
  }
}
