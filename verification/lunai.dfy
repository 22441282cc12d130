/**
 * `components/Lunai.tsx`: the assistant's transcript. A send appends the user's
 * trimmed text and an empty model entry; the streamed reply is then added onto
 * that last entry chunk by chunk, or replaced by an apology when the stream fails.
 */
module Lunai {
  import opened Types
  import opened Text

  const Greeting := "Hello! I'm LUNai, your friendly care assistant. How can I help you and your family today?"
  const Apology := "Sorry, I encountered an error. Please try again."

  /** The text one streamed chunk contributes: a chunk without text adds `undefined`, as string
      concatenation with an undefined value does. */
  function ChunkText(chunk: Option<string>): (t: string)
    ensures chunk.Some? ==> t == chunk.value
    ensures chunk.None? ==> t == "undefined"
  {
    chunk.GetOr("undefined")
  }

  /** The text of the chunks one after the other. */
  function Concat(chunks: seq<Option<string>>): string
  {
    if chunks == [] then [] else Concat(chunks[..|chunks| - 1]) + ChunkText(chunks[|chunks| - 1])
  }

  /** Concatenating two runs of chunks is concatenating their texts. */
  lemma {:induction false} ConcatAppend(a: seq<Option<string>>, b: seq<Option<string>>)
    ensures Concat(a + b) == Concat(a) + Concat(b)
    decreases |b|
  {
    if b == [] {
      assert a + b == a;
    } else {
      var b' := b[..|b| - 1];
      assert (a + b)[..|a + b| - 1] == a + b';
      ConcatAppend(a, b');
    }
  }

  /** How the reply stream ended: it ran out, or it threw after delivering some chunks. */
  datatype StreamOutcome = Completed(chunks: seq<Option<string>>) | FailedAfter(chunks: seq<Option<string>>)

  class Assistant {
    var messages: seq<BotChatMessage>
    var isLoading: bool
    var chatReady: bool
    var input: string

    /** Before the mount effect has run: no transcript and no chat session. */
    constructor ()
      ensures messages == [] && !isLoading && !chatReady && input == []
    {
      messages, isLoading, chatReady, input := [], false, false, [];
    }

    /** The mount effect: a chat session is opened and the transcript is exactly the greeting. */
    method Mount()
      modifies this`messages, this`chatReady
      ensures messages == [BotChatMessage(ModelRole, Greeting)] && chatReady
    {
      chatReady := true;
      messages := [BotChatMessage(ModelRole, Greeting)];
    }

    method EditInput(s: string)
      modifies this`input
      ensures input == s
    {
      input := s;
    }

    /** The part of `handleSendMessage` before the stream: a blank input or a missing chat session
        changes nothing; otherwise loading starts, the trimmed text and an empty model entry are
        appended, the input is cleared and the trimmed text is what is sent. */
    method BeginSend() returns (sent: Option<string>)
      modifies this`messages, this`isLoading, this`input
      ensures Trim(old(input)) == [] || !chatReady ==>
        sent == None && messages == old(messages) && isLoading == old(isLoading) && input == old(input)
      ensures Trim(old(input)) != [] && chatReady ==>
        && sent == Some(Trim(old(input)))
        && messages == old(messages) + [BotChatMessage(UserRole, Trim(old(input))), BotChatMessage(ModelRole, [])]
        && isLoading && input == []
    {
      var userInput := Trim(input);
      if userInput == [] || !chatReady {
        return None;
      }
      isLoading := true;
      messages := messages + [BotChatMessage(UserRole, userInput), BotChatMessage(ModelRole, [])];
      input := [];
      return Some(userInput);
    }

    /** The stream loop and its `catch`/`finally`: each chunk's text is added to the last entry
        only; a completed stream leaves there the in-order concatenation of the chunks, a failed
        one the apology. Every earlier entry is untouched and loading stops either way. */
    method FinishSend(outcome: StreamOutcome)
      requires |messages| > 0
      modifies this`messages, this`isLoading
      ensures !isLoading
      ensures |messages| == |old(messages)|
      ensures messages[..|messages| - 1] == old(messages)[..|messages| - 1]
      ensures messages[|messages| - 1].role == old(messages)[|messages| - 1].role
      ensures outcome.Completed? ==>
        messages[|messages| - 1].text == old(messages)[|messages| - 1].text + Concat(outcome.chunks)
      ensures outcome.FailedAfter? ==> messages[|messages| - 1].text == Apology
    {
      var chunks := outcome.chunks;
      var last := |messages| - 1;
      for i := 0 to |chunks|
        invariant |messages| == |old(messages)|
        invariant messages[..last] == old(messages)[..last]
        invariant messages[last].role == old(messages)[last].role
        invariant messages[last].text == old(messages)[last].text + Concat(chunks[..i])
      {
        assert chunks[..i + 1][..i] == chunks[..i];
        messages := messages[last := messages[last].(text := messages[last].text + ChunkText(chunks[i]))];
      }
      if outcome.FailedAfter? {
        messages := messages[last := messages[last].(text := Apology)];
      }
      assert chunks[..|chunks|] == chunks;
      isLoading := false;
    }
  }
}
