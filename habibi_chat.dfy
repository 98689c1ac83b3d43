/**
 * The buyer chat (components/HabibiChat.tsx): the system instruction each chat session is
 * created with, and the message list that a send, its streamed reply and its failure update.
 *
 * `handleSend` is split at its `await`s: `BeginSend` runs it up to the streaming call,
 * `ReceiveStream` is its `for await` loop over the chunks that arrived, and `EndSend` is its
 * `catch`/`finally`. Other events (a language change) may come between them. Message ids and
 * the texts of the string tables are parameters.
 */
module HabibiChat {
  import opened Wrappers
  import opened Strings
  import opened Types

  // ---------------------------------------------------------------------------
  // System instruction

  const Persona := "You are \"Habibi\", a smart, witty, and helpful AI shopping assistant for SouqAI (Tunisia)."
  const DerjaClause := " You MUST speak in Tunisian Dialect (Derja) primarily, mixed with some French/English tech terms. Be very friendly like a Tunisian shopkeeper."
  const FrenchClause := " You MUST speak in French. Be polite and helpful."
  const MixClause := " You mix English with Tunisian words (Aslema, Labes, Barcha). Keep it friendly."
  const GoalClause := " Your goal is to help users buy things. If suggesting a product, format it nicely with bullet points."

  /** The one clause that sets the reply language: Derja for Arabic, French for French, the mix otherwise. */
  function LanguageClause(lang: Language): (r: string)
    ensures r == DerjaClause <==> lang == Ar
    ensures r == FrenchClause <==> lang == Fr
    ensures r == MixClause <==> lang == En
  {
    assert |FrenchClause| < |MixClause| < |DerjaClause|;
    match lang
    case Ar => DerjaClause
    case Fr => FrenchClause
    case En => MixClause
  }

  /** The instruction a chat session is created with: the persona, one language clause, the goal. */
  function SystemInstruction(lang: Language): (r: string)
    ensures |r| == |Persona| + |LanguageClause(lang)| + |GoalClause|
    ensures r[..|Persona|] == Persona
    ensures r[|Persona|..|Persona| + |LanguageClause(lang)|] == LanguageClause(lang)
    ensures r[|r| - |GoalClause|..] == GoalClause
  {
    var instruction := Persona;
    var instruction' := instruction + LanguageClause(lang);
    var r := instruction' + GoalClause;
    assert r[..|Persona|] == Persona;
    assert r[|Persona|..|instruction'|] == LanguageClause(lang);
    r
  }

  /** Each language gets its own instruction: the instruction determines the language. */
  lemma SystemInstructionInjective(a: Language, b: Language)
    requires SystemInstruction(a) == SystemInstruction(b)
    ensures a == b
  {
    assert |FrenchClause| < |MixClause| < |DerjaClause|;
  }

  // ---------------------------------------------------------------------------
  // Message-list updates

  /** `before` is kept as the front of `after`, element for element by id and role: nothing is removed. */
  predicate Grows(before: seq<ChatMessage>, after: seq<ChatMessage>) {
    |before| <= |after| && forall i :: 0 <= i < |before| ==> after[i].id == before[i].id && after[i].role == before[i].role
  }

  /** Appending keeps every earlier message in place. */
  lemma AppendGrows(msgs: seq<ChatMessage>, extra: seq<ChatMessage>)
    ensures Grows(msgs, msgs + extra)
  {
  }

  /**
   * `prev.map(msg => msg.id === botMsgId ? {...msg, text, isThinking: false} : msg)`: every
   * message with that id shows `text` and stops thinking; every other message is unchanged.
   */
  function ShowReply(msgs: seq<ChatMessage>, botMsgId: string, text: string): (r: seq<ChatMessage>)
    ensures |r| == |msgs|
    ensures forall i :: 0 <= i < |msgs| && msgs[i].id == botMsgId ==>
      r[i] == ChatMessage(msgs[i].id, msgs[i].role, text, false)
    ensures forall i :: 0 <= i < |msgs| && msgs[i].id != botMsgId ==> r[i] == msgs[i]
  {
    if msgs == [] then []
    else
      var m := msgs[0];
      [if m.id == botMsgId then m.(text := text, isThinking := false) else m] + ShowReply(msgs[1..], botMsgId, text)
  }

  /**
   * `prev.map(msg => msg.isThinking ? {...msg, text: errorText, isThinking: false} : msg)`:
   * every thinking message shows the error and stops thinking; every other one is unchanged.
   */
  function MarkFailed(msgs: seq<ChatMessage>, errorText: string): (r: seq<ChatMessage>)
    ensures |r| == |msgs|
    ensures forall i :: 0 <= i < |msgs| && msgs[i].isThinking ==>
      r[i] == ChatMessage(msgs[i].id, msgs[i].role, errorText, false)
    ensures forall i :: 0 <= i < |msgs| && !msgs[i].isThinking ==> r[i] == msgs[i]
  {
    if msgs == [] then []
    else
      var m := msgs[0];
      [if m.isThinking then m.(text := errorText, isThinking := false) else m] + MarkFailed(msgs[1..], errorText)
  }

  /** Showing a later accumulation of the reply replaces the earlier one. */
  lemma ShowReplyOverwrites(msgs: seq<ChatMessage>, botMsgId: string, earlier: string, later: string)
    ensures ShowReply(ShowReply(msgs, botMsgId, earlier), botMsgId, later) == ShowReply(msgs, botMsgId, later)
  {
    var a := ShowReply(ShowReply(msgs, botMsgId, earlier), botMsgId, later);
    var b := ShowReply(msgs, botMsgId, later);
    assert forall i :: 0 <= i < |a| ==> a[i] == b[i];
  }

  /** After a failure no message is thinking, so a second failure changes nothing. */
  lemma MarkFailedIdempotent(msgs: seq<ChatMessage>, errorText: string, again: string)
    ensures MarkFailed(MarkFailed(msgs, errorText), again) == MarkFailed(msgs, errorText)
  {
    var once := MarkFailed(msgs, errorText);
    var twice := MarkFailed(once, again);
    assert forall i :: 0 <= i < |once| ==> !once[i].isThinking;
    assert forall i :: 0 <= i < |once| ==> twice[i] == once[i];
  }

  /**
   * A failure after part of the reply has been shown keeps that part: the reply message is no
   * longer thinking, so it does not get the error text.
   */
  lemma FailureKeepsPartialReply(msgs: seq<ChatMessage>, botMsgId: string, partial: string, errorText: string, i: int)
    requires 0 <= i < |msgs| && msgs[i].id == botMsgId
    ensures MarkFailed(ShowReply(msgs, botMsgId, partial), errorText)[i].text == partial
  {
  }

  /** The text accumulated from the chunks, in order (`fullResponseText += text`). */
  function Concat(chunks: seq<string>): string {
    if chunks == [] then "" else Concat(chunks[..|chunks| - 1]) + chunks[|chunks| - 1]
  }

  /** Some message carries the id. */
  predicate HasId(msgs: seq<ChatMessage>, id: string) {
    exists i :: 0 <= i < |msgs| && msgs[i].id == id
  }

  /** Some chunk carried text. */
  predicate AnyText(chunks: seq<string>) {
    exists i :: 0 <= i < |chunks| && chunks[i] != ""
  }

  /**
   * The message list after a run of chunks, when `earlier` had been accumulated before them:
   * the reply message shows the whole accumulation once any chunk carried text; otherwise the
   * list is as it was.
   */
  function Streamed(msgs: seq<ChatMessage>, botMsgId: string, earlier: string, chunks: seq<string>): (r: seq<ChatMessage>)
    ensures |r| == |msgs|
  {
    if AnyText(chunks) then ShowReply(msgs, botMsgId, earlier + Concat(chunks)) else msgs
  }

  /**
   * After the chunks, the reply message shows the whole accumulation and has stopped thinking
   * once any chunk carried text; every other message, and every message when none did, is as it was.
   */
  lemma StreamedShowsReply(msgs: seq<ChatMessage>, botMsgId: string, earlier: string, chunks: seq<string>, i: int)
    requires 0 <= i < |msgs|
    ensures msgs[i].id == botMsgId && AnyText(chunks) ==>
      Streamed(msgs, botMsgId, earlier, chunks)[i].text == earlier + Concat(chunks)
      && !Streamed(msgs, botMsgId, earlier, chunks)[i].isThinking
    ensures msgs[i].id != botMsgId || !AnyText(chunks) ==> Streamed(msgs, botMsgId, earlier, chunks)[i] == msgs[i]
    ensures Streamed(msgs, botMsgId, earlier, chunks)[i].id == msgs[i].id
    ensures Streamed(msgs, botMsgId, earlier, chunks)[i].role == msgs[i].role
  {
  }

  /** Streaming keeps every message in place, by id and role. */
  lemma StreamedGrows(msgs: seq<ChatMessage>, botMsgId: string, earlier: string, chunks: seq<string>)
    ensures Grows(msgs, Streamed(msgs, botMsgId, earlier, chunks))
  {
  }

  /** A list that grows from one carrying an id still carries it. */
  lemma GrowsKeepsId(before: seq<ChatMessage>, after: seq<ChatMessage>, id: string)
    requires Grows(before, after) && HasId(before, id)
    ensures HasId(after, id)
  {
    var k :| 0 <= k < |before| && before[k].id == id;
    assert after[k].id == id;
  }

  /** One more chunk: a chunk with text shows the new accumulation; an empty chunk changes nothing. */
  lemma StreamedStep(msgs: seq<ChatMessage>, botMsgId: string, earlier: string, chunks: seq<string>, chunk: string)
    ensures Concat(chunks + [chunk]) == Concat(chunks) + chunk
    ensures Streamed(msgs, botMsgId, earlier, chunks + [chunk]) ==
      if chunk != "" then ShowReply(Streamed(msgs, botMsgId, earlier, chunks), botMsgId, earlier + Concat(chunks) + chunk)
      else Streamed(msgs, botMsgId, earlier, chunks)
  {
    var more := chunks + [chunk];
    assert more[..|more| - 1] == chunks;
    if chunk != "" {
      assert more[|chunks|] != "";
      if AnyText(chunks) {
        var k :| 0 <= k < |chunks| && chunks[k] != "";
        assert more[k] == chunks[k];
        ShowReplyOverwrites(msgs, botMsgId, earlier + Concat(chunks), earlier + Concat(chunks) + chunk);
      }
      assert earlier + Concat(more) == earlier + Concat(chunks) + chunk;
    } else {
      assert Concat(more) == Concat(chunks) + chunk == Concat(chunks);
      assert AnyText(more) == AnyText(chunks) by {
        if AnyText(more) {
          var k :| 0 <= k < |more| && more[k] != "";
          assert k < |chunks| && chunks[k] != "";
        }
        if AnyText(chunks) {
          var k :| 0 <= k < |chunks| && chunks[k] != "";
          assert more[k] != "";
        }
      }
    }
  }

  /** The loop step of the stream, on the locals: chunk `i` moves both the text and the list on by one. */
  lemma StreamedNext(msgs: seq<ChatMessage>, botMsgId: string, earlier: string, chunks: seq<string>, i: int,
                     acc: string, shown: seq<ChatMessage>)
    requires 0 <= i < |chunks|
    requires acc == earlier + Concat(chunks[..i]) && shown == Streamed(msgs, botMsgId, earlier, chunks[..i])
    ensures (if chunks[i] != "" then acc + chunks[i] else acc) == earlier + Concat(chunks[..i + 1])
    ensures (if chunks[i] != "" then ShowReply(shown, botMsgId, acc + chunks[i]) else shown)
      == Streamed(msgs, botMsgId, earlier, chunks[..i + 1])
  {
    var pre, chunk := chunks[..i], chunks[i];
    assert chunks[..i + 1] == pre + [chunk];
    StreamedStep(msgs, botMsgId, earlier, pre, chunk);
    if chunk != "" {
      assert acc + chunk == earlier + (Concat(pre) + chunk);
    }
  }

  // ---------------------------------------------------------------------------
  // The chat

  /** The locals of the send in progress: the reply message's id and the text accumulated so far. */
  datatype Reply = Reply(botMsgId: string, fullText: string)

  datatype ChatView = ChatView(
    lang: Language,
    messages: seq<ChatMessage>,
    input: string,
    isLoading: bool,
    session: Option<string>,
    reply: Option<Reply>)

  class Chat {
    var lang: Language
    var messages: seq<ChatMessage>
    var input: string
    var isLoading: bool
    /** The system instruction of the live chat session; `None` before one is created. */
    var session: Option<string>
    var reply: Option<Reply>

    function View(): ChatView
      reads this
    {
      ChatView(lang, messages, input, isLoading, session, reply)
    }

    /** A send is in progress exactly while the chat is loading, and its reply message is in the list. */
    ghost predicate Valid()
      reads this
    {
      (isLoading <==> reply.Some?)
      && (reply.Some? ==> HasId(messages, reply.value.botMsgId))
    }

    /** A chat showing the welcome message of its language, with no session yet. */
    constructor (lang: Language, welcome: string)
      ensures Valid()
      ensures View() == ChatView(lang, [ChatMessage("0", ModelRole, welcome, false)], "", false, None, None)
    {
      this.lang := lang;
      messages := [ChatMessage("0", ModelRole, welcome, false)];
      input := "";
      isLoading := false;
      session := None;
      reply := None;
    }

    /**
     * The effect run on mount and on every language change: a new session with that language's
     * instruction, and the new language's welcome appended to the history.
     */
    method OpenSession(newLang: Language, welcomeId: string, welcome: string)
      requires Valid()
      modifies this
      ensures Valid() && Grows(old(messages), messages)
      ensures View() == old(View()).(lang := newLang, session := Some(SystemInstruction(newLang)),
                                     messages := old(messages) + [ChatMessage(welcomeId, ModelRole, welcome, false)])
    {
      lang := newLang;
      session := Some(SystemInstruction(newLang));
      ghost var before := messages;
      messages := messages + [ChatMessage(welcomeId, ModelRole, welcome, false)];
      if reply.Some? {
        ghost var k :| 0 <= k < |before| && before[k].id == reply.value.botMsgId;
        assert messages[k] == before[k];
      }
    }

    /** The message input, which is disabled while a reply is loading. */
    method SetInput(text: string)
      requires Valid() && !isLoading
      modifies this
      ensures Valid() && View() == old(View()).(input := text)
    {
      input := text;
    }

    /**
     * `handleSend(textInput)` up to the streaming call. A blank text, a reply in progress or a
     * missing session sends nothing and changes nothing. Otherwise the user's message and then
     * an empty, thinking reply message are appended, the input is cleared, the chat is loading,
     * and the text is returned as the message sent to the session.
     */
    method BeginSend(textInput: string, userMsgId: string, botMsgId: string) returns (request: Option<string>)
      requires Valid()
      modifies this
      ensures Valid() && Grows(old(messages), messages)
      ensures request.Some? <==> !Blank(textInput) && !old(isLoading) && old(session).Some?
      ensures request.None? ==> View() == old(View())
      ensures request.Some? ==>
        request.value == textInput
        && View() == old(View()).(
          messages := old(messages) + [ChatMessage(userMsgId, UserRole, textInput, false),
                                       ChatMessage(botMsgId, ModelRole, "", true)],
          input := "",
          isLoading := true,
          reply := Some(Reply(botMsgId, "")))
    {
      if Blank(textInput) || isLoading || session.None? {
        return None;
      }
      var userMsg := ChatMessage(userMsgId, UserRole, textInput, false);
      var botMsg := ChatMessage(botMsgId, ModelRole, "", true);
      AppendGrows(messages, [userMsg, botMsg]);
      messages := messages + [userMsg, botMsg];
      input := "";
      isLoading := true;
      assert messages[|messages| - 1].id == botMsgId;
      reply := Some(Reply(botMsgId, ""));
      return Some(textInput);
    }

    /**
     * The `for await` loop over the chunks that arrived: every chunk with text is added to the
     * accumulated reply, which the reply message then shows. `shown` is the list the queued
     * per-chunk updates produce; it becomes the chat's list when the stream has been read.
     */
    method ReceiveStream(chunks: seq<string>)
      requires Valid() && reply.Some?
      modifies this
      ensures Valid() && Grows(old(messages), messages)
      ensures View() == old(View()).(
        reply := Some(Reply(old(reply).value.botMsgId, old(reply).value.fullText + Concat(chunks))),
        messages := Streamed(old(messages), old(reply).value.botMsgId, old(reply).value.fullText, chunks))
    {
      var botMsgId := reply.value.botMsgId;
      var earlier := reply.value.fullText;
      var fullResponseText := earlier;
      var shown := messages;
      var i := 0;
      while i < |chunks|
        invariant 0 <= i <= |chunks|
        invariant fullResponseText == earlier + Concat(chunks[..i])
        invariant shown == Streamed(messages, botMsgId, earlier, chunks[..i])
        invariant unchanged(this)
      {
        var text := chunks[i];
        StreamedNext(messages, botMsgId, earlier, chunks, i, fullResponseText, shown);
        if text != "" {
          fullResponseText := fullResponseText + text;
          shown := ShowReply(shown, botMsgId, fullResponseText);
        }
        i := i + 1;
      }
      assert chunks[..|chunks|] == chunks;
      StreamedGrows(messages, botMsgId, earlier, chunks);
      GrowsKeepsId(messages, shown, botMsgId);
      messages := shown;
      reply := Some(Reply(botMsgId, fullResponseText));
    }

    /**
     * The `catch` and `finally` of `handleSend`: on a failure (carrying the error text of the
     * string table) every thinking message shows it; either way loading ends.
     */
    method EndSend(failure: Option<string>)
      requires Valid() && reply.Some?
      modifies this
      ensures Valid() && Grows(old(messages), messages)
      ensures View() == old(View()).(
        messages := if failure.Some? then MarkFailed(old(messages), failure.value) else old(messages),
        isLoading := false,
        reply := None)
    {
      if failure.Some? {
        messages := MarkFailed(messages, failure.value);
      }
      isLoading := false;
      reply := None;
    }
  }
}
