/**
 * `StreamProcessingService`: the per-stream reducer that turns the decoder's updates into
 * edits of the placeholder message and, when the stream completes, one `spendTokens` call.
 *
 * Modelled as written: `processStream` declares `responseMessage` and `lastSentMessage` as
 * constant empty strings and passes them by value to every handler, so the `+=` in
 * `handleStreamUpdate` and the assignment in `updateTelegramMessage` never reach the next
 * update. Each agent-message edit therefore carries only that update's text, and the
 * completion charge is computed on the empty string. The intended accumulating reducer is
 * modelled beside it (`IntendedRun`) for comparison.
 */
module StreamProcessing {
  import opened Wrappers
  import opened Messages
  import Localization
  import JsNumbers
  import Users
  import Assistant

  /** The translation keys the processor uses. The enum file is not part of this model; the
      strings stand in for its values. */
  datatype TranslationKey = TOOL_ANSWER_RECEIVED | TOOL_CALL_INITIATED | ERROR_PROCESSING_MESSAGE {
    function Name(): string {
      match this
      case TOOL_ANSWER_RECEIVED => "TOOL_ANSWER_RECEIVED"
      case TOOL_CALL_INITIATED => "TOOL_CALL_INITIATED"
      case ERROR_PROCESSING_MESSAGE => "ERROR_PROCESSING_MESSAGE"
    }
  }

  /** What the handlers know of the conversation: the chat, the placeholder message being
      edited and the user's language. */
  datatype Session = Session(chatId: int, placeholderMessageId: int, languageCode: Option<string>)

  /** One `editMessageText` call. */
  datatype Edit = Edit(chatId: int, messageId: int, text: string)

  /** One `spendTokens` call. */
  datatype Spend = Spend(userId: string, amount: int, description: string)

  /** How the observable ends: `complete`, `error`, or not (yet) at all. */
  datatype Ending = Completed | Failed | Open

  const SpendDescription := "Message processing"

  /** `calculateActualTokenUsage`: `Math.ceil(responseMessage.length / 4)`. */
  function CalculateActualTokenUsage(responseMessage: string): (r: nat)
    ensures 4 * r >= |responseMessage|
    ensures 4 * (r - 1) < |responseMessage|
  {
    JsNumbers.CeilQuarter(|responseMessage|)
  }

  /** `this.tokenUsage?.totalTokens ?? this.calculateActualTokenUsage(responseMessage)`:
      a reported total wins, including 0; otherwise the length estimate. */
  function TokensToSpend(usage: Option<Usage>, responseMessage: string): (amount: int)
    ensures usage.Some? && usage.value.totalTokens.Some? ==> amount == usage.value.totalTokens.value
    ensures !(usage.Some? && usage.value.totalTokens.Some?) ==>
              amount >= 0 && 4 * amount >= |responseMessage| && 4 * (amount - 1) < |responseMessage|
  {
    if usage.Some? && usage.value.totalTokens.Some? then usage.value.totalTokens.value
    else CalculateActualTokenUsage(responseMessage)
  }

  function KeyText(cat: Localization.Catalog, s: Session, key: TranslationKey): string {
    Localization.Translation(cat, key.Name(), s.languageCode, [])
  }

  /** The edits `handleStreamUpdate` issues for one update, given the `responseMessage` and
      `lastSentMessage` values it is called with. */
  function UpdateEdits(cat: Localization.Catalog, s: Session, u: StreamUpdate,
                       responseMessage: string, lastSentMessage: string): seq<Edit>
  {
    match u
    case AgentMessage(text) =>
      var response := responseMessage + text;
      if response != lastSentMessage then [Edit(s.chatId, s.placeholderMessageId, response)] else []
    case ToolMessage(_) => [Edit(s.chatId, s.placeholderMessageId, KeyText(cat, s, TOOL_ANSWER_RECEIVED))]
    case ToolCall(_) => [Edit(s.chatId, s.placeholderMessageId, KeyText(cat, s, TOOL_CALL_INITIATED))]
    case TokenUsage(_) => []
    case Other(_) => []
  }

  /** `tokenUsage` after one update: a token-usage update overwrites it, nothing else touches it. */
  function UsageAfter(usage: Option<Usage>, u: StreamUpdate): Option<Usage> {
    if u.TokenUsage? then u.usage else usage
  }

  /** The edits of a stream, every handler receiving the `''` captured at subscription. */
  function StreamEdits(cat: Localization.Catalog, s: Session, us: seq<StreamUpdate>): seq<Edit> {
    if us == [] then []
    else StreamEdits(cat, s, us[..|us| - 1]) + UpdateEdits(cat, s, us[|us| - 1], "", "")
  }

  /** `tokenUsage` after a sequence of updates. */
  function FinalUsage(usage: Option<Usage>, us: seq<StreamUpdate>): Option<Usage> {
    if us == [] then usage else UsageAfter(FinalUsage(usage, us[..|us| - 1]), us[|us| - 1])
  }

  function ErrorEdit(cat: Localization.Catalog, s: Session): Edit {
    Edit(s.chatId, s.placeholderMessageId, KeyText(cat, s, ERROR_PROCESSING_MESSAGE))
  }

  class StreamProcessor {
    const catalog: Localization.Catalog
    /** The usage reported during the current stream, if any. */
    var tokenUsage: Option<Usage>
    /** Every `editMessageText` call issued, in order. */
    var edits: seq<Edit>
    /** Every `spendTokens` call issued, in order. */
    var spends: seq<Spend>

    constructor(catalog: Localization.Catalog)
      ensures this.catalog == catalog
      ensures tokenUsage == None && edits == [] && spends == []
    {
      this.catalog := catalog;
      tokenUsage := None;
      edits := [];
      spends := [];
    }

    /** `processStream` together with the subscription callbacks it registers, applied to the
        updates in arrival order and then to the way the stream ended. */
    method ProcessStream(user: Users.User, chatId: int, placeholderMessageId: int,
                         updates: seq<StreamUpdate>, ending: Ending)
      modifies this
      ensures tokenUsage == FinalUsage(None, updates)
      ensures var s := Session(chatId, placeholderMessageId, user.languageCode);
              edits == old(edits) + StreamEdits(catalog, s, updates)
                       + (if ending == Failed then [ErrorEdit(catalog, s)] else [])
      ensures spends == old(spends)
                        + (if ending == Completed
                           then [Spend(user.id, TokensToSpend(FinalUsage(None, updates), ""), SpendDescription)]
                           else [])
    {
      var session := Session(chatId, placeholderMessageId, user.languageCode);
      var responseMessage := "";
      var lastSentMessage := "";
      tokenUsage := None;
      for i := 0 to |updates|
        invariant tokenUsage == FinalUsage(None, updates[..i])
        invariant edits == old(edits) + StreamEdits(catalog, session, updates[..i])
        invariant spends == old(spends)
      {
        HandleStreamUpdate(updates[i], session, responseMessage, lastSentMessage);
        assert updates[..i + 1][..i] == updates[..i];
      }
      assert updates[..|updates|] == updates;
      match ending
      case Completed => HandleStreamComplete(user, responseMessage);
      case Failed => HandleStreamError(session);
      case Open =>
    }

    method HandleStreamUpdate(update: StreamUpdate, s: Session, responseMessage: string, lastSentMessage: string)
      modifies this
      ensures edits == old(edits) + UpdateEdits(catalog, s, update, responseMessage, lastSentMessage)
      ensures tokenUsage == UsageAfter(old(tokenUsage), update)
      ensures spends == old(spends)
    {
      match update
      case AgentMessage(text) =>
        var response := responseMessage + text;
        UpdateTelegramMessage(s, response, lastSentMessage);
      case ToolMessage(_) => SendToolMessage(s, TOOL_ANSWER_RECEIVED);
      case ToolCall(_) => SendToolMessage(s, TOOL_CALL_INITIATED);
      case TokenUsage(usage) => tokenUsage := usage;
      case Other(_) =>
    }

    /** Edits only when the text differs from `lastSentMessage`; the caller's copy of
        `lastSentMessage` is not updated. */
    method UpdateTelegramMessage(s: Session, responseMessage: string, lastSentMessage: string)
      modifies this`edits
      ensures edits == old(edits) + (if responseMessage != lastSentMessage
                                     then [Edit(s.chatId, s.placeholderMessageId, responseMessage)] else [])
    {
      if responseMessage != lastSentMessage {
        edits := edits + [Edit(s.chatId, s.placeholderMessageId, responseMessage)];
      }
    }

    method SendToolMessage(s: Session, key: TranslationKey)
      modifies this`edits
      ensures edits == old(edits) + [Edit(s.chatId, s.placeholderMessageId, KeyText(catalog, s, key))]
    {
      var message := Localization.Translate(catalog, key.Name(), s.languageCode, []);
      edits := edits + [Edit(s.chatId, s.placeholderMessageId, message)];
    }

    method HandleStreamComplete(user: Users.User, responseMessage: string)
      modifies this`spends
      ensures spends == old(spends) + [Spend(user.id, TokensToSpend(tokenUsage, responseMessage), SpendDescription)]
    {
      var tokensToSpend := if tokenUsage.Some? && tokenUsage.value.totalTokens.Some?
                           then tokenUsage.value.totalTokens.value
                           else CalculateActualTokenUsage(responseMessage);
      spends := spends + [Spend(user.id, tokensToSpend, SpendDescription)];
    }

    method HandleStreamError(s: Session)
      modifies this`edits
      ensures edits == old(edits) + [ErrorEdit(catalog, s)]
    {
      var message := Localization.Translate(catalog, ERROR_PROCESSING_MESSAGE.Name(), s.languageCode, []);
      edits := edits + [Edit(s.chatId, s.placeholderMessageId, message)];
    }
  }

  // ---------------------------------------------------------------------------
  // Properties of the reducer as written

  /** The updates that cause an edit as written. */
  predicate IssuesEdit(u: StreamUpdate) {
    (u.AgentMessage? && u.text != "") || u.ToolCall? || u.ToolMessage?
  }

  function EditingUpdates(us: seq<StreamUpdate>): nat {
    if us == [] then 0 else EditingUpdates(us[..|us| - 1]) + (if IssuesEdit(us[|us| - 1]) then 1 else 0)
  }

  /** Exactly one edit per non-empty agent message, per tool call and per tool message; none
      for empty agent messages, token usage or other updates. */
  lemma {:induction false} StreamEditCount(cat: Localization.Catalog, s: Session, us: seq<StreamUpdate>)
    ensures |StreamEdits(cat, s, us)| == EditingUpdates(us)
  {
    if us != [] {
      StreamEditCount(cat, s, us[..|us| - 1]);
    }
  }

  /** Nothing accumulates: every edit shows either a tool status text or exactly the text of
      one single agent message of the stream. */
  lemma {:induction false} EditsCarryOneDelta(cat: Localization.Catalog, s: Session, us: seq<StreamUpdate>)
    ensures forall e :: e in StreamEdits(cat, s, us) ==>
              && e.chatId == s.chatId && e.messageId == s.placeholderMessageId
              && (|| e.text == KeyText(cat, s, TOOL_ANSWER_RECEIVED)
                  || e.text == KeyText(cat, s, TOOL_CALL_INITIATED)
                  || AgentMessage(e.text) in us)
  {
    if us != [] {
      var init := us[..|us| - 1];
      EditsCarryOneDelta(cat, s, init);
      var u := us[|us| - 1];
      if u.AgentMessage? {
        assert "" + u.text == u.text;
      }
      assert StreamEdits(cat, s, us) == StreamEdits(cat, s, init) + UpdateEdits(cat, s, u, "", "");
      forall e | e in StreamEdits(cat, s, init) ensures AgentMessage(e.text) in init ==> AgentMessage(e.text) in us {
        if AgentMessage(e.text) in init {
          var k :| 0 <= k < |init| && init[k] == AgentMessage(e.text);
          assert us[k] == init[k];
        }
      }
      assert us[|us| - 1] in us;
    }
  }

  /** An agent-message edit happens exactly when that message's own text is non-empty. */
  lemma AgentEditIffNonEmpty(cat: Localization.Catalog, s: Session, text: string)
    ensures UpdateEdits(cat, s, AgentMessage(text), "", "") ==
            (if text == "" then [] else [Edit(s.chatId, s.placeholderMessageId, text)])
  {
    assert "" + text == text;
  }

  /** The last token-usage update wins. */
  lemma {:induction false} LastReportedUsageWins(init: Option<Usage>, us: seq<StreamUpdate>, k: nat)
    requires k < |us| && us[k].TokenUsage?
    requires forall j :: k < j < |us| ==> !us[j].TokenUsage?
    ensures FinalUsage(init, us) == us[k].usage
    decreases |us|
  {
    if k < |us| - 1 {
      LastReportedUsageWins(init, us[..|us| - 1], k);
    }
  }

  /** Without a token-usage update, `tokenUsage` keeps the value it started with. */
  lemma {:induction false} UnreportedUsageUnchanged(init: Option<Usage>, us: seq<StreamUpdate>)
    requires forall j :: 0 <= j < |us| ==> !us[j].TokenUsage?
    ensures FinalUsage(init, us) == init
  {
    if us != [] {
      UnreportedUsageUnchanged(init, us[..|us| - 1]);
    }
  }

  /** What completion charges, as written: the last reported total when there is one (0 is
      kept), and otherwise 0, the estimate for the empty response text it receives. */
  lemma CompletionChargeAsWritten(us: seq<StreamUpdate>)
    ensures (forall j :: 0 <= j < |us| ==> !us[j].TokenUsage?) ==> TokensToSpend(FinalUsage(None, us), "") == 0
    ensures forall k :: 0 <= k < |us| && us[k].TokenUsage?
                        && (forall j :: k < j < |us| ==> !us[j].TokenUsage?)
                        && us[k].usage.Some? && us[k].usage.value.totalTokens.Some?
                        ==> TokensToSpend(FinalUsage(None, us), "") == us[k].usage.value.totalTokens.value
  {
    if forall j :: 0 <= j < |us| ==> !us[j].TokenUsage? {
      UnreportedUsageUnchanged(None, us);
    }
    forall k | 0 <= k < |us| && us[k].TokenUsage? && (forall j :: k < j < |us| ==> !us[j].TokenUsage?)
      ensures FinalUsage(None, us) == us[k].usage
    {
      LastReportedUsageWins(None, us, k);
    }
  }

  /** Fed by the decoder, the processor edits once per update and, on completion, charges 0:
      the decoder never emits a token-usage update. */
  lemma DecodedStreamAsWritten(cat: Localization.Catalog, s: Session, p: Assistant.Payload)
    ensures var us := Assistant.UpdateOutputs(p);
            |StreamEdits(cat, s, us)| == |us| && TokensToSpend(FinalUsage(None, us), "") == 0
  {
    var us := Assistant.UpdateOutputs(p);
    Assistant.DecodedUpdatesShape(p);
    AllEditing(us);
    StreamEditCount(cat, s, us);
    CompletionChargeAsWritten(us);
  }

  lemma {:induction false} AllEditing(us: seq<StreamUpdate>)
    requires forall u :: u in us ==> (u.AgentMessage? && u.text != "") || u.ToolCall? || u.ToolMessage?
    ensures EditingUpdates(us) == |us|
    ensures forall j :: 0 <= j < |us| ==> !us[j].TokenUsage?
  {
    if us != [] {
      assert forall u :: u in us[..|us| - 1] ==> u in us;
      AllEditing(us[..|us| - 1]);
      assert us[|us| - 1] in us;
    }
  }

  // ---------------------------------------------------------------------------
  // The reducer the handlers evidently intend

  /** The per-stream state the handlers are written for: the accumulated response, the last
      text pushed to the user and the edits issued. */
  datatype Turn = Turn(response: string, lastSent: string, edits: seq<Edit>)

  function IntendedStep(cat: Localization.Catalog, s: Session, t: Turn, u: StreamUpdate): Turn {
    match u
    case AgentMessage(text) =>
      var response := t.response + text;
      if response != t.lastSent
      then Turn(response, response, t.edits + [Edit(s.chatId, s.placeholderMessageId, response)])
      else t.(response := response)
    case _ => t.(edits := t.edits + UpdateEdits(cat, s, u, "", ""))
  }

  /** The intended reducer over a stream, starting from an empty response. */
  function IntendedRun(cat: Localization.Catalog, s: Session, us: seq<StreamUpdate>): Turn {
    if us == [] then Turn("", "", [])
    else IntendedStep(cat, s, IntendedRun(cat, s, us[..|us| - 1]), us[|us| - 1])
  }

  /** The concatenation of the agent-message texts, in arrival order. */
  function AgentText(us: seq<StreamUpdate>): string {
    if us == [] then ""
    else AgentText(us[..|us| - 1]) + (if us[|us| - 1].AgentMessage? then us[|us| - 1].text else "")
  }

  /** The intended reducer accumulates every agent delta, and the last text pushed is never
      longer than the accumulated one. */
  lemma {:induction false} IntendedAccumulates(cat: Localization.Catalog, s: Session, us: seq<StreamUpdate>)
    ensures IntendedRun(cat, s, us).response == AgentText(us)
    ensures |IntendedRun(cat, s, us).lastSent| <= |IntendedRun(cat, s, us).response|
  {
    if us != [] {
      IntendedAccumulates(cat, s, us[..|us| - 1]);
    }
  }

  /** After a non-empty agent delta, the intended reducer's latest edit shows the whole
      accumulated reply. */
  lemma IntendedPresentsConcatenation(cat: Localization.Catalog, s: Session, us: seq<StreamUpdate>)
    requires us != [] && us[|us| - 1].AgentMessage? && us[|us| - 1].text != ""
    ensures var t := IntendedRun(cat, s, us);
            t.edits != [] && t.edits[|t.edits| - 1] == Edit(s.chatId, s.placeholderMessageId, AgentText(us))
  {
    IntendedAccumulates(cat, s, us[..|us| - 1]);
    IntendedAccumulates(cat, s, us);
  }

  /** The example of a reply streamed as "Hel" then "lo!": as written the placeholder shows
      "Hel" and then "lo!", and completion charges 0 tokens; the intended reducer shows "Hel"
      then "Hello!" and would charge ceil(6/4) = 2. */
  lemma HelloAsWrittenAndIntended(cat: Localization.Catalog, s: Session)
    ensures var us := [AgentMessage("Hel"), AgentMessage("lo!")];
            && StreamEdits(cat, s, us)
               == [Edit(s.chatId, s.placeholderMessageId, "Hel"), Edit(s.chatId, s.placeholderMessageId, "lo!")]
            && TokensToSpend(FinalUsage(None, us), "") == 0
            && IntendedRun(cat, s, us).edits
               == [Edit(s.chatId, s.placeholderMessageId, "Hel"), Edit(s.chatId, s.placeholderMessageId, "Hello!")]
            && TokensToSpend(FinalUsage(None, us), IntendedRun(cat, s, us).response) == 2
  {
    var u1, u2 := AgentMessage("Hel"), AgentMessage("lo!");
    var us := [u1, u2];
    var e1 := Edit(s.chatId, s.placeholderMessageId, "Hel");
    var e2 := Edit(s.chatId, s.placeholderMessageId, "lo!");
    assert us[..1] == [u1];
    assert [u1][..0] == [];
    AgentEditIffNonEmpty(cat, s, "Hel");
    AgentEditIffNonEmpty(cat, s, "lo!");
    assert StreamEdits(cat, s, [u1]) == [e1];
    assert StreamEdits(cat, s, us) == [e1] + [e2];
    assert FinalUsage(None, [u1]) == None;
    assert FinalUsage(None, us) == None;
    var t1 := IntendedRun(cat, s, [u1]);
    assert IntendedRun(cat, s, [u1][..0]) == Turn("", "", []);
    assert "" + "Hel" == "Hel" && |"Hel"| == 3;
    assert t1 == Turn("Hel", "Hel", [e1]);
    assert "Hel" + "lo!" == "Hello!" && |"Hello!"| == 6;
    assert IntendedRun(cat, s, us) == Turn("Hello!", "Hello!", [e1, Edit(s.chatId, s.placeholderMessageId, "Hello!")]);
  }
}
