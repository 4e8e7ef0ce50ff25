/**
 * `BotService`: the command rules around the opaque calls the bot makes. The results of
 * those calls (thread id, token balance, the agent run, Telegram delivery, the rate limiter's
 * verdict, `Number`/`parseInt`) are parameters; the calls the bot issues are returned as
 * records, in the order it issues them.
 */
module Bot {
  import opened Wrappers
  import Text
  import JsNumbers
  import Localization
  import Users
  import TokenTransactions

  /** The configuration the handlers read: translations, the assistant, the environment and
      the token price (`NaN` when the configuration does not define it). */
  datatype BotConfig = BotConfig(
    catalog: Localization.Catalog,
    assistantId: string,
    nodeEnv: string,
    pricePerToken: JsNumbers.JsNumber)

  function Say(cfg: BotConfig, user: Users.User, key: string, params: seq<Localization.Param>): string {
    Localization.Translation(cfg.catalog, key, user.languageCode, params)
  }

  // ---------------------------------------------------------------------------
  // processMessage

  /** The parts of a `runAssistant` result the bot reads. */
  datatype RunMessage = RunMessage(content: string)
  datatype RunUsage = RunUsage(total_tokens: Option<int>)
  datatype RunResult = RunResult(messages: Option<seq<RunMessage>>, usage: Option<RunUsage>)

  /** How `runAssistant` settled: with a result, or rejected (it rethrows any failure of the
      request as `Failed to run assistant`). */
  datatype RunAttempt = Ran(result: RunResult) | RunFailed

  /** A `runAssistant` request: thread, assistant, the user's text and their language. */
  datatype RunRequest = RunRequest(threadId: string, assistantId: string, content: string, languageCode: Option<string>)

  /** A `spendTokens` call. */
  datatype SpendCall = SpendCall(userId: string, amount: int, description: string)

  /** What `processMessage` did: the reply it resolved with (`None` when it rejected), the runs
      it requested and the spends it issued. */
  datatype Outcome = Outcome(reply: Option<string>, runs: seq<RunRequest>, spends: seq<SpendCall>)

  const NoResponse := "Sorry, no response from the assistant."

  /** `estimateTokenUsage`: `Math.ceil(message.length / 4)`. */
  function EstimateTokenUsage(message: string): (r: nat)
    ensures 4 * r >= |message|
    ensures 4 * (r - 1) < |message|
  {
    JsNumbers.CeilQuarter(|message|)
  }

  /** `calculateActualTokenUsage`: the reported total, 0 when the run reports none. */
  function CalculateActualTokenUsage(run: RunResult): (r: int)
    ensures run.usage.None? || run.usage.value.total_tokens.None? ==> r == 0
    ensures run.usage.Some? && run.usage.value.total_tokens.Some? ==> r == run.usage.value.total_tokens.value
  {
    if run.usage.Some? && run.usage.value.total_tokens.Some? then run.usage.value.total_tokens.value else 0
  }

  function ReplyText(run: RunResult): string {
    if run.messages.Some? && |run.messages.value| > 0
    then run.messages.value[|run.messages.value| - 1].content
    else NoResponse
  }

  function SpendDescription(message: string): string {
    "Message processing: " + Text.Prefix(message, 50) + "..."
  }

  /** `processMessage`, given the thread id and balance its two parallel lookups return and how
      the run it requests settles. A failed run rejects the whole call before any spend. */
  function ProcessMessage(cfg: BotConfig, user: Users.User, message: string,
                          threadId: string, balance: int, run: RunAttempt): (o: Outcome)
    ensures o.runs == [] <==> balance < EstimateTokenUsage(message)
    ensures balance < EstimateTokenUsage(message) ==>
              o.reply == Some(Say(cfg, user, "insufficientTokens", [])) && o.spends == []
    ensures balance >= EstimateTokenUsage(message) ==>
              o.runs == [RunRequest(threadId, cfg.assistantId, message, user.languageCode)]
    ensures o.reply.None? <==> balance >= EstimateTokenUsage(message) && run.RunFailed?
    ensures o.spends != [] <==> balance >= EstimateTokenUsage(message) && run.Ran?
    ensures balance >= EstimateTokenUsage(message) && run.Ran? ==>
              o.spends == [SpendCall(user.id, CalculateActualTokenUsage(run.result), SpendDescription(message))]
    ensures balance >= EstimateTokenUsage(message) && run.Ran?
            && run.result.messages.Some? && |run.result.messages.value| > 0 ==>
              o.reply == Some(run.result.messages.value[|run.result.messages.value| - 1].content)
    ensures balance >= EstimateTokenUsage(message) && run.Ran?
            && (run.result.messages.None? || run.result.messages.value == []) ==>
              o.reply == Some(NoResponse)
  {
    if balance < EstimateTokenUsage(message) then
      Outcome(Some(Say(cfg, user, "insufficientTokens", [])), [], [])
    else
      var request := [RunRequest(threadId, cfg.assistantId, message, user.languageCode)];
      match run
      case RunFailed => Outcome(None, request, [])
      case Ran(result) =>
        Outcome(Some(ReplyText(result)), request,
                [SpendCall(user.id, CalculateActualTokenUsage(result), SpendDescription(message))])
  }

  /** The spend description quotes at most the first 50 characters of the message, followed
      by `...`. */
  lemma SpendDescriptionQuotesMessage(message: string)
    ensures var d := SpendDescription(message);
            && Text.StartsWith(d, "Message processing: ")
            && |d| == |"Message processing: "| + (if |message| < 50 then |message| else 50) + 3
            && Text.StartsWith(message, d[|"Message processing: "|..|d| - 3])
            && d[|d| - 3..] == "..."
  {
    var d := SpendDescription(message);
    var p := Text.Prefix(message, 50);
    assert d == "Message processing: " + p + "...";
    assert d[..|"Message processing: "|] == "Message processing: ";
    assert d[|"Message processing: "|..|d| - 3] == p;
    assert d[|d| - 3..] == "...";
  }

  // ---------------------------------------------------------------------------
  // onMessage

  const ThrottledReply := "You are sending messages too quickly. Please wait a moment and try again."
  const Placeholder := "..."

  /** `onMessage`: throttled by the rate limiter, or relayed through a `"..."` placeholder
      that is then edited into the reply. `edit` is `None` when the handler rejects before
      editing: a message without text (`ctx.message['text']` is undefined, so the estimate's
      `.length` throws) or a failed run. */
  datatype MessageOutcome =
    | Throttled(reply: string)
    | Relayed(placeholder: string, edit: Option<string>, processed: Outcome)

  function DevSuffix(processingTime: int): string {
    "\n\nResponse time: " + JsNumbers.IntToString(processingTime) + "ms"
  }

  /** `text` is the message's text, `None` for a message that has none. */
  function OnMessage(cfg: BotConfig, admitted: bool, user: Users.User, text: Option<string>,
                     threadId: string, balance: int, run: RunAttempt, processingTime: int): (o: MessageOutcome)
    ensures o.Throttled? <==> !admitted
    ensures o.Throttled? ==> o.reply == ThrottledReply
    ensures o.Relayed? ==> o.placeholder == Placeholder
    ensures o.Relayed? && text.None? ==>
              o.edit.None? && o.processed.runs == [] && o.processed.spends == []
    ensures o.Relayed? && text.Some? ==>
              && o.processed == ProcessMessage(cfg, user, text.value, threadId, balance, run)
              && (o.edit.Some? <==> o.processed.reply.Some?)
              && (o.edit.Some? ==>
                    && Text.StartsWith(o.edit.value, o.processed.reply.value)
                    && (cfg.nodeEnv == "development" ==>
                          o.edit.value == o.processed.reply.value + DevSuffix(processingTime))
                    && (cfg.nodeEnv == "development" <==> |o.edit.value| > |o.processed.reply.value|)
                    && (cfg.nodeEnv != "development" ==> o.edit.value == o.processed.reply.value))
  {
    if !admitted then Throttled(ThrottledReply)
    else if text.None? then Relayed(Placeholder, None, Outcome(None, [], []))
    else
      var processed := ProcessMessage(cfg, user, text.value, threadId, balance, run);
      match processed.reply
      case None => Relayed(Placeholder, None, processed)
      case Some(response) =>
        var responseText := if cfg.nodeEnv == "development" then response + DevSuffix(processingTime)
                            else response;
        assert responseText[..|response|] == response;
        Relayed(Placeholder, Some(responseText), processed)
  }

  // ---------------------------------------------------------------------------
  // buyTokens and onSuccessfulPayment

  datatype Price = Price(labelText: string, amount: JsNumbers.JsNumber)

  datatype Invoice = Invoice(
    title: string,
    description: string,
    payload: string,
    providerToken: string,
    currency: string,
    prices: seq<Price>)

  datatype BuyReply = UsageHint(text: string) | InvoiceReply(invoice: Invoice)

  /** `Number(s)` is `NaN`. */
  type NumberIsNaN = string -> bool
  /** `parseInt(s)`. */
  type ParseInt = string -> JsNumbers.JsNumber

  /** The invoice payload `buy_tokens_${id}_${amount}`. */
  function InvoicePayload(userId: string, amount: JsNumbers.JsNumber): string {
    "buy_tokens_" + userId + "_" + JsNumbers.ToString(amount)
  }

  function InvoiceFor(cfg: BotConfig, user: Users.User, amount: JsNumbers.JsNumber): Invoice {
    var shown := JsNumbers.ToString(amount);
    Invoice(Say(cfg, user, "buyTokensTitle", []),
            Say(cfg, user, "buyTokensDescription", [Localization.Param("amount", shown)]),
            InvoicePayload(user.id, amount),
            "",
            "XTR",
            [Price(shown + " tokens", JsNumbers.Mul(amount, cfg.pricePerToken))])
  }

  /** `buyTokens`: the usage hint unless the text is exactly two space-separated parts and
      the second is numeric; otherwise an invoice for `parseInt` of it. */
  function BuyTokens(cfg: BotConfig, user: Users.User, text: string,
                     isNaN: NumberIsNaN, parseInt: ParseInt): (r: BuyReply)
    ensures var args := Text.Split(text, " ");
            r.UsageHint? <==> |args| != 2 || isNaN(args[1])
    ensures r.UsageHint? ==> r.text == Say(cfg, user, "buyTokensUsage", [])
    ensures r.InvoiceReply? ==>
              var amount := parseInt(Text.Split(text, " ")[1]);
              && r.invoice.payload == InvoicePayload(user.id, amount)
              && |r.invoice.prices| == 1
              && r.invoice.prices[0].amount == JsNumbers.Mul(amount, cfg.pricePerToken)
              && r.invoice.currency == "XTR"
  {
    var args := Text.Split(text, " ");
    if |args| != 2 || isNaN(args[1]) then UsageHint(Say(cfg, user, "buyTokensUsage", []))
    else InvoiceReply(InvoiceFor(cfg, user, parseInt(args[1])))
  }

  /** What `onSuccessfulPayment` did: the `addTokens` calls and the reply. The reply is
      missing when the ids differ, and also when the payload has no amount part: formatting
      the success message then calls `toString` on `undefined`, which throws after the
      tokens were added. */
  datatype AddCall = AddCall(userId: string, amount: JsNumbers.JsNumber, description: string)
  datatype PaymentOutcome = PaymentOutcome(credits: seq<AddCall>, reply: Option<string>)

  const PurchaseDescription := "Token purchase"

  function OnSuccessfulPayment(cfg: BotConfig, user: Users.User, invoicePayload: string,
                               parseInt: ParseInt): (o: PaymentOutcome)
    ensures var parts := Text.Split(invoicePayload, "_");
            o.credits != [] <==> |parts| > 2 && parts[2] == user.id
    ensures o.credits != [] ==> |o.credits| == 1 && o.credits[0].userId == user.id
    ensures o.reply.Some? ==> o.credits != []
  {
    var parts := Text.Split(invoicePayload, "_");
    if |parts| > 2 && parts[2] == user.id then
      var amount := if |parts| > 3 then parseInt(parts[3]) else JsNumbers.NaN;
      var credit := AddCall(user.id, amount, PurchaseDescription);
      if |parts| > 3 then
        PaymentOutcome([credit], Some(Say(cfg, user, "buyTokensSuccess", [Localization.Param("amount", parts[3])])))
      else
        PaymentOutcome([credit], None)
    else PaymentOutcome([], None)
  }

  /** Four fields free of `'_'` joined by `'_'` split back into those fields. */
  lemma SplitFourFields(a: string, b: string, c: string, d: string)
    requires forall k :: 0 <= k < |a| ==> a[k] != '_'
    requires forall k :: 0 <= k < |b| ==> b[k] != '_'
    requires forall k :: 0 <= k < |c| ==> c[k] != '_'
    requires forall k :: 0 <= k < |d| ==> d[k] != '_'
    ensures Text.Split(a + "_" + (b + "_" + (c + "_" + d)), "_") == [a, b, c, d]
  {
    var fields := [a, b, c, d];
    assert "_" == ['_'];
    assert [c, d][1..] == [d];
    assert Text.Join([c, d], "_") == c + "_" + d;
    assert [b, c, d][1..] == [c, d];
    assert Text.Join([b, c, d], "_") == b + "_" + (c + "_" + d);
    assert fields[1..] == [b, c, d];
    Text.SplitJoinOnChar(fields, '_');
  }

  lemma PayloadWords()
    ensures forall k :: 0 <= k < |"buy"| ==> "buy"[k] != '_'
    ensures forall k :: 0 <= k < |"tokens"| ==> "tokens"[k] != '_'
  {
    assert "buy" == ['b', 'u', 'y'];
    assert "tokens" == ['t', 'o', 'k', 'e', 'n', 's'];
  }

  lemma PayloadShape(userId: string, shown: string)
    ensures "buy_tokens_" + userId + "_" + shown == "buy" + "_" + ("tokens" + "_" + (userId + "_" + shown))
  {
    assert "buy_tokens_" == "buy" + "_" + "tokens" + "_";
  }

  /** The payload round trip: for an id without `'_'`, splitting the payload on `'_'` gives
      back the id at index 2 and the rendered amount at index 3. */
  lemma PayloadRoundTrip(userId: string, amount: JsNumbers.JsNumber)
    requires forall k :: 0 <= k < |userId| ==> userId[k] != '_'
    ensures Text.Split(InvoicePayload(userId, amount), "_")
            == ["buy", "tokens", userId, JsNumbers.ToString(amount)]
  {
    var shown := JsNumbers.ToString(amount);
    JsNumbers.RenderingHasNoUnderscore(amount);
    PayloadWords();
    PayloadShape(userId, shown);
    SplitFourFields("buy", "tokens", userId, shown);
  }

  /** Paying the invoice the bot issued credits the buyer with `parseInt` of the rendered
      amount and confirms it. */
  lemma BuyerIsCredited(cfg: BotConfig, user: Users.User, amount: JsNumbers.JsNumber, parseInt: ParseInt)
    requires forall k :: 0 <= k < |user.id| ==> user.id[k] != '_'
    ensures var o := OnSuccessfulPayment(cfg, user, InvoicePayload(user.id, amount), parseInt);
            var shown := JsNumbers.ToString(amount);
            && o.credits == [AddCall(user.id, parseInt(shown), PurchaseDescription)]
            && o.reply == Some(Say(cfg, user, "buyTokensSuccess", [Localization.Param("amount", shown)]))
  {
    PayloadRoundTrip(user.id, amount);
  }

  /** A payment whose payload names another user credits nobody and says nothing. */
  lemma OtherBuyerIsIgnored(cfg: BotConfig, user: Users.User, buyerId: string,
                            amount: JsNumbers.JsNumber, parseInt: ParseInt)
    requires forall k :: 0 <= k < |buyerId| ==> buyerId[k] != '_'
    requires buyerId != user.id
    ensures OnSuccessfulPayment(cfg, user, InvoicePayload(buyerId, amount), parseInt) == PaymentOutcome([], None)
  {
    PayloadRoundTrip(buyerId, amount);
  }

  /** A `/buy_tokens` argument that `Number` accepts but `parseInt` does not, such as `.5`
      (`Number(".5")` is 0.5, `parseInt(".5")` is `NaN`), passes the check and yields an
      invoice for `NaN` tokens at a `NaN` price, with `NaN` as the payload's amount. */
  lemma NaNAmountSlipsThrough(cfg: BotConfig, user: Users.User, arg: string,
                              isNaN: NumberIsNaN, parseInt: ParseInt)
    requires forall k :: 0 <= k < |arg| ==> arg[k] != ' '
    requires !isNaN(arg) && parseInt(arg) == JsNumbers.NaN
    ensures var r := BuyTokens(cfg, user, BuyCommand + " " + arg, isNaN, parseInt);
            && r.InvoiceReply?
            && r.invoice.prices[0].amount == JsNumbers.NaN
            && r.invoice.payload == InvoicePayload(user.id, JsNumbers.NaN)
  {
    CommandWord();
    SplitCommand(BuyCommand, arg);
  }

  const BuyCommand := "/buy_tokens"

  lemma CommandWord()
    ensures forall k :: 0 <= k < |BuyCommand| ==> BuyCommand[k] != ' '
  {
    assert BuyCommand == ['/', 'b', 'u', 'y', '_', 't', 'o', 'k', 'e', 'n', 's'];
  }

  lemma SplitCommand(command: string, arg: string)
    requires forall k :: 0 <= k < |command| ==> command[k] != ' '
    requires forall k :: 0 <= k < |arg| ==> arg[k] != ' '
    ensures Text.Split(command + " " + arg, " ") == [command, arg]
  {
    Text.SplitOnCharWithout(arg, ' ');
    Text.SplitOnCharAfter(command, ' ', arg);
  }

  /** The argument check as evidently intended: the amount `parseInt` yields must be a
      number as well. */
  function BuyTokensChecked(cfg: BotConfig, user: Users.User, text: string,
                            isNaN: NumberIsNaN, parseInt: ParseInt): (r: BuyReply)
    ensures var args := Text.Split(text, " ");
            r.UsageHint? <==> |args| != 2 || isNaN(args[1]) || parseInt(args[1]).NaN?
    ensures r.InvoiceReply? ==> r == BuyTokens(cfg, user, text, isNaN, parseInt)
  {
    var args := Text.Split(text, " ");
    if |args| != 2 || isNaN(args[1]) || parseInt(args[1]).NaN? then UsageHint(Say(cfg, user, "buyTokensUsage", []))
    else InvoiceReply(InvoiceFor(cfg, user, parseInt(args[1])))
  }

  /** With the corrected check, an issued invoice is always for a number of tokens: the
      payload carries no `NaN` amount, and the price is a number whenever the configured
      price is. */
  lemma CheckedInvoiceIsNumeric(cfg: BotConfig, user: Users.User, text: string, isNaN: NumberIsNaN, parseInt: ParseInt)
    requires forall k :: 0 <= k < |user.id| ==> user.id[k] != '_'
    ensures var r := BuyTokensChecked(cfg, user, text, isNaN, parseInt);
            r.InvoiceReply? ==>
              && (cfg.pricePerToken.Int? ==> r.invoice.prices[0].amount.Int?)
              && var parts := Text.Split(r.invoice.payload, "_");
                 |parts| == 4 && parts[2] == user.id && parts[3] != "NaN"
  {
    var r := BuyTokensChecked(cfg, user, text, isNaN, parseInt);
    if r.InvoiceReply? {
      var amount := parseInt(Text.Split(text, " ")[1]);
      PayloadRoundTrip(user.id, amount);
    }
  }

  // ---------------------------------------------------------------------------
  // sendBulkMessage

  const BatchSize := 100

  /** A `sendMessage` call. */
  datatype Send = Send(chatId: int, text: string)

  datatype BulkOutcome = BulkOutcome(sends: seq<Send>, sentCount: nat, reply: string)

  /** `text.split('/bulk ')[1]` when it is truthy. */
  function BulkText(text: string): (r: Option<string>)
    ensures r.Some? ==> r.value != "" && Text.Contains(text, "/bulk ")
    ensures r.Some? <==> |Text.Split(text, "/bulk ")| >= 2 && Text.Split(text, "/bulk ")[1] != ""
    ensures r.Some? ==> r.value == Text.Split(text, "/bulk ")[1]
  {
    var parts := Text.Split(text, "/bulk ");
    if |parts| >= 2 && parts[1] != "" then
      TwoPartsMeanSeparator(text, "/bulk ");
      Some(parts[1])
    else None
  }

  /** `/bulk ` followed by a non-empty text that does not itself contain `/bulk ` broadcasts
      exactly that text. */
  lemma BulkCommandText(message: string)
    requires message != "" && !Text.Contains(message, "/bulk ")
    ensures BulkText("/bulk " + message) == Some(message)
  {
    assert "/bulk " + message == "" + "/bulk " + message;
    Text.SplitAfterPrefix("", "/bulk ", message);
    Text.SplitWithout(message, "/bulk ");
  }

  lemma TwoPartsMeanSeparator(s: string, sep: string)
    requires sep != "" && |Text.Split(s, sep)| >= 2
    ensures Text.Contains(s, sep)
  {
    if !Text.Contains(s, sep) {
      Text.SplitWithout(s, sep);
    }
  }

  /** One send per user, in order. */
  function BulkSends(users: seq<Users.User>, message: string): (r: seq<Send>)
    ensures |r| == |users|
    ensures forall k :: 0 <= k < |users| ==> r[k] == Send(users[k].telegramId, message)
  {
    seq(|users|, k requires 0 <= k < |users| => Send(users[k].telegramId, message))
  }

  lemma BulkSendsSnoc(users: seq<Users.User>, u: Users.User, message: string)
    ensures BulkSends(users + [u], message) == BulkSends(users, message) + [Send(u.telegramId, message)]
  {
    assert forall k :: 0 <= k < |users| ==> (users + [u])[k] == users[k];
  }

  /** The number of the first `n` sends that Telegram accepted. */
  function DeliveredCount(n: nat, delivered: nat -> bool): (c: nat)
    ensures c <= n
  {
    if n == 0 then 0 else DeliveredCount(n - 1, delivered) + (if delivered(n - 1) then 1 else 0)
  }

  /** `sendBulkMessage`: admins only; every stored user receives the text once, batch by batch
      and in order; the reply reports how many sends succeeded out of how many users. `users`
      is what `getAllUsers` returns: every document, administrators included, since the type
      the bot passes is ignored. `delivered(k)` says whether the send to the k-th user succeeded. */
  method SendBulkMessage(cfg: BotConfig, admin: Users.User, text: string,
                         users: seq<Users.User>, delivered: nat -> bool) returns (o: BulkOutcome)
    ensures admin.userType != Some(Users.ADMIN) ==>
              o.sends == [] && o.reply == Say(cfg, admin, "adminOnly", [])
    ensures admin.userType == Some(Users.ADMIN) && BulkText(text).None? ==>
              o.sends == [] && o.reply == Say(cfg, admin, "bulkMessageUsage", [])
    ensures admin.userType == Some(Users.ADMIN) && BulkText(text).Some? ==>
              && o.sends == BulkSends(users, BulkText(text).value)
              && o.sentCount == DeliveredCount(|users|, delivered)
              && o.reply == Say(cfg, admin, "bulkMessageSent",
                                [Localization.Param("sentCount", JsNumbers.IntToString(o.sentCount)),
                                 Localization.Param("totalCount", JsNumbers.IntToString(|users|))])
  {
    if admin.userType != Some(Users.ADMIN) {
      return BulkOutcome([], 0, Say(cfg, admin, "adminOnly", []));
    }
    var message := BulkText(text);
    if message.None? {
      return BulkOutcome([], 0, Say(cfg, admin, "bulkMessageUsage", []));
    }
    var sends, sentCount := SendInBatches(users, message.value, delivered);
    var reply := Say(cfg, admin, "bulkMessageSent",
                     [Localization.Param("sentCount", JsNumbers.IntToString(sentCount)),
                      Localization.Param("totalCount", JsNumbers.IntToString(|users|))]);
    return BulkOutcome(sends, sentCount, reply);
  }

  /** The `for` loop of `sendBulkMessage`: slices of 100 users, one send per user of the
      slice, counting the sends that succeed. */
  method SendInBatches(users: seq<Users.User>, message: string, delivered: nat -> bool)
    returns (sends: seq<Send>, sentCount: nat)
    ensures sends == BulkSends(users, message)
    ensures sentCount == DeliveredCount(|users|, delivered)
  {
    sends := [];
    sentCount := 0;
    var i := 0;
    while i < |users|
      invariant i <= |users| || (|sends| == |users| && sentCount == DeliveredCount(|users|, delivered))
      invariant i <= |users| ==> |sends| == i && sentCount == DeliveredCount(i, delivered)
      invariant forall k :: 0 <= k < |sends| ==> sends[k] == Send(users[k].telegramId, message)
      decreases |users| - i
    {
      var end := if i + BatchSize < |users| then i + BatchSize else |users|;
      var batch := users[i..end];
      for j := 0 to |batch|
        invariant |sends| == i + j && sentCount == DeliveredCount(i + j, delivered)
        invariant forall k :: 0 <= k < |sends| ==> sends[k] == Send(users[k].telegramId, message)
      {
        sends := sends + [Send(batch[j].telegramId, message)];
        if delivered(i + j) {
          sentCount := sentCount + 1;
        }
      }
      i := i + BatchSize;
    }
  }

  // ---------------------------------------------------------------------------
  // checkBalance

  const HistoryLength := 5

  /** One history line: `\n`, the sign of the transaction type, the amount, ` - `, the description. */
  function TransactionLine(t: TokenTransactions.TokenTransaction): string {
    "\n" + (if t.transactionType == TokenTransactions.ADD then "+" else "-")
    + JsNumbers.ToString(t.amount) + " - " + t.description
  }

  /** The history lines of the transactions, in order. */
  function HistoryLines(ts: seq<TokenTransactions.TokenTransaction>): string {
    if ts == [] then "" else TransactionLine(ts[0]) + HistoryLines(ts[1..])
  }

  /** `transactions.slice(0, 5)`. */
  function Recent(ts: seq<TokenTransactions.TokenTransaction>): (r: seq<TokenTransactions.TokenTransaction>)
    ensures |r| <= HistoryLength && r <= ts
    ensures |ts| <= HistoryLength ==> r == ts
  {
    if |ts| <= HistoryLength then ts else ts[..HistoryLength]
  }

  function BalanceHeader(cfg: BotConfig, user: Users.User, balance: int): string {
    Say(cfg, user, "currentBalance", [Localization.Param("balance", JsNumbers.IntToString(balance))])
    + "\n\n" + Say(cfg, user, "recentTransactions", [])
  }

  /** `checkBalance`: the balance line, the history heading, then one line for each of the
      first five transactions of the history. */
  method CheckBalance(cfg: BotConfig, user: Users.User, balance: int,
                      transactions: seq<TokenTransactions.TokenTransaction>) returns (message: string)
    ensures message == BalanceHeader(cfg, user, balance) + HistoryLines(Recent(transactions))
  {
    var header := BalanceHeader(cfg, user, balance);
    message := AppendHistory(header, Recent(transactions));
  }

  /** The `for ... of` loop of `checkBalance`: one line per transaction, appended in order. */
  method AppendHistory(header: string, recent: seq<TokenTransactions.TokenTransaction>) returns (message: string)
    ensures message == header + HistoryLines(recent)
  {
    message := header;
    for i := 0 to |recent|
      invariant message + HistoryLines(recent[i..]) == header + HistoryLines(recent)
    {
      HistoryLinesFrom(recent, i);
      message := message + TransactionLine(recent[i]);
    }
    assert recent[|recent|..] == [];
  }

  lemma HistoryLinesFrom(ts: seq<TokenTransactions.TokenTransaction>, i: nat)
    requires i < |ts|
    ensures HistoryLines(ts[i..]) == TransactionLine(ts[i]) + HistoryLines(ts[i + 1..])
  {
    assert ts[i..][1..] == ts[i + 1..];
  }

  /** The history shows the first five transactions and no others: appending more
      transactions after five changes nothing. */
  lemma {:induction false} OnlyFiveShown(ts: seq<TokenTransactions.TokenTransaction>,
                                         more: seq<TokenTransactions.TokenTransaction>)
    requires |ts| >= HistoryLength
    ensures HistoryLines(Recent(ts + more)) == HistoryLines(Recent(ts))
  {
    assert Recent(ts + more) == ts[..HistoryLength];
    assert Recent(ts) == ts[..HistoryLength];
  }

  /** The history text is the lines of the shown transactions one after another. */
  lemma {:induction false} HistoryLinesAppend(ts: seq<TokenTransactions.TokenTransaction>,
                                              us: seq<TokenTransactions.TokenTransaction>)
    ensures HistoryLines(ts + us) == HistoryLines(ts) + HistoryLines(us)
  {
    if ts == [] {
      assert ts + us == us;
    } else {
      assert (ts + us)[1..] == ts[1..] + us;
      HistoryLinesAppend(ts[1..], us);
    }
  }

  /** Each line starts on a new line with `+` for a credit and `-` for a debit. */
  lemma LineShowsSign(t: TokenTransactions.TokenTransaction)
    ensures var line := TransactionLine(t);
            |line| >= 2 && line[0] == '\n' && (line[1] == '+' <==> t.transactionType == TokenTransactions.ADD)
            && (line[1] == '-' <==> t.transactionType == TokenTransactions.SPEND)
  {
  }

  // ---------------------------------------------------------------------------
  // onInlineQuery

  const InlinePrompt := "Type in search your request"
  const InlineTitle := "AI Response"
  const PreviewLength := 100

  /** The single article `onInlineQuery` answers with. */
  datatype Article = Article(id: string, title: string, description: Option<string>, messageText: string)

  /** What `onInlineQuery` does: the article it answers with, if it answers, and what its
      `processMessage` call did, if it makes one. */
  datatype InlineOutcome = InlineOutcome(answer: Option<Article>, processed: Option<Outcome>)

  /** `onInlineQuery`: a prompt for an empty query; otherwise the query goes through
      `processMessage` (balance check, run and spend, without the rate limiter of `onMessage`)
      and the reply is answered with a description cut to its first 100 characters and marked
      with `...`. A rejected `processMessage` answers nothing. */
  function OnInlineQuery(cfg: BotConfig, user: Users.User, query: string,
                         threadId: string, balance: int, run: RunAttempt): (o: InlineOutcome)
    ensures query == "" ==>
              o == InlineOutcome(Some(Article("1", InlinePrompt, None, InlinePrompt)), None)
    ensures query != "" ==>
              && o.processed == Some(ProcessMessage(cfg, user, query, threadId, balance, run))
              && (o.answer.Some? <==> o.processed.value.reply.Some?)
    ensures query != "" && o.answer.Some? ==>
              var reply := o.processed.value.reply.value;
              && o.answer.value.title == InlineTitle
              && o.answer.value.messageText == reply
              && (|reply| <= PreviewLength ==> o.answer.value.description == Some(reply + "..."))
              && (|reply| > PreviewLength ==>
                    o.answer.value.description == Some(reply[..PreviewLength] + "..."))
  {
    if query == "" then InlineOutcome(Some(Article("1", InlinePrompt, None, InlinePrompt)), None)
    else
      var processed := ProcessMessage(cfg, user, query, threadId, balance, run);
      match processed.reply
      case None => InlineOutcome(None, Some(processed))
      case Some(reply) =>
        var description := Text.Prefix(reply, PreviewLength) + "...";
        InlineOutcome(Some(Article("1", InlineTitle, Some(description), reply)), Some(processed))
  }
}
