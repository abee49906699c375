/** The decision logic of `TelegramMessenger` and `TelegramService`: the scan
    for the last outgoing message, the send gate with its minimum interval,
    the two-counter batch loop of `send_message_to_partners` and the
    connect-failure result of `send_messages`. The Telegram channel (connect,
    `get_entity`, `get_messages`, `send_message`) is given as inputs; time is
    whole seconds. */
module TelegramBot {
  import opened Wrappers
  import opened PyStr
  import opened Partners
  import opened TelegramIdentifier

  /** A chat message as `get_messages` reports it: sent by us or not, and its date. */
  datatype Message = Message(out: bool, date: int)

  /** `get_messages(entity, limit=50)`. */
  const HISTORY_LIMIT := 50

  /** The newest `HISTORY_LIMIT` messages of a chat given newest first. */
  function Fetched(history: seq<Message>): seq<Message> {
    if |history| <= HISTORY_LIMIT then history else history[..HISTORY_LIMIT]
  }

  /** Message i is the first one in `ms` that we sent. */
  predicate IsFirstOutgoing(ms: seq<Message>, i: int) {
    0 <= i < |ms| && ms[i].out && forall j :: 0 <= j < i ==> !ms[j].out
  }

  /** The date of the first outgoing message of `ms`, if there is one. */
  function FirstOutgoingDate(ms: seq<Message>): (r: Option<int>)
    ensures r.None? <==> forall i :: 0 <= i < |ms| ==> !ms[i].out
    ensures r.Some? ==> exists i :: IsFirstOutgoing(ms, i) && ms[i].date == r.value
  {
    if ms == [] then None
    else if ms[0].out then
      assert IsFirstOutgoing(ms, 0);
      Some(ms[0].date)
    else
      var r := FirstOutgoingDate(ms[1..]);
      assert forall i :: 0 < i < |ms| ==> ms[i] == ms[1..][i - 1];
      if r.Some? then
        var i :| IsFirstOutgoing(ms[1..], i) && ms[1..][i].date == r.value;
        assert IsFirstOutgoing(ms, i + 1);
        r
      else r
  }

  /** What the scan finds once the identifier is parsed: the date of the first outgoing
      message among the fetched ones, None when fetching raised. */
  function HistoryTime(history: Option<seq<Message>>): Option<int> {
    if history.None? then None else FirstOutgoingDate(Fetched(history.value))
  }

  /** What `get_last_outgoing_message_time(username)` returns. `clientSet` says whether
      a client is connected; `history` is the chat newest first, or None when
      `get_entity` or `get_messages` raises. The identifier is parsed outside the
      `try`, so its ValueError escapes. */
  function LastOutgoing(clientSet: bool, username: string, history: Option<seq<Message>>): (r: Result<Option<int>>)
    ensures r.Err? <==> clientSet && ParseTelegramIdentifier(username).Err?
    ensures r.Err? ==> r.error == INVALID_INT
    ensures r.Ok? && clientSet ==> r.value == HistoryTime(history)
    ensures !clientSet || history.None? ==> r.Ok? ==> r.value.None?
    ensures r.Ok? && r.value.Some? ==>
              history.Some? && exists i :: i < HISTORY_LIMIT && IsFirstOutgoing(history.value, i) && history.value[i].date == r.value.value
    ensures r.Ok? && r.value.None? && history.Some? && clientSet ==>
              forall i :: 0 <= i < |history.value| && i < HISTORY_LIMIT ==> !history.value[i].out
  {
    if !clientSet then Ok(None)
    else match ParseTelegramIdentifier(username)
      case Err(e) => Err(e)
      case Ok(_) =>
        if history.None? then Ok(None)
        else
          var ms := Fetched(history.value);
          assert forall i :: 0 <= i < |ms| ==> ms[i] == history.value[i];
          Ok(HistoryTime(history))
  }

  /** `get_last_outgoing_message_time`: the scan over the fetched messages with early return. */
  method GetLastOutgoingMessageTime(clientSet: bool, username: string, history: Option<seq<Message>>)
    returns (r: Result<Option<int>>)
    ensures r == LastOutgoing(clientSet, username, history)
  {
    if !clientSet {
      return Ok(None);
    }
    var parsed := ParseTelegramIdentifier(username);
    if parsed.Err? {
      return Err(parsed.error);
    }
    if history.None? {
      return Ok(None);
    }
    var messages := Fetched(history.value);
    var i := 0;
    while i < |messages|
      invariant 0 <= i <= |messages|
      invariant FirstOutgoingDate(messages[i..]) == FirstOutgoingDate(messages)
    {
      assert messages[i..][1..] == messages[i + 1..];
      if messages[i].out {
        return Ok(Some(messages[i].date));
      }
      i := i + 1;
    }
    return Ok(None);
  }

  // ---------------------------------------------------------------- the send gate

  datatype Reason = Sent | TooSoon | SendFailed | ConnectionFailed

  /** The dict `send_message_with_time_check_async` returns; a key it does not set is None. */
  datatype SendResult = SendResult(
    sent: bool,
    reason: Reason,
    secondsSinceLast: Option<int>,
    minRequired: Option<int>,
    lastMsgTime: Option<int>)

  /** One `client.send_message(entity, text)` issued to the parsed identifier. */
  datatype Delivery = Delivery(to: TelegramId, text: string)

  /** What the Telegram side does during one gate call: whether `connect` succeeds,
      the chat history (None when fetching it raises), the clock when the interval is
      checked, whether the send goes through, and the clock just after it. */
  datatype Channel = Channel(
    connects: bool,
    history: Option<seq<Message>>,
    checkedAt: int,
    sendSucceeds: bool,
    sentAt: int)

  /** The gate's result together with the send it issued, if any. */
  datatype GateOutcome = GateOutcome(result: SendResult, attempt: Option<Delivery>)

  const CONNECTION_FAILED := SendResult(false, ConnectionFailed, None, None, None)

  /** The gate once connected and the identifier parsed to `to`: `last` is the time of
      the last outgoing message, if any. */
  function GateDecision(last: Option<int>, to: TelegramId, message: string, minSeconds: int, ch: Channel): (o: GateOutcome)
    ensures o.attempt.Some? <==> (o.result.reason == Sent || o.result.reason == SendFailed)
    ensures o.result.sent <==> o.result.reason == Sent
    ensures o.result.reason == TooSoon <==> last.Some? && ch.checkedAt - last.value < minSeconds
    ensures o.result.reason == TooSoon ==>
              o.result == SendResult(false, TooSoon, Some(ch.checkedAt - last.value), Some(minSeconds), last)
    ensures o.attempt.Some? ==>
              o.attempt.value == Delivery(to, message) && o.result.sent == ch.sendSucceeds &&
              o.result.lastMsgTime == (if ch.sendSucceeds then Some(ch.sentAt) else None)
  {
    if last.Some? && ch.checkedAt - last.value < minSeconds then
      GateOutcome(SendResult(false, TooSoon, Some(ch.checkedAt - last.value), Some(minSeconds), last), None)
    else
      var success := ch.sendSucceeds;
      GateOutcome(
        SendResult(success, if success then Sent else SendFailed, None, None, if success then Some(ch.sentAt) else None),
        Some(Delivery(to, message)))
  }

  /** `send_message_with_time_check_async(user_id, message, min_seconds)`. */
  function SendWithTimeCheck(userId: string, message: string, minSeconds: int, ch: Channel): (r: Result<GateOutcome>)
    ensures !ch.connects ==> r == Ok(GateOutcome(CONNECTION_FAILED, None))
    ensures r.Err? <==> ch.connects && ParseTelegramIdentifier(userId).Err?
    ensures r.Ok? ==> (r.value.attempt.Some? <==> (r.value.result.reason == Sent || r.value.result.reason == SendFailed))
    ensures r.Ok? ==> (r.value.result.sent <==> r.value.result.reason == Sent)
    ensures r.Ok? && r.value.result.reason == TooSoon ==>
              var last := HistoryTime(ch.history);
              last.Some? && ch.checkedAt - last.value < minSeconds &&
              r.value.result == SendResult(false, TooSoon, Some(ch.checkedAt - last.value), Some(minSeconds), last)
    ensures r.Ok? && r.value.attempt.Some? ==>
              r.value.attempt.value == Delivery(ParseTelegramIdentifier(userId).value, message) &&
              r.value.result.sent == ch.sendSucceeds &&
              r.value.result.lastMsgTime == (if ch.sendSucceeds then Some(ch.sentAt) else None)
  {
    if !ch.connects then Ok(GateOutcome(CONNECTION_FAILED, None))
    else match ParseTelegramIdentifier(userId)
      // the parse at the head of `get_last_outgoing_message_time` raises through the gate
      case Err(e) => Err(e)
      case Ok(to) => Ok(GateDecision(HistoryTime(ch.history), to, message, minSeconds, ch))
  }

  /** A previous outgoing message less than `minSeconds` old stops the send. */
  lemma GateTooSoon(userId: string, message: string, minSeconds: int, ch: Channel, i: nat)
    requires ch.connects && ParseTelegramIdentifier(userId).Ok?
    requires ch.history.Some? && i < HISTORY_LIMIT && IsFirstOutgoing(ch.history.value, i)
    requires ch.checkedAt - ch.history.value[i].date < minSeconds
    ensures var d := ch.history.value[i].date;
            SendWithTimeCheck(userId, message, minSeconds, ch) ==
              Ok(GateOutcome(SendResult(false, TooSoon, Some(ch.checkedAt - d), Some(minSeconds), Some(d)), None))
  {
    HistoryTimeAt(ch.history.value, i);
    GateTooSoonAt(userId, message, minSeconds, ch, ch.history.value[i].date);
  }

  lemma GateTooSoonAt(userId: string, message: string, minSeconds: int, ch: Channel, d: int)
    requires ch.connects && ParseTelegramIdentifier(userId).Ok?
    requires HistoryTime(ch.history) == Some(d) && ch.checkedAt - d < minSeconds
    ensures SendWithTimeCheck(userId, message, minSeconds, ch) ==
            Ok(GateOutcome(SendResult(false, TooSoon, Some(ch.checkedAt - d), Some(minSeconds), Some(d)), None))
  {
    GateOnParsed(userId, message, minSeconds, ch);
  }

  /** Once connected, a parsed identifier leads to the decision on the fetched history. */
  lemma GateOnParsed(userId: string, message: string, minSeconds: int, ch: Channel)
    requires ch.connects && ParseTelegramIdentifier(userId).Ok?
    ensures SendWithTimeCheck(userId, message, minSeconds, ch) ==
            Ok(GateDecision(HistoryTime(ch.history), ParseTelegramIdentifier(userId).value, message, minSeconds, ch))
  {
  }

  lemma HistoryTimeAt(h: seq<Message>, i: nat)
    requires i < HISTORY_LIMIT && IsFirstOutgoing(h, i)
    ensures HistoryTime(Some(h)) == Some(h[i].date)
  {
    var ms := Fetched(h);
    assert IsFirstOutgoing(ms, i);
    FirstOutgoingUnique(ms, i);
  }

  /** Without an outgoing message among the fetched ones, or when it is at least
      `minSeconds` old, exactly one send is issued and its outcome is reported. */
  lemma GateSends(userId: string, message: string, minSeconds: int, ch: Channel)
    requires ch.connects && ParseTelegramIdentifier(userId).Ok?
    requires var last := HistoryTime(ch.history);
             last.None? || ch.checkedAt - last.value >= minSeconds
    ensures var success := ch.sendSucceeds;
            SendWithTimeCheck(userId, message, minSeconds, ch) ==
              Ok(GateOutcome(
                SendResult(success, if success then Sent else SendFailed, None, None, if success then Some(ch.sentAt) else None),
                Some(Delivery(ParseTelegramIdentifier(userId).value, message))))
  {
    GateOnParsed(userId, message, minSeconds, ch);
  }

  /** The interval check is strict: a message exactly `minSeconds` old lets the send
      through, one a second younger does not. */
  lemma GateBoundary(userId: string, message: string, minSeconds: int, ch: Channel, d: int)
    requires ch.connects && ParseTelegramIdentifier(userId).Ok?
    requires ch.history == Some([Message(true, d)])
    ensures ch.checkedAt == d + minSeconds ==>
              SendWithTimeCheck(userId, message, minSeconds, ch).value.result.reason != TooSoon
    ensures ch.checkedAt == d + minSeconds - 1 ==>
              SendWithTimeCheck(userId, message, minSeconds, ch).value.result.reason == TooSoon
  {
    assert FirstOutgoingDate([Message(true, d)]) == Some(d);
    GateOnParsed(userId, message, minSeconds, ch);
  }

  /** Sending again right after a successful send is refused: once the sent message
      heads the chat history, a check less than `minSeconds` later is too soon. */
  lemma ResendIsTooSoon(userId: string, message: string, minSeconds: int, ch1: Channel, ch2: Channel, older: seq<Message>)
    requires SendWithTimeCheck(userId, message, minSeconds, ch1).Ok?
    requires SendWithTimeCheck(userId, message, minSeconds, ch1).value.result.sent
    requires ch2.connects
    requires ch2.history == Some([Message(true, ch1.sentAt)] + older)
    requires ch2.checkedAt - ch1.sentAt < minSeconds
    ensures SendWithTimeCheck(userId, message, minSeconds, ch2).Ok?
    ensures SendWithTimeCheck(userId, message, minSeconds, ch2).value.result.reason == TooSoon
    ensures SendWithTimeCheck(userId, message, minSeconds, ch2).value.attempt.None?
  {
    var h := [Message(true, ch1.sentAt)] + older;
    assert IsFirstOutgoing(h, 0);
    GateTooSoon(userId, message, minSeconds, ch2, 0);
  }

  lemma {:induction false} FirstOutgoingUnique(ms: seq<Message>, i: int)
    requires IsFirstOutgoing(ms, i)
    ensures FirstOutgoingDate(ms) == Some(ms[i].date)
    decreases |ms|
  {
    if i > 0 {
      assert IsFirstOutgoing(ms[1..], i - 1);
      FirstOutgoingUnique(ms[1..], i - 1);
    }
  }

  // ---------------------------------------------------------------- send_message_to_partners

  /** The `{'success': .., 'failed': ..}` dict. */
  datatype Counts = Counts(success: nat, failed: nat)

  /** `message_template or DEFAULT_MESSAGE_TEMPLATE`. */
  function ChosenTemplate(messageTemplate: Option<string>, defaultTemplate: string): (r: string)
    ensures Truthy(messageTemplate) ==> r == messageTemplate.value
    ensures !Truthy(messageTemplate) ==> r == defaultTemplate
  {
    if Truthy(messageTemplate) then messageTemplate.value else defaultTemplate
  }

  /** The loop's state after some partners: the counters, the sends issued, the sleeps
      taken, and the exception that ended the loop, if one did. */
  datatype Batch = Batch(counts: Counts, deliveries: seq<Delivery>, sleeps: nat, raised: Option<string>)

  /** One iteration for `partner`; `ok` is whether its send goes through. */
  function BatchStep(b: Batch, message: string, delaySeconds: int, partner: Partner, ok: bool): Batch {
    if b.raised.Some? then b
    else if !Truthy(partner.telegramTag) then b.(counts := b.counts.(failed := b.counts.failed + 1))
    else match ParseTelegramIdentifier(partner.telegramTag.value)
      case Err(e) => b.(raised := Some(e))
      case Ok(to) =>
        Batch(
          if ok then b.counts.(success := b.counts.success + 1) else b.counts.(failed := b.counts.failed + 1),
          b.deliveries + [Delivery(to, Render(message, NameOf(partner)))],
          if delaySeconds > 0 then b.sleeps + 1 else b.sleeps,
          None)
  }

  /** The loop over `partners`, one iteration after another. */
  function BatchRun(partners: seq<Partner>, message: string, delaySeconds: int, sendOk: seq<bool>): Batch
    requires |sendOk| == |partners|
  {
    if partners == [] then Batch(Counts(0, 0), [], 0, None)
    else
      var n := |partners| - 1;
      BatchStep(BatchRun(partners[..n], message, delaySeconds, sendOk[..n]), message, delaySeconds, partners[n], sendOk[n])
  }

  /** `send_message_to_partners(partners, message_template, delay_seconds)`; `sendOk[i]` is
      whether the send to partner i goes through. Returns the counters (or the exception
      that escaped), the sends issued and the number of sleeps. */
  method SendMessageToPartners(
    clientSet: bool, partners: seq<Partner>, messageTemplate: Option<string>, defaultTemplate: string,
    delaySeconds: int, sendOk: seq<bool>)
    returns (r: Result<Counts>, deliveries: seq<Delivery>, sleeps: nat)
    requires |sendOk| == |partners|
    ensures !clientSet ==> r == Ok(Counts(0, 0)) && deliveries == [] && sleeps == 0
    ensures clientSet ==>
              var b := BatchRun(partners, ChosenTemplate(messageTemplate, defaultTemplate), delaySeconds, sendOk);
              deliveries == b.deliveries && sleeps == b.sleeps &&
              r == if b.raised.Some? then Err(b.raised.value) else Ok(b.counts)
  {
    if !clientSet {
      return Ok(Counts(0, 0)), [], 0;
    }
    var message := ChosenTemplate(messageTemplate, defaultTemplate);
    var success, failed := 0, 0;
    deliveries, sleeps := [], 0;
    var i := 0;
    while i < |partners|
      invariant 0 <= i <= |partners|
      invariant BatchRun(partners[..i], message, delaySeconds, sendOk[..i]) ==
                Batch(Counts(success, failed), deliveries, sleeps, None)
    {
      var partner := partners[i];
      BatchRunSnoc(partners, message, delaySeconds, sendOk, i);
      if !Truthy(partner.telegramTag) {
        failed := failed + 1;
        i := i + 1;
        continue;
      }
      var personalized := Render(message, NameOf(partner));
      var to := ParseTelegramIdentifier(partner.telegramTag.value);
      if to.Err? {
        RaisedSticks(partners, i + 1, message, delaySeconds, sendOk);
        return Err(to.error), deliveries, sleeps;
      }
      deliveries := deliveries + [Delivery(to.value, personalized)];
      if sendOk[i] {
        success := success + 1;
      } else {
        failed := failed + 1;
      }
      if delaySeconds > 0 {
        sleeps := sleeps + 1;
      }
      i := i + 1;
    }
    assert partners[..i] == partners && sendOk[..i] == sendOk;
    return Ok(Counts(success, failed)), deliveries, sleeps;
  }

  lemma BatchRunSnoc(partners: seq<Partner>, message: string, delaySeconds: int, sendOk: seq<bool>, i: nat)
    requires |sendOk| == |partners| && i < |partners|
    ensures BatchRun(partners[..i + 1], message, delaySeconds, sendOk[..i + 1]) ==
            BatchStep(BatchRun(partners[..i], message, delaySeconds, sendOk[..i]), message, delaySeconds, partners[i], sendOk[i])
  {
    assert partners[..i + 1][..i] == partners[..i];
    assert sendOk[..i + 1][..i] == sendOk[..i];
  }

  /** Once an exception has escaped, the later partners change nothing. */
  lemma {:induction false} RaisedSticks(partners: seq<Partner>, k: nat, message: string, delaySeconds: int, sendOk: seq<bool>)
    requires |sendOk| == |partners| && k <= |partners|
    requires BatchRun(partners[..k], message, delaySeconds, sendOk[..k]).raised.Some?
    ensures BatchRun(partners, message, delaySeconds, sendOk) == BatchRun(partners[..k], message, delaySeconds, sendOk[..k])
    decreases |partners| - k
  {
    if k < |partners| {
      var n := |partners| - 1;
      assert partners[..k + 1][..k] == partners[..k];
      assert sendOk[..k + 1][..k] == sendOk[..k];
      RaisedSticks(partners, k + 1, message, delaySeconds, sendOk);
    } else {
      assert partners[..k] == partners && sendOk[..k] == sendOk;
    }
  }

  /** The number of partners with a truthy `telegram_tag`. */
  function TaggedCount(partners: seq<Partner>): nat {
    if partners == [] then 0
    else TaggedCount(partners[..|partners| - 1]) + if Truthy(partners[|partners| - 1].telegramTag) then 1 else 0
  }

  /** The number of tagged partners whose send goes through. */
  function TaggedOkCount(partners: seq<Partner>, sendOk: seq<bool>): nat
    requires |sendOk| == |partners|
  {
    if partners == [] then 0
    else
      var n := |partners| - 1;
      TaggedOkCount(partners[..n], sendOk[..n]) + if Truthy(partners[n].telegramTag) && sendOk[n] then 1 else 0
  }

  /** Every partner lands in exactly one counter; one send per tagged partner, none for
      the others; the successes are the tagged partners whose send goes through; and a
      sleep follows each send exactly when the delay is positive. */
  lemma {:induction false} BatchAccounting(partners: seq<Partner>, message: string, delaySeconds: int, sendOk: seq<bool>)
    requires |sendOk| == |partners|
    ensures var b := BatchRun(partners, message, delaySeconds, sendOk);
            b.sleeps == (if delaySeconds > 0 then |b.deliveries| else 0) &&
            (b.raised.None? ==>
               b.counts.success + b.counts.failed == |partners| &&
               |b.deliveries| == TaggedCount(partners) &&
               b.counts.success == TaggedOkCount(partners, sendOk))
  {
    if partners != [] {
      var n := |partners| - 1;
      BatchAccounting(partners[..n], message, delaySeconds, sendOk[..n]);
    }
  }

  /** The message for each partner is the chosen template with its name filled in, sent
      to its parsed tag; an untagged partner only adds a failure. */
  lemma BatchStepOutcomes(b: Batch, message: string, delaySeconds: int, partner: Partner, ok: bool)
    requires b.raised.None?
    ensures !Truthy(partner.telegramTag) ==>
              BatchStep(b, message, delaySeconds, partner, ok) == b.(counts := Counts(b.counts.success, b.counts.failed + 1))
    ensures Truthy(partner.telegramTag) && ParseTelegramIdentifier(partner.telegramTag.value).Ok? ==>
              var b' := BatchStep(b, message, delaySeconds, partner, ok);
              b'.deliveries == b.deliveries + [Delivery(ParseTelegramIdentifier(partner.telegramTag.value).value, Render(message, NameOf(partner)))] &&
              b'.counts == (if ok then Counts(b.counts.success + 1, b.counts.failed) else Counts(b.counts.success, b.counts.failed + 1)) &&
              b'.raised.None?
    ensures Truthy(partner.telegramTag) && ParseTelegramIdentifier(partner.telegramTag.value).Err? ==>
              BatchStep(b, message, delaySeconds, partner, ok) == b.(raised := Some(INVALID_INT))
  {
  }

  /** A batch of untagged partners fails every partner and sends nothing. */
  lemma {:induction false} UntaggedBatch(partners: seq<Partner>, message: string, delay: int, sendOk: seq<bool>)
    requires |sendOk| == |partners|
    requires forall k :: 0 <= k < |partners| ==> !Truthy(partners[k].telegramTag)
    ensures BatchRun(partners, message, delay, sendOk) == Batch(Counts(0, |partners|), [], 0, None)
  {
    if partners != [] {
      var n := |partners| - 1;
      UntaggedBatch(partners[..n], message, delay, sendOk[..n]);
    }
  }

  /** `TelegramService.send_messages(partners, message, delay)`: a failed connect reports
      every partner as failed and sends nothing; otherwise the batch runs connected. */
  method SendMessages(connects: bool, partners: seq<Partner>, message: Option<string>, defaultTemplate: string,
                      delay: int, sendOk: seq<bool>)
    returns (r: Result<Counts>, deliveries: seq<Delivery>, sleeps: nat)
    requires |sendOk| == |partners|
    ensures !connects ==> r == Ok(Counts(0, |partners|)) && deliveries == [] && sleeps == 0
    ensures connects ==>
              var b := BatchRun(partners, ChosenTemplate(message, defaultTemplate), delay, sendOk);
              deliveries == b.deliveries && sleeps == b.sleeps &&
              r == if b.raised.Some? then Err(b.raised.value) else Ok(b.counts)
  {
    if !connects {
      return Ok(Counts(0, |partners|)), [], 0;
    }
    r, deliveries, sleeps := SendMessageToPartners(true, partners, message, defaultTemplate, delay, sendOk);
  }
}
