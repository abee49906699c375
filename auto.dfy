/** `AutoMessenger` and `Auto` from the automatic follow-up script: the
    four-counter loop over the filtered partners, the coercion of the follow-up
    date, and `Auto.main`, which runs every partner with a link through
    `message_single_user` and records a follow-up date for each. The partner
    repository is the record of update calls it receives. */
module Auto {
  import opened Wrappers
  import opened PyStr
  import opened Partners
  import opened TelegramIdentifier
  import opened TelegramBot

  // ---------------------------------------------------------------- update_partner_followup_date

  const SECONDS_PER_DAY := 86400

  /** The `set_datetime` argument: None, a UTC datetime (seconds since the epoch)
      or a date (days since the epoch). Datetimes and dates are always truthy. */
  datatype Stamp = NoStamp | DateTimeStamp(seconds: int) | DateStamp(day: int)

  /** The `set_date` handed to the repository: `x.date()` for a datetime, a date as
      it is, None for None. */
  function FollowupDate(stamp: Stamp): (d: Option<int>)
    ensures stamp.NoStamp? <==> d.None?
    ensures stamp.DateTimeStamp? ==> d.value * SECONDS_PER_DAY <= stamp.seconds < (d.value + 1) * SECONDS_PER_DAY
    ensures stamp.DateStamp? ==> d == Some(stamp.day)
  {
    match stamp
    case NoStamp => None
    case DateTimeStamp(t) => Some(t / SECONDS_PER_DAY)
    case DateStamp(day) => Some(day)
  }

  /** `result.get('last_msg_time')` as a `set_datetime` argument. */
  function StampOf(lastMsgTime: Option<int>): Stamp {
    if lastMsgTime.Some? then DateTimeStamp(lastMsgTime.value) else NoStamp
  }

  /** Coercing an already coerced date changes nothing. */
  lemma FollowupDateIdempotent(stamp: Stamp)
    requires stamp != NoStamp
    ensures FollowupDate(DateStamp(FollowupDate(stamp).value)) == FollowupDate(stamp)
  {
  }

  /** One `update_last_contacted(partner_id, set_date=...)` call; None leaves the date to the repository (today). */
  datatype FollowupUpdate = FollowupUpdate(partnerId: int, setDate: Option<int>)

  // ---------------------------------------------------------------- send_messages_to_filtered_partners

  /** The four-counter `results` dict. */
  datatype AutoCounts = AutoCounts(sent: nat, skippedNoTelegram: nat, skippedTooSoon: nat, failed: nat)

  /** One `send_message_with_time_check(telegram_link, message, ...)` call. */
  datatype GateCall = GateCall(link: string, text: string)

  /** The loop's state after some partners: the four counters, gate calls, follow-up
      updates, sleeps, and the exception that ended the loop, if one did. */
  datatype AutoState = AutoState(
    sent: nat, skippedNoTelegram: nat, skippedTooSoon: nat, failed: nat,
    calls: seq<GateCall>, updates: seq<FollowupUpdate>, sleeps: nat, raised: Option<string>)

  const AUTO_START := AutoState(0, 0, 0, 0, [], [], 0, None)

  /** The `results` dict of a state. */
  function ResultsOf(st: AutoState): AutoCounts {
    AutoCounts(st.sent, st.skippedNoTelegram, st.skippedTooSoon, st.failed)
  }

  /** The message for one partner: the template with `{name}` filled in, or a greeting when there is no template. */
  function AutoMessage(messageTemplate: Option<string>, name: string): string {
    if Truthy(messageTemplate) then Render(messageTemplate.value, name) else "Hello " + name + "!"
  }

  /** One iteration for `partner`; `g` is the gate's answer to its call, read only when
      the partner has a link. */
  function AutoStep(st: AutoState, messageTemplate: Option<string>, delay: int, partner: Partner,
                    g: Result<GateOutcome>): AutoState
  {
    if st.raised.Some? then st
    else if !Truthy(partner.telegramLink) then
      st.(skippedNoTelegram := st.skippedNoTelegram + 1)
    else
      var calls := st.calls + [GateCall(partner.telegramLink.value, AutoMessage(messageTemplate, NameOf(partner)))];
      match g
      case Err(e) => st.(calls := calls, raised := Some(e))
      case Ok(outcome) =>
        var res := outcome.result;
        var sleeps := if delay > 0 then st.sleeps + 1 else st.sleeps;
        if res.sent then
          st.(sent := st.sent + 1, calls := calls, sleeps := sleeps,
              updates := st.updates + [FollowupUpdate(partner.id, FollowupDate(StampOf(res.lastMsgTime)))])
        else if res.reason == TooSoon then
          st.(skippedTooSoon := st.skippedTooSoon + 1, calls := calls, sleeps := sleeps)
        else
          st.(failed := st.failed + 1, calls := calls, sleeps := sleeps)
  }

  /** The loop over the filtered partners, one iteration after another, `answers[i]`
      being the gate's answer for partner i. */
  function AutoFold(partners: seq<Partner>, messageTemplate: Option<string>, delay: int,
                    answers: seq<Result<GateOutcome>>): AutoState
    requires |answers| == |partners|
  {
    if partners == [] then AUTO_START
    else
      var n := |partners| - 1;
      AutoStep(AutoFold(partners[..n], messageTemplate, delay, answers[..n]), messageTemplate, delay,
               partners[n], answers[n])
  }

  /** What `send_message_with_time_check` answers for the partner's link and message on
      the channel `ch`; for a partner without a link it is the answer to an empty link,
      which the loop does not read. */
  function GateAnswer(partner: Partner, messageTemplate: Option<string>, minInterval: int, ch: Channel)
    : Result<GateOutcome>
  {
    SendWithTimeCheck(partner.telegramLink.GetOr(""), AutoMessage(messageTemplate, NameOf(partner)), minInterval, ch)
  }

  function GateAnswers(partners: seq<Partner>, messageTemplate: Option<string>, minInterval: int,
                       channels: seq<Channel>): (gs: seq<Result<GateOutcome>>)
    requires |channels| == |partners|
    ensures |gs| == |partners|
  {
    seq(|partners|, i requires 0 <= i < |partners| => GateAnswer(partners[i], messageTemplate, minInterval, channels[i]))
  }

  /** The loop over the filtered partners, the gate meeting `channels[i]` for partner i. */
  function AutoRun(partners: seq<Partner>, messageTemplate: Option<string>, delay: int, minInterval: int,
                   channels: seq<Channel>): AutoState
    requires |channels| == |partners|
  {
    AutoFold(partners, messageTemplate, delay, GateAnswers(partners, messageTemplate, minInterval, channels))
  }

  /** `send_messages_to_filtered_partners` over the partners the filter kept, in order;
      `channels[i]` is what the Telegram side does for partner i. */
  method SendMessagesToFilteredPartners(
    filteredPartners: seq<Partner>, messageTemplate: Option<string>, delayBetweenMessages: int,
    minMessageInterval: int, channels: seq<Channel>)
    returns (r: Result<AutoCounts>, calls: seq<GateCall>, updates: seq<FollowupUpdate>, sleeps: nat)
    requires |channels| == |filteredPartners|
    ensures var st := AutoRun(filteredPartners, messageTemplate, delayBetweenMessages, minMessageInterval, channels);
            calls == st.calls && updates == st.updates && sleeps == st.sleeps &&
            r == if st.raised.Some? then Err(st.raised.value) else Ok(ResultsOf(st))
  {
    ghost var answers := GateAnswers(filteredPartners, messageTemplate, minMessageInterval, channels);
    var st := AUTO_START;
    var i := 0;
    while i < |filteredPartners|
      invariant 0 <= i <= |filteredPartners|
      invariant AutoFold(filteredPartners[..i], messageTemplate, delayBetweenMessages, answers[..i]) == st
      invariant st.raised.None?
    {
      AutoFoldSnoc(filteredPartners, messageTemplate, delayBetweenMessages, answers, i);
      st := Visit(st, messageTemplate, delayBetweenMessages, minMessageInterval, filteredPartners[i], channels[i]);
      assert answers[i] == GateAnswer(filteredPartners[i], messageTemplate, minMessageInterval, channels[i]);
      if st.raised.Some? {
        AutoRaisedSticks(filteredPartners, i + 1, messageTemplate, delayBetweenMessages, answers);
        return Err(st.raised.value), st.calls, st.updates, st.sleeps;
      }
      i := i + 1;
    }
    assert filteredPartners[..i] == filteredPartners && answers[..i] == answers;
    return Ok(ResultsOf(st)), st.calls, st.updates, st.sleeps;
  }

  /** The loop body for one partner: a partner without a link is counted as
      `skipped_no_telegram`; otherwise the gate call, then the counter its answer
      increments, the follow-up update of a sent message and the sleep. An exception from
      the gate is recorded in `raised`. */
  method Visit(st: AutoState, messageTemplate: Option<string>, delayBetweenMessages: int,
               minMessageInterval: int, partner: Partner, ch: Channel) returns (st': AutoState)
    requires st.raised.None?
    ensures st' == AutoStep(st, messageTemplate, delayBetweenMessages, partner,
                            GateAnswer(partner, messageTemplate, minMessageInterval, ch))
  {
    if !Truthy(partner.telegramLink) {
      return st.(skippedNoTelegram := st.skippedNoTelegram + 1);
    }
    var link := partner.telegramLink.value;
    var message := AutoMessage(messageTemplate, NameOf(partner));
    st' := st.(calls := st.calls + [GateCall(link, message)]);
    var result := SendWithTimeCheck(link, message, minMessageInterval, ch);
    if result.Err? {
      return st'.(raised := Some(result.error));
    }
    var res := result.value.result;
    if res.sent {
      st' := st'.(sent := st'.sent + 1,
                  updates := st'.updates + [FollowupUpdate(partner.id, FollowupDate(StampOf(res.lastMsgTime)))]);
    } else if res.reason == TooSoon {
      st' := st'.(skippedTooSoon := st'.skippedTooSoon + 1);
    } else {
      st' := st'.(failed := st'.failed + 1);
    }
    if delayBetweenMessages > 0 {
      st' := st'.(sleeps := st'.sleeps + 1);
    }
  }

  lemma AutoFoldSnoc(partners: seq<Partner>, messageTemplate: Option<string>, delay: int,
                     answers: seq<Result<GateOutcome>>, i: nat)
    requires |answers| == |partners| && i < |partners|
    ensures AutoFold(partners[..i + 1], messageTemplate, delay, answers[..i + 1]) ==
            AutoStep(AutoFold(partners[..i], messageTemplate, delay, answers[..i]), messageTemplate, delay,
                     partners[i], answers[i])
  {
    assert partners[..i + 1][..i] == partners[..i];
    assert answers[..i + 1][..i] == answers[..i];
  }

  /** Once an exception has escaped, the later partners change nothing. */
  lemma {:induction false} AutoRaisedSticks(partners: seq<Partner>, k: nat, messageTemplate: Option<string>,
                                            delay: int, answers: seq<Result<GateOutcome>>)
    requires |answers| == |partners| && k <= |partners|
    requires AutoFold(partners[..k], messageTemplate, delay, answers[..k]).raised.Some?
    ensures AutoFold(partners, messageTemplate, delay, answers) ==
            AutoFold(partners[..k], messageTemplate, delay, answers[..k])
    decreases |partners| - k
  {
    if k < |partners| {
      assert partners[..k + 1][..k] == partners[..k];
      assert answers[..k + 1][..k] == answers[..k];
      AutoRaisedSticks(partners, k + 1, messageTemplate, delay, answers);
    } else {
      assert partners[..k] == partners && answers[..k] == answers;
    }
  }

  /** The number of partners with a truthy `telegramLinkPrimaryLinkUrl`. */
  function LinkedCount(partners: seq<Partner>): nat {
    if partners == [] then 0
    else LinkedCount(partners[..|partners| - 1]) + if Truthy(partners[|partners| - 1].telegramLink) then 1 else 0
  }

  function Total(st: AutoState): nat {
    st.sent + st.skippedNoTelegram + st.skippedTooSoon + st.failed
  }

  /** The accounting of a loop state after `n` partners of which `linked` have a link:
      one follow-up update per sent message and, unless an exception ended the loop,
      each partner incremented exactly one counter, the unlinked ones are exactly the
      `skipped_no_telegram` ones and cost no gate call, and a sleep follows each gate
      call when the delay is positive. */
  predicate Accounted(st: AutoState, delay: int, n: nat, linked: nat) {
    |st.updates| == st.sent &&
    (st.raised.None? ==>
       Total(st) == n && st.skippedNoTelegram + linked == n &&
       |st.calls| == linked && st.sleeps == (if delay > 0 then |st.calls| else 0))
  }

  /** Whatever the gate answers, the loop over all partners is accounted for. */
  lemma {:induction false} AutoAccounting(partners: seq<Partner>, messageTemplate: Option<string>, delay: int,
                                          answers: seq<Result<GateOutcome>>)
    requires |answers| == |partners|
    ensures Accounted(AutoFold(partners, messageTemplate, delay, answers), delay, |partners|, LinkedCount(partners))
  {
    if partners == [] {
      assert AutoFold(partners, messageTemplate, delay, answers) == AUTO_START;
    } else {
      var n := |partners| - 1;
      AutoAccounting(partners[..n], messageTemplate, delay, answers[..n]);
      var st := AutoFold(partners[..n], messageTemplate, delay, answers[..n]);
      assert AutoFold(partners, messageTemplate, delay, answers) ==
             AutoStep(st, messageTemplate, delay, partners[n], answers[n]);
      assert LinkedCount(partners) == LinkedCount(partners[..n]) + if Truthy(partners[n].telegramLink) then 1 else 0;
      AutoStepAccounting(st, messageTemplate, delay, partners[n], answers[n], n, LinkedCount(partners[..n]));
    }
  }

  /** One iteration keeps the accounting, counting the partner. */
  lemma AutoStepAccounting(st: AutoState, messageTemplate: Option<string>, delay: int, partner: Partner,
                           g: Result<GateOutcome>, n: nat, linked: nat)
    requires Accounted(st, delay, n, linked)
    ensures Accounted(AutoStep(st, messageTemplate, delay, partner, g), delay, n + 1,
                      linked + if Truthy(partner.telegramLink) then 1 else 0)
  {
  }

  /** What one partner does to the loop state, branch by branch. */
  lemma AutoStepOutcomes(st: AutoState, messageTemplate: Option<string>, delay: int, minInterval: int,
                         partner: Partner, ch: Channel)
    requires st.raised.None?
    ensures var st' := AutoStep(st, messageTemplate, delay, partner, GateAnswer(partner, messageTemplate, minInterval, ch));
            !Truthy(partner.telegramLink) ==>
              st' == st.(skippedNoTelegram := st.skippedNoTelegram + 1)
    ensures var st' := AutoStep(st, messageTemplate, delay, partner, GateAnswer(partner, messageTemplate, minInterval, ch));
            var msg := AutoMessage(messageTemplate, NameOf(partner));
            Truthy(partner.telegramLink) ==>
              var g := SendWithTimeCheck(partner.telegramLink.value, msg, minInterval, ch);
              st'.calls == st.calls + [GateCall(partner.telegramLink.value, msg)] &&
              (g.Err? ==> st'.raised == Some(g.error) && ResultsOf(st') == ResultsOf(st) && st'.updates == st.updates) &&
              (g.Ok? && g.value.result.sent ==>
                 ResultsOf(st') == ResultsOf(st).(sent := st.sent + 1) &&
                 st'.updates == st.updates + [FollowupUpdate(partner.id, FollowupDate(DateTimeStamp(ch.sentAt)))]) &&
              (g.Ok? && !g.value.result.sent ==> st'.updates == st.updates) &&
              (g.Ok? && g.value.result.reason == TooSoon ==>
                 ResultsOf(st') == ResultsOf(st).(skippedTooSoon := st.skippedTooSoon + 1)) &&
              (g.Ok? && (g.value.result.reason == SendFailed || g.value.result.reason == ConnectionFailed) ==>
                 ResultsOf(st') == ResultsOf(st).(failed := st.failed + 1))
  {
    if Truthy(partner.telegramLink) {
      var msg := AutoMessage(messageTemplate, NameOf(partner));
      var g := SendWithTimeCheck(partner.telegramLink.value, msg, minInterval, ch);
      assert GateAnswer(partner, messageTemplate, minInterval, ch) == g;
      if g.Ok? && g.value.result.sent {
        assert g.value.result.lastMsgTime == Some(ch.sentAt);
      }
    }
  }

  /** The channel of a second run right after a first one sent: the sent message
      heads the chat history and less than `minInterval` has passed. */
  predicate ResentSoon(first: Channel, second: Channel, minInterval: int) {
    second.connects && second.history.Some? && |second.history.value| > 0 &&
    second.history.value[0] == Message(true, first.sentAt) &&
    second.checkedAt - first.sentAt < minInterval
  }

  /** The gate lets every linked partner through in the first run. */
  predicate AllSent(partners: seq<Partner>, messageTemplate: Option<string>, minInterval: int, channels: seq<Channel>)
    requires |channels| == |partners|
  {
    forall i :: 0 <= i < |partners| && Truthy(partners[i].telegramLink) ==>
      var g := SendWithTimeCheck(partners[i].telegramLink.value, AutoMessage(messageTemplate, NameOf(partners[i])),
                                 minInterval, channels[i]);
      g.Ok? && g.value.result.sent
  }

  /** Running the loop twice in a row: the first run sends to every linked partner and
      records a follow-up for each; the second run, inside the interval, sends nothing,
      skips every linked partner as too soon and records no follow-up. */
  lemma SecondRunSkipsAll(partners: seq<Partner>, messageTemplate: Option<string>, delay: int,
                          minInterval: int, first: seq<Channel>, second: seq<Channel>)
    requires |first| == |partners| && |second| == |partners|
    requires AllSent(partners, messageTemplate, minInterval, first)
    requires forall i :: 0 <= i < |partners| ==> ResentSoon(first[i], second[i], minInterval)
    ensures var r1 := AutoRun(partners, messageTemplate, delay, minInterval, first);
            r1.raised.None? && r1.sent == LinkedCount(partners) && |r1.updates| == LinkedCount(partners)
    ensures var r2 := AutoRun(partners, messageTemplate, delay, minInterval, second);
            r2.raised.None? && r2.sent == 0 && r2.failed == 0 &&
            r2.skippedTooSoon == LinkedCount(partners) && r2.updates == [] &&
            r2.calls == AutoRun(partners, messageTemplate, delay, minInterval, first).calls
  {
    var a1 := GateAnswers(partners, messageTemplate, minInterval, first);
    var a2 := GateAnswers(partners, messageTemplate, minInterval, second);
    forall i | 0 <= i < |partners| && Truthy(partners[i].telegramLink)
      ensures a1[i].Ok? && a1[i].value.result.sent
      ensures a2[i].Ok? && a2[i].value.result.reason == TooSoon && !a2[i].value.result.sent
    {
      ResendAnswer(partners[i], messageTemplate, minInterval, first[i], second[i]);
    }
    SentThenTooSoon(partners, messageTemplate, delay, a1, a2);
  }

  /** One linked partner of `SecondRunSkipsAll`: let through on the first channel, it is
      refused as too soon on the second. */
  lemma ResendAnswer(partner: Partner, messageTemplate: Option<string>, minInterval: int, first: Channel, second: Channel)
    requires Truthy(partner.telegramLink)
    requires var g := SendWithTimeCheck(partner.telegramLink.value, AutoMessage(messageTemplate, NameOf(partner)),
                                        minInterval, first);
             g.Ok? && g.value.result.sent
    requires ResentSoon(first, second, minInterval)
    ensures var g := GateAnswer(partner, messageTemplate, minInterval, first); g.Ok? && g.value.result.sent
    ensures var g := GateAnswer(partner, messageTemplate, minInterval, second);
            g.Ok? && g.value.result.reason == TooSoon && !g.value.result.sent
  {
    var msg := AutoMessage(messageTemplate, NameOf(partner));
    var h := second.history.value;
    assert h == [Message(true, first.sentAt)] + h[1..];
    ResendIsTooSoon(partner.telegramLink.value, msg, minInterval, first, second, h[1..]);
  }

  /** The loop twice, on answers that send every linked partner and then refuse every
      one as too soon. */
  lemma {:induction false} SentThenTooSoon(partners: seq<Partner>, messageTemplate: Option<string>, delay: int,
                                           a1: seq<Result<GateOutcome>>, a2: seq<Result<GateOutcome>>)
    requires |a1| == |partners| && |a2| == |partners|
    requires forall i :: 0 <= i < |partners| && Truthy(partners[i].telegramLink) ==>
               a1[i].Ok? && a1[i].value.result.sent
    requires forall i :: 0 <= i < |partners| && Truthy(partners[i].telegramLink) ==>
               a2[i].Ok? && a2[i].value.result.reason == TooSoon && !a2[i].value.result.sent
    ensures var r1 := AutoFold(partners, messageTemplate, delay, a1);
            r1.raised.None? && r1.sent == LinkedCount(partners) && |r1.updates| == LinkedCount(partners)
    ensures var r2 := AutoFold(partners, messageTemplate, delay, a2);
            r2.raised.None? && r2.sent == 0 && r2.failed == 0 &&
            r2.skippedTooSoon == LinkedCount(partners) && r2.updates == [] &&
            r2.calls == AutoFold(partners, messageTemplate, delay, a1).calls
  {
    if partners == [] {
      assert AutoFold(partners, messageTemplate, delay, a1) == AUTO_START;
      assert AutoFold(partners, messageTemplate, delay, a2) == AUTO_START;
    } else {
      var n := |partners| - 1;
      forall i | 0 <= i < n && Truthy(partners[..n][i].telegramLink)
        ensures a1[..n][i].Ok? && a1[..n][i].value.result.sent
        ensures a2[..n][i].Ok? && a2[..n][i].value.result.reason == TooSoon && !a2[..n][i].value.result.sent
      {
        assert partners[..n][i] == partners[i] && a1[..n][i] == a1[i] && a2[..n][i] == a2[i];
      }
      SentThenTooSoon(partners[..n], messageTemplate, delay, a1[..n], a2[..n]);
      var s1 := AutoFold(partners[..n], messageTemplate, delay, a1[..n]);
      var s2 := AutoFold(partners[..n], messageTemplate, delay, a2[..n]);
      assert AutoFold(partners, messageTemplate, delay, a1) == AutoStep(s1, messageTemplate, delay, partners[n], a1[n]);
      assert AutoFold(partners, messageTemplate, delay, a2) == AutoStep(s2, messageTemplate, delay, partners[n], a2[n]);
      assert LinkedCount(partners) == LinkedCount(partners[..n]) + if Truthy(partners[n].telegramLink) then 1 else 0;
    }
  }

  // ---------------------------------------------------------------- the follow-up update as written

  /** What `update_partner_followup_date` raises as written once the database connects:
      it passes `set_date=` to an `update_last_contacted` whose only parameter is the id. */
  const UPDATE_TYPE_ERROR := "TypeError: update_last_contacted() got an unexpected keyword argument 'set_date'"

  /** One iteration with the update call as written: a sent message is counted, then the
      update raises, before the sleep and without recording a follow-up. Every other
      branch is the one of `AutoStep`. */
  function AutoStepAsWritten(st: AutoState, messageTemplate: Option<string>, delay: int, partner: Partner,
                             g: Result<GateOutcome>): AutoState
  {
    if st.raised.None? && Truthy(partner.telegramLink) && g.Ok? && g.value.result.sent then
      st.(sent := st.sent + 1,
          calls := st.calls + [GateCall(partner.telegramLink.value, AutoMessage(messageTemplate, NameOf(partner)))],
          raised := Some(UPDATE_TYPE_ERROR))
    else AutoStep(st, messageTemplate, delay, partner, g)
  }

  function AutoFoldAsWritten(partners: seq<Partner>, messageTemplate: Option<string>, delay: int,
                             answers: seq<Result<GateOutcome>>): AutoState
    requires |answers| == |partners|
  {
    if partners == [] then AUTO_START
    else
      var n := |partners| - 1;
      AutoStepAsWritten(AutoFoldAsWritten(partners[..n], messageTemplate, delay, answers[..n]), messageTemplate,
                        delay, partners[n], answers[n])
  }

  /** As written, the loop records no follow-up at all. While the intended loop has sent
      nothing the two agree; from the first sent message on, the written one has ended in
      the TypeError, after exactly one sent message and a prefix of the intended gate calls. */
  lemma {:induction false} AutoAsWrittenStopsAtFirstSent(partners: seq<Partner>, messageTemplate: Option<string>,
                                                         delay: int, answers: seq<Result<GateOutcome>>)
    requires |answers| == |partners|
    ensures var w := AutoFoldAsWritten(partners, messageTemplate, delay, answers);
            var c := AutoFold(partners, messageTemplate, delay, answers);
            w.updates == [] &&
            (c.sent == 0 ==> w == c) &&
            (c.sent > 0 ==> w.raised == Some(UPDATE_TYPE_ERROR) && w.sent == 1 && w.calls <= c.calls)
  {
    if partners != [] {
      var n := |partners| - 1;
      AutoAsWrittenStopsAtFirstSent(partners[..n], messageTemplate, delay, answers[..n]);
      AutoAccounting(partners[..n], messageTemplate, delay, answers[..n]);
      AsWrittenStep(AutoFoldAsWritten(partners[..n], messageTemplate, delay, answers[..n]),
                    AutoFold(partners[..n], messageTemplate, delay, answers[..n]),
                    messageTemplate, delay, partners[n], answers[n]);
    }
  }

  /** The as-written state w against the intended state c, as `AutoAsWrittenStopsAtFirstSent` states it. */
  predicate AsWrittenAgrees(w: AutoState, c: AutoState) {
    w.updates == [] &&
    (c.sent == 0 ==> w == c) &&
    (c.sent > 0 ==> w.raised == Some(UPDATE_TYPE_ERROR) && w.sent == 1 && w.calls <= c.calls)
  }

  lemma AsWrittenStep(w: AutoState, c: AutoState, messageTemplate: Option<string>, delay: int, partner: Partner,
                      g: Result<GateOutcome>)
    requires |c.updates| == c.sent
    requires AsWrittenAgrees(w, c)
    ensures AsWrittenAgrees(AutoStepAsWritten(w, messageTemplate, delay, partner, g),
                            AutoStep(c, messageTemplate, delay, partner, g))
  {
    var c' := AutoStep(c, messageTemplate, delay, partner, g);
    assert c.calls <= c'.calls;
    if c.sent > 0 {
      assert w.calls == c'.calls[..|w.calls|];
    }
  }

  // ---------------------------------------------------------------- Auto.main

  /** What the Telegram side does for one entry of `Auto.main`: whether the connect of
      the history preview in `message_single_user` succeeds, and the gate's channel. */
  datatype EntryChannel = EntryChannel(previewConnects: bool, gate: Channel)

  /** `message_single_user(user_id, message)`: a preview through `get_chat_messages`
      (whose identifier parse escapes its `try` once connected), then the gate. */
  function MessageSingleUser(userId: string, message: string, minInterval: int, env: EntryChannel): (r: Result<SendResult>)
    ensures r.Err? <==> (env.previewConnects || env.gate.connects) && ParseTelegramIdentifier(userId).Err?
    ensures r.Ok? ==> r.value == SendWithTimeCheck(userId, message, minInterval, env.gate).value.result
  {
    if env.previewConnects && ParseTelegramIdentifier(userId).Err? then Err(ParseTelegramIdentifier(userId).error)
    else match SendWithTimeCheck(userId, message, minInterval, env.gate)
      case Err(e) => Err(e)
      case Ok(outcome) => Ok(outcome.result)
  }

  /** `process_telegram_entry(partner)`: message the partner's link with the default
      template as it is, then record a follow-up either way: today when sent, else the
      date of `last_msg_time`. */
  function ProcessTelegramEntry(partner: Partner, defaultTemplate: string, minInterval: int, env: EntryChannel)
    : (r: Result<FollowupUpdate>)
    ensures r.Ok? ==> r.value.partnerId == partner.id
    ensures r.Err? <==> MessageSingleUser(PyStrOf(partner.telegramLink), defaultTemplate, minInterval, env).Err?
    ensures r.Ok? ==>
              var res := MessageSingleUser(PyStrOf(partner.telegramLink), defaultTemplate, minInterval, env).value;
              (res.sent ==> r.value.setDate.None?) &&
              (res.reason == TooSoon ==>
                 r.value.setDate.Some? && r.value.setDate == FollowupDate(DateTimeStamp(res.lastMsgTime.value))) &&
              ((res.reason == SendFailed || res.reason == ConnectionFailed) ==> r.value.setDate.None?)
  {
    match MessageSingleUser(PyStrOf(partner.telegramLink), defaultTemplate, minInterval, env)
    case Err(e) => Err(e)
    case Ok(res) =>
      if res.sent then Ok(FollowupUpdate(partner.id, None))
      else Ok(FollowupUpdate(partner.id, FollowupDate(StampOf(res.lastMsgTime))))
  }

  /** `partner.get("telegramLinkPrimaryLinkUrl") != ""`: an absent link is processed. */
  predicate Selected(partner: Partner) {
    partner.telegramLink != Some("")
  }

  /** The state of `main` after some partners: entries processed, updates recorded, and
      the exception that ended the loop, if one did. */
  datatype MainState = MainState(processed: nat, updates: seq<FollowupUpdate>, raised: Option<string>)

  function MainRun(partners: seq<Partner>, envs: seq<EntryChannel>, defaultTemplate: string, minInterval: int): MainState
    requires |envs| == |partners|
  {
    if partners == [] then MainState(0, [], None)
    else
      var n := |partners| - 1;
      MainStep(MainRun(partners[..n], envs[..n], defaultTemplate, minInterval),
               partners[n], envs[n], defaultTemplate, minInterval)
  }

  /** One iteration of `main`: a selected partner is processed and counted. */
  function MainStep(st: MainState, partner: Partner, env: EntryChannel, defaultTemplate: string, minInterval: int): MainState {
    if st.raised.Some? || !Selected(partner) then st
    else match ProcessTelegramEntry(partner, defaultTemplate, minInterval, env)
      case Err(e) => st.(raised := Some(e))
      case Ok(u) => MainState(st.processed + 1, st.updates + [u], None)
  }

  /** The partners `main` processes, in order. */
  function SelectedPartners(partners: seq<Partner>): (r: seq<Partner>)
    ensures forall k :: 0 <= k < |r| ==> Selected(r[k])
  {
    if partners == [] then []
    else
      var n := |partners| - 1;
      SelectedPartners(partners[..n]) + if Selected(partners[n]) then [partners[n]] else []
  }

  /** The selection keeps order: selecting from two lists one after the other is selecting from each. */
  lemma {:induction false} SelectedPartnersConcat(a: seq<Partner>, b: seq<Partner>)
    ensures SelectedPartners(a + b) == SelectedPartners(a) + SelectedPartners(b)
    decreases |b|
  {
    if b == [] {
      assert a + b == a;
    } else {
      var n := |b| - 1;
      assert (a + b)[..|a| + n] == a + b[..n];
      SelectedPartnersConcat(a, b[..n]);
    }
  }

  /** A partner is selected exactly when it is one of the partners and its link is not "". */
  lemma {:induction false} SelectedPartnersMembers(partners: seq<Partner>)
    ensures forall p :: p in SelectedPartners(partners) <==> p in partners && Selected(p)
  {
    if partners != [] {
      var n := |partners| - 1;
      SelectedPartnersMembers(partners[..n]);
      assert partners == partners[..n] + [partners[n]];
    }
  }

  /** Without an escaping exception, `main` processes exactly the selected partners, in
      order, and records one follow-up per processed partner, for that partner. */
  lemma {:induction false} MainAccounting(partners: seq<Partner>, envs: seq<EntryChannel>, defaultTemplate: string,
                                          minInterval: int)
    requires |envs| == |partners|
    ensures var st := MainRun(partners, envs, defaultTemplate, minInterval);
            |st.updates| == st.processed &&
            (st.raised.None? ==>
               st.processed == |SelectedPartners(partners)| &&
               forall k :: 0 <= k < |st.updates| ==> st.updates[k].partnerId == SelectedPartners(partners)[k].id)
  {
    if partners != [] {
      var n := |partners| - 1;
      MainAccounting(partners[..n], envs[..n], defaultTemplate, minInterval);
    }
  }

  /** One iteration of `main` with the update call as written: a selected partner's
      `process_telegram_entry` raises the TypeError once `message_single_user` returns,
      whatever it returned, before `tg` is counted. */
  function MainStepAsWritten(st: MainState, partner: Partner, env: EntryChannel, defaultTemplate: string,
                             minInterval: int): MainState
  {
    if st.raised.Some? || !Selected(partner) then st
    else match MessageSingleUser(PyStrOf(partner.telegramLink), defaultTemplate, minInterval, env)
      case Err(e) => st.(raised := Some(e))
      case Ok(_) => st.(raised := Some(UPDATE_TYPE_ERROR))
  }

  function MainRunAsWritten(partners: seq<Partner>, envs: seq<EntryChannel>, defaultTemplate: string,
                            minInterval: int): MainState
    requires |envs| == |partners|
  {
    if partners == [] then MainState(0, [], None)
    else
      var n := |partners| - 1;
      MainStepAsWritten(MainRunAsWritten(partners[..n], envs[..n], defaultTemplate, minInterval),
                        partners[n], envs[n], defaultTemplate, minInterval)
  }

  /** As written, `main` processes no entry to the end: it raises exactly when some
      partner is selected, records no follow-up, and when the intended run raises
      nothing the exception is the update's TypeError at the first selected partner. */
  lemma {:induction false} MainAsWrittenStopsAtFirstEntry(partners: seq<Partner>, envs: seq<EntryChannel>,
                                                          defaultTemplate: string, minInterval: int)
    requires |envs| == |partners|
    ensures var w := MainRunAsWritten(partners, envs, defaultTemplate, minInterval);
            w.processed == 0 && w.updates == [] &&
            (w.raised.None? <==> SelectedPartners(partners) == []) &&
            (MainRun(partners, envs, defaultTemplate, minInterval).raised.None? && SelectedPartners(partners) != [] ==>
               w.raised == Some(UPDATE_TYPE_ERROR))
  {
    if partners != [] {
      var n := |partners| - 1;
      MainAsWrittenStopsAtFirstEntry(partners[..n], envs[..n], defaultTemplate, minInterval);
      var c := MainRun(partners[..n], envs[..n], defaultTemplate, minInterval);
      assert MainRun(partners, envs, defaultTemplate, minInterval) ==
             MainStep(c, partners[n], envs[n], defaultTemplate, minInterval);
    }
  }

  lemma MainRunSnoc(partners: seq<Partner>, envs: seq<EntryChannel>, defaultTemplate: string, minInterval: int, i: nat)
    requires |envs| == |partners| && i < |partners|
    ensures MainRun(partners[..i + 1], envs[..i + 1], defaultTemplate, minInterval) ==
            MainStep(MainRun(partners[..i], envs[..i], defaultTemplate, minInterval), partners[i], envs[i],
                     defaultTemplate, minInterval)
  {
    assert partners[..i + 1][..i] == partners[..i];
    assert envs[..i + 1][..i] == envs[..i];
  }

  /** `Auto`: the follow-up script's driver; `tg` counts the entries processed. */
  class Auto {
    var tg: int
    const minMessageInterval: int

    /** `Auto()`: the interval is the `MONTH` constant of the configuration. */
    constructor(month: int)
      ensures tg == 0 && minMessageInterval == month
    {
      tg := 0;
      minMessageInterval := month;
    }

    /** `main()` over the partner list; `envs[i]` is what the Telegram side does for partner i. */
    method RunMain(partners: seq<Partner>, envs: seq<EntryChannel>, defaultTemplate: string)
      returns (raised: Option<string>, updates: seq<FollowupUpdate>)
      requires |envs| == |partners|
      modifies this
      ensures var st := MainRun(partners, envs, defaultTemplate, minMessageInterval);
              tg == old(tg) + st.processed && updates == st.updates && raised == st.raised
    {
      updates := [];
      ghost var processed := 0;
      var i := 0;
      while i < |partners|
        invariant 0 <= i <= |partners|
        invariant MainRun(partners[..i], envs[..i], defaultTemplate, minMessageInterval) == MainState(processed, updates, None)
        invariant tg == old(tg) + processed
      {
        MainRunSnoc(partners, envs, defaultTemplate, minMessageInterval, i);
        if Selected(partners[i]) {
          var u := ProcessTelegramEntry(partners[i], defaultTemplate, minMessageInterval, envs[i]);
          if u.Err? {
            MainRaisedSticks(partners, i + 1, envs, defaultTemplate, minMessageInterval);
            return Some(u.error), updates;
          }
          updates := updates + [u.value];
          tg := tg + 1;
          processed := processed + 1;
        }
        i := i + 1;
      }
      assert partners[..i] == partners && envs[..i] == envs;
      return None, updates;
    }
  }

  lemma {:induction false} MainRaisedSticks(partners: seq<Partner>, k: nat, envs: seq<EntryChannel>,
                                            defaultTemplate: string, minInterval: int)
    requires |envs| == |partners| && k <= |partners|
    requires MainRun(partners[..k], envs[..k], defaultTemplate, minInterval).raised.Some?
    ensures MainRun(partners, envs, defaultTemplate, minInterval) == MainRun(partners[..k], envs[..k], defaultTemplate, minInterval)
    decreases |partners| - k
  {
    if k < |partners| {
      assert partners[..k + 1][..k] == partners[..k];
      assert envs[..k + 1][..k] == envs[..k];
      MainRaisedSticks(partners, k + 1, envs, defaultTemplate, minInterval);
    } else {
      assert partners[..k] == partners && envs[..k] == envs;
    }
  }
}
