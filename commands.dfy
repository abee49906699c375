/** The command-line commands: `CommandFactory.create` and the control flow of
    `SendMessagesCommand.execute` (select partners, confirm, send, update every
    contact). The repository is a function from query to rows; the console answer
    to the confirmation prompt is a parameter. */
module Commands {
  import opened Wrappers
  import opened PyStr
  import opened Partners
  import opened TelegramBot

  datatype Command =
    | PartnerList
    | PartnerListTelegram
    | SendMessagesCmd(message: Option<string>, telegramTag: Option<string>, delay: int)

  /** The keyword arguments of `create`; None is a keyword that was not passed. */
  datatype CommandArgs = CommandArgs(message: Option<string>, tag: Option<string>, delay: Option<int>)

  const DEFAULT_DELAY := 2

  /** The `commands` table `create` builds: each action name with the command it constructs. */
  function CommandTable(args: CommandArgs): map<string, Command> {
    map["list" := PartnerList,
        "list-telegram" := PartnerListTelegram,
        "send" := SendMessagesCmd(args.message, args.tag, args.delay.GetOr(DEFAULT_DELAY))]
  }

  /** `CommandFactory.create(action, **kwargs)`: `commands.get(action)`, constructed. */
  function Create(action: string, args: CommandArgs): (r: Option<Command>)
    ensures r.Some? <==> action in {"list", "list-telegram", "send"}
    ensures action == "list" ==> r == Some(PartnerList)
    ensures action == "list-telegram" ==> r == Some(PartnerListTelegram)
    ensures action == "send" ==> r.value.SendMessagesCmd? && r.value.message == args.message &&
                                 r.value.telegramTag == args.tag
    ensures action == "send" && args.delay.None? ==> r.value.delay == DEFAULT_DELAY
    ensures action == "send" && args.delay.Some? ==> r.value.delay == args.delay.value
  {
    var commands := CommandTable(args);
    if action in commands then Some(commands[action]) else None
  }

  /** `_confirm_sending`: the answer, lower-cased, is `yes` or `y`. */
  predicate ConfirmSending(response: string) {
    Lower(response) in ["yes", "y"]
  }

  lemma LowerCharIs(c: char)
    ensures LowerChar(c) == 'y' <==> c == 'y' || c == 'Y'
    ensures LowerChar(c) == 'e' <==> c == 'e' || c == 'E'
    ensures LowerChar(c) == 's' <==> c == 's' || c == 'S'
  {
  }

  /** Exactly ten answers confirm: every capitalisation of `yes` and of `y`. */
  lemma ConfirmAnswers(response: string)
    ensures ConfirmSending(response) <==>
              response in {"yes", "yeS", "yEs", "yES", "Yes", "YeS", "YEs", "YES", "y", "Y"}
  {
    var l := Lower(response);
    if |response| == 1 {
      LowerCharIs(response[0]);
      assert l == [LowerChar(response[0])];
      assert response == [response[0]];
    } else if |response| == 3 {
      LowerCharIs(response[0]);
      LowerCharIs(response[1]);
      LowerCharIs(response[2]);
      assert l == [LowerChar(response[0]), LowerChar(response[1]), LowerChar(response[2])];
      assert response == [response[0], response[1], response[2]];
    } else {
      assert |l| != 1 && |l| != 3;
    }
  }

  /** The repository query `_get_partners` runs. */
  datatype Query = ByTelegramTag(tag: string) | WithTelegram

  /** `_get_partners`: the tag query for a truthy tag, else all partners with Telegram. */
  function SelectQuery(telegramTag: Option<string>): (q: Query)
    ensures Truthy(telegramTag) <==> q.ByTelegramTag?
    ensures q.ByTelegramTag? ==> q.tag == telegramTag.value
  {
    if Truthy(telegramTag) then ByTelegramTag(telegramTag.value) else WithTelegram
  }

  /** The partners `execute` works on: those with the tag when the tag is truthy,
      otherwise every partner with a Telegram tag. */
  function PartnersFor(repository: Query -> seq<Partner>, telegramTag: Option<string>): seq<Partner> {
    if Truthy(telegramTag) then repository(ByTelegramTag(telegramTag.value)) else repository(WithTelegram)
  }

  /** `_update_contacts`: one `update_last_contacted(partner['id'])` per partner, in order. */
  method UpdateContacts(partners: seq<Partner>) returns (updated: seq<int>)
    ensures |updated| == |partners|
    ensures forall k :: 0 <= k < |partners| ==> updated[k] == partners[k].id
  {
    updated := [];
    var i := 0;
    while i < |partners|
      invariant 0 <= i <= |partners|
      invariant |updated| == i
      invariant forall k :: 0 <= k < i ==> updated[k] == partners[k].id
    {
      updated := updated + [partners[i].id];
      i := i + 1;
    }
  }

  /** How `execute` ends: nothing to send, the user declined, the batch finished with
      its counters, or an exception was caught and the process exits with status 1. */
  datatype ExecOutcome = NoPartners | Cancelled | Completed(counts: Counts) | Exited(error: string)

  /** `SendMessagesCommand(message, telegram_tag, delay).execute()`. `repository` answers
      the partner queries, `response` is the answer typed at the prompt, `connects` is
      whether Telegram connects and `sendOk[i]` whether the send to partner i goes
      through. Returns the outcome, the sends issued and the ids marked contacted. */
  method Execute(message: Option<string>, telegramTag: Option<string>, delay: int,
                 repository: Query -> seq<Partner>, response: string, connects: bool,
                 defaultTemplate: string, sendOk: seq<bool>)
    returns (outcome: ExecOutcome, deliveries: seq<Delivery>, updated: seq<int>)
    requires |sendOk| == |PartnersFor(repository, telegramTag)|
    ensures var ps := PartnersFor(repository, telegramTag);
            ps == [] ==> outcome == NoPartners && deliveries == [] && updated == []
    ensures var ps := PartnersFor(repository, telegramTag);
            ps != [] && !ConfirmSending(response) ==> outcome == Cancelled && deliveries == [] && updated == []
    ensures var ps := PartnersFor(repository, telegramTag);
            ps != [] && ConfirmSending(response) && !connects ==>
              outcome == Completed(Counts(0, |ps|)) && deliveries == [] &&
              |updated| == |ps| && forall k :: 0 <= k < |ps| ==> updated[k] == ps[k].id
    ensures var ps := PartnersFor(repository, telegramTag);
            var b := BatchRun(ps, ChosenTemplate(message, defaultTemplate), delay, sendOk);
            ps != [] && ConfirmSending(response) && connects ==>
              deliveries == b.deliveries &&
              (b.raised.Some? ==> outcome == Exited(b.raised.value) && updated == []) &&
              (b.raised.None? ==>
                 outcome == Completed(b.counts) &&
                 |updated| == |ps| && forall k :: 0 <= k < |ps| ==> updated[k] == ps[k].id)
  {
    var partners := repository(SelectQuery(telegramTag));
    if partners == [] {
      return NoPartners, [], [];
    }
    if !ConfirmSending(response) {
      return Cancelled, [], [];
    }
    var results, sleeps;
    results, deliveries, sleeps := SendMessages(connects, partners, message, defaultTemplate, delay, sendOk);
    if results.Err? {
      return Exited(results.error), deliveries, [];
    }
    updated := UpdateContacts(partners);
    outcome := Completed(results.value);
  }
}
