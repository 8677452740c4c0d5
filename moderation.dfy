/**
 * The ordering logic of the five moderation commands. Each one checks the
 * caller, its parameters, the bot's own permission and (except purge) the
 * target's rank against the bot, then takes a case number, tries to tell the
 * target by direct message, performs the platform action, and only when the
 * action returns saves the case. The direct message and the platform action
 * are inputs that say whether the call returned or raised.
 */
module Moderation {
  import opened Wrappers
  import opened Decimal
  import OrderedDict
  import opened CaseTracking
  import opened Permissions

  const MAX_DELETE_DAYS: int := 7
  const MIN_MUTE_MINUTES: int := 1
  const MAX_MUTE_MINUTES: int := 40320
  const MIN_PURGE_AMOUNT: int := 1
  const MAX_PURGE_AMOUNT: int := 100

  /** The values a command uses when the invoker leaves the option out. */
  const DEFAULT_REASON: string := "No reason provided"
  const DEFAULT_BAN_DELETE_DAYS: int := 0
  const DEFAULT_SOFTBAN_DELETE_DAYS: int := 1

  datatype Command =
    | Kick(target: Member, reason: string)
    | Ban(target: Member, reason: string, deleteDays: int)
    | Softban(target: Member, reason: string, deleteDays: int)
    | Mute(target: Member, reason: string, duration: int)
    | Purge(channelId: int, amount: int)

  datatype Rejection =
    | NotModerator
    | DeleteDaysOutOfRange
    | DurationOutOfRange
    | AmountOutOfRange
    | BotLacksPermission
    | TargetOutranksBot

  /** How sending the direct message ended: delivered, refused (Forbidden), or another error. */
  datatype DmResult = DmDelivered | DmForbidden | DmError

  datatype DmStatus = DmSent | DmNotSent | NoDm

  /** What a command reports: a rejection, a case number used up by a failure, or a recorded case. */
  datatype Outcome =
    | Rejected(why: Rejection)
    | ActionFailed(caseNumber: int)
    | Recorded(caseNumber: int, dm: DmStatus)

  /** The guild permission flag the bot itself needs for a command. */
  function BotPermission(cmd: Command): string {
    match cmd
    case Kick(_, _) => "kick_members"
    case Ban(_, _, _) => "ban_members"
    case Softban(_, _, _) => "ban_members"
    case Mute(_, _, _) => "moderate_members"
    case Purge(_, _) => "manage_messages"
  }

  /** The parameter check of a command, if it has one. */
  function ParameterCheck(cmd: Command): Option<Rejection> {
    match cmd
    case Kick(_, _) => None
    case Ban(_, _, days) =>
      if days < 0 || days > MAX_DELETE_DAYS then Some(DeleteDaysOutOfRange) else None
    case Softban(_, _, days) =>
      if days < 0 || days > MAX_DELETE_DAYS then Some(DeleteDaysOutOfRange) else None
    case Mute(_, _, minutes) =>
      if minutes < MIN_MUTE_MINUTES || minutes > MAX_MUTE_MINUTES then Some(DurationOutOfRange) else None
    case Purge(_, amount) =>
      if amount < MIN_PURGE_AMOUNT || amount > MAX_PURGE_AMOUNT then Some(AmountOutOfRange) else None
  }

  /** The checks made before a case number is taken, in the order the commands make them. */
  function Preflight(cmd: Command, invoker: Member, bot: Member): Option<Rejection> {
    if !HasModeratorRole(invoker) then Some(NotModerator)
    else if ParameterCheck(cmd).Some? then ParameterCheck(cmd)
    else if !Flag(bot, BotPermission(cmd)) then Some(BotLacksPermission)
    else if !cmd.Purge? && cmd.target.topRole >= bot.topRole then Some(TargetOutranksBot)
    else None
  }

  /** The case a successful command saves; `deleted` is the number of messages a purge removed. */
  function RecordFor(cmd: Command, caseNumber: int, invokerId: int, deleted: nat, clock: Clock): CaseRecord {
    match cmd
    case Kick(t, reason) =>
      CaseRecord(caseNumber, "kick", t.id, invokerId, reason, clock.timestamp, clock.createdAt)
    case Ban(t, reason, _) =>
      CaseRecord(caseNumber, "ban", t.id, invokerId, reason, clock.timestamp, clock.createdAt)
    case Softban(t, reason, _) =>
      CaseRecord(caseNumber, "softban", t.id, invokerId, reason, clock.timestamp, clock.createdAt)
    case Mute(t, reason, minutes) =>
      CaseRecord(caseNumber, "mute", t.id, invokerId,
        reason + " (Duration: " + IntToString(minutes) + " minutes)", clock.timestamp, clock.createdAt)
    case Purge(channel, _) =>
      CaseRecord(caseNumber, "purge", channel, invokerId,
        "Deleted " + IntToString(deleted) + " messages", clock.timestamp, clock.createdAt)
  }

  /**
   * The reference behaviour of one command on the ledger. `actionReturned`
   * says whether every platform call of the command returned; `dm` is ignored
   * by purge, which sends no message.
   */
  function Run(cmd: Command, invoker: Member, bot: Member, dm: DmResult, actionReturned: bool,
               deleted: nat, clock: Clock, before: Ledger): (Outcome, Ledger)
    requires OrderedDict.Valid(before.cases)
  {
    match Preflight(cmd, invoker, bot)
    case Some(why) => (Rejected(why), before)
    case None =>
      var n := before.next;
      if (!cmd.Purge? && dm == DmError) || !actionReturned then
        (ActionFailed(n), Ledger(before.cases, n + 1))
      else
        var status := if cmd.Purge? then NoDm else if dm == DmDelivered then DmSent else DmNotSent;
        var record := RecordFor(cmd, n, invoker.id, deleted, clock);
        (Recorded(n, status), Ledger(OrderedDict.Put(before.cases, IntToString(n), record), n + 1))
  }

  /** A rejected command leaves the ledger exactly as it was, counter included. */
  lemma RejectionAllocatesNothing(cmd: Command, invoker: Member, bot: Member, dm: DmResult,
                                  actionReturned: bool, deleted: nat, clock: Clock, before: Ledger)
    requires OrderedDict.Valid(before.cases)
    requires Preflight(cmd, invoker, bot).Some?
    ensures Run(cmd, invoker, bot, dm, actionReturned, deleted, clock, before)
         == (Rejected(Preflight(cmd, invoker, bot).value), before)
  {
  }

  /** A caller without moderator status is always the first rejection. */
  lemma NonModeratorRejected(cmd: Command, invoker: Member, bot: Member)
    requires !HasModeratorRole(invoker)
    ensures Preflight(cmd, invoker, bot) == Some(NotModerator)
  {
  }

  /** For ban and softban, the delete-days check passes exactly on 0..7. */
  lemma DeleteDaysBounds(cmd: Command, invoker: Member, bot: Member)
    requires cmd.Ban? || cmd.Softban?
    requires HasModeratorRole(invoker)
    ensures Preflight(cmd, invoker, bot) == Some(DeleteDaysOutOfRange)
        <==> cmd.deleteDays < 0 || cmd.deleteDays > 7
  {
  }

  /** For mute, the duration check passes exactly on 1..40320 minutes. */
  lemma DurationBounds(cmd: Command, invoker: Member, bot: Member)
    requires cmd.Mute?
    requires HasModeratorRole(invoker)
    ensures Preflight(cmd, invoker, bot) == Some(DurationOutOfRange)
        <==> cmd.duration < 1 || cmd.duration > 40320
  {
  }

  /** For purge, the amount check passes exactly on 1..100. */
  lemma AmountBounds(cmd: Command, invoker: Member, bot: Member)
    requires cmd.Purge?
    requires HasModeratorRole(invoker)
    ensures Preflight(cmd, invoker, bot) == Some(AmountOutOfRange)
        <==> cmd.amount < 1 || cmd.amount > 100
  {
  }

  /**
   * Once the earlier checks pass, kick, ban, softban and mute are refused
   * exactly when the target ranks at or above the bot; the invoker's own
   * rank plays no part in any of the checks.
   */
  lemma HierarchyIsAgainstBot(cmd: Command, invoker: Member, bot: Member, invokerRank: int)
    requires !cmd.Purge?
    requires HasModeratorRole(invoker) && ParameterCheck(cmd).None? && Flag(bot, BotPermission(cmd))
    ensures Preflight(cmd, invoker, bot) == Some(TargetOutranksBot) <==> cmd.target.topRole >= bot.topRole
    ensures Preflight(cmd, invoker, bot) == Preflight(cmd, invoker.(topRole := invokerRank), bot)
  {
  }

  /** A failed direct message or a raised platform call uses up the number and records nothing. */
  lemma FailureUsesNumber(cmd: Command, invoker: Member, bot: Member, dm: DmResult,
                          actionReturned: bool, deleted: nat, clock: Clock, before: Ledger)
    requires OrderedDict.Valid(before.cases)
    requires Preflight(cmd, invoker, bot).None?
    requires (!cmd.Purge? && dm == DmError) || !actionReturned
    ensures Run(cmd, invoker, bot, dm, actionReturned, deleted, clock, before)
         == (ActionFailed(before.next), Ledger(before.cases, before.next + 1))
  {
  }

  /** A command whose checks pass and whose calls all return stores its record under the number's key. */
  lemma RunCompleted(cmd: Command, invoker: Member, bot: Member, dm: DmResult,
                     deleted: nat, clock: Clock, before: Ledger)
    requires OrderedDict.Valid(before.cases)
    requires Preflight(cmd, invoker, bot).None?
    requires cmd.Purge? || dm != DmError
    ensures Run(cmd, invoker, bot, dm, true, deleted, clock, before)
         == (Recorded(before.next, if cmd.Purge? then NoDm else if dm == DmDelivered then DmSent else DmNotSent),
             Ledger(OrderedDict.Put(before.cases, IntToString(before.next),
                                    RecordFor(cmd, before.next, invoker.id, deleted, clock)),
                    before.next + 1))
  {
  }

  /** A refused direct message does not stop the command. */
  lemma RefusedDmStillRecords(cmd: Command, invoker: Member, bot: Member,
                              deleted: nat, clock: Clock, before: Ledger)
    requires OrderedDict.Valid(before.cases)
    requires Preflight(cmd, invoker, bot).None? && !cmd.Purge?
    ensures Run(cmd, invoker, bot, DmForbidden, true, deleted, clock, before).0
         == Recorded(before.next, DmNotSent)
  {
  }

  /**
   * A command that completes adds exactly one case, under a key that was
   * free, holding the fields the command records; every other key keeps its
   * record and the counter has moved past the number.
   */
  lemma SuccessRecordsOneCase(cmd: Command, invoker: Member, bot: Member, dm: DmResult,
                              deleted: nat, clock: Clock, before: Ledger)
    requires OrderedDict.Valid(before.cases)
    requires before.next >= 1 && KeysBelow(before.cases, before.next)
    requires Preflight(cmd, invoker, bot).None?
    requires cmd.Purge? || dm != DmError
    ensures var (outcome, after) := Run(cmd, invoker, bot, dm, true, deleted, clock, before);
      var key := IntToString(before.next);
      && outcome.Recorded? && outcome.caseNumber == before.next
      && after.next == before.next + 1
      && key !in before.cases.entries
      && after.cases.order == before.cases.order + [key]
      && OrderedDict.Size(after.cases) == OrderedDict.Size(before.cases) + 1
      && OrderedDict.Get(after.cases, key) == Some(RecordFor(cmd, before.next, invoker.id, deleted, clock))
      && (forall k :: k != key ==> OrderedDict.Get(after.cases, k) == OrderedDict.Get(before.cases, k))
      && KeysBelow(after.cases, after.next)
  {
    FreshKeyAbsent(before.cases, before.next, before.next);
    var record := RecordFor(cmd, before.next, invoker.id, deleted, clock);
    PutKeepsKeysBelow(before.cases, before.next + 1, before.next, record);
  }

  /** The action kind and the fields each command records. */
  lemma RecordedFields(cmd: Command, caseNumber: int, invokerId: int, deleted: nat, clock: Clock)
    ensures var r := RecordFor(cmd, caseNumber, invokerId, deleted, clock);
      && r.caseNumber == caseNumber && r.moderatorId == invokerId
      && r.timestamp == clock.timestamp && r.createdAt == clock.createdAt
      && (cmd.Kick? ==> r.action == "kick" && r.targetId == cmd.target.id && r.reason == cmd.reason)
      && (cmd.Ban? ==> r.action == "ban" && r.targetId == cmd.target.id && r.reason == cmd.reason)
      && (cmd.Softban? ==> r.action == "softban" && r.targetId == cmd.target.id && r.reason == cmd.reason)
      && (cmd.Mute? ==>
            r.action == "mute" && r.targetId == cmd.target.id &&
            r.reason == cmd.reason + " (Duration: " + IntToString(cmd.duration) + " minutes)")
      && (cmd.Purge? ==>
            r.action == "purge" && r.targetId == cmd.channelId &&
            r.reason == "Deleted " + IntToString(deleted) + " messages")
  {
  }

  /** Running any command keeps every stored all-digit key below the counter. */
  lemma RunKeepsKeysBelow(cmd: Command, invoker: Member, bot: Member, dm: DmResult,
                          actionReturned: bool, deleted: nat, clock: Clock, before: Ledger)
    requires OrderedDict.Valid(before.cases)
    requires KeysBelow(before.cases, before.next)
    ensures var after := Run(cmd, invoker, bot, dm, actionReturned, deleted, clock, before).1;
      KeysBelow(after.cases, after.next) && after.next >= before.next
  {
    if Preflight(cmd, invoker, bot).None? {
      var record := RecordFor(cmd, before.next, invoker.id, deleted, clock);
      PutKeepsKeysBelow(before.cases, before.next + 1, before.next, record);
    }
  }

  /** The default delete-days of ban and softban pass the parameter check. */
  lemma DefaultsPassParameterCheck(target: Member, reason: string)
    ensures ParameterCheck(Ban(target, reason, DEFAULT_BAN_DELETE_DAYS)) == None
    ensures ParameterCheck(Softban(target, reason, DEFAULT_SOFTBAN_DELETE_DAYS)) == None
  {
  }

  /** The moderation commands, sharing one case tracker. */
  class ModerationCog {
    const tracker: CaseTracker

    constructor (loaded: Option<Cases>)
      requires loaded.Some? ==> OrderedDict.Valid(loaded.value)
      ensures fresh(tracker) && tracker.Valid() && tracker.KeysBelowCounter()
      ensures tracker.cases == if loaded.Some? then loaded.value else OrderedDict.Empty()
      ensures tracker.nextCaseNumber == HighestCaseNumber(tracker.cases.order) + 1
      ensures tracker.issued == {}
    {
      tracker := new CaseTracker(loaded);
    }

    method Kick(invoker: Member, bot: Member, member: Member, reason: string,
                dm: DmResult, kickReturned: bool, clock: Clock) returns (outcome: Outcome)
      requires tracker.Valid()
      modifies tracker
      ensures tracker.Valid()
      ensures outcome == Run(Command.Kick(member, reason), invoker, bot, dm, kickReturned, 0, clock, old(tracker.State())).0
      ensures tracker.State() == Run(Command.Kick(member, reason), invoker, bot, dm, kickReturned, 0, clock, old(tracker.State())).1
      ensures old(tracker.KeysBelowCounter()) ==> tracker.KeysBelowCounter()
    {
      ghost var before := tracker.State();
      ghost var cmd := Command.Kick(member, reason);
      if !HasModeratorRole(invoker) {
        RejectionAllocatesNothing(cmd, invoker, bot, dm, kickReturned, 0, clock, before);
        return Rejected(NotModerator);
      }
      if !Flag(bot, "kick_members") {
        RejectionAllocatesNothing(cmd, invoker, bot, dm, kickReturned, 0, clock, before);
        return Rejected(BotLacksPermission);
      }
      if member.topRole >= bot.topRole {
        RejectionAllocatesNothing(cmd, invoker, bot, dm, kickReturned, 0, clock, before);
        return Rejected(TargetOutranksBot);
      }
      var caseNumber := tracker.GetNextCaseNumber();
      if dm == DmError {
        FailureUsesNumber(cmd, invoker, bot, dm, kickReturned, 0, clock, before);
        return ActionFailed(caseNumber);
      }
      var dmSent := dm == DmDelivered;
      if !kickReturned {
        FailureUsesNumber(cmd, invoker, bot, dm, kickReturned, 0, clock, before);
        return ActionFailed(caseNumber);
      }
      tracker.SaveCase(caseNumber, "kick", member.id, invoker.id, reason, clock);
      RunCompleted(cmd, invoker, bot, dm, 0, clock, before);
      outcome := Recorded(caseNumber, if dmSent then DmSent else DmNotSent);
    }

    method Ban(invoker: Member, bot: Member, member: Member, reason: string, deleteDays: int,
               dm: DmResult, banReturned: bool, clock: Clock) returns (outcome: Outcome)
      requires tracker.Valid()
      modifies tracker
      ensures tracker.Valid()
      ensures outcome == Run(Command.Ban(member, reason, deleteDays), invoker, bot, dm, banReturned, 0, clock, old(tracker.State())).0
      ensures tracker.State() == Run(Command.Ban(member, reason, deleteDays), invoker, bot, dm, banReturned, 0, clock, old(tracker.State())).1
      ensures old(tracker.KeysBelowCounter()) ==> tracker.KeysBelowCounter()
    {
      ghost var before := tracker.State();
      ghost var cmd := Command.Ban(member, reason, deleteDays);
      if !HasModeratorRole(invoker) {
        RejectionAllocatesNothing(cmd, invoker, bot, dm, banReturned, 0, clock, before);
        return Rejected(NotModerator);
      }
      if deleteDays < 0 || deleteDays > MAX_DELETE_DAYS {
        RejectionAllocatesNothing(cmd, invoker, bot, dm, banReturned, 0, clock, before);
        return Rejected(DeleteDaysOutOfRange);
      }
      if !Flag(bot, "ban_members") {
        RejectionAllocatesNothing(cmd, invoker, bot, dm, banReturned, 0, clock, before);
        return Rejected(BotLacksPermission);
      }
      if member.topRole >= bot.topRole {
        RejectionAllocatesNothing(cmd, invoker, bot, dm, banReturned, 0, clock, before);
        return Rejected(TargetOutranksBot);
      }
      var caseNumber := tracker.GetNextCaseNumber();
      if dm == DmError {
        FailureUsesNumber(cmd, invoker, bot, dm, banReturned, 0, clock, before);
        return ActionFailed(caseNumber);
      }
      var dmSent := dm == DmDelivered;
      if !banReturned {
        FailureUsesNumber(cmd, invoker, bot, dm, banReturned, 0, clock, before);
        return ActionFailed(caseNumber);
      }
      tracker.SaveCase(caseNumber, "ban", member.id, invoker.id, reason, clock);
      RunCompleted(cmd, invoker, bot, dm, 0, clock, before);
      outcome := Recorded(caseNumber, if dmSent then DmSent else DmNotSent);
    }

    /** A ban followed by an unban; both calls must return before the case is saved. */
    method Softban(invoker: Member, bot: Member, member: Member, reason: string, deleteDays: int,
                   dm: DmResult, banReturned: bool, unbanReturned: bool, clock: Clock) returns (outcome: Outcome)
      requires tracker.Valid()
      modifies tracker
      ensures tracker.Valid()
      ensures outcome == Run(Command.Softban(member, reason, deleteDays), invoker, bot, dm,
                  banReturned && unbanReturned, 0, clock, old(tracker.State())).0
      ensures tracker.State() == Run(Command.Softban(member, reason, deleteDays), invoker, bot, dm,
                  banReturned && unbanReturned, 0, clock, old(tracker.State())).1
      ensures old(tracker.KeysBelowCounter()) ==> tracker.KeysBelowCounter()
    {
      ghost var before := tracker.State();
      ghost var cmd := Command.Softban(member, reason, deleteDays);
      if !HasModeratorRole(invoker) {
        RejectionAllocatesNothing(cmd, invoker, bot, dm, banReturned && unbanReturned, 0, clock, before);
        return Rejected(NotModerator);
      }
      if deleteDays < 0 || deleteDays > MAX_DELETE_DAYS {
        RejectionAllocatesNothing(cmd, invoker, bot, dm, banReturned && unbanReturned, 0, clock, before);
        return Rejected(DeleteDaysOutOfRange);
      }
      if !Flag(bot, "ban_members") {
        RejectionAllocatesNothing(cmd, invoker, bot, dm, banReturned && unbanReturned, 0, clock, before);
        return Rejected(BotLacksPermission);
      }
      if member.topRole >= bot.topRole {
        RejectionAllocatesNothing(cmd, invoker, bot, dm, banReturned && unbanReturned, 0, clock, before);
        return Rejected(TargetOutranksBot);
      }
      var caseNumber := tracker.GetNextCaseNumber();
      if dm == DmError {
        FailureUsesNumber(cmd, invoker, bot, dm, banReturned && unbanReturned, 0, clock, before);
        return ActionFailed(caseNumber);
      }
      var dmSent := dm == DmDelivered;
      // The unban runs only after the ban returned; either call raising ends the command.
      if !banReturned || !unbanReturned {
        FailureUsesNumber(cmd, invoker, bot, dm, banReturned && unbanReturned, 0, clock, before);
        return ActionFailed(caseNumber);
      }
      tracker.SaveCase(caseNumber, "softban", member.id, invoker.id, reason, clock);
      RunCompleted(cmd, invoker, bot, dm, 0, clock, before);
      outcome := Recorded(caseNumber, if dmSent then DmSent else DmNotSent);
    }

    method Mute(invoker: Member, bot: Member, member: Member, duration: int, reason: string,
                dm: DmResult, timeoutReturned: bool, clock: Clock) returns (outcome: Outcome)
      requires tracker.Valid()
      modifies tracker
      ensures tracker.Valid()
      ensures outcome == Run(Command.Mute(member, reason, duration), invoker, bot, dm, timeoutReturned, 0, clock, old(tracker.State())).0
      ensures tracker.State() == Run(Command.Mute(member, reason, duration), invoker, bot, dm, timeoutReturned, 0, clock, old(tracker.State())).1
      ensures old(tracker.KeysBelowCounter()) ==> tracker.KeysBelowCounter()
    {
      ghost var before := tracker.State();
      ghost var cmd := Command.Mute(member, reason, duration);
      if !HasModeratorRole(invoker) {
        RejectionAllocatesNothing(cmd, invoker, bot, dm, timeoutReturned, 0, clock, before);
        return Rejected(NotModerator);
      }
      if duration < MIN_MUTE_MINUTES || duration > MAX_MUTE_MINUTES {
        RejectionAllocatesNothing(cmd, invoker, bot, dm, timeoutReturned, 0, clock, before);
        return Rejected(DurationOutOfRange);
      }
      if !Flag(bot, "moderate_members") {
        RejectionAllocatesNothing(cmd, invoker, bot, dm, timeoutReturned, 0, clock, before);
        return Rejected(BotLacksPermission);
      }
      if member.topRole >= bot.topRole {
        RejectionAllocatesNothing(cmd, invoker, bot, dm, timeoutReturned, 0, clock, before);
        return Rejected(TargetOutranksBot);
      }
      var caseNumber := tracker.GetNextCaseNumber();
      if dm == DmError {
        FailureUsesNumber(cmd, invoker, bot, dm, timeoutReturned, 0, clock, before);
        return ActionFailed(caseNumber);
      }
      var dmSent := dm == DmDelivered;
      if !timeoutReturned {
        FailureUsesNumber(cmd, invoker, bot, dm, timeoutReturned, 0, clock, before);
        return ActionFailed(caseNumber);
      }
      tracker.SaveCase(caseNumber, "mute", member.id, invoker.id,
        reason + " (Duration: " + IntToString(duration) + " minutes)", clock);
      RunCompleted(cmd, invoker, bot, dm, 0, clock, before);
      outcome := Recorded(caseNumber, if dmSent then DmSent else DmNotSent);
    }

    /**
     * Deletes up to `amount` messages in a channel. `purged` is the number of
     * messages the platform deleted, or nothing when deferring the reply or
     * the purge raised.
     */
    method Purge(invoker: Member, bot: Member, channelId: int, amount: int,
                 deferReturned: bool, purged: Option<nat>, clock: Clock) returns (outcome: Outcome)
      requires tracker.Valid()
      modifies tracker
      ensures tracker.Valid()
      ensures outcome == Run(Command.Purge(channelId, amount), invoker, bot, DmDelivered, deferReturned && purged.Some?,
                  if purged.Some? then purged.value else 0, clock, old(tracker.State())).0
      ensures tracker.State() == Run(Command.Purge(channelId, amount), invoker, bot, DmDelivered, deferReturned && purged.Some?,
                  if purged.Some? then purged.value else 0, clock, old(tracker.State())).1
      ensures old(tracker.KeysBelowCounter()) ==> tracker.KeysBelowCounter()
    {
      ghost var before := tracker.State();
      ghost var cmd := Command.Purge(channelId, amount);
      if !HasModeratorRole(invoker) {
        RejectionAllocatesNothing(cmd, invoker, bot, DmDelivered, deferReturned && purged.Some?, if purged.Some? then purged.value else 0, clock, before);
        return Rejected(NotModerator);
      }
      if amount < MIN_PURGE_AMOUNT || amount > MAX_PURGE_AMOUNT {
        RejectionAllocatesNothing(cmd, invoker, bot, DmDelivered, deferReturned && purged.Some?, if purged.Some? then purged.value else 0, clock, before);
        return Rejected(AmountOutOfRange);
      }
      if !Flag(bot, "manage_messages") {
        RejectionAllocatesNothing(cmd, invoker, bot, DmDelivered, deferReturned && purged.Some?, if purged.Some? then purged.value else 0, clock, before);
        return Rejected(BotLacksPermission);
      }
      var caseNumber := tracker.GetNextCaseNumber();
      if !deferReturned || purged.None? {
        FailureUsesNumber(cmd, invoker, bot, DmDelivered, deferReturned && purged.Some?, if purged.Some? then purged.value else 0, clock, before);
        return ActionFailed(caseNumber);
      }
      var deletedCount := purged.value;
      tracker.SaveCase(caseNumber, "purge", channelId, invoker.id,
        "Deleted " + IntToString(deletedCount) + " messages", clock);
      RunCompleted(cmd, invoker, bot, DmDelivered, if purged.Some? then purged.value else 0, clock, before);
      outcome := Recorded(caseNumber, NoDm);
    }
  }
}
