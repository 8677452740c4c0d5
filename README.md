# Moderation core of a Discord companion bot, in Dafny

This project models the bookkeeping core of a Discord moderation bot:

- the **case ledger** (`CaseTracker`), a dictionary from the decimal text of a case number to
  the case record, plus a counter that hands out case numbers;
- the **authorization predicates**, which decide moderator status and whether one member may
  moderate another;
- the **moderation commands** kick, ban, softban, mute and purge, modelled as the fixed sequence
  of checks, case-number allocation, direct message, platform action and case save;
- the **suggestion vote view**, which gives each user one vote.

Modules, one per source file plus three helpers:

| file | module | models |
|---|---|---|
| `wrappers.dfy` | `Wrappers` | `Option` for lookups that may find nothing |
| `decimal.dfy` | `Decimal` | `str(int)`, `str.isdigit` and `int(str)` on the keys of the case file |
| `ordered_dict.dfy` | `OrderedDict` | the insertion-ordered dictionary that holds the cases |
| `case_tracker.dfy` | `CaseTracking` | `bot/utils/case_tracker.py` |
| `permissions.dfy` | `Permissions` | `bot/utils/permissions.py` |
| `moderation.dfy` | `Moderation` | the ordering logic of `bot/cogs/moderation.py` |
| `suggestions.dfy` | `Suggestions` | the vote bookkeeping of `SuggestionView` in `bot/cogs/suggestions.py` |

How the model is built:

- **The case dictionary** is modelled like a Python `dict`. It keeps the order in which its keys
  were first inserted. Assigning to an existing key keeps that key's place. Deleting a key closes
  the gap. Because of this, the three history queries visit the values in a fixed order.
- **The case numbers.** `CaseTracker` is a class with fields `cases` and `nextCaseNumber`. A ghost
  field `issued` holds every number the instance has handed out. `Valid()` says three things: the
  dictionary is well formed, the counter is at least 1, and the counter is above every issued
  number.
- **The all-digit keys.** A second predicate, `KeysBelowCounter()`, says that every all-digit key
  is below the counter. It is kept apart from `Valid()` because `save_case` accepts any number.
  The constructor establishes it. Allocation, deletion and every moderation command preserve it.
  So a freshly allocated number never hits a stored key.
- **The commands.** Each one is a method that follows the source step by step, with its early
  returns. It is proved equal to the pure reference `Moderation.Run` acting on a `Ledger`
  snapshot `(cases, next)`. The lemmas about `Run` state the properties of the pipeline.
- **Platform calls.** The direct message, the platform action, the reply deferral and the number
  of purged messages are inputs. Each one says whether the call returned or raised, and in the
  DM's case which exception it raised. The clock readings stamped on a saved case are an input
  (`Clock`).
- **Direct messages.** The source catches only `discord.Forbidden` around the DM. So a refused DM
  only clears `dm_sent`. Any other DM error reaches the command's outer handler: the number is
  used up, the action does not happen and no case is saved. The model keeps this distinction
  (`DmForbidden` versus `DmError`).
- **The bot's permission flag.** Every command also checks that the bot holds the platform
  permission it needs (`kick_members`, `ban_members`, `moderate_members`, `manage_messages`). This
  check comes after the parameter check and before allocation. It is modelled as the rejection
  `BotLacksPermission`.
- **Errors.** A failed platform action records no case, not even one marked as failed. The
  number it was given is simply used up.

## Model

| member | source | states |
|---|---|---|
| `Decimal.NatToStringRoundTrip` | bot/utils/case_tracker.py:44 | the key written for a natural case number is all digits and parses back to that number |
| `Decimal.IntToStringDigits` | bot/utils/case_tracker.py:44 | the key of a number passes the digit test exactly when the number is not negative, and then parses back to it |
| `Decimal.NatToStringInjective` | bot/utils/case_tracker.py:44 | two different naturals never share a decimal text |
| `Decimal.IntToStringInjective` | bot/utils/case_tracker.py:69 | two different case numbers never share a key |
| `OrderedDict.Put` | bot/utils/case_tracker.py:69 | assignment stores the value under the key, leaves every other key unchanged, keeps the order of a present key and appends a new one |
| `OrderedDict.Remove` | bot/utils/case_tracker.py:141 | deletion leaves the key absent, every other key unchanged, and the remaining keys in their order |
| `OrderedDict.Values` | bot/utils/case_tracker.py:89 | the values in key order, one per key, each the value stored under the key at that position |
| `OrderedDict.ValuesMembership` | bot/utils/case_tracker.py:89 | a record is among the values exactly when some key maps to it |
| `OrderedDict.Size` | bot/utils/case_tracker.py:117-119 | the length of the key order equals the number of keys in the map |
| `CaseTracking.HighestCaseNumber` | bot/utils/case_tracker.py:38-48 | the result is at least every all-digit key's value and is either 0 or the value of such a key; non-digit keys are ignored |
| `CaseTracking.RestartAfterGap` | bot/utils/case_tracker.py:13 | with keys 1, 2, 5 and a non-digit key the counter starts at 6, not at the gap |
| `CaseTracking.FilterSpec` | bot/utils/case_tracker.py:88-91 | the filter keeps exactly the matching records, each with its multiplicity in the input |
| `CaseTracking.CollectMatching` | bot/utils/case_tracker.py:88-91 | the loop that appends each matching value in iteration order yields the filter of the values |
| `CaseTracking.InsertByNumber` | bot/utils/case_tracker.py:94 | inserting a record adds exactly that record: one more element, the same multiset plus it |
| `CaseTracking.InsertKeepsSorted` | bot/utils/case_tracker.py:94 | inserting into a sequence sorted by case number keeps it sorted |
| `CaseTracking.SortByNumber` | bot/utils/case_tracker.py:94 | the result is sorted by case number and is a permutation of the input |
| `CaseTracking.QueryAnswer` | bot/utils/case_tracker.py:85-95 | filtering the stored values and sorting them gives the stored records that match, with multiplicity, in ascending case-number order |
| `CaseTracking.FreshKeyAbsent` | bot/utils/case_tracker.py:50-54 | while all-digit keys stay below the counter, no number at or above it has a stored case |
| `CaseTracking.PutKeepsKeysBelow` | bot/utils/case_tracker.py:56-70 | saving a number below the counter keeps every all-digit key below it |
| `CaseTracking.CaseTracker.constructor` | bot/utils/case_tracker.py:10-25 | starts from the loaded dictionary, or an empty one when loading fails; the counter is the highest all-digit key plus 1; nothing has been issued yet |
| `CaseTracking.CaseTracker.GetNextCaseNumber` | bot/utils/case_tracker.py:50-54 | returns the counter and raises it by exactly 1; the number is positive, was never issued before and has no stored case; the cases do not change |
| `CaseTracking.CaseTracker.SaveCase` | bot/utils/case_tracker.py:56-75 | the key of the number now holds a record with the given fields (last write wins); every other number's case and the counter are unchanged |
| `CaseTracking.CaseTracker.GetCase` | bot/utils/case_tracker.py:77-83 | the stored record when the key is present, nothing (the empty record) otherwise |
| `CaseTracking.CaseTracker.CasesWhere` | bot/utils/case_tracker.py:88-95 | the loop over the values collects the filtered records and sorts them; the result answers the query |
| `CaseTracking.CaseTracker.GetCasesByTarget` | bot/utils/case_tracker.py:85-99 | exactly the stored records with that target, sorted by case number |
| `CaseTracking.CaseTracker.GetCasesByModerator` | bot/utils/case_tracker.py:101-115 | exactly the stored records by that moderator, sorted by case number |
| `CaseTracking.CaseTracker.GetTotalCases` | bot/utils/case_tracker.py:117-119 | the number of keys in the dictionary |
| `CaseTracking.CaseTracker.GetCasesByAction` | bot/utils/case_tracker.py:121-135 | exactly the stored records of that action, sorted by case number |
| `CaseTracking.CaseTracker.DeleteCase` | bot/utils/case_tracker.py:137-149 | returns true exactly when the key was present and then removes only that key; otherwise nothing changes; the counter is never touched |
| `Permissions.HasRoleWithId` | bot/utils/permissions.py:11-14 | the early-returning scan finds the role exactly when its id is among the member's roles |
| `Permissions.HasModeratorRole` | bot/utils/permissions.py:8-24 | true exactly when the member has the moderator role, owns the guild or has the administrator flag |
| `Permissions.HasPermission` | bot/utils/permissions.py:30-39 | true for every moderator; otherwise the value of the named flag, false for an unknown name |
| `Permissions.IsModeratorOrHigher` | bot/utils/permissions.py:45-47 | the same three conditions as moderator status |
| `Permissions.CanModerateMember` | bot/utils/permissions.py:49-64 | true exactly when the moderator has moderator status, outranks the target or owns the guild, and the target is not the owner |
| `Permissions.NonModeratorCannotModerate` | bot/utils/permissions.py:53-54 | without moderator status the answer is false |
| `Permissions.OutrankedModeratorCannotModerate` | bot/utils/permissions.py:57-58 | a target at or above the moderator's rank is refused unless the moderator owns the guild |
| `Permissions.OwnerCannotBeModerated` | bot/utils/permissions.py:61-62 | the guild owner can never be moderated, not even by the owner |
| `Permissions.OwnerMayModerateAnyRank` | bot/utils/permissions.py:57-64 | the owner may moderate any non-owner whatever the ranks |
| `Moderation.RejectionAllocatesNothing` | bot/cogs/moderation.py:29-42 | a command refused by a check leaves the ledger, counter included, exactly as it was |
| `Moderation.NonModeratorRejected` | bot/cogs/moderation.py:29-31 | a caller without moderator status is rejected first, whatever the command |
| `Moderation.DeleteDaysBounds` | bot/cogs/moderation.py:100-102 | for ban and softban, delete days are rejected exactly outside 0..7 |
| `Moderation.DurationBounds` | bot/cogs/moderation.py:243-245 | for mute, a duration is rejected exactly outside 1..40320 |
| `Moderation.AmountBounds` | bot/cogs/moderation.py:317-319 | for purge, an amount is rejected exactly outside 1..100 |
| `Moderation.HierarchyIsAgainstBot` | bot/cogs/moderation.py:40-42 | after the earlier checks, kick, ban, softban and mute are refused exactly when the target ranks at or above the bot, and the invoker's rank never matters |
| `Moderation.FailureUsesNumber` | bot/cogs/moderation.py:45-67 | when the DM raises something other than Forbidden, or the platform action raises, the number is used up and no case is recorded |
| `Moderation.RefusedDmStillRecords` | bot/cogs/moderation.py:48-67 | a refused DM only clears the DM flag; the case is still recorded |
| `Moderation.SuccessRecordsOneCase` | bot/cogs/moderation.py:45-67 | a completed command adds exactly one case under a key that was free, holding the command's record; other keys keep their records and the counter moves past the number |
| `Moderation.RecordedFields` | bot/cogs/moderation.py:283-337 | the action kind and the fields each command records, including the mute duration suffix and the purge channel and count |
| `Moderation.RunKeepsKeysBelow` | bot/cogs/moderation.py:45-67 | every command keeps all stored all-digit keys below the counter, and the counter never decreases |
| `Moderation.DefaultsPassParameterCheck` | bot/cogs/moderation.py:92-102 | the default delete-days of ban (0) and softban (1) pass the range check |
| `Moderation.ModerationCog.constructor` | bot/cogs/moderation.py:12-14 | the cog builds its own case tracker from the loaded case file, with the counter at the highest all-digit key plus 1 and nothing issued |
| `Moderation.ModerationCog.Kick` | bot/cogs/moderation.py:25-88 | the step-by-step kick equals the reference pipeline on the tracker state |
| `Moderation.ModerationCog.Ban` | bot/cogs/moderation.py:90-159 | the step-by-step ban equals the reference pipeline on the tracker state |
| `Moderation.ModerationCog.Softban` | bot/cogs/moderation.py:161-231 | the ban and the unban must both return before the case is saved; equals the reference pipeline |
| `Moderation.ModerationCog.Mute` | bot/cogs/moderation.py:233-305 | the step-by-step mute equals the reference pipeline on the tracker state |
| `Moderation.ModerationCog.Purge` | bot/cogs/moderation.py:307-357 | purge has no DM and no rank check; the case is saved, with the deleted count, only after the deferral and the purge return |
| `Suggestions.CastAllCounts` | bot/cogs/suggestions.py:14-35 | after any sequence of presses the voters are exactly the users who pressed, and upvotes plus downvotes equals their number |
| `Suggestions.RepeatVoteIgnored` | bot/cogs/suggestions.py:20-22 | a press by a user who already voted changes nothing |
| `Suggestions.SuggestionView.constructor` | bot/cogs/suggestions.py:10-16 | a new view has no votes and no voters |
| `Suggestions.SuggestionView.Upvote` | bot/cogs/suggestions.py:19-26 | a new voter raises upvotes by 1 and joins the voters; a repeat voter changes nothing; the invariant holds |
| `Suggestions.SuggestionView.Downvote` | bot/cogs/suggestions.py:29-36 | a new voter raises downvotes by 1 and joins the voters; a repeat voter changes nothing; the invariant holds |

## Left out

- Reading and writing `data/cases.json`. Loading is a given dictionary, or an empty one when the
  file is missing or unreadable. Writing the file back after a save or a delete changes nothing in
  the model, so write failures, which the source only logs, are not modelled.
- Malformed case files. Loaded records are assumed to have every field a saved record has. A file
  whose top level is not a JSON object is not modelled. Nor is a record with missing fields: the
  source reads those as `None` in the filters and as 0 in the sort key.
- `str.isdigit` on non-ASCII digits. The model's digit test accepts only `0`..`9`. In the source,
  a key of other Unicode decimal digits (such as Arabic-Indic nine) counts towards the highest
  number, while the model skips it. A key such as a superscript two passes `isdigit` but makes
  `int` raise; the handler at `_get_highest_case_number` then returns 0, so the counter restarts
  at 1 and later saves can overwrite stored cases. Neither path is modelled.
- Default command options. The commands' methods take every option explicitly. When the invoker
  leaves one out, the caller passes the source's default: `DEFAULT_REASON` for the reason of kick,
  ban, softban and mute; `DEFAULT_BAN_DELETE_DAYS` (0) for ban; `DEFAULT_SOFTBAN_DELETE_DAYS` (1)
  for softban.
- The permissions object. `getattr` on a name that is an attribute but not a flag (such as
  `value`) returns that attribute. The model has only flags, and an unknown name is false.
  Exceptions swallowed by `try`/`except` in the permission functions are not modelled, because
  they cannot arise for a well-formed member.
- `Permissions.CanModerateMember`: a discord role is reduced to its integer position.
  Equal-position tie-breaking inside discord's role comparison is not modelled. The same holds for
  the bot-versus-target rank checks of the commands.
- Embeds, replies, `interaction.response` and `followup` handling, logging and
  `log_command_usage`. None of them affects the tracker. The emoji helper is not modelled either.
- Concurrency. One tracker instance is used sequentially. Interleaved commands sharing the
  counter, and the separate tracker built by the infraction cog, are not modelled.
- Vote percentages in `update_embed`, which are floating-point display values.
- `bot/cogs/infraction.py`, `bot/cogs/sessions.py`, `bot/cogs/messaging.py`,
  `bot/cogs/member_count.py`, `bot/cogs/welcome.py`, `main.py` and `keep_alive.py`. These are
  presentation and network glue, or repeat the allocate-then-save pattern.
- Point balances and automatic escalation to ban. No source file implements them.
- `CaseTracking.SortByNumber` is an insertion sort, so it is stable by construction, like the
  sort the source uses. Its contract states sortedness and permutation but not stability.
