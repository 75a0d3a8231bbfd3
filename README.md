# ModLog cog, modelled in Dafny

Red's ModLog cog lets a guild's moderators configure moderation logging.
They set or clear the mod log channel (`modlogset modlog`), list the case
types or toggle one of them (`modlogset cases`), and reset the guild's
cases (`modlogset resetcases`). They can also show a case (`case`), name
the moderator of a case that has none (`casemod`) and change a case's
reason (`reason`). Each command that changes state checks its guards and
then asks the modlog library for at most one change; `resetcases` has no
guard of its own, and `case` and the listing of case types only read.

The model treats each command as a guarded transition of one guild's
modlog state. That state is:

- the optional log channel;
- the registered case types, in registration order, with an enabled flag for each;
- a map from case number to `Case`.

The code is split into three modules:

- `ModlogLibrary` (`modlog_library.dfy`) is the part of the library the cog relies on.
  It holds users, channels, message timestamps, the `Case` record and the
  patch dictionary given to `Case.edit`. `Edit` overwrites exactly the keys
  the patch carries.
- `ModLogCog` (`modlog_cog.dfy`) gives each command twice:
  - as a function `Apply…` from the old state to an `Outcome`, which holds
    the new state and the replies in the order they are sent;
  - as a handler method of class `ModLog`, which performs the command in
    place on the guild's fields and is proved to agree with that function.

  The pure parts of `reason` are functions: `MayEditReason` (who may edit)
  and `ReasonPatch` (the patch it builds). `Command`, `Apply` and `Run`
  run commands one after another.
- `ModLogProperties` (`modlog_properties.dfy`) proves what the commands
  promise. This includes the rule that an error branch leaves the state
  unchanged, and facts that hold across any sequence of commands.

The world outside the cog appears as parameters:

- whether the bot may send messages in a channel (`botCanSend`);
- whether the author is a mod (`authorIsMod`);
- the guild owner (`owner`);
- the time the command message was created (`at`).

## Model

| member | source | states |
|---|---|---|
| `ModlogLibrary.Edit` | redbot/cogs/modlog/modlog.py:129-130 | editing a case overwrites exactly the fields present in the patch and keeps every other field, including action type and target |
| `ModLogCog.Listing` | redbot/cogs/modlog/modlog.py:65-68 | the listing has one line per case type |
| `ModLogCog.MayEditReason` | redbot/cogs/modlog/modlog.py:161-164 | the author may edit exactly when they are the guild owner, the case's moderator or a mod: the case's own moderator always may, anyone who is none of the three may not, and a case with no moderator may be edited only by the owner or a mod (`ReasonEditIffAuthorized` writes the same check out) |
| `ModLogCog.ReasonPatch` | redbot/cogs/modlog/modlog.py:167-172 | the patch always carries the new reason and the message time; it names the author as amender exactly when the author is not the case's moderator, a case with no moderator included; it never carries a moderator |
| `ModLogCog.ApplyModlog` | redbot/cogs/modlog/modlog.py:31-52 | setting or clearing the channel touches only the channel, and the channel becomes either its old value or the requested one |
| `ModLogCog.ApplyCases` | redbot/cogs/modlog/modlog.py:58-86 | listing or toggling keeps the state well formed and leaves the channel, the cases, the set of registered types and every flag other than the named one unchanged |
| `ModLogCog.ApplyResetCases` | redbot/cogs/modlog/modlog.py:92-94 | a reset leaves the guild with no cases and keeps the channel and the case-type flags |
| `ModLogCog.ApplyCase` | redbot/cogs/modlog/modlog.py:100-106 | showing a case changes nothing and sends one reply, the stored case under the requested number exactly when that number exists |
| `ModLogCog.ApplyCaseMod` | redbot/cogs/modlog/modlog.py:119-133 | `casemod` keeps the set of case numbers and every other case, and never changes a case that already has a moderator |
| `ModLogCog.ApplyReason` | redbot/cogs/modlog/modlog.py:141-174 | `reason` keeps the set of case numbers, every other case and the edited case's moderator |
| `ModLogCog.Apply` | redbot/cogs/modlog/modlog.py:18-174 | every command keeps the state well formed; it never adds a case number, never changes a case's action type or target, never replaces a moderator that is set, and keeps the registered case types |
| `ModLogCog.Run` | redbot/cogs/modlog/modlog.py:18-174 | any sequence of commands run one after another keeps the state well formed |
| `ModLogCog.ModLog.CurrentSettings` | redbot/cogs/modlog/modlog.py:61-68 | the loop builds the listing of every registered case type with its flag, in registration order |
| `ModLogCog.ModLog.Modlog` | redbot/cogs/modlog/modlog.py:27-52 | the handler's new state and replies are those of `ApplyModlog` on the old state |
| `ModLogCog.ModLog.SetCases` | redbot/cogs/modlog/modlog.py:56-86 | the handler's new state and replies are those of `ApplyCases` on the old state |
| `ModLogCog.ModLog.ResetCases` | redbot/cogs/modlog/modlog.py:90-94 | the handler's new state and replies are those of `ApplyResetCases` on the old state |
| `ModLogCog.ModLog.ShowCase` | redbot/cogs/modlog/modlog.py:98-106 | the handler changes nothing and replies as `ApplyCase` does |
| `ModLogCog.ModLog.CaseMod` | redbot/cogs/modlog/modlog.py:111-133 | the handler's new state and replies are those of `ApplyCaseMod` on the old state |
| `ModLogCog.ModLog.Reason` | redbot/cogs/modlog/modlog.py:137-174 | the handler's new state and replies are those of `ApplyReason` on the old state |
| `ModLogProperties.SetChannelNeedsPermission` | redbot/cogs/modlog/modlog.py:32-44 | a channel is stored only when the bot may send messages there; without that permission the state is unchanged and the refusal is the only reply |
| `ModLogProperties.ClearChannel` | redbot/cogs/modlog/modlog.py:45-52 | with no channel argument: help and no change when no channel is configured, otherwise the channel becomes none and nothing else changes |
| `ModLogProperties.ListingAt` | redbot/cogs/modlog/modlog.py:65-68 | the i-th line of the listing is the i-th case type with its flag |
| `ModLogProperties.ListingShowsEveryType` | redbot/cogs/modlog/modlog.py:60-72 | with no action, exactly two replies are sent: help first, then every registered case type with its flag in order, and no flag changes |
| `ModLogProperties.UnregisteredActionChangesNothing` | redbot/cogs/modlog/modlog.py:73-75 | naming an unregistered action changes nothing and only reports it |
| `ModLogProperties.ToggleNegates` | redbot/cogs/modlog/modlog.py:76-86 | toggling a registered action sets its flag to the negation of the old flag, reports the new value, and changes nothing else |
| `ModLogProperties.ToggleTwiceRestores` | redbot/cogs/modlog/modlog.py:73-79 | toggling the same action twice restores the original state |
| `ModLogProperties.ResetClearsCasesOnly` | redbot/cogs/modlog/modlog.py:92-94 | a reset empties the case store and changes nothing else |
| `ModLogProperties.ShowCaseChangesNothing` | redbot/cogs/modlog/modlog.py:100-104 | showing a case never changes the state, and a missing number gets the not-found reply |
| `ModLogProperties.CaseModNeverOverwrites` | redbot/cogs/modlog/modlog.py:120-128 | a missing case, or one that already has a moderator, leaves the state unchanged, whoever the caller is |
| `ModLogProperties.CaseModSetsOnlyModerator` | redbot/cogs/modlog/modlog.py:129-133 | otherwise only that case's moderator changes, to the given user |
| `ModLogProperties.ReasonRejectsEmptyOrMissing` | redbot/cogs/modlog/modlog.py:143-150 | an empty reason or a missing case number leaves the state unchanged |
| `ModLogProperties.ReasonEditIffAuthorized` | redbot/cogs/modlog/modlog.py:152-174 | the reason is updated, with the new text and the message time, if and only if the author is the guild owner, the case's moderator or a mod; an unauthorized call changes nothing; a case with no moderator draws a warning either way |
| `ModLogProperties.MissingModeratorOnlyWarns` | redbot/cogs/modlog/modlog.py:152-174 | a case with no moderator is still amended by the owner or a mod: the warning is sent, the reason changes, and the moderator stays unset |
| `ModLogProperties.ReasonEditFields` | redbot/cogs/modlog/modlog.py:167-173 | a successful edit sets the reason and the modification time, records the author as amender exactly when the author is not the case's moderator, keeps the moderator, and changes no other case |
| `ModLogProperties.EvolvesTransitive` | redbot/cogs/modlog/modlog.py:18-174 | the guarantees of `Apply` compose from one command to the next |
| `ModLogProperties.RunEvolves` | redbot/cogs/modlog/modlog.py:18-174 | across any sequence of commands no case number is created, no action type or target changes, no set moderator is replaced, and the case types stay the same |
| `ModLogProperties.ModeratorIsPermanent` | redbot/cogs/modlog/modlog.py:126-130 | a moderator that is set stays the case's moderator for as long as the case exists, whatever commands follow |

## Left out

- Discord I/O is left out. Replies are values of `Reply`, one per `send` or `send_help`, in the order they are sent. Their wording, translation, `box`/`warning` formatting, mentions and the case embed are not modelled.
- The listing is a sequence of `(name, enabled)` lines, not the formatted text block.
- The permission decorators `guildowner_or_permissions`, `admin_or_permissions` and `guild_only` belong to the command framework and are not modelled. So `casemod`'s admin requirement is not modelled, and neither is the refusal of commands outside a guild.
- `channel.permissions_for(...).send_messages` and `bot.is_mod` are boolean parameters. The guild owner is a parameter too.
- The library's storage, its case numbering and case creation are not modelled. `reset_cases` is modelled as emptying the guild's case store, which is what resetting cases means to the cog. What numbers later cases receive is not modelled.
- `get_modlog_channel` is modelled as failing exactly when no channel is configured. Any other reason it might fail inside the library is not modelled.
- The float timestamp given as `modified_at` is an opaque `Timestamp` value.
- The bare `modlogset` group, called without a subcommand (redbot/cogs/modlog/modlog.py:18-23), only sends help and changes no state; it is not a `Command` of the model.
- async/await is left out. Commands run one at a time, to completion, which is what `Run` models.
