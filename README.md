# Devils-Cogs: counting channels, invite tracking and bulk roles in Dafny

This project models three cogs of a chat bot and proves properties of the models.

- **Counting channels** (`counting/counting.py`): members post 1, 2, 3, … in turn.
  - Per server the cog keeps a map from channel to `{last, count, goal, strict}`.
  - It also keeps one *shield* list. A shielded author's next message delete was caused by the bot itself and is not punished.
  - Admin commands `add`, `remove`, `set`, `strict` and `goal` edit the map.
  - `on_message` accepts a message that is exactly the next number, or the next number followed by a space and more text. Once the count has passed a positive goal, every message that is not a strict-mode repeat is ignored without a reply. Otherwise a strict-mode repeat or a message that does not start with the next number is deleted and answered, and its author is shielded.
  - `on_message_edit` and `on_message_delete` punish tampering with an accepted count.
- **Invite tracking** (`inviteutils/inviteutils.py`): per server it keeps welcome settings and a table from invite URL to `{uses, role?}`.
  - `inv_update` reconciles the table with the live invite list.
  - `addrole` and `removerole` bind a role to an invite and unbind it. Each accepts the invite as an https URL, an http URL or a bare code.
  - `list` prints the bound invites as padded lines.
  - `on_member_join` guesses the invite used from the rise in its use count, gives its role and announces the member.
- **Bulk roles** (`globalrole/globalrole.py`): `globalrole add|remove|stop <role>` adds a role to every member or removes it from every member.
  - A `busy` flag allows one job at a time.
  - A `stop` flag, raised by a concurrent `stop` request, is checked after each member.
  - Progress is reported every ten members.

## How it is modelled

Every platform call a handler makes is an `Effect` value in a returned list. This covers replies, topic edits, message deletes, permission changes, role changes and saves to disk. Each reply is a constructor of a `Reply` or `Notice` datatype that stands for its text. A constructor carries the values the text is built from; a role appears as its id even where the text shows its name (`RoleBound`).

A live invite's URL (`inv.url` in the code) is modelled as `http://discord.gg/` followed by the invite's code (`Url`). This is how the platform renders invite URLs. The normalisation lemmas (`NormalisationAgrees`, `BindTargetFinds`) and the keys that `removerole` and `list` work with depend on it.

Anything a handler looks up or awaits is an input to the model:
- the invite list fetched from the platform (`None` when the fetch raises);
- the server's roles, as a map from id to name, and the role found by name;
- rank comparisons in the role hierarchy, as integers;
- the answer of a confirmation dialogue, as a boolean;
- the moment a concurrent `stop` arrives, as the index of the member being processed.

The files:
- `wrappers.dfy` holds the `Option` datatype.
- `text.dfy` models Python's `str(int)`, `str.split(sep)`, `str.startswith` and an ASCII `str.lower`.
- `patterns.dfy` states the two regular expressions of the counting cog as exact string predicates. This includes what Python's `.` and `$` do around a final newline.
- `counting.dfy` has the class `Counting`. Each handler is a method over the fields `settings` and `shield`. It is proved equal to a pure step function (`AddSpec`, `MessageSpec`, …) on a `CogState`, and the lemmas about several events are stated over those functions.
- `inviteutils.dfy` has the class `InviteUtils`.
  - `inv_update`'s two loops (sync, then prune) are methods with loop invariants. They are proved to compute `Reconcile`, whose properties are lemmas.
  - The search loop of `addrole`, the attribution loop of `on_member_join` and the line loop of `list` are methods proved against recursive functions (`BindTarget`, `JoinLoop`, `ListBody`).
- `globalrole.dfy` has the class `GlobalRole` with its `busy` and `stop` fields. The member loop is a method proved against `LoopEffects` and `Processed`.

Behaviours of the code worth noting:
- A counting channel ignores messages only when `goal > 0` and `count > goal` (strictly greater), not from `count >= goal` on.
  - At `count == goal` the engine still accepts `goal + 1`. Only the permission change closes the channel (`GoalGateIsStrict`).
  - With no goal (0), a count set to -1 lets the message "0" reach the "goal" and lock the channel (`ZeroGoalLocksAfterMinusOne`).
- The "cannot send" and "cannot read" restrictions of a tamper penalty are never lifted by the code. They are modelled as two permission effects with nothing undoing them.
- Edits of a count accepted for a negative number are not detected when the new text does not start with a digit. Neither text yields a token, and the two "no token" values (0 in the code) compare equal, so "-5" edited into "-6" is silent (`NegativeCountEditIsSilent`).
- The bulk role command has only `add`, `remove` and `stop`.

## Model

| member | source | states |
|---|---|---|
| Text.NatToString | counting/counting.py:153-154 | at least one digit, only digits, and a leading '0' exactly for 0; DigitsValueOfNatToString reads it back |
| Text.IntToString | counting/counting.py:153-154 | a non-negative number renders as digits whose value is the number; a negative one as '-' followed by digits whose value is its absolute value |
| Text.IntToStringInjective | counting/counting.py:153-154 | two numbers with the same decimal rendering are equal |
| Text.DigitsValueOfNatToString | counting/counting.py:153-154 | reading back the digits of a rendered natural gives the number |
| Text.Split | inviteutils/inviteutils.py:283-287 | Python's `split(sep)` keeping empty fields; at least one field; SplitJoin is its inverse |
| Text.SplitJoin | inviteutils/inviteutils.py:283-284 | joining the fields of `split(sep)` with sep gives back the string, and no field contains sep |
| Text.Lower | globalrole/globalrole.py:32 | same length, each character lowered independently |
| CountPatterns.RestThenEnd | counting/counting.py:154 | the tail `(?: .*)?$`: empty, a lone final newline, or a space then newline-free text with at most one final newline |
| CountPatterns.AcceptsCount | counting/counting.py:153-154 | `re.search(r"^{}(?: .*)?$".format(n), content)`: the content starts with str(n) and the rest satisfies RestThenEnd; AcceptsAtMostOne and AcceptedMessageToken are its partners |
| CountPatterns.LeadingNumber | counting/counting.py:189-198 | a returned token is a non-empty digit prefix followed by a tail that `(?: .*)?$` accepts |
| CountPatterns.LeadingNumberIsTheMatch | counting/counting.py:189-198 | the token is d exactly when the content splits as digits d plus an accepted tail; no other split exists for backtracking to find |
| CountPatterns.AcceptsAtMostOne | counting/counting.py:153-154 | a message is an acceptable count for at most one number |
| CountPatterns.AcceptedMessageToken | counting/counting.py:153-191 | the token the edit handler reads from a message accepted for n is the rendering of n when n >= 0, and there is none when n < 0 |
| CountPatterns.AcceptExamples | counting/counting.py:153-154 | "10" is refused when 1 is expected; "1", "6 let's go" and "6\n" are accepted; "6let's go" and "7 let's go" are not accepted for 6 |
| CountPatterns.TokenExamples | counting/counting.py:189-198 | tokens of "42 x", "42" and "0"; no token (None, which differs from Some("0")) for "x" and "4x" |
| CountingEngine.Shielded | counting/counting.py:125-126 | the author is in the result, nothing else is added, and a duplicate-free list stays duplicate-free |
| CountingEngine.RemoveFirst | counting/counting.py:229-231 | only the author's entry is removed; the length drops by one when the author was present; in a duplicate-free list the author is then absent |
| CountingEngine.ShieldRoundTrip | counting/counting.py:124-231 | shielding an unshielded author and then consuming the shield gives back the list |
| CountingEngine.Topic | counting/counting.py:119-121 | the topic announcing the next number, with the goal appended only when the goal is positive |
| CountingEngine.RespondEffects | counting/counting.py:124-133 | the calls of `respond`: delete the message, post the notice, delete the notice |
| CountingEngine.PenaltyEffects | counting/counting.py:234-242 | the calls of the tamper penalty: the call-out, no sending, no reading, then the call-out deleted |
| CountingEngine.Watched | counting/counting.py:136-142 | the guards shared by the three message handlers: not the bot's own message, a known server, a registered channel |
| CountingEngine.Refusal | counting/counting.py:61-66 | the refusal of an admin command: "uninitialized server" for an unknown server, else "not a counting channel" |
| CountingEngine.AddSpec | counting/counting.py:41-54 | the channel ends registered and nothing else changes; an existing channel is refused with no change; a new one gets `{None, 0, 0, False}` and a Save, also when the server was unknown; an unknown server is initialised first, with the "initialized" reply first |
| CountingEngine.RemoveSpec | counting/counting.py:57-70 | an unknown server or channel gets its refusal and no change; otherwise only that channel is deleted, the topic cleared and the settings saved |
| CountingEngine.SetSpec | counting/counting.py:73-87 | only count (to n) and last (to None) change, and the topic announces n + 1; unknown server or channel: refusal, no change |
| CountingEngine.StrictSpec | counting/counting.py:90-102 | only the strict flag changes, to its negation, and the reply reports the new value; unknown server or channel: refusal, no change |
| CountingEngine.GoalSpec | counting/counting.py:105-122 | only the goal changes, and the topic shows the old count + 1 and the goal; unknown server or channel: refusal, no change |
| CountingEngine.Judge | counting/counting.py:144-155 | a strict repeat by the last author is rejected whatever it says; a message is ignored exactly when it is not a strict repeat and goal > 0 and count > goal; an accepted message matches `^{count+1}(?: .*)?$` and a wrong one does not |
| CountingEngine.AcceptEffects | counting/counting.py:160-172 | on reaching the goal: only the lock and the announcement, with no topic and no save; otherwise the topic announces n + 1, and a save happens exactly when n is a multiple of 10 |
| CountingEngine.MessageSpec | counting/counting.py:135-175 | the bot's own messages and unwatched channels are ignored; accepting sets count to exactly count + 1 and last to the author and changes nothing else; an ignored message changes nothing; a rejected one leaves the settings alone, shields the author and deletes the message first; the shield stays duplicate-free |
| CountingEngine.EditSpec | counting/counting.py:177-216 | equal tokens (both absent, or the same digits) change nothing; different tokens shield the author, delete the message and apply the penalty; the settings never change |
| CountingEngine.DeleteSpec | counting/counting.py:218-242 | a shielded author's delete only consumes one shield entry of that author: no effects, one entry fewer, every other author kept, no author added; an unshielded author's delete changes nothing and is penalised; the settings never change |
| CountingEngine.Counting.constructor | counting/counting.py:17-20 | the settings are the stored ones and the shield starts empty |
| CountingEngine.Counting.ServerInit | counting/counting.py:28-31 | the server's channel map becomes empty and nothing else changes |
| CountingEngine.Counting.Add | counting/counting.py:41-54 | the new state and the effects are those of AddSpec, and the shield stays duplicate-free |
| CountingEngine.Counting.Remove | counting/counting.py:57-70 | new state and effects are those of RemoveSpec |
| CountingEngine.Counting.SetCount | counting/counting.py:73-87 | new state and effects are those of SetSpec |
| CountingEngine.Counting.Strict | counting/counting.py:90-102 | new state and effects are those of StrictSpec |
| CountingEngine.Counting.Goal | counting/counting.py:105-122 | new state and effects are those of GoalSpec |
| CountingEngine.Counting.Respond | counting/counting.py:124-133 | the author is shielded, added only when absent; the message is deleted, the notice posted and removed again |
| CountingEngine.Counting.Advance | counting/counting.py:157-159 | the two field writes of an accepted message: count + 1 and last := author, nothing else |
| CountingEngine.Counting.OnMessage | counting/counting.py:135-175 | the new state and the effects are those of MessageSpec |
| CountingEngine.Counting.OnMessageEdit | counting/counting.py:177-216 | the new state and the effects are those of EditSpec |
| CountingEngine.Counting.OnMessageDelete | counting/counting.py:218-242 | the new state and the effects are those of DeleteSpec |
| CountingEngine.AcceptedExactlyWhen | counting/counting.py:144-155 | the message is accepted if and only if it is not a strict repeat, the goal is not passed, and it starts with the next number |
| CountingEngine.StrictNoTwoInARow | counting/counting.py:144-159 | in strict mode an author's message right after their accepted one is a strict repeat, whatever it says: the settings stay, the author is shielded |
| CountingEngine.RejectThenDeleteRestores | counting/counting.py:124-231 | a rejected message followed by the bot's own delete of it leaves the whole cog as it was, with no effects from the delete |
| CountingEngine.TamperThenDeleteRestores | counting/counting.py:199-231 | a tampering edit followed by the bot's delete of the edited message leaves the cog state as it was |
| CountingEngine.EditKeepingCountIsSilent | counting/counting.py:189-201 | editing a text accepted for n into another text accepted for n changes nothing and has no effects, for negative n too |
| CountingEngine.EditChangingCountIsPunished | counting/counting.py:189-216 | for n >= 0, editing a text accepted for n into one not accepted for n deletes it, denies sending and shields the author |
| CountingEngine.NegativeCountEditIsSilent | counting/counting.py:189-199 | an edit of a text accepted for a negative number into one not starting with a digit changes nothing and has no effects |
| CountingEngine.PassedGoalIsFrozen | counting/counting.py:151-152 | once count > goal > 0, no message changes the settings |
| CountingEngine.GoalGateIsStrict | counting/counting.py:151-166 | in a non-strict channel with no last author, at count == goal the engine still accepts goal + 1, and after that it ignores every message from every author |
| CountingEngine.ZeroGoalLocksAfterMinusOne | counting/counting.py:83-166 | with goal 0, `set -1` followed by "0" reaches count 0 == goal and locks the channel |
| CountingEngine.StrictTwiceIsIdentity | counting/counting.py:100-101 | `strict` applied twice gives back the same cog state |
| CountingEngine.CountFromFiveExample | counting/counting.py:149-158 | at count 5 with goal 10, "6 let's go" makes the count 6, and "7 let's go" leaves the settings unchanged |
| InviteTracker.UrlFields | inviteutils/inviteutils.py:282-284 | field 3 of `split('/')` of either URL form is the first field of what follows the prefix |
| InviteTracker.UrlCode | inviteutils/inviteutils.py:287 | field 3 of a stored URL is the first '/'-field after `http://discord.gg/` |
| InviteTracker.InviteCode | inviteutils/inviteutils.py:282-284 | an https or http URL argument becomes the first '/'-field after its prefix; any other argument is kept |
| InviteTracker.InviteKey | inviteutils/inviteutils.py:311-315 | every argument becomes `http://discord.gg/` + the code that `addrole` would extract from it |
| InviteTracker.CodeOfUrl | inviteutils/inviteutils.py:282-315 | for a slash-free code, both URL forms give that code and, in `removerole`, the http URL |
| InviteTracker.NormalisationAgrees | inviteutils/inviteutils.py:282-315 | for a slash-free code, the https URL, the http URL and the bare code name the same code and the same stored key; a live invite's URL gives back its code |
| InviteTracker.Url | inviteutils/inviteutils.py:54 | the URL of a live invite: `http://discord.gg/` followed by its code |
| InviteTracker.Sync | inviteutils/inviteutils.py:53-58 | the first loop of `inv_update` as a fold: an unseen URL is inserted with its uses and no role; a known one gets its uses refreshed |
| InviteTracker.SyncKeys | inviteutils/inviteutils.py:53-58 | after the first loop the keys are the old keys plus the live URLs |
| InviteTracker.SyncKeepsOthers | inviteutils/inviteutils.py:53-58 | the first loop leaves entries of invites that are not live untouched |
| InviteTracker.SyncRoles | inviteutils/inviteutils.py:54-57 | the first loop keeps every old role, and a newly seen invite has none |
| InviteTracker.SyncUses | inviteutils/inviteutils.py:53-57 | after the first loop each live invite's uses are those of its last occurrence in the list |
| InviteTracker.Reconcile | inviteutils/inviteutils.py:52-61 | the keys are exactly the live URLs; uses come from the live list; roles are kept, and new invites have none |
| InviteTracker.LastOccurrence | inviteutils/inviteutils.py:53-58 | every live URL has a last occurrence in the list |
| InviteTracker.ReconcileIdempotent | inviteutils/inviteutils.py:52-61 | reconciling a reconciled table with the same live list changes nothing |
| InviteTracker.UpdateSpec | inviteutils/inviteutils.py:45-62 | the settings after `inv_update`: unchanged for an unknown server or a failed fetch, otherwise the server's table becomes Reconcile of the live list |
| InviteTracker.UpdateIdempotent | inviteutils/inviteutils.py:45-62 | `inv_update` twice with the same fetch result equals `inv_update` once, including when the server is unknown or the fetch failed |
| InviteTracker.UpdateKeepsWellFormed | inviteutils/inviteutils.py:52-61 | after `inv_update` every stored key is still an invite URL |
| InviteTracker.Candidate | inviteutils/inviteutils.py:390 | a live invite is a candidate when its URL is stored and its live uses exceed the stored uses |
| InviteTracker.Label | inviteutils/inviteutils.py:391-399 | the role shown in the welcome: the role's name, "deleted-role" when the bound role is gone, "None" when none is bound |
| InviteTracker.Attribution | inviteutils/inviteutils.py:390-411 | the calls for one candidate: its role given when it still exists, then, with join messages on, the announcement with the role's label |
| InviteTracker.JoinLoop | inviteutils/inviteutils.py:389-412 | the attribution loop: candidates in list order, stopping after the first one when join messages are on |
| InviteTracker.BotRoleEffects | inviteutils/inviteutils.py:383-387 | a joining bot gets the bot role when the toggle is on and the role still exists |
| InviteTracker.FirstCandidate | inviteutils/inviteutils.py:389-390 | the result is the candidate at some index i of the live list (uses rose since reconciliation) with no candidate before i; None means there is no candidate |
| InviteTracker.JoinOnUsesFirstCandidate | inviteutils/inviteutils.py:389-412 | with join messages on, the loop's calls are exactly those for the first candidate in list order |
| InviteTracker.JoinOffGivesEveryBoundRole | inviteutils/inviteutils.py:389-399 | with join messages off, nothing is announced, and a role is given exactly when some candidate is bound to it and the role still exists |
| InviteTracker.PadCode | inviteutils/inviteutils.py:346-348 | the code, then spaces up to a length of max(8, len(code)) |
| InviteTracker.ListLine | inviteutils/inviteutils.py:346-349 | the line is, position by position, the padded code, " : ", the role name and a newline |
| InviteTracker.RoleName | inviteutils/inviteutils.py:343-345 | the name of a role id, or "deleted-role" when the role no longer exists |
| InviteTracker.LineFor | inviteutils/inviteutils.py:342-349 | the line of one stored invite: ListLine of its code and role name ("deleted-role" when gone), nothing without a role |
| InviteTracker.ListBody | inviteutils/inviteutils.py:340-350 | the concatenated lines of the stored invites in iteration order |
| InviteTracker.ListMessage | inviteutils/inviteutils.py:351 | the list reply: the header, the column titles and the body inside a code block |
| InviteTracker.ListEmptyIff | inviteutils/inviteutils.py:340-353 | the body is empty exactly when no stored invite has a role |
| InviteTracker.InviteUtils.constructor | inviteutils/inviteutils.py:10-12 | the settings are the stored ones |
| InviteTracker.InviteUtils.ServerInit | inviteutils/inviteutils.py:28-39 | the server gets the fixed defaults (no channel, all flags off, no bot role, the two default messages, no invites) and nothing else changes |
| InviteTracker.InviteUtils.InvUpdate | inviteutils/inviteutils.py:45-62 | an unknown server or a failed fetch changes nothing and saves nothing; otherwise the table becomes Reconcile(old table, live list) and is saved |
| InviteTracker.InviteUtils.SyncInvites | inviteutils/inviteutils.py:52-58 | the loop leaves Sync(old table, live list) in the table and returns exactly the live URLs |
| InviteTracker.InviteUtils.PruneInvites | inviteutils/inviteutils.py:59-61 | exactly the entries whose URL is live are kept, unchanged |
| InviteTracker.InviteUtils.ToggleJoin | inviteutils/inviteutils.py:234-247 | an unknown server is refused with no change; otherwise only `join` flips, and the settings are saved |
| InviteTracker.InviteUtils.ToggleLeave | inviteutils/inviteutils.py:249-262 | an unknown server is refused with no change; otherwise only `leave` flips, and the settings are saved |
| InviteTracker.InviteUtils.ToggleEmbed | inviteutils/inviteutils.py:215-232 | a missing or invisible channel is refused; without embed permission there is no change; otherwise only `embed` flips, and the settings are saved |
| InviteTracker.InviteUtils.Disable | inviteutils/inviteutils.py:355-367 | an unknown server is refused; a declined dialogue changes nothing; a confirmed one deletes exactly that server's entry |
| InviteTracker.InviteUtils.AddRole | inviteutils/inviteutils.py:264-303 | the validation order (role found, below the bot, invites fetched); then, after `inv_update`, the first live invite with the normalised code that is stored gets the role, with uses kept; a live bound role is replaced only on confirmation; no such invite: refused, and only the reconciliation happens |
| InviteTracker.InviteUtils.RemoveRole | inviteutils/inviteutils.py:305-332 | the normalised key without a bound role is refused; on confirmation only that invite's role is removed, uses kept, and the reply names the role or "deleted-role" |
| InviteTracker.InviteUtils.List | inviteutils/inviteutils.py:334-353 | the server is initialised if needed; the reply is the list message around ListBody in the table's iteration order, or the "no invites" reply when the body is empty |
| InviteTracker.InviteUtils.OnMemberJoin | inviteutils/inviteutils.py:369-413 | an unknown server or missing channel: nothing; a failed fetch: only the reply; otherwise the bot role (for bots), then the attribution loop over the settings as read at the start, then `inv_update` |
| InviteTracker.FindInvite | inviteutils/inviteutils.py:286-288 | the search loop returns BindTarget |
| InviteTracker.Attribute | inviteutils/inviteutils.py:389-412 | the loop, with its break, makes exactly the calls of JoinLoop |
| InviteTracker.InviteLine | inviteutils/inviteutils.py:342-349 | the loop body appends LineFor of the invite (nothing for an invite without a role) |
| InviteTracker.ListInvites | inviteutils/inviteutils.py:340-350 | the loop builds ListBody, which is empty exactly when no listed invite has a role |
| InviteTracker.Initialised | inviteutils/inviteutils.py:268-339 | a known server is kept as it is; an unknown one gets the defaults and nothing else changes |
| InviteTracker.SetRole | inviteutils/inviteutils.py:299-328 | only the role of that invite changes; its uses and all other entries are kept |
| InviteTracker.SetRoleTwice | inviteutils/inviteutils.py:299-328 | setting an invite's role twice leaves only the second setting, as if the first never happened |
| InviteTracker.BindTarget | inviteutils/inviteutils.py:286-288 | a result is a stored URL of a live invite with that code; None means no live invite has the code and a stored URL |
| InviteTracker.UrlCodeOfLive | inviteutils/inviteutils.py:287 | field 3 of a slash-free live invite's URL is its code |
| InviteTracker.BindTargetFinds | inviteutils/inviteutils.py:286-288 | with slash-free codes, a stored live invite with the named code is found |
| InviteTracker.ToggleJoinTwice | inviteutils/inviteutils.py:241-246 | `togglej` twice restores the settings |
| InviteTracker.ToggleLeaveTwice | inviteutils/inviteutils.py:256-261 | `togglel` twice restores the settings |
| InviteTracker.EmbedTwiceRestores | inviteutils/inviteutils.py:223-231 | `embed` twice, with the same channel view, restores the settings |
| InviteTracker.BindByUrl | inviteutils/inviteutils.py:282-302 | `addrole` with the https URL of a live invite binds the role to that invite in the reconciled table |
| InviteTracker.BindThenUnbind | inviteutils/inviteutils.py:282-332 | binding by https URL and unbinding by bare code leaves the reconciled table with no role on that invite |
| BulkRole.ParseOp | globalrole/globalrole.py:19-33 | an operation is recognised exactly when it is "add", "remove" or "stop" |
| BulkRole.Admit | globalrole/globalrole.py:32-48 | a request is admitted exactly when the lowered operation is valid, the role exists, the bot can manage roles, and the role is below both the author's and the bot's top role; an invalid operation is reported before a missing role |
| BulkRole.StopSeen | globalrole/globalrole.py:76-77 | the stop flag is seen by some check after a member: it was up at the start, or it is raised while a member of the roster is handled |
| BulkRole.Processed | globalrole/globalrole.py:58-77 | the number processed is at most the roster, the whole roster when no stop is seen, k + 1 when the stop arrives during member k, and at least one member of a non-empty roster |
| BulkRole.ApplyOp | globalrole/globalrole.py:58-62 | a member's roles after the operation: the role added, removed, or (stop) unchanged |
| BulkRole.MemberEffects | globalrole/globalrole.py:59-74 | one member's calls: add_roles only when missing, remove_roles only when held, and progress when the new count is a multiple of 10 |
| BulkRole.LoopEffects | globalrole/globalrole.py:58-77 | the calls of the first n members, in roster order |
| BulkRole.StartEffects | globalrole/globalrole.py:54-57 | the progress message (0 of total) posted before the loop for add and remove |
| BulkRole.FinishEffects | globalrole/globalrole.py:78-88 | after the loop: the progress message deleted, then the abort or the completion reply with the count and total |
| BulkRole.GlobalRole.constructor | globalrole/globalrole.py:8-11 | both flags start down |
| BulkRole.GlobalRole.Member | globalrole/globalrole.py:59-75 | the member's roles become ApplyOp, and the calls are MemberEffects (role call only when needed, progress at every tenth) |
| BulkRole.GlobalRole.Pass | globalrole/globalrole.py:58-77 | exactly the first Processed members are changed, by ApplyOp; the others are unchanged; the calls are LoopEffects; the stop flag ends up as StopSeen |
| BulkRole.GlobalRole.Run | globalrole/globalrole.py:15-88 | `stop` sets stop := busy and touches nobody; while busy every other request is refused with no change; a refused request changes nothing; an admitted job starts with a progress report, runs the loop, ends with busy down, resets stop after an abort, and reports the members processed |
| BulkRole.LoopMember | globalrole/globalrole.py:58-74 | a call is made by the loop exactly when some processed member's step makes it |
| BulkRole.ProgressCadence | globalrole/globalrole.py:64-74 | for add and remove, progress (c of total) is reported exactly when 1 <= c <= count and c is a multiple of 10 |
| BulkRole.ProgressOnlyAtTenths | globalrole/globalrole.py:64-74 | every progress report names the operation and the roster size at a multiple of 10; `stop` reports none |
| BulkRole.AddOnlyWhenMissing | globalrole/globalrole.py:59-60 | the role is added to member i exactly when the operation is add, i was processed, and the member lacked the role |
| BulkRole.RemoveOnlyWhenHeld | globalrole/globalrole.py:61-62 | the role is removed from member i exactly when the operation is remove, i was processed, and the member held the role |
| BulkRole.ApplyOpEstablishes | globalrole/globalrole.py:58-62 | after processing, the member has the role (add) or lacks it (remove), and its other roles are unchanged |
| BulkRole.NextRequestIsServed | globalrole/globalrole.py:49-84 | a job that runs to the end leaves both flags down |

## Left out

- Platform I/O: sending, editing and deleting messages, topics, permission overwrites, `add_roles`/`remove_roles` and invite fetches. Each appears only as an `Effect` value or as an input.
- Message texts, embeds and the `joinmessage.format(...)` rendering are not modelled. A `Reply` or `Notice` constructor carries the values the text is built from; a role appears as its id even where the text shows its name.
- `asyncio.sleep` delays (3 s, 5 s, 30 s, 1 s), because they are wall-clock behaviour. `respond`'s swallowed error when the correction was already deleted is also left out.
- Platform calls are assumed to succeed, apart from the invite fetches (`None`). In particular, if `add_roles` or `remove_roles` raises during a bulk role job (globalrole.py:60-62), the handler exits with `busy` still up, and every later request is refused. The model has no such failure.
- JSON persistence (`dataIO`), the loading in `__init__` and the folder and file bootstrap. A save is the `Save` effect; `__init__` takes the stored settings as a parameter.
- InviteTracker.InviteUtils.constructor: requires every stored invite key to be an `http://discord.gg/` URL (`WellFormed`). Only `inv_update` writes keys, and it writes live invite URLs; a stored file edited by hand to break this is not modelled.
- `confirm_msg` and its reaction dialogue. Its answer is a boolean input.
- The interleaving of handlers. For `globalrole` the arrival of a concurrent `stop` is an input index, so other interleavings are not modelled.
- Python's `\d` matches every Unicode decimal digit; `IsDigit` takes only ASCII 0-9. Python's `str.lower` is Unicode-wide; `Lower` lowers only ASCII letters.
- The role hierarchy is an integer rank, and roles are ids with names in a map.
- The other commands and handlers of the invite cog are not modelled: `channel`, `joinmessage`, `leavemessage`, `botrole`, `info`, `examples` and `on_member_remove`. Neither is `on_load_tasks`, which calls `inv_update` for every server at start-up.
- InviteTracker.InviteUtils.List: the iteration order of the stored invite table is a parameter (`order`), because dictionary order is not part of the model.
- InviteTracker.InviteUtils.OnMemberJoin: the `joinmessage is None` test is not modelled, because the join message is always a string in the model. The welcome post's error fallbacks are also left out.
- InviteTracker.InviteUtils.ToggleEmbed: on an unknown server the handler raises a `KeyError` before its own check. This is modelled as no change and no effects.
- InviteTracker.InviteUtils.InvUpdate: the table is rewritten in place entry by entry in the code. The model builds it in a local map and writes it back once, with the same result.
- CountingEngine.Counting.OnMessageEdit and CountingEngine.Counting.OnMessageDelete: on a direct message (`server` is None) the code raises. This is modelled as no change and no effects.
- BulkRole.GlobalRole.Run: the roster is fixed for the whole run. The code re-reads the member count after every tenth member, so members joining or leaving during a run are not modelled.
- BulkRole.GlobalRole.Run: an edit of the progress message that fails and falls back to a new post is one `Progress` effect. The `operation is None` help branch is unreachable with the command's signature.
- BulkRole.GlobalRole.Run: a mixed-case `"Stop"` skips the early stop branch and lowers to "stop". It then runs a pass that touches nobody, and the handler fails before its final message, with `busy` already down. The model has no final effects for this case and leaves `stop` unreset, as the code does.
