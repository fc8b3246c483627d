# Telegram channel monitor — a Dafny model

The monitor watches chosen Telegram channels for messages that mention a
keyword and forwards each matching message to its owner through an alert bot.
The owner edits the keyword lists with text commands sent to that bot
(`/insert`, `/remove`, `/exclude`, `/include`, `/list`) or from a Mini App
panel that sends a `sync_config` payload. This project models the three
pieces of logic in `telegram_channel_monitor.py` that decide what happens:

- **The match decision** made for each channel message (module `Matching`).
  This is a pure function of the text and the stored lists.
- **The command procedure** of the bot poller (modules `Commands` and
  `Service`). `Commands` holds pure specification functions for one update
  and for a batch. `Service.Monitor` is a class that holds the stored
  configuration and the poller's cursor `last_update_id`. Its methods follow
  the source's branches step by step and are proved equal to the
  specification functions.
- **The Mini App synchronisation** (modules `Sync` and `Service`). `Sync`
  defines the result of its two loops as left folds. `Monitor.OnWebAppData`
  runs the loops imperatively, with invariants tied to those folds.

Supporting modules:

- `Text` models the Python string built-ins the code relies on: `lower`,
  `upper`, `in`, `startswith` and the argument-less `split`.
- `Lists` models the list operations: `list.remove` and membership, plus a
  filter that serves as the reference definition for the removal loop.
- `Store` holds the stored configuration, the reply kinds and the
  commit-or-discard behaviour of a save.

Inputs the model takes as parameters:

- The result of `save_config` is a boolean parameter (`saved`), or one
  boolean per update for a batch. In the model a failed save leaves the store
  as it was: the edited copy is dropped and the next update reloads the file.
  That holds for a failure to open the file; "## Left out" says what a later
  failure does.
- The result of `send_via_bot` for an alert is a boolean parameter
  (`botDelivered`).
- The sender of an update is its chat id as `str()` renders it, and the
  owner is `str(MY_TELEGRAM_ID)`.
- Replies are an enumeration (`Store.Response`), not the HTML text.

Behaviour of the code that a reader might not expect (the model follows
the code):

- The synchronisation removes tokens only from `keywords`, never from
  `excluded_keywords`, and it does not upper-case tokens.
- The bot poller reads only `message.text`. It never passes structured
  `web_app_data` updates to the synchronisation, which is reached only
  through the session client's `web_app_handler`.
- There are no `/status` or `/panel` commands.

## Model

| member | source | states |
|---|---|---|
| Text.Lower | telegram_channel_monitor.py:330 | ASCII `str.lower`, character by character; its properties are in `Text.LowerOfUpper` and `Text.UpperOfCase` |
| Text.Upper | telegram_channel_monitor.py:176 | ASCII `str.upper`, character by character; see `Text.LowerOfUpper`, `Text.UpperOfCase` and `Text.WordsOfUpper` |
| Text.StartsWithSlash | telegram_channel_monitor.py:171 | `text.startswith("/")`; `Commands.Parse` states that it decides whether a text is a command |
| Text.Contains | telegram_channel_monitor.py:330 | the substring test holds exactly when some index starts an occurrence of the needle; the empty needle is in every string |
| Text.Words | telegram_channel_monitor.py:174 | every word of the split is non-empty and free of separators; when the text begins with a non-separator, the first word is the leading run of non-separators; the split is empty exactly when the text is all separators |
| Text.WordsOfUpper | telegram_channel_monitor.py:174-176 | splitting the upper-cased text gives the upper-cased words, so case never changes where a command splits |
| Text.LowerOfUpper | telegram_channel_monitor.py:330 | lower-casing an upper-cased token gives its lower-cased form, so the upper-cased stored tokens match like the typed ones |
| Lists.FirstIndex | telegram_channel_monitor.py:197 | the index `list.remove` deletes holds the element, and no earlier index does |
| Lists.RemoveFirst | telegram_channel_monitor.py:197 | `list.remove` shortens the list by one and removes exactly one copy of the element (multiset difference) |
| Lists.RemoveFirstCons | telegram_channel_monitor.py:197 | elements before the first occurrence stay in front, in order |
| Lists.RemoveFirstNoDups | telegram_channel_monitor.py:197 | on a duplicate-free list, removing the first occurrence is filtering the element out, and the element is gone |
| Lists.Without | telegram_channel_monitor.py:274-277 | the reference filter keeps exactly the elements not dropped and never grows the list |
| Lists.AppendNoDups | telegram_channel_monitor.py:183-184 | appending an absent element keeps a list duplicate-free |
| Matching.Hits | telegram_channel_monitor.py:330-334 | `x.lower() in message_text.lower()`, the test used for keywords at line 330 and for excluded words at line 334; its meaning is stated through `Matching.Matched`, `Matching.AnyHit` and `Text.Contains` |
| Matching.Matched | telegram_channel_monitor.py:330 | `matched` holds exactly the keywords occurring case-insensitively in the text, each as often as in the keyword list; it is empty exactly when no keyword occurs, and it is the whole list when every keyword occurs |
| Matching.AnyHit | telegram_channel_monitor.py:334 | the exclusion test holds exactly when some excluded word occurs case-insensitively in the text |
| Matching.Decide | telegram_channel_monitor.py:324-336 | the handler's decision: skipped, no match, suppressed or alert; its meaning is stated by `Matching.AlertIff`, `Matching.NoKeywordNoAlert`, `Matching.ExclusionSuppresses`, `Matching.EmptyTextSkipped` and `Matching.CaseInsensitive` |
| Matching.AlertIff | telegram_channel_monitor.py:324-336 | a message is alerted exactly when it is non-empty, some keyword occurs and no excluded word occurs; an alert or suppression lists exactly the occurring keywords |
| Matching.NoKeywordNoAlert | telegram_channel_monitor.py:330-332 | with no occurring keyword there is no alert and no suppression, whatever the exclusions are |
| Matching.ExclusionSuppresses | telegram_channel_monitor.py:333-336 | one occurring excluded word rules out the alert; when the text is non-empty and some keyword also occurs, the decision is a suppression listing the occurring keywords, not a no-match |
| Matching.EmptyTextSkipped | telegram_channel_monitor.py:325-326 | empty text is skipped whatever the configuration holds |
| Matching.CaseInsensitive | telegram_channel_monitor.py:330-334 | the decision is the same for a text and its upper-cased form |
| Matching.SubstringOfWordMatches | telegram_channel_monitor.py:330 | a keyword inside a longer word ("eth" in "ETHEREUM") still alerts |
| Matching.ScenarioAlert | telegram_channel_monitor.py:330-338 | keywords ["BTC"] with "New ATH for BTC today" alert for ["BTC"] |
| Matching.ScenarioSuppressed | telegram_channel_monitor.py:332-336 | keywords ["BTC"] and excluded ["SCAM"] with "BTC SCAM alert" suppress the alert for ["BTC"] |
| Commands.Parse | telegram_channel_monitor.py:171-176 | text is a command exactly when it starts with '/'; the verb is the lower-cased first word and starts with '/'; the argument is upper-case, is empty exactly when there is no second word, and equals the second word up to case |
| Commands.AddTo | telegram_channel_monitor.py:181-192 | the /insert branch (and /exclude at lines 207-218 on the other list); its behaviour is stated by `Commands.AddAppends`, `Commands.AddPresent`, `Commands.AddIdempotent`, `Commands.AddSaveFailure` and `Commands.AddKeepsNoDuplicates` |
| Commands.DropFrom | telegram_channel_monitor.py:194-205 | the /remove branch (and /include at lines 220-231 on the other list); see `Commands.DropDeletes`, `Commands.DropAbsent`, `Commands.DropSaveFailure` and `Commands.DropKeepsNoDuplicates` |
| Commands.Execute | telegram_channel_monitor.py:178-236 | the verb dispatch on a freshly loaded configuration; see `Commands.UnknownVerbIgnored`, `Commands.MissingArgumentUsage`, `Commands.ListReadsOnly` and `Commands.ExecuteSaveFailure` |
| Commands.HandleText | telegram_channel_monitor.py:171-176 | a text from the owner: ignored unless it is a command, else dispatched on its verb and argument; see `Commands.NonCommandIgnored`, `Commands.SaveFailureKeepsStore` and `Commands.HandleKeepsNoDuplicates` |
| Commands.UpdateEffect | telegram_channel_monitor.py:160-169 | one update: only the owner's chat is served; see `Commands.UntrustedIgnored`; `Service.Monitor.ProcessUpdate` is proved equal to it |
| Commands.ParseIgnoresCase | telegram_channel_monitor.py:174-176 | texts that agree up to letter case are the same command with the same argument |
| Commands.Poll | telegram_channel_monitor.py:238-239 | a batch sends no empty reply and at most one reply per update |
| Commands.UntrustedIgnored | telegram_channel_monitor.py:167-169 | an update from a sender other than the owner changes nothing and gets no reply |
| Commands.UntrustedBatchIgnored | telegram_channel_monitor.py:160-169 | a batch made only of other senders' updates leaves the store unchanged and sends nothing |
| Commands.NonCommandIgnored | telegram_channel_monitor.py:171-172 | text not starting with '/' changes nothing and gets no reply |
| Commands.UnknownVerbIgnored | telegram_channel_monitor.py:179-239 | a verb other than the five known ones changes nothing and gets no reply |
| Commands.MissingArgumentUsage | telegram_channel_monitor.py:181-231 | each mutating verb without an argument only gets its usage hint and changes nothing |
| Commands.AddAppends | telegram_channel_monitor.py:181-186 | a saved /insert or /exclude of an absent token appends it at the end of its list, confirms it, and leaves the other list and the channels unchanged |
| Commands.AddPresent | telegram_channel_monitor.py:189-190 | adding a token already present changes nothing and replies "already present" |
| Commands.AddIdempotent | telegram_channel_monitor.py:181-190 | repeating an add after it was saved changes nothing more |
| Commands.DropDeletes | telegram_channel_monitor.py:194-199 | a saved /remove or /include of a present token deletes its first occurrence and confirms it; on a duplicate-free list the token is then gone; the other list and the monitored channels are unchanged |
| Commands.DropAbsent | telegram_channel_monitor.py:202-203 | removing an absent token changes nothing and replies "not found" |
| Commands.ListReadsOnly | telegram_channel_monitor.py:233-236 | /list reports both lists as loaded and never changes the store |
| Commands.SaveFailureKeepsStore | telegram_channel_monitor.py:178-231 | when the save fails the store equals the pre-command configuration, and the reply is the save error exactly when the same command, saved, would change the store |
| Commands.ExecuteSaveFailure | telegram_channel_monitor.py:181-231 | the same, for each verb on a loaded configuration |
| Commands.AddSaveFailure | telegram_channel_monitor.py:183-188 | the same, for /insert and /exclude |
| Commands.DropSaveFailure | telegram_channel_monitor.py:196-201 | the same, for /remove and /include |
| Commands.HandleKeepsNoDuplicates | telegram_channel_monitor.py:181-231 | every command keeps both lists duplicate-free |
| Commands.AddKeepsNoDuplicates | telegram_channel_monitor.py:183-184 | an add keeps both lists duplicate-free |
| Commands.DropKeepsNoDuplicates | telegram_channel_monitor.py:196-197 | a removal keeps both lists duplicate-free |
| Commands.PollKeepsNoDuplicates | telegram_channel_monitor.py:160-239 | every batch of updates keeps both lists duplicate-free |
| Commands.ScenarioInsert | telegram_channel_monitor.py:181-186 | "/insert eth" on keywords ["BTC"] stores ["BTC", "ETH"] and confirms "ETH" |
| Commands.ScenarioRemoveMissing | telegram_channel_monitor.py:194-203 | "/remove xrp" on keywords ["BTC"] changes nothing and replies "not found" for "XRP" |
| Commands.TwoWords | telegram_channel_monitor.py:174 | a word, one space and a word split into exactly those two words |
| Sync.AddedTokens | telegram_channel_monitor.py:263-267 | the first loop as a left fold; its result is characterised by `Sync.AddedSpec` and `Sync.AddedOrder` |
| Sync.Remove | telegram_channel_monitor.py:273-277 | the second loop as a left fold; its result is characterised by `Sync.RemovalCounts`, `Sync.RemoveSpec` and `Sync.RemovedOrder` |
| Sync.SyncEffect | telegram_channel_monitor.py:258-290 | the whole handler on a decoded payload; see `Sync.SyncKeywords`, `Sync.SyncKeywordsCounts`, `Sync.SaveAttemptedIff`, `Sync.SyncFrame` and `Sync.SyncReplayNoChange`; `Service.Monitor.OnWebAppData` is proved equal to it |
| Store.Commit | telegram_channel_monitor.py:185-188 | the save after a mutation: the edited copy and the success reply when the save succeeds, the old store and the error reply otherwise; see `Commands.SaveFailureKeepsStore` and `Sync.SyncFrame` |
| Sync.AddedSpec | telegram_channel_monitor.py:263-267 | `added` holds exactly the payload tokens not initially keywords, each once, and is empty exactly when every token was already a keyword |
| Sync.AddedOrder | telegram_channel_monitor.py:264-267 | `added` lists the new tokens in the order of their first occurrence in the payload |
| Sync.AddedKeepsNoDups | telegram_channel_monitor.py:264-266 | the first loop keeps a duplicate-free keyword list duplicate-free |
| Sync.RemovalCounts | telegram_channel_monitor.py:273-277 | on any list the second loop only moves tokens from the list to `removed`, records only tokens named in the payload, and catches every named token the list holds |
| Sync.RemovedOrder | telegram_channel_monitor.py:273-277 | on a duplicate-free list, `removed` lists only tokens named in the payload, in the order of their first occurrence there |
| Sync.RemoveSpec | telegram_channel_monitor.py:273-277 | on a duplicate-free list the second loop leaves exactly the keywords not named for removal, and records each removed keyword once |
| Sync.SyncKeywordsCounts | telegram_channel_monitor.py:258-283 | on any keyword list, a successful synchronisation stores the old keywords plus the added tokens, less one copy of each removed token (as multisets) |
| Sync.SyncKeywords | telegram_channel_monitor.py:258-283 | on a duplicate-free keyword list, a successful synchronisation stores the old keywords plus the new tokens, minus every token named for removal, and keeps the list duplicate-free |
| Sync.SaveAttemptedIff | telegram_channel_monitor.py:268-290 | the save is attempted exactly when something was added or removed; otherwise the reply is "no change" |
| Sync.SyncFrame | telegram_channel_monitor.py:258-290 | the synchronisation never changes the excluded words or the channels, and a failed save changes nothing |
| Sync.SyncReplayNoChange | telegram_channel_monitor.py:258-290 | replaying a payload with disjoint add and remove sets on the configuration it produced changes nothing and replies "no change" |
| Sync.ReplayNeedsNoDuplicates | telegram_channel_monitor.py:274-277 | on keywords ["A", "A"], removing "A" leaves ["A"], and a replay removes that one too |
| Service.Monitor.constructor | telegram_channel_monitor.py:149 | the cursor starts at 0 on the given stored configuration |
| Service.Monitor.Save | telegram_channel_monitor.py:83-95 | a successful save replaces the stored configuration; a failed one leaves it as it was |
| Service.Monitor.AddCommand | telegram_channel_monitor.py:181-192 | the /insert and /exclude branch leaves the store and reply that the add specification gives |
| Service.Monitor.DropCommand | telegram_channel_monitor.py:194-205 | the /remove and /include branch leaves the store and reply that the removal specification gives |
| Service.Monitor.ProcessUpdate | telegram_channel_monitor.py:160-239 | the cursor becomes the update's id before the sender is checked, and the new store and reply are those of the one-update specification |
| Service.Monitor.PollOffset | telegram_channel_monitor.py:155 | the `offset` of the next getUpdates call, `last_update_id + 1`; what it guarantees is stated by the cursor ensures of `Service.Monitor.PollBatch` |
| Service.Monitor.PollBatch | telegram_channel_monitor.py:158-239 | a batch leaves the store and the sent replies that the batch specification gives, and the cursor at the last update's id; when the batch's ids increase, as getUpdates returns them, every processed id is below the next poll's offset (line 155), so no update is requested again |
| Service.Monitor.OnWebAppData | telegram_channel_monitor.py:258-290 | the two loops and the save leave the store and reply that the synchronisation specification gives |
| Service.Monitor.OnChannelMessage | telegram_channel_monitor.py:324-344 | the decision is taken on the current store; an alert is forwarded whole, through the bot when it delivers and through the session otherwise; nothing else is sent |

## Left out

- The lock file and the process check (lines 38-68) are filesystem and process-table I/O.
- The JSON file behind `load_config` and `save_config` (lines 70-95) is an abstract store whose save can fail. The model does not cover a missing or unreadable file yielding the empty configuration (lines 75-81), or a `KeyError` on a file without one of the lists.
- A save that fails after the file is opened is not modelled. `save_config` opens the file for writing (line 85), which empties it. A failure during `json.dump` returns False (lines 93-95) and leaves an empty or half-written file, which the next `load_config` reads as the empty configuration: all three lists are lost. Only a failure before the file is opened keeps the store, which is the case `Store.Commit`, `Service.Monitor.Save`, `Commands.SaveFailureKeepsStore` and `Sync.SyncFrame` describe.
- The git commit and push after a save (lines 97-119) are subprocess calls that never affect the result.
- The HTTP calls (lines 121-142 and 154-159) are network I/O. A reply is an output value. A `getUpdates` call that fails, or answers with a status other than 200, changes nothing, and the model has no method for it. The retry sleeps (lines 241-245) are left out.
- The `if not ALERT_BOT_TOKEN: return` guard (lines 146-147) only decides whether the poller runs at all.
- The Telethon client, the event registration, the `MockEvent` shim, the reconnect loop and the asyncio tasks (lines 296-380) are concurrency and a foreign library. The handlers run one at a time, each on the store as it is at that moment. The interleaving of the poller and the two handlers is not modelled.
- The channel subscription is the `monitored_channels` snapshot taken at connection time (line 321). It is not modelled, so every message given to `OnChannelMessage` counts as coming from a monitored channel.
- `json.loads` of the Mini App payload (line 253) and the reply to a malformed payload (lines 292-294) are left out. `Sync.Payload` is the decoded object: a missing `add` or `remove` is the empty list, and tokens are strings.
- Python's Unicode `lower`, `upper` and whitespace rules are replaced by ASCII letters and the ASCII separators of `str.split()`.
- The emoji and HTML reply texts, including the comma-joined lists of `/list` and of the synchronisation summary, are enumeration values that carry the same data.
- Text.Words: the contract fixes only the first word of a text that begins with a non-separator, that every word is a non-empty run of non-separators, and the all-separator case; it does not state the whole split. `Commands.TwoWords` fixes the two-word case.
- Sync.RemoveSpec: stated only for duplicate-free keyword lists. `Sync.RemovalCounts` gives what holds on every list.
- Sync.RemovedOrder: stated only for duplicate-free keyword lists; on a list with duplicates a token can be removed, and recorded, more than once.
- Sync.SyncKeywords: stated only for duplicate-free keyword lists; `Sync.SyncKeywordsCounts` covers every list.
- Sync.SyncReplayNoChange: stated only for a duplicate-free keyword list. Commands and synchronisation never create duplicates (`Commands.PollKeepsNoDuplicates`, `Sync.SyncKeywords`), but a hand-edited file can hold them, and then the replay can change the store (`Sync.ReplayNeedsNoDuplicates`).
