# Email Organizer, modelled in Dafny

Email Organizer is a desktop tool that sorts a Gmail mailbox by sender. It scans the
mailbox into a sender directory. The user then gives senders rules in a sender list
(a label, or "unsubscribe"). Two organizers walk the messages that are not yet checked:

- the rule-based organizer applies each sender's rule;
- the AI organizer asks a classifier for one of the user's categories, as the category file
  stood when the organizer module was first imported.

Both organizers record their work as Gmail labels in the namespace
`Email Organizer/<organizer>/`. A reset removes those labels again, and a bulk purge
trashes everything from one sender.

This project models the program's logic over an abstract mailbox:

- The mailbox is a map from message id to its set of Gmail labels. `order` is the
  server's message order, so that sequence numbers and UIDs can be told apart.
- Every command the client sends is appended to a log.
- A STORE (section 6.4.6 of RFC 3501, with Gmail's `X-GM-LABELS` extension) is a label
  delta. Whether the server applies it depends on the command's result code, OK or NO,
  which is an input (`codeAt`).
- The server's judgement of the `FROM` search criterion, the classifier's answers and the
  email parsers are inputs too.
- The JSON stores are in-memory values, with `None` for a missing file.
- The GUI pages are classes holding only their data state.

Modules, one per source file plus shared ones:

| module | file | models |
|---|---|---|
| `Mailbox` | mailbox.dfy | IMAP session, SEARCH, STORE semantics, progress samples |
| `Stores` | stores.dfy | the JSON data files |
| `GmailLabels` | gmail_labels.dfy | reading the label list of an `X-GM-LABELS` FETCH reply |
| `Text`, `Seqs`, `Sorting`, `Wrappers` | text.dfy, seqs.dfy, sorting.dfy, wrappers.dfy | string and sequence helpers, a stable sort |
| `SenderScan` | sender_scan.dfy | `src/sender_scan.py` |
| `RuleOrganizer` | email_organizer.dfy | `src/email_organizer.py` |
| `AiSummary`, `AiOrganizer` | ai_summary.dfy, ai_email_organizer.dfy | `src/ai_email_organizer.py` |
| `RemoveFromSender` | rm_from_sender.dfy | `src/rm_from_sender.py` |
| `ResetInbox` | reset_inbox.dfy | `src/reset_inbox.py` |
| `SenderListPage` | sender_list.dfy | `src/GUI/SenderList.py` |
| `AiOrganizerPage` | ai_organizer_page.dfy | `src/GUI/AIOrganizer.py` |
| `EmailOrganizerPage` | email_organizer_page.dfy | `src/GUI/EmailOrganizer.py` |
| `SenderEntryRow` | sender_entry.dfy | `src/SenderEntry.py` |

Where the program's documented design and its code differ, the model follows the code:

- The message-count sort keeps its inverted direction (src/GUI/SenderList.py:381).
- An AI answer that is neither a category nor `NONE` is only printed. It writes no log entry and raises no counter (src/ai_email_organizer.py:240-241).
- A category answer counts as a success even when `add_label` reports a failed STORE (src/ai_email_organizer.py:233-235).

The defects listed under "Findings" are each modelled twice: once as written, with a lemma exhibiting the input that shows the defect, and once corrected. The rest of the model uses the corrected member.

## Model

| member | source | states |
|---|---|---|
| Mailbox.Effect | src/email_organizer.py:124 | a STORE only changes labels, and never creates or removes a message (the key set is kept) |
| Mailbox.Replay | src/email_organizer.py:120-132 | replaying the commands a session sent keeps the set of messages |
| Mailbox.SearchIds | src/email_organizer.py:84-86 | a SEARCH reply lists at most one id per message of the mailbox |
| Mailbox.UidSearchExact | src/ai_email_organizer.py:86 | a UID SEARCH returns exactly the UIDs of the messages matching the criterion |
| Mailbox.UidSearchDistinct | src/ai_email_organizer.py:86-88 | a UID SEARCH over a mailbox without repeated messages repeats no UID |
| Mailbox.SequenceSearchExact | src/rm_from_sender.py:53 | a plain SEARCH returns exactly the sequence numbers of the matching messages |
| Mailbox.SequenceSearchIncreasing | src/rm_from_sender.py:53-55 | a plain SEARCH lists sequence numbers in strictly increasing order |
| Mailbox.ItemSamples | src/rm_from_sender.py:72-74 | a loop that reports after each item has reported once per finished item |
| Mailbox.ItemSamplesProgress | src/rm_from_sender.py:72-74 | after the k-th item the fraction is k/n; fractions strictly increase and end at 1 when every item is done |
| Mailbox.LoginsSucceed | src/email_organizer.py:44 | a run of LOGIN commands succeeds iff it is empty or is the single LOGIN of a fresh connection, which then is authenticated |
| Mailbox.EstablishConnectionAsWrittenRaises | src/sender_scan.py:46-47 | logging in twice raises at the second LOGIN, so no connection is returned |
| Mailbox.EstablishConnection | src/email_organizer.py:44 | corrected: one LOGIN leaves the fresh connection authenticated |
| Mailbox.Session.constructor | src/email_organizer.py:22-47 | a fresh session holds the server's labels and order and has sent nothing |
| Mailbox.Session.Send | src/rm_from_sender.py:76-78 | SELECT, EXPUNGE, CLOSE and LOGOUT are logged and change no label |
| Mailbox.Session.Search | src/email_organizer.py:84 | a SEARCH is logged, changes no label, and returns the ids of the matching messages |
| Mailbox.Session.Store | src/email_organizer.py:124 | a STORE is logged; the server's code for it is returned, and the labels change exactly as an accepted STORE says, or not at all; a rejected command is assumed to be answered NO |
| Stores.Lookup | src/GUI/SenderList.py:594-597 | a key is found iff the label store holds it, and its value is that of the key's last entry, as a JSON object load keeps it |
| Stores.Put | src/GUI/SenderList.py:596-597 | `t[k] = v` keeps every key in place and adds a new key at the end |
| Stores.PutLookup | src/GUI/SenderList.py:596-597 | after `t[k] = v` on a store without repeated keys, `k` reads `v`, every other key reads as before, and no key is repeated |
| Stores.Loaded | src/email_organizer.py:58-59 | the object `json.load` makes of the label file holds no key twice and no more entries than the file |
| Stores.LoadedLookup | src/email_organizer.py:58-59 | the loaded object answers every key as the file's last entry for that key does, so it holds exactly the file's keys |
| Stores.LoadedEntry | src/email_organizer.py:58-61 | each entry of the loaded object is a key of the file paired with that key's last list |
| Stores.Files.constructor | src/GUI/SenderList.py:49-52 | the data files as found on disk, `None` where a file is missing |
| GmailLabels.GroupEnd | src/reset_inbox.py:87 | the lazy group of the label-list pattern ends within the text |
| GmailLabels.QuotedTokens | src/reset_inbox.py:88 | every name `re.findall(r'"([^"]+)"', ...)` returns is non-empty and holds no quote |
| GmailLabels.QuotedNames | src/reset_inbox.py:88 | a name is among the quoted names of a label list exactly when the list holds it as a quoted string |
| GmailLabels.AtomNoToken | src/reset_inbox.py:88 | a label written as an atom (no quotes) yields no name: `findall` skips it |
| GmailLabels.WrittenRoundTrip | src/reset_inbox.py:88 | from a written label list of atoms and quoted strings, `findall` returns exactly the quoted names, in order |
| GmailLabels.ReplyGroup | src/reset_inbox.py:87 | on a reply line whose list holds no line break and no `)` followed by a space, the pattern's group is exactly the list text |
| GmailLabels.ReplyRoundTrip | src/reset_inbox.py:85-88 | from a FETCH reply whose label list mixes atoms and quoted strings, the quoted labels are read back exactly, in order; the atoms are dropped |
| GmailLabels.ReplyDropsAtoms | src/reset_inbox.py:85-88 | for the example list of Gmail's IMAP extensions documentation, `(\Inbox \Sent Important "Muy Importante")`, only `Muy Importante` is read |
| Sorting.SortBy | src/GUI/SenderList.py:224 | `sorted` and `list.sort` return a permutation of their input |
| Sorting.SortBySorted | src/GUI/SenderList.py:376-381 | under a strict order the sort's result is ordered: no element comes after one it must precede |
| Sorting.SortByUnique | src/GUI/SenderList.py:224 | sorting keeps distinct addresses distinct |
| Sorting.FilterSorted | src/GUI/SenderList.py:407-410 | a comprehension over a sorted list stays sorted |
| Seqs.ChunksPartition | src/sender_scan.py:158 | `[xs[i:i + n] for i in range(0, len(xs), n)]` gives ceil(len/n) chunks: every chunk but the last holds exactly `n` items, each holds 1 to `n`, and together they are the list |
| Text.TrimStrips | src/SenderEntry.py:248 | `strip()` returns the input with its leading white space (the `LeadingSpaces` count) and its trailing white space removed and nothing else; with `Trim`'s own contract, the result neither starts nor ends with white space |
| Text.Lower | src/GUI/SenderList.py:460-461 | `lower()` keeps the length and lowercases each character in place |
| Text.ContainsIff | src/GUI/SenderList.py:460-461 | `sub in s` holds exactly when `sub` occurs at some position of `s` |
| Text.LexLessTotal | src/GUI/SenderList.py:224 | Python's string `<` relates any two different strings one way or the other |
| Text.NatToStringRoundTrip | src/SenderEntry.py:46 | the decimal text of a count reads back as the count |
| SenderScan.BatchesPartition | src/sender_scan.py:158-159 | the batches concatenate back to the id list; every batch but the last holds 10 ids, every batch holds 1 to 10, and there are ceil(n/10) of them |
| SenderScan.TallyKeys | src/sender_scan.py:94-114 | a batch directory holds an address iff some message of the batch parsed with that sender; messages without data or with errors count for nothing |
| SenderScan.TallyFrequency | src/sender_scan.py:106-112 | each address's frequency is its number of parsed messages, at least 1 |
| SenderScan.TallyFirstName | src/sender_scan.py:106-112 | each address keeps the name parsed from its first message |
| SenderScan.ProcessBatch | src/sender_scan.py:78-118 | the batch's directory is the tally of the messages before the first poll that sees the cancel flag; the batch counts as complete iff no poll saw it |
| SenderScan.Combine | src/sender_scan.py:131-135 | merging one partial directory keeps the union of the two address sets |
| SenderScan.CombineEmpty | src/sender_scan.py:130-135 | merging an empty directory changes nothing |
| SenderScan.CombineStep | src/sender_scan.py:131-135 | folding one more entry adds its frequency to an existing address, or adds the address with its name and frequency |
| SenderScan.MergeInto | src/sender_scan.py:131-135 | the inner loop folds every entry of one partial directory into the running one |
| SenderScan.MergeSendersDicts | src/sender_scan.py:121-136 | the loop merges the partial directories in list order |
| SenderScan.MergeKeysAndSums | src/sender_scan.py:121-136 | the merge holds an address iff some partial directory does, with the sum of its partial frequencies |
| SenderScan.MergeOrderIndependent | src/sender_scan.py:172-183 | whatever order the batch results arrive in, the merged address set and every frequency are the same |
| SenderScan.MergeEarliestName | src/sender_scan.py:132-135 | the merged name is the one from the earliest partial directory holding the address |
| SenderScan.MergeNamesOrderDependent | src/sender_scan.py:132-135 | two arrival orders of the same batches can give an address different names |
| SenderScan.CombineRecord | src/sender_scan.py:106-112 | recording a message after merging equals merging after recording it |
| SenderScan.TallyAppend | src/sender_scan.py:121-136 | tallying two runs of messages and merging equals tallying them together |
| SenderScan.Tallies | src/sender_scan.py:168-178 | there is one directory per batch, in the batches' order |
| SenderScan.MergeTallies | src/sender_scan.py:172-183 | merging the batch directories equals tallying all their messages in one run |
| SenderScan.ScanTotals | src/sender_scan.py:139-186 | whatever the arrival order, the scanned directory holds exactly the senders of the parsed messages, each with its number of parsed messages |
| SenderScan.ScanEmailsParallel | src/sender_scan.py:139-188 | `senders.json` is written with the merged directory iff no poll saw the cancel flag, and is left alone otherwise; one progress sample is reported per batch received before the cancel |
| SenderScan.FetchAllIdsAsWrittenMissesMessages | src/sender_scan.py:58-60 | as written, a mailbox whose only message has UID 7 yields id 1, which names no message when fetched by UID |
| SenderScan.FetchAllUids | src/sender_scan.py:51-62 | the corrected listing returns every message's UID, in server order |
| SenderScan.AllUidsInOrder | src/sender_scan.py:59 | a UID SEARCH ALL lists every UID of the mailbox in server order |
| SenderScan.ScanForSenders | src/sender_scan.py:191-196 | corrected: the scan selects the folder, lists every UID, logs out and then scans; the directory is written iff the scan was not cancelled |
| RuleOrganizer.LabelRulesLastWins | src/email_organizer.py:60-68 | over the entries the rule loop visits, an address has a label rule iff a real label (not a placeholder key) lists it, and its rule is the last such label in their order; `RuleTable` applies this to the loaded label object |
| RuleOrganizer.LastEntryRule | src/email_organizer.py:66-68 | the last entry the rule loop visits sets the rule of the addresses it lists, when its label is real, and leaves the others as before |
| RuleOrganizer.AssignedRule | src/email_organizer.py:67-68 | assigning a label to an address list sets exactly those addresses |
| RuleOrganizer.RuleTable | src/email_organizer.py:57-71 | an unsubscribed address gets "Unsubscribed" whatever its labels; any other address has a rule iff the loaded label store lists it under a real label, and its rule is the last such label in the loaded object's key order (a repeated key counts once, at its first place, with its last list) |
| RuleOrganizer.RepeatedLabelLastListWins | src/email_organizer.py:58-68 | a label listed twice in the file counts with its last list only: `A: [x]` then `A: []` gives no rule |
| RuleOrganizer.InterleavedLabelLastListWins | src/email_organizer.py:58-68 | a repeated label keeps its first place: `A: [x]`, `B: [y]`, `A: [y]` gives `y` the rule `B` and `x` none |
| RuleOrganizer.UnsubscribeStep | src/email_organizer.py:70-71 | marking one more address unsubscribed overrides only that address |
| RuleOrganizer.SenderRulesAsWritten | src/email_organizer.py:57-71 | as written, a rule table is produced only when both stores exist (a missing file leaves a variable unbound) |
| RuleOrganizer.GetSenderRules | src/email_organizer.py:49-73 | corrected: the loops build exactly the rule table of the loaded stores, a missing store contributing nothing |
| RuleOrganizer.AddUnsubscribes | src/email_organizer.py:70-71 | the loop over the unsubscribe store maps every key to "Unsubscribed", overriding label rules |
| RuleOrganizer.AngleAddress | src/email_organizer.py:100-102 | a header `name <address>...` gives the trimmed address |
| RuleOrganizer.BracketAfter | src/email_organizer.py:19-20 | the bracket pattern finds the first `<...>` pair after text without `<` |
| RuleOrganizer.BareFromLine | src/email_organizer.py:104-107 | a `From: ` line without brackets is wrapped once and gives its trimmed rest |
| RuleOrganizer.BracketedAddress | src/email_organizer.py:100-102 | a bracketed address is its own sender, trimmed |
| RuleOrganizer.WrappedSender | src/email_organizer.py:100-102 | a match of the bracket pattern is returned as the sender, with no second parse |
| RuleOrganizer.NoOpenBracket | src/email_organizer.py:100 | text without `<` has no bracket match |
| RuleOrganizer.NoAddress | src/email_organizer.py:104-107 | other text without brackets gives no sender (`None`) |
| RuleOrganizer.ProcessEmail | src/email_organizer.py:111-132 | processing one message sends its FETCH, then, when data came back, the checked marker and at most one rule label; a rejected command is assumed to be answered NO |
| RuleOrganizer.PlanShape | src/email_organizer.py:121-132 | no STORE without data; the first STORE is always the checked marker; then `\Trash` for an unsubscribed sender, the sender's label for another rule, nothing without a rule |
| RuleOrganizer.ProcessOutcome | src/email_organizer.py:120-132 | when every STORE is accepted, a message gains exactly its outcome labels and no other message changes |
| RuleOrganizer.ProcessWithData | src/email_organizer.py:122-132 | the same for a message whose header was read: the marker plus its rule label |
| RuleOrganizer.OrganizeEmails | src/email_organizer.py:134-155 | the walk handles the ids in order, each once, stopping at the first poll that sees the cancel flag; after the k-th id the progress is k/n; a rejected command is assumed to be answered NO |
| RuleOrganizer.OrganizeOutcome | src/email_organizer.py:145-151 | with distinct ids and every STORE accepted, each processed message gains exactly its outcome labels, every other message is unchanged |
| RuleOrganizer.OrganizeStep | src/email_organizer.py:145-151 | processing the last message of a walk updates only that message |
| RuleOrganizer.CandidateIdsAsWrittenPicksWrongMessage | src/email_organizer.py:84 | a plain SEARCH returns sequence numbers that are later used as UIDs: in a mailbox with ascending UIDs 2 (checked) and 3 (unchecked), the checked message 2 is picked and message 3 missed |
| RuleOrganizer.FetchUids | src/email_organizer.py:75-90 | corrected: the candidates are exactly the messages without the Standard Organizer checked marker, in server order, each once |
| RuleOrganizer.EmailOrganizer | src/email_organizer.py:159-163 | the rules are built, the candidates searched, and the walk runs over them, stopping at the cancel poll; a rejected command is assumed to be answered NO |
| RemoveFromSender.SenderCriterionText | src/rm_from_sender.py:53 | the search criterion is `(FROM "<sender>")` |
| RemoveFromSender.TrashPlan | src/rm_from_sender.py:70-71 | the deletion loop sends exactly one `+X-GM-LABELS \Trash` STORE per id, in search order |
| RemoveFromSender.TrashEffect | src/rm_from_sender.py:71 | one Trash STORE only ever adds Trash; accepted, it adds it exactly to the message its sequence number names |
| RemoveFromSender.TrashOutcome | src/rm_from_sender.py:70-71 | the loop only ever adds Trash; with every STORE accepted, exactly the named messages gain it |
| RemoveFromSender.SenderIdsName | src/rm_from_sender.py:53-55 | the sequence numbers the search returns name exactly the sender's messages |
| RemoveFromSender.TrashSender | src/rm_from_sender.py:89-95 | trashing what the search returned only adds Trash, and with every STORE accepted it trashes exactly the sender's messages |
| RemoveFromSender.FetchIdsFromSender | src/rm_from_sender.py:42-57 | the ids are the sequence numbers of the sender's messages, increasing, after SELECT and SEARCH |
| RemoveFromSender.TrashAdvance | src/rm_from_sender.py:70-71 | one more STORE extends the loop's log and labels by the next id |
| RemoveFromSender.TrashAll | src/rm_from_sender.py:69-74 | the loop sends one Trash STORE per id in order and reports k/n after the k-th; a rejected command is assumed to be answered NO |
| RemoveFromSender.DeleteEmails | src/rm_from_sender.py:59-79 | the loop, then EXPUNGE, CLOSE and LOGOUT exactly once each; a rejected command is assumed to be answered NO |
| RemoveFromSender.RmFromSender | src/rm_from_sender.py:81-95 | with no match nothing follows the SEARCH (no STORE, no progress, no EXPUNGE); otherwise the deletion runs once; either way only Trash is added, to exactly the sender's messages when every STORE is accepted; a rejected command is assumed to be answered NO |
| AiOrganizer.SlicePrefix | src/ai_email_organizer.py:92 | Python's `xs[:n]` keeps a prefix: `min(n, len)` elements for `n >= 0`, and all but the last `-n` (at least none) for negative `n` |
| AiOrganizer.FetchUids | src/ai_email_organizer.py:77-96 | the candidates are messages of the mailbox without the AI checked marker, none twice, in server order, cut to the requested count; with `"all"` every unchecked message is a candidate |
| AiOrganizer.ResponseLabel | src/ai_email_organizer.py:233-241 | a category answer is that label, `NONE` (when not itself a category) is `Unsure`, and any other answer gives no label, each case an if-and-only-if |
| AiOrganizer.UnescapedAll | src/ai_email_organizer.py:267-269 | every label name is mapped, position by position, to its name with a leading escape removed |
| AiOrganizer.GetLabelsAsWrittenKeepsEscape | src/ai_email_organizer.py:267-270 | as written, a quoted system label comes back with its escape, because the loop only rebinds its variable |
| AiOrganizer.GetLabelsReadsReply | src/ai_email_organizer.py:262-270 | the corrected reading of a label FETCH reply returns exactly the quoted labels of the list, in order, with escapes removed; atoms are not read |
| AiOrganizer.GetLabelsSystemLabel | src/ai_email_organizer.py:262-270 | the corrected reading turns the quoted `\\Inbox` into `Inbox` and drops the atom `Work` |
| AiOrganizer.LogFile.constructor | src/ai_email_organizer.py:103-106 | the log holds what the file held (empty when it was missing) |
| AiOrganizer.LogFile.Write | src/ai_email_organizer.py:98-111 | writing an entry for a UID replaces that UID's entry and keeps every other one |
| AiOrganizer.AddLabelTwoStep | src/ai_email_organizer.py:282-327 | `add_label` selects, reads the labels, then STOREs the category label; it STOREs the checked marker only when that answered OK; it returns true iff both answered OK and writes a log entry iff it returns false; a rejected command is assumed to be answered NO |
| AiOrganizer.AddLabel | src/ai_email_organizer.py:272-327 | the method sends exactly the commands of the plan, writes the plan's log entry (labels read, both STORE answers, the message's record), and returns the plan's result; no entry when reading the labels raised; a rejected command is assumed to be answered NO |
| AiOrganizer.StepAsWrittenLosesFetchErrors | src/ai_email_organizer.py:243-250 | as written, a failed fetch is neither logged nor counted as skipped |
| AiOrganizer.StepCounts | src/ai_email_organizer.py:233-249 | corrected: each message raises at most one counter: skipped iff its fetch failed; successful iff it asked for a category label; unreadable iff it asked for `Unsure` after a `NONE` answer; a rejected command is assumed to be answered NO |
| AiOrganizer.StepCountsIgnoreServer | src/ai_email_organizer.py:233-239 | the counters do not depend on the server's STORE answers; a rejected command is assumed to be answered NO |
| AiOrganizer.StepShape | src/ai_email_organizer.py:193-241 | a message's commands begin with its FETCH; it sends a STORE only when it asks for a label, and then exactly the label STORE, plus the marker STORE iff the first answered OK |
| AiOrganizer.StepEffect | src/ai_email_organizer.py:290-313 | handling a message changes only that message: it gains its label when that STORE is accepted, and the marker when both are |
| AiOrganizer.MarkerImpliesLabel | src/ai_email_organizer.py:298-303 | a message newly marked checked also carries the label chosen for it |
| AiOrganizer.ProcessItem | src/ai_email_organizer.py:193-250 | corrected: one turn of the loop sends the message's commands, writes its log entry (a fetch failure when the fetch had no data) and returns its counter changes; a rejected command is assumed to be answered NO |
| AiOrganizer.LabelAnswer | src/ai_email_organizer.py:233-239 | `add_label` with the answer's label, and the answer's counter raised unless `add_label` raised; a rejected command is assumed to be answered NO |
| AiOrganizer.HandleFetched | src/ai_email_organizer.py:198-241 | a fetched message is summarised, classified and labelled; an exception on the way ends the message uncounted; a rejected command is assumed to be answered NO |
| AiOrganizer.ClassifiedLabel | src/ai_email_organizer.py:225-239 | for an answer that names a label, the message's result is the FETCH followed by `add_label`'s commands, its log entry and the answer's counter; a rejected command is assumed to be answered NO |
| AiOrganizer.WalkCounts | src/ai_email_organizer.py:181-249 | a walk counts each message at most once, and its skipped count sums the skipped messages |
| AiOrganizer.WalkLogKeys | src/ai_email_organizer.py:98-111 | a walk adds log entries only for handled messages the handler logs, and never drops an entry |
| AiOrganizer.WalkLogsFixed | src/ai_email_organizer.py:108 | among distinct UIDs, a message whose handler always writes one entry ends with that entry in the log |
| AiOrganizer.WalkOutcome | src/ai_email_organizer.py:187-250 | when each message's commands add exactly its outcome to that message, a walk over distinct messages adds each handled message's outcome and changes nothing else |
| AiOrganizer.RunCounts | src/ai_email_organizer.py:181-257 | corrected: the counters of a run total at most the number of messages, and skipped counts exactly the failed fetches |
| AiOrganizer.RunLogKeys | src/ai_email_organizer.py:243-250 | corrected: the log gains entries only for handled messages whose fetch failed or that reached their STORE, and loses none |
| AiOrganizer.RunLogsFetchFailures | src/ai_email_organizer.py:243-249 | with distinct UIDs, a failed fetch leaves exactly a fetch-failure entry for that message |
| AiOrganizer.StepOutcome | src/ai_email_organizer.py:290-313 | when every STORE is accepted, a message gains exactly its outcome labels |
| AiOrganizer.RunOutcome | src/ai_email_organizer.py:187-250 | when every STORE is accepted and the UIDs are distinct, each handled message gains exactly its chosen label and the checked marker, and no other message changes |
| AiOrganizer.ProcessNext | src/ai_email_organizer.py:187-250 | one loop turn extends the walk over the handled prefix by the next message |
| AiOrganizer.OrganizeEmails | src/ai_email_organizer.py:169-260 | the commands, log file and counters are those of walking the messages before the cancel point; the call returns true with `SUCCESS` iff the walk was not cancelled, else false with `CANCELLED` |
| AiOrganizer.OrganizeAndClose | src/ai_email_organizer.py:337-340 | the walk, then the flag is set iff the walk was cancelled, then EXPUNGE and LOGOUT |
| AiOrganizer.AiEmailOrganizer | src/ai_email_organizer.py:329-340 | the whole run: SELECT and the unchecked-message SEARCH, then the walk over those candidates, EXPUNGE and LOGOUT; the result is `CANCELLED` iff cancelled before the last candidate, and the flag is set iff it is `CANCELLED` |
| AiSummary.BodyParts | src/ai_email_organizer.py:143-155 | with a plain part anywhere in the walk the body is the plain payloads in walk order; without one it is the text of the HTML parts in walk order |
| AiSummary.RawBody | src/ai_email_organizer.py:139-157 | the raw body is a single-part message's payload, or for a multipart message the walk's texts with HTML taken only when no plain part exists |
| AiSummary.ContentTypes | src/ai_email_organizer.py:143-146 | the first walk lists every part's content type in walk order, and `text/plain` is among them iff some part is plain |
| AiSummary.PartTexts | src/ai_email_organizer.py:147-155 | the second walk concatenates each part's text, plain payloads always and HTML text only when the type list holds no plain part |
| AiSummary.TagEnd | src/ai_email_organizer.py:161 | a tag opened at a `<` closes at the first `>` of the same line, and never past the end of the text |
| AiSummary.StripChars | src/ai_email_organizer.py:161 | removing tags keeps only characters of the input |
| AiSummary.StripBarrier | src/ai_email_organizer.py:161 | a line break with no `>` before it is kept together with everything before it, since `.` does not match a line break |
| AiSummary.StripKeepsOpen | src/ai_email_organizer.py:161 | a `<` with no `>` on its line stays unclosed after the rest is stripped |
| AiSummary.StripTagFree | src/ai_email_organizer.py:161 | after the substitution no `<` is followed by a `>` on the same line |
| AiSummary.CollapseSpacesSpec | src/ai_email_organizer.py:162 | collapsing whitespace leaves only single spaces, never two in a row, and keeps every other character in order |
| AiSummary.CollapsedWords | src/ai_email_organizer.py:162 | collapsing whitespace and then stripping gives the words of the input (its maximal non-space runs) joined by single spaces |
| AiSummary.WordsTrimLeft | src/ai_email_organizer.py:162 | the words of a text do not depend on its leading whitespace |
| AiSummary.NonSpaceTrimLeft | src/ai_email_organizer.py:162 | the `strip` drops only whitespace |
| AiSummary.WordLength | src/ai_email_organizer.py:163 | `\S+` matches the longest run of non-space characters at the start |
| AiSummary.UrlLength | src/ai_email_organizer.py:163 | a URL match is non-empty and ends at whitespace or at the end of the text |
| AiSummary.RemoveUrlsLeads | src/ai_email_organizer.py:163 | up to its first whitespace the text after URL removal reads like the input |
| AiSummary.AfterUrl | src/ai_email_organizer.py:163 | text after a removed URL starts with whitespace or is empty |
| AiSummary.RemoveUrlsClean | src/ai_email_organizer.py:163 | after the substitution no `http://`, `https://` or `www.` URL starts anywhere |
| AiSummary.RemoveUrlsNoop | src/ai_email_organizer.py:163 | text without URLs is left unchanged |
| AiSummary.UrlExtend | src/ai_email_organizer.py:163 | a URL start stays one when more text follows |
| AiSummary.NoUrlPrefix | src/ai_email_organizer.py:164 | cutting URL-free text short leaves it URL-free |
| AiSummary.CleanBounded | src/ai_email_organizer.py:159-164 | the cleaned body holds at most 2500 characters and no URL |
| AiSummary.MultiLineTagKept | src/ai_email_organizer.py:161-162 | a tag broken over two lines survives the tag removal and then becomes a one-line tag in the text sent to the classifier |
| AiSummary.SummaryShape | src/ai_email_organizer.py:134-167 | the summary opens with the From, Subject and Date lines and carries at most the cut-off's worth of body after them |
| AiSummary.GetEmailSummary | src/ai_email_organizer.py:127-167 | the method builds the summary of the message: heading lines, then the cleaned body |
| ResetInbox.StandardMarkerHasType | src/reset_inbox.py:72 | the standard marker's name contains "Standard Organizer", so the standard reset removes the marker too |
| ResetInbox.AiMarkerHasType | src/reset_inbox.py:79 | the AI marker's name contains "AI Organizer", so the AI reset removes the marker too |
| ResetInbox.ResetSenderLabels | src/reset_inbox.py:50-53 | an existing label store becomes exactly the two placeholder keys with empty lists; a missing one stays missing |
| ResetInbox.EmptyLabelTableHoldsNoLabel | src/reset_inbox.py:53 | the reset label store holds each placeholder once, with no address, and no real label |
| ResetInbox.ResetUnsubscribedSenders | src/reset_inbox.py:55-58 | an existing unsubscribe store becomes empty; a missing one stays missing |
| ResetInbox.ResetCategories | src/reset_inbox.py:60-63 | an existing category store holds no category; a missing one stays missing |
| ResetInbox.ResetSenderList | src/reset_inbox.py:65-68 | an existing sender directory becomes `[]`; a missing one stays missing |
| ResetInbox.GetOrganizerUids | src/reset_inbox.py:70-82 | the UIDs are exactly the messages carrying the marker, in mailbox order, each once |
| ResetInbox.OfType | src/reset_inbox.py:89-90 | the filtered labels are exactly those containing `label_type`, in order |
| ResetInbox.GetLabelsReadsReply | src/reset_inbox.py:84-91 | from a reply in Gmail's form, `get_labels` returns exactly the quoted labels of the list that contain the type; atoms are not read |
| ResetInbox.TypedNamesRead | src/reset_inbox.py:88-90 | when every label containing the type is quoted, the quoted labels of the type are all the labels of the type |
| ResetInbox.GetLabelsOfType | src/reset_inbox.py:89-90 | every label `get_labels` returns contains the type |
| ResetInbox.RemovePlan | src/reset_inbox.py:103-104 | the inner loop sends one `-X-GM-LABELS` STORE per label |
| ResetInbox.ResetRun | src/reset_inbox.py:101-105 | the run finishes at most as many messages as it is given |
| ResetInbox.After | src/reset_inbox.py:101-104 | resetting message by message keeps the set of messages |
| ResetInbox.ResetRunStops | src/reset_inbox.py:101-105 | the run finishes the messages before the first whose labels cannot be read, and raises exactly when there is one; a rejected command is assumed to be answered NO |
| ResetInbox.ResetRaisedStays | src/reset_inbox.py:101-102 | once a label fetch has raised, later messages change nothing |
| ResetInbox.RemoveEffect | src/reset_inbox.py:104 | one removal STORE only takes its label off its message, and does so when accepted |
| ResetInbox.RemovePlanEffect | src/reset_inbox.py:103-104 | the inner loop only removes listed labels from its own message; accepted, it removes exactly those |
| ResetInbox.ItemEffect | src/reset_inbox.py:102-104 | a message's commands only touch that message and only remove labels its fetch read |
| ResetInbox.AfterReplays | src/reset_inbox.py:101-104 | message by message, the labels are what the run's commands make of them |
| ResetInbox.ResetRunRemovesRead | src/reset_inbox.py:101-104 | the whole run only removes labels, and only labels the same message's fetch read, from a finished message |
| ResetInbox.ResetRunAccepted | src/reset_inbox.py:101-104 | with every STORE accepted, each finished message lost exactly the labels its fetch read, and every other message is unchanged |
| ResetInbox.OnlyTypeRemoved | src/reset_inbox.py:101-104 | whatever the server answers, the reset only takes off labels containing the type |
| ResetInbox.ResetClearsOrganizer | src/reset_inbox.py:93-108 | with well-formed replies that list atoms and quoted strings but quote every label containing the type, and every STORE accepted, every marked message is finished and keeps exactly its labels not containing the type, the marker removed; unmarked messages keep their labels |
| ResetInbox.FetchLabels | src/reset_inbox.py:85 | the label FETCH is logged and its reply parsed and filtered by `get_labels` |
| ResetInbox.RemoveLabels | src/reset_inbox.py:103-104 | the inner loop sends one removal STORE per label in order, and the labels are what those STOREs make of them; a rejected command is assumed to be answered NO |
| ResetInbox.ResetNext | src/reset_inbox.py:101-105 | one turn: fetch the labels, then remove those read; it raises exactly when the reply cannot be read; a rejected command is assumed to be answered NO |
| ResetInbox.RemoveFrom | src/reset_inbox.py:97-108 | the loop sends exactly the run's commands, stopping at a raise, and reports k/n after each finished message; a rejected command is assumed to be answered NO |
| ResetInbox.RemoveOrganizerLabels | src/reset_inbox.py:93-108 | SELECT and UID SEARCH for the marker, then the loop over exactly the marked messages |
| ResetInbox.RemoveStandardOrganizerLabels | src/reset_inbox.py:93-108 | the standard reset; each message keeps its labels except some containing "Standard Organizer" |
| ResetInbox.RemoveAiOrganizerLabels | src/reset_inbox.py:110-125 | the AI reset mirrors it with the AI marker; only labels containing "AI Organizer" are removed |
| ResetInbox.OnlyOrganizerRemoved | src/reset_inbox.py:101-104 | after a reset each message keeps its labels except some containing the type |
| SenderListPage.Page | src/GUI/SenderList.py:234-236 | a page slice holds at most 20 entries |
| SenderListPage.PagesAreChunks | src/GUI/SenderList.py:126 | pages 1 to `total_pages` are the consecutive 20-entry chunks of the list, each non-empty; later pages are empty; together the chunks are the list and there are `total_pages` of them |
| SenderListPage.NextSortState | src/GUI/SenderList.py:366-372 | after picking a key the list is sorted by that key; picking the same key again flips the direction, and a new key starts ascending (`↑`) |
| SenderListPage.KeyLessStrict | src/GUI/SenderList.py:376-381 | each sort key compares entries by a strict order: irreflexive and transitive |
| SenderListPage.BeforeStrict | src/GUI/SenderList.py:374-381 | the ordering the sort uses, reversed or not, is a strict order |
| SenderListPage.SortOrders | src/GUI/SenderList.py:374-381 | the sort keeps every entry (a permutation) and orders the list by the key, descending exactly when the `reverse` flag is set |
| SenderListPage.NameSortEmptiesLast | src/GUI/SenderList.py:379 | sorting by name ascending puts every empty name after the non-empty ones |
| SenderListPage.CountSortInverted | src/GUI/SenderList.py:381 | sorting by message count under `↑` puts larger counts first, and under `↓` smaller ones first |
| SenderListPage.Shown | src/GUI/SenderList.py:207-222 | the displayed record keeps the frequency, and a name that does not start with `=?` is left as it is |
| SenderListPage.ByNameStrict | src/GUI/SenderList.py:224 | the name order `load_senders` sorts by is a strict order |
| SenderListPage.ShowStep | src/GUI/SenderList.py:208-222 | decoding one more directory entry keeps the loop's invariant: each done address appears once, with its displayed record |
| SenderListPage.ShowAll | src/GUI/SenderList.py:208-222 | the loop lists every address of the directory exactly once, with its displayed record |
| SenderListPage.SortedListing | src/GUI/SenderList.py:224 | sorting that list by name gives each address once with its displayed record, in name order |
| SenderListPage.LoadSenders | src/GUI/SenderList.py:203-224 | `load_senders` returns every address of the directory once, with its displayed record, sorted by name |
| SenderListPage.ListingFilter | src/GUI/SenderList.py:407-410 | a list comprehension over the listing keeps exactly the accepted entries, each once, still in name order |
| SenderListPage.CapitalQueryNeverMatches | src/GUI/SenderList.py:458-462 | as written, a query holding an upper-case letter matches no sender |
| SenderListPage.MatchesAsWrittenMissesOwnName | src/GUI/SenderList.py:458-462 | as written, searching for "Amazon" does not find a sender named "Amazon" |
| SenderListPage.LowerIdempotent | src/GUI/SenderList.py:460-461 | lowercasing twice is lowercasing once |
| SenderListPage.MatchesIgnoresCase | src/GUI/SenderList.py:458-462 | the corrected search ignores the case of the query, and a sender is found by its own address or name |
| SenderListPage.Members | src/GUI/SenderList.py:406 | `label_data.get(label, [])` is the label's address list when the label exists, and empty otherwise |
| SenderListPage.WithLabelAppends | src/GUI/SenderList.py:590-599 | for any stored file, the file `add_label` writes has no repeated key, and the label lists the address at the end of its old list (a missing label is created), even when it already held it; every other label keeps the list a lookup found before |
| SenderListPage.WithLabelRepeatedKey | src/GUI/SenderList.py:590-599 | a file with a repeated label key is written back with that key once, holding its last list with the address appended |
| SenderListPage.Unsubscribed | src/GUI/SenderList.py:607-618 | after `unsubscribe` the address maps to `True`, every other entry is kept, and a missing file is created holding only that address |
| SenderListPage.ResubscribeUndoes | src/GUI/SenderList.py:607-628 | unsubscribing an address the store did not hold and then removing it gives the store back |
| SenderListPage.StalePageCountShowsEmptyPage | src/GUI/SenderList.py:667-680 | after a deletion that leaves exactly 20 senders, the kept page count still says 2 while page 2 is empty |
| SenderListPage.SenderList.constructor | src/GUI/SenderList.py:113-126 | a scanned directory opens as the full listing on page 1 of its page count, unsorted, with no search or filter |
| SenderListPage.SenderList.OnScreen | src/GUI/SenderList.py:226-238 | the entries shown are the current page's chunk, non-empty while the list is, and never more than 20 |
| SenderListPage.SenderList.NextPage | src/GUI/SenderList.py:492-495 | the page advances by one unless it is the last; nothing else changes |
| SenderListPage.SenderList.PrevPage | src/GUI/SenderList.py:497-500 | the page goes back by one unless it is the first; nothing else changes |
| SenderListPage.SenderList.Scroll | src/GUI/SenderList.py:488-490 | a wheel-up event turns back a page, and any other event turns forward |
| SenderListPage.SenderList.HandleSort | src/GUI/SenderList.py:366-385 | the next sort state, the list sorted in place by it, page 1; the page count is unchanged |
| SenderListPage.SenderList.ReloadKeeping | src/GUI/SenderList.py:407-416 | the list is reloaded keeping only the accepted entries, and the page count is recomputed with page 1 shown |
| SenderListPage.SenderList.HandleFilter | src/GUI/SenderList.py:387-416 | a placeholder clears the filter, reloading the whole directory only if a filter was on; a label shows exactly the entries its rule lists, clears the search text and goes to page 1 |
| SenderListPage.SenderList.EnterQuery | src/GUI/SenderList.py:448 | the search text is what the user typed, and nothing else changes |
| SenderListPage.SenderList.ExitSearch | src/GUI/SenderList.py:469-481 | leaving the search clears the text and reloads the whole directory at page 1 |
| SenderListPage.SenderList.SearchSenders | src/GUI/SenderList.py:447-467 | corrected: an empty query does nothing unless a search is on, and then ends it and reloads everything; any other query shows exactly the entries whose address or name contains it, ignoring case |
| SenderListPage.SenderList.AddLabel | src/GUI/SenderList.py:591-600 | the label store gains the address under the label; the other stores are unchanged |
| SenderListPage.SenderList.Unsubscribe | src/GUI/SenderList.py:607-618 | the unsubscribe store marks the address, creating the file if needed; the other stores are unchanged |
| SenderListPage.SenderList.Resubscribe | src/GUI/SenderList.py:620-628 | an existing store loses the address; `del` of an address the store lacks raises before anything is written; a missing file is left missing |
| SenderListPage.SenderList.RefreshSenderListAsWritten | src/GUI/SenderList.py:667-680 | as written, the address leaves the directory and the list is reloaded and unsorted, but the old page count and page are kept |
| SenderListPage.SenderList.RefreshSenderList | src/GUI/SenderList.py:667-680 | corrected: the address leaves the directory and the list, and the page count is recomputed with page 1 shown |
| AiOrganizerPage.RemoveFirst | src/GUI/AIOrganizer.py:276 | `list.remove(x)` takes exactly one occurrence of `x` out of the list |
| AiOrganizerPage.RemoveFirstAt | src/GUI/AIOrganizer.py:282-284 | in a list without repeats, removing the value at index `k` deletes index `k` |
| AiOrganizerPage.DistinctDelete | src/GUI/AIOrganizer.py:283-284 | deleting an index of a list without repeats leaves a list without repeats, holding only values of the list |
| AiOrganizerPage.Unselected | src/GUI/AIOrganizer.py:272-277 | removing selected indices never lengthens the list |
| AiOrganizerPage.UnselectedMembers | src/GUI/AIOrganizer.py:272-277 | a value survives the removal iff it stands at some index that was not selected |
| AiOrganizerPage.UnselectedAgrees | src/GUI/AIOrganizer.py:265 | only the selected indices inside the list matter |
| AiOrganizerPage.UnselectedLength | src/GUI/AIOrganizer.py:272-278 | removing the selected lines leaves `len(list) - n_removed` lines |
| AiOrganizerPage.UnselectedSplit | src/GUI/AIOrganizer.py:273-275 | with every selected index below `i`, the lines from `i` on are all kept, in order |
| AiOrganizerPage.DeleteShifted | src/GUI/AIOrganizer.py:274-275 | after `n_removed` deletions below index `i`, line `i` has moved to `i - n_removed`, and deleting it there removes original line `i` |
| AiOrganizerPage.SelectedStep | src/GUI/AIOrganizer.py:273 | walking an ascending selection adds one new index at a time, above all the earlier ones |
| AiOrganizerPage.DecimalValueDigits | src/GUI/AIOrganizer.py:308 | a run of one or more decimal digits reads as its value, and any other text is rejected |
| AiOrganizerPage.TrimKeeps | src/GUI/AIOrganizer.py:308 | text that starts and ends with a non-space is its own `strip()` |
| AiOrganizerPage.ParseTrimmed | src/GUI/AIOrganizer.py:308 | text that is its own `strip()` is read as it stands |
| AiOrganizerPage.ParsePlain | src/GUI/AIOrganizer.py:308 | `int()` of a decimal number is its value |
| AiOrganizerPage.ParseNegative | src/GUI/AIOrganizer.py:308 | `int()` of a minus sign followed by digits is the negated value |
| AiOrganizerPage.ParseIntNeedsDigits | src/GUI/AIOrganizer.py:307-314 | text with no digit, such as the cleared entry or "ALL", raises `ValueError` |
| AiOrganizerPage.Decide | src/GUI/AIOrganizer.py:303-322 | the organizer starts iff (the switch is on or the entry holds an integer) and the category list is non-empty; the count is "all" or that integer; a refusal names the missing count first, then the empty list |
| AiOrganizerPage.DeleteLine | src/GUI/AIOrganizer.py:282-284 | deleting a list box line and removing its name from the list never raises, keeps the list box mirroring the list, and keeps a clean list clean |
| AiOrganizerPage.RemovingStep | src/GUI/AIOrganizer.py:273-277 | the next selected index, shifted down by the deletions so far, is a line of the list box, and deleting it there deletes that original line |
| AiOrganizerPage.AiOrganizerPage.constructor | src/GUI/AIOrganizer.py:13-20 | the page opens with the categories from the data file (empty when it is missing), shown in the same order, with the switch on and the count entry reading "ALL" |
| AiOrganizerPage.AiOrganizerPage.EnterCategory | src/GUI/AIOrganizer.py:241 | the category entry holds what the user typed, and nothing else changes |
| AiOrganizerPage.AiOrganizerPage.AddCategory | src/GUI/AIOrganizer.py:240-262 | a name already listed, or the empty name, is refused with the list unchanged; any other name goes at the end of the list and the list box, the entry is cleared and the list is saved |
| AiOrganizerPage.AiOrganizerPage.RemoveSelected | src/GUI/AIOrganizer.py:271-279 | the multiple-selection loop deletes exactly the selected lines and counts them |
| AiOrganizerPage.AiOrganizerPage.RemoveNext | src/GUI/AIOrganizer.py:274-277 | one turn of that loop deletes the next selected original line |
| AiOrganizerPage.AiOrganizerPage.DeleteAt | src/GUI/AIOrganizer.py:282-284 | line `k` leaves the list box and its name leaves the list |
| AiOrganizerPage.AiOrganizerPage.RemoveOne | src/GUI/AIOrganizer.py:280-286 | the single-selection branch deletes exactly the selected line and its name |
| AiOrganizerPage.AiOrganizerPage.RemoveCategory | src/GUI/AIOrganizer.py:264-288 | with nothing selected, nothing changes and nothing is saved; otherwise exactly the selected lines are deleted, their names leave the list and the list is saved; the feedback counts them |
| AiOrganizerPage.AiOrganizerPage.SwitchOrganizeAll | src/GUI/AIOrganizer.py:290-301 | the switch flips: on shows "ALL" in the count entry, and off clears it |
| AiOrganizerPage.AiOrganizerPage.EnterCount | src/GUI/AIOrganizer.py:186 | the count entry takes what the user typed only while the switch is off |
| AiOrganizerPage.AiOrganizerPage.OrganizeInbox | src/GUI/AIOrganizer.py:303-339 | the organizer starts with the decided count after the list is saved and the flag cleared; otherwise only the feedback changes |
| AiOrganizerPage.AiOrganizerPage.Start | src/GUI/AIOrganizer.py:324-330 | the list is saved and the cancel flag cleared |
| AiOrganizerPage.AiOrganizerPage.CancelOrganize | src/GUI/AIOrganizer.py:386-391 | only the shared flag is set, and the feedback says "Cancelling..." |
| AiOrganizerPage.UnselectedNone | src/GUI/AIOrganizer.py:267-270 | removing no index keeps the list |
| EmailOrganizerPage.CheckHasRules | src/GUI/EmailOrganizer.py:43-62 | the answer is yes iff some real label (not a placeholder) lists an address, or the unsubscribe store is non-empty; missing files count as empty |
| EmailOrganizerPage.CheckHasScannedSenders | src/GUI/EmailOrganizer.py:32-41 | the answer is whether the directory file holds a sender; a missing file is created as the empty list and answers no |
| EmailOrganizerPage.ViewFor | src/GUI/EmailOrganizer.py:23-28 | a missing scan is reported before missing rules, and the organize button appears iff both checks pass |
| EmailOrganizerPage.LabelMakesRule | src/GUI/EmailOrganizer.py:50-56 | once a sender is given a real label, whatever the label file held before, the rules check answers yes |
| EmailOrganizerPage.UnsubscribeMakesRule | src/GUI/EmailOrganizer.py:58-61 | once a sender is unsubscribed from, the rules check answers yes |
| EmailOrganizerPage.ResetLeavesNoRules | src/GUI/EmailOrganizer.py:43-62 | after the label store and the unsubscribe store are reset, the rules check answers no |
| EmailOrganizerPage.EmailOrganizerPage.constructor | src/GUI/EmailOrganizer.py:10-28 | the page runs the scan check (which may create the directory file), then the rules check, and shows the branch those answers choose |
| EmailOrganizerPage.EmailOrganizerPage.Scan | src/GUI/EmailOrganizer.py:120-121 | the cancel flag is cleared before the organizer run starts |
| EmailOrganizerPage.EmailOrganizerPage.CancelScan | src/GUI/EmailOrganizer.py:190-191 | only the shared cancel flag changes |
| SenderEntryRow.RenderFields | src/SenderEntry.py:43-50 | the text starts with the address field and ends with the count field; a non-empty name sits in a field of its own between them, and an empty name is not shown at all |
| SenderEntryRow.TrimmedLabel | src/SenderEntry.py:248-250 | a non-empty `strip()` result is a label the page can receive |
| SenderEntryRow.CallsOfAppend | src/SenderEntry.py:252-327 | one more callback for this row's address keeps the log of callbacks well formed |
| SenderEntryRow.SenderEntry.constructor | src/SenderEntry.py:16-41 | a row starts with its address, name and count, out of both modes, with no deletion in progress and no callback made |
| SenderEntryRow.SenderEntry.InitSubButton | src/SenderEntry.py:331-337 | with an unsubscribe store the flag says whether the address is one of its keys; without one the flag is left as it was |
| SenderEntryRow.SenderEntry.AddLabel | src/SenderEntry.py:198-245 | label mode is switched over, and nothing else changes |
| SenderEntryRow.SenderEntry.TypeLabel | src/SenderEntry.py:248 | the label entry holds what the user typed |
| SenderEntryRow.SenderEntry.AddLabelConfirm | src/SenderEntry.py:247-253 | a stripped, non-empty label clears the entry, is handed to the page with the address, and ends label mode; otherwise nothing happens |
| SenderEntryRow.SenderEntry.ConfirmLabel | src/SenderEntry.py:251-253 | the page receives exactly one add-label call with this address and the label, and label mode ends |
| SenderEntryRow.SenderEntry.Unsubscribe | src/SenderEntry.py:255-257 | the page receives an unsubscribe call for the address and the flag is set |
| SenderEntryRow.SenderEntry.Resubscribe | src/SenderEntry.py:260-262 | the page receives a resubscribe call for the address and the flag is cleared |
| SenderEntryRow.SenderEntry.PressSubscription | src/SenderEntry.py:339-354 | the subscription button resubscribes a sender marked unsubscribed and unsubscribes any other (also one whose store was never read), telling the page and flipping the flag |
| SenderEntryRow.SenderEntry.Delete | src/SenderEntry.py:265-309 | delete mode is switched over, and nothing else changes |
| SenderEntryRow.SenderEntry.DeleteConfirm | src/SenderEntry.py:315-329 | the first confirmation marks the deletion in progress and asks the page to delete the sender; later ones make no call, so the page is asked at most once |
| SenderEntryRow.SenderEntry.AppendCall | src/SenderEntry.py:252-327 | a callback is appended at the end of the log, and the log stays well formed |
| SenderEntryRow.FrequencyOrder | src/SenderEntry.py:61-69 | rows compare by their message counts alone: `<` is a strict order, `==` an equivalence, and any two rows are related by exactly one of `<`, `>`, `==` |

## Left out

- The IMAP connection itself: `establish_connection`'s three attempts and the transport of every command. Network I/O is replaced by the command log and the result-code input `codeAt`. Only the LOGIN step is modelled (see the Findings); every session the programs' models run on is an authenticated one.
- Server-side matching of the `FROM` criterion is the input `fromMatches`, because the server's address matching cannot be seen from the client.
- `multiprocessing.Pool`, `Manager` and every `threading` thread, with the `check_*_status` polling loops. A batch's results arrive as a given permutation of the batches (`arrived`), and a cancel flag is the index of the first poll that sees it set (`cancelAt`).
- The non-atomic `counter.value += 1` shared between workers (src/sender_scan.py:116) is a concurrency race and is not modelled.
- SenderScan.ScanEmailsParallel: a worker always finishes its batch. Cancellation inside a worker is modelled in `ProcessBatch` alone, because the pool is terminated as soon as the parent sees the flag.
- SenderScan.MergeSendersDicts: the merge works on values. The source stores the first partial map's record object and then updates it with `+=`, which also changes that input map; this aliasing is not captured.
- The OpenAI call and the prompt template (src/ai_email_organizer.py:203-221) are a foreign service; the classifier is the input `respond`, and `None` stands for a call that raised.
- Library parsers are inputs: `email.message_from_bytes` (`emailOf`), `email.utils.parseaddr` (`headerOf`), `decode_header` with `quopri` (`decode`), the BeautifulSoup tag walk (`htmlText`) and `html.unescape` (`unescape`).
- UTF-8 decoding with `errors='ignore'` is part of the parsed payloads, not modelled separately.
- The tqdm `rate` and `elapsed` values and the time-remaining arithmetic of `update_scan_progress` are floating point; only the completed-item fractions are modelled.
- JSON file reads and writes: each store is an in-memory value, `None` when its file is missing. Write failures and malformed files are not modelled.
- The AI log file keeps, per entry, the labels read, the two STORE answers and the message's record. The `call` strings and the `str(data)` server texts are not kept.
- Dictionary iteration order of the sender directory is not modelled, because the directory is a map.
- SenderListPage.LoadSenders: addresses with equal names come in the order the directory is enumerated, which the map does not fix. The contract states each address once, with its record, sorted by name.
- Text.Lower and Text.Trim: `str.lower` and white space are modelled for ASCII only. White space is the ten ASCII characters Python treats as such (space, tab, line feed, carriage return, vertical tab, form feed and U+001C to U+001F). Unicode case mapping and non-ASCII white space such as U+0085 and U+00A0 are not modelled.
- AiOrganizerPage.Decide: `int()` is modelled on ASCII decimal numerals with an optional sign and surrounding white space. Underscore separators and non-ASCII digits, which Python also accepts, are not modelled.
- All widget construction, layout, images and colours of the pages, and the feedback texts' colours, are left out; a page is a class holding its data state.
- The scan and delete threads started from the sender list page (`scan`, `run_scan`, `delete_sender`, `run_delete_sender`) are threads around `scan_for_senders` and `rm_from_sender`, which are modelled on their own.
- `print` output and progress-bar widgets are not modelled; progress is the list of reported samples.
- AiOrganizer.Env: the classifier's category list is an input. In the program it is `CATEGORIES`, read once when src/GUI/AIOrganizer.py:9 first imports the organizer module (src/ai_email_organizer.py:47). Categories the page adds or removes afterwards (src/GUI/AIOrganizer.py:254-258, 283-288) are neither offered to the classifier (line 208) nor accepted from it (line 233) until the program restarts. The model does not tie `Env.categories` to the page's saved list.
- RuleOrganizer.ProcessEmail: the From header is an input of type `Option<string>`. The source decodes it strictly (`data[0][1].decode()`, src/email_organizer.py:122). A header that is not valid UTF-8 raises `UnicodeDecodeError`, which nothing in `organize_emails` catches, so the whole run stops at that message. This error path is not modelled.
- AiOrganizerPage.AiOrganizerPage.RemoveSelected and AiOrganizerPage.AiOrganizerPage.RemoveCategory require the selection in ascending order. That is the order `CTkListbox.curselection()` is assumed to return; the library's code is not part of this model.
- Mailbox.Code: a command's tagged result is OK or NO. A server that answers BAD makes imaplib raise `IMAP4.error` instead of returning (section 7.1.3 of RFC 3501), and no model server answers BAD; every rejected command is taken to be answered NO, which the programs read and go on from.
- Mailbox.Session.Store: a STORE answered BAD raises in the caller instead of returning a code; this case is not modelled (see `Mailbox.Code`).
- RuleOrganizer.ProcessEmail: a STORE answered BAD (src/email_organizer.py:124, 128, 131) raises out of `process_email`; the message's remaining STOREs are not sent. Not modelled (see `Mailbox.Code`).
- RuleOrganizer.OrganizeEmails: nothing in the walk catches a raise from `process_email`, so a STORE answered BAD ends the walk there with no further progress. Not modelled (see `Mailbox.Code`).
- RuleOrganizer.EmailOrganizer: a STORE answered BAD ends the whole run at that message. Not modelled (see `Mailbox.Code`).
- RemoveFromSender.TrashAll: a Trash STORE answered BAD (src/rm_from_sender.py:71) raises and ends the loop. Not modelled (see `Mailbox.Code`).
- RemoveFromSender.DeleteEmails: after a STORE answered BAD, EXPUNGE, CLOSE and LOGOUT (src/rm_from_sender.py:76-78) are never sent. Not modelled (see `Mailbox.Code`).
- RemoveFromSender.RmFromSender: a STORE answered BAD ends the purge before EXPUNGE, so the contract's "deletion runs once" does not cover it. Not modelled (see `Mailbox.Code`).
- AiOrganizer.AddLabelTwoStep: a STORE answered BAD (src/ai_email_organizer.py:290, 303) raises out of `add_label` before any log entry is written or any value returned. Not modelled (see `Mailbox.Code`).
- AiOrganizer.AddLabel: as for `AddLabelTwoStep`, a STORE answered BAD leaves no log entry and no result. Not modelled (see `Mailbox.Code`).
- AiOrganizer.StepCounts: a STORE answered BAD inside `add_label` lands in the loop's `except` (src/ai_email_organizer.py:243-250), which neither logs nor counts, so the counter at line 235 or 239 is not raised. Not modelled (see `Mailbox.Code`).
- AiOrganizer.StepCountsIgnoreServer: the counters do ignore OK and NO answers, but a BAD answer would leave the message uncounted. Not modelled (see `Mailbox.Code`).
- AiOrganizer.ProcessItem: a STORE answered BAD ends the message's turn in the `except` with no log entry and no counter change. Not modelled (see `Mailbox.Code`).
- AiOrganizer.LabelAnswer: a STORE answered BAD makes `add_label` raise, so the answer's counter is not raised. Not modelled (see `Mailbox.Code`).
- AiOrganizer.HandleFetched: a STORE answered BAD ends the message uncounted and unlogged. Not modelled (see `Mailbox.Code`).
- AiOrganizer.ClassifiedLabel: a STORE answered BAD leaves the message without log entry and counter. Not modelled (see `Mailbox.Code`).
- GmailLabels.ReplyRoundTrip: a label whose name holds a quote (written `\"` inside a quoted string), a line break, or a `)` followed by a space is not covered. `findall` would split such a name or the lazy group would end inside it, and the model proves nothing about those replies.
- ResetInbox.ResetClearsOrganizer: a label of the type that Gmail writes as an atom is never read, so the reset leaves it on the message. The lemma covers replies where every label containing the type is quoted; `GmailLabels.AtomNoToken` states what happens to the others.
- ResetInbox.ResetRunStops: a removal STORE answered BAD (src/reset_inbox.py:104, 121) would also raise and end the run. Only an unreadable label reply stops the model's run (see `Mailbox.Code`).
- ResetInbox.RemoveLabels: a removal STORE answered BAD raises and skips the message's remaining labels. Not modelled (see `Mailbox.Code`).
- ResetInbox.ResetNext: a turn also raises when one of its removal STOREs is answered BAD. Not modelled (see `Mailbox.Code`).
- ResetInbox.RemoveFrom: the loop also stops at a removal STORE answered BAD. Not modelled (see `Mailbox.Code`).

## Findings

| source | as written | input that shows it | evidently intended | confidence | as-written member | corrected member |
|---|---|---|---|---|---|---|
| src/sender_scan.py:58-60 | `mail.search(None, "ALL")` returns message sequence numbers, which `process_batch` then fetches as UIDs | a mailbox whose only message has UID 7: the scan fetches UID 1, which names no message | a UID SEARCH ALL, so that every message's UID is fetched | not executed | SenderScan.FetchAllIdsAsWrittenMissesMessages | SenderScan.FetchAllUids |
| src/email_organizer.py:84 | a plain SEARCH for unchecked messages returns sequence numbers, which are later fetched and stored by UID | messages with ascending UIDs 2 (checked) then 3 (unchecked): SEARCH answers sequence number 2, so the organizer handles checked message 2 again and never reaches message 3 | a UID SEARCH, so that the unchecked messages are the ones handled | not executed | RuleOrganizer.CandidateIdsAsWrittenPicksWrongMessage | RuleOrganizer.FetchUids |
| src/email_organizer.py:57-71 | `sender_labels` and `unsubscribed` are bound only when their files exist, and are then read unconditionally | no `unsubscribed.json`: the loop at line 70 raises `UnboundLocalError` | a missing store contributes no rules | not executed | RuleOrganizer.SenderRulesAsWritten | RuleOrganizer.GetSenderRules |
| src/ai_email_organizer.py:243-250 | the handler compares the exception object with the string `"FETCH ERROR"`, which never holds | a FETCH with no data: nothing is logged and `skipped_emails` stays 0 | a failed fetch is logged and counted as skipped | not executed | AiOrganizer.StepAsWrittenLosesFetchErrors | AiOrganizer.RunLogsFetchFailures |
| src/ai_email_organizer.py:267-270 | the strip loop rebinds only its loop variable, so the list is returned unchanged | the reply listing `"\\Inbox"` comes back as `\\Inbox` | system labels with their escape removed | not executed | AiOrganizer.GetLabelsAsWrittenKeepsEscape | AiOrganizer.GetLabelsSystemLabel |
| src/GUI/SenderList.py:458-462 | the query is compared as typed with the lowercased address and name | searching "Amazon" does not find the sender named "Amazon" | the query lowercased too, so the search ignores case | not executed | SenderListPage.MatchesAsWrittenMissesOwnName | SenderListPage.MatchesIgnoresCase |
| src/GUI/SenderList.py:667-680 | the list is reloaded after a deletion but `total_pages` and `current_page` are kept | 21 senders on page 2, then that sender is deleted: the page still says 2 pages and shows nothing | the page count recomputed and page 1 shown, as every other reload does | not executed | SenderListPage.StalePageCountShowsEmptyPage | SenderListPage.SenderList.RefreshSenderList |
| src/sender_scan.py:46-47 | `establish_connection` calls `mail.login` twice; the same doubled call is at src/ai_email_organizer.py:71-72, src/reset_inbox.py:44-45 and src/rm_from_sender.py:36-37 | any account: imaplib accepts LOGIN only in the not-authenticated state, so the second call raises `IMAP4.error` and the scan, the AI organizer, the reset and the purge stop before their first mailbox command | one LOGIN, as src/email_organizer.py:44 does | not executed | Mailbox.EstablishConnectionAsWrittenRaises | Mailbox.EstablishConnection |
