# AgentBridge rendezvous, modelled in Dafny

AgentBridge is an intent-to-provider rendezvous. A client posts an *intent*: a goal, inputs,
and an optional budget and deadline. The hub asks each known provider for a *proposal*: a
quoted cost, latency, confidence and plan. It scores the proposals and keeps those inside the
intent's ceilings. It ranks them by score, highest first. On execution it tries the ranked
providers in turn and returns the first one that answers. Providers A to H extract event
details (title, start, end, place) from text or OCR output and grade what they found as
`OK`, `PARTIAL` or `ERROR`. They also share a set of text handlers: translate, sentiment,
summarize, keywords and classify.

This project models that core and proves properties of it:

- **Hub** (`hub.dfy`, `models.dfy`, `stable_sort.dfy`):
  - the score formula;
  - filtering by budget and deadline, which is proved sound and complete;
  - the stable descending sort, proved sorted, a permutation of the kept proposals, and order-preserving among equal scores;
  - ranked fallback execution, with the first-success rule and the two 503 errors;
  - projection of the winning proposal onto its public fields.
- **MCP configuration** (`mcp_config.dfy`): candidate file order, the first-existing-file rule, and server validation.
- **Web client**:
  - `home_page.dfy` and `legacy_home.dfy`: the two pages' handlers, as classes whose methods update the page state;
  - `proposal_stream.dfy`: the proposal stream, its open-panel toggle and the per-row comparison figures;
  - `web_types.dfy`: the shared explanation arithmetic;
  - `task_history.dfy` and `history_panel.dfy`: the capped task history store and the "time ago" formatter;
  - `task_templates.dfy`: the template table and its lookup;
  - `file_upload.dfy`: the file picker's size check and unit choice.
- **Providers**:
  - `task_handlers.dfy`: the shared text handlers;
  - `event_common.dfy`: field counting, the status rules and the assembly of an `a2a` result;
  - `agent_a.dfy` to `agent_h.dfy`: one module per extractor;
  - `text.dfy`: the Python string operations they use.

Regular expressions are not interpreted. A search is a function from the searched string to
the match's groups, or `None`. Each provider applies the right search to the right string,
in the order its code does.

## Model

| member | source | states |
|---|---|---|
| StableSort.SortDescCorrect | agent-rendezvous/hub/main.py:94 | the sort used for ranking yields descending scores, holds exactly the input elements, and keeps the input order among equal scores |
| StableSort.WithKey | agent-rendezvous/hub/main.py:94 | the elements with a given score are a subsequence of the list, each with that score |
| StableSort.InsertPos | agent-rendezvous/hub/main.py:94 | a new element goes after every leading element whose score is at least its own, and before the first with a lower score |
| StableSort.InsertKeepsOrder | agent-rendezvous/hub/main.py:94 | inserting into a list sorted highest first keeps it sorted |
| StableSort.InsertKeepsElements | agent-rendezvous/hub/main.py:94 | inserting adds exactly the new element to the multiset of elements |
| StableSort.InsertKeepsTies | agent-rendezvous/hub/main.py:94 | after inserting into a sorted list, the elements with any given score are the old ones with that score followed by the new one, so ties keep their arrival order |
| Models.NewIntent | agent-rendezvous/shared/models.py:5-10 | an intent given only goal and inputs has no constraints, budget or SLA |
| Models.NewProposal | agent-rendezvous/shared/models.py:13-18 | a proposal keeps cost, latency, confidence and plan, and `needs` defaults to empty |
| Models.NewTask | agent-rendezvous/shared/models.py:21-24 | a task keeps goal and inputs, and `sla_ms` defaults to 120000 |
| Models.NewResult | agent-rendezvous/shared/models.py:27-32 | a result given only its status has empty data, metrics and evidence and no error |
| Models.StatusName | agent-rendezvous/shared/models.py:28 | every status is written as one of "OK", "PARTIAL", "ERROR" |
| Models.ParseStatus | agent-rendezvous/shared/models.py:28 | a status literal validates exactly when it is one of the three names |
| Models.StatusRoundTrip | agent-rendezvous/shared/models.py:28 | validating a written status gives it back, and distinct statuses have distinct names |
| Hub.CalculateScore | agent-rendezvous/hub/main.py:37-42 | a non-positive cost scores 0; otherwise score × cost × (1 + latency/5000) equals the confidence, and scoring fails only when the latency factor is zero |
| Hub.CheaperScoresHigher | agent-rendezvous/hub/main.py:37-42 | at equal confidence and latency, a cheaper positive-cost proposal never scores lower |
| Hub.QuotientOrder | agent-rendezvous/hub/main.py:42 | of two positive divisors of one non-negative amount, the smaller gives the larger quotient |
| Hub.FetchProposal | agent-rendezvous/hub/main.py:45-67 | a proposal is returned exactly for a 200 reply that validates and can be scored (and whose own `_score`, if any, is a number); it keeps the reply's fields, and because the reply is spread after the tags, the reply's `_agent`, `_agent_name` and `_score` win over the provider's id, name and computed score |
| Hub.ProviderOf | agent-rendezvous/hub/main.py:139-140 | a merged `_agent` value names a known provider exactly when it is the string of that provider's id |
| Hub.PlainReplyKeepsHubTags | agent-rendezvous/hub/main.py:57-62 | a reply without underscore keys is attributed to the provider that sent it and ranked by the computed score |
| Hub.ReplyTagOverridesSender | agent-rendezvous/hub/main.py:57-62 | because the reply is spread after the hub's tags, a reply naming another known provider in `_agent` is attributed to that provider |
| Hub.NoUnderscoreKey | agent-rendezvous/hub/main.py:57-62 | a key starting with an underscore is absent from a reply none of whose keys does |
| Hub.Collected | agent-rendezvous/hub/main.py:103-106 | after gathering, exceptions and missing replies are dropped and every returned proposal is kept; `CollectedKeepsOrder` adds that the order is kept |
| Hub.CollectedKeepsOrder | agent-rendezvous/hub/main.py:103-106 | the kept results of a concatenation are the kept results of each part in turn; a returned proposal is kept and an exception or a missing reply is dropped |
| Hub.Kept | agent-rendezvous/hub/main.py:77-91 | a proposal is kept exactly when it arrived and exceeds neither the budget ceiling nor the deadline that is present |
| Hub.FilterAndSort | agent-rendezvous/hub/main.py:70-95 | the result is a permutation of the kept proposals, sorted by score with the highest first, and proposals with equal scores keep their input order |
| Hub.NoCeilingsKeepAll | agent-rendezvous/hub/main.py:82-89 | with no budget ceiling and no deadline, every reply that arrived is kept |
| Hub.PostIntent | agent-rendezvous/hub/main.py:98-111 | the proposals returned are the ranking of the replies: exactly the replies within the limits, as a multiset the kept ones, sorted by score with the highest first, and equal scores in the order the replies came |
| Hub.LookupProvider | agent-rendezvous/hub/main.py:140 | the lookup finds a provider exactly when one has the id, and then returns that provider |
| Hub.ProviderIdsDistinct | agent-rendezvous/hub/main.py:28-32 | the three providers have distinct ids |
| Hub.TaskFor | agent-rendezvous/hub/main.py:131-135 | the task carries the intent's goal and inputs, with its deadline as `sla_ms` or 120000 when there is none |
| Hub.PublicFields | agent-rendezvous/hub/main.py:156 | the projected proposal holds exactly the reply's fields whose key does not start with an underscore |
| Hub.AttemptError | agent-rendezvous/hub/main.py:151-164 | a failed attempt leaves an error message only when the provider is known and did not answer 200 |
| Hub.ProviderMessage | agent-rendezvous/hub/main.py:160-164 | every last-error text starts with "Provider ", the provider id and a space |
| Hub.Attempt | agent-rendezvous/hub/main.py:139-164 | one pass of the loop wins exactly when the proposal succeeds, then answering with its winner; otherwise it leaves the attempt's error |
| Hub.LastErrorStep | agent-rendezvous/hub/main.py:137-164 | after one more failed attempt the last error is that attempt's error when it leaves one, and the previous last error otherwise |
| Hub.NoSuccessStep | agent-rendezvous/hub/main.py:138-164 | one more failed attempt extends the run of proposals that did not succeed |
| Hub.TryRanked | agent-rendezvous/hub/main.py:137-170 | there is a winner exactly when some ranked proposal succeeds; the winner is the first one that does, answered with the public fields of its proposal; otherwise the answer is a 503 carrying the last error |
| Hub.Execute | agent-rendezvous/hub/main.py:114-170 | the answer is the no-providers 503 exactly when nothing is within the limits; otherwise there is a winner exactly when some ranked proposal succeeds, the winner is the first in rank order that does, and with no success the answer is the all-failed 503 carrying the last error |
| Hub.WinnerHasBestSucceedingScore | agent-rendezvous/hub/main.py:138-158 | no succeeding proposal in the ranked list scores higher than the winner |
| Hub.DetailsDiffer | agent-rendezvous/hub/main.py:124-170 | the 503 for "all providers failed" always differs from the 503 for "no available providers" |
| WebTypes.FailureMessage | agent-rendezvous/web/app/page.tsx:145-162 | a non-2xx response reports "HTTP status: statusText"; a network or body failure reports its own message, or the handler's fallback when that message is empty |
| WebTypes.PlanPreview | agent-rendezvous/web/components/LiveProposalStream.tsx:191 | the preview is a prefix of the plan of at most two steps, and the whole plan when it is shorter |
| WebTypes.WinnerFlags | agent-rendezvous/web/components/LiveProposalStream.tsx:50 | one flag per row, and exactly the first row is marked as the winner |
| WebTypes.StatusBadgeVariant | agent-rendezvous/web/app/page.tsx:266-277 | OK, PARTIAL and ERROR each get their own badge style (in both directions), and every other status the default |
| ProposalStream.ShouldRender | agent-rendezvous/web/components/LiveProposalStream.tsx:31-33 | the stream renders nothing exactly when it is idle and has no proposals |
| ProposalStream.PeerIndex | agent-rendezvous/web/components/LiveProposalStream.tsx:157-158 | a row is compared with a different existing row: the winner with the runner-up, every other row with the winner; there is no peer only when there is one row |
| ProposalStream.RowFigures | agent-rendezvous/web/components/LiveProposalStream.tsx:153-176 | the deltas exist exactly when there is a peer and are the row's score, cost and latency minus the peer's; a headroom exists exactly when its constraint does and is the limit minus the explained input, falling back to the row's own estimate |
| ProposalStream.ComparisonsMeetTheWinner | agent-rendezvous/web/components/LiveProposalStream.tsx:50-158 | with two or more rows every row has a peer, every comparison involves the row flagged as the winner, and the winner is compared with the row after it |
| ProposalStream.WinnerAndRunnerUpOpposite | agent-rendezvous/web/components/LiveProposalStream.tsx:157-161 | the winner's and the runner-up's panels show the same deltas with opposite signs |
| ProposalStream.OverBudgetShowsNegativeHeadroom | agent-rendezvous/web/components/LiveProposalStream.tsx:162-168 | a row whose cost exceeds its budget shows a negative headroom rather than none |
| ProposalStream.Toggle | agent-rendezvous/web/components/LiveProposalStream.tsx:98 | clicking the open row closes it; clicking any other row opens that one |
| ProposalStream.ToggleTwice | agent-rendezvous/web/components/LiveProposalStream.tsx:98 | two clicks on one row restore the state when that row was open, and otherwise leave every panel closed |
| ProposalStream.StreamView.constructor | agent-rendezvous/web/components/LiveProposalStream.tsx:30 | a new stream has no panel open |
| ProposalStream.StreamView.ClickWhy | agent-rendezvous/web/components/LiveProposalStream.tsx:98 | the open row becomes Toggle of the previous one |
| ProposalStream.StreamView.AtMostOnePanel | agent-rendezvous/web/components/LiveProposalStream.tsx:153 | two rows both showing their panel are the same row |
| HomePage.HubUrl | agent-rendezvous/web/app/page.tsx:80 | a set, non-empty environment value is the hub address, otherwise the local default |
| HomePage.FindByGoal | agent-rendezvous/web/app/page.tsx:116 | a found template is in the catalogue with the goal asked for; nothing is found exactly when no template has that goal |
| HomePage.Set | agent-rendezvous/web/app/page.tsx:239 | after assignment the key has the new value, every other key keeps its value, and the object grows by one entry exactly when the key was new |
| HomePage.LastLookup | agent-rendezvous/web/app/page.tsx:260 | a key is absent exactly when no entry names it, and a value found is one the entries give it |
| HomePage.SpreadLookup | agent-rendezvous/web/app/page.tsx:260 | after a spread a key has the last value the spread entries give it, and otherwise its old value |
| HomePage.SpreadEntries | agent-rendezvous/web/app/page.tsx:258-260 | an object spreads its fields, an array and a string their elements under decimal indices, and any other value nothing |
| HomePage.DisplayProposals | agent-rendezvous/web/app/page.tsx:279 | the revealed proposals are shown while there are any, otherwise the final list |
| HomePage.PageWhy | agent-rendezvous/web/app/page.tsx:602-630 | the result panel compares the first displayed proposal with the second; each headroom exists exactly when its constraint and some cost or latency exist, and is the limit minus the explained input or the winner's estimate |
| HomePage.WinnerPanelsAgree | agent-rendezvous/web/app/page.tsx:606-614 | the page's result panel and the stream's panel for the winner row show the same figures |
| HomePage.EmptyDisplayHeadroom | agent-rendezvous/web/app/page.tsx:613 | with nothing displayed a budget headroom appears only when the explanation carries the cost, and no delta appears |
| HomePage.Home.constructor | agent-rendezvous/web/app/page.tsx:53-80 | the page starts with the demo extraction intent, the extract_event template selected, empty lists, no result, no error and not loading |
| HomePage.Home.LoadAgents | agent-rendezvous/web/app/page.tsx:83-97 | a 2xx response replaces the agent list; every failure leaves it as it was; no other field of the page changes |
| HomePage.Home.HandleTemplateSelect | agent-rendezvous/web/app/page.tsx:99-107 | the template becomes selected and the intent its goal, sample inputs, budget and deadline; no other field of the page changes |
| HomePage.Home.HandleLoadTask | agent-rendezvous/web/app/page.tsx:109-120 | the intent becomes the entry's; the template with that goal is selected when one exists, else the selection is kept; no other field of the page changes |
| HomePage.Home.PostIntentWithStreaming | agent-rendezvous/web/app/page.tsx:122-169 | the intent is saved to the history; the orchestrator or post_intent endpoint is asked; on success both lists hold the returned proposals, on failure the error is set and both lists are empty; the previous result is cleared and loading ends |
| HomePage.Home.BeginRequest | agent-rendezvous/web/app/page.tsx:123-125 | a request starts: loading, the request kind shown, and the error cleared |
| HomePage.Home.ClearOutcome | agent-rendezvous/web/app/page.tsx:126-128 | a new negotiation clears the result and both proposal lists |
| HomePage.Home.EndRequest | agent-rendezvous/web/app/page.tsx:165-168 | the request ends: not loading and no request kind |
| HomePage.Home.BeginPost | agent-rendezvous/web/app/page.tsx:123-128 | before posting, the page is loading an intent with no error, no result and both lists empty |
| HomePage.Home.SaveIntent | agent-rendezvous/web/app/page.tsx:130-135 | with a window and a successful write the history becomes the intent pushed onto the old one, with the clock as id and time stamp; otherwise the stored history is unchanged |
| HomePage.Home.Reveal | agent-rendezvous/web/app/page.tsx:155-158 | the proposals appended one at a time give the stream the whole list, in order |
| HomePage.Home.ShowProposals | agent-rendezvous/web/app/page.tsx:145-164 | a body puts its proposals (or none) in both lists with no error; a failure sets the error and leaves both lists empty |
| HomePage.Home.FinishPost | agent-rendezvous/web/app/page.tsx:145-168 | the answer is shown as by ShowProposals and loading ends |
| HomePage.Home.Execute | agent-rendezvous/web/app/page.tsx:173-205 | the intent is saved; the response body becomes the result, or on any failure the result is null and the error set; the proposals are untouched |
| HomePage.Home.ShowResult | agent-rendezvous/web/app/page.tsx:191-200 | a body becomes the result with no error; a failure makes the result null and sets the error |
| HomePage.Home.ToggleWhy | agent-rendezvous/web/app/page.tsx:598 | the explanation panel flips between shown and hidden, and every other field of the page keeps its value |
| HomePage.Home.RegisterAgent | agent-rendezvous/web/app/page.tsx:207-233 | a request is made exactly when name and URL are both non-empty; success clears the form and alerts once, a non-2xx or network failure sets the error and keeps the form |
| HomePage.Home.HandleFileText | agent-rendezvous/web/app/page.tsx:235-244 | the file's text becomes the text input; the rest of the intent and every other field of the page are kept |
| HomePage.Home.HandleUrlFetch | agent-rendezvous/web/app/page.tsx:246-255 | an empty URL changes nothing; a fetched text sets the text and url inputs; a failure names the error and keeps the intent; only the intent and the error can change |
| HomePage.Home.HandleJsonInput | agent-rendezvous/web/app/page.tsx:257-264 | a parse failure sets the error and keeps the intent; a parsed value's entries override the inputs key by key; only the intent and the error can change |
| LegacyHome.Legacy.constructor | agent-rendezvous/web/pages/index.tsx:40-55 | the older page starts with the same hub address rule and demo intent, no proposals, no result, no error and not loading |
| LegacyHome.Legacy.StartPostIntent | agent-rendezvous/web/pages/index.tsx:57-61 | before its request the older page clears the error and the result but keeps the previous proposals on screen |
| LegacyHome.Legacy.FinishPostIntent | agent-rendezvous/web/pages/index.tsx:63-82 | the returned proposals (or none when the body has none) replace the list; a failure empties it and sets the error; loading ends |
| LegacyHome.Legacy.PostIntent | agent-rendezvous/web/pages/index.tsx:57-83 | the older page always asks /post_intent; afterwards the list is the returned proposals or empty with the error set, and the result is cleared |
| LegacyHome.Legacy.StartExecute | agent-rendezvous/web/pages/index.tsx:85-88 | before its request the error is cleared while the previous result and the proposals stay |
| LegacyHome.Legacy.FinishExecute | agent-rendezvous/web/pages/index.tsx:90-109 | the response body becomes the result, or null with the error set; loading ends |
| LegacyHome.Legacy.Execute | agent-rendezvous/web/pages/index.tsx:85-110 | the older page asks /execute; the proposals are never touched |
| TaskHistory.Merge | agent-rendezvous/web/lib/taskHistory.ts:84 | every field the update supplies wins, every other field keeps the entry's value, and an empty update changes nothing |
| TaskHistory.Pushed | agent-rendezvous/web/lib/taskHistory.ts:24-28 | the new entry comes first, followed by the older entries in order, and the list never exceeds fifty |
| TaskHistory.Without | agent-rendezvous/web/lib/taskHistory.ts:58 | the kept entries are exactly those of the history whose id differs |
| TaskHistory.WithoutAppend | agent-rendezvous/web/lib/taskHistory.ts:58 | deleting keeps the remaining entries in their original order |
| TaskHistory.WithoutAbsent | agent-rendezvous/web/lib/taskHistory.ts:54-65 | deleting an id that no entry has leaves the list unchanged |
| TaskHistory.FindIndex | agent-rendezvous/web/lib/taskHistory.ts:81 | the index found is the first entry with the id; none is found exactly when no entry has it |
| TaskHistory.UpdatedFirst | agent-rendezvous/web/lib/taskHistory.ts:81-85 | the list keeps its length; only the first entry with the id changes, merged with the update; without such an entry nothing changes |
| TaskHistory.UpdateTouchesOnlyFirst | agent-rendezvous/web/lib/taskHistory.ts:81-85 | a later entry sharing the id is left untouched by an update |
| TaskHistory.HistoryStore.constructor | agent-rendezvous/web/lib/taskHistory.ts:11 | the store starts with the given window and storage contents |
| TaskHistory.HistoryStore.Get | agent-rendezvous/web/lib/taskHistory.ts:39-52 | without a window, with nothing stored, or with unparseable contents the history is empty; otherwise it is the stored list |
| TaskHistory.HistoryStore.Save | agent-rendezvous/web/lib/taskHistory.ts:14-37 | without a window nothing is stored and the id is empty; otherwise the id is the clock in decimal and, when the write succeeds, the stored list is the new entry pushed onto the old history |
| TaskHistory.HistoryStore.Delete | agent-rendezvous/web/lib/taskHistory.ts:54-65 | a successful write stores the history without the id's entries; otherwise storage is unchanged |
| TaskHistory.HistoryStore.Clear | agent-rendezvous/web/lib/taskHistory.ts:67-75 | with a window the key is removed and the history reads empty |
| TaskHistory.HistoryStore.Update | agent-rendezvous/web/lib/taskHistory.ts:77-92 | when an entry has the id and the write succeeds, the first such entry is merged with the update; otherwise storage is unchanged |
| TaskHistory.FullHistoryDropsOldest | agent-rendezvous/web/lib/taskHistory.ts:25-28 | saving into a full history drops exactly the oldest entry |
| TaskHistory.SaveAll | agent-rendezvous/web/lib/taskHistory.ts:14-37 | repeated saves into an empty history keep at most fifty entries |
| TaskHistory.SaveAllKeepsNewest | agent-rendezvous/web/lib/taskHistory.ts:24-28 | after repeated saves the history holds the newest entries, newest first |
| HistoryPanel.Band | agent-rendezvous/web/components/TaskHistory.tsx:15-25 | the count is the whole number of units elapsed (at least one); minutes are used below an hour, hours below a day, days from a day on |
| HistoryPanel.FormatDistanceToNow | agent-rendezvous/web/components/TaskHistory.tsx:12-28 | the label is "just now" exactly when less than a whole minute has elapsed, including times in the future |
| HistoryPanel.LabelShape | agent-rendezvous/web/components/TaskHistory.tsx:15-27 | past the first minute the label starts with the count and its unit word, ends in " ago" exactly when the suffix is asked for, and has a plural s exactly when the count exceeds one |
| HistoryPanel.Panel.constructor | agent-rendezvous/web/components/TaskHistory.tsx:35-36 | the panel starts closed with an empty list |
| HistoryPanel.Panel.LoadHistory | agent-rendezvous/web/components/TaskHistory.tsx:45-47 | the shown list becomes what the store holds |
| HistoryPanel.Panel.HandleLoad | agent-rendezvous/web/components/TaskHistory.tsx:49-52 | the entry is handed to the page once and the panel closes |
| HistoryPanel.Panel.HandleDelete | agent-rendezvous/web/components/TaskHistory.tsx:54-57 | after a successful write the shown list is the old history without the id's entries, and it always matches the store |
| HistoryPanel.Panel.HandleClear | agent-rendezvous/web/components/TaskHistory.tsx:59-64 | without confirmation nothing changes; with it the store is cleared and the shown list is empty whenever there is a window |
| TaskTemplates.FindById | agent-rendezvous/web/lib/taskTemplates.ts:115 | a found template has the id and is the first one that does; nothing is found exactly when no template has it |
| TaskTemplates.GetTemplateById | agent-rendezvous/web/lib/taskTemplates.ts:114-116 | a found template is in the catalogue with the id asked for; nothing is found exactly when no catalogue entry has that id |
| TaskTemplates.CatalogueWellFormed | agent-rendezvous/web/lib/taskTemplates.ts:14-112 | the catalogue's ids are distinct, each goal equals its id, and every default budget and deadline is positive |
| TaskTemplates.EveryTemplateFindable | agent-rendezvous/web/lib/taskTemplates.ts:114-116 | every catalogue template is found by its own id, so none is shadowed |
| TaskTemplates.FoundWhenIdsDistinct | agent-rendezvous/web/lib/taskTemplates.ts:115 | in a list with distinct ids, looking up an entry's id finds that entry |
| FileUpload.Picker.constructor | agent-rendezvous/web/components/FileUpload.tsx:15-17 | the limit is the given one or ten megabytes, with no file, no error and no report |
| FileUpload.Picker.HandleFileChange | agent-rendezvous/web/components/FileUpload.tsx:20-34 | no selection changes nothing; a file over a non-zero limit sets the size error and is neither kept nor reported; any other file clears the error and is kept and reported once |
| FileUpload.Picker.HandleRemove | agent-rendezvous/web/components/FileUpload.tsx:36-43 | the file and the error are cleared and an empty selection is reported |
| FileUpload.FormatFileSize | agent-rendezvous/web/components/FileUpload.tsx:45-49 | the unit is bytes below 1024, kilobytes below a megabyte, megabytes beyond, and the shown size times the unit is the byte count |
| McpConfig.CandidatePaths | agent-rendezvous/hub/mcp_config.py:22-31 | the expanded MCP_CONFIG_PATH comes first only when it is set, and the two project files always close the list in their fixed order |
| McpConfig.ArgStrings | agent-rendezvous/hub/mcp_config.py:64 | a list gives the string of each element, a string its characters, an object its keys, and any other value fails to iterate |
| McpConfig.EnvStrings | agent-rendezvous/hub/mcp_config.py:65 | only an object has entries; each key keeps its place with its value turned into a string |
| McpConfig.ParseServer | agent-rendezvous/hub/mcp_config.py:50-67 | a non-object entry crashes; a missing or falsy command is the missing-command error; a parsed server carries the entry's id and command, with args and env empty when absent, and parses exactly when both convert |
| McpConfig.Outcomes | agent-rendezvous/hub/mcp_config.py:50 | every entry is read under its own id, in file order |
| McpConfig.Collect | agent-rendezvous/hub/mcp_config.py:48-69 | the servers load exactly when every entry parses, one server per entry in order; otherwise the result is the failure of the first entry that fails |
| McpConfig.CollectStep | agent-rendezvous/hub/mcp_config.py:48-69 | a parsed first entry puts its server in front of those loaded from the rest, or lets the rest's failure through |
| McpConfig.FirstFailureDecides | agent-rendezvous/hub/mcp_config.py:48-69 | the first entry that fails decides the result, whatever follows it |
| McpConfig.LoadedPrefixGrows | agent-rendezvous/hub/mcp_config.py:48-69 | a parsed entry after entries that load adds its server at the end |
| McpConfig.FailureAfterLoaded | agent-rendezvous/hub/mcp_config.py:48-69 | a failing entry after entries that load decides the result |
| McpConfig.ReadEntry | agent-rendezvous/hub/mcp_config.py:50-67 | reading one entry gives the outcome listed for it, under its own id |
| McpConfig.FileResult | agent-rendezvous/hub/mcp_config.py:41-47 | unparseable JSON is the invalid-JSON error naming the path; a non-object file crashes; a file without mcpServers yields no servers |
| McpConfig.FirstExisting | agent-rendezvous/hub/mcp_config.py:37-39 | the index found is the first candidate that exists, and none is found exactly when no candidate exists |
| McpConfig.LoadSpec | agent-rendezvous/hub/mcp_config.py:34-72 | with no candidate on disk the result is an empty server list |
| McpConfig.LaterFilesIgnored | agent-rendezvous/hub/mcp_config.py:37-69 | only the first existing file is read: files after it, or missing ones before it, do not change the result |
| McpConfig.LoadMcpServers | agent-rendezvous/hub/mcp_config.py:34-72 | the loop's result is the one `LoadSpec` defines: the first existing file decides, and nothing found yields no servers |
| McpConfig.ReadFile | agent-rendezvous/hub/mcp_config.py:41-69 | reading one existing file gives what `FileResult` says that file yields |
| McpConfig.ReadServers | agent-rendezvous/hub/mcp_config.py:48-69 | the entry loop returns every server, or stops at the first failing entry with its error |
| McpConfig.FindServer | agent-rendezvous/hub/mcp_config.py:78 | a found server is the first loaded server with the id; none is found exactly when no server has it |
| McpConfig.GetMcpServer | agent-rendezvous/hub/mcp_config.py:75-78 | a failure to load propagates; otherwise the result is the first loaded server with the id, or nothing exactly when no loaded server has it |
| TaskHandlers.WordMap | agent-rendezvous/providers/_task_handlers_common.py:12-27 | word lists exist for exactly Spanish and French |
| TaskHandlers.TranslateText | agent-rendezvous/providers/_task_handlers_common.py:10-47 | the original text and target language are echoed with English as the source; the substituted text is returned when it differs, otherwise the original with the language tag, and an unknown language is only tagged |
| TaskHandlers.CountPresent | agent-rendezvous/providers/_task_handlers_common.py:56-57 | the count is at most the number of words, and zero exactly when none of them occurs in the text |
| TaskHandlers.PolarConfidence | agent-rendezvous/providers/_task_handlers_common.py:60-66 | a polar confidence is `min(0.95, base + 0.03 × count)`, where the base is 0.85 for high quality and 0.70 otherwise |
| TaskHandlers.Verdict | agent-rendezvous/providers/_task_handlers_common.py:59-76 | the label is positive, negative or neutral exactly as one count exceeds the other or they tie; the confidence is capped at 0.95 and is fixed for neutral; each score is its count per word |
| TaskHandlers.SentimentWith | agent-rendezvous/providers/_task_handlers_common.py:50-76 | for any word lists, the label follows the larger count of listed words present in the lower-cased text, with its confidence, and each score is its count per word |
| TaskHandlers.VerdictNeedsListedWord | agent-rendezvous/providers/_task_handlers_common.py:56-76 | for any word lists, a polar label needs a listed word of its side in the text, and with no listed word at all the label is neutral with zero scores |
| TaskHandlers.SentimentNeedsListedWord | agent-rendezvous/providers/_task_handlers_common.py:50-76 | with the handler's own lists, a polar label needs a listed word of its side in the text, and with none the label is neutral with zero scores |
| TaskHandlers.AnalyzeSentiment | agent-rendezvous/providers/_task_handlers_common.py:50-76 | the label is positive, negative or neutral exactly as the positive count is larger, smaller or equal to the negative count, with the polar confidence of the larger count or the fixed neutral one, and each score is its count per word |
| TaskHandlers.PolarConfidenceMonotone | agent-rendezvous/providers/_task_handlers_common.py:62 | more matching words never lower a polar confidence |
| TaskHandlers.SplitSentenceEnds | agent-rendezvous/providers/_task_handlers_common.py:81 | the text is cut into at least one piece and no piece holds a sentence ender |
| TaskHandlers.Sentences | agent-rendezvous/providers/_task_handlers_common.py:81-82 | every kept sentence is non-blank |
| TaskHandlers.Condensed | agent-rendezvous/providers/_task_handlers_common.py:86-98 | a summary of three or more sentences is the first sentence, then the middle one only for high quality with more than three, then the last with a closing full stop, joined by ". " |
| TaskHandlers.Compression | agent-rendezvous/providers/_task_handlers_common.py:103 | the ratio is 0 for an empty text and otherwise the summary's length as a percentage of the text's, at most 100 when the summary is no longer |
| TaskHandlers.PercentAtMostWhole | agent-rendezvous/providers/_task_handlers_common.py:103 | a part no larger than its whole is at most 100 percent of it |
| TaskHandlers.SummarizeText | agent-rendezvous/providers/_task_handlers_common.py:79-104 | up to two sentences the text is its own summary; otherwise high quality with more than three sentences gives first, middle and last sentence, and every other case first and last; the lengths and ratio describe that summary |
| TaskHandlers.SentencesAreClean | agent-rendezvous/providers/_task_handlers_common.py:81-82 | every sentence found is non-empty, has no whitespace at either end and holds none of the enders `.`, `!` and `?` |
| TaskHandlers.SentencesOfTwo | agent-rendezvous/providers/_task_handlers_common.py:81-82 | the sentences of "a. b." are a and b |
| TaskHandlers.SentencesOfThree | agent-rendezvous/providers/_task_handlers_common.py:81-82 | the sentences of "a. b. c." are a, b and c |
| TaskHandlers.SummaryKeepsPickedSentences | agent-rendezvous/providers/_task_handlers_common.py:86-98 | the summary's sentences are exactly the picked ones (first, middle for high quality over three, last), so a basic or three-sentence summary summarizes to itself |
| TaskHandlers.TokensFrom | agent-rendezvous/providers/_task_handlers_common.py:195 | every token is a run of at least three letters |
| TaskHandlers.Tokens | agent-rendezvous/providers/_task_handlers_common.py:195 | every token is a run of at least three letters |
| TaskHandlers.Weight | agent-rendezvous/providers/_task_handlers_common.py:202 | an occurrence weighs 1 or 2 |
| TaskHandlers.Bump | agent-rendezvous/providers/_task_handlers_common.py:203 | the word's weight grows by the occurrence's weight, every other word keeps its weight, and no entry is invented |
| TaskHandlers.BumpDistinct | agent-rendezvous/providers/_task_handlers_common.py:203 | counting an occurrence keeps the keys of the frequency table distinct |
| TaskHandlers.Frequencies | agent-rendezvous/providers/_task_handlers_common.py:196-203 | the table has distinct keys and no stop word |
| TaskHandlers.FrequenciesCount | agent-rendezvous/providers/_task_handlers_common.py:198-203 | the table records for every word the total weight of its counted occurrences |
| TaskHandlers.FreqOfMember | agent-rendezvous/providers/_task_handlers_common.py:203 | with distinct keys an entry's weight is what a lookup of its key reads |
| TaskHandlers.FrequencyPositive | agent-rendezvous/providers/_task_handlers_common.py:198-203 | every recorded weight is positive |
| TaskHandlers.ExtractKeywords | agent-rendezvous/providers/_task_handlers_common.py:191-211 | the scores are the first 15 (high quality) or 10 entries of the stable descending sort of the frequency table; keywords are their keys in that order; every kept weight is the word's positive total and no keyword is a stop word |
| TaskHandlers.CountFrequencies | agent-rendezvous/providers/_task_handlers_common.py:196-203 | the counting loop yields the frequency list of the tokens |
| TaskHandlers.RankedEntriesAreTotals | agent-rendezvous/providers/_task_handlers_common.py:196-211 | every entry of a reordering of the frequency list is a word that is not a stop word, with its total weight, which is positive |
| TaskHandlers.CategoryScores | agent-rendezvous/providers/_task_handlers_common.py:227-231 | as written: at most one score per category, and every score is positive |
| TaskHandlers.FirstMax | agent-rendezvous/providers/_task_handlers_common.py:234 | the chosen entry has the largest score and every earlier entry a strictly smaller one |
| TaskHandlers.ClassifyText | agent-rendezvous/providers/_task_handlers_common.py:214-248 | the scores are the shares of each category's keywords, as written, found in the lower-cased text; with none the text is general with confidence 0.5; otherwise the category is the first best score and the confidence is `min(0.95, base + score / 10)` |
| TaskHandlers.Capped | agent-rendezvous/providers/_task_handlers_common.py:66 | `min(0.95, x)` is at most both and equal to one of them |
| TaskHandlers.ClassConfidence | agent-rendezvous/providers/_task_handlers_common.py:235-236 | a category's confidence is at most 0.95 and otherwise the quality's base plus a tenth of its score |
| TaskHandlers.ClassifyWith | agent-rendezvous/providers/_task_handlers_common.py:224-248 | for any categories, the scores are those of the lower-cased text; with none the answer is "general" at 0.5; otherwise the first best-scoring category wins with its confidence |
| TaskHandlers.ScoreCategories | agent-rendezvous/providers/_task_handlers_common.py:228-231 | the loop's scores are the as-written category scores, in category order |
| TaskHandlers.UpperKeywordNeverFound | agent-rendezvous/providers/_task_handlers_common.py:216 | the keyword "AI" never occurs in a lower-cased text |
| TaskHandlers.AiTextIsGeneral | agent-rendezvous/providers/_task_handlers_common.py:216-231 | as written, a text saying only "AI" gets no category score at all |
| TaskHandlers.MissesAi | agent-rendezvous/providers/_task_handlers_common.py:216-229 | keywords that are "AI" or longer than two characters never occur in the text "ai" |
| TaskHandlers.NoHitsNoScores | agent-rendezvous/providers/_task_handlers_common.py:229-231 | a text holding none of the keywords scores no category |
| TaskHandlers.LowerAll | agent-rendezvous/providers/_task_handlers_common.py:229 | each keyword is lower-cased in place |
| TaskHandlers.IntendedCategoryScores | agent-rendezvous/providers/_task_handlers_common.py:227-231 | corrected: at most one score per category, each positive |
| TaskHandlers.KeywordAloneHits | agent-rendezvous/providers/_task_handlers_common.py:229 | with lower-cased keywords, a text that is just one keyword scores its category |
| TaskHandlers.AiTextIsTechnology | agent-rendezvous/providers/_task_handlers_common.py:216-231 | corrected: a text saying "AI" scores technology first |
| TaskHandlers.IntendedKeepsFirst | agent-rendezvous/providers/_task_handlers_common.py:228-231 | a category with a hit keeps its place at the head of the scores |
| EventCommon.FieldCount | agent-rendezvous/providers/agent_a/main.py:159-164 | an extraction holds at most four fields, and none exactly when it is empty |
| EventCommon.DataFields | agent-rendezvous/providers/agent_a/main.py:166-168 | the data returned holds one entry per extracted field, each key reading the field's value |
| EventCommon.FieldsLookUp | agent-rendezvous/providers/agent_a/main.py:166-168 | each of the four keys of the data dict reads its own field |
| EventCommon.StatusFor | agent-rendezvous/providers/agent_a/main.py:158-164 | OK exactly from three fields, PARTIAL exactly with one or two, ERROR exactly with none |
| EventCommon.StrictStatusFor | agent-rendezvous/providers/agent_e/main.py:192-198 | the premium grade: OK exactly from three fields, PARTIAL exactly with two, ERROR with one or none |
| EventCommon.StrictDiffersOnSingleField | agent-rendezvous/providers/agent_e/main.py:192-198 | the two grades disagree exactly on a single field, which the strict grade fails and the other calls PARTIAL |
| EventCommon.WithTime | agent-rendezvous/providers/agent_a/main.py:75-78 | a time is appended, after a space, only to a date that exists; a missing date stays missing |
| EventCommon.MonthFirstDates | agent-rendezvous/providers/agent_a/main.py:66-68 | both dates of a month-first range start with its month |
| EventCommon.DayFirstDates | agent-rendezvous/providers/agent_d/main.py:46 | a day-first range is read by moving its month to the front, so both dates start with the month |
| EventCommon.FirstFrom | agent-rendezvous/providers/agent_e/main.py:39-42 | the index found is the first accepted line from the start point; none is found exactly when every line from there is rejected |
| EventCommon.FirstFromStops | agent-rendezvous/providers/agent_e/main.py:39-42 | a forward scan stops at the first accepted line |
| EventCommon.FirstFromNone | agent-rendezvous/providers/agent_e/main.py:39-42 | a forward scan over rejected lines finds nothing |
| EventCommon.LastBelow | agent-rendezvous/providers/agent_c/main.py:86 | the index found is the last accepted line below the bound; none is found exactly when every line below it is rejected |
| EventCommon.LastBelowStops | agent-rendezvous/providers/agent_c/main.py:86 | a backward scan stops at the last accepted line |
| EventCommon.LastBelowNone | agent-rendezvous/providers/agent_c/main.py:86 | a backward scan over rejected lines finds nothing |
| EventCommon.LastAccepted | agent-rendezvous/providers/agent_b/main.py:103 | the backward loop returns the line the backward scan `LastBelow` stops at, or nothing when it runs out |
| EventCommon.LastAcceptedLine | agent-rendezvous/providers/agent_g/main.py:89 | a line found is one of the lines and accepted; nothing is found only when no line is accepted |
| EventCommon.FirstHit | agent-rendezvous/providers/agent_d/main.py:49-59 | the search chosen is the first that matches; none is chosen exactly when no search matches |
| EventCommon.FirstGroups | agent-rendezvous/providers/agent_e/main.py:78-91 | the groups returned are those of the first search that matches, and exist exactly when one does |
| EventCommon.LastThree | agent-rendezvous/providers/agent_c/main.py:86 | the last three lines in order, or every line when there are fewer |
| EventCommon.ReadTitle | agent-rendezvous/providers/agent_e/main.py:37-42 | the title loop returns the first line longer than ten characters that does not start with a digit, or nothing |
| EventCommon.IndicatorHit | agent-rendezvous/providers/agent_e/main.py:98-104 | a place is read only from a line whose lowered form and whose own text hold the indicator, and it is a non-empty stripped text |
| EventCommon.IndicatorPlaceStep | agent-rendezvous/providers/agent_e/main.py:97-105 | the first indicator that yields a place decides; one that yields none passes to the next |
| EventCommon.ReadIndicator | agent-rendezvous/providers/agent_e/main.py:97-105 | the indicator loop of one line returns the place of the first indicator that yields one |
| EventCommon.FirstIndicatorPlace | agent-rendezvous/providers/agent_g/main.py:73-86 | a place is found exactly when some line yields one through an indicator, and it is that line's place |
| EventCommon.ReadIndicatorLine | agent-rendezvous/providers/agent_g/main.py:75-86 | the loop over lines returns the place of the first line an indicator reads a place from |
| EventCommon.DemoTitleReadsHon | agent-rendezvous/providers/agent_e/main.py:95-104 | with "in" then "at" tried first, the demo title "Global Scoop AI Hackathon" reads as its place "hon", from the "at" inside "Hackathon" |
| EventCommon.AtInsideWord | agent-rendezvous/providers/agent_e/main.py:97-104 | a line with no "in" in any case reads as its place the stripped rest after its first "at", even inside a word |
| EventCommon.ReadRangeAndTimes | agent-rendezvous/providers/agent_f/main.py:40-56 | a date range sets start and end together, exactly when the range search matches; the times are appended only to dates that exist |
| EventCommon.TruthyText | agent-rendezvous/providers/agent_a/main.py:128-134 | a truthy text input is read whatever its type (a non-string is flagged); anything else falls back to the OCR or demo text |
| EventCommon.PlainText | agent-rendezvous/providers/agent_d/main.py:118 | a missing text reads as empty; a present string is read as it is; a non-string is flagged |
| EventCommon.Answer | agent-rendezvous/providers/agent_a/main.py:166-177 | a successful answer carries the extraction, its grade, the evidence and the metrics, and no error |
| EventCommon.Crashed | agent-rendezvous/providers/agent_a/main.py:179-190 | a failed extraction answers ERROR with no data, no evidence and the exception's text |
| AgentA.Offer | agent-rendezvous/providers/agent_a/main.py:105-117 | provider A quotes 0.01 USD, 500 ms and confidence 0.75 with a three-step plan and no needs |
| AgentA.FirstFilledLine | agent-rendezvous/providers/agent_a/main.py:59 | the line found is the first non-empty one, and there is one exactly when some line is non-empty |
| AgentA.ExtractEventRegex | agent-rendezvous/providers/agent_a/main.py:54-88 | the title is the first non-empty line stripped; start and end exist together exactly when the date range matches, with the times appended when the time range matches; the place is the stripped proper-noun line exactly when it is not Global, Scoop or Hackathon |
| AgentA.ExtractedIsUnique | agent-rendezvous/providers/agent_a/main.py:54-88 | `Extracted` leaves nothing open: it allows one record per text |
| AgentA.A2a | agent-rendezvous/providers/agent_a/main.py:121-190 | a truthy text or else the OCR (or demo) text is read; a non-string text answers ERROR with the regular-expression TypeError; otherwise the grade follows the field count, start and end appear together, and the metrics carry the latency and 0.01 USD; the data dict holds the record ExtractEventRegex describes for the text read |
| AgentB.Offer | agent-rendezvous/providers/agent_b/main.py:134-146 | provider B quotes 0.05 USD, 2000 ms and confidence 0.90 with a three-step plan |
| AgentB.PlaceTestSeesFirstChar | agent-rendezvous/providers/agent_b/main.py:104-107 | on a non-blank line the joined words are never empty, so the capital-letter test cannot fail and looks at the line's own first character |
| AgentB.ExtractEventLlm | agent-rendezvous/providers/agent_b/main.py:55-117 | the title is the first line; start and end exist together exactly when the first matching date search yields four groups, read month-first when the first group is alphabetic and day-first otherwise, with times appended; the place is the joined words of the last short capitalised line, else the last line unless it is a common word |
| AgentB.ExtractedIsUnique | agent-rendezvous/providers/agent_b/main.py:55-117 | `Extracted` leaves nothing open: it allows one record per text |
| AgentB.ReadDates | agent-rendezvous/providers/agent_b/main.py:75-87 | the date loop stops at the first matching search, and sets both dates exactly when that match has four groups |
| AgentB.ReadPlace | agent-rendezvous/providers/agent_b/main.py:103-115 | the backward loop keeps the last short capitalised line's joined words, otherwise the last line when it is not a common word |
| AgentB.A2a | agent-rendezvous/providers/agent_b/main.py:150-222 | a truthy text or else the OCR (or demo) text is read; a non-string text answers ERROR with the split AttributeError; otherwise the grade follows the field count and start and end appear together; the data dict holds the record ExtractEventLlm describes for the text read |
| AgentC.Offer | agent-rendezvous/providers/agent_c/main.py:109-121 | provider C quotes 0.005 USD, 200 ms and confidence 0.60 with a three-step plan |
| AgentC.DashSplit | agent-rendezvous/providers/agent_c/main.py:63 | a text holding a dash splits into at least two pieces |
| AgentC.FirstDateAt | agent-rendezvous/providers/agent_c/main.py:55-67 | the word found is the first month word with three more words after it and a year among the four; none is found exactly when no word qualifies |
| AgentC.PartsDates | agent-rendezvous/providers/agent_c/main.py:55-67 | dates are read only from the first qualifying four words and only when they hold a dash, the start being the stripped text before the dash |
| AgentC.LineTimes | agent-rendezvous/providers/agent_c/main.py:70-80 | times are read only from a line that holds AM or PM |
| AgentC.ExtractEventTemplate | agent-rendezvous/providers/agent_c/main.py:35-92 | the title is the first line; only the first line naming Nov, Dec or Jan is read for dates, with its times appended; start and end exist together; with more than one line the place is the last of the final three lines holding no date word and differing from the title |
| AgentC.ExtractedIsUnique | agent-rendezvous/providers/agent_c/main.py:35-92 | `Extracted` leaves nothing open: it allows one record per text |
| AgentC.FirstDateAtStops | agent-rendezvous/providers/agent_c/main.py:55-67 | the scan stops at the first word that starts a date |
| AgentC.DatesFrom | agent-rendezvous/providers/agent_c/main.py:58-66 | the four words from a date give dates exactly when their joined text has a dash, the start being the stripped text before it |
| AgentC.StartsDate | agent-rendezvous/providers/agent_c/main.py:55-60 | one pass's tests hold exactly when the word starts a date |
| AgentC.CutDates | agent-rendezvous/providers/agent_c/main.py:58-66 | cutting the date text at its dash gives the dates DatesFrom describes, or none |
| AgentC.TimesAround | agent-rendezvous/providers/agent_c/main.py:70-75 | the window of up to ten characters before the AM/PM marker through it gives times exactly when it has a dash |
| AgentC.CutTimes | agent-rendezvous/providers/agent_c/main.py:72-75 | cutting the time window gives the times TimesAround describes |
| AgentC.ReadDateLine | agent-rendezvous/providers/agent_c/main.py:48-81 | the line loop reads the first winter-month line and stops; start and end exist together |
| AgentC.TimesOf | agent-rendezvous/providers/agent_c/main.py:70-80 | the time window read by the loop is the one `LineTimes` gives |
| AgentC.DatesOf | agent-rendezvous/providers/agent_c/main.py:51-67 | the dates read from a line's words are the ones `LineDates` gives |
| AgentC.DatesIn | agent-rendezvous/providers/agent_c/main.py:55-67 | the word loop stops at the first month word with a year after it and cuts its four words at the dash |
| AgentC.A2a | agent-rendezvous/providers/agent_c/main.py:125-195 | a truthy text or else the demo text is read; a non-string text answers ERROR; otherwise the grade follows the field count and start and end appear together; the data dict holds the record ExtractEventTemplate describes for the text read |
| AgentD.Offer | agent-rendezvous/providers/agent_d/main.py:96-108 | provider D quotes 0.02 USD, 1000 ms and confidence 0.80 with a three-step plan |
| AgentD.WrittenDates | agent-rendezvous/providers/agent_d/main.py:52-58 | as written: four groups always read as month, first day, last day, year, and three as month, day, year |
| AgentD.IntendedDates | agent-rendezvous/providers/agent_d/main.py:43-59 | corrected: the day-range search's groups are read day-first, the others as written; an end date never exists without a start |
| AgentD.IntendedDatesStartWithMonth | agent-rendezvous/providers/agent_d/main.py:43-59 | corrected: both dates of any four-group match start with the month the pattern captured |
| AgentD.DayRangeReadMonthFirst | agent-rendezvous/providers/agent_d/main.py:46-55 | as written, "22-23 Nov, 2025" becomes "22 23, 2025" to "22 Nov, 2025"; the intended reading is "Nov 22, 2025" to "Nov 23, 2025" |
| AgentD.LastTwo | agent-rendezvous/providers/agent_d/main.py:71 | the last two lines in order, or every line when there are fewer |
| AgentD.ExtractEventFastLlm | agent-rendezvous/providers/agent_d/main.py:28-79 | the title is the first line; the first matching date search decides the dates, its groups read as written (month first, whichever search matched), with times appended only to existing dates; the place is the last of the final two lines that reads as one |
| AgentD.ExtractFromLines | agent-rendezvous/providers/agent_d/main.py:35-79 | on the non-blank lines the record is the one `ExtractedFromLines` allows, and an end date comes only with a start date |
| AgentD.ExtractedIsUnique | agent-rendezvous/providers/agent_d/main.py:28-79 | `Extracted` leaves nothing open: it allows one record per text |
| AgentD.ReadDates | agent-rendezvous/providers/agent_d/main.py:49-59 | the date loop stops at the first matching search and reads its groups as written, month first |
| AgentD.A2a | agent-rendezvous/providers/agent_d/main.py:112-177 | the text input is read, empty when absent; a non-string answers ERROR; otherwise the grade follows the field count and an end date implies a start date; the data dict holds the record ExtractEventFastLlm describes for the text read |
| AgentE.Offer | agent-rendezvous/providers/agent_e/main.py:139-152 | provider E quotes 0.10 USD, 4000 ms and confidence 0.95 with a four-step plan |
| AgentE.FirstAccepted | agent-rendezvous/providers/agent_e/main.py:56-69 | the search chosen is the first whose match has four or three groups led by a month name; matches that are not read are passed over |
| AgentE.AcceptedDates | agent-rendezvous/providers/agent_e/main.py:60-69 | a read match always gives a start, an end exactly when it has four groups, and both start with the month |
| AgentE.Step | agent-rendezvous/providers/agent_e/main.py:96-114 | an indicator hit replaces the place; otherwise a place already found is kept; a place is never lost |
| AgentE.WithFallback | agent-rendezvous/providers/agent_e/main.py:116-120 | a place found is kept; a fallback place is the last of several lines and has at most four words |
| AgentE.PlaceKept | agent-rendezvous/providers/agent_e/main.py:96-114 | once found, a place survives every later line without an indicator hit |
| AgentE.LastIndicatorWins | agent-rendezvous/providers/agent_e/main.py:96-105 | the last line with an indicator hit decides the place, whatever follows it |
| AgentE.HackathonLineReadsHon | agent-rendezvous/providers/agent_e/main.py:95-104 | with E's indicators the demo title reads as the place "hon" |
| AgentE.ExtractEventPremiumLlm | agent-rendezvous/providers/agent_e/main.py:28-122 | the title is the first title line; the first read date match decides the dates; the first matching time search appends its times to existing dates (a lone time to the start); the place is what the place loop leaves, with the last-line fallback |
| AgentE.ExtractFromLines | agent-rendezvous/providers/agent_e/main.py:35-120 | on the non-blank lines the record is the one `ExtractedFromLines` allows, and an end date comes only with a start date |
| AgentE.FallBack | agent-rendezvous/providers/agent_e/main.py:116-120 | with no place found, a last line of at most four words becomes the place when there is more than one line |
| AgentE.FirstAcceptedStops | agent-rendezvous/providers/agent_e/main.py:56-69 | the date search stops at the first accepted match: a match with four or three groups led by a month name; matches not led by a month name are passed over |
| AgentE.ExtractedIsUnique | agent-rendezvous/providers/agent_e/main.py:28-122 | `Extracted` leaves nothing open: it allows one record per text |
| AgentE.ReadDates | agent-rendezvous/providers/agent_e/main.py:56-69 | the date loop passes over matches not led by a month name and stops at the first read one |
| AgentE.ReadTimes | agent-rendezvous/providers/agent_e/main.py:78-91 | the time loop appends the first matching search's times to the dates that exist and stops |
| AgentE.ReadPlace | agent-rendezvous/providers/agent_e/main.py:96-114 | the place loop over every line leaves the place the fold `PlaceAfter` gives |
| AgentE.A2a | agent-rendezvous/providers/agent_e/main.py:156-224 | the text input is read, empty when absent; a non-string answers ERROR; otherwise the strict grade follows the field count and an end date implies a start date; the data dict holds the record ExtractEventPremiumLlm describes for the text read |
| AgentF.Offer | agent-rendezvous/providers/agent_f/main.py:82-94 | provider F quotes 0.001 USD, 8000 ms and confidence 0.70 with a three-step plan |
| AgentF.ExtractEventLocalModel | agent-rendezvous/providers/agent_f/main.py:28-65 | the title is the first line; start and end exist together exactly when the date range matches, with the times appended; the place is the last of several lines exactly when it is neither a common word nor the title |
| AgentF.ExtractFromLines | agent-rendezvous/providers/agent_f/main.py:35-65 | on the non-blank lines the record is the one `ExtractedFromLines` allows |
| AgentF.ExtractedIsUnique | agent-rendezvous/providers/agent_f/main.py:28-65 | `Extracted` leaves nothing open: it allows one record per text |
| AgentF.A2a | agent-rendezvous/providers/agent_f/main.py:98-162 | the text input is read, empty when absent; a non-string answers ERROR; otherwise the grade follows the field count, start and end appear together, and a place comes with a different title; the data dict holds the record ExtractEventLocalModel describes for the text read |
| AgentG.Offer | agent-rendezvous/providers/agent_g/main.py:121-134 | provider G quotes 0.03 USD, 1500 ms and confidence 0.85 with a four-step plan |
| AgentG.FirstTwo | agent-rendezvous/providers/agent_g/main.py:39 | the first two lines, or every line when there are fewer |
| AgentG.ProperNounStrategy | agent-rendezvous/providers/agent_g/main.py:87-96 | a place found is one of the lines and reads as a proper noun other than the title |
| AgentG.LastLineStrategy | agent-rendezvous/providers/agent_g/main.py:98-102 | the last line is the place exactly when there are several lines and it is neither empty nor the title |
| AgentG.HybridPlace | agent-rendezvous/providers/agent_g/main.py:72-102 | an indicator place wins; otherwise the proper-noun strategy, and only when it finds nothing the last-line strategy; such a place is a line other than the title, and with several lines whose last is non-empty and not the title some place is always found |
| AgentG.DemoTitleDecidesPlace | agent-rendezvous/providers/agent_g/main.py:73-85 | a text opening with the demo title gets the place "hon", read from the "at" inside "Hackathon" |
| AgentG.ExtractEventHybrid | agent-rendezvous/providers/agent_g/main.py:28-104 | the title is the first of the first two lines longer than ten characters not starting with a digit; the first matching date search decides the dates, with times appended; the place is the hybrid place for the title found |
| AgentG.ExtractFromLines | agent-rendezvous/providers/agent_g/main.py:35-104 | on the non-blank lines the record is the one `ExtractedFromLines` allows, and an end date comes only with a start date |
| AgentG.ExtractedIsUnique | agent-rendezvous/providers/agent_g/main.py:28-104 | `Extracted` leaves nothing open: it allows one record per text |
| AgentG.ReadDatesAndTimes | agent-rendezvous/providers/agent_g/main.py:50-70 | the dates of the first matching search, with a time range appended to those that exist |
| AgentG.ReadDates | agent-rendezvous/providers/agent_g/main.py:50-61 | the date loop stops at the first matching search: a range sets both dates, a single date the start |
| AgentG.ReadPlace | agent-rendezvous/providers/agent_g/main.py:72-102 | the three strategies in turn give the hybrid place |
| AgentG.A2a | agent-rendezvous/providers/agent_g/main.py:138-206 | the text input is read, empty when absent; a non-string answers ERROR; otherwise the grade follows the field count and an end date implies a start date; the data dict holds the record ExtractEventHybrid describes for the text read |
| AgentH.Offer | agent-rendezvous/providers/agent_h/main.py:82-94 | provider H quotes 0.005 USD, 100 ms and confidence 0.65 with a three-step plan |
| AgentH.ExtractEventSpecialized | agent-rendezvous/providers/agent_h/main.py:26-65 | the title is the first line; start and end exist together exactly when the date range matches, with the times appended; the place is the last of several lines exactly when it is not the title and mentions none of Nov, Dec, AM, PM |
| AgentH.ExtractedIsUnique | agent-rendezvous/providers/agent_h/main.py:26-65 | `Extracted` leaves nothing open: it allows one record per text |
| AgentH.A2a | agent-rendezvous/providers/agent_h/main.py:98-162 | the text input is read, empty when absent; a non-string answers ERROR; otherwise the grade follows the field count, start and end appear together, and a place comes with a different title; the data dict holds the record ExtractEventSpecialized describes for the text read |
| Text.Strip | agent-rendezvous/providers/agent_a/main.py:61 | the stripped text has no whitespace at either end, and is empty exactly when the text is all whitespace; `StripIsSlice` adds that it is the text with only outer whitespace cut |
| Text.LStrip | agent-rendezvous/providers/agent_a/main.py:61 | the left strip is a suffix of the text, cut only at whitespace, and starts with a non-space |
| Text.RStrip | agent-rendezvous/providers/agent_a/main.py:61 | the right strip is a prefix of the text, cut only at whitespace, and ends with a non-space |
| Text.StripIsSlice | agent-rendezvous/providers/agent_a/main.py:61 | the strip is a slice of the text with only whitespace cut before and after it |
| Text.StripTrimmed | agent-rendezvous/providers/agent_a/main.py:61 | a text with no whitespace at either end is its own strip |
| Text.Find | agent-rendezvous/providers/agent_c/main.py:71 | the index is the first occurrence of the pattern, and -1 exactly when it does not occur |
| Text.SplitOn | agent-rendezvous/providers/agent_c/main.py:63 | splitting gives one piece exactly when the separator is absent, and otherwise the first piece ends at its first occurrence; `SplitOnJoins` adds the round trip |
| Text.SplitOnJoins | agent-rendezvous/providers/agent_c/main.py:63 | joining the pieces with the separator gives the text back, and no piece holds the separator |
| Text.NothingBeforeFirst | agent-rendezvous/providers/agent_e/main.py:100 | the text before the first occurrence of the separator does not contain it |
| Text.SplitOnce | agent-rendezvous/providers/agent_e/main.py:100 | a split at most once gives the text before and after the first occurrence, or the whole text when the separator is absent |
| Text.Words | agent-rendezvous/providers/agent_b/main.py:104 | no word is empty |
| Text.Lower | agent-rendezvous/providers/_task_handlers_common.py:225 | lowering keeps the length, turns each ASCII capital into its small letter and leaves every other character |
| Text.LowerChar | agent-rendezvous/providers/_task_handlers_common.py:225 | a capital ASCII letter becomes its small letter, every other character is kept, and no capital remains |
| Text.LowerKeeps | agent-rendezvous/providers/_task_handlers_common.py:225 | lowering keeps every occurrence of a pattern without capitals |
| Text.LoweredIn | agent-rendezvous/providers/agent_e/main.py:99 | the lowered text holds "in" only where the text holds "i" or "I" followed by "n" or "N" |
| Text.NonBlankLines | agent-rendezvous/providers/agent_b/main.py:60 | every kept line is non-empty and starts with a non-space character; `NonBlankLinesAreStrippedLines` and `StrippedNonEmptyAppend` add which lines they are and their order |
| Text.StripAll | agent-rendezvous/providers/agent_b/main.py:60 | each line is replaced by its strip |
| Text.StrippedNonEmpty | agent-rendezvous/providers/agent_b/main.py:60 | the kept lines are no more than the parts, non-empty and starting with a non-space |
| Text.StrippedNonEmptyMembers | agent-rendezvous/providers/agent_b/main.py:60 | the kept lines are exactly the parts that strip to something, stripped |
| Text.NonBlankLinesAreStrippedLines | agent-rendezvous/providers/agent_b/main.py:60 | the non-blank lines are exactly the text's lines that strip to something, stripped |
| Text.StrippedNonEmptyAppend | agent-rendezvous/providers/agent_b/main.py:60 | filtering keeps the order of the lines: the kept lines of a concatenation are those of each part in turn |
| TaskHandlers.Ratio | agent-rendezvous/providers/_task_handlers_common.py:231 | the quotient times the whole is the part, and it is positive when the part is |

## Left out

- HTTP, `fetch`, `httpx` and `asyncio.gather` are not modelled. Each reply, call outcome or response is an input to the operation that consumes it.
- Timers and delays are not modelled: the 3000 ms and 200 ms waits in the streaming handler, the history panel's refresh interval, and the providers' `sleep` calls. The reveal loop runs without pauses, so each handler is one atomic step.
- React rendering is not modelled, and neither are the presentation-only components (header, agent graph, template selector, stat cards, progress indicator, layout). Only the state the handlers set and the values the views derive are modelled.
- `localStorage` and its JSON (de)serialisation are not modelled. The store is a field holding either the item list or text that fails to parse, plus a flag saying whether a window exists.
- File reading, `Path.exists` and `os.environ` are not modelled. They are a map from path to parsed content and an optional environment value. `expanduser` and Python's `repr` are parameters.
- Floating point is not modelled. Scores, costs and ratios are reals. `round`, `toFixed` and the printed number formats are left out, and the summary's compression ratio is stated before rounding.
- Python regular-expression semantics are not modelled, because each search is an abstract function of the searched string. Provider contracts that read match groups require the group counts the patterns have (`Groups`, `Arities`). So the "neither three nor four groups" branch of agents D and G is modelled but never reached.
- `extract_contact_info_handler` and `parse_invoice_handler` (`providers/_task_handlers_common.py:107-188`) are not modelled. They consist of regular expressions and float parsing only.
- Evidence hashing (SHA-256 artifacts and roots) is not modelled. Evidence is a parameter of each `a2a`. Measured latency is a parameter too.
- OCR is not modelled: its outcome is a parameter. Only the choice between supplied text, OCR output and the demo text is modelled.
- Character classes are ASCII for `isalpha`, `isupper`, `lower()` and `\d`. Strings are sequences of Unicode code points, not JavaScript UTF-16 units.
- The texts of Python's `TypeError`s are built from the JSON value's Python type name. Other exception texts are not modelled.
- The network client, the geocoding and timezone services, the OpenAI and Gemini tools, and the stub MCP servers are not part of this model.
- TaskHandlers.Tokens: states the shape of every token (three or more ASCII letters), but not that every maximal letter run bounded by word boundaries is found.
- TaskHandlers.TokensFrom: the scan behind `Tokens` (which is `TokensFrom(text, 0)`) has the same shape-only contract, for the same reason.
- TaskHandlers.TranslateText: the dictionary substitution is a parameter. Its contract states the prefixing rule and the echoed fields, not the individual replacements.
- Text.Words: states only that no word is empty, not that the words and whitespace rebuild the string.
- HomePage.Home.PostIntentWithStreaming: the intermediate `streamingProposals` states of the reveal loop are proved as a loop invariant, but they are not observable after the call, since the delays between them are left out.
- EventCommon.IndicatorPlace: a helper for the place search, with no contract of its own. Its meaning is stated by `IndicatorPlaceStep` and `FirstIndicatorPlace`.
- Cancellation is not modelled. The pages have no generation counter or cancellation of overlapping submissions, and the model follows that code. The buttons being disabled while loading is what serialises the handlers.
- HomePage.Home.Execute: the previous execution result is not cleared when execute starts. The handler in page.tsx sets loading and clears the error, but it does not reset `executionResult` before it calls the hub.
- Hub.FetchProposal: a reply whose own `_score` is not a number is modelled as no proposal. In the source it is kept, and as soon as the sort compares it with a numeric score it raises a `TypeError` that fails the whole request.
- Hub.Kept: under a ceiling that is present, a reply whose raw `est_cost_usd` or `est_latency_ms` is not a number is dropped. In the source the comparison raises a `TypeError` that fails the whole request.
- HomePage.Home.HandleJsonInput: the object it builds (through `Spread` and `Set`) keeps the old keys in place and appends new keys last. JavaScript objects list integer-like keys such as `"0"` first, in ascending order, so for such keys the model's key order differs from the browser's; what each key reads, stated by `SpreadLookup` and the method's key-by-key ensures, is the same.
- FileUpload.Picker.HandleFileChange: the size limit is a natural number of megabytes. The component types it as any number, so a fractional or negative limit is not modelled; the only caller passes 10.
- Hub.Collected: its contract states membership only; the order of the results is stated by `CollectedKeepsOrder`.
- Text.Strip: its contract states the shape of the result; that it is the text with only the outer whitespace cut is stated by `StripIsSlice`.
- Text.SplitOn: its contract pins the first piece only; the pieces as a whole are stated by the round trip `SplitOnJoins`.
- Text.NonBlankLines: its contract states the shape of each line; which lines are kept, and in what order, is stated by `NonBlankLinesAreStrippedLines` and `StrippedNonEmptyAppend`.

## Findings

| source | as written | input that shows it | evidently intended | confidence | as-written member | corrected member |
|---|---|---|---|---|---|---|
| agent-rendezvous/providers/agent_d/main.py:52-55 | every four-group date match is read as month, first day, last day, year, including the third pattern, whose groups are day, day, month, year | "22-23 Nov, 2025" gives start "22 23, 2025" and end "22 Nov, 2025" | the day-first match is read as day, day, month, year: start "Nov 22, 2025", end "Nov 23, 2025" | not executed | AgentD.DayRangeReadMonthFirst | AgentD.IntendedDatesStartWithMonth |
| agent-rendezvous/providers/_task_handlers_common.py:216-229 | the technology keyword "AI" is searched for in the lower-cased text, so it can never match | the text "AI" gets no category score and is classified "general" | keywords compared lower-cased, so "AI" counts for technology | not executed | TaskHandlers.AiTextIsGeneral | TaskHandlers.AiTextIsTechnology |
