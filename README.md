# Elections client: ledger gateway and views

This project models the browser client of an electronic voting system. The
client reads an election from a smart contract on a local ledger node. It
submits votes and image metadata through an HTTP relayer and follows the
contract's `VoteCast` events. It has four screens and a reusable table:

- **administration**: wallet connection, candidate and centre management, image metadata, root sync;
- **voting**: DNI, fingerprint and a candidate, submitted through the relayer;
- **live results**: counts and a running total patched by events;
- **vote listing**: the relayer's paged vote list.

The model is split by source file:

| Dafny file | module | models |
|---|---|---|
| `base.dfy` | `Base` | `Option` and `Result` |
| `js_strings.dfy` | `JsStrings` | the JavaScript string built-ins the client relies on: `trim`, `toLowerCase`, `includes`, `split`, `replace(/\s+/g, …)`, `String(n)` |
| `web3_service.dfy` | `Web3` | `src/app/services/web3.service.ts` |
| `vote_tally.dfy` | `Tally` | the patch both `onVote` callbacks apply, and the realtime sum |
| `views.dfy` | `Views` | the load of election id, candidates and images shared by three screens; the image lookup |
| `generic_table.dfy` | `GenericTable` | `src/app/generic-table/generic-table.component.ts` |
| `admin.dfy` | `Admin` | `src/app/admin/admin.component.ts` |
| `votacion.dfy` | `Votacion` | `src/app/votacion/votacion.component.ts` |
| `realtime.dfy` | `Realtime` | `src/app/realtime/realtime.component.ts` |
| `votes.dfy` | `Votes` | `src/app/votes/votes.component.ts` |

The ledger is a `Ledger` value. It holds what the node answers: whether it
answers at all, the code at the contract address and the raw contract return
values. A raw candidate is a
`RawRecord` with named and positional members, so `t.id ?? t[0]` is decoded
exactly. Every relayer call receives the `Reply` the relayer would send: an
unreachable host, or a status, a body text and the body as `r.json()`
parses it; bodies that are not JSON are not modelled (see "## Left out"). A contract write
receives the `TxOutcome` of its transaction.

Each Angular component is a `class` with the component's fields. Each
handler is a method whose `ensures` gives the whole new state, as a function
of the old state, the ledger and the replies. The service's listener
registry is the field `Web3Service.voteListeners`. The components register
and remove their callbacks there.

The model follows these behaviours of the code, which a reader might
expect to be otherwise:

- `voteRelayerSimple` accepts any ok response and does not check for an empty `txHash`.
- The `onVote` callbacks do not filter events by election id.
- Each `onVote` call adds a listener; it does not replace an earlier one.
- Callbacks are not queued.

## Model

| member | source | states |
|---|---|---|
| Web3.AssertContract | src/app/services/web3.service.ts:43-48 | an unreachable node fails with the network error; otherwise fails exactly when the code at the address is empty or `0x`, and then with the no-contract message naming the address |
| Web3.ToNumber | src/app/services/web3.service.ts:87-88 | succeeds exactly on a number within ±(2^53−1) and returns it; beyond that it overflows; a non-number is not convertible |
| Web3.Field | src/app/services/web3.service.ts:116-119 | the named member when present; otherwise the positional one, which is missing exactly when the index is out of range |
| Web3.NumberField | src/app/services/web3.service.ts:116 | a missing member fails as "not a number"; a present one is converted, and a success is the number found there |
| Web3.DecodeCandidate | src/app/services/web3.service.ts:115-120 | the id and count are the numbers under `id`/`[0]` and `voteCount`/`[2]`; name and image are kept as found; fails exactly when the id or the count cannot be converted, the id's error first |
| Web3.DecodeAll | src/app/services/web3.service.ts:115-120 | on success, same length and order, each element the decoding of its raw record; on failure, the error of the first undecodable record |
| Web3.DecodeAllFailsIff | src/app/services/web3.service.ts:115-120 | the whole list fails to decode if and only if some raw candidate fails |
| Web3.CurrentElectionId | src/app/services/web3.service.ts:85-89 | a node down or no contract gives the error of the contract check; otherwise the converted election id |
| Web3.GetElection | src/app/services/web3.service.ts:91-94 | a node down or no contract gives the error of the contract check; otherwise succeeds exactly for a known election, returning its record |
| Web3.GetCandidatesCount | src/app/services/web3.service.ts:96-100 | a node down or no contract gives the error of the contract check; otherwise the converted count |
| Web3.GetCandidate | src/app/services/web3.service.ts:102-110 | a node down or no contract gives the error of the contract check; an index out of range reverts; an index in range succeeds exactly when its record decodes, and otherwise fails with the decoding error; a success is the decoded candidate at that index, without an image |
| Web3.GetAllCandidates | src/app/services/web3.service.ts:112-121 | a node down or no contract gives the error of the contract check; otherwise the decoding of every raw candidate, one per ledger entry |
| Web3.NotDeployedFailsEveryRead | src/app/services/web3.service.ts:85-121 | with the node down or no code at the address, all five reads fail with the same error: the network error, or the no-contract message |
| Web3.Checked | src/app/services/web3.service.ts:189-191 | succeeds exactly on an ok reply, with its JSON body; unreachable is a network error; non-ok throws the body text |
| Web3.MetaFold | src/app/services/web3.service.ts:138 | a definition: the map after the items so far, each item writing its id with its URL or `''`, later items overwriting earlier ones; its keys and values are stated by the three lemmas below |
| Web3.MetaFoldKeys | src/app/services/web3.service.ts:137-138 | the map built by the loop has exactly the candidate ids of the items as keys |
| Web3.MetaFoldValue | src/app/services/web3.service.ts:138 | an item that no later item overrides has its image URL (or `''`) in the map |
| Web3.MetaFoldIsImageMap | src/app/services/web3.service.ts:137-139 | the loop's map holds exactly the items' ids, each with the image of the last item carrying that id |
| Web3.ImageMap | src/app/services/web3.service.ts:137-139 | the loop over the items builds, in place, the map defined by the fold |
| Web3.CandidateMeta | src/app/services/web3.service.ts:132-140 | election 0 gives an empty map without a request; a network error propagates; a non-ok reply or a body without items gives an empty map; otherwise the image map of the items |
| Web3.GetCandidateMeta | src/app/services/web3.service.ts:132-140 | requests `/candidate-meta?electionId=…` exactly when the id is non-zero, and resolves as `CandidateMeta` says |
| Web3.SaveCandidateMeta | src/app/services/web3.service.ts:141-148 | puts to `/candidate-meta` a body carrying the election id and the entries as given; resolves to `true` exactly on an ok reply; a non-ok reply throws its body text; an unreachable relayer is a network error |
| Web3.VoteRelayerSimple | src/app/services/web3.service.ts:151-160 | posts to `/vote/<candidateId>`; succeeds exactly on an ok reply, with `String(txHash)`, which is `undefined` when the member is missing; a non-ok reply throws its text |
| Web3.VoteRelayer | src/app/services/web3.service.ts:162-169 | no status check: any reply whose body parses as JSON resolves to that body, whatever its status; only an unreachable relayer fails |
| Web3.SyncRootFromRNP | src/app/services/web3.service.ts:171-175 | the root and hash of an ok reply; a non-ok reply throws its text |
| Web3.SetParam | src/app/services/web3.service.ts:185-187 | after `set`, reading the key back gives the value set, exactly one pair holds the key, and the pairs under every other key are the same, in the same order |
| Web3.RemoveParam | src/app/services/web3.service.ts:185-187 | no pair under the key is left; the pairs under other keys keep their values; a query without the key is unchanged |
| Web3.SetParamAppends | src/app/services/web3.service.ts:185-187 | setting a key not yet present appends it at the end, keeping the earlier pairs in order |
| Web3.Serialize | src/app/services/web3.service.ts:188 | `q.toString()`: `key=value` pairs joined by `&`, in order; empty exactly for an empty query |
| Web3.ListVotesQuery | src/app/services/web3.service.ts:184-187 | a definition: one pair per non-null option, electionId, then start, then limit; what reads back from it is stated by `ListVotesQueryGet` |
| Web3.WithQuery | src/app/services/web3.service.ts:188 | the base URL alone for an empty query, otherwise the base, `?` and the serialized query |
| Web3.ListVotesQueryGet | src/app/services/web3.service.ts:184-187 | each of `electionId`, `start` and `limit` read back from the query is the decimal string of the option, or absent when the option is null |
| Web3.ListVotesParams | src/app/services/web3.service.ts:184-187 | the three `set` calls build exactly the pairs of the non-null options, electionId first, then start, then limit |
| Web3.ListVotes | src/app/services/web3.service.ts:177-192 | the URL carries exactly the set options, in the order election, start, limit; the page is the ok reply's body, otherwise the error |
| Web3.ListVotesUrlHasQueryIff | src/app/services/web3.service.ts:188 | the URL has a query string if and only if some option is set |
| Web3.ByCandidateQuery | src/app/services/web3.service.ts:203-208 | a definition: the four pairs electionId, candidateId, start and limit, in that order, each a decimal string (`undefined` for a missing candidate) |
| Web3.ListVotesByCandidate | src/app/services/web3.service.ts:195-212 | the URL carries all four parameters in order, with `undefined` for a missing candidate; the page is the ok reply's body, otherwise the error |
| Web3.TxResult | src/app/services/web3.service.ts:127 | a mined transaction yields its hash; a reverted one fails |
| Web3.Web3Service.ConnectWallet | src/app/services/web3.service.ts:50-82 | no extension fails with "Instala MetaMask"; refused accounts fail; otherwise the signer is set, and the write handle and address are returned only when the node answers and the contract exists, the error of the contract check otherwise |
| Web3.Web3Service.NeedWrite | src/app/services/web3.service.ts:124-126 | passes exactly when a write handle exists, otherwise fails with the wallet message |
| Web3.Web3Service.CreateElection | src/app/services/web3.service.ts:127 | without a write handle nothing is sent; otherwise the call is sent and the transaction's hash returned |
| Web3.Web3Service.AddCandidate | src/app/services/web3.service.ts:128 | checks the handle, then reads the current election; sends the name under that election only if both succeed |
| Web3.Web3Service.CloseCurrentElection | src/app/services/web3.service.ts:129 | without a write handle nothing is sent; otherwise the call is sent and the hash returned |
| Web3.Web3Service.OnVote | src/app/services/web3.service.ts:215-219 | adds one listener after those already registered; nothing else changes |
| Web3.Web3Service.OffVote | src/app/services/web3.service.ts:220 | removes every vote listener; the wallet state is kept |
| Web3.Web3Service.RemoveAllListeners | src/app/services/web3.service.ts:221 | removes every listener; the wallet state is kept |
| Tally.FirstIndex | src/app/votacion/votacion.component.ts:31 | the index `find` stops at: the first candidate with the id, or none when no candidate carries it |
| Tally.FindById | src/app/votacion/votacion.component.ts:31 | the loop over the candidates finds exactly that index |
| Tally.FirstIndexUnique | src/app/votacion/votacion.component.ts:31 | an index holding the id with no match before it is the one `find` returns |
| Tally.ApplyVote | src/app/votacion/votacion.component.ts:31-32 | the ids and the length are kept; only the first candidate with the event's id gets the new total; an unknown id changes nothing |
| Tally.FirstIndexAfterVote | src/app/votacion/votacion.component.ts:31-32 | a patch does not change where any id is found |
| Tally.ApplyVoteIdempotent | src/app/votacion/votacion.component.ts:31-32 | delivering the same event twice leaves the list as one delivery does |
| Tally.ApplyVoteIgnoresElection | src/app/votacion/votacion.component.ts:30-32 | the event's election id has no influence on the patch |
| Tally.ApplyAllLastWins | src/app/votacion/votacion.component.ts:30-33 | after any sequence of events, each candidate found by its id has the total of the last event for it; the other candidates are unchanged |
| Tally.IdsAfterAll | src/app/votacion/votacion.component.ts:30-33 | a sequence of events keeps every id at its place |
| Tally.ReplayIdempotent | src/app/votacion/votacion.component.ts:30-33 | delivering a whole sequence of events twice leaves the list as one delivery does |
| Tally.LastTotalConcat | src/app/votacion/votacion.component.ts:30-33 | the last total for an id after two batches is the second batch's, if it has one, else the first's |
| Tally.Sum | src/app/realtime/realtime.component.ts:38 | the sum of the vote counts; never negative when no count is; a single candidate's sum is its count |
| Tally.SumFront | src/app/realtime/realtime.component.ts:38 | `reduce` adds from the left: the first count plus the sum of the rest |
| Tally.SumUpdate | src/app/realtime/realtime.component.ts:38 | replacing one candidate changes the sum by the difference of the two counts |
| Tally.SumAfterVote | src/app/realtime/realtime.component.ts:23-26 | a patch changes the sum by the new total minus the old count of the patched candidate, and not at all for an unknown id |
| Tally.WorkedExample | src/app/realtime/realtime.component.ts:23-38 | counts 10 and 5, then candidate 2 reaches 6: the list shows 10 and 6 and the total is 16 |
| Views.Load | src/app/realtime/realtime.component.ts:32-34 | a definition of the three awaits shared by the admin, voting and realtime screens: election id, then candidates, then the images of that election, stopping at the first failure; `LoadOutcome` states its properties |
| Views.LoadOutcome | src/app/realtime/realtime.component.ts:31-34 | a load succeeds if and only if all three reads do, and then carries their values; reads stop at the first failure |
| Views.LoadNotDeployed | src/app/votacion/votacion.component.ts:44-47 | with the node down or no code at the address the load reads nothing and fails with the network error or the no-contract message |
| Views.LoadViewData | src/app/votacion/votacion.component.ts:45-47 | the three awaited reads, in order, produce the load |
| Views.Shown | src/app/admin/admin.component.ts:47 | the text a `catch` shows: the error's message when it has one, otherwise the screen's fallback (`Error`, or "Error de red" in `votacion.component.ts:61`); never empty with a non-empty fallback |
| Views.ImgFor | src/app/votacion/votacion.component.ts:65 | never empty: the stored image of the candidate's id, or the placeholder when it is missing or empty |
| JsStrings.LeadingSpaces | src/app/admin/admin.component.ts:66 | the length of the longest all-whitespace prefix: every character before it is whitespace and the one at it is not |
| JsStrings.TrailingSpaces | src/app/admin/admin.component.ts:66 | the length of the longest all-whitespace suffix: every character in it is whitespace and the one before it is not |
| JsStrings.TrimStart | src/app/admin/admin.component.ts:66 | a suffix of the input that does not start with whitespace; everything removed is whitespace |
| JsStrings.TrimEnd | src/app/admin/admin.component.ts:66 | a prefix of the input that does not end with whitespace; everything removed is whitespace |
| JsStrings.Trim | src/app/admin/admin.component.ts:66 | a slice of the input with only whitespace cut from its two ends; neither end of the result is whitespace; an input without whitespace at its ends is returned unchanged |
| JsStrings.TrimEmptyIff | src/app/admin/admin.component.ts:66 | a line trims to empty, and so is dropped, if and only if it is all whitespace |
| JsStrings.Lower | src/app/generic-table/generic-table.component.ts:157 | same length; no capital is left; each capital becomes its small letter and every other character is kept |
| JsStrings.LowerIdempotent | src/app/generic-table/generic-table.component.ts:95 | lower-casing the already lower-cased filter text changes nothing |
| JsStrings.LowerPreservesSpace | src/app/generic-table/generic-table.component.ts:195 | lower-casing neither creates nor removes whitespace |
| JsStrings.Includes | src/app/generic-table/generic-table.component.ts:98 | a definition of `includes` as a left-to-right search; `IncludesIff` ties it to an occurrence at some position |
| JsStrings.IncludesIff | src/app/generic-table/generic-table.component.ts:98 | `includes` holds if and only if the text occurs at some position |
| JsStrings.IncludesTransitive | src/app/generic-table/generic-table.component.ts:98 | containment is transitive |
| JsStrings.Split | src/app/admin/admin.component.ts:66 | at least one piece, and no piece holds the separator |
| JsStrings.JoinSplit | src/app/admin/admin.component.ts:66 | joining the pieces with the separator gives back the text |
| JsStrings.SplitAfterPiece | src/app/admin/admin.component.ts:66 | a separator-free piece followed by the separator splits off as the first piece |
| JsStrings.SplitNoSeparator | src/app/admin/admin.component.ts:66 | a text without the separator is a single piece |
| JsStrings.SplitJoin | src/app/admin/admin.component.ts:66 | splitting a join of separator-free pieces gives back the pieces |
| JsStrings.ReplaceSpaceRuns | src/app/generic-table/generic-table.component.ts:195 | with a non-space replacement no whitespace is left; a text without whitespace is unchanged; never longer |
| JsStrings.ReplaceSpaceRunsIdempotent | src/app/generic-table/generic-table.component.ts:195 | replacing whitespace runs twice is the same as once |
| JsStrings.TrimStartSpaces | src/app/generic-table/generic-table.component.ts:195 | a run of whitespace is consumed up to the first non-space |
| JsStrings.ReplaceSpaceRunsAtRun | src/app/generic-table/generic-table.component.ts:195 | a whole whitespace run at the front becomes one separator and the rewrite goes on after it |
| JsStrings.ReplaceSpaceRunsAtNonSpace | src/app/generic-table/generic-table.component.ts:195 | a non-space character at the front is kept and the rewrite goes on after it |
| JsStrings.ReplaceSpaceRunsKeepsPrefix | src/app/generic-table/generic-table.component.ts:195 | a whitespace-free prefix is kept unchanged in front of the rewrite of the rest |
| JsStrings.ReplaceSpaceRunsRun | src/app/generic-table/generic-table.component.ts:195 | a whitespace-free prefix is kept, the whole whitespace run after it becomes one `-`, and the rewrite continues after the run |
| JsStrings.ReplaceSpaceRunsExample | src/app/generic-table/generic-table.component.ts:195 | the two spaces in `a  b` become a single hyphen |
| JsStrings.ReplaceSpaceRunsOfSmallRun | src/app/generic-table/generic-table.component.ts:195 | lower-casing and rewriting two small-letter words around a whitespace run gives the words joined by one separator |
| JsStrings.NatToString | src/app/services/web3.service.ts:185 | non-empty decimal digits, with no leading zero except for zero itself |
| JsStrings.NatToStringRoundTrip | src/app/services/web3.service.ts:185 | the digits read back give the number |
| JsStrings.IntToString | src/app/services/web3.service.ts:185 | digits with a leading minus sign exactly for negative numbers |
| JsStrings.IntToStringRoundTrip | src/app/services/web3.service.ts:185 | the decimal string parses back to the integer |
| GenericTable.CellMatches | src/app/generic-table/generic-table.component.ts:97-98 | a definition: the cell under the key is present and truthy, and its lower-cased text contains the search text |
| GenericTable.Passes | src/app/generic-table/generic-table.component.ts:90-112 | a definition of a shown row: with a text, some column's cell matches the lower-cased text; every select is "Todos" or equal to the row's value |
| GenericTable.SomeColumnMatches | src/app/generic-table/generic-table.component.ts:96-99 | true exactly when some column's cell is truthy and its lower-cased text contains the search text |
| GenericTable.SelectsHold | src/app/generic-table/generic-table.component.ts:104-109 | true exactly when every select is "Todos" or equal to the row's value |
| GenericTable.FilterPredicate | src/app/generic-table/generic-table.component.ts:90-112 | the loops over columns and selects accept a row exactly when some column matches the lower-cased text (if any) and every select is "Todos" or equal to the row's value |
| GenericTable.ClearedFilterPassesAll | src/app/generic-table/generic-table.component.ts:94-111 | with no text and every select at "Todos", every row is shown |
| GenericTable.TextFilterIff | src/app/generic-table/generic-table.component.ts:94-100 | a text filter shows a row if and only if some column's truthy cell, lower-cased, contains the lower-cased text |
| GenericTable.NarrowerTextShowsFewer | src/app/generic-table/generic-table.component.ts:94-100 | a row shown for a text is still shown for any non-empty text it contains |
| GenericTable.FalsyCellNeverMatches | src/app/generic-table/generic-table.component.ts:98 | an absent or falsy cell matches no search text |
| GenericTable.ColumnKeys | src/app/generic-table/generic-table.component.ts:72 | one key per column, in column order |
| GenericTable.GetChipClass | src/app/generic-table/generic-table.component.ts:185-196 | a truthy custom colour wins; a status column gives `status-active` exactly for "Activo" and otherwise `status-inactive`; otherwise `chip-` followed by the lower-cased value with each whitespace run rewritten to `-`, so with no whitespace left |
| GenericTable.ChipClassOfRun | src/app/generic-table/generic-table.component.ts:185-196 | a plain column maps two small-letter words around a whitespace run to `chip-`, the first word, `-` and the second |
| GenericTable.ChipClassOfPlainValue | src/app/generic-table/generic-table.component.ts:195 | a value without whitespace gives `chip-` and its lower case |
| GenericTable.GetStatusIcon | src/app/generic-table/generic-table.component.ts:199-201 | `check_circle` exactly for "Activo", otherwise `cancel` |
| GenericTable.GenericTableComponent.InitializeFilters | src/app/generic-table/generic-table.component.ts:121-125 | every option key set to "Todos"; every other key keeps its value; nothing else changes |
| GenericTable.GenericTableComponent.NgOnInit | src/app/generic-table/generic-table.component.ts:84-88 | the displayed keys are the column keys, the data is bound and the select defaults are set |
| GenericTable.GenericTableComponent.NgOnChanges | src/app/generic-table/generic-table.component.ts:70-82 | each changed input is rebound and only its derived state rebuilt; an unchanged input leaves its state untouched |
| GenericTable.GenericTableComponent.ApplyFilters | src/app/generic-table/generic-table.component.ts:128-139 | the filter becomes no text plus a copy of the selects; nothing else changes |
| GenericTable.GenericTableComponent.ClearFilters | src/app/generic-table/generic-table.component.ts:142-145 | the option keys back to "Todos", then the filter applied with no text |
| GenericTable.GenericTableComponent.ApplyTextFilter | src/app/generic-table/generic-table.component.ts:154-166 | the filter becomes the trimmed, lower-cased input plus a copy of the selects |
| Admin.CleanLines | src/app/admin/admin.component.ts:66 | never more names than lines; each name is non-empty and trimmed |
| Admin.CleanLinesOfCleanNames | src/app/admin/admin.component.ts:66 | lines that are already trimmed and non-empty pass through unchanged |
| Admin.CleanLinesConcat | src/app/admin/admin.component.ts:66 | cleaning works line by line: cleaning a concatenation concatenates the cleaned parts, in order |
| Admin.CleanLinesSingle | src/app/admin/admin.component.ts:66 | one line is kept trimmed, or dropped exactly when it trims to empty |
| Admin.CandidateList | src/app/admin/admin.component.ts:66 | empty unless replacing; otherwise every name is non-empty and trimmed |
| Admin.CandidateListRoundTrip | src/app/admin/admin.component.ts:66 | clean names written one per line are parsed back exactly, in order |
| Admin.SplitAroundBlank | src/app/admin/admin.component.ts:66 | two lines without line breaks, joined by two line breaks, split into the first, an empty line and the second |
| JsStrings.TrimPadded | src/app/admin/admin.component.ts:66 | a letter with a space on each side trims to the letter |
| Admin.CleanLinesAroundBlank | src/app/admin/admin.component.ts:66 | two lines with text around a blank one clean to the two trimmed lines: the blank one is dropped |
| Admin.CandidateListAroundBlank | src/app/admin/admin.component.ts:66 | two names around an empty line give exactly the two trimmed names: the blank line is dropped |
| Admin.CandidateListPadded | src/app/admin/admin.component.ts:66 | the shape ` a \n\n b `: two space-padded characters around a blank line give the list of the two characters |
| Admin.ImageEntries | src/app/admin/admin.component.ts:105 | one entry per stored image, each with that candidate's URL, no candidate twice |
| Admin.Refreshed | src/app/admin/admin.component.ts:50-54 | a definition: the load's values assigned as they arrive, so a failure keeps the earlier values; `RefreshKeepsForm` states what it leaves alone |
| Admin.AfterRefresh | src/app/admin/admin.component.ts:56-63 | a definition: a refresh inside a handler's `try`, whose failure becomes the status "Error: " plus the message |
| Admin.RefreshKeepsForm | src/app/admin/admin.component.ts:50-54 | a refresh changes only the election id, the candidates and the images |
| Admin.RefreshNotDeployed | src/app/admin/admin.component.ts:50-54 | with the node down or no contract a refresh changes nothing and fails with the network error or the no-contract message |
| Admin.AdminComponent.Refresh | src/app/admin/admin.component.ts:50-54 | each value is assigned as its read succeeds, so a failure keeps the values read before it, and propagates |
| Admin.AdminComponent.RefreshOrReport | src/app/admin/admin.component.ts:56-63 | the state is the refresh's, with a failure reported in the status line |
| Admin.AdminComponent.NgOnInit | src/app/admin/admin.component.ts:42 | a refresh whose failure is not caught |
| Admin.AdminComponent.NgOnDestroy | src/app/admin/admin.component.ts:43 | every listener of the service is removed |
| Admin.AdminComponent.Connect | src/app/admin/admin.component.ts:45-48 | with no extension or refused accounts only the status changes, to "Error: " plus the message, and the signer and write handle stay as they were; with accounts granted the signer is set, and then either the node and contract are there and the account, "Conectado: …" and the write handle are set, or the status shows the contract check's error and the write handle stays as it was |
| Admin.AdminComponent.AddCandidate | src/app/admin/admin.component.ts:56-59 | a failed write leaves only the error status; a mined one sets the status with the hash, clears the name box, then refreshes, and a failed refresh replaces the status |
| Admin.AdminComponent.ClearCandidates | src/app/admin/admin.component.ts:60-63 | issues the clear call, sets its status and refreshes |
| Admin.AdminComponent.StartElection | src/app/admin/admin.component.ts:64-70 | sends the parsed list (empty unless replacing) and the flag, empties the text box and refreshes |
| Admin.AdminComponent.RegisterCenter | src/app/admin/admin.component.ts:72-76 | no call and the "required" status without a centre id or a name; otherwise the call with both |
| Admin.AdminComponent.SetCenterAdmin | src/app/admin/admin.component.ts:77-81 | no call without a centre id or an address; otherwise the call, always granting |
| Admin.AdminComponent.CalcRoot | src/app/admin/admin.component.ts:82-86 | no call without both ids; otherwise the call, and the root becomes the service's empty result |
| Admin.AdminComponent.SetRoot | src/app/admin/admin.component.ts:87-91 | no call unless both ids and a non-empty root are present |
| Admin.AdminComponent.OpenCenter | src/app/admin/admin.component.ts:92-96 | no call without a centre id; otherwise the call and a status naming the centre |
| Admin.AdminComponent.CloseCenter | src/app/admin/admin.component.ts:97-101 | no call without a centre id; otherwise the call and a status naming the centre |
| Admin.AdminComponent.SaveImages | src/app/admin/admin.component.ts:103-109 | puts to `/candidate-meta` every stored image once under the current election; the status says saved on an ok reply, or gives the network error or the rejection text |
| Admin.AdminComponent.SyncRoot | src/app/admin/admin.component.ts:111-118 | the status shows the new root and hash, or the error |
| Votacion.AfterLoad | src/app/votacion/votacion.component.ts:44-49 | a successful load with candidates selects the first one; otherwise the selection is kept; the form and message are untouched |
| Votacion.LoadSelectsLoadedCandidate | src/app/votacion/votacion.component.ts:48 | after a successful load with candidates, the selection is the id of the first ledger candidate |
| Votacion.SelectionSurvivesVotes | src/app/votacion/votacion.component.ts:30-33 | events never move or remove a candidate, so the selection still names the same one |
| Votacion.VotacionComponent.LoadData | src/app/votacion/votacion.component.ts:44-49 | the fields become what the ordered load produced, with the selection rule, and the load's outcome is returned |
| Votacion.VotacionComponent.NgOnInit | src/app/votacion/votacion.component.ts:27-38 | one listener is registered exactly when the load succeeds; a failure sets "Error cargando datos: " plus its message |
| Votacion.VotacionComponent.OnVoteEvent | src/app/votacion/votacion.component.ts:30-33 | the candidates are patched by the event; nothing else changes |
| Votacion.VotacionComponent.NgOnDestroy | src/app/votacion/votacion.component.ts:40-42 | every vote listener is removed |
| Votacion.VotacionComponent.Vote | src/app/votacion/votacion.component.ts:51-63 | a vote is posted if and only if DNI, fingerprint and a selection are present; the message gives the hash or the error |
| Realtime.LoadInitialConsistent | src/app/realtime/realtime.component.ts:31-36 | after a successful load the candidates are the ledger's and the total is their sum |
| Realtime.FailedLoadCanLeaveTotalStale | src/app/realtime/realtime.component.ts:31-35 | a load that fails at the image read leaves new candidates with an old total that is not their sum |
| Realtime.Patched | src/app/realtime/realtime.component.ts:23-27 | a definition of the callback's state: the list patched by the event, then the total recomputed; `PatchedTotal` states its effect on the total |
| Realtime.PatchedTotal | src/app/realtime/realtime.component.ts:23-27 | the callback keeps the total equal to the sum, moving it by the change of the patched count |
| Realtime.PatchedIdempotent | src/app/realtime/realtime.component.ts:23-27 | the same event delivered twice leaves candidates and total as one delivery does |
| Realtime.RealtimeComponent.ComputeTotal | src/app/realtime/realtime.component.ts:38 | the total becomes the sum of the counts; nothing else changes |
| Realtime.RealtimeComponent.LoadInitial | src/app/realtime/realtime.component.ts:31-36 | values are assigned as they arrive; the total is recomputed only when all three reads succeed |
| Realtime.RealtimeComponent.NgOnInit | src/app/realtime/realtime.component.ts:21-28 | one listener is registered exactly when the load succeeds; a failure propagates |
| Realtime.RealtimeComponent.OnVoteEvent | src/app/realtime/realtime.component.ts:23-27 | patches the candidates and leaves the total equal to their sum |
| Realtime.RealtimeComponent.NgOnDestroy | src/app/realtime/realtime.component.ts:29 | every vote listener is removed |
| Votes.LoadVotesQuery | src/app/votes/votes.component.ts:33 | the query is the election, then start 0, then limit 50, and nothing else |
| Votes.VotesComponent.OnPageChange | src/app/votes/votes.component.ts:43-46 | the offset is page index times page size, and the limit is the page size |
| Votes.VotesComponent.LoadVotes | src/app/votes/votes.component.ts:31-35 | no request when the election id cannot be read; otherwise the fixed query, with the votes replaced only by an ok page |
| Votes.VotesComponent.LoadVotesByCandidate | src/app/votes/votes.component.ts:37-41 | no request when the election id cannot be read; otherwise the query with the chosen candidate, with the votes replaced only by an ok page |
| Votes.VotesComponent.NgOnInit | src/app/votes/votes.component.ts:25-29 | success stores the page's votes and lowers `loading`; a failure leaves everything else as it was with `loading` raised; it fails exactly when the election id or the page fails |

## Left out

- Provider and contract setup (`web3.service.ts:22-41`), including the fall back from the WebSocket event provider to polling: transport, not logic.
- The wallet network switch and add-chain requests (`web3.service.ts:55-74`): wallet I/O. `ConnectWallet` keeps only the extension check, the account request, the signer and the contract check.
- Web3.Web3Service.ConnectWallet: a failure of the network switch is not modelled; `signer` is set before the contract check, as in the code.
- `fetch`, JSON encoding and decoding and request bodies: each relayer call is given its reply, and the model states the URL it requests (and, for `saveCandidateMeta`, the body it puts).
- Web3.VoteRelayer: a body that is not JSON makes `r.json()` reject (`web3.service.ts:136`, `:158`, `:168`, `:174`, `:191`, `:211`), typically for a non-ok reply with a plain-text body; every modelled reply carries a parsed body, so this rejection is not modelled, here or in the other relayer calls.
- An unreachable node is one flag of the ledger: it fails the contract check every read makes first (`getCode`), with a stand-in for ethers' network error. A node failing between two reads of one handler is not modelled.
- Message: the texts of ethers and fetch errors ("overflow", "Failed to fetch", a revert reason) are stand-ins; the library's exact wording is not modelled.
- `src/app/services/rnp.service.ts` is not part of this model; a `Proof` is only passed through.
- The placeholder administration operations of the service (`web3.service.ts:223-232`) have empty bodies, so they resolve to `undefined`; `calcRoot` alone returns `''`. They are modelled as `AdminCall` values, and the status strings that print their result contain `undefined`.
- `pct` (`realtime.component.ts:39`): floating-point formatting.
- `getCellValue` (`generic-table.component.ts:169-182`): it returns its input, except that a date column's value becomes a `Date`.
- The paginator, the sort, `ngAfterViewInit`, the `pageChange` emitter and the `document.querySelector` reset of the search box: UI framework calls.
- GenericTable.FilterPredicate: the filter is taken as the record before its `JSON.stringify`/`JSON.parse` round trip; string keys and text survive that round trip unchanged.
- JsStrings.Lower: `toLowerCase` is modelled for ASCII and Latin-1 letters only.
- JsStrings.IntToString: `String(n)` is modelled for integers only; exponent notation for large magnitudes is not modelled.
- Admin.ImageEntries: `Object.keys` lists keys that are array indices (non-negative integers) in ascending order, then the other keys, such as negative ids, in insertion order; the model states one entry per key but not their order.
- `c.voteCount || 0` and `this.images[Number(k)] || ''` are not modelled separately: counts are integers and stored images are strings.
- Each handler reads the ledger as one snapshot, in which the reads of a handler agree. `Admin.AdminComponent.AddCandidate` refreshes from a second snapshot taken after the write.
- Listeners are identified by a tag per screen; the callback is the screen's `OnVoteEvent` method. The service's `toNumber` conversion of event arguments is not modelled.
- Interleaving of awaits, concurrent handlers, and events arriving during a load are not modelled: each handler runs to completion.
- `app.component.ts`, `app.routes.ts`, `home.component.ts` and `environment.ts` hold no logic.
