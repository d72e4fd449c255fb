# Verified model of the xlpod launcher

The launcher is a loopback server. It hands out bearer tokens, runs AI chats with a bounded
tool-use loop, drives one embedded Python worker over pipes, and reads and writes a bundle part
inside workbooks. This project models the parts of it whose correctness spans several functions,
requests or processes, and proves what they promise.

`dafny verify dfyconfig.toml` checks everything.

## How it is laid out

| file | contents |
|---|---|
| `Wrappers`, `Types`, `Bytes`, `Utf8`, `Search`, `Sums` | shared types; bit strings; UTF-8; first-match search and occurrence counts; sums over maps, saturating addition |
| `RateLimit` | the sliding-window limiter, with stamps that may arrive out of order |
| `Base64`, `Pem` | the thumbprint decoder and the PEM scan in front of it |
| `Cost`, `Ledger` | prices, the in-memory rollup and its sums; file and rollup while several records are under way |
| `FsRead`, `Auth`, `Tools`, `Sessions`, `TrustWindows`, `Dispatch`, `WorkerApi` | the stores and gates a tool use passes, the tools it runs, and what these ask of the worker |
| `Engine` | all AI requests together as one step machine: every critical section is one step |
| `Budget`, `Overshoot`, `Transcript`, `Consent`, `Capability`, `Grants` | theorems over every run of that machine, and runs that meet the budget bound |
| `Provenance`, `Orderly`, `Witness` | where stored messages come from, exactly when the tool uses of a whole list are answered, a way of use that ensures it, and runs without it |
| `Play`, `ToolResults` | what a chat that runs by itself amounts to, as a function of everybody's answers; what each tool gives the model, by name |
| `Routes`, `Safety` | the handlers as imperative code on the real stores, proved to be runs of that machine with the outcome `Play` gives, and a client that uses them |
| `Worker` | launcher, worker processes and pipes as one step machine, and the pipe invariant |
| `PythonWorker`, `WorkerMain` | the code of one worker call as a run of that machine; the worker's own loop |
| `Envelope`, `ContentTypes`, `Archive`, `Bundle` | the bundle codec and the archive rewrite |
| `BundleRoutes`, `Panel` | the bundle routes end to end, and the panel that saves and reopens |

Concurrency is a run of steps: between any two critical sections of one request any other request
may take steps. Theorems about runs hold for every sequence of enabled steps. Answers of the
provider, the user, the worker and the operating system, random identifiers and the clock are
parameters.

## What is assumed

- The futures of worker calls may be dropped anywhere, and the theorems about replies hold of every run
  whose drops are harmless (`Worker.HarmlessRun`). A drop is harmless before the first byte of the
  request is written, and after that exactly if the process in the slot is dead and holds no whole
  reply. `Worker.DropMisleadsIff` proves that this is the exact condition: after any other drop some
  later caller can be handed a reply that is not its own, and after a harmless one nobody can.
  `Worker.MisleadingRun` is such a run from the start. The code does not check the condition; a run in
  which every future that has begun to write is awaited to its end satisfies it
  (`Worker.WaitingIsHarmless`).
- A request written behind the torn beginning of another one is not JSON, and neither is the rest of a
  reply whose beginning was read and lost.
- The worker writes nothing but replies to its standard output, one line per request line. For its
  own loop this is `WorkerMain.Serve`; that no library prints past it is assumed.
- The wall clock does not go backwards (it is one clock in milliseconds in `Engine`; the limiter's
  instants are in nanoseconds).
- The file system is a static map of canonical paths; entry names of an archive are distinct where a
  theorem says so.
- JSON dump and parse, zlib, and the library's Base64 are inverse pairs, and a JSON object text that
  is cut short is not JSON (`Bundle.Lawful`).
- Random tokens and identifiers are fresh.

## Where the code and its comments differ

The model follows the code.

- The cost ledger is not replayed at start and not reset by date: `today` is everything since start.
- `revoke_session` has no caller, so no trust window is ever revoked by the launcher itself.
- The stop reason `ToolUseRoundLimit` is never produced. A chat that used its eight turns ends with an
  empty message and the last turn's stop reason.
- A chat is not tied to the token that opened its session (`Capability.CallerDoesNotMatter`): any
  token with the chat scope may continue it, with the opener's rights.
- Approval labels and tool uses in the messages of a request body are stored as they come, unchecked, next
  to those of the tool loop (`Witness.ForgedLabelRun`); only tool messages of the loop vouch for theirs
  (`Provenance.LabelsOfToolMessagesAreTruthful`).
- Chats on one session may interleave and may be given up halfway, so a chat can send the provider a tool
  use without an answer (`Witness.UnansweredRun`); `Provenance.WholeListAnsweredIff` says exactly when.
- The trust window is judged when the gate is passed; it may have expired by the time the tool runs.
- The worker's timeout covers the read only, not the write or the wait for the mutex.
- The limiter reads the clock before it takes the lock. Its hundred-per-second promise holds only for
  windows shorter by the lag between the two (`RateLimit.WindowBound`), and no longer ones
  (`RateLimit.WindowBoundIsTight`).
- The bundle envelope does not escape `]]>`: a history that contains it saves without complaint and
  reads back as corrupt (`Panel.SaveThenReopen` gives the exact condition).
- The decoder accepts non-canonical Base64 (`Base64.ReencodesIffCanonical`, `Base64.SixteenSpellings`).
- The patch of the content types adds one override for every closing tag, not one
  (`ContentTypes.OverridesAfterPatch`).

## Model

| member | source | states |
|---|---|---|
| RateLimit.RateLimiter.Check | launcher/xlpod-server/src/rate_limit.rs:28-48 | one call trims the key's bucket, decides, and pushes only if it accepts; other keys keep their buckets |
| RateLimit.TrimSplits | launcher/xlpod-server/src/rate_limit.rs:35-42 | the pop loop removes exactly a run of stale stamps at the front and stops at the first live one |
| RateLimit.BucketIsSuffix | launcher/xlpod-server/src/rate_limit.rs:35-47 | after any run the bucket is a suffix of all accepted stamps, what left it was older than one window before the newest stamp seen, and it never exceeds 100 |
| RateLimit.WindowBound | launcher/xlpod-server/src/rate_limit.rs:28-48 | if no stamp lags an earlier one by more than d, no closed window of one second less d holds more than 100 accepted stamps, in any run with rejected calls |
| RateLimit.WindowBoundIsTight | launcher/xlpod-server/src/rate_limit.rs:28-48 | for every lag up to a second there is a run that puts more than 100 into a window one nanosecond longer |
| RateLimit.RefinesFullHistory | launcher/xlpod-server/src/rate_limit.rs:35-47 | with stamps in order the trimmed deque accepts exactly when fewer than 100 accepted stamps of the whole history lie in the last second; it stays sorted |
| RateLimit.KeysAreIndependent | launcher/xlpod-server/src/rate_limit.rs:31-35 | a key's bucket depends only on the calls under that key, over any run over all keys |
| RateLimit.OwnPrefixOwnBucket | launcher/xlpod-server/src/middleware.rs:112-116 | a token whose first eight characters no other caller shares is limited by its own calls alone |
| RateLimit.SamePrefixSameBucket | launcher/xlpod-server/src/middleware.rs:112-116 | two tokens share a bucket exactly if their first eight characters agree |
| RateLimit.TokenRateBound | launcher/xlpod-server/src/middleware.rs:113-116 | the window bound holds per token in any run over all tokens, though tokens may share a key |
| Base64.BuildTable | launcher/xlpod-server/src/ca.rs:297-311 | the table built by the loops is the RFC 4648 alphabet read backwards, -1 elsewhere |
| Base64.DecodeB64 | launcher/xlpod-server/src/ca.rs:296-336 | the 32-bit shift-buffer loop returns the octets of the concatenated six-bit groups, or the error |
| Base64.DecodeInvertsEncode | launcher/xlpod-server/src/ca.rs:296-336 | any text spelling the section 4 encoding of the data, padded or not, with CR, LF, space or `=` anywhere, decodes to the data |
| Base64.InsertSkipped | launcher/xlpod-server/src/ca.rs:317-319 | inserting skipped characters at any place does not change the result |
| Base64.DecodedLength | launcher/xlpod-server/src/ca.rs:316-336 | it fails exactly if some character is neither skipped nor in the alphabet; n alphabet characters give floor(6n/8) octets |
| Base64.ReencodesIffCanonical | launcher/xlpod-server/src/ca.rs:327-336 | an accepted text is the encoding of its result if and only if the character count is not 1 mod 4 and the leftover bits are zero |
| Base64.SixteenSpellings | launcher/xlpod-server/src/ca.rs:329-333 | the low four bits of the second of two characters are ignored |
| Base64.AlphabetIs | launcher/xlpod-server/src/ca.rs:297-311 | the alphabet, written out in order, is what table and encoding use, both ways |
| Base64.TestVectors | launcher/xlpod-server/src/ca.rs:296-336 | the encoding the decoder inverts is that of the test vectors of section 10 of RFC 4648 |
| Pem.PemToDer | launcher/xlpod-server/src/ca.rs:199-216 | the scan returns the decoding of the first armoured block of the text's lines |
| Pem.LinesOfRender | launcher/xlpod-server/src/ca.rs:202 | splitting a rendered text into lines gives its lines back, LF or CRLF |
| Pem.PreambleIgnored | launcher/xlpod-server/src/ca.rs:202-213 | text before the first BEGIN line contributes nothing |
| Pem.EndFirstYieldsNothing | launcher/xlpod-server/src/ca.rs:207-209 | an END line before any BEGIN line ends the scan with nothing |
| Pem.RoundTrip | launcher/xlpod-server/src/ca.rs:199-216 | for all DER bytes, wrappings, indentations, terminators, preambles and trailing text, the RFC 7468 text decodes to the bytes |
| Pem.TrimCuts | launcher/xlpod-server/src/ca.rs:212 | trimming takes white space off both ends, all of it and nothing else |
| Pem.MarkersInside | launcher/xlpod-server/src/ca.rs:203-210 | inside a block further BEGIN lines are skipped, and nothing behind an END line counts |
| Utf8.DecodeInvertsEncode | client/xlpod/bundle.py:305-315 | strict UTF-8 decoding inverts encoding for every text |
| Utf8.OctetsOf | client/xlpod/bundle.py:305-315 | how many octets a character takes, and the ranges they lie in (section 3 of RFC 3629) |
| Utf8.Examples | client/xlpod/bundle.py:305-315 | examples of the RFC; truncated and overlong groups and surrogates are refused |
| Cost.CostMonotone | launcher/xlpod-server/src/ai/cost.rs:63-68 | more tokens never cost less, saturated or not |
| Cost.RoundingBound | launcher/xlpod-server/src/ai/cost.rs:63-68 | n unsaturated calls are under-charged by less than 2n micro-USD in all and never over-charged, for any prices |
| Cost.BuiltinIsExact | launcher/xlpod-server/src/ai/cost.rs:42-68 | the built-in prices leave no rounding error |
| Cost.Prices | launcher/xlpod-server/src/ai/cost.rs:42-68 | for every usage whose products fit in 64 bits a call costs 15 and 75 micro-USD per input and output token with Opus, 3 and 15 with other models of that provider, nothing elsewhere |
| Cost.CostLedger.Record | launcher/xlpod-server/src/ai/cost.rs:124-168 | one call appends the line if the file took it, adds tokens and price to exactly one row, stopping at 2^64 - 1, and returns the price in micro-USD per token of the three tariffs |
| Cost.CostLedger.TodayTotalMicros | launcher/xlpod-server/src/ai/cost.rs:170-177 | the unchecked sum in map order is the exact total modulo 2^64 |
| Cost.CostLedger.OverBudget | launcher/xlpod-server/src/ai/cost.rs:179-181 | over budget exactly if the cap is nonzero and the wrapped total reaches it |
| Cost.RecordAddsCost | launcher/xlpod-server/src/ai/cost.rs:150-168 | one record raises the total by at most its cost, exactly by it while no row can saturate |
| Cost.RowIsClampedSum | launcher/xlpod-server/src/ai/cost.rs:156-166 | a row is the clamp at 2^64 - 1 of the exact sum of its lines, field by field |
| Cost.RollupTotal | launcher/xlpod-server/src/ai/cost.rs:150-177 | while the sum of all recorded costs fits in 64 bits, the rollup's total is that sum |
| Cost.OrderDoesNotMatter | launcher/xlpod-server/src/ai/cost.rs:142-166 | sums per key depend on the lines only as a multiset, so file order and update order may differ |
| Ledger.RowIsFileAndLost | launcher/xlpod-server/src/ai/cost.rs:130-195 | in any interleaving of the separate append and update steps, with appends that fail and requests that go away, once all is settled each row is the clamp of its ledger lines plus the lost ones less the skipped ones, and so is the total |
| Ledger.RollupAgreesWithFile | launcher/xlpod-server/src/ai/cost.rs:130-195 | a settled row agrees with its ledger lines if and only if in each field as much was lost as was skipped, or the sums with and without them are past 2^64 - 1 |
| Ledger.NothingLost | launcher/xlpod-server/src/ai/cost.rs:130-195 | without failed appends and drops each row is the clamped sum of its ledger lines, and the total the sum over all lines while it fits |
| Ledger.LostAppendDiverges | launcher/xlpod-server/src/ai/cost.rs:142-149 | a failed append is silent and leaves the row above the file |
| Cost.RowPricesItsTokens | launcher/xlpod-server/src/ai/cost.rs:42-68 | with the built-in prices the cost stored in a row of the rollup is the price of the token counts stored in it, as long as pricing them does not saturate |
| TrustWindows.TrustWindowStore.Open | launcher/xlpod-server/src/ai/trust_window.rs:50-65 | stores one window that expires after at most an hour, others unchanged |
| TrustWindows.TrustWindowStore.Covers | launcher/xlpod-server/src/ai/trust_window.rs:67-74 | the scan answers whether some stored window covers session and tool now |
| TrustWindows.TrustWindowStore.RevokeSession | launcher/xlpod-server/src/ai/trust_window.rs:79-85 | drops exactly the session's windows |
| TrustWindows.TrustWindowStore.Revoke | launcher/xlpod-server/src/ai/trust_window.rs:88-94 | drops exactly the named window |
| TrustWindows.CoversIffLiveOpening | launcher/xlpod-server/src/ai/trust_window.rs:27-94 | after any log of openings and revocations, covered if and only if some opening for that session lists the tool, is younger than 1000*min(duration, 3600) ms, and nothing revoked it since |
| TrustWindows.RevocationIsLocal | launcher/xlpod-server/src/ai/trust_window.rs:79-85 | revoking a session silences it and changes no other answer |
| FsRead.RootsAreRequestedDirs | launcher/xlpod-server/src/fs_read.rs:76-82 | the roots kept are exactly the requested paths that resolve to directories |
| FsRead.ReadFailsIff | launcher/xlpod-server/src/fs_read.rs:37-70 | each error of a file read, both ways: outside every root, not found or unreadable, no file, larger than 10 MiB |
| Auth.TokenStore.Issue | launcher/xlpod-server/src/auth.rs:84-101 | stores one record with the given rights, others unchanged |
| Auth.LookupIffIssuedWithinTheHour | launcher/xlpod-server/src/auth.rs:84-115 | after any run of issues a lookup succeeds exactly for a token issued less than an hour ago, with the rights it was issued with |
| Auth.HandshakeIff | launcher/xlpod-server/src/routes.rs:88-142 | a handshake is granted exactly if a usable root is named where one is needed and the user agrees where asked, each error both ways; it grants exactly the requested scopes, and exactly the directories the raw roots resolve to |
| Auth.RootsIffFsScope | launcher/xlpod-server/src/routes.rs:88-133 | a granted handshake has roots if and only if it has a file-system scope, each a requested directory, and an approval if it has any scope |
| Tools.FindInReturnsRegistered | launcher/xlpod-server/src/ai/tools.rs:97-99 | the lookup returns a registry entry of that name, or there is none |
| Tools.RegistryIs | launcher/xlpod-server/src/ai/tools.rs:24-99 | the four tools by name with the scope each needs; only `run_python` mutates |
| Sessions.GrantIsIntersection | launcher/xlpod-server/src/routes.rs:390-399 | filter, sort and dedup give the duplicate-free intersection of the token's scopes with the registry's |
| Sessions.SessionStore.Open | launcher/xlpod-server/src/ai/session.rs:63-91 | stores one empty session, others unchanged |
| Sessions.SessionStore.Get | launcher/xlpod-server/src/ai/session.rs:93-99 | returns the stored session or the error |
| Sessions.SessionStore.AppendMessages | launcher/xlpod-server/src/ai/session.rs:101-113 | extends exactly that session's messages at the end, or fails and changes nothing |
| Dispatch.GateIff | launcher/xlpod-server/src/ai/dispatch.rs:84-114 | each of the five outcomes of the gates, both ways: refused as unregistered or not granted, refused in a plan-only chat, cleared as reading, cleared by a window, or in need of a dialog |
| Dispatch.FsReadResultRoundTrips | launcher/xlpod-server/src/ai/dispatch.rs:126-151 | a file-read result carries a whole file under the roots, recoverable from its Base64 text by the launcher's own decoder |
| Budget.MoveKeepsTurnInv | launcher/xlpod-server/src/routes.rs:456-499 | a chat makes at most eight turns and records each one right after it |
| Budget.MoveSpendsTurns | launcher/xlpod-server/src/routes.rs:456-499 | no move gives a chat more turns, and each record uses one up |
| Budget.AdmissionKeepsBudget | launcher/xlpod-server/src/routes.rs:424-426 | an admission below the cap keeps total plus possible spending under the bound |
| Budget.OvershootBound | launcher/xlpod-server/src/routes.rs:424-525 | with at most n chats in flight and at most c per turn, no interleaving brings the total above cap - 1 + 8*n*c, and below 2^64 the unchecked sum is exact |
| Overshoot.BoundIsMet | launcher/xlpod-server/src/routes.rs:424-525 | for every cap, number of chats and price of a turn in whole input tokens a run spends up to the last multiple of three below the cap, then has all chats admitted and gives each its eight turns: it meets the bound at caps that are one more than a multiple of three and stays at most two below it at the others |
| Transcript.MoveSaysWhatItKeeps | launcher/xlpod-server/src/routes.rs:437-522 | after the clone every move appends to the store exactly what it appends locally |
| Transcript.LocalHistoryIsSubsequence | launcher/xlpod-server/src/routes.rs:437-525 | for any interleaving of chats on one session a chat's local history is a subsequence of the stored transcript, and equal to it if nobody else appended since the clone |
| Transcript.ToolUsesAreAnswered | launcher/xlpod-server/src/routes.rs:456-525 | at most eight turns, each recorded once; in what the chat itself appends each message with tool uses is followed by one tool message whose results match its ids in order, for chats that ended with a reply or an error without exception; an error comes between two turns |
| Provenance.WholeListAnsweredIff | launcher/xlpod-server/src/routes.rs:437-525 | in every run, at each question to the provider and at the end, every tool use of the whole list is answered directly behind it by whoever made it if and only if, in the part cloned from the store, each message with tool uses is followed by one of the same chat and those of request bodies bring their answer along |
| Provenance.AnsweredIffKept | launcher/xlpod-server/src/routes.rs:437-525 | a stored message with tool uses is answered within the first n messages exactly if the next of them comes from the same chat and, for a request body, is its answer |
| Orderly.OrderlyListsAreAnswered | launcher/xlpod-server/src/routes.rs:420-525 | if requests on a session come one at a time, none is given up between a turn and its tool message, and bodies answer the tool uses they hold, then every list sent to the provider is answered throughout |
| Witness.UnansweredRun | launcher/xlpod-server/src/routes.rs:437-461 | a run without a dropped request in which a second chat on the session is about to send a list with an unanswered tool use |
| Consent.CoveredIsConsented | launcher/xlpod-server/src/routes.rs:663-691 | a window that covers a tool now was opened by an approved dialog at most an hour ago |
| Consent.StepKeepsConsent | launcher/xlpod-server/src/ai/dispatch.rs:84-123 | every step keeps the consent invariant |
| Consent.MutationsHadConsent | launcher/xlpod-server/src/ai/dispatch.rs:84-123 | in every run each executed mutating tool was outside plan-only chats and had its own approved dialog, or a window for its session and tool opened with consent at most 3,600,000 ms before its gate; the label says which |
| Consent.PythonHadConsent | launcher/xlpod-server/src/ai/dispatch.rs:84-123 | by name: `run_python` ran only outside plan-only chats and on its own approved dialog or in a window naming it, opened with consent at most an hour before; every other tool that ran is one of the three that read, and is labelled so |
| Consent.LabelsAreTruthful | launcher/xlpod-server/src/ai/dispatch.rs:49-70 | in every run the approval labels in the tool messages a chat itself appends are those under which these very tool uses ran |
| Provenance.LabelsOfToolMessagesAreTruthful | launcher/xlpod-server/src/routes.rs:437-522 | every stored message is from a request body, a provider turn or the tool loop of a known chat; of these exactly the last kind vouches for its labels, each of which is backed by the run of that very use |
| Witness.ForgedLabelRun | launcher/xlpod-server/src/routes.rs:437-444 | whatever messages a request body holds, with any labels, there is a run after which they are the transcript although nobody was asked and no tool ran |
| Capability.NoEscalation | launcher/xlpod-server/src/routes.rs:390-409 | in every reachable state tokens, sessions, chats and executed tools stay within the rights given at the handshake |
| Capability.ToolRanWithinOpenersRights | launcher/xlpod-server/src/ai/dispatch.rs:84-145 | every executed tool's scope was held by the token that opened the session, and any file it returned lies under that token's roots |
| Capability.SessionRightsAreFixed | launcher/xlpod-server/src/ai/session.rs:93-113 | over any continuation a session keeps its scopes and roots, and its messages only grow at the end |
| Capability.CallerDoesNotMatter | launcher/xlpod-server/src/routes.rs:420-427 | once admitted, nothing a chat does depends on the token that called it |
| Grants.TokensAreGrants | launcher/xlpod-server/src/routes.rs:79-142 | in every run each token in the store was granted by one handshake step, approved if it asked for anything, and holds exactly the scopes asked for there, the directories named there, and an hour from that moment |
| Grants.GrantsStay | launcher/xlpod-server/src/routes.rs:79-142 | every handshake that is granted leaves its token in the store for good |
| Grants.CallersWereGranted | launcher/xlpod-server/src/routes.rs:376-427 | whoever opens a session, asks for a window or chats does so within an hour of an approved handshake that asked for `ai:provider:call` |
| Grants.ToolsWereAskedFor | launcher/xlpod-server/src/routes.rs:376-534 | every tool that ran is one of the four, its scope was asked for in the approved handshake of the token that opened its session, and any file it gave lies under a directory named there |
| Routes.AppState.Handshake | launcher/xlpod-server/src/routes.rs:79-142 | the handler stores a token exactly if it grants one, with exactly the requested scopes, touches nothing else, and is a step of the machine |
| Routes.AppState.OpenSession | launcher/xlpod-server/src/routes.rs:376-418 | the handler stores a session with the intersection of scopes and the token's roots, touches nothing else, and is a step of the machine |
| Routes.AppState.OpenTrustWindow | launcher/xlpod-server/src/routes.rs:663-691 | the handler opens the bounded window exactly if the session exists and the user agreed, with its error otherwise, whatever other window dialogs are pending, and is a run of the machine |
| Routes.AppState.PassGates | launcher/xlpod-server/src/ai/dispatch.rs:84-99 | registry, session scopes, plan-only and window decide in that order, at the time of the call |
| Routes.AppState.AskUser | launcher/xlpod-server/src/ai/dispatch.rs:100-110 | the answer is the user's answer to this very tool use, and the dialog is logged with it |
| Routes.AppState.Approve | launcher/xlpod-server/src/ai/dispatch.rs:84-114 | the use is approved under the label that applies, or refused with the error of the first gate that does or of a dialog the user declined |
| Routes.AppState.ExecuteToolUse | launcher/xlpod-server/src/ai/dispatch.rs:49-123 | the result is that of gates, user and tool in that order, under the id of the use; dialog and run are logged, time passes, nothing else changes; it is a run of the machine |
| ToolResults.ReadingVerdict | launcher/xlpod-server/src/ai/dispatch.rs:84-114 | a reading tool runs exactly if its scope is granted, plan-only or not, and asks nobody |
| ToolResults.PythonVerdict | launcher/xlpod-server/src/ai/dispatch.rs:84-114 | `run_python` runs exactly if its scope is granted, the chat is not plan-only, and a window covers it or the user says yes; otherwise which error |
| ToolResults.UnknownVerdict | launcher/xlpod-server/src/ai/dispatch.rs:84-88 | no other name runs |
| ToolResults.RefusedResult | launcher/xlpod-server/src/ai/dispatch.rs:58-77 | a refused use is answered without label and with the name of its error |
| ToolResults.FileResult | launcher/xlpod-server/src/ai/dispatch.rs:126-151 | an approved `fs_read` gives path, size and the recoverable bytes of a file under the session's roots, or the error of the read; without a path a bad request |
| ToolResults.WorkbooksResult | launcher/xlpod-server/src/ai/dispatch.rs:153-164 | an approved `excel_workbooks` gives the workbooks of the worker's reply, or none |
| ToolResults.RangeResult | launcher/xlpod-server/src/ai/dispatch.rs:165-181 | an approved `excel_range_read` asks the worker for the workbook, sheet and range of the input and gives the address and values of its reply, or their defaults |
| ToolResults.PythonResult | launcher/xlpod-server/src/ai/dispatch.rs:186-193 | an approved `run_python` runs the very code of the input and gives its result; without code it is a bad request |
| WorkerApi.ExcelAnswerIs | launcher/xlpod-server/src/python_worker.rs:174-190 | a reply that says no is the error of its code, each both ways; any other is handed on as it is |
| WorkerApi.ExecAnswerOfObject | launcher/xlpod-server/src/python_worker.rs:54-66 | an object becomes a result of five fields with their defaults if these have the right types, and an internal error otherwise |
| ToolResults.CallReachesItsFunction | launcher/xlpod-server/src/worker/python_worker.py:333-351 | what a tool asks for is what the worker's own function is called with: the code of the use, or its workbook, sheet and range; no such line kills the worker |
| Routes.AppState.RunTools | launcher/xlpod-server/src/routes.rs:508-512 | the loop answers every tool use of the turn, each at its own position under its own id, with what gates, user and worker say of it |
| Routes.AppState.FindSession | launcher/xlpod-server/src/routes.rs:424-433 | over-budget check, session clone and provider lookup in that order, each with its error, and nothing but the request itself is touched |
| Routes.AppState.StoreUserMessages | launcher/xlpod-server/src/routes.rs:437-444 | the user's messages are stored and the local list is the whole transcript after them |
| Routes.AppState.AskProvider | launcher/xlpod-server/src/routes.rs:457-470 | the provider is sent the local list; what it says goes to the list and to the store, or the chat fails with its mapped error |
| Routes.AppState.RecordCost | launcher/xlpod-server/src/routes.rs:485-499 | the turn's cost is recorded whether or not the file took it; without tool uses the chat ends with the turn |
| Routes.AppState.StoreToolMessage | launcher/xlpod-server/src/routes.rs:513-524 | the results go to the list and the store as one tool message; after the eighth turn the chat ends with an empty message |
| Routes.AppState.TakeTurn | launcher/xlpod-server/src/routes.rs:457-499 | the provider's turn is in the list, in the store and in the ledger, and ends the chat if it asks for no tool; a provider that fails ends the chat with the mapped error |
| Routes.AppState.AnswerTurn | launcher/xlpod-server/src/routes.rs:508-524 | the tool uses of a turn are answered by one tool message with the result of each, in order, in the list and in the store |
| Routes.AppState.Converse | launcher/xlpod-server/src/routes.rs:456-526 | the loop of at most eight rounds brings the chat to where `Play.PlayFrom` says, with its reply or error |
| Routes.AppState.RunChat | launcher/xlpod-server/src/routes.rs:420-534 | the whole handler is a run of the machine; its reply or error, the transcript, the ledger, the log and the time are those of `Play.PlayFrom` for the given answers of provider, user and worker, and nothing else changes; refused requests touch nothing |
| Play.PlayFrom | launcher/xlpod-server/src/routes.rs:456-534 | every dialog of a chat carries the user's own answer to that tool use, and every mutating run had that yes or an open window and no plan-only flag |
| Play.AnswerIsThatOfTheLastTurn | launcher/xlpod-server/src/routes.rs:446-534 | a chat sends at most eight lists to the provider, the first its own and each next one the one before with the provider's message and the answers to its tool uses behind; the client gets the message of the first turn without tool uses, the error of the first failing turn, or after the eighth an empty message with its stop reason and usage |
| Play.AdmissionIff | launcher/xlpod-server/src/routes.rs:424-433 | why a chat does not begin: over the cap, no such session, no such provider, each both ways and in that order |
| Play.TurnIsCharged | launcher/xlpod-server/src/routes.rs:485-499 | each turn is charged once, to the session's provider and model, with the turn's own tokens at the tariff, in the rollup and in the file if it takes it |
| Types.ToolUseAt | launcher/xlpod-server/src/routes.rs:470-483 | the tool uses of a message are its blocks of that kind, all of them, in order |
| Play.UseIsTrue | launcher/xlpod-server/src/ai/dispatch.rs:79-123 | a dialog is shown only where the gates ask for one and carries the user's answer; a mutating tool runs only on that yes or in a window that covers it at its gate |
| Safety.StoresAreSafe | launcher/xlpod-server/src/routes.rs:79-534 | whenever no handler runs, tokens and sessions in the real stores are within the rights given at the handshake, and every tool run in the log was, and has the dialog or window in front of it that its label names |
| Safety.RunVisit | launcher/xlpod-server/src/routes.rs:79-534 | a client that shakes hands, opens a session and a trust window and chats on a fresh launcher comes as far as the chat exactly if the handshake is granted and the window dialog ends within the token's hour; its answer is then the outcome of a talk of at most eight turns that begins with its own messages, and no tool changed anything without the user's own yes to that use or to a window naming the tool |
| Worker.StepKeepsInv | launcher/xlpod-server/src/python_worker.rs:97-162 | every step of callers and processes, failures, respawns and harmless drops included, keeps the pipe invariant |
| Worker.ReplyIsOwn | launcher/xlpod-server/src/python_worker.rs:97-162 | in every interleaving with harmless drops a successful call returns a reply to its own request, the only one of its generation with that id |
| Worker.FreeMeansQuiet | launcher/xlpod-server/src/python_worker.rs:97-162 | whenever the mutex is free, a live process in the slot has no unanswered request and no unread line, nor has a dead one unless a caller vanished on it, and then it holds no line that parses |
| Worker.OnlyLiveGenerationsAreRead | launcher/xlpod-server/src/python_worker.rs:132-160 | no line of a killed or dropped process is ever read; a line that can be taken for a reply is the only one and answers the request its reader waits for |
| Worker.WaitingIsHarmless | launcher/xlpod-server/src/python_worker.rs:97-162 | a run in which no future that has begun to write is dropped is harmless and orphans no process |
| Worker.DropMisleadsIff | launcher/xlpod-server/src/python_worker.rs:97-162 | wherever a future is dropped, before, during or after the write or during the read, some caller can come to get a reply that is not its own if and only if something was written and the process is alive or holds a whole reply |
| Worker.MisleadingRun | launcher/xlpod-server/src/python_worker.rs:97-162 | a run from the start in which a call is dropped while its snippet runs and the next one gets its reply |
| Worker.IdsAreUnique | launcher/xlpod-server/src/python_worker.rs:110-117 | no two requests of a generation share an id |
| PythonWorker.SpawnWorker | launcher/xlpod-server/src/python_worker.rs:199-208 | the first interpreter that starts, or none if none does |
| PythonWorker.PythonWorker.Ready | launcher/xlpod-server/src/python_worker.rs:98-103 | takes the mutex and keeps the process in the slot or starts one with ids from 1; fails with the slot empty exactly if none can be started |
| PythonWorker.PythonWorker.Send | launcher/xlpod-server/src/python_worker.rs:110-130 | numbers and delivers the request exactly if write and flush succeed, or clears the slot and fails |
| PythonWorker.PythonWorker.Receive | launcher/xlpod-server/src/python_worker.rs:132-161 | the next line, parsed or not, keeps the slot; end of file, a read error and a timeout each clear it and have their own error |
| PythonWorker.PythonWorker.Call | launcher/xlpod-server/src/python_worker.rs:97-162 | the code of a call, whatever the process does meanwhile, is a run of the machine; a success answers the caller's own method and parameters, every failure but an unparsable line leaves the slot empty, and a process left in the slot is quiet |
| WorkerMain.Serve | launcher/xlpod-server/src/worker/python_worker.py:322-364 | the loop writes one reply for each line, in order, under that line's id, with what the method's function gives for the line's own parameters, until a shutdown, a fatal line or a method that does not return |
| Envelope.UnwrapOfWrap | client/xlpod/bundle.py:190-208 | for every body, unwrapping a wrapped text gives the body up to its first `]]>` |
| Envelope.RoundTripIff | client/xlpod/bundle.py:190-208 | the round trip holds if and only if the body does not contain `]]>` (section 2.7 of XML 1.0), bodies ending in `]` included |
| Envelope.FrameIs | client/xlpod/bundle.py:190-208 | the marks and the frame around the body, written out |
| ContentTypes.ReplaceAddsOnePerClose | client/xlpod/bundle.py:314 | the replacement adds exactly one occurrence of the override per closing tag, none straddling a seam |
| ContentTypes.OverridesAfterPatch | client/xlpod/bundle.py:298-315 | a text without the override has as many afterwards as it has closing tags |
| ContentTypes.PatchIsSplice | client/xlpod/bundle.py:298-315 | with one closing tag the patch is a splice before it; deleting the splice gives the original |
| ContentTypes.PatchTextIdempotent | client/xlpod/bundle.py:305-315 | patching any text twice is patching it once |
| ContentTypes.PatchIdempotent | client/xlpod/bundle.py:298-315 | the same on the bytes of any part that is UTF-8 |
| ContentTypes.OverrideIs | client/xlpod/bundle.py:298-315 | the override, written out |
| Archive.XlsxFile.Replace | client/xlpod/bundle.py:270-295 | the loop over the entries rewrites the archive, and the file changes only if all of it succeeds |
| Archive.RewriteKeepsTheRest | client/xlpod/bundle.py:270-295 | every entry keeps its place, name and attributes, all but bundle and registry keep their bytes, and exactly one bundle entry results |
| Archive.ReadOfRewrite | client/xlpod/bundle.py:270-295 | reading any name afterwards gives the new bundle under its part name, the patched registry under its own, and the old bytes elsewhere |
| Archive.ReadsBackBundle | client/xlpod/bundle.py:219-226 | the reader finds the part that was written |
| Archive.LastWriteWins | client/xlpod/bundle.py:262-315 | writing p and then q equals writing q, entry for entry |
| Archive.RewriteFailsIff | client/xlpod/bundle.py:274-282 | the rewrite fails exactly if the registry part is not UTF-8 |
| Bundle.RoundTripSettles | client/xlpod/bundle.py:93-150 | the result of one dict round trip comes through every further one unchanged |
| Bundle.FromDictOfToDict | client/xlpod/bundle.py:93-150 | from_dict of to_dict is the normalised payload exactly for schema versions up to 1, a schema mismatch above; to_dict fails exactly for a snapshot over the cap |
| Bundle.WriteBundle | client/xlpod/bundle.py:262-295 | the writer stores the wrapped text under the cap, or fails and leaves the file as it was |
| Bundle.StoredText | client/xlpod/bundle.py:233-237 | the body the reader extracts parses to what was dumped, or not at all, exactly by whether it contains `]]>` |
| Bundle.ReadOfWritten | client/xlpod/bundle.py:219-270 | reading what was written gives the normalised payload exactly if the text is free of `]]>` and the version is at most 1; the writer's cap implies the reader's |
| Bundle.ReadBundleIff | client/xlpod/bundle.py:211-240 | no archive, no part, a part past 64 MiB, no envelope or no JSON: each its own error; otherwise what the object means |
| Bundle.FromDictReads | client/xlpod/bundle.py:111-150 | a payload comes only from an object of this schema and a version up to 1, and holds what the object holds, or nothing where that is falsy |
| Bundle.DictReads | client/xlpod/bundle.py:93-110 | the dict form of a payload, key by key |
| BundleRoutes.ReadRouteIff | launcher/xlpod-server/src/routes.rs:263-311 | the read route answers with the stored bundle exactly for a token with the scope and a path under its roots; outside every root it is forbidden, and each failure of the bundle has its own error |
| BundleRoutes.WriteRouteRefusesIff | launcher/xlpod-server/src/routes.rs:263-331 | the write route refuses a token without the scope, a path outside every root and a user who says no, each both ways |
| BundleRoutes.WriteRouteWrites | launcher/xlpod-server/src/routes.rs:332-355 | for the others it rewrites that file with what the body means, or has the matching error |
| BundleRoutes.WriteIsConfined | launcher/xlpod-server/src/routes.rs:316-355 | a failed write changes no file, a successful one exactly the requested file |
| BundleRoutes.CanonicalBodyMeansPayload | launcher/xlpod-server/src/worker/python_worker.py:262-274 | a request body in the canonical form means its payload, normalised |
| BundleRoutes.OnlyApprovedWritesChange | launcher/xlpod-server/src/routes.rs:263-355 | after any run of write requests a file is as before, or the original rewritten once with what one request sent that may write it, under approved roots and with the user's consent |
| BundleRoutes.OverwrittenIsRewritten | client/xlpod/bundle.py:262-295 | writing a payload over an earlier one is writing it over the original archive, failures included |
| Panel.LivingWorkbookPanel.OnOpen | examples/living_workbook/lite_panel.py:116-129 | opening restores the stored history if there is a workbook, and otherwise keeps the panel's own |
| Panel.LivingWorkbookPanel.RestoreBundle | examples/living_workbook/lite_panel.py:131-150 | the last stored session's messages become the history; a failed read changes nothing |
| Panel.LivingWorkbookPanel.Send | examples/living_workbook/lite_panel.py:154-174 | the user's message alone is sent and is kept whatever happens, the reply exactly if there is one; with the events shown |
| Panel.LivingWorkbookPanel.Save | examples/living_workbook/lite_panel.py:178-208 | the history goes through the write route, or the save is skipped with its reason |
| Panel.LivingWorkbookPanel.NewSession | examples/living_workbook/lite_panel.py:212-215 | a new session starts with an empty history |
| Panel.BodyMeansPayload | launcher/xlpod-server/src/worker/python_worker.py:262-274 | the request body of a save means the payload with that history |
| Panel.SavedDictRestores | examples/living_workbook/lite_panel.py:144-146 | the dict form of a saved payload names the session and restores exactly its history |
| Panel.LastSessionIsRestored | examples/living_workbook/lite_panel.py:142-150 | of several stored sessions the last one's messages are restored, whoever wrote them |
| Panel.SaveGoesThroughIff | launcher/xlpod-server/src/routes.rs:263-355 | a save goes through if and only if the token may write, the path resolves under its roots, the user agreed, the file is a zip archive whose content types, if any, are UTF-8, and the wrapped text fits into 64 MiB |
| Panel.SaveThenReopen | examples/living_workbook/lite_panel.py:131-208 | a panel that opens after a successful save restores exactly the saved history if and only if the saved text has no `]]>`; otherwise the read reports corruption |
| Panel.SaveAndReopen | examples/living_workbook/lite_panel.py:116-208 | a second panel opened on the workbook after a save that went through has the first one's history, or is empty if the saved text has `]]>` |

## Left out

- RunChat: the handler runs while the other requests rest; how requests interleave is proved of the machine in `Engine`, not of the method.
- Call: one call runs while the other calls wait for the mutex; interleavings with callers that queue and with abandoned processes are proved of the machine in `Worker`.
- Open: the internal bearer name of a session is a constant string in the code and not modelled.
- BoundIsMet: at caps that are not one more than a multiple of three it gives a run, not that no run does better by one or two micro-USD.
- ExecuteToolUse: a worker tool's answer is a parameter; that it is the reply to the tool's own request is `Worker.ReplyIsOwn`.
- WorkerRead: that the worker's import of the client package can fail is not modelled.
- RootsIffFsScope: the reserved-scope check is not modelled, because no scope is reserved.
- ToList: the `list()` of a dict-valued field, which keeps its keys, is treated as an error.
- Authorized: a request the rate limiter refuses is not a step of the machine; the limiter has its own theorems.
- Cancellation of a chat is modelled at step boundaries. A ledger append counts as made or as lost; a line torn in the middle and the line after it are not modelled.
- TimeOut: killing the child and waiting for it are one step; a future dropped in that wait leaves the slot empty like the step itself.
- Paths are lists of components; Windows prefixes, case folding and races between canonicalising and reading are not modelled.
- TLS, the certificate authority, store installation, the key chain, message boxes and the tray: foreign calls.
- HTTP transport, the wire client of the provider, the WebSocket echo, host and origin guards, and the Excel backends: plumbing. The provider is an arbitrary source of turns and errors.
- JSON numbers that are not finite, which the Python library would read and write, are not values of the model.
- What `_exec` computes: an arbitrary reply or none.
- The audit log, environment parsing and the error body tables: easy members.
- The date of a rollup: a formatted clock reading.
- `client.py`, `errors.py` and `models.py`: field copying.
