# Verified model of the Morphir workbench protocols

This project models the parts of the Morphir workbench that carry real protocols, and proves what they
promise over whole runs.

* **The observed document.** The observation numbers facts about openings, inventories and archives. The
  journal snapshots each fact, encodes it as JSON into one fixed buffer (a measuring pass, then a writing
  pass) and frames it. The document channel sends one frame at a time over a socket, under acknowledgement,
  stop and end, and every operation is charged against two budgets fixed at the start. The peer may send any
  control frame at any moment.
* **The archive of originals.** A scan of UTF-16 paths, a plan of exact capacities, a trie of portable keys,
  the bounded writer, and the life of an archive operation.
* **Clients of hosts that lose and delay.** Saving a workspace folder with reconciliation, the native
  workspace with its picker, transfers and releases, the ownership of a connected opening and its stage, and
  the two-slot scheduler of workers.
* **Two transformations.** The canonical form of provider traces, and the run-length form of observed frames
  with its expansion.

Code between two awaits, or between two callbacks, is one step of a state machine; replies, losses, refusals,
time-outs and interleavings are chosen by the environment. Each machine is a datatype with a `Step` function, an
invariant that every step keeps, theorems over every run, and exact answers: which events make it fail, end,
adopt, settle or tell, read off the events themselves and not off the handlers. Beside it a class carries the
fields of the original object, and methods that update them. Its `Valid()` is the invariant of the machine;
every public method keeps it, equates the new state with the step, and states on the fields what a caller may
rely on. What the original keeps in suspended functions is a field of the model: the unfinished calls of the
native client, the microtasks of the provider, and what running callbacks still owe to an opening, whose stage
is part of the same object. Byte buffers are arrays and their loops are loops.

Standards are used as specifications: JSON strings (section 7 of RFC 8259), UTF-8 (section 3 of RFC 3629) and
base64 (section 4 of RFC 4648).

Three claims hold with a condition, and the project states it:

* The journal budget covers every interleaving in which a record is copied at most once, as the channel does
  (`JournalRuns.CreditSuffices`). Each copy is charged, so a caller that repeats copies runs out
  (`JournalRuns.RepeatedCopiesRefused`); `JournalRuns.CopiesAfford` says exactly when.
* A record is completed more than once exactly when a cancellation of it is accepted while an earlier one still
  waits for its microtask (`RepeatedCompletions.CompletedTwice`). The core replays an identical completion
  (pkgs/morphir-engine/execution/executions/README.md, lines 38 to 40), so the record is done exactly when the
  core holds its end, unless its claim was rejected or it was released before the second completion
  (`ExecutionScheduler.OneRoute`, `ExecutionScheduler.DoneExactly`).
* `expandFrame` returns an observed text exactly when it has at most 131073 UTF-8 bytes
  (`ObservedFrames.RoundTrip`).

## Files

| file | content |
|---|---|
| Text, JsonText, JsonReader, JsonBytes | code units and bytes, the JSON encoding, a strict reader, the byte writer |
| ProductFacts, ProductObserver | facts and their field trees, the observation |
| Mirror, JournalModel, ProductJournal, JournalSafety, JournalRuns | budgets, the journal as a queue of frames, the journal on its buffers, its funding |
| ChannelModel, ChannelSafety, ChannelRuns, ChannelAnswers, PoliteRuns, DocumentChannel | the channel as steps, its invariants, theorems over runs, its exact answers, runs that close, the channel as an object |
| TraceNormalize, TraceNames, TraceNormalizer | the canonical form of traces, its names, and the traversal that computes it |
| NamespaceRule, NamespaceTrie, OriginalPaths, ArchiveWriter, ArchiveLifecycle, ArchiveOutcomes, ArchiveOperation | the archive of originals |
| ObservedFrames | run-length frames |
| WorkspaceFiles, Reconciliation, WorkspaceGrant, Base64, Downloads | saving and reading a workspace folder |
| NativeWorkspace, NativeAnswers, NativeClient | the native workspace client |
| ExecutionScheduler, RepeatedCompletions, WorkerOutcomes, ExecutionProvider | the worker scheduler |
| ConnectedOriginals, OpeningAnswers, OwnedOpening, StagingSink | the connected opening, its stage and its sink |

## Model

| member | source | states |
|---|---|---|
| JsonReader.ObjectReads | apps/morphir-workbench/browser/product-fact-journal.ts:102-109 | a strict reader returns from the written bytes exactly the keys, integers and code units of the tree, and leaves whatever follows untouched |
| JsonReader.UnitsRead | apps/morphir-workbench/browser/product-fact-journal.ts:76-94 | the same for one string: quotes, backslashes, controls, lone surrogates and astral pairs come back unit by unit |
| JsonReader.WriterInjective | apps/morphir-workbench/browser/product-fact-journal.ts:69-110 | different trees never share their bytes, even as prefixes of longer outputs |
| JsonReader.DigitsRead | apps/morphir-workbench/browser/product-fact-journal.ts:95-101 | the decimal digits of every natural are read back as that number |
| JsonReader.Utf8Reads | apps/morphir-workbench/browser/product-fact-journal.ts:85-90 | each scalar from U+0080 on is one well-formed UTF-8 sequence (section 3 of RFC 3629) and decodes to itself |
| JsonReader.EscapesExactly | apps/morphir-workbench/browser/product-fact-journal.ts:78-90 | quotes and backslashes take two bytes, controls and lone surrogates six with lower-case digits, everything else stands unescaped |
| JsonText.EncodeUnits | apps/morphir-workbench/browser/product-fact-journal.ts:76-94 | every code unit costs at least one and at most six bytes |
| JsonBytes.JsonWriter.Object | apps/morphir-workbench/browser/product-fact-journal.ts:102-109 | the writer moves its offset by the encoded length and, when it has a destination, changes only that window; the measure pass and the write pass agree |
| JsonBytes.JsonWriter.String | apps/morphir-workbench/browser/product-fact-journal.ts:76-94 | the string loop writes the quoted encoding and nothing else |
| JsonBytes.JsonWriter.Head | apps/morphir-workbench/browser/product-fact-journal.ts:78-91 | one turn of the loop writes one scalar, escape or lone surrogate and steps over as many units |
| JsonBytes.JsonWriter.Escape | apps/morphir-workbench/browser/product-fact-journal.ts:82-83 | the escape of a unit is a backslash, `u` and its four hexadecimal digits |
| JsonBytes.JsonWriter.Integer | apps/morphir-workbench/browser/product-fact-journal.ts:95-101 | counting digits first and storing them backwards gives the decimal notation |
| JsonBytes.Units | apps/morphir-workbench/browser/product-fact-journal.ts:111-115 | the checked sum of the variable text, or the overflow |
| JsonBytes.OverwriteWindow | apps/morphir-workbench/browser/product-fact-journal.ts:74-74 | what lies in range is stored, what lies beyond is dropped, and no other byte changes |
| ProductFacts.SnapshotInjective | apps/morphir-workbench/browser/product-fact-journal.ts:22-66 | the tree taken from a fact determines everything the fact says |
| ProductFacts.FactSize | apps/morphir-workbench/browser/product-fact-journal.ts:189-196 | for every fact the schema admits the encoding has at least as many bytes as text units and at most 512 plus six a unit, so the refusal behind the measure is unreachable |
| ProductFacts.TreeSize | apps/morphir-workbench/browser/product-fact-journal.ts:190-192 | the two bounds for any field tree, with the exact fixed overhead |
| ProductFacts.EndSize | apps/morphir-workbench/browser/product-fact-journal.ts:182-182 | the END record fits the same measure |
| JournalModel.FlattenPrefix | apps/morphir-workbench/browser/product-fact-journal.ts:200-206 | frames tile the used bytes: each stands where the frames before it end, and no later frame touches it |
| JournalModel.HeaderReads | apps/morphir-workbench/browser/product-fact-journal.ts:200-203 | version, kind, 64-bit sequence and length of a header read back as written |
| ChannelSafety.FrameReads | apps/morphir-workbench/browser/product-fact-journal.ts:200-206 | a whole record reads back: header, sequence, length and field tree |
| ProductJournal.ProductJournal.constructor | apps/morphir-workbench/browser/product-fact-journal.ts:151-153 | an empty journal over zeroed backing and descriptors |
| ProductJournal.ProductJournal.Receive | apps/morphir-workbench/browser/product-fact-journal.ts:165-175 | receiving on the buffers is receiving on the queue of frames, fault for fault |
| ProductJournal.ProductJournal.End | apps/morphir-workbench/browser/product-fact-journal.ts:176-184 | ending on the buffers is ending on the queue |
| ProductJournal.ProductJournal.Append | apps/morphir-workbench/browser/product-fact-journal.ts:185-207 | appending is charged before it writes and leaves every earlier frame byte for byte as it was |
| ProductJournal.ProductJournal.WriteFrame | apps/morphir-workbench/browser/product-fact-journal.ts:200-204 | the frame lands right behind the used part |
| ProductJournal.ProductJournal.Pending | apps/morphir-workbench/browser/product-fact-journal.ts:208-227 | the record handed out is the frame at the cursor, one charge for each new one |
| ProductJournal.ProductJournal.CopyInto | apps/morphir-workbench/browser/product-fact-journal.ts:214-225 | exactly the current record copies, into a destination that holds it, for a charge; what it copies are the bytes appended for it, and each refusal has its fault |
| ProductJournal.ProductJournal.Advance | apps/morphir-workbench/browser/product-fact-journal.ts:228-232 | exactly the current record is let go of, and the cursor moves by one; any other is the record fault |
| ProductJournal.ProductJournal.Close | apps/morphir-workbench/browser/product-fact-journal.ts:234-234 | closing without an end is the missing-end fault |
| JournalSafety.OneRecord | apps/morphir-workbench/browser/product-document-channel.ts:64-66 | what one record costs: 4218 + 66 F visits and 104 slots cover receiving, appending, handing out and copying it |
| JournalSafety.ReceiveSafe | apps/morphir-workbench/browser/product-fact-journal.ts:165-175 | a funded journal stays funded when it receives; each fault has its exact cause |
| JournalSafety.AppendSafe | apps/morphir-workbench/browser/product-fact-journal.ts:185-207 | an append is refused credit only when the variable text alone exceeds a frame |
| JournalSafety.EndSafe | apps/morphir-workbench/browser/product-fact-journal.ts:176-184 | ending a funded journal is never refused credit |
| JournalSafety.PendingSafe | apps/morphir-workbench/browser/product-fact-journal.ts:208-214 | handing out is always funded |
| JournalSafety.CopySafe | apps/morphir-workbench/browser/product-fact-journal.ts:214-225 | the first copy of each record is funded and fits the frame buffer |
| JournalSafety.AdvanceSafe | apps/morphir-workbench/browser/product-fact-journal.ts:228-232 | advancing keeps the funding of the records to come |
| JournalRuns.CreditSuffices | apps/morphir-workbench/browser/product-document-channel.ts:64-66 | over every interleaving that copies a record at most once, the operation that is refused credit is the receipt of an oversized fact |
| JournalRuns.FreshFit | apps/morphir-workbench/browser/product-fact-journal.ts:117-133 | the credit left after preparation is where those runs start |
| JournalRuns.CopiesAfford | apps/morphir-workbench/browser/product-fact-journal.ts:219-219 | copying one record n times succeeds exactly while n times twice its length is left; then it is the funding fault |
| JournalRuns.RepeatedCopiesRefused | apps/morphir-workbench/browser/product-fact-journal.ts:219-219 | a concrete run: one small fact copied 2500 times ends in a funding fault, so the budget does not hold for repeated copies |
| Mirror.MirrorCell.Take | apps/morphir-workbench/browser/product-document-channel.ts:77-84 | a charge is spent in full or refused, and the first refusal is final |
| ChannelSafety.StepSafe | apps/morphir-workbench/browser/product-document-channel.ts:204-296 | every callback keeps the invariants of the channel: one outstanding record, numbered frames on the wire, both budgets funded |
| ChannelSafety.RunSafe | apps/morphir-workbench/browser/product-document-channel.ts:204-296 | so does every run against any peer |
| ChannelRuns.ClosedDelivers | apps/morphir-workbench/browser/product-document-channel.ts:214-284 | a closed channel sent exactly the records of all facts received before the close, in order, once each and after the previous acknowledgement, numbered 1..n, then END n+1 |
| ChannelAnswers.ClosedWasAcknowledged | apps/morphir-workbench/browser/product-document-channel.ts:243-267 | before a channel closed, the frames its peer sent carried exactly the acknowledgements 1, 2, .., n + 1 in this order, one STOP, and nothing else |
| ChannelAnswers.SurvivorsWereTold | apps/morphir-workbench/browser/product-document-channel.ts:243-267 | whatever run leaves a channel alive, the frames it was sent are the acknowledgements of the records it let go of, in order, and one STOP if it was ended |
| ChannelAnswers.FaultExact | apps/morphir-workbench/browser/product-document-channel.ts:204-297 | a live channel fails exactly at the events that are the cause of a fault, and with that fault |
| ChannelAnswers.WrongAckFails | apps/morphir-workbench/browser/product-document-channel.ts:261-262 | bytes that acknowledge anything but the record that was sent last and not acknowledged are the ack fault, with nothing sent, recorded or let go |
| ChannelAnswers.WrongStopFails | apps/morphir-workbench/browser/product-document-channel.ts:254-255 | a STOP that does not name the last acknowledged record, or comes outside `active`, is the stop fault |
| ChannelAnswers.GarbageFails | apps/morphir-workbench/browser/product-document-channel.ts:247-251 | bytes that say neither are the control-shape fault |
| ChannelAnswers.RightAckAdvances | apps/morphir-workbench/browser/product-document-channel.ts:261-265 | the acknowledgement of that record lets exactly the next one out, or ends the records |
| ChannelAnswers.RightStopDrains | apps/morphir-workbench/browser/product-document-channel.ts:254-259 | the right STOP records the END and sends it once nothing waits, or fails for the state of the observer or for want of room |
| ChannelAnswers.FramesSay | apps/morphir-workbench/browser/product-document-channel.ts:249-253 | the accepted control frames are exactly the bytes of an acknowledgement or a STOP of a safe sequence |
| ChannelAnswers.ReceiveExact | apps/morphir-workbench/browser/product-fact-journal.ts:165-175 | a funded journal records a fact exactly when it is not ended and the fact is shaped, next in number and has room; otherwise the first of these in order is its fault |
| ChannelAnswers.EndExact | apps/morphir-workbench/browser/product-fact-journal.ts:176-184 | and the END exactly when the observer has closed and there is room |
| ChannelRuns.ClosesAt | apps/morphir-workbench/browser/product-document-channel.ts:279-286 | a channel closes only at a clean socket close behind the acknowledged END |
| ChannelRuns.RunHears | apps/morphir-workbench/browser/product-document-channel.ts:214-221 | facts are heard in order while the channel lives, all of them if it still does |
| ChannelRuns.TransportSuffices | apps/morphir-workbench/browser/product-document-channel.ts:67-68 | no run exhausts the transport mirror, whatever the peer sends, and at most R records are sent |
| ChannelRuns.ControlsBounded | apps/morphir-workbench/browser/product-document-channel.ts:243-267 | at most one control frame a record, one STOP and one offending frame are ever charged |
| ChannelRuns.TransportExact | apps/morphir-workbench/browser/product-document-channel.ts:67-68 | after R acknowledged records exactly the visits of one more control frame remain |
| PoliteRuns.PoliteCloses | apps/morphir-workbench/browser/product-document-channel.ts:214-284 | against a peer that acknowledges everything, any numbered facts that fit are all delivered and the channel closes |
| PoliteRuns.BudgetUsedUp | apps/morphir-workbench/browser/product-document-channel.ts:67-68 | with as many records as facts and the END, that run and one offending frame charge R + 2 control frames and leave no visit: the closing 96 is those two frames |
| PoliteRuns.OneLessFails | apps/morphir-workbench/browser/product-document-channel.ts:67-68 | granted one visit less, the same run ends in a refusal |
| ChannelRuns.JournalSuffices | apps/morphir-workbench/browser/product-document-channel.ts:64-66 | in every run of the channel a funding fault of the journal comes from a fact whose text exceeds a frame |
| ChannelRuns.ObservedNeverRefused | apps/morphir-workbench/browser/product-observer.ts:45-51 | fed by the observation alone, neither the sequence fault nor the shape fault of the journal is reachable |
| DocumentChannel.DocumentChannel.Receive | apps/morphir-workbench/browser/product-document-channel.ts:214-221 | the callback on the real buffers is the step of the channel |
| DocumentChannel.DocumentChannel.Pump | apps/morphir-workbench/browser/product-document-channel.ts:222-242 | hands out, copies, reads the header in the frame buffer and submits one record, or fails as the step says |
| DocumentChannel.DocumentChannel.Submit | apps/morphir-workbench/browser/product-document-channel.ts:230-239 | the bytes submitted are the record, its sequence and kind read from the buffer |
| DocumentChannel.DocumentChannel.Control | apps/morphir-workbench/browser/product-document-channel.ts:243-267 | sixteen bytes decide between STOP, acknowledgement and failure as the step does; one that names another record than the one that waits, or a STOP that names another than the last acknowledged, ends the channel and sends nothing |
| DocumentChannel.DocumentChannel.Fail | apps/morphir-workbench/browser/product-document-channel.ts:205-212 | the first failure is final, loses the journal and closes the socket |
| DocumentChannel.DocumentChannel.Attach | apps/morphir-workbench/browser/product-document-channel.ts:268-276 | one fresh connecting socket, once |
| DocumentChannel.DocumentChannel.Opened | apps/morphir-workbench/browser/product-document-channel.ts:287-289 | the agreed protocol starts the channel, any other fails it |
| DocumentChannel.DocumentChannel.Started | apps/morphir-workbench/browser/product-document-channel.ts:290-295 | the observer makes it active and pumps |
| DocumentChannel.DocumentChannel.SocketClosed | apps/morphir-workbench/browser/product-document-channel.ts:279-286 | a clean close after the acknowledged END closes; any other loses the channel |
| DocumentChannel.PrepareDocumentChannel | apps/morphir-workbench/browser/product-document-channel.ts:88-102 | refused exactly for a bootstrap that does not parse; otherwise the fresh channel of those limits |
| ProductObserver.ChronicleGrows | apps/morphir-workbench/browser/product-observer.ts:45-51 | one more published fact keeps the chronicle: numbered from one, well shaped, each on an owner introduced before |
| ProductObserver.ProductObservation.Publish | apps/morphir-workbench/browser/product-observer.ts:45-51 | the next number, once; the event limit and a raising sink end the observation, each with its cause |
| ProductObserver.ProductObservation.Allocate | apps/morphir-workbench/browser/product-observer.ts:39-43 | ordinals are never given twice and stop at the owner limit |
| ProductObserver.ProductObservation.Attach | apps/morphir-workbench/browser/product-observer.ts:53-60 | attaches once, to this document, before the start |
| ProductObserver.ProductObservation.Start | apps/morphir-workbench/browser/product-observer.ts:61-65 | an attached observation becomes active, an unattached one is never observed |
| ProductObserver.ProductObservation.Close | apps/morphir-workbench/browser/product-observer.ts:70-70 | forgets all owners; an incomplete observation stays incomplete |
| ProductObserver.ProductObservation.OpeningWasStored | apps/morphir-workbench/browser/product-observer.ts:71-76 | tells a new opening once, under a fresh ordinal |
| ProductObserver.ProductObservation.Selected | apps/morphir-workbench/browser/product-observer.ts:77-84 | tells a selection only on a stored opening |
| ProductObserver.ProductObservation.InventoryWasAdopted | apps/morphir-workbench/browser/product-observer.ts:85-92 | tells an adoption only on the opening that was stored with the same workspace, opening and attempt |
| ProductObserver.ProductObservation.ArchiveWasStored | apps/morphir-workbench/browser/product-observer.ts:93-99 | tells an archive only on an adopted inventory |
| ProductObserver.ProductObservation.Archive | apps/morphir-workbench/browser/product-observer.ts:100-104 | tells a retirement only of a stored archive |
| ProductObserver.ProductObservation.Ready | apps/morphir-workbench/browser/product-observer.ts:105-110 | tells readiness of a stored archive once |
| ProductObserver.ProductObservation.Download | apps/morphir-workbench/browser/product-observer.ts:111-122 | tells a download only of a ready archive with its own operation |
| ProductObserver.ProductObservation.WasClosed | apps/morphir-workbench/browser/product-observer.ts:129-132 | drops exactly the inventories of the closed visit, and while the observation is active keeps every other |
| TraceNormalize.NormalizeCanonical | apps/morphir-workbench/scripts/http-provider-trace.ts:168-190 | two traces normalize equally exactly when one is the other under a per-role one-to-one renaming of identities that leaves session ids alone |
| TraceNames.NormalIsRenaming | apps/morphir-workbench/scripts/http-provider-trace.ts:168-190 | the canonical form is the trace itself under a one-to-one renaming to the names of each role |
| TraceNames.NormalizeIdempotent | apps/morphir-workbench/scripts/http-provider-trace.ts:168-190 | normalizing twice is normalizing once |
| TraceNormalizer.Normalizer.Identity | apps/morphir-workbench/scripts/http-provider-trace.ts:172-180 | an identity keeps the name of its first appearance |
| TraceNormalizer.Normalizer.ProjectNode | apps/morphir-workbench/scripts/http-provider-trace.ts:181-189 | the traversal over the filled maps is the projection |
| TraceNormalizer.Normalized | apps/morphir-workbench/scripts/http-provider-trace.ts:168-190 | the imperative traversal computes the canonical form |
| NamespaceRule.AcceptanceIsPairwise | apps/morphir-workbench/browser/originals-archive.ts:82-105 | the trie accepts a description exactly when any two rows are compatible: no shared path, no file above another row, one spelling for each shared key prefix |
| NamespaceRule.AcceptanceIgnoresOrder | apps/morphir-workbench/browser/originals-archive.ts:82-105 | acceptance does not depend on the order of the rows |
| NamespaceTrie.Trie.Step | apps/morphir-workbench/browser/originals-archive.ts:87-100 | one component of the walk follows or makes the child of its key, or refuses a second spelling |
| NamespaceTrie.Trie.Walk | apps/morphir-workbench/browser/originals-archive.ts:86-100 | the walk succeeds exactly when every prefix of the row may be entered, and no node-count refusal is in its way |
| NamespaceTrie.Trie.Add | apps/morphir-workbench/browser/originals-archive.ts:82-105 | a row is refused exactly when the declared counts or the rows before it do not admit it |
| NamespaceTrie.Trie.Enter | apps/morphir-workbench/browser/originals-archive.ts:101-104 | behind the walk neither the entry count nor the entry map can refuse |
| NamespaceTrie.Describe | apps/morphir-workbench/browser/originals-archive.ts:78-110 | the whole description is accepted exactly under the pairwise rule; the refusal at line 95 is unreachable |
| OriginalPaths.SlashAppended | apps/morphir-workbench/browser/originals-archive.ts:34-34 | the slash of a directory member is one byte more |
| OriginalPaths.Scan | apps/morphir-workbench/browser/originals-archive.ts:35-46 | the index loop finds exactly the well-formed paths and counts their UTF-8 bytes, components and scalars |
| OriginalPaths.DescribeRow | apps/morphir-workbench/browser/originals-archive.ts:32-53 | one row is refused exactly when it or the totals leave their bounds, and counted otherwise |
| OriginalPaths.CountsAreSums | apps/morphir-workbench/browser/originals-archive.ts:48-52 | counting row by row is bounding and summing the whole |
| OriginalPaths.PlanInput | apps/morphir-workbench/browser/originals-archive.ts:60-71 | a plan exists exactly for a matching, bounded, non-empty description; its three capacities are the stated sums and never overflow |
| OriginalPaths.OutputCapacityExact | apps/morphir-workbench/browser/originals-archive-storage.ts:21-23 | no intermediate check of the capacity refuses more than the final sum would |
| ArchiveWriter.CheckedArchiveWriter.Write | apps/morphir-workbench/browser/originals-archive-storage.ts:80-89 | a chunk is stored whole behind the chunks before it, or the writer is faulted and nothing changes |
| ArchiveWriter.CheckedArchiveWriter.GetData | apps/morphir-workbench/browser/originals-archive-storage.ts:91-98 | the bytes written so far, once |
| ArchiveWriter.CheckedArchiveWriter.Retire | apps/morphir-workbench/browser/originals-archive-storage.ts:100-102 | the first failure stays the first |
| ArchiveWriter.CheckedArchiveWriter.Dispose | apps/morphir-workbench/browser/originals-archive-storage.ts:104-108 | drops the backing and keeps the first failure |
| ArchiveLifecycle.DeliversOnce | apps/morphir-workbench/browser/originals-archive.ts:206-247 | at most one ready and at most one failed event, and nothing after a failed one |
| ArchiveLifecycle.EndsClean | apps/morphir-workbench/browser/originals-archive.ts:182-247 | every ended operation has its snapshot cleared and its writer disposed, and none ends while encoding runs |
| ArchiveLifecycle.NoticeAfterEncoding | apps/morphir-workbench/browser/originals-archive.ts:166-177 | a retirement notice comes only behind a settled, or never scheduled, encoding |
| ArchiveLifecycle.RetirementIsTold | apps/morphir-workbench/browser/originals-archive.ts:166-177 | a queued retirement notice is lost by no step, and behind the encoding’s own steps it is the last event delivered, whatever they meet |
| ArchiveOutcomes.ReadyExactly | apps/morphir-workbench/browser/originals-archive.ts:231-243 | in every run, ready is told exactly when an encoding that nobody had retired ended well and the encoding failure exactly when it ended badly; bytes are held only behind ready |
| ArchiveOutcomes.ToldExactly | apps/morphir-workbench/browser/originals-archive.ts:166-245 | an event is told in a run exactly when one of its steps is the cause of it |
| ArchiveOutcomes.CleanEncodingIsReady | apps/morphir-workbench/browser/originals-archive.ts:231-234 | a clean encoding is ready with its bytes, unless its receiver retires or takes it |
| ArchiveOutcomes.BadEncodingFails | apps/morphir-workbench/browser/originals-archive.ts:235-243 | a bad one fails, says exactly that, and never holds bytes |
| ArchiveOutcomes.RetiringIsTold | apps/morphir-workbench/browser/originals-archive.ts:166-198 | whoever retires an operation under way, or ready and not taken, is told so as the last event |
| ArchiveOperation.ArchiveOperation.Start | apps/morphir-workbench/browser/originals-archive.ts:196-205 | an operation starts once: it schedules its encoding or, retired before, has its notice queued; a second start changes nothing and no start delivers anything |
| ArchiveOperation.ArchiveOperation.Retire | apps/morphir-workbench/browser/originals-archive.ts:182-195 | retiring on the object is the step, from every state |
| ArchiveOperation.ArchiveOperation.Begin | apps/morphir-workbench/browser/originals-archive.ts:209-221 | the encoding begins with a writer of the planned size, or fails for allocation and tells exactly that |
| ArchiveOperation.ArchiveOperation.Finish | apps/morphir-workbench/browser/originals-archive.ts:231-245 | a clean encoding is told ready and held as far as its receiver lets it, a bad one is told failed and holds nothing, a retired one tells nothing; what the encoding owned is released |
| ArchiveOperation.ArchiveOperation.RequestDownload | apps/morphir-workbench/browser/originals-archive.ts:257-265 | the bytes are consumed before any callback can ask again |
| ArchiveOperation.ArchiveOperation.SettledNotice | apps/morphir-workbench/browser/originals-archive.ts:172-176 | the notice closes the delivery first |
| ObservedFrames.ObservedFrame | apps/morphir-workbench/browser/artifact-client-trace.ts:51-63 | the segments are the text cut at its maximal ASCII runs of 64 and more, never inside a surrogate pair |
| ObservedFrames.CountRun | apps/morphir-workbench/browser/artifact-client-trace.ts:53-55 | how far a unit repeats |
| ObservedFrames.ExpandFrame | apps/morphir-workbench/browser/artifact-client-trace.ts:64-80 | expands to the concatenation, refused exactly for a malformed or oversized recipe |
| ObservedFrames.RoundTrip | apps/morphir-workbench/browser/artifact-client-trace.ts:51-80 | expanding the observed frame gives back the text exactly when it has at most 131073 UTF-8 bytes; the guards never refuse such a frame |
| WorkspaceFiles.IdleAgrees | apps/morphir-workbench/browser/workspace-files.ts:100-140 | whenever no save runs and none failed, the revision is the host’s, the host holds the bytes of the last resolved save and committed nothing else |
| WorkspaceFiles.UnblockedAgrees | apps/morphir-workbench/browser/workspace-files.ts:133-136 | an unblocked grant has no failed save |
| WorkspaceFiles.AtMostOneUnacknowledged | apps/morphir-workbench/browser/workspace-files.ts:114-128 | whatever is lost or late, the host is at most the one running or failed save ahead |
| WorkspaceFiles.CommitsOnce | apps/morphir-workbench/browser/workspace-files.ts:116-126 | no two commits are sent for one sequence |
| WorkspaceFiles.FailureIsFinal | apps/morphir-workbench/browser/workspace-files.ts:105-106 | after a failed save no request is sent on the grant any more |
| WorkspaceFiles.StepKeeps | apps/morphir-workbench/browser/workspace-files.ts:105-138 | every reply, loss, refusal and caller action keeps the protocol invariant |
| WorkspaceFiles.UploadKeeps | apps/morphir-workbench/browser/workspace-files.ts:111-116 | the next chunk finds the host with exactly the bytes before it, and the commit finds it with all of them |
| WorkspaceFiles.ConfirmKeeps | apps/morphir-workbench/browser/workspace-files.ts:127-131 | a confirmed commit leaves revision and history in step with the host |
| WorkspaceFiles.RunKeeps | apps/morphir-workbench/browser/workspace-files.ts:105-138 | so does every run |
| WorkspaceFiles.UploadCompletes | apps/morphir-workbench/browser/workspace-files.ts:111-131 | an undisturbed upload of any size ends with its content committed |
| WorkspaceFiles.UndisturbedSaveResolves | apps/morphir-workbench/browser/workspace-files.ts:105-132 | an undisturbed queued save resolves and the host holds it |
| Reconciliation.LostAnswerIsReconciled | apps/morphir-workbench/browser/workspace-files.ts:114-131 | a commit that landed although its acknowledgement was lost is found by the status: the save resolves and the host’s revision and content are the grant’s, also when the release is lost too |
| Reconciliation.LostCommitFails | apps/morphir-workbench/browser/workspace-files.ts:117-123 | a commit that was lost itself is denied by the status: the grant is blocked and the host is where it was |
| Reconciliation.StatusTells | apps/morphir-workbench/browser/workspace-files.ts:117-131 | whatever happened before, a status that is served and received settles the save exactly as the host has it |
| Reconciliation.UnansweredCommitIsAsked | apps/morphir-workbench/browser/workspace-files.ts:115-119 | a commit without an acknowledgement is neither repeated nor given up: the host is asked for that very sequence |
| Reconciliation.StopsExactly | apps/morphir-workbench/browser/workspace-files.ts:105-136 | a save fails exactly when a request before its commit comes to nothing, or when the status after an unanswered commit does or denies it; only this and a revocation block the grant |
| Reconciliation.ResolvesExactly | apps/morphir-workbench/browser/workspace-files.ts:124-131 | a save resolves exactly at the end of its release, whatever that brings |
| Reconciliation.SaveSurvivesLostAnswer | apps/morphir-workbench/browser/workspace-files.ts:105-132 | a queued save of any size resolves although the acknowledgement of its commit is lost |
| WorkspaceGrant.GrantRecord.Submit | apps/morphir-workbench/browser/workspace-files.ts:100-104 | captures the content behind the saves before it and leaves the running save its own; an idle grant still agrees with its host |
| WorkspaceGrant.GrantRecord.Next | apps/morphir-workbench/browser/workspace-files.ts:105-109 | the oldest waiting save starts under a sequence never committed nor sent to commit; a blocked or failed grant sends nothing |
| WorkspaceGrant.GrantRecord.Reply | apps/morphir-workbench/browser/workspace-files.ts:109-136 | a save that ends leaves revision, history and content in step with the host; one that fails leaves the grant blocked with at most this save unacknowledged; an unacknowledged commit is asked for by its status, which alone decides the save; a commit is sent for a sequence only once |
| WorkspaceGrant.GrantRecord.Revoke | apps/morphir-workbench/browser/workspace-files.ts:144-144 | a revoked grant is blocked while its running save goes on, and stays in step with its host |
| Base64.RoundTrip | apps/morphir-workbench/browser/workspace-files.ts:12-12 | decoding gives back what was encoded, and only an incomplete last triple is padded |
| Base64.DecodeJoins | apps/morphir-workbench/browser/native-workspace.ts:117-119 | text without padding may stand before any other: decoding distributes |
| Base64.DecodeLength | apps/morphir-workbench/browser/native-workspace.ts:113-114 | the decoded length is three quarters of the text less its padding |
| Downloads.UnpaddedChunk | apps/morphir-workbench/browser/native-workspace.ts:114-116 | every chunk but the last is forced to be unpadded by the length check |
| Downloads.JoinedDecodes | apps/morphir-workbench/browser/native-workspace.ts:106-119 | the joined text of the accepted chunks decodes to their bytes in order, as many as announced |
| Downloads.ServedIsRead | apps/morphir-workbench/browser/native-workspace.ts:106-119 | a host that serves any bytes in chunks is read completely, as the base64 of the whole |
| Downloads.ReadModel | apps/morphir-workbench/browser/native-workspace.ts:106-119 | the loop ends and yields that text, or none when a chunk is missing or does not fit |
| Downloads.RawServedAssembles | apps/morphir-workbench/browser/workspace-files.ts:80-88 | the inventory read assembles exactly the served bytes |
| Downloads.ReadInventory | apps/morphir-workbench/browser/workspace-files.ts:80-88 | the buffer is filled with the chunks in order, or the read fails |
| NativeWorkspace.NeverBoth | apps/morphir-workbench/browser/native-workspace.ts:50-89 | a picker and a model transfer are never active together, nor is either twice |
| NativeWorkspace.TransfersInOrder | apps/morphir-workbench/browser/native-workspace.ts:90-120 | sequences rise; an open is sent only behind the confirmed release of every earlier sequence, reads only within their transfer, a release only behind it |
| NativeWorkspace.PendingIsAll | apps/morphir-workbench/browser/native-workspace.ts:98-99 | the pending release is the latest sequence, and every other one is confirmed |
| NativeWorkspace.ClearedByItsOwnRelease | apps/morphir-workbench/browser/native-workspace.ts:43-49 | the pending release is cleared only by the confirmation of a release asked for that sequence |
| NativeWorkspace.EpochFences | apps/morphir-workbench/browser/native-workspace.ts:40-42 | a cancel, a disposal and any choose or open that is let in fence all calls before: however late they go on, they adopt no folder, open no transfer, raise no picker and return no content |
| NativeAnswers.AdoptsExactly | apps/morphir-workbench/browser/native-workspace.ts:58-75 | folder and projects change exactly when a current choose ends with an offer, and then both are the offer’s |
| NativeAnswers.UndisturbedOpenInspects | apps/morphir-workbench/browser/native-workspace.ts:85-121 | an open that nobody disturbs clears what was pending, asks for every chunk in order, releases its transfer and reaches the inspection of what it read |
| NativeAnswers.UndisturbedChooseAdopts | apps/morphir-workbench/browser/native-workspace.ts:51-80 | a choose that nobody disturbs ends with the folder that was picked |
| NativeAnswers.GoodOpenGoesOn | apps/morphir-workbench/browser/native-workspace.ts:90-124 | a good reply takes an open to its next await: the transfer, each read, the release, the inspection, the check |
| NativeAnswers.OtherOpenLeaves | apps/morphir-workbench/browser/native-workspace.ts:85-121 | any other reply ends it: a transfer under way is settled and released first |
| NativeAnswers.ChooseGoes | apps/morphir-workbench/browser/native-workspace.ts:51-84 | a choose goes from release to check to picker exactly by good replies; a folder picked too late is revoked, and every other end takes the picker down |
| NativeWorkspace.StepKeeps | apps/morphir-workbench/browser/native-workspace.ts:43-136 | every interleaving of choose, open and cancel keeps the flags, epochs and releases in order |
| NativeWorkspace.RaiseChoosing | apps/morphir-workbench/browser/native-workspace.ts:52-55 | a choose that is still current when it raises its flag found nothing active and nothing started since |
| NativeWorkspace.OpenLedger | apps/morphir-workbench/browser/native-workspace.ts:95-102 | the next transfer opens only with nothing pending |
| NativeWorkspace.AskLedger | apps/morphir-workbench/browser/native-workspace.ts:43-46 | a release goes out only for a transfer that has settled |
| NativeClient.NativeWorkspaceClient.Choose | apps/morphir-workbench/browser/native-workspace.ts:50-53 | refused, with nothing changed, while anything is active; otherwise every call before it is fenced |
| NativeClient.NativeWorkspaceClient.OpenProject | apps/morphir-workbench/browser/native-workspace.ts:85-95 | refused, with nothing changed, while anything is active; otherwise it is the one open and every call before it is fenced |
| NativeClient.NativeWorkspaceClient.Cancel | apps/morphir-workbench/browser/native-workspace.ts:129-136 | fences every call before it and leaves the transfer of a running open to that open |
| NativeClient.NativeWorkspaceClient.Resume | apps/morphir-workbench/browser/native-workspace.ts:43-136 | a settled await keeps picker and transfer apart, opens a transfer only with every earlier one released, clears the pending release only by its own confirmation, adopts folder and projects together or not at all, and lets a fenced call do nothing but clean up |
| ExecutionScheduler.ActiveIsBounded | apps/morphir-workbench/scripts/execution-provider.ts:100-135 | the count of active workers is exact and at most two |
| ExecutionScheduler.StartsInOrder | apps/morphir-workbench/scripts/execution-provider.ts:130-135 | starts follow the order of submission, past nothing that still waits |
| ExecutionScheduler.NoIdleSlot | apps/morphir-workbench/scripts/execution-provider.ts:130-135 | with a record waiting a slot is free only while a drain is scheduled |
| ExecutionScheduler.OneRoute | apps/morphir-workbench/scripts/execution-provider.ts:61-70 | no two routes ever meet on a record, and the only route taken twice is the cancellation of a queued record |
| ExecutionScheduler.CompletedAfterExit | apps/morphir-workbench/scripts/execution-provider.ts:78-99 | a record that had a worker is completed exactly when the worker exited and the slot is free |
| ExecutionScheduler.EvidenceSurvives | apps/morphir-workbench/scripts/execution-provider.ts:87-95 | captured evidence is what the core receives; cancellation, deadline, crash and close never replace it |
| ExecutionScheduler.StepFinal | apps/morphir-workbench/scripts/execution-provider.ts:61-70 | a completion is final |
| ExecutionScheduler.DoneExactly | apps/morphir-workbench/scripts/execution-provider.ts:61-70 | however often a record is cancelled, it is done exactly when the core holds its end, unless its claim was rejected or it was released before |
| RepeatedCompletions.CompletedTwice | apps/morphir-workbench/scripts/execution-provider.ts:166-175 | a record is completed more than once exactly when a cancellation is accepted while an earlier one of the same record still waits |
| RepeatedCompletions.StepDue | apps/morphir-workbench/scripts/execution-provider.ts:61-198 | attempts and waiting cancellations of a record together grow past one in no step but a repeated cancellation, and grow by one in each |
| WorkerOutcomes.WorkersEndAsTheyLived | apps/morphir-workbench/scripts/execution-provider.ts:71-99 | for every run, what the core holds for a worker that is over is its first evidence, or a selection failure if it first answered for another plan; else cancelled exactly if the first stop asked of it was a cancel or close, expired exactly if it was the deadline, and otherwise no result or a crash by its exit code; cleanup failed exactly if the termination did, or if it exited badly, unasked, behind its evidence |
| WorkerOutcomes.OthersAreCancelled | apps/morphir-workbench/scripts/execution-provider.ts:100-129 | a record that ended without a worker failed to start if its spawn threw, and was cancelled otherwise |
| WorkerOutcomes.RejectedClaimsFail | apps/morphir-workbench/scripts/execution-provider.ts:100-110 | a started record whose claim the core rejected has failed |
| ExecutionScheduler.StepKeeps | apps/morphir-workbench/scripts/execution-provider.ts:61-198 | every command and callback keeps slots, queue order and completion routes |
| ExecutionProvider.Provider.DrainQueue | apps/morphir-workbench/scripts/execution-provider.ts:130-135 | the loop is the recursive drain |
| ExecutionScheduler.StartKeeps | apps/morphir-workbench/scripts/execution-provider.ts:100-129 | a start takes a slot only with a worker; a rejected claim, a throwing spawn and a throwing post each leave slots, order and routes as they must be |
| ExecutionScheduler.CompleteTerms | apps/morphir-workbench/scripts/execution-provider.ts:61-70 | a completion, the fallback for invalid evidence and a replay leave the record marked as the core has it |
| ExecutionProvider.Provider.Finish | apps/morphir-workbench/scripts/execution-provider.ts:82-98 | the core learns what the first evidence, the first stop or the exit code say, the slot is freed and the queue drained |
| ExecutionProvider.Provider.Exited | apps/morphir-workbench/scripts/execution-provider.ts:78-86 | an exit concludes at once, or after the termination it awaits |
| ExecutionProvider.Provider.CancelExecution | apps/morphir-workbench/scripts/execution-provider.ts:167-175 | stops a worker, or takes the record from the queue and completes it in a microtask |
| ExecutionProvider.Provider.Remove | apps/morphir-workbench/scripts/execution-provider.ts:172-172 | only the first occurrence leaves the queue, the order of the rest stays |
| ExecutionProvider.Provider.Receive | apps/morphir-workbench/scripts/execution-provider.ts:114-120 | the first evidence of a worker is captured for good, and neither slots nor queue nor completions change |
| ExecutionScheduler.EvidenceStays | apps/morphir-workbench/scripts/execution-provider.ts:71-77 | no cancellation, deadline or error touches captured evidence or the slot of its worker |
| ExecutionProvider.Provider.CloseAll | apps/morphir-workbench/scripts/execution-provider.ts:192-195 | every queued record is cancelled and every listed worker told to stop |
| ConnectedOriginals.SessionClosedOnce | apps/morphir-workbench/browser/connected-originals.ts:214-256 | a session obtained is closed once at most, and exactly once when the opening ended and no close is outstanding |
| ConnectedOriginals.AdoptedOnce | apps/morphir-workbench/browser/connected-originals.ts:380-384 | the payload is adopted at most once |
| ConnectedOriginals.StoredNeedsWholePath | apps/morphir-workbench/browser/connected-originals.ts:414-418 | `stored` settles exactly for a stage taken, held, enqueued, started, inspected and stored, or retained originals taken and stored |
| ConnectedOriginals.CancelledOnce | apps/morphir-workbench/browser/connected-originals.ts:419-428 | the cancel is called once at most, exactly for an inspection cut short between its hold and its result |
| ConnectedOriginals.EndTogether | apps/morphir-workbench/browser/connected-originals.ts:214-227 | with nothing outstanding a stage is over exactly when its opening is terminal; a model opening is settled exactly then |
| ConnectedOriginals.DisposalEnds | apps/morphir-workbench/browser/connected-originals.ts:214-227 | the mutual disposal of opening and stage ends after a bounded number of steps |
| ConnectedOriginals.StepKeeps | apps/morphir-workbench/browser/connected-originals.ts:188-333 | every call, reply and callback keeps one owner for session, payload and cancel |
| ConnectedOriginals.StageOverKeeps | apps/morphir-workbench/browser/connected-originals.ts:419-428 | disposing a stage from either side leaves both ends consistent |
| ConnectedOriginals.DueDecreases | apps/morphir-workbench/browser/connected-originals.ts:214-227 | each outstanding callback or disposal brings the end nearer |
| OpeningAnswers.StageIsReceived | apps/morphir-workbench/browser/connected-originals.ts:288-333 | in every run the stage is of the kind the receipt makes: for a model, one to inspect exactly behind a verified projection and retained originals exactly behind an unavailable one; inspected only behind a verified one |
| OpeningAnswers.SettlementIsTheEnding | apps/morphir-workbench/browser/connected-originals.ts:187-227 | in every run the settlement of a model opening is the way it first ended: stored, failed, or retired |
| OpeningAnswers.EndsExactly | apps/morphir-workbench/browser/connected-originals.ts:188-333 | a live opening fails exactly when a failure is reported while it is current, and retires exactly at a disposal, a check that fails, a store, or the end of a callback that lets it go |
| OpeningAnswers.MovesExactly | apps/morphir-workbench/browser/connected-originals.ts:236-333 | an opening that goes on stands exactly where the discovery, the choice, the projects or the receipt put it |
| OpeningAnswers.StepEffects | apps/morphir-workbench/browser/connected-originals.ts:360-428 | every step passes exactly its milestone, keeps the kind of the stage and settles as it ends |
| OpeningAnswers.TellsExactly | apps/morphir-workbench/browser/connected-originals.ts:200-213 | the caller is told of sources, projects, a stage and a failure, once each, and of nothing else |
| OwnedOpening.Opening.Dispose | apps/morphir-workbench/browser/connected-originals.ts:225-227 | a disposed opening is terminal, its session is closed or owed to be, and a model opening is settled |
| OwnedOpening.Opening.Failing | apps/morphir-workbench/browser/connected-originals.ts:228-234 | an opening that fails is terminal with its session closed or owed to be; one that is over already keeps its settlement |
| OwnedOpening.Opening.DisposeStage | apps/morphir-workbench/browser/connected-originals.ts:419-428 | a disposed stage is over, owes a cancel exactly when an inspection was cut short, and adopts nothing any more |
| OwnedOpening.Opening.OnDiscovered | apps/morphir-workbench/browser/connected-originals.ts:245-257 | a session that comes too late is owed its one close |
| OwnedOpening.Opening.OnReceived | apps/morphir-workbench/browser/connected-originals.ts:288-333 | a stage appears once, untouched, and of the kind that the opening and the receipt make |
| OwnedOpening.Opening.OnTake | apps/morphir-workbench/browser/connected-originals.ts:380-385 | the payload is adopted at most once, and only from a stage that was never taken |
| OwnedOpening.Opening.OnHold | apps/morphir-workbench/browser/connected-originals.ts:386-390 | an inspection is held only once its originals were taken and adopted |
| OwnedOpening.Opening.OnExecute | apps/morphir-workbench/browser/connected-originals.ts:391-398 | it is enqueued only from being held |
| OwnedOpening.Opening.OnInspect | apps/morphir-workbench/browser/connected-originals.ts:399-404 | and started only from being enqueued |
| OwnedOpening.Opening.OnSettle | apps/morphir-workbench/browser/connected-originals.ts:415-418 | `stored` settles only behind all six milestones, with no cancel called or owed |
| OwnedOpening.Opening.OnSettleOriginals | apps/morphir-workbench/browser/connected-originals.ts:183-187 | `stored` settles only for retained originals that were adopted |
| StagingSink.FileIsKept | apps/morphir-workbench/browser/connected-originals.ts:492-506 | a file is kept exactly when its chunks add up to its announced length, and then byte for byte, however it is cut |
| StagingSink.PayloadIsInventory | apps/morphir-workbench/browser/connected-originals.ts:488-511 | a transfer completes exactly when every file arrived in full; the payload is then all files and directories in inventory order |
| StagingSink.Staging.TakeInventory | apps/morphir-workbench/browser/connected-originals.ts:488-491 | the directories in order |
| StagingSink.Staging.BeginFile | apps/morphir-workbench/browser/connected-originals.ts:492-496 | an empty buffer of the announced length, for a file entry only |
| StagingSink.Staging.WriteBytes | apps/morphir-workbench/browser/connected-originals.ts:497-501 | a chunk goes whole behind the ones before it or is refused |
| StagingSink.Staging.EndFile | apps/morphir-workbench/browser/connected-originals.ts:502-506 | a full buffer becomes a file |
| StagingSink.Staging.Complete | apps/morphir-workbench/browser/connected-originals.ts:507-511 | the payload, when nothing is being written and the counts agree |

## Left out

- Getters and prototypes: reading a fact is taking its value; a getter that throws or re-enters while a fact is read is not modelled, nor is a `reserve` callback that re-enters the journal.
- Allocation: buffers are always allocated; the allocation faults of the journal, the archive plan and the writer's own checks of its backing are not modelled. An archive writer that cannot be created is a nondeterministic outcome.
- Floating point: `Math.floor(value / 10)` on integers below 2^53 is integer division, and masks and shifts are written as arithmetic on the same ranges.
- Real time: deadlines and time-outs are steps the environment may take.
- The compiled cores behind `Core` functions, host replies and their decoders: a reply is valid and typed, or broken. `parseRelativeArtifactPath`, `portableArtifactKey` and `originalPath` are one abstract function from a component to its key.
- The ZIP encoder: an arbitrary sequence of chunks into the writer; whether a ZIP stream fits the planned capacity is not claimed. The copying of file bytes into the archive snapshot (lines 111 to 123) is not modelled.
- The connected and opening controls of the document channel (lines 134 to 203) are not modelled; they touch neither the wire nor the budgets.
- ProductObserver.ProductObservation.Download: `requestDownload` of the observation, which wraps a call between two publications, is its two publications.
- TraceNormalize.NormalizeCanonical: the trace that is normalized is any JSON tree of ordered members; the run that observes it is not modelled, and keys that JavaScript orders as array indices keep their place.
- OriginalPaths.PlanInput: JavaScript numbers for lengths are integers; a length that is not an integer is refused like a negative one.
- WorkspaceFiles.IdleAgrees: the host is one that begins and commits each sequence once, answers honestly and may refuse or lose anything; the session, the picker, the snapshot read and `dispose` are not part of this machine, and what `workspace.revoke` does at the host is not modelled. An exhausted sequence refuses a save without blocking the grant, as the code does.
- Downloads.ReadInventory: the text decoding and validation of an inventory behind the read are not modelled, nor is forgiving base64; a chunk arrives as the bytes it decodes to.
- NativeWorkspace.TransfersInOrder: checks of names, formats and identifiers in replies are folded into a broken reply; the diagnostics and results returned to callers are not modelled.
- ExecutionScheduler.OneRoute: what a start meets (a rejected claim, a throwing spawn or post) is fixed when the record is submitted, which chooses the same outcomes; binding a session, decoding and the second attempt of a handler that throws are not modelled.
- ConnectedOriginals.StepKeeps: the opening and its stage are one state, because each holds the other only through closures; what stands behind a running callback may run at any later point, which includes every re-entrant order. Observed choices, names and identities of sources, the promise of `whenInspectionPending`, and a `close` of a session that throws are not modelled.
- StagingSink.PayloadIsInventory: the hashing and verification that drive the sink are not part of this model.
- Capability policies, request validation, adapters, servers and user interface would add only single-branch members.
