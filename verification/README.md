# A verified model of the Neural OS tooling

The kernel of Neural OS is fed by Python tools: a reference runtime for its language model, writers and readers of its
model files, a shared log through which its agents talk, and builders and checkers of its boot images. This project
models the logic of those tools in Dafny 4.11 and proves what they are meant to guarantee, for all inputs and all runs.
`dafny verify dfyconfig.toml` checks all of it.

| part | modules |
|---|---|
| incremental inference with a key/value cache | `KvCache` |
| the grammar machine that constrains generation to JSON | `JsonMachine`, `JsonGrammar`, `JsonLanguage`, `JsonFinish`, `JsonTokens` |
| byte-pair tokenizer and its binary form | `Bpe`, `Bpb1`, `Bpb1Agreement` |
| shared log: lock, id allocation, whole runs, watcher | `ForumLock`, `ForumPost`, `ForumRun`, `ForumWatch`, `ForumAlerts` |
| model containers: trits, records, BFZ, .bitnet v6 and v7 | `Trits`, `Sections`, `Header`, `Bfz`, `V6File` |
| Q6_K weights: bit layout, decoders, error | `Q6kLayout`, `Q6kBlocks`, `Q6kError` |
| ternary rows and adaptive halting of the recurrent student | `TernaryRows`, `ActHalting` |
| boot image: partition table, FAT32 members, identity | `Gpt`, `GptReaders`, `Fat32`, `MemberId` |
| shared helpers | `Basics`, `Wire`, `SmallBytes` |

Where the source updates things step by step, the model does too: classes for the cache session, the token machine, the
body and file writers, the read cursor, the image file, the watcher and the alert book; arrays for packing and decoding;
methods with loops elsewhere. Each such method is proved equal to a function of its inputs or of the old state, and the
theorems are about those functions. Library code the tools call (matrix kernels, JSON, UTF-8, hashes, checksums) enters
as function parameters; what a theorem needs of them is a named predicate in its `requires`.

Three conventions recur. A reader that can fail returns a `Result`. A fact guarded by the always-true predicate `Peek`
is kept out of a proof until the proof mentions it. `At(data, o, x)` says that the bytes `x` stand in `data` at
offset `o`.

## Model

| member | source | states |
|---|---|---|
| `KvCache.Generate` | tools/chat_v6.py:484-559 | greedy generation over per-layer caches: every emitted token is the one a full prefill from empty caches over the prompt and the tokens before it would pick; it stops at the end token or the limit; the caches left behind are those of a full prefill over all that was fed |
| `KvCache.PrefillIsRowwise` | tools/chat_v6.py:371-459 | the batched, masked prefill computes the recurrence written for one position at a time without batch, cache or mask |
| `KvCache.PrefillIsCausal` | tools/chat_v6.py:371-459 | what a prefill computes for the first positions does not depend on later tokens |
| `KvCache.LayerStepIsPrefill` | tools/chat_v6.py:371-459 | one layer step on a cache over the first positions lands on the rows, keys and values of the prefill over all tokens |
| `KvCache.CacheAppend` | tools/chat_v6.py:408-431 | keys and values of a later batch, appended to those of the earlier one, are those of one batch over everything |
| `KvCache.MaskedAttendIsPrefix` | tools/chat_v6.py:432-445 | attention under the causal mask at a position is plain attention over the keys and values up to it |
| `KvCache.RotateRowsPointwise` | tools/chat_v6.py:383-407 | the split of a batch at the end of the rotation table rotates each row by its own position, on both sides of the cap |
| `KvCache.LayerIsCausal` | tools/chat_v6.py:371-459 | a layer over the first rows gives the first rows of the layer over all of them |
| `KvCache.Session.ForwardLayer` | tools/chat_v6.py:371-459 | appends the batch's keys and values to the layer's cache and attends over all of them; other layers keep theirs |
| `KvCache.Session.StepLayer` | tools/chat_v6.py:371-459 | takes one layer's cache from the tokens fed before to all tokens, and nothing else |
| `KvCache.Session.Forward` | tools/chat_v6.py:503-505 | feeding the tokens after `start` leaves every layer with the cache of a full prefill and returns its rows |
| `KvCache.Session.Prefill` | tools/chat_v6.py:490-505 | the prompt fed into empty caches gives the last row of the full prefill |
| `KvCache.Session.Feed` | tools/chat_v6.py:555-557 | one more token gives the last row of the full prefill over everything |
| `JsonMachine.StackIsOpenBrackets` | tools/chat_v6.py:873-971 | in every run over offered texts the stack is the list of brackets open outside strings, closers match, keys and colons sit inside objects, and completion happens exactly when the outermost bracket closes |
| `JsonMachine.StepAgrees` | tools/chat_v6.py:918-971 | one step of the machine and one step of an independent bracket scan agree |
| `JsonMachine.UnfinishedCanFinish` | tools/chat_v6.py:873-971 | every reachable unfinished state is completed by at most stack depth plus four texts, each offered in its turn |
| `JsonGrammar.TreePasses` | tools/chat_v6.py:873-971 | for every tree of any depth each text of its print is offered in its turn, and a nested value restores the stack it started with |
| `JsonGrammar.DocumentsAreAccepted` | tools/chat_v6.py:873-971 | every document is a run over offered texts that ends complete |
| `JsonLanguage.NextReads` | tools/chat_v6.py:918-971 | each offered text extends what the position has read by exactly that text |
| `JsonLanguage.LanguageIsDocuments` | tools/chat_v6.py:873-971 | the exact language: a sequence of texts is an offered, completing run if and only if it is the print of a document |
| `JsonTokens.TokenMachine.constructor` | tools/chat_v6.py:801-811 | a new machine stands at the start, with the id sets of its vocabulary |
| `JsonTokens.TokenMachine.FileEntry` | tools/chat_v6.py:837-867 | files one vocabulary entry under its class |
| `JsonTokens.TokenMachine.GetAllowedTokens` | tools/chat_v6.py:873-907 | the offered ids are those the state allows |
| `JsonTokens.TokenMachine.CloseBracket` | tools/chat_v6.py:909-916 | closing a bracket, as the text machine does |
| `JsonTokens.TokenMachine.Advance` | tools/chat_v6.py:918-971 | advancing on an id is the step of the text machine on its text |
| `JsonTokens.OfferedIdSpellsOfferedText` | tools/chat_v6.py:837-907 | every offered id spells a text the machine offers |
| `JsonTokens.CompletedIdsAreDocuments` | tools/chat_v6.py:793-974 | whatever is generated from offered ids and completes is the print of a document |
| `JsonTokens.DocumentsCanBeGenerated` | tools/chat_v6.py:793-974 | every document the vocabulary can spell can be generated from offered ids |
| `JsonFinish.SuppliedCanFinish` | tools/chat_v6.py:873-971 | when the texts at hand have what it takes, every reachable unfinished state is completed by at most stack depth plus four of them, or six without an opening brace |
| `JsonFinish.NeverStuckIff` | tools/chat_v6.py:873-971 | for every set of texts: no reachable state is a dead end if and only if there is a closer for each opener, a comma once a bare value can be written, a colon once a key can be written, and some composite to write |
| `JsonFinish.KeyWithoutColonIsStuck` | tools/chat_v6.py:873-971 | with a brace and a quote but no colon, a finished key is reached that nothing can complete |
| `JsonTokens.UnfinishedIdsCanFinish` | tools/chat_v6.py:793-974 | under that condition generation over ids completes from every reachable state, within the same bound |
| `JsonTokens.NeverStuckIff` | tools/chat_v6.py:793-974 | for every vocabulary with distinct ids: generation never gets stuck if and only if the texts of its ids meet that condition |
| `Bpe.Merge` | tools/chat_v6.py:1074-1083 | one merge pass over the word, left to right without overlap |
| `Bpe.MergeKeepsText` | tools/chat_v6.py:1074-1083 | a pass loses and invents no text |
| `Bpe.MergeShortens` | tools/chat_v6.py:1065-1086 | a pass over a word that holds the pair makes it shorter: the loop ends |
| `Bpe.MergeRemovesPair` | tools/chat_v6.py:1074-1083 | after a pass no occurrence of the chosen pair is left |
| `Bpe.LowestPair` | tools/chat_v6.py:1069-1073 | whatever order the set of pairs is searched in, the pair found is ranked whenever any is, and none is ranked lower |
| `Bpe.ReduceIsFinal` | tools/chat_v6.py:1065-1086 | the merged word spells the same text and no adjacent pair of it is ranked |
| `Bpe.RanksAreDistinct` | tools/chat_v6.py:1003-1006 | ranks numbered from a merge list are distinct, a repeated pair keeping its last number |
| `Bpe.Tokenize` | tools/chat_v6.py:1065-1086 | for ranks built from any merge list, the loop returns the ids of the fully merged word |
| `Bpe.AlphabetIsInvertible` | tools/chat_v6.py:978-988 | the byte alphabet is one to one and only the blank maps to the space mark |
| `Bpe.BytesToUnicode` | tools/chat_v6.py:978-988 | the loop that hands out fresh code points builds that alphabet |
| `Bpe.DecodePiece` | tools/chat_v6.py:1103-1111 | decoding one piece into buffer and text renders like decoding it together with what follows |
| `Bpe.Decode` | tools/chat_v6.py:1087-1113 | the loop over ids renders the characters they show |
| `Bpe.DecodeInvertsEncode` | tools/chat_v6.py:1065-1113 | with an invertible vocabulary that covers the symbols, decoding the ids of any list of pieces gives the text of their bytes |
| `Bpb1.BuildId2` | tools/export_bpe_bin.py:54-60 | the id table of vocabulary and added tokens, later entries winning |
| `Bpb1.LayOut` | tools/export_bpe_bin.py:75-86 | pieces for all ids with gaps empty, and their offsets |
| `Bpb1.KeepMerges` | tools/export_bpe_bin.py:88-99 | the merges whose halves fit their length prefix, in order |
| `Bpb1.Export` | tools/export_bpe_bin.py:49-120 | the bytes of the BPB1 file, or the error of an empty table |
| `Bpb1.FromBpb1` | tools/chat_v6.py:1008-1047 | the loader over the bytes |
| `Bpb1.LoadInvertsExport` | tools/chat_v6.py:1008-1047 | loading an exported file gives back every content, the special ids and the merges kept, for every vocabulary with id gaps and pieces up to 65535 bytes |
| `Bpb1Agreement.CollectVocab` | tools/chat_v6.py:993-995 | the vocabulary of the JSON constructor: later vocabulary entries win, added ones only fill gaps |
| `Bpb1Agreement.TableHolds` | tools/export_bpe_bin.py:54-60 | the table of unique items holds exactly the items |
| `Bpb1Agreement.VocabAgrees` | tools/chat_v6.py:992-1047 | contents and ids as the binary and the JSON vocabulary know them agree |
| `Bpb1Agreement.DroppingKeepsOrder` | tools/export_bpe_bin.py:88-99 | the ranks of the merges kept are those of the full list restricted to them, shifted but in the same order |
| `Bpb1Agreement.SameSymbolsIff` | tools/chat_v6.py:1065-1086 | for every merge list: a piece is cut into the same symbols with and without the dropped merges if and only if the loop over the full list picks none of them |
| `Bpb1Agreement.LongMergeIsMissed` | tools/export_bpe_bin.py:97-98 | a merge list and a piece whose symbols differ, as soon as a half outgrows its length prefix |
| `Bpb1Agreement.SameTokens` | tools/chat_v6.py:992-1086 | for every merge list, a piece that is a content, has at most 65535 bytes, or shows no dropped merge gets the same ids from the exported file and from the JSON it came from |
| `Bpb1Agreement.SameText` | tools/chat_v6.py:992-1047 | every id shows the same characters from both |
| `ForumLock.StepKeepsInv` | tools/forum_lock.py:182-267 | every step of any number of processes, crashes and passing time included, keeps the invariant |
| `ForumLock.YoungHoldersOwnTheFile` | tools/forum_lock.py:182-267 | in every reachable state the lock file carries the token of every live holder younger than the stale limit |
| `ForumLock.MutualExclusion` | tools/forum_lock.py:182-267 | no reachable state has two such holders |
| `ForumLock.OnlyStaleLocksAreTaken` | tools/forum_lock.py:204-267 | a lock file disappears only by its owner's release or when its owner is dead or past the stale limit |
| `ForumLock.AcquireEnds` | tools/forum_lock.py:182-254 | acquiring ends only holding one's own lock file or with a timeout after more than the time allowed |
| `ForumLock.OrphanIsTakenOver` | tools/forum_lock.py:204-247 | a stale lock is taken over in five steps of a process about to create the file |
| `ForumLock.AcquireIsBounded` | tools/forum_lock.py:182-254 | past its timeout an undisturbed process leaves the loop within five steps |
| `ForumPost.DecodeLineScan` | tools/forum_post.py:54-78 | the index scan returns all objects of a line up to the first text that is not JSON |
| `ForumPost.DecodeAppend` | tools/forum_post.py:54-88 | a log that ends a line decodes independently of what is appended |
| `ForumPost.DecodeTermination` | tools/forum_post.py:54-88 | closing an unfinished last line changes nothing that was readable |
| `ForumPost.DecodePayload` | tools/forum_post.py:222-245 | every batch reads back as exactly the messages written |
| `ForumPost.UnguardedWrite` | tools/forum_post.py:223-245 | without the guard's newline, a batch behind an unfinished line loses its first message exactly when that line is not made of complete JSON values, and no other |
| `ForumPost.WriteExtendsLog` | tools/forum_post.py:223-245 | a write extends the decoded log by exactly its messages if and only if the guard's newline was written or the last line is whole when the text arrives |
| `ForumPost.AppendExtendsLog` | tools/forum_post.py:223-245 | with nothing between guard and write, a post extends the decoded log by exactly its messages whatever the file ended in |
| `ForumPost.MaxId` | tools/forum_post.py:39-51 | the highest number an author has used, zero when none |
| `ForumPost.FormatIdInjective` | tools/forum_post.py:205-208 | equal ids have the same author and number |
| `ForumPost.SkipTaken` | tools/forum_post.py:206-208 | the skip loop ends at the first number whose id is free |
| `ForumPost.NumbersAreFresh` | tools/forum_post.py:203-209 | numbers given out rise strictly, start above the highest one read and avoid every id in use |
| `ForumPost.UndisturbedNumbers` | tools/forum_post.py:197-209 | when both reads see the same log the skip loop never iterates |
| `ForumPost.IsClean` | tools/forum_post.py:91-104 | accepts exactly lines without U+FFFD and CJK characters |
| `ForumPost.BuildBatch` | tools/forum_post.py:203-222 | numbers and checks all drafts before anything is written |
| `ForumPost.PostLocked` | tools/forum_post.py:197-256 | one post over the four opens of the file: refused without writing when a line is unclean, else written, and read back whole exactly when safe |
| `ForumRun.PostedIdsAreDistinct` | tools/forum_post.py:179-256 | in every run of posters and lockless writers where writes are made under the writer's own lock and are safe, all ids are distinct, rise per author, and every message can still be read |
| `ForumRun.PromptPostersNeverCollide` | tools/forum_post.py:179-256 | the same for posters that write within the stale limit, beside lockless writers that leave no broken line while a live poster has seen a finished line and not yet written |
| `ForumRun.PromptRunIsLocked` | tools/forum_lock.py:182-267 | posters that write within the stale limit always write under their own lock |
| `ForumRun.SafeRunsExtend` | tools/forum_post.py:223-245 | in any run every batch is read back whole if and only if every write is safe |
| `ForumRun.CarefulRunsAreSafe` | tools/forum_post.py:223-245 | lockless writers that leave whole lines while some live poster has found the last line finished and not yet written make every write safe; a crashed poster binds nobody |
| `ForumRun.LatePosterDuplicatesId` | tools/forum_post.py:179-256 | a run in which a poster past the stale limit repeats an id |
| `ForumRun.BrokenLineRepeatsId` | tools/forum_post.py:223-245 | a run, every write under its own lock, in which a broken line between guard and write hides a message and its id is given out again |
| `ForumWatch.ReadAll` | tools/forum_post.py:81-88 | the messages of the log with their line numbers |
| `ForumWatch.Watcher.Cycle` | tools/forum_watch.py:211-264 | new messages are those of others on lines after the cursor, the cursor moves to the last message, a digest is due exactly when one of them is no heartbeat |
| `ForumWatch.HasSubstance` | tools/forum_watch.py:178-195 | true exactly when some message is neither a heartbeat id nor a poll body |
| `ForumWatch.EveryMessageOnce` | tools/forum_watch.py:211-227 | over every run with careful appends, the messages counted as new are exactly those of others after the starting cursor, each in one cycle, none missed, in order |
| `ForumWatch.GluedCount` | tools/forum_watch.py:211-227 | a text glued to the line the cursor stands on keeps the count complete if and only if it does not change what others wrote on that line |
| `ForumWatch.GluedMessageIsMissed` | tools/forum_watch.py:211-227 | a message glued to such a line can be read but never counts |
| `ForumWatch.OwnPostsAreNoNews` | tools/forum_watch.py:214-221 | the watcher's own posts are never new to it |
| `ForumWatch.DigestsStop` | tools/forum_watch.py:211-264 | once others stop writing, at most the digests then due are posted: one for a cycle in progress, one for unseen messages; at a cycle boundary at most one |
| `ForumAlerts.AlertBook.AlreadyAlerted` | tools/forum_watch.py:145-172 | looks a signature up and remembers it, dropping the oldest beyond two hundred |
| `ForumAlerts.AlertsOnceIff` | tools/forum_watch.py:145-172 | when the same problems recur every cycle, a lookup alerts if and only if it is the first for its problem or there are more than two hundred problems |
| `Trits.UnpackInvertsPack` | tools/bitnet_writer.py:30-48 | unpacking inverts packing for every number of trits, the last byte part filled or not |
| `Sections.ReadInvertsBytes` | tools/export_no_std.py:926-1010 | a record is read back from its bytes by a reader that knows only its shape, and the cursor stops behind it |
| `Sections.SectionsBack` | tools/export_no_std.py:926-1097 | records laid end to end are read back by a reader that knows only their shapes |
| `Sections.Cursor.Take` | tools/export_no_std.py:964-1010 | takes one record at the cursor, or keeps the first error |
| `Bfz.PlanFits` | tools/export_no_std.py:488-640 | for every shape and combination of optional parts the shapes the reader derives from header and config are those of the records written |
| `Bfz.Body.Add` | tools/export_no_std.py:386-442 | appends a record's bytes and its table entry |
| `Bfz.BuildBody` | tools/export_no_std.py:488-640 | writes the records of the model in order, optional ones only when present |
| `Bfz.ExportBfz` | tools/export_no_std.py:755-816 | header, config, body and the section table |
| `Bfz.ReadContainer` | tools/export_no_std.py:926-1097 | the reader with its moving cursor |
| `Bfz.ReadInvertsExport` | tools/export_no_std.py:926-1097 | reading an exported container recovers every header field, trit, scale, f32 and i16, ending exactly at the end of the file |
| `Bfz.ReadExtended` | tools/export_no_std.py:1070-1075 | any byte appended to an exported container makes the reader refuse it |
| `Bfz.SectionsTileFile` | tools/export_no_std.py:755-816 | header, config and the records of the table tile the file without gap or overlap |
| `Bfz.TablePointsAtRecords` | tools/export_no_std.py:393-442 | each table entry points at its record and at its scales |
| `V6File.WriteModel` | tools/convert_falcon3_to_v6.py:283-400 | the converter's sequence of writes gives the file |
| `V6File.LoadModel` | tools/chat_v6.py:242-357 | the loader with its moving cursor |
| `V6File.ReadShapesMove` | tools/chat_v6.py:242-357 | however a file reads, the cursor moves by the lengths of the shapes asked for |
| `V6File.LoadInvertsWrite` | tools/chat_v6.py:242-357 | loading a written v6 or v7 file gives back header, provenance, packed tensors and scales and stops at its end, if and only if a Q6_K unembedding has the flat length |
| `V6File.AuditOfWritten` | tools/audit_model_blobs.py:55-140 | the auditor gives the size of a written file if and only if its header strings are within its caps and a Q6_K unembedding has the flat length |
| `V6File.LoaderAndAuditorAgree` | tools/audit_model_blobs.py:55-140 | on every file the loader accepts, the auditor answers exactly within its caps, and with the loader's end if and only if theta is flagged |
| `V6File.AuditIsPlan` | tools/audit_model_blobs.py:94-124 | the auditor's sum is the length of what the loader asks for, more a packed matrix for each Medusa head and less theta when it is not flagged |
| `V6File.PerRowLength` | tools/bitnet_writer.py:225-283 | encoding row by row keeps the flat length if and only if all rows together are padded by less than a block |
| `V6File.PerRowFiles` | tools/convert_falcon3_to_v6.py:379-387 | with the per-row option, loader and auditor give back what was written if and only if hidden rows times the padding of a vocabulary row stay below 256 |
| `V6File.PerRowFileMisread` | tools/convert_falcon3_to_v6.py:379-387 | a model whose per-row file neither reader gives back |
| `V6File.IdSurvives` | tools/bitnet_writer.py:114-127 | an id of at most 40 bytes that does not end in NUL survives its fixed-width field |
| `Q6kLayout.StoreQ6` | tools/bitnet_writer.py:345-366 | or-s one code into the two arrays at its place and nowhere else |
| `Q6kLayout.StoreAll` | tools/bitnet_writer.py:345-366 | repeated stores give the closed form of the two arrays |
| `Q6kLayout.PackBlock` | tools/bitnet_writer.py:307-331 | the three vectorised passes give the same closed form |
| `Q6kLayout.UnpackInvertsPack` | tools/bitnet_writer.py:425-428 | every six-bit code comes back from the packed arrays |
| `Q6kBlocks.WriteBlocks` | tools/bitnet_writer.py:333-342 | the loop over blocks writes 210 bytes each |
| `Q6kBlocks.DecodeInvertsEncode` | tools/bitnet_writer.py:402-447 | code, scale and factor of every element of any number of blocks come back |
| `Q6kBlocks.DecodeScalar` | tools/bitnet_writer.py:402-447 | the scalar decoder reads every element of the blocks present and leaves zeros after the first missing one |
| `Q6kBlocks.DecodeFast` | tools/chat_v6.py:80-111 | the vectorised decoder refuses short data and otherwise reads for each element the code, scale and factor the scalar one reads |
| `Q6kBlocks.PerRowIsFlat` | tools/bitnet_writer.py:225-342 | encoding row by row is byte for byte the flat encoding when the columns fill whole blocks |
| `Q6kBlocks.EncodePerRow` | tools/bitnet_writer.py:225-283 | the loop over rows |
| `Q6kError.TensorMoves` | tools/bitnet_writer.py:285-342 | for any number of values, each weight both decoders read differs from its source by at most its block's maximum over 62, clipped or not; zeros, and so blocks of zeros, decode to zero |
| `Q6kError.BoundIsReached` | tools/bitnet_writer.py:293-305 | the bound is attained in every block |
| `Q6kError.PerRowCondition` | tools/bitnet_writer.py:225-342 | with the real encoder, per-row bytes are the flat bytes for all matrices of a shape if and only if the columns fill whole blocks or there is at most one row |
| `TernaryRows.ScaleComesBack` | tools/export_no_std.py:365-378 | a rebuilt row with a nonzero trit has the scale it was built with if and only if that is at least 1e-8 and the row is not thinner than one trit in 10^30, or the scale is 1e-8 |
| `TernaryRows.TritsComeBack` | tools/export_no_std.py:365-378 | it quantises to the trits it was built from |
| `TernaryRows.MeanKeepsTrit` | tools/bitfuzzy_moe_recurrent.py:156-200 | a row whose mean magnitude reaches 1e-8 keeps a nonzero trit |
| `TernaryRows.ExportIsStable` | tools/export_no_std.py:357-378 | exporting a row rebuilt from its export changes nothing, with the exact condition for all rows |
| `TernaryRows.RealRowsAreStable` | tools/export_no_std.py:357-378 | so every row of at most 10^30 weights is stable |
| `ActHalting.RunBatch` | tools/bitfuzzy_moe_recurrent.py:1035-1081 | every sample of a batch gets the state and step count of its own run, up to and including its first halting step; the count returned is the largest; an empty batch counts one step |
| `ActHalting.RoundKeepsInv` | tools/bitfuzzy_moe_recurrent.py:1042-1074 | in a round a halted sample keeps its state and a running one takes the step even when it halts |
| `ActHalting.BatchesAgree` | tools/bitfuzzy_moe_recurrent.py:1035-1081 | what a batch gives a sample does not depend on the batch it is in |
| `ActHalting.Recurrent.Forward` | tools/bitfuzzy_moe_recurrent.py:1035-1081 | the same, with the counts left in the module's field |
| `Gpt.RegionsFit` | tools/build_usb_unified.py:493-532 | for all sizes of at least one sector the seven regions are ordered, disjoint and inside the image, and both partitions lie in the usable range |
| `Gpt.WriteStays` | tools/build_usb_unified.py:543-590 | what was written and not overwritten stays, for any list of writes |
| `Gpt.RegionsHold` | tools/build_usb_unified.py:550-590 | every region of the finished image holds what was written to it |
| `Gpt.BuildImage` | tools/build_usb_unified.py:543-590 | the writes in their order, the data partition copied in pieces, give that image |
| `Gpt.ImageFile.Copy` | tools/build_usb_unified.py:575-586 | the chunked copy is one write of the whole partition |
| `GptReaders.FindEspScan` | tools/f15_member_sha.py:46-61 | the loop over entries returns the byte offset of the first system partition |
| `GptReaders.ParseEspScan` | tools/build_usb_unified.py:49-87 | the parser with its preference for the system partition and its truncation checks |
| `GptReaders.ReadersFindEsp` | tools/build_usb_unified.py:49-150 | of every finished image both readers return the start of the system partition, and the parser its size and bytes |
| `GptReaders.ReadersAgree` | tools/f15_member_sha.py:46-61 | on every image whose table of 128-byte entries lies inside it the two readers agree |
| `GptReaders.ChecksumsHold` | tools/build_usb_unified.py:122-141 | a written header carries the checksum of its bytes with that field zeroed, and that of the entries |
| `Fat32.ReadChain` | tools/f15_member_sha.py:91-101 | the loop ends on every table |
| `Fat32.ChainIsPath` | tools/f15_member_sha.py:84-101 | reading succeeds exactly when the chain ends, and gives its sectors in order, each once |
| `Fat32.ParseDir` | tools/f15_member_sha.py:103-135 | the scan with pending long names, deleted records and the end marker |
| `Fat32.DeletedIsIgnored` | tools/f15_member_sha.py:103-135 | directories that differ in deleted records, any number anywhere, and behind the end marker have the same entries |
| `Fat32.AlikeFiles` | tools/f15_member_sha.py:103-146 | volumes whose directories, at every depth, differ only so have the same files |
| `Fat32.WalkIsFlatten` | tools/f15_member_sha.py:103-146 | the walk over a volume gives the files of the tree it holds, without any cluster number |
| `Fat32.WalkHasTree` | tools/f15_member_sha.py:103-146 | every volume that can be walked holds a tree |
| `MemberId.SortedIff` | tools/f15_member_sha.py:152-156 | sorting gives the same list for two lists exactly when they hold the same members equally often |
| `MemberId.SameIdentityIff` | tools/f15_member_sha.py:148-172 | without hash collisions, identities are equal if and only if the immutable members are the same |
| `MemberId.VolumesAgreeIff` | tools/f15_member_sha.py:148-172 | the same for two volumes and the trees they hold |
| `MemberId.PlacementDoesNotMatter` | tools/f15_member_sha.py:148-172 | where a tree is placed on the volume does not matter |
| `MemberId.OrderDoesNotMatter` | tools/f15_member_sha.py:148-172 | the order in which members are met does not matter |
| `MemberId.DirectoryOrder` | tools/f15_member_sha.py:103-146 | the files under a reordered directory are the same |
| `MemberId.FolderOrder` | tools/f15_member_sha.py:103-146 | so are those under a directory one of whose folders is reordered |
| `MemberId.ShuffledFiles` | tools/f15_member_sha.py:103-146 | a tree whose directories are all reordered, at every depth, has the same files |
| `MemberId.VolumeOrderDoesNotMatter` | tools/f15_member_sha.py:148-172 | two volumes that hold a tree and the same tree reordered throughout, placed anywhere, have the same identity |
| `MemberId.DeletedDoesNotMatter` | tools/f15_member_sha.py:148-172 | volumes that differ in deleted records of any of their directories have the same identity |
| `MemberId.MutableDoesNotMatter` | tools/f15_member_sha.py:38-39 | adding, removing or changing a member that is the boot log or lies under NEURAL/ changes nothing |
| `MemberId.ContentMatters` | tools/f15_member_sha.py:148-172 | changing the bytes of one immutable member changes the identity |

## Findings

Properties one would expect and the code does not have. For each the model holds an input or a run that shows it, and
the exact condition under which the property does hold.

- A poster that writes after its lock went stale can repeat an id (`ForumRun.LatePosterDuplicatesId`); posters that
  write within the stale limit cannot (`ForumRun.PromptPostersNeverCollide`).
- The newline guard and the write are two opens of the file. A lockless writer that leaves a broken line between them
  hides the first message of the batch, and its id is given out again (`ForumRun.BrokenLineRepeatsId`,
  `ForumPost.UnguardedWrite`). Every batch is read back whole if and only if every write is safe
  (`ForumRun.SafeRunsExtend`).
- The exporter drops merges with a half over 65535 bytes. The file then cuts some piece differently from the JSON
  (`Bpb1Agreement.LongMergeIsMissed`), exactly when the merge loop picks a dropped one (`Bpb1Agreement.SameSymbolsIff`);
  pieces of at most 65535 bytes are never concerned (`Bpb1Agreement.SameTokens`).
- The JSON machine offers texts that a poor vocabulary cannot complete (`JsonFinish.KeyWithoutColonIsStuck`); which
  vocabularies are never stuck is exact (`JsonTokens.NeverStuckIff`).
- With the per-row option of the converter, loader and auditor misread the file (`V6File.PerRowFileMisread`), unless
  hidden times the padding of a row stays below one block (`V6File.PerRowFiles`). Even then the weights are those of the
  flat encoding only when the vocabulary fills whole blocks or there is at most one row (`Q6kError.PerRowCondition`).
- The auditor counts theta only when it is flagged, the loader reads it always (`V6File.LoaderAndAuditorAgree`).
- A message glued to the line the watcher's cursor stands on is never counted as new (`ForumWatch.GluedMessageIsMissed`,
  exact condition in `ForumWatch.GluedCount`).
- "At most one more digest" after others stop holds at a cycle boundary; in the middle of a cycle it is the number due
  (`ForumWatch.DigestsStop`).
- More than two hundred standing problems are all alerted again in every cycle (`ForumAlerts.AlertsOnceIff`).
- A rebuilt ternary row keeps its scale unless the scale is below the floor or the row is thinner than one trit in 10^30
  (`TernaryRows.ScaleComesBack`).
- A batch without samples counts one step (`ActHalting.RunBatch`).

## Left out

- Lock files: create-and-write, compare-and-delete and token-checked release are one step each, tokens are never reused,
  the clock does not go back, and the liveness probe never calls a live process dead; back-off delays and process probing
  are not modelled.
- Forum writes: the text of one write arrives in one piece. The watcher's own posts are taken with nothing between guard
  and write; integrity checks, the pending queue and the status files are not modelled.
- JSON library: the laws in `ForumPost.Lawful` and `ForumPost.Gluing` are assumed of it; no decoder is modelled.
- Inference: kernels are uninterpreted functions of one position; the rotation table is taken to cover the capped
  positions; sampling above temperature zero, quantised caches and draft-and-verify generation are not modelled.
- Grammar machine: the documents of `JsonGrammar` are what the machine really accepts, which differs from RFC 8259 in
  trailing commas, empty arrays and the inside of numbers and strings.
- Tokenizer: splitting a text into pieces is not modelled; the round trip is on pieces. UTF-8 decoding is a parameter with
  the law that it may be cut at blanks.
- Bpb1Agreement.SameTokens: contents of the vocabulary are taken to fit their 65535 bytes and to be unique; the file
  has no entry for the empty content. Of UTF-8 it uses that a part is never encoded longer than the whole.
- Containers: f32 and i16 values are bit patterns and integers; file reads past the end are the first error met; the
  embedding types other than Q6_K and the Medusa heads are refused by the loader and not written by the model.
- Q6kError.TensorMoves: takes the block factor as kept exactly by its two bytes; rounding to half precision and of f32
  arithmetic is not modelled.
- Rebuilding a whole student, the C header, parity checks and reports of the exporter are not modelled.
- Training, gradients of the halting surrogate, routing and attention of the student are not modelled.
- Image builder: contents of the boot record beyond its signature, the volume builders and the boot-sector patches are
  parameters; patches are any writes inside the data partition.
- FAT32: name decoding and the interpreter's recursion limit are parameters; every exception is one failure.
- Small checkers, download and training scripts, command lines and printing would only add easy members.
