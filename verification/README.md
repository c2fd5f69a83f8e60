# A verified model of the manifest downloader

The program reads a manifest, decides which chunks of which files are missing or wrong on disk, groups them by
bundle, fetches them from a bundle directory or with HTTP range requests, and lets several threads write them in
place. This project models that path from the parsed manifest to the bytes on disk and proves it correct. Code
that works step by step on shared memory is modelled by classes, arrays and loops; each such method is proved
against a specification, and what the program promises is then proved about the specification.

The files follow the program's structure.

| file | models |
|---|---|
| `Common.dfy` | chunks, hash types, 32-bit and 64-bit unsigned arithmetic, C's `int` |
| `Sha256Spec.dfy` | SHA-256 as FIPS 180-2 defines it: the round function, the padding, the digest |
| `Sha256Numbers.dfy`, `Sha256Constants.dfy` | what the words, sums, bytes and constants of that definition are as numbers |
| `Sha256Process.dfy` | the 64 unrolled rounds with renamed registers and rewritten functions |
| `Sha256.dfy` | the streaming interface: buffering, the two-word byte counter, the padding |
| `ChunkHash.dfy` | HMAC and PBKDF2 as their RFCs define them, `hash_sha256`, `hash_hkdf`, `chunk_valid` |
| `Lists.dfy` | order and stability, and the growable arrays with their sorted operations |
| `MergeSort.dfy` | the bottom-up merge sort between two buffers |
| `Grouping.dfy` | `group_by_bundles`, with bundles that own their chunk lists |
| `Manifest.dfy` | offsets in bundles, the shared chunk list, assembling the files |
| `Paths.dfy` | the path loop over parent directories |
| `RangePlan.dfy` | coalescing chunks into byte ranges |
| `Request.dfy` | the text of a range request, its length, and how a server reads it |
| `Multipart.dfy` | multipart replies and the search that skips part heads |
| `RangeDownload.dfy` | `get_ranges`, `response_to_ranges`, `download_ranges` |
| `Repair.dfy` | verifying a file on disk and selecting what repairs it |
| `Workers.dfy` | the worker protocol as a state machine, and which variables each lock protects |
| `WorkerFiles.dfy`, `WorkerInvariant.dfy` | what every step keeps |
| `WorkerTheorems.dfy` | what follows for whole runs |
| `WorkerRaces.dfy` | a short run with two cleanups, and why some settings have none |
| `WorkerProgress.dfy`, `WorkerMeasure.dfy` | where main stands among the files, and a measure that steps make smaller |
| `WorkerTermination.dfy` | settings in which every run ends |
| `WorkerRuns.dfy` | building runs step by step |
| `WorkerSettings.dfy` | exactly which settings have a run with two cleanups |
| `WorkerEndless.dfy` | exactly which settings have a run without an end |
| `Pipeline.dfy` | the composition: from the manifest over the main loop's plan for a file to the workers' writes |
| `Outcome.dfy` | what the files hold in the end |

## Results

* **SHA-256.** However a message is cut into updates, the digest is that of FIPS 180-2, sections 5.1.1 and 6.2.2,
  including the carry into the high word of the length. The definition itself is pinned down in numbers: addition is
  addition modulo 2^32, words and lengths are written most significant byte first, each round and schedule word is
  the stated sum, and the constants are the fractional parts of the roots of the first primes. `hash_hkdf` is PBKDF2
  with HMAC-SHA-256, an empty salt and 32 iterations, and a chunk id is compared with the first eight bytes of the hash
  that its type names, read as a little-endian number. The length is narrowed to an `int`, which is harmless exactly below 2^31 bytes.
* **Lists.** The jump and scan of the sorted operations stay inside the list for any length. `find_object_s` finds an
  element exactly when there is one, also among duplicates. `sort_list` is a stable sort, and its counters do not
  overflow if and only if there are at most 2^30 elements.
* **Range requests.** For any replies of a conforming server (whole bundle, one part, or multipart, changing from
  batch to batch), `download_ranges` fills every slot with what `get_ranges` reads from the file. Batches are
  non-empty, fit the header buffer, go on exactly as long as one more range is sure to fit, and partition the chunks;
  a request is one header, whose first empty line is at its end; the ranges of a batch are ascending with gaps between
  them and cover exactly the chunks' bytes. The sizes of both text buffers are exact bounds. A server that parses the
  request text and prints the parts is proved to conform, so the assumption is not empty.
* **Manifest.** Whatever ids a file names, its chunks are entries of the manifest with those ids, with both their
  sizes, at the offsets that the entries before them make up in bundle and file.
* **Repair.** Whatever is on disk, exactly the wrong chunks are selected, and writing them in any order gives the
  target.
* **Workers.** For any number of threads, any files, bundles and writes, and any interleaving: tokens and messages are
  conserved, no state is stuck, at the end of a run both pipes are empty, every bundle is claimed by exactly one step,
  and a worker that cleans up is the last one in its file.
* **The cleanup race.** The test of `file_index_finished` is made before the message is sent, and created workers
  may not have taken the lock yet, so a worker can enter a file after another one has passed the test before cleanup.
  Then `threads_visited` grows, the test succeeds a second time, and the file loses another byte.
  `CleanupCanHappenTwice` gives a short run, in which both workers enter before the first cleanup.
  `ExactlyOneCleanup` proves that a file is cleaned up once, and holds its target, if and only if no worker enters it
  after the test has been passed. `SafeSettings` proves when that is certain before the download begins: if and only
  if there is one thread, or the file's chunks all lie in one bundle. For every other number of threads and bundles,
  and whatever the other files are, some complete run cleans the file up twice.
* **The lost update.** `file_index_finished` is read and stored under the lock of one file, but all files share it. A
  worker that has read it for an early file can store an old value over the number of a later file, for which main is
  waiting; main then never sees that number and sends messages for the file for ever. `EveryRunEnds` proves the exact
  condition, which can be checked before the download begins: every run ends if and only if there are no files i < j
  such that main may pass i before the note of its last claim is stored, with another worker free (i has one bundle,
  or fewer bundles than there are threads and all of them still get new threads), and main waits for j (j has two
  bundles or more, and not all of them get new threads). Two threads, a file of one bundle and a file of two are
  enough (`TwoThreadsTwoFiles`). Under the same condition every run can be carried on to its proper end
  (`EveryRunCanComplete`).
* **Files without chunks.** A file that is not left alone and has no chunks comes out right if and only if it was
  there already; a new one keeps one byte too many. `EndToEnd` states this together with the other files, and that
  files which the options protect stay what they were.

Names of C members are given in comments. In the table, paths are relative to the repository.

## Model

| member | source | states |
|---|---|---|
| `Sha256Process.F0IsMaj` | sha/sha256.c:111 | the rewritten majority function equals Maj of FIPS 180-2 on all words |
| `Sha256Process.F1IsCh` | sha/sha256.c:112 | the rewritten choice function equals Ch of FIPS 180-2 on all words |
| `Sha256Process.P` | sha/sha256.c:120-125 | overwriting only d and h, then reading the registers one place further on, is one round of section 6.2.2 |
| `Sha256Process.RIsNextWord` | sha/sha256.c:114-118 | the schedule step computed on the fly is the schedule of section 6.2.2 |
| `Sha256Process.AllRounds` | sha/sha256.c:126-198 | the 64 unrolled calls with rotated register names compute the 64 rounds of the plain loop, for every state and block |
| `Sha256Numbers.AddIsModular` | sha/sha256.c:114-125 | the sum of two words is their sum as numbers modulo 2^32 |
| `Sha256Numbers.RoundAddsUp` | sha/sha256.c:120-125 | the new a and e of a round are the sums of section 6.2.2, with all summands written out, and the other six registers move on |
| `Sha256Numbers.ScheduleAddsUp` | sha/sha256.c:114-118 | every word of the schedule from the 16th on is the sum of section 6.2.2 modulo 2^32 |
| `Sha256Numbers.CompressAddsUp` | sha/sha256.c:200-207 | every word of the new state is the old one plus the register after all rounds, modulo 2^32 |
| `Sha256Numbers.ChoiceAndMajority` | sha/sha256.c:111-112 | Ch takes one word's bit or the other's, and Maj has a one where two words have one |
| `Sha256Numbers.SigmasRotate` | sha/sha256.c:102-109 | the four sigmas with their rotations and shifts written out |
| `Sha256Numbers.WordIsBigEndian` | sha/sha256.c:42-49 | four bytes make a word, most significant byte first |
| `Sha256Numbers.BytesAreBigEndian` | sha/sha256.c:52-59 | and a word is written in the same order |
| `Sha256Numbers.Be32IsBigEndian` | sha/sha256.c:277-278 | the four bytes of a length word are that number modulo 2^32, most significant byte first |
| `Sha256Numbers.PaddingIs` | sha/sha256.c:280-284 | one bit, as few zeros as make whole blocks, and the length in bits |
| `Sha256Numbers.Be64IsBigEndian` | sha/sha256.c:273-278 | the eight bytes of a length are that number modulo 2^64, most significant byte first |
| `Sha256Numbers.RegsBytesAreBigEndian` | sha/sha256.c:286-293 | bytes 4k to 4k + 3 of the digest are register k, most significant byte first |
| `Sha256Constants.ConstantsAreCubeRoots` | sha/sha256.c:135-198 | each round constant is the first 32 fractional bits of the cube root of the prime listed for it |
| `Sha256Constants.InitialHashIsSquareRoots` | sha/sha256.c:70-77 | the initial hash value is the first 32 fractional bits of the square roots of the first eight primes |
| `Sha256.Sha256Context.Begin` | sha/sha256.c:65-78 | the initial hash value and an empty message |
| `Sha256.Sha256Context.Process` | sha/sha256.c:80-208 | the new state is the compression of the old state and the block |
| `Sha256.BitLength` | sha/sha256.c:273-275 | the two shifted words are the low 64 bits of the length in bits, with the bits that move from one to the other |
| `Sha256.CarryCounts` | sha/sha256.c:221-225 | the two-word counter stays equal to the number of bytes modulo 2^64, carry included |
| `Sha256.Sha256Context.Update` | sha/sha256.c:213-254 | appends exactly the input to the message; the state stays the fold over all whole blocks and the buffer holds the tail |
| `Sha256.Sha256Context.CompleteBlock` | sha/sha256.c:227-236 | completing a partly filled buffer moves no byte out of order |
| `Sha256.Sha256Context.AbsorbBlocks` | sha/sha256.c:243-247 | all whole blocks of the input are compressed, and fewer than 64 bytes are left |
| `Sha256.PaddingIsFips` | sha/sha256.c:277-284 | the two final updates append the padding of section 5.1.1 |
| `Sha256.FinalState` | sha/sha256.c:283-293 | after the padding nothing is held back, so the state is the digest |
| `Sha256.Sha256Context.End` | sha/sha256.c:267-294 | the output is the digest of everything given to `Update` |
| `Sha256.Sha256Of` | sha/sha256.c:299-309 | the one-shot form gives the digest of the input, and of nothing if the length is not positive |
| `Sha256.HashParts` | sha/sha256.c:213-294 | for every way of splitting a message into updates the digest is that of the whole message |
| `ChunkHash.HashSha256` | rman.c:17-22 | the number whose eight base-256 digits, the least significant first, are the first bytes of the digest of what is hashed |
| `ChunkHash.LoadedExactly` | rman.c:21 | a number is loaded from eight bytes if and only if they are its base-256 digits, the least significant first |
| `ChunkHash.HashesEverything` | rman.c:20-30 | the narrowed length covers all the data if and only if it is shorter than 2^31 bytes; otherwise it covers the length modulo 2^32, or nothing |
| `ChunkHash.MakePads` | rman.c:32-38 | every byte of the key XORed with 0x36 and with 0x5C |
| `Pbkdf2Spec.HmacBytes` | rman.c:30-48 | HMAC as the nested hash behind the two pads, with every byte of the pads written out |
| `ChunkHash.HmacPass` | rman.c:52-59 | two passes over the context compute the nested hash of RFC 2104, section 2 |
| `ChunkHash.Iterate` | rman.c:49-63 | 31 iterations that keep eight bytes give, byte by byte, the XOR of U_1 to U_32 |
| `Pbkdf2Spec.Pbkdf2Bytes` | rman.c:40-63 | a byte of the derived key is the exclusive or of that byte of all iterations; the first iteration is the HMAC of the salt and 0, 0, 0, 1, each later one that of the one before it (RFC 8018, section 5.2) |
| `ChunkHash.NextIteration` | rman.c:60-62 | XORing only the bytes that are kept gives the same bytes as XORing all 32 |
| `ChunkHash.HashHkdf` | rman.c:24-66 | the first eight bytes of PBKDF2 with HMAC-SHA-256, password SHA-256(data), empty salt, 32 iterations (RFC 8018, section 5.2) |
| `ChunkHash.ChunkValid` | rman.c:79-97 | type by type: true exactly if the id's base-256 digits are the first eight bytes of the SHA-256 digest, or of the PBKDF2 block, or the id is the BLAKE3 hash; never for SHA-512 or unknown types |
| `Lists.List.Add` | list.h:26-34 | appends one element, whether or not the array has to grow |
| `Lists.List.AddAll` | list.h:44-52 | appends a stretch of elements, growing to the exact size if needed |
| `Lists.List.Jump` | list.h:56-62 | the halving jump never leaves the list, whatever its length and keys |
| `Lists.List.FindSorted` | list.h:54-70 | finds an element with the key exactly when there is one, duplicates allowed |
| `Lists.List.AddSorted` | list.h:73-99 | the list stays sorted and is the old list with the element inserted, and nothing else moved |
| `MergeSort.SortHelper` | list.h:127-138 | writes the stable merge of two neighbouring runs and leaves everything else alone |
| `MergeSort.MergeIsStable` | list.h:130-136 | merging two sorted runs sorts their concatenation and exchanges no equal elements |
| `MergeSort.PassDoubles` | list.h:108-116 | each pass doubles the width of the sorted runs |
| `MergeSort.PassKeeps` | list.h:110-115 | a pass keeps the elements of each key in their order |
| `MergeSort.SortLengthIsTight` | list.h:108-115 | the counters of all passes stay below 2^31 if and only if there are at most 2^30 elements |
| `MergeSort.SortList` | list.h:101-125 | the list becomes the stable sort of its old contents, and the parity test keeps the buffer with the last pass |
| `Ordering.StableSortPermutes` | list.h:101-125 | a stable sort is a permutation of its input |
| `Ordering.StableSortUnique` | list.h:101-125 | a stable sort is determined by its input |
| `Grouping.GroupByBundles` | rman.c:99-117 | strictly increasing bundle ids; each group is non-empty, sorted by offset and holds exactly its bundle's chunks; no two groups share memory |
| `Grouping.GroupOne` | rman.c:104-113 | one turn of the loop adds one chunk to its group, old or new |
| `Grouping.GroupsArePermutation` | rman.c:99-117 | all groups together are a permutation of the input |
| `Grouping.GroupMembers` | rman.c:104-113 | a chunk is in a group exactly if it is in the input and of the group's bundle |
| `Manifest.LayOut` | rman.c:169-182 | every chunk has its entry's id and sizes, and begins where the one before it ends, in 32-bit arithmetic |
| `Manifest.OffsetWraps` | rman.c:178 | in a bundle of any size a chunk's offset is the sum of the compressed sizes before it, modulo 2^32 |
| `Manifest.ChunkIsEntry` | rman.c:174-180 | every chunk of an assembled file is an entry of the manifest with the id that the file names, with both its sizes and at its place in its bundle |
| `Manifest.FileFollowsManifest` | rman.c:287-296 | and it lies behind the uncompressed sizes of the manifest's entries before it |
| `Manifest.LaidOutAscends` | rman.c:178 | in a bundle of less than 4 GiB no offset wraps, so different chunks never overlap |
| `Manifest.CollectChunks` | rman.c:161-190 | the shared list is the stable sort by id of all bundles' chunks |
| `Manifest.PlaceChunk` | rman.c:291-294 | overwriting a shared entry keeps every other field and the order that lookups need |
| `Manifest.AssembleFile` | rman.c:287-296 | the copies tile the file from its first byte, in order, even when an id repeats; fails exactly on an id that the manifest lacks |
| `Manifest.AssembleFiles` | rman.c:255-298 | every file tiles although all files stage their offsets in the same entries |
| `Manifest.SameEntriesStaySorted` | rman.c:190-292 | staging offsets never disturbs the id order |
| `Paths.BuildPath` | rman.c:268-286 | the names from root to leaf joined by slashes; fails exactly if a parent is missing, the chain has no end, or the result does not fit the buffer; so names that join to at most 255 characters have a path |
| `Paths.NamesReadBack` | rman.c:280-283 | splitting a path at its slashes gives back the names |
| `Paths.PathIsJoin` | rman.c:280-283 | prepending name by name gives the names from root to leaf joined by slashes |
| `Paths.ChainUnique` | rman.c:271-280 | there is at most one chain of parents |
| `Paths.EveryChainEnds` | rman.c:271-284 | every chain of parents ends if and only if all parents exist and no directory is its own ancestor |
| `Paths.ChainExists` | rman.c:271-284 | then it ends within the number of directories |
| `Paths.PathFailsOnlyByLength` | rman.c:279-283 | then a path can be built if and only if it has at most 255 characters, or the file lies in no directory |
| `RangePlan.MakeRangeMap` | socket_utils.c:343-352 | the first chunk has range number 0, and the number goes up by one exactly at the breaks |
| `RangePlan.BreaksAtGaps` | socket_utils.c:348 | inside a bundle of less than 4 GiB the 32-bit test breaks exactly at a gap |
| `RangePlan.RangesAreWellFormed` | socket_utils.c:362-365 | ranges ascend, are disjoint and not even adjacent, and lie inside the bundle |
| `RangePlan.RangesCoverChunks` | socket_utils.c:362-365 | a byte is requested exactly if some chunk of the batch needs it |
| `RangePlan.RangeMapAscends` | socket_utils.c:347-351 | two chunks have the same range number exactly if nothing breaks between them |
| `Request.RangesReadBack` | socket_utils.c:364-375 | reading the printed ranges gives back the ranges (RFC 7233, section 2.1) |
| `Request.RangeSizeIsTight` | socket_utils.c:355-374 | a buffer holds every range of 32-bit offsets with its comma and NUL if and only if it has at least 23 bytes |
| `Request.BatchFits` | socket_utils.c:354-379 | with a prefix of at most 7974 characters the whole header fits 8000 bytes, and a batch stops early only when the threshold is passed |
| `Request.StopsWhenFull` | socket_utils.c:367-373 | a batch goes on if and only if one more range of any 32-bit numbers would still fit 8000 bytes |
| `Request.PrefixBoundIsTight` | socket_utils.c:354-379 | every request fits if and only if the prefix has at most 7974 characters |
| `Multipart.SkipHead` | socket_utils.c:324-327 | from the start of a part the search finds the start of its data, for all header lines without NUL and line break |
| `Multipart.SkipBreakAndHead` | socket_utils.c:326-327 | the same when the line break of the delimiter comes first |
| `Multipart.HeadBegins` | socket_utils.c:322-324 | a part begins with two hyphens and the boundary (RFC 7233, section 4.1) |
| `Multipart.ExtraLineBreaks` | socket_utils.c:324 | with additional line breaks before the first boundary (RFC 7233, appendix A) the search is right if and only if there is at most one |
| `RangeDownload.GetRanges` | socket_utils.c:287-304 | for chunks in any order and number, each slot holds its chunk's bytes; fails exactly if the file cannot be opened |
| `RangeDownload.BuildRequest` | socket_utils.c:360-379 | the request text of a non-empty batch that ends at a border and takes as many ranges as are sure to fit |
| `RangeDownload.SplitParts` | socket_utils.c:321-332 | cutting up the printed parts gives back each chunk's bytes, shared and repeated chunks included |
| `RangeDownload.ResponseToRanges` | socket_utils.c:306-339 | for each kind of reply the handled slots hold their chunks' bytes, and earlier slots are unchanged |
| `RangeDownload.FetchBatch` | socket_utils.c:360-400 | one turn of the loop: a request that fits, with no room that is sure to suffice for another range, and the slots of its chunks filled, or of all remaining chunks; otherwise a failed request |
| `RangeDownload.DownloadRanges` | socket_utils.c:341-406 | for every conforming server all slots are filled as by `get_ranges`, or the last request failed; the requests are the batches in order |
| `RangeDownload.BatchIsWellFormed` | socket_utils.c:359-379 | each request is the prefix, a text that reads back as well-formed ranges, and the blank line |
| `RangeDownload.RequestEndsOnce` | socket_utils.c:379 | in the bytes of a request the first empty line is at its end, provided that the prefix has neither NUL nor empty line |
| `RangeDownload.PrefixIsClean` | socket_utils.c:361 | which the prefix of a URL without NUL and carriage return has not; and every request fits if and only if path and host have at most 7938 characters |
| `RangeDownload.BatchCoversItsChunks` | socket_utils.c:362-377 | a batch asks for its chunks' bytes and no others |
| `RangeDownload.BatchesPartition` | socket_utils.c:359-400 | every chunk before the end of the last batch lies in a batch, and batches do not overlap |
| `RangeDownload.ReferenceConforms` | socket_utils.c:382-398 | a server that parses the request and prints the parts meets the assumption |
| `Repair.ReadAndCheck` | download.c:181-186 | a chunk passes exactly if it is right on disk |
| `Repair.VerifyFile` | download.c:162-205 | a file is called correct exactly if it is the target; otherwise exactly the wrong chunks are selected, in order |
| `Repair.RestIsWrong` | download.c:173-179 | when the file ends inside a chunk, that chunk and all later ones are wrong |
| `Repair.RightWhenNothingWrong` | download.c:199 | no wrong chunk and the right size if and only if the content is the target |
| `Repair.TruncateRepairs` | download.c:231-233 | with nothing selected, cutting the file to its size gives the target |
| `Repair.SelectionRepairs` | download.c:178-248 | after resizing to one byte more, whatever the selected chunks do not cover is right already |
| `WorkerFiles.ClaimKeeps` | download.c:55-62 | the locked section up to its read of `file_index_finished` keeps the per-file invariant: claims, visits, exits, writes, content |
| `WorkerFiles.NoteKeeps` | download.c:63-65 | so does the store that ends the locked section of the last claim, and then the lock is free |
| `WorkerFiles.WriteKeeps` | download.c:105-108 | so does one chunk write |
| `WorkerFiles.LeaveKeeps` | download.c:67-68 | so does the test before cleanup, whether it succeeds or not |
| `WorkerFiles.CleanKeeps` | download.c:26-31 | so does the cleanup itself |
| `WorkerInvariant.StepKeeps` | download.c:53-78 | every step of every thread keeps the protocol's invariant |
| `WorkerInvariant.RunKeeps` | download.c:121-330 | every reachable state satisfies it |
| `WorkerTheorems.TokensAreConserved` | download.c:224-313 | waiting workers = tokens in the reply pipe + messages in the work pipe + the spare token + the one in main's hand |
| `WorkerTheorems.CleanupIsSafe` | download.c:68-69 | from the moment its test would succeed until its cleanup, a worker finds every bundle claimed and written and every visitor gone, and the first cleanup of a file that its bundles repair leaves the target |
| `WorkerTheorems.CleansUpNext` | download.c:67-69 | the workers that this is about are those whose next step makes the test succeed or the cleanup itself |
| `WorkerTheorems.NeverStuck` | download.c:53-326 | until main and all workers are through, some thread can take a step |
| `WorkerTheorems.ShutdownIsClean` | download.c:320-329 | at the end both pipes are empty and one null message per created worker was sent and taken |
| `WorkerTheorems.FilesAreFinished` | download.c:26-31 | at the end every file with bundles was cleaned up as often as the test was passed, and once if and only if nobody entered late; then and only then it is the target |
| `WorkerTheorems.EarlyEntryIsNotLate` | download.c:302-305 | entering before the last bundle is claimed is never late |
| `WorkerTheorems.LateMeansEntered` | download.c:58-61 | the recorded flag is set exactly in runs with a first claim after some worker has passed the test before cleanup |
| `WorkerTheorems.ExactlyOneCleanup` | download.c:67-70 | exactly one cleanup if and only if no worker's first claim comes after a passed test |
| `WorkerTheorems.ClaimedExactlyOnce` | download.c:56-57 | every index is claimed by exactly one step, and none is skipped |
| `WorkerRaces.CleanupCanHappenTwice` | download.c:58-69 | a run with two threads and two bundles in which the file is cleaned up twice and loses a byte of the target, although both workers make their first claim before any cleanup |
| `WorkerSettings.SomeRunCleansTwice` | download.c:58-69 | with two threads or more and two bundles or more, whatever the other files are, some complete run cleans the file up twice, and it is not its target |
| `WorkerSettings.SafeSettings` | download.c:292-315 | every complete run cleans a file up exactly once if and only if there is one thread or the file has one bundle |
| `WorkerSettings.SafeContent` | download.c:292-315 | every complete run leaves the target behind under exactly the same condition |
| `WorkerProgress.GoodStays` | download.c:144-318 | no worker, message or claim ever concerns a file that main has not come to; main has created a worker per bundle so far or all it may; it has left a file behind only if it may, or the file's last claim is noted |
| `WorkerMeasure.StepLess` | download.c:53-326 | every step makes a well-founded measure smaller, except when main's test misses a file whose last claim has been noted |
| `WorkerTermination.NoStray` | download.c:295-304 | without a stranding pair of files, no store for an earlier file is pending while main waits |
| `WorkerTermination.SafeRunsComplete` | download.c:53-330 | then a run that goes on while it can arrives at the joins with all workers through |
| `WorkerEndless.StaysDoomed` | download.c:296-316 | once the note that main waits for is overwritten, no step of any thread helps |
| `WorkerEndless.DoomedRun` | download.c:254-304 | every stranding pair of files has a run into such a state |
| `WorkerEndless.EveryRunEnds` | download.c:53-330 | every run ends, under any scheduling, if and only if there is no stranding pair of files |
| `WorkerEndless.EveryRunCanComplete` | download.c:53-330 | every run can be carried on to its proper end under exactly the same condition |
| `WorkerEndless.TwoThreadsTwoFiles` | download.c:296-316 | an endless run for two threads and files of one and of two bundles |
| `Pipeline.ManifestIsFetchable` | rman.c:161-298 | whatever is on disk, every group of a file belongs to a bundle of the manifest and is a chunk list as `download_ranges` demands it |
| `Pipeline.GetBundle` | download.c:83-95 | bundles from disk and from the server are the same to a worker |
| `Pipeline.FetchBundle` | download.c:81-112 | one write per chunk with its decompressed bytes, or an unavailable bundle, or a size that the manifest did not state |
| `Pipeline.FetchedAsPromised` | download.c:96-107 | when the bundle packs the target, what is written is what the job promised |
| `Pipeline.GroupsBring` | download.c:248 | grouping neither loses nor adds a write |
| `Pipeline.DispatchRepairs` | download.c:247-248 | the job made of any earlier content can be completed by its bundles in any order |
| `Pipeline.FetchClaimed` | download.c:67-112 | the writes fetched for a claimed bundle are exactly those of the job that the protocol is about |
| `Pipeline.PlanFile` | download.c:145-251 | option by option: what verify-only, existing-only and skip-existing leave unchanged; any other file is left alone exactly if it is right, cut to size exactly if it exists and no chunk is wrong, and otherwise resized to one byte more, with bundles that repair it |
| `Outcome.EndToEnd` | download.c:121-330 | after a complete run a file that the options protect is what it was, and any other one is its target if and only if nobody entered it after a passed test before cleanup or the target is empty; without chunks, if and only if it existed |
| `Outcome.FetchedIsPromised` | download.c:81-112 | from the manifest's catalogue, its shared list and bundles that pack the files, the writes fetched for each group are the promised ones |
| `Outcome.WholeDownload` | download.c:121-330 | from the same, for any earlier disk content, options, threads and interleaving: the final content of every file, under the same condition |
| `Outcome.SureToComeOut` | download.c:121-330 | a dispatched file with chunks is its target after every complete run if and only if there is one thread, or one bundle, or the target is empty |
| `Outcome.NewEmptyFile` | download.c:242-295 | for a new file without chunks and any number of threads there is a complete run, and it leaves one byte behind |

## Left out

- Threads are the steps of a state machine on values, not methods on shared objects, because the properties are about
  their interleavings. Local buffers that nothing else can see (the message schedule, the range map, the request
  header) are sequences.
- Sockets, TLS, reconnecting, DNS and the chunked transfer decoder: `receive_http_body` is a function from the number
  and text of a request to an optional reply.
- zstd and BLAKE3: parameters. `FetchBundle` covers a decompressed size that differs from the manifest.
- The x86 branch of `sha256_update`, chosen by `hasShaExtension`: intrinsics; the portable branch is modelled.
- Decoding the FlatBuffer, languages and the look-up of hash types by `param_index`: the model begins with decoded
  vectors and a hash type per file. Little-endian loads are assumed.
- `remove_object`: unused.
- Memory lifetime: freed lists, locks and counters. In particular the second cleanup of a file uses freed memory in
  the program; the model lets it run as if the memory were still there.
- Weak memory: every single read and store is atomic and seen by all threads at once. Reads and stores that no lock
  joins are separate steps: the read of `file_index_finished` for a last claim and the store that follows, main's
  test of it, and the unlocked read of `threads_visited`.
- The seek, the length and the truncation of one cleanup are one step. Cleanups of one file that overlap also close
  its stream twice, which has no defined meaning.
- `*index` is an unbounded natural; in the program it wraps after 2^32 claims.
- Two files of a download have different paths.
- Pipe capacities: a write to a pipe never blocks.
- Failing system calls, and the ending of the whole process when a bundle cannot be fetched: in the worker protocol
  every fetch succeeds. `FetchBundle` says when it does.
- Options, filters, printing, directory creation, URL splitting and file matching: user interface.
- DownloadRanges: the server does not coalesce ranges, part heads have no NUL, there is no preamble, and at most one
  additional line break precedes the first boundary. `ExtraLineBreaks` shows that bound to be exact. Without these
  `strstr` may return null, which the program does not check.
- Fetchable: chunks have positive compressed sizes, bundles have less than 4 GiB, and no two bundles of a manifest have
  the same id. The program relies on all three.
- GetRanges: chunks that are empty or reach beyond the end of the file make the program's assertion fail.
- SortList: lists of at most 2^30 elements, because beyond it `i + 2 * width` overflows an int (`SortLengthIsTight`).
- Add: lists with room, or a capacity of at least two; growing by half does nothing for a smaller one. The program
  uses 16 or the exact final size.
- Length fields of lists are unbounded naturals, except in SortList.
- BuildPath: names are strings; the 255-byte copy of a 255-character name, and a leaf of more than 255 characters,
  overrun their buffers in the program before its assertion is reached.
- EndToEnd: a second cleanup of a file whose target is empty finds nothing left to cut, where the program's assertion
  on `ftruncate` fails.
- CleanupIsSafe: whether a cleanup is the first is part of its conclusion, because a second one can occur.
