# A verified model of `xtax-blob-storage`

`xtax-blob-storage` builds a blob store by stacking thin layers (prefix, encryption,
cleanup) over a filesystem or S3 backend and runs maintenance in the background. Its
promises are about how several backend calls, loops or tasks fit together: a logical blob
of the encryption layer is two backend objects written one after the other, a listing is a
directory walk narrowed by a hint, a cleanup deletes from the listing it is traversing.
This project models those parts and proves the promises for every input, every stack of
layers, every pattern of failing calls or every interleaving. `dafny verify dfyconfig.toml`
checks all of it.

## How the model is laid out

| File | Part of the library |
|---|---|
| `Keys.dfy`, `Filters.dfy`, `Sorting.dfy` | key validation and its theory under concatenation, listing order, list filters and hints |
| `Stores.dfy` | the backend, the three layers and every operation on a stack of them, as functions |
| `StoreMethods.dfy` | the same operations step by step on a backend that changes in place, with the visitors as classes; each is proved equal to its function |
| `Layers.dfy`, `Writes.dfy`, `Deletes.dfy` | theorems on every stack: what is visible, what a write may touch, what is reported |
| `MapStore.dfy`, `MapMaintenance.dfy` | without failures a stack of any depth is a map; cleanup and re-keying in those terms |
| `EncryptedRuns.dfy`, `Rekeys.dfy`, `DecryptPipe.dfy` | the encryption layer: whole runs with failures, re-keying, streaming decryption |
| `Interchange.dfy` | prefix over encryption is encryption over prefix |
| `Cleanup.dfy` | batched deletes from inside the traversal |
| `FsTree.dfy`, `FsWalk.dfy`, `FsVisit.dfy` | the filesystem backend as a tree, its walk, and its walk while files are being deleted |
| `FsBackend.dfy`, `FsStacks.dfy`, `FsStackReads.dfy`, `FsRuns.dfy`, `FsCleanup.dfy` | the tree as the backend of the layers: single calls, then puts, deletes, reads, histories and cleanups of whole stacks |
| `S3Upload.dfy`, `S3Puts.dfy`, `S3Batches.dfy`, `S3Visit.dfy` | the S3 backend's streaming put, batch put, chunked delete, paged listing, and its paged visit while objects are being deleted |
| `Builder.dfy`, `Scheduler.dfy` | the builder, and the maintenance scheduler as a step system |

A `World` is the backend at one moment: its objects, the calls it has received and a
script of faults yet to come, one per access to one object. Every theorem quantifies over
worlds, so over every pattern of failing calls. A failed write of one object changes
nothing; whatever the cause of a failure, it is one of two faults, that of one object's
access or that of the whole call. The encryption provider is a triple of unknown
functions with the laws `Lawful`; `ShiftProvider` shows they can be met. How encryption of
an input goes, its random choice included, is part of the input (`Sealing`).

Four theorems are good starting points:

* `MapStore.StoreIsMap`: on an empty backend and without failures, any stack of layers
  answers every history of put, delete, get, exists and list as a plain map does, refusals
  included. (With more than one encryption layer, puts and reads must be of keys the stack
  accepts.)
* `EncryptedRuns.RunFaithful`: whatever calls fail during puts, deletes and re-keys, a key
  of the encrypted store is invisible or reads exactly what its last completed put stored,
  unless a rollback failed over an old header.
* `FsRuns.TreeRunFaithful`: on a filesystem that condition is not needed. However keys
  collide with directories, a key reads what its last put that the store reported as done
  has stored, or nothing.
* `Interchange.SessionsSame`: the two orders of prefix and encryption layer make the same
  backend calls and give the same answers, whatever fails and whatever else the backend
  holds, for a prefix that is empty or ends in `/` and a header suffix without `/`.
  Re-keying is the exception: encryption beneath the prefix also re-keys headers outside
  it. A session that re-keys therefore needs a backend without such headers, and
  `RekeySameExactly` and `RekeyResultSame` show that condition to be exact.

## Where the code falls short of its documentation

* **A stranded overwrite is readable.** `crates/xtax-blob-storage/docs/encryption.md:252-261`
  says that a failed header write with a failed rollback leaves an invisible orphan. When
  the put overwrote a blob, the old header is still there and the key reads new data under
  an old header. `PutOneReadings` gives the exact condition (`Harmful`), and
  `StrandedOverwriteIsGarbage` a family of cases where the result is neither plaintext.
* **Two encryption layers destroy data.** `crates/xtax-blob-storage/src/blob_store.rs:35-36`
  promises that a rejected batch preserves existing blobs. In a stack with several
  encryption layers of one suffix, wherever they stand, the inner one refuses the outer
  one's header key after the data was replaced, and the rollback deletes it
  (`NestedPutDestroys`). The builder allows such stacks; `TwiceEncryptedRefusesAll` shows
  that they accept no key at all, and `BuiltRefusesSafely` that a built store keeps the
  promise if and only if it has at most one encryption layer or a prefix that lets no key
  through.
* **Some prefix hints list keys that no file has.** A hint such as `a//b/` passes
  validation, names the directory `a/b`, and yields keys with the doubled separator.
  `HintsThatList` shows that a hint lists correctly on every tree if and only if it passes
  `HintExact`, a check on the hint alone. The comment at
  `crates/xtax-blob-storage/src/fs/store.rs:209-211` says that hints not ending in `/` walk
  the full root; the code walks the hint's parent directory, and so does the model.
* **A prefix that does not end in `/` can show keys it refuses.** `PrefixesThatShow` gives
  the exact set of prefixes for which every listed key is accepted by the other operations.
* **A provider that panics, or closes its output and then fails, is not reported**
  (`PanicEndsClean`, `EarlyShutEndsClean`): the decrypted stream ends cleanly. In every
  other case a clean end means that decryption returned `Ok`, and in every case all that
  the provider wrote has arrived (`CleanEndMeansComplete`).
* **`get` on the name of a directory opens** and fails only when read (`ReadsRefine`).

The counter behind `Manual::trigger` is read and written back in two steps. It is
documented not to be an exact event counter; `CounterCounts` says exactly when it is one:
if and only if no other send falls between a trigger's read and its send. No trigger is
lost in any case, because the loops compare channel versions (`ManualLosesNoTrigger`).

## Model

| member | source | states |
|---|---|---|
| Keys.ValidMeaning | crates/xtax-blob-storage/src/validate.rs:59-98 | the early-exit checks accept a key exactly if it has no backslash and every component is non-empty and neither `.` nor `..` |
| Keys.PrefixedValidity | crates/xtax-blob-storage/src/prefix.rs:123-128 | for every valid key, whether the prefixed key is valid depends on the prefix alone |
| Keys.SuffixedValidity | crates/xtax-blob-storage/src/encrypt/store.rs:131-133 | for every valid key, whether the header key is valid depends on the suffix alone |
| Keys.StrippedValidity | crates/xtax-blob-storage/src/prefix.rs:130-136 | under a prefix that is empty or ends in `/`, stripping keeps keys valid |
| Keys.SuffixIgnoresPrefix | crates/xtax-blob-storage/src/encrypt/store.rs:140-148 | a suffix without `/` cannot match across a directory prefix |
| Keys.SplitJoin | crates/xtax-blob-storage/src/fs.rs:168-175 | splitting a joined path gives back its components, so distinct paths have distinct keys |
| Keys.JoinSplit | crates/xtax-blob-storage/src/fs.rs:168-175 | joining the components of a key gives back the key |
| Keys.LessMeaning | crates/xtax-blob-storage/src/fs/store.rs:244 | listing order is that of the first difference, a proper prefix coming first |
| Layers.OwnsDisjoint | crates/xtax-blob-storage/src/encrypt/store.rs:131-148 | two logical keys of any stack never share a backend object |
| Layers.ExistsExact | crates/xtax-blob-storage/src/encrypt/store.rs:441-455 | through any stack `exists` changes nothing and answers visibility: at every encryption layer both data and header are there and the key is not a header's |
| Layers.GetExact | crates/xtax-blob-storage/src/encrypt/store.rs:341-352 | an opened stream carries exactly what the stored objects decrypt to; `NotFound` is said only of invisible keys and only under the caller's key |
| Layers.ListExact | crates/xtax-blob-storage/src/encrypt/store.rs:400-423 | a listing that returns `Ok` is the strictly sorted listing of exactly the visible matching keys, for any stack and any filter that honours its hint |
| Layers.ListPrefixed | crates/xtax-blob-storage/src/prefix.rs:272-285 | stripping and filtering the inner listing gives the exact sorted listing of the prefix layer |
| Layers.ReachExact | crates/xtax-blob-storage/src/encrypt/visitors.rs:21-36 | the chain of visitors forwards an object exactly if it is the data object of a visible matching key, and under that key |
| Layers.ReachPrefixed | crates/xtax-blob-storage/src/prefix.rs:198-219 | the prefix visitor turns an exact inner traversal into an exact outer one |
| Rekeys.FlatView | crates/xtax-blob-storage/src/prefix.rs:224-285 | a stack without encryption is the view from `k` to the object named by the joined prefixes and `k` |
| Writes.AcceptsUniform | crates/xtax-blob-storage/src/prefix.rs:123-128 | a stack without encryption accepts all valid keys or none |
| Writes.PutRejects | crates/xtax-blob-storage/src/blob_store.rs:33-39 | with at most one encryption layer `put` answers `InvalidInput` exactly if some layer refuses some key of the batch, and then no call is made and nothing changes |
| Writes.PutTouches | crates/xtax-blob-storage/src/encrypt/store.rs:236-338 | whatever fails, `put` changes only objects owned by keys of its batch |
| Writes.DeleteTouches | crates/xtax-blob-storage/src/encrypt/store.rs:355-397 | whatever fails, `delete` only removes objects, and only ones owned by its keys |
| Writes.Confined | crates/xtax-blob-storage/src/prefix.rs:224-269 | no stack changes an object outside its own prefix |
| Writes.PutReturns | crates/xtax-blob-storage/src/prefix.rs:236-244 | a successful `put` reports the caller's keys in order; no prefix and no header key shows |
| Writes.VisibleIsAccepted | crates/xtax-blob-storage/src/prefix.rs:272-285 | where every prefix is empty or ends in `/`, every key any stack shows is accepted by all its operations |
| Writes.PrefixesThatShow | crates/xtax-blob-storage/src/prefix.rs:272-309 | for a single prefix that holds on every backend if and only if the prefix is empty, ends in `/`, or has no valid key under it |
| Deletes.DeleteOutcome | crates/xtax-blob-storage/src/encrypt/store.rs:355-397 | through a stack of any depth a delete of accepted keys is a storage error exactly if a failing request breaks off the call; otherwise it lists exactly the keys whose data object was removed and those whose data object was not, under the caller's names and in order; header objects never show |
| Deletes.DeleteReports | crates/xtax-blob-storage/src/prefix.rs:157-184 | such a delete is `Ok` if and only if no request broke off the call and no data object failed; it is a storage error if and only if one did; in between, `succeeded` and `errors` together are a permutation of the caller's keys |
| Deletes.DeleteEffect | crates/xtax-blob-storage/src/blob_store.rs:44-64 | keys not reported as failed are invisible afterwards; every other key reads as before |
| EncryptedRuns.PutOneObjects | crates/xtax-blob-storage/src/encrypt/store.rs:246-333 | the exact objects after storing one blob, in every case of failure and rollback |
| EncryptedRuns.PutOneAnswers | crates/xtax-blob-storage/src/encrypt/store.rs:246-333 | and its answer: the caller's key, an encryption error if the input broke after the data was stored, a storage error otherwise |
| EncryptedRuns.PutOneReadings | crates/xtax-blob-storage/src/encrypt/store.rs:246-333 | what every key reads afterwards: the new plaintext, what it read before, or nothing; new data under the old header exactly if the rollback failed too and an old header was there |
| EncryptedRuns.LaterBlobsUntouched | crates/xtax-blob-storage/src/encrypt/store.rs:246-274 | a batch that fails has touched no object of the blobs after the failing one |
| EncryptedRuns.ShiftProviderLawful | crates/xtax-blob-storage/tests/common/encrypt.rs:125-185 | a provider that shifts bytes by a key stored wrapped in the header satisfies the laws |
| EncryptedRuns.StrandedOverwriteIsGarbage | crates/xtax-blob-storage/src/encrypt/store.rs:317-325 | with it, an overwrite whose header write and rollback both fail leaves the key readable as neither the old nor the new plaintext |
| EncryptedRuns.PutFaithful | crates/xtax-blob-storage/src/encrypt/store.rs:236-338 | one `put`, whatever fails, keeps every readable key at the plaintext of its last completed put |
| EncryptedRuns.RunFaithful | crates/xtax-blob-storage/src/encrypt/store.rs:155-397 | the same through any sequence of puts, deletes and re-keys; a key becomes invisible only through a delete of it or a failed put of it |
| Rekeys.VisitEffect | crates/xtax-blob-storage/src/encrypt/rekey.rs:21-60 | one visit replaces at most the visited header, by the provider's re-wrap of it, and counts one exactly then |
| Rekeys.RekeyKeepsReadings | crates/xtax-blob-storage/src/encrypt/store.rs:155-168 | for any traversal order and any failures, re-keying changes no data object and no reading of any key |
| Rekeys.RekeyCounts | crates/xtax-blob-storage/src/encrypt/store.rs:155-168 | the reported count is the number of headers that now differ |
| Rekeys.RekeyRenews | crates/xtax-blob-storage/src/encrypt/rekey.rs:21-60 | the exact objects after a failure-free pass: the presented headers that needed it are re-wrapped, all else is as before |
| Rekeys.RekeyCalls | crates/xtax-blob-storage/src/encrypt/rekey.rs:21-60 | whatever fails, re-keying a stack calls for no object outside its prefix |
| Rekeys.RekeyReads | crates/xtax-blob-storage/src/encrypt/store.rs:155-168 | a pass that reports success, whatever failed in it, has read every accepted header of its traversal |
| Rekeys.BrokenTraversalFails | crates/xtax-blob-storage/src/encrypt/store.rs:162 | a traversal that breaks off makes the pass an error |
| Rekeys.UnreadGoesOn | crates/xtax-blob-storage/src/encrypt/rekey.rs:33-36 | a header that cannot be fetched does not end a pass: the rest of it is as if the object were not there |
| Rekeys.RefusedGoesOn | crates/xtax-blob-storage/src/encrypt/rekey.rs:54-56 | nor does one the provider fails to re-wrap |
| Rekeys.WriteGoesOn | crates/xtax-blob-storage/src/encrypt/rekey.rs:46-49 | nor one whose new header cannot be written back, which is then not counted; one that is written replaces the old and is counted |
| Rekeys.BrokenStreamFails | crates/xtax-blob-storage/src/encrypt/rekey.rs:25-30 | a header stream that breaks while it is read does end it, with an error |
| Rekeys.RekeySettles | crates/xtax-blob-storage/src/encrypt/rekey.rs:40-57 | a failure-free pass leaves no header it came to in need of re-wrapping |
| Rekeys.SecondPassCountsNothing | crates/xtax-blob-storage/src/encrypt/store.rs:155-168 | after a failure-free pass over all objects, any later pass, failing or not, changes and counts nothing |
| DecryptPipe.CleanEndMeansComplete | crates/xtax-blob-storage/src/encrypt/store.rs:32-52 | over every interleaving of decryption and reader, a clean end means that every byte ever written has arrived and that decryption returned `Ok`, panicked or shut its output early; a failure with the output open is delivered before any clean end, and no error is made up |
| DecryptPipe.ReaderReachesTheEnd | crates/xtax-blob-storage/src/encrypt/store.rs:32-52 | however a decryption went, once its task has finished a caller who reads on gets all that was written and then the end: the error if decryption failed, a clean end if not |
| DecryptPipe.TaskFinishes | crates/xtax-blob-storage/src/encrypt/store.rs:204-215 | a task still decrypting can finish either way, and a failure then is in the slot before the output closes |
| DecryptPipe.ErrorReportedOnce | crates/xtax-blob-storage/src/encrypt/store.rs:40-46 | over every interleaving the caller is told of a failed decryption at most once |
| DecryptPipe.EmptyPollMayFailEarly | crates/xtax-blob-storage/src/encrypt/store.rs:38-46 | a poll without room takes the error too, and may do so ahead of bytes not yet read: a run in which it does |
| DecryptPipe.InvRun | crates/xtax-blob-storage/src/encrypt/store.rs:188-221 | every reachable state keeps the bytes received plus buffered equal to those written, and the error in the slot until it is seen |
| DecryptPipe.PanicEndsClean | crates/xtax-blob-storage/src/encrypt/store.rs:200-214 | after a panic the caller reads a truncated stream that ends cleanly |
| DecryptPipe.EarlyShutEndsClean | crates/xtax-blob-storage/src/encrypt/store.rs:200-214 | a provider that shuts its output and then fails leaves the caller with a clean end: the whole run, failure included |
| Interchange.PutSame | crates/xtax-blob-storage/src/encrypt/store.rs:236-338 | `put` through prefix over encryption equals `put` through encryption over prefix, backend calls included |
| Interchange.DeleteSame | crates/xtax-blob-storage/src/prefix.rs:258-269 | so does `delete`, batch errors included |
| Interchange.GetSame | crates/xtax-blob-storage/src/prefix.rs:248-255 | so does `get`, for every key |
| Interchange.ExistsSame | crates/xtax-blob-storage/src/prefix.rs:302-309 | so does `exists` |
| Interchange.ListSame | crates/xtax-blob-storage/src/prefix.rs:272-285 | both orders list the same keys whenever both succeed, whatever fails elsewhere |
| Interchange.RekeySame | crates/xtax-blob-storage/src/encrypt/store.rs:155-168 | given one traversal, with the same page failures for both, re-keying makes the same calls and reports the same count in both orders, whatever calls fail, if the traversal has no foreign header (an accepted header object outside the prefix) |
| Interchange.RekeySameExactly | crates/xtax-blob-storage/src/encrypt/store.rs:155-168 | without failures that holds if and only if the traversal has no foreign header |
| Interchange.RekeyResultSame | crates/xtax-blob-storage/src/encrypt/store.rs:155-168 | without failures the two orders leave the same objects and report the same count if and only if no foreign header in the traversal needs re-wrapping |
| Interchange.ForeignHeaderRewritten | crates/xtax-blob-storage/src/encrypt/store.rs:155-168 | shown one foreign header that needs it, encryption beneath the prefix rewrites it and counts one, encryption above leaves it and counts none |
| Interchange.SessionsSame | crates/xtax-blob-storage/src/encrypt/store.rs:131-148 | the two orders agree on whole sessions of put, get, delete, exists and re-keying, answers and call logs alike, whatever fails and whatever the backend holds; only a session that re-keys must find no foreign header there |
| Interchange.HistoriesSame | crates/xtax-blob-storage/src/blob_store.rs:33-88 | without failures they agree on whole histories with listings too, on every backend where the store shows a map |
| Interchange.DeleteWithin | crates/xtax-blob-storage/src/prefix.rs:157-184 | a batch error of any stack, whatever fails, speaks only of keys the caller passed |
| MapStore.PutSucceeds | crates/xtax-blob-storage/src/encrypt/store.rs:236-338 | without failures an accepted batch is stored by any stack, and every key reads the data of its last blob in the batch |
| MapStore.PutCompletes | crates/xtax-blob-storage/src/encrypt/store.rs:236-338 | without failures an accepted batch goes through at any depth, whatever the providers do |
| MapStore.DeleteSucceeds | crates/xtax-blob-storage/src/encrypt/store.rs:355-367 | without failures an accepted delete removes every object of its keys, headers included |
| MapStore.DeleteRejectsAll | crates/xtax-blob-storage/src/blob_store.rs:60-64 | a delete with a key some layer refuses changes nothing, at any depth |
| MapStore.GetMisses | crates/xtax-blob-storage/src/encrypt/store.rs:341-352 | `get` of an accepted invisible key is `NotFound` under that key, at any depth |
| MapStore.GetAnswers | crates/xtax-blob-storage/src/encrypt/store.rs:175-222 | without failures, on any backend, `get` of an accepted visible key opens its stream, even one that will break, but is an error already if a header breaks; up to one encryption layer an invisible key is `NotFound` |
| MapStore.ReadsReject | crates/xtax-blob-storage/src/prefix.rs:248-309 | with at most one encryption layer, `get` and `exists` of a key some layer refuses are refused before any backend call |
| MapStore.ListSucceeds | crates/xtax-blob-storage/src/encrypt/store.rs:400-423 | without failures and orphans a listing succeeds at any depth |
| MapStore.ListOnShared | crates/xtax-blob-storage/src/encrypt/store.rs:400-423 | nor do orphans or other owners' objects keep a listing from succeeding, under directory prefixes and at most one encryption layer |
| MapStore.VisibleIsReadable | crates/xtax-blob-storage/src/encrypt/store.rs:441-455 | where every object belongs to a readable key, every visible key is accepted and readable |
| MapStore.ServeRepresents | crates/xtax-blob-storage/src/blob_store.rs:33-88 | one failure-free operation on a store that shows a map answers as the map and leaves it showing the updated map, refused keys included up to one encryption layer |
| MapStore.HistoryFromMap | crates/xtax-blob-storage/src/blob_store.rs:33-88 | so does every history of operations |
| MapStore.StoreIsMap | crates/xtax-blob-storage/src/blob_store.rs:33-88 | a stack of any depth on an empty backend is, without failures, a map; beyond one encryption layer this is said of puts and reads of accepted keys |
| MapMaintenance.CleanupClears | crates/xtax-blob-storage/src/cleanup.rs:107-125 | without failures, on any backend whose names no layer of the stack refuses, orphans included, cleanup succeeds, counts the visible matching keys, and removes exactly the data and header objects of those keys |
| MapMaintenance.CleanupOnShared | crates/xtax-blob-storage/src/cleanup.rs:107-125 | that holds for every stack of directory prefixes with at most one encryption layer on every backend of valid keys, whoever else has objects there |
| MapMaintenance.CleanupIsFilter | crates/xtax-blob-storage/src/cleanup.rs:107-125 | and for a stack of any depth where every object belongs to a readable key: the map is then left without the matching keys |
| MapMaintenance.RekeyKeepsMap | crates/xtax-blob-storage/src/encrypt/store.rs:155-168 | re-keying leaves the shown map as it is, whatever fails |
| Cleanup.CleanupExact | crates/xtax-blob-storage/src/cleanup.rs:107-125 | through any stack and any traversal that may still present deleted objects: only objects of visible matching keys go, every delete call has between one and max(batch size, 1) keys, and on success all matching keys are invisible and `deleted_count` is their number |
| Cleanup.CleanupReports | crates/xtax-blob-storage/src/cleanup/visitor.rs:20-29 | a cleanup that ends in a failed delete call reports that call's own error |
| Cleanup.SweepInvariant | crates/xtax-blob-storage/src/cleanup/visitor.rs:32-47 | the state between visits: each key passed is in exactly one delete call or the batch, and what is gone belongs to keys in delete calls |
| Cleanup.SparedKeysUnchanged | crates/xtax-blob-storage/src/cleanup/visitor.rs:32-47 | keys the predicate spares read the same after any cleanup, finished or not |
| StoreMethods.PutVia | crates/xtax-blob-storage/src/prefix.rs:224-245 | `put` as a sequence of backend calls is the function the theorems are about |
| StoreMethods.EncryptedPut | crates/xtax-blob-storage/src/encrypt/store.rs:236-338 | so is the loop over the blobs of a batch |
| StoreMethods.EncryptedPutBlob | crates/xtax-blob-storage/src/encrypt/store.rs:246-333 | so is one turn of it: data, header, rollback |
| StoreMethods.DeleteVia | crates/xtax-blob-storage/src/encrypt/store.rs:355-397 | so is `delete` |
| StoreMethods.GetVia | crates/xtax-blob-storage/src/encrypt/store.rs:341-352 | so is `get` |
| StoreMethods.ExistsVia | crates/xtax-blob-storage/src/encrypt/store.rs:441-455 | so is `exists` |
| StoreMethods.ListVia | crates/xtax-blob-storage/src/encrypt/store.rs:400-423 | so is `list`, with its loop over candidate keys |
| StoreMethods.ReachVia | crates/xtax-blob-storage/src/encrypt/store.rs:426-438 | so is one step of `visit` |
| StoreMethods.RekeyVisitor.Visit | crates/xtax-blob-storage/src/encrypt/rekey.rs:21-60 | so is the re-keying visitor with its counter |
| StoreMethods.Rekey | crates/xtax-blob-storage/src/encrypt/store.rs:155-168 | so is a whole re-keying pass |
| StoreMethods.CleanupVisitor.Flush | crates/xtax-blob-storage/src/cleanup/visitor.rs:20-29 | so is the flush of the cleanup visitor |
| StoreMethods.CleanupVisitor.Visit | crates/xtax-blob-storage/src/cleanup/visitor.rs:32-47 | so is its visit |
| StoreMethods.RunCleanup | crates/xtax-blob-storage/src/cleanup.rs:107-125 | so is a whole cleanup |
| FsTree.ContainsIsAbove | crates/xtax-blob-storage/src/fs.rs:168-175 | one key is a directory of another exactly if its path is an ancestor of the other's |
| FsTree.FsBlobStore.CreateDirAll | crates/xtax-blob-storage/src/fs/store.rs:119-121 | creates all missing ancestors, or fails with nothing changed exactly if a file is among them |
| FsTree.FsBlobStore.WriteFile | crates/xtax-blob-storage/src/fs/store.rs:117-126 | storing one file ends in the specified tree and keeps it well formed |
| FsTree.FsBlobStore.Put | crates/xtax-blob-storage/src/fs/store.rs:109-142 | one invalid key rejects the batch untouched; otherwise blobs are stored in order up to the first collision |
| FsTree.FsBlobStore.Delete | crates/xtax-blob-storage/src/fs/store.rs:157-201 | one invalid key rejects the batch untouched; otherwise every key is tried, absent files count as removed, and collisions are collected |
| FsTree.PutRefines | crates/xtax-blob-storage/src/fs/store.rs:109-142 | a put on the tree is a put on a flat map that fails exactly beneath a blob or on the name of a directory, also one that deletes emptied |
| FsTree.DeleteRefines | crates/xtax-blob-storage/src/fs/store.rs:157-201 | likewise a delete |
| FsTree.ReadsRefine | crates/xtax-blob-storage/src/fs/store.rs:145-154 | reads see the flat map, except that `get` on a directory's name opens a stream that fails |
| FsTree.HistoriesRefine | crates/xtax-blob-storage/src/fs/store.rs:109-201 | over every history tree and flat map succeed on the same calls and hold the same blobs |
| FsTree.HistoriesFromEmpty | crates/xtax-blob-storage/src/fs/store.rs:109-201 | in particular from an empty root |
| FsWalk.ReadDirectory | crates/xtax-blob-storage/src/fs/store.rs:219-240 | reading one directory, in any order, adds its matching files and queues its directories |
| FsWalk.Walk | crates/xtax-blob-storage/src/fs/store.rs:213-241 | the breadth-first walk ends, and collects each matching file under the start exactly once |
| FsWalk.List | crates/xtax-blob-storage/src/fs/store.rs:204-247 | `list` returns the specified result for every tree and filter: an error exactly where `ListSucceeds` says, nothing if the start is no directory, and otherwise the sorted keys the walk produces |
| FsWalk.ListSucceeds | crates/xtax-blob-storage/src/fs/store.rs:34-63 | `list` is `Ok` if and only if the hint is a relative path without backslash, `.` or `..`, and no file lies above the start directory, nor in its place when the hint ends in `/`; only a bad hint is `InvalidInput` |
| FsWalk.ListFaithful | crates/xtax-blob-storage/src/fs/store.rs:88-104 | for every tree and hint-sound filter whose hint passes `HintExact`, a listing that returns `Ok` is the sorted listing of all matching files |
| FsWalk.ListComplete | crates/xtax-blob-storage/src/fs/store.rs:204-247 | so under a hint that passes `HintExact` it returns the sorted listing of all matching files, the empty one if the start directory is missing |
| FsWalk.ListUnfaithful | crates/xtax-blob-storage/src/fs/store.rs:88-104 | for every other hint some tree with one file makes it list a key no file has |
| FsWalk.HintsThatList | crates/xtax-blob-storage/src/fs/store.rs:34-53 | a hint lists correctly on every tree if and only if it passes `HintExact` |
| FsBackend.FsDelete | crates/xtax-blob-storage/src/fs/store.rs:157-201 | a delete on the tree is the abstract backend's delete under faults that hit exactly the keys blocked at their turn (a file above them, or a directory of that name) and never break off the call, whatever faults come later |
| FsBackend.FsPut | crates/xtax-blob-storage/src/fs/store.rs:109-142 | a put on the tree is the abstract backend's put failing at the first collision |
| FsBackend.FsReads | crates/xtax-blob-storage/src/fs/store.rs:145-154 | so are the reads, apart from `get` on a directory |
| FsBackend.FsList | crates/xtax-blob-storage/src/fs/store.rs:204-247 | so is a listing under a hint that passes `HintExact`, where no file is in its way |
| FsStacks.DeleteSim | crates/xtax-blob-storage/src/fs/store.rs:157-201 | a delete through any stack over the tree is the delete through that stack over the abstract backend where exactly the accesses to blocked objects fail, so every theorem on stacks applies |
| FsStacks.PutSim | crates/xtax-blob-storage/src/fs/store.rs:109-142 | so is a put, encryption with its rollback included |
| FsStacks.TreeDeleteReports | crates/xtax-blob-storage/src/fs/store.rs:157-201 | over the filesystem a delete of accepted keys, through a stack of any depth, is `Ok` if and only if no data object is blocked at its turn; otherwise it reports a permutation of the caller's keys; every key not reported as failed has lost its data object and is invisible |
| FsStacks.RolledBack | crates/xtax-blob-storage/src/encrypt/store.rs:292-325 | over the filesystem a put that fails after its data object is stored takes that object back |
| FsStackReads.ExistsSim | crates/xtax-blob-storage/src/fs/store.rs:250-256 | `exists` through any stack over the tree is `exists` over the abstract backend without failures |
| FsStackReads.GetSim | crates/xtax-blob-storage/src/fs/store.rs:145-154 | so is `get`, where none of the key's objects has the name of a directory |
| FsStackReads.TreeListExact | crates/xtax-blob-storage/src/fs/store.rs:204-247 | a listing of a whole stack over the tree that returns `Ok` is the sorted listing of exactly the visible matching keys, where no file is in the way and the hint that reaches the walk passes `HintExact` |
| FsStackReads.TreeListComplete | crates/xtax-blob-storage/src/fs/store.rs:204-247 | and under directory prefixes and at most one encryption layer it does return `Ok`, orphans or not |
| FsRuns.RekeySim | crates/xtax-blob-storage/src/encrypt/store.rs:155-168 | re-keying over the tree is re-keying over a backend where nothing fails: overwriting a header never collides |
| FsRuns.RunSim | crates/xtax-blob-storage/src/encrypt/store.rs:155-397 | a history of puts, deletes and re-keyings on the tree is one on the abstract backend in which no rollback is stranded, with the same objects and the same record of which puts were done |
| FsRuns.TreeRunFaithful | crates/xtax-blob-storage/src/encrypt/store.rs:155-397 | so over the filesystem, whatever keys collide, every such history leaves each key invisible or reading the plaintext of its last put that the tree reported as done, and readable unless a delete of it or a failed put of it came later, with no condition on rollbacks |
| FsCleanup.CleanSim | crates/xtax-blob-storage/src/cleanup.rs:107-125 | a cleanup of any stack over the tree is a cleanup over a backend where nothing fails: what it deletes it has just been shown, so nothing collides |
| FsCleanup.TreeCleanup | crates/xtax-blob-storage/src/cleanup.rs:107-125 | under directory prefixes and at most one encryption layer a cleanup on the filesystem always succeeds, counts the visible matching keys and removes exactly the files of their data and headers; no directory goes |
| FsVisit.VisitDirectory | crates/xtax-blob-storage/src/fs/store.rs:290-319 | reading one directory while files go: each of its initial files has one turn until the visitor ends the visit, and is shown exactly if it is still there and the filter selects it |
| FsVisit.Visit | crates/xtax-blob-storage/src/fs/store.rs:275-325 | a visit fails to start exactly where a listing does, and calls nothing if the start is no directory; otherwise, whatever the visitor deletes, the walk ends, and the visitor is called with each file under the start once at most, at its turn, if and only if it is still there and selected; the walk goes on as long as the visitor says so, and its last answer is the one passed on |
| FsVisit.SelectedAreCovered | crates/xtax-blob-storage/src/fs/store.rs:88-104 | under a filter that honours a hint passing `HintExact`, every selected file of the tree has its turn, and is shown under its own key |
| FsVisit.VisitIsTraversal | crates/xtax-blob-storage/src/cleanup.rs:107-125 | so the walk is a traversal of the kind the cleanup theorems are about, presenting no deleted object |
| S3Upload.PartSize | crates/xtax-blob-storage/src/s3.rs:67-70 | the part size is the one asked for or the minimum, whichever is larger |
| S3Upload.ChunksFlatten | crates/xtax-blob-storage/src/s3/multipart.rs:76-166 | the parts put together are the input |
| S3Upload.ChunkSizes | crates/xtax-blob-storage/src/s3/multipart.rs:76-166 | all parts but the last have exactly the part size, and their number is the length over it, rounded up |
| S3Upload.UploadParts | crates/xtax-blob-storage/src/s3/multipart.rs:76-166 | uploads the chunks in order as parts from 1, or aborts once if a read or a part fails |
| S3Upload.UploadMultipart | crates/xtax-blob-storage/src/s3/multipart.rs:14-34 | succeeds exactly if no read and no request fails; then the object is the input, otherwise no object changed |
| S3Upload.PutStream | crates/xtax-blob-storage/src/s3/store.rs:31-75 | the same for one blob with the lookahead and any short reads; inputs below 5 MiB go up whole |
| S3Puts.PutAll | crates/xtax-blob-storage/src/s3/store.rs:31-78 | blobs go up one after the other until one fails: the objects are those of the blobs before it |
| S3Puts.Put | crates/xtax-blob-storage/src/s3/store.rs:22-79 | one invalid key rejects the batch with nothing read or sent; otherwise this is the abstract backend's put, and it succeeds exactly if no read and no request fails |
| S3Batches.DeleteChunk | crates/xtax-blob-storage/src/s3/store.rs:101-172 | one request's two result lists are a permutation of its keys, and exactly the succeeded ones are gone |
| S3Batches.Delete | crates/xtax-blob-storage/src/s3/store.rs:90-187 | requests carry the keys in order, at most 1000 each; objects and results are those of the abstract backend's delete under some faults, result lists up to order; a failing request ends the call; otherwise exactly the keys the server denies fail, and absent keys do not |
| S3Batches.List | crates/xtax-blob-storage/src/s3/store.rs:190-241 | however pages are cut this is the abstract backend's listing: the sorted selected keys, or an error exactly if a page fails |
| S3Visit.Visit | crates/xtax-blob-storage/src/s3/store.rs:296-356 | whatever the visitor deletes between and during pages, it is called with the selected keys of the listed pages in order; the visit goes on as long as the visitor says so and a continuation is offered, passes on the visitor's last answer if that ends it, and is a listing error exactly if a page failed |
| S3Visit.VisitIsTraversal | crates/xtax-blob-storage/src/s3/store.rs:296-356 | no key is shown twice and only initial ones are; a visit that runs to its end has shown exactly the selected keys that were there when their page was listed, so none that is still there is missed |
| Builder.RekeyedStack | crates/xtax-blob-storage/src/builder.rs:511-521 | `with_rekey` never changes the built stack; after an encryption layer the last strategy given is the one that counts, after any other layer it has no effect |
| Builder.ResizedStack | crates/xtax-blob-storage/src/builder.rs:573-578 | `with_clean_batch_size` changes the batch size of the cleanup task of the layer added last and nothing else |
| Builder.BlobStoreBuilder.Build | crates/xtax-blob-storage/src/builder.rs:714-741 | rejects the layers exactly if a period of zero was asked for, otherwise yields the stack and the tasks that `BuiltAsAsked` describes |
| Builder.BuiltAsAsked | crates/xtax-blob-storage/src/builder.rs:149-221 | a built store has the layers that were asked for, with their prefixes and providers, in call order from the backend outwards; its tasks are those asked for, in call order, each with its own job, batch size and strategy, on just the layers up to its own |
| Builder.StackedShape | crates/xtax-blob-storage/src/builder.rs:721-725 | a built store lives under its prefixes joined in call order and has one encryption layer per call |
| Builder.AcceptsExactly | crates/xtax-blob-storage/src/validate.rs:59-98 | with at most one encryption layer a stack accepts exactly the valid keys that are not reserved, if all its prefixes are usable |
| Builder.TwiceEncryptedRefusesAll | crates/xtax-blob-storage/src/encrypt/store.rs:140-148 | with two or more of one suffix it accepts no key |
| Builder.NestedPutDestroys | crates/xtax-blob-storage/src/encrypt/store.rs:236-338 | and a put of any valid, unreserved key through any such stack with usable prefixes is refused and leaves no data object under that key |
| Builder.BadPrefixRefuses | crates/xtax-blob-storage/src/prefix.rs:123-128 | a stack with an unusable prefix refuses every batch before any backend call, at any depth |
| Builder.BuiltRefusesSafely | crates/xtax-blob-storage/src/blob_store.rs:33-39 | refused batches always leave a built store's objects as they were if and only if it has at most one encryption layer or an unusable prefix |
| Builder.BuiltPut | crates/xtax-blob-storage/src/blob_store.rs:33-39 | a built store accepts a batch if and only if it has at most one encryption layer, usable prefixes and only valid, unreserved keys in the batch; otherwise, with at most one encryption layer, it makes no backend call |
| Builder.TasksBeneath | crates/xtax-blob-storage/src/builder.rs:149-221 | every maintenance task works on a part of the built stack with the layer that asked for it on top, re-keying on an encryption layer and cleaning on a cleanup layer, and only on objects under the prefixes added before it |
| Builder.BuiltTasksRun | crates/xtax-blob-storage/src/builder.rs:735-738 | every uncancelled run of a built store's scheduler that comes to rest has executed each start-up task exactly once, and each periodic task once and once more for every waking of its loop |
| Builder.BuiltManualTasks | crates/xtax-blob-storage/src/builder.rs:735-738 | and a manual task at most once for each trigger sent since it was scheduled, with a run after each of them |
| Scheduler.InvRun | crates/xtax-blob-storage/src/builder/maintenance.rs:24-57 | every run keeps: accepted tasks are executed, running and queued ones in order; after the stop, executed is a prefix of accepted; at most 16 wait |
| Scheduler.OnStartRunsOnce | crates/xtax-blob-storage/src/builder/strategies.rs:275-293 | at rest without cancellation every start-up task has been executed exactly once, however many there are |
| Scheduler.PeriodicKeepsPace | crates/xtax-blob-storage/src/builder/strategies.rs:339-381 | over every run a periodic loop enqueues at most one task and one more for each waking, and exactly these while nobody cancels |
| Scheduler.PeriodicRepeats | crates/xtax-blob-storage/src/builder/strategies.rs:339-381 | every run from the start that comes to rest uncancelled has executed each periodic task once and once more for each waking of its loop, which sleeps again |
| Scheduler.ManualLosesNoTrigger | crates/xtax-blob-storage/src/builder/strategies.rs:476-502 | at rest without cancellation each registered loop has executed a task enqueued after the last trigger since its registration, and no more tasks than triggers |
| Scheduler.ManualNeedsTriggers | crates/xtax-blob-storage/src/builder/strategies.rs:476-502 | after its registration a manual loop enqueues at most one task per send on its channel, whatever was sent before |
| Scheduler.ManualAnswersTriggers | crates/xtax-blob-storage/src/builder/strategies.rs:476-502 | every send completed after its registration is followed by a task of it that has been executed when an uncancelled run comes to rest |
| Scheduler.IdleEnds | crates/xtax-blob-storage/src/builder/strategies.rs:486-499 | at uncancelled rest a manual loop without handles has ended, and once all loops have, so has the worker |
| Scheduler.DroppedHandlesEndLoops | crates/xtax-blob-storage/src/builder/strategies.rs:486-499 | so every uncancelled run in which the last handle of a channel is dropped and that comes to rest has ended the loops listening to it |
| Scheduler.CounterCounts | crates/xtax-blob-storage/src/builder/strategies.rs:464-467 | over every run of fewer than 2^64 triggers the counter equals the number of sends heard if and only if no trigger was overtaken between its read and its send; otherwise it stays behind for good |
| Scheduler.SerialNeverOvertaken | crates/xtax-blob-storage/src/builder/strategies.rs:464-467 | callers who trigger one at a time are never overtaken |
| Scheduler.SerialCounterExact | crates/xtax-blob-storage/src/builder/strategies.rs:464-467 | for them the counter is the version modulo 2^64 throughout every run, with no bound |
| Scheduler.CounterLosesUpdates | crates/xtax-blob-storage/src/builder/strategies.rs:464-467 | an example of a loss: two overlapping triggers leave the counter at one while the version has risen by two |
| Scheduler.RankDecreases | crates/xtax-blob-storage/src/builder/strategies.rs:275-380 | every step of the scheduler's own, and every sleep after cancellation, decreases a natural number |
| Scheduler.ShutdownTerminates | crates/xtax-blob-storage/src/builder/strategies.rs:275-380 | after cancellation without further triggers every run is finite |
| Scheduler.ShutdownIsComplete | crates/xtax-blob-storage/src/builder/maintenance.rs:33-47 | and where it ends, worker and all loops have stopped; no sender is left blocked |
| Scheduler.CanShutDown | crates/xtax-blob-storage/src/builder/maintenance.rs:33-47 | from every reachable state some run cancels and stops worker and loops |
| Scheduler.CancelCanDrop | crates/xtax-blob-storage/src/builder/maintenance.rs:33-47 | cancellation may leave accepted tasks unexecuted: a run in which it does |
| Scheduler.AtMostOneMore | crates/xtax-blob-storage/src/builder/strategies.rs:339-381 | after cancellation each start-up or periodic loop enqueues at most one more task |
| Scheduler.QuiescenceIsReached | crates/xtax-blob-storage/src/builder/maintenance.rs:24-57 | between two events of the user or the clock only finitely many steps happen |
| Scheduler.EveryRunIsSafe | crates/xtax-blob-storage/src/builder/maintenance.rs:24-57 | from the start, in every run, order is first in first out and no start-up task is enqueued twice |
| Scheduler.EveryRestIsComplete | crates/xtax-blob-storage/src/builder/maintenance.rs:24-57 | from the start, every run that comes to rest uncancelled has lost no start-up task, no period and no trigger |

## Left out

- Metadata: sizes, times, ETags, `get_with_metadata`, `list_with_metadata`; filters look at keys only, so the difference between `list` (no metadata) and `visit` (metadata) is not modelled.
- Error texts and per-key error categories: errors are compared up to their kind and their keys.
- Torn writes: a failing backend write of one object changes nothing; a filesystem put that fails half way through a file is not modelled.
- Overlapping operations on one store, such as a re-key racing with an overwrite: the code gives no guarantee.
- The asynchronous pipe inside an encrypting `put`: how encryption goes, or times out, is an input (`Sealing`), and nested layers share its random choice.
- Tokio, real time, and fairness: `select!` is a free choice, a sleep can always end, and the scheduler theorems say what holds at rest and that rest is reached.
- Weak references: a task of a dropped store is executed as a step that does nothing to the queue's accounting.
- Custom layers, custom strategies, `try_trigger` and custom backends.
- Symbolic links, file names that are not Unicode, Windows separators, normalisation of the root directory, and disappearing directories during a walk.
- The S3 client: request building, error classification, checksums, and the limit of 10000 parts.
- The listing requests behind a re-keying or cleanup traversal are not in the call log; their failures are faults of the traversal.
- The scheduler's loops are a step system, not methods: their interleaving is what the theorems are about.
- Interchange.ListSame: says nothing when a listing fails, because the two orders make different listing calls and may meet a fault at different points; without failures `HistoriesSame` includes listings.
- MapStore.StoreIsMap: refused puts and reads are covered up to one encryption layer, reads with a header suffix that leaves valid keys valid, as the default does. Deeper stacks do change the backend when they refuse a put, and a read of a refused key may be answered `NotFound` or `Ok(false)` before a layer refuses it; no refused key ever reads as present.
- Deletes.DeleteOutcome: the order of the reported keys is that in which the backend processes them; the S3 backend reports them in the order of the server's response, so there the lists hold up to order.
- FsBackend.FsReads: `get` on the name of a directory differs from the abstract backend, which has no directories; `GetSim` therefore leaves such keys out.
- FsStackReads.TreeListExact: says nothing where the hint that reaches the walk does not pass `HintExact`; on such a hint the filesystem lists wrong keys (`ListUnfaithful`).
- FsCleanup.TreeCleanup: the sweep takes its files in a given order; that the walk supplies such an order is `FsVisit.VisitIsTraversal`, and the two are not one program.
- S3Visit.Visit: a continuation token stands for a place in the server's key order, which deletions do not shift; new keys appearing during a visit are not modelled.
- Interchange.RekeySame: the two orders list under different hints, so a page that fails for one and not for the other is not covered.
