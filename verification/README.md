# Orichum core protocols, modelled and verified in Dafny

Orichum launches coding sessions over several accounts. This project models the
parts of it whose correctness depends on more than one function at a time, and
proves what they are for:

- **Crash recovery.** The journalled migration of the legacy directories into one
  home (`HomeLayout.dfy`), the durable replacement of one configuration document
  (`ContextTransaction.dfy`), the activation and rollback of the control plane
  (`ControlPlane.dfy`) and the account lifecycle kept in step with an upstream
  credential store (`AccountLifecycle.dfy`). Each is a class whose methods perform
  the original's operations in the original's order. Every operation consults a
  script of fates (`Faults.dfy`): it takes effect, raises without effect, or never
  happens because the process dies. The scripts are arbitrary, so a postcondition
  that holds under every outcome holds for an error or a crash between any two
  operations, and `Run` methods chain any number of commands and restarts.
- **The recovery proxy.** The attestation gate as threads that interleave freely
  (`Attestation.dfy`, `AttestationEnds.dfy`), the handling of one request from its
  body to the last byte sent (`ChunkedBody.dfy`, `Sse.dfy`, `Responses.dfy`, `Cooldowns.dfy`,
  `RouteProxy.dfy`), the bounded telemetry store (`RouteStatus.dfy`) and what it
  shows of a request among others (`Telemetry.dfy`).
- **Algorithms with a simple specification.** Session clean-up (`Sessions.dfy`),
  account selection (`RouteSelection.dfy`), a symlink resolver
  (`ProfilePath.dfy`), a fingerprint encoding (`Fingerprint.dfy`), the deferral of
  tools (`ToolDeferral.dfy`) and the bounding of shell output and of compaction
  retries (`ContextControl.dfy`).

`Options.dfy`, `Octets.dfy`, `Sorting.dfy` and `Arithmetic.dfy` hold what several
modules share. `dafny verify dfyconfig.toml` checks the whole project.

## How to read the statements

`Calm()` says that the environment stops interfering: the script of fates is used
up. A clause under `old(Calm())` is therefore exact, an if-and-only-if where the
command can fail for reasons of its own, while clauses without it hold for every
script. Ghost fields (`base`, `possible`, `log`, `states`) record history and are
tied to the real fields by `Valid` or `Recorded`. `Attempt(fates, n)` and
`Behind(fates, n)` are what comes of n operations in a row and the script behind them;
`AtMostOneError` is a script with one error and peace after it.

Eight statements one would like to make are false of the code. Each is stated with
the condition under which the code meets it, and with an input or a run that shows
it fails.

- *Preparing and rolling back restores the old layout.* It does exactly when the
  data tree has no child under the name of another tree that moves
  (`HomeLayout.Migration.PrepareThenRollback`). A child that is an empty directory
  is not even noticed: the rename replaces it, both commands report success, and
  it is gone (`HomeLayout.EmptyChildIsLost`).
- *Recovery always succeeds.* It does exactly unless the saved original that it
  has to read is larger than 2 MiB or a marker's mode has bits beyond 0o777, neither
  of which the writer checks (`ContextTransaction.Store.Recover`). A write over such
  a document that is cut behind its saved original, or that merely reports an error
  there, leaves a disk that no number of recoveries changes
  (`ContextTransaction.Store.CutWriteThenRecover`,
  `ContextTransaction.Store.FailedWriteThenRecover`).
- *A peaceful control-plane rollback settles every file.* It does exactly if the
  policy, the projects file and a binding without a model are private and within
  their limits, because these are read outside any handler
  (`ControlPlane.Installer.RollBack`). After an edit that makes one of the documents
  unreadable no rollback succeeds or lists a conflict, and the bootstrapped files
  stay activated (`ControlPlane.Installer.UnreadableEditSticks`).
- *Every conflict of a control-plane rollback is somebody's edit.* An absent
  `plugins.json` cannot be locked and counts as one
  (`ControlPlane.OnlyPluginsConflict`), as it does after an activation that is cut
  behind its manifest (`ControlPlane.Installer.CutAfterManifest`).
- *A full sync always finishes.* It does exactly when each pending addition has an
  enabled credential and no account that is there at its turn is called what its
  id is, because accounts are looked up by id or name
  (`AccountLifecycle.Registry.SyncAll`). Two accounts are enough to stop it
  (`AccountLifecycle.NamesakeBlocksSync`).
- *A profile resolves to the file the system opens.* Paths are normalised
  lexically, so a link that takes the parent of another link can lead elsewhere
  (`ProfilePath.LexicalParentsCanDiffer`); where every parent that a passed link
  takes is that of a real directory it cannot (`ProfilePath.ResolvesLikeTheSystem`).
- *Between two prompts at most two automatic compactions go ahead.* The guard fails
  open: there may be as many more as met an unavailable guard
  (`ContextControl.CompactionGuard.Handle`), and there are
  (`ContextControl.DenialsLetThrough`).
- *Every request is answered.* One head is sent unless an error escapes that nothing
  catches, and then there is none, and no end in the trace. Which of the two is a
  function of the request, of whether its primary rests, and of what its exchanges
  do (`RouteProxy.End`, `RouteProxy.Handler.Handle`). Where bodies can be written out
  again and verifiers understood, it is so exactly for a GET whose path cannot be
  split, a routed body with an integer that is too long for the parser, a session
  whose lookup raises so, and a path that cannot be sent once an upstream is there to
  take it (`RouteProxy.EscapesWhen`). Runs: `RouteProxy.UnsplittableIsUnanswered`,
  `RouteProxy.ExcessiveIsUnanswered`, `RouteProxy.UnsendableIsUnanswered`.

A single cut slot of bounded output may also grow, because its notice can outweigh
what was left out (`ContextControl.CutSlotShrinksIff`); the whole output never does.

## Model

| member | source | states |
|---|---|---|
| HomeLayout.Migration.Prepare | integrations/common/home_layout.py:150-222 | under every script the layout stays recoverable, and the recorded original changes by nothing but empty children a rename has replaced; success means all planned trees are at their targets, linked and journalled (or nothing was planned); without interference it succeeds exactly if no root is refused, for what it is or because its move would cross file systems, and no child blocks a move, or, after an earlier attempt that had begun to move, none clashes; a refused layout is left untouched; without an earlier attempt and a clash, a migration that meets one error and then peace changes nothing |
| HomeLayout.Migration.PreparePlan | integrations/common/home_layout.py:193-222 | the same for a layout with trees to move: journal first, then each tree with its link and its journal entry; in peace it fails exactly if a child that is not an empty directory is in the way; if nothing clashes, one error anywhere, with peace behind it, leaves the layout exactly as it was |
| HomeLayout.Migration.MoveTree | integrations/common/home_layout.py:209-217 | one rename and its journal entry, in the only order that leaves rollback able to see it; the one thing lost is an empty child under the name the tree moves to |
| HomeLayout.Migration.Rollback | integrations/common/home_layout.py:225-267 | success leaves no journal and, before the point of no return, exactly the old sources and home, but for empty children that renames replaced; past it nothing moves back; without interference it succeeds exactly if committed, nothing has moved, or no child clashes |
| HomeLayout.Migration.RollbackMove | integrations/common/home_layout.py:233-261 | one tree back to its source from whichever of its states the crash left; in peace it fails exactly on a clash and then changes nothing; the entry is marked as not moved exactly if the tree is back |
| HomeLayout.Migration.Commit | integrations/common/home_layout.py:270-298 | only a journal whose trees are all at their targets can be committed; from then on only links and the journal are removed, and success leaves neither |
| HomeLayout.Migration.Run | integrations/common/home_layout.py:150-298 | for every sequence of prepare, rollback and commit, each crashing anywhere, the invariant holds, committed is never undone, and the recorded original loses nothing but empty children |
| HomeLayout.Migration.PrepareThenRollback | integrations/common/home_layout.py:150-267 | for every accepted layout, in peace: sources and home end as they were if and only if no child of the data tree has the name of another tree that moves; both commands succeed if and only if such a child is at most an empty directory, and then that directory is all that is lost |
| HomeLayout.KeptExactly | integrations/common/home_layout.py:209-257 | without a clash nothing can be replaced; where a migration has gone through, nothing was replaced only if there was no clash; and what is lost is lost from the data tree |
| HomeLayout.EachTreeAtExactlyOnePlace | integrations/common/home_layout.py:150-298 | in every state the invariant allows, each planned tree is whole at its source or its target, and at the target alone once committed; it is found at both exactly if it has not moved, the data tree has, and the child in the way equals it |
| HomeLayout.DataTreeKept | integrations/common/home_layout.py:208-222 | moving the nested trees into the home never changes any other child of the data tree |
| HomeLayout.PlanHasNoGaps | integrations/common/home_layout.py:172-206 | the journal lists the planned slots in increasing order with none left out between two entries |
| HomeLayout.NothingLeftToPlan | integrations/common/home_layout.py:172-191 | once all trees are moved and linked, planning again finds nothing to move |
| HomeLayout.AcceptedWhen | integrations/common/home_layout.py:172-191 | the layouts that are accepted, written out: each root that is not its target already is a directory on the file system of its target, where nothing is, or it is missing and its target is missing or a directory |
| HomeLayout.EmptyChildIsLost | integrations/common/home_layout.py:150-267 | a migration, for either nested name, that prepares and rolls back with success although the data tree comes back without its empty child |
| ContextTransaction.Store.Write | integrations/common/project_context.py:805-858 | success means every later power loss yields the new document; a failure that was undone leaves exactly the old one; whatever happens a power loss yields the new document or one possible before, under the old mode; cut after one of its first three operations, the disk is exactly what those left; in peace nothing else is left behind, or, if the old document is larger than 2 MiB, exactly the committed marker and the original; a write that fails once and is then left in peace undoes itself, or cleans up, and the old document is alone, unless what it has to read for that is too large |
| ContextTransaction.Store.Recover | integrations/common/project_context.py:773-787 | recovery only narrows what a power loss may yield, settles on the document the disk state stands for, and in peace succeeds exactly if the disk is not stuck: the saved original it has to read, with a pending marker or with none, fits, and a marker has an ordinary mode; on a stuck disk it fails under every script and changes nothing; in peace nothing but the document is left, unless a committed marker hides an original too large to read, and then nothing changes |
| ContextTransaction.Store.RollBack | integrations/common/project_context.py:790-802 | success leaves the saved original in force on every disk state a power loss could reveal |
| ContextTransaction.Store.RestoreOriginal | integrations/common/project_context.py:737-760 | the saved original is put back under its mode while the pending marker still protects it |
| ContextTransaction.Store.RemoveArtifacts | integrations/common/project_context.py:715-727 | marker and original are removed in an order that never leaves a pending marker without its original |
| ContextTransaction.Store.Update | integrations/common/project_context.py:892-896 | lock, recover, write: success pins the submitted document; otherwise what is possible is an earlier document or the submitted one under an earlier mode; in peace it succeeds exactly if the disk is not stuck, and then leaves the submitted document alone under the old mode |
| ContextTransaction.Store.Run | integrations/common/project_context.py:773-858 | after any updates, crashes inside them and power losses between, recovery yields the starting document or a submitted one, whole, under the starting mode, and never one older than the latest reported success, and if the documents are of ordinary size every update that is left in peace succeeds, whatever came before |
| ContextTransaction.NeverStuck | integrations/common/project_context.py:737-787 | if every possible document is of ordinary size and mode, no disk state is unrecoverable, with a marker or without |
| ContextTransaction.Store.CutWriteThenRecover | integrations/common/project_context.py:737-858 | after a write that dies behind its saved original, the sync of it or the pending marker, any number of recoveries succeed if and only if what they have to read fits: the document before, and its mode once a marker says it; otherwise the disk never changes again |
| ContextTransaction.Store.FailedWriteThenRecover | integrations/common/project_context.py:719-846 | a write whose first sync raises reports an error and leaves the old document; recoveries then succeed if and only if that document is within 2 MiB, because the error of the clean-up is swallowed |
| ControlPlane.Installer.Activate | integrations/common/install_control_plane.py:993-1146 | wherever it stops, the journal holds what rollback needs and every file holds prior or activated bytes; success leaves exactly the candidate files and the planned stack; in peace and without an open journal it succeeds exactly if the prior stack can be loaded, the prior policy and projects can be read, and the validations pass |
| ControlPlane.Installer.TakeSnapshots | integrations/common/install_control_plane.py:1016-1044 | the snapshots reach the journal before its manifest, even over the remains of an earlier attempt; in peace exactly if the policy and the projects can be read |
| ControlPlane.Installer.RollBack | integrations/common/install_control_plane.py:1165-1369 | whatever interrupts, every file is untouched or rolled back, the journal stays one of this activation, its recorded stack states survive while it is unfinished, and it is spent or gone only once everything is settled; in peace everything is settled if and only if the policy, the projects and a binding without a model can be read, it then reports only real conflicts and succeeds exactly if there are none; otherwise it never succeeds, under any script, lists nothing, and leaves the journal and the bootstrapped files as they are; a spent journal is only removed; conflicts that are reported are journalled, exactly they, and with them the phase that keeps the journal from being finalized |
| ControlPlane.Installer.RollBackFiles | integrations/common/install_control_plane.py:1231-1354 | the passes over the stack, the two documents and the bootstrap files together settle every file once, in peace exactly if what they read outside a handler can be read |
| ControlPlane.Installer.RollBackBootstrap | integrations/common/install_control_plane.py:1317-1351 | a bootstrapped file is unlinked only if it still holds the activated bytes; an absent plugins.json is a conflict, any other absent file is not; an error under the lock of plugins.json is a conflict, and never raised; under every script exactly what comes of the lock and the unlinking |
| ControlPlane.Installer.FinalizeInstall | integrations/common/install_control_plane.py:1387-1408 | files and stack are untouched; a journal that is not committed stays as it is under every script, and success without a journal is the only success then; a committed one is removed, and from then on rollback only removes it |
| ControlPlane.Installer.FinalizeAfterConflict | integrations/common/install_control_plane.py:1355-1408 | once a rollback has reported a conflict, and after any interrupted rollbacks, finalizations and edits, finalizing fails under every script and changes nothing, unless a rollback got through and removed the journal |
| ControlPlane.Installer.ActivateThenFinalize | integrations/common/install_control_plane.py:993-1408 | wherever an activation stopped, what finalizing then keeps is the whole candidate or, if no journal was begun, what was there before; after a success it goes through in peace |
| ControlPlane.RollBackIsSteady | integrations/common/install_control_plane.py:1165-1369 | what a rollback promises, however it was interrupted, keeps what the next one will end with: the files and the stack that the state stands for |
| ControlPlane.Installer.ActivateThenRollBacks | integrations/common/install_control_plane.py:993-1369 | an activation interrupted anywhere, then any number of interrupted rollbacks, then one in peace: every file and the stack are restored; the journal stays only if plugins.json was absent before |
| ControlPlane.Installer.Run | integrations/common/install_control_plane.py:993-1408 | for every sequence of activations, rollbacks and finalizations, each interrupted anywhere, and edits of files or stack between them: what a rollback would end with is, for each file, accounted for by the start, an edit or a candidate, and the stack changes only by an edit or a finalized activation |
| ControlPlane.OnlyPluginsConflict | integrations/common/install_control_plane.py:1326-1351 | after an interrupted activation nobody else touched, the one possible conflict is an absent plugins.json, and it is reported exactly then |
| ControlPlane.Installer.CutAfterManifest | integrations/common/install_control_plane.py:1050-1351 | an activation that dies behind its manifest and is rolled back in peace restores everything, yet reports a conflict exactly if plugins.json was absent |
| ControlPlane.Installer.UnreadableEditSticks | integrations/common/install_control_plane.py:1231-1322 | after a peaceful activation and an edit of the policy or the projects to something too large or not private, no rollback, however interrupted, succeeds or lists a conflict; the stack goes back, the bootstrapped files stay activated |
| ControlPlane.ReadingMeans | integrations/common/install_control_plane.py:1016-1044 | what the conditions on reading say, written out: private files within 2 MiB, or 1 MiB for a binding, and which stacks can be loaded |
| ControlPlane.RollingMeans | integrations/common/install_control_plane.py:1231-1351 | what a rollback takes for a conflict, which files it removes, and what it makes of a file and of the stack, written out |
| AccountLifecycle.Registry.Run | integrations/common/orichum_cli.py:1574-1865 | for every sequence of commands, crashes and lost or distorted answers: an active account's upstream fields equal its registry values, and the original fields of every credential are still known |
| AccountLifecycle.StorableWhen | integrations/common/account_registry.py:78-142 | the original fields that can be stored: a prefix of 1 to 128 letters, digits, dots, underscores and hyphens that starts with a letter or a digit, and a priority from 0 to 1000, each if there is one |
| AccountLifecycle.Registry.Publish | integrations/common/orichum_cli.py:1610-1627 | success means that the patch succeeded and the upstream was read back with the account's prefix and priority; a disabled credential is refused before anything is sent; what a patch leaves is what its reply says; nothing but that credential is touched |
| AccountLifecycle.Registry.Unpublish | integrations/common/orichum_cli.py:1628-1660 | success means that every patch succeeded and the upstream shows the original fields again; a second patch is sent exactly if a field was absent |
| AccountLifecycle.Registry.Synchronize | integrations/common/orichum_cli.py:1662-1684 | finishes a pending addition or removal and leaves any other account, and every other credential, alone; in peace it fails exactly for a disabled credential or an ambiguous id |
| AccountLifecycle.Registry.SyncAll | integrations/common/orichum_cli.py:1786-1795 | success leaves nothing pending; with nothing pending it changes nothing at all; in peace it succeeds exactly if every pending addition can be published in its turn; nothing but the fields of credentials of pending accounts is touched |
| AccountLifecycle.Registry.SyncSelected | integrations/common/orichum_cli.py:1786-1795 | a success synchronizes the one account named, a failure leaves the registry as it was; no other credential is touched; in peace it succeeds exactly unless nobody is named or a pending addition cannot be published |
| AccountLifecycle.Registry.Add | integrations/common/orichum_cli.py:1686-1735 | success appends an active account that remembers the credential's fields, a failure behind the checks at most a pending one, and behind none of them anything; every other account and credential stays as it is; in peace it succeeds exactly for an enabled, unassigned credential whose own prefix and priority can be stored, a priority in range, distinct names and an unambiguous id |
| AccountLifecycle.Registry.Remove | integrations/common/orichum_cli.py:1736-1785 | success means the named account is gone from its place, every other account and credential is as it was, and the credential shows exactly what it held before any account took it, enabled or disabled as it was; a failure leaves the registry as it was but for that account's pending state, and a bound or unknown account leaves everything; in peace it succeeds for every named account without bindings |
| AccountLifecycle.Registry.RemoveFound | integrations/common/orichum_cli.py:1776-1785 | the same once the account is found: the pending state is stored before its credential is touched, and stays if the rest fails |
| AccountLifecycle.Registry.SetPriority | integrations/common/orichum_cli.py:1799-1830 | success rewrites the priority of the one account named, which stays published under the new value; in peace it succeeds exactly for a priority in range and an account that is disabled, or active with an enabled credential and an unambiguous id; a refused priority or a pending account changes nothing, a disabled one is rewritten without the upstream, and no other account or credential is touched |
| AccountLifecycle.Registry.Enable | integrations/common/orichum_cli.py:1831-1848 | success leaves the one account named active, published again through the pending state; in peace it succeeds exactly for an active account, or a disabled one with an enabled credential and an unambiguous id; an active account is left alone, a pending one refused, and no other account or credential is touched |
| AccountLifecycle.Registry.Disable | integrations/common/orichum_cli.py:1849-1865 | success disables the one account named without touching the upstream; in peace exactly for an active or disabled account |
| AccountLifecycle.SyncedIsFixed | integrations/common/orichum_cli.py:1786-1795 | synchronizing a registry without pending accounts is the identity |
| AccountLifecycle.NamesakesAtTurn | integrations/common/orichum_cli.py:1662-1684 | what blocks an account at its turn in a full sync, in terms of the registry at the start |
| AccountLifecycle.NamesakeBlocksSync | integrations/common/orichum_cli.py:1662-1795 | a registry of two accounts, with ids, prefixes and fields of the accepted form, whose full sync fails in peace with every credential enabled |
| AccountLifecycle.IdSelects | integrations/common/orichum_cli.py:1662-1684 | an id selects its account exactly if no other account is called that |
| Attestation.GateIsSafe | integrations/common/route_proxy.py:266-341 | in every interleaving one thread at most runs the verifier and refreshing says so; a cached identity was proved by a call begun after the latest invalidation and the latest failed refresh; a verify call runs the verifier at most once plus the invalidations during it |
| Attestation.CacheReturnIsFresh | integrations/common/route_proxy.py:297-301 | a return from the cache happens before install time plus ttl and without running the verifier |
| Attestation.LockedThreadDoes | integrations/common/route_proxy.py:280-303 | exactly what a thread does that gets the lock: it waits while somebody proves, raises if it has waited and nothing is proved since, returns without a run of the verifier exactly on a proof whose time has not run out, and else runs the verifier; nobody else is moved |
| Attestation.ProofIsInstalledWhen | integrations/common/route_proxy.py:303-341 | a run that finds the process installs its proof, and its thread returns, exactly if nothing was dropped since the run began; else the thread starts over |
| Attestation.OtherActionsDo | integrations/common/route_proxy.py:266-341 | what else may happen and does: a call begins in a thread that is in none, a drop empties the cache and wakes every waiter, and only a waiter that was notified wakes |
| Attestation.RejectionHasACause | integrations/common/route_proxy.py:286-296 | a waiting call is rejected only after an invalidation or a failed refresh since it began to wait |
| Attestation.NoLostWakeup | integrations/common/route_proxy.py:288-341 | a waiter always has a notification pending or a refresh that will notify it |
| AttestationEnds.VerifyEnds | integrations/common/route_proxy.py:280-341 | in every schedule the threads take no more steps inside verify than its calls and invalidations pay for, (n + 2)(1 + drops) + 1 a call and n an invalidation |
| AttestationEnds.UnendedCanMove | integrations/common/route_proxy.py:288-341 | as long as a call has not ended, some thread can take a step inside verify |
| AttestationEnds.QuietIsEnded | integrations/common/route_proxy.py:280-341 | a schedule after which no step inside verify is left has ended every call: with the bound, every schedule that does not leave all threads idle ends them |
| Attestation.StepKeepsInv | integrations/common/route_proxy.py:280-341 | every step of every thread, invalidation and passing of time keeps the inductive invariant |
| Attestation.AttestationGate.TryEnter | integrations/common/route_proxy.py:286-303 | the part under the lock: which of returning, rejecting, waiting and refreshing, and the new fields |
| Attestation.AttestationGate.Proved | integrations/common/route_proxy.py:324-334 | an identity is installed only if nothing was invalidated during the refresh |
| ChunkedBody.RoundTrip | integrations/common/route_proxy.py:398-422 | decoding inverts encoding for every list of non-empty chunks within 32 MiB, and what follows the body is left unread (RFC 9112, section 7.1) |
| ChunkedBody.DecodeInvertsWire | integrations/common/route_proxy.py:398-422 | the same for every layout: any size line that reads as the size, with extensions, signs, padding or line breaks the reader allows, and any trailers |
| ChunkedBody.DecodedWasWire | integrations/common/route_proxy.py:398-422 | conversely, whatever decodes was such a layout, and a decoded body never exceeds the limit |
| ChunkedBody.FaultIsRefused | integrations/common/route_proxy.py:398-422 | a chunked stream with a fault in it, behind any whole chunks, is refused as that fault demands |
| ChunkedBody.RefusedHadFault | integrations/common/route_proxy.py:398-422 | conversely, every refused stream has such a fault behind whole chunks: exactly these are refused |
| ChunkedBody.ReadChunked | integrations/common/route_proxy.py:401-422 | the loop over the stream computes that decoding and stops exactly where it says |
| ChunkedBody.ReadRequestBody | integrations/common/route_proxy.py:398-435 | the method computes the reading by length or by chunks, with each error told apart, and what is left of the stream; never more than the limit |
| ChunkedBody.LengthReads | integrations/common/route_proxy.py:423-435 | a body read by its length is returned whole and what follows it is left unread, whether or not chunks are announced too |
| ChunkedBody.LengthTells | integrations/common/route_proxy.py:423-435 | conversely, what is read under a length has that length and the stream was it and the rest; exactly when a length is invalid, too large or exceeds the stream; without either header the body is empty |
| ChunkedBody.HexLineIsRead | integrations/common/route_proxy.py:404-408 | the hexadecimal line of any size within the limit is read back as that size within the 128-byte read |
| ChunkedBody.SizeLineMeans | integrations/common/route_proxy.py:402-408 | a size line is read as its number: white space around it and an extension behind it do not matter |
| ChunkedBody.DigitsWhen | integrations/common/route_proxy.py:402-408 | exactly which spellings of a hexadecimal number are read: digits, single underscores between them, and what may stand in front |
| ChunkedBody.NumbersAre | integrations/common/route_proxy.py:404-408 | exactly what is read as a size: hexadecimal digits with single underscores between them, with 0x in front or not, and with a sign or not |
| Sse.DetectionIsTheLineRule | integrations/common/route_proxy.py:438-446 | splitting normalised text into events detects exactly a data line followed later by an empty line, under CR, LF and CRLF endings (WHATWG HTML Standard, section 9.2.6) |
| Sse.DetectionIsMonotone | integrations/common/route_proxy.py:438-446 | bytes that arrive later never undo a detection, even in the middle of a CRLF |
| Sse.DataLineMeans | integrations/common/route_proxy.py:438-446 | a data line is the word data and then nothing, or a colon |
| Sse.HasSseDataEvent | integrations/common/route_proxy.py:438-446 | the loops compute that rule |
| Responses.Response.Prepare | integrations/common/route_proxy.py:618-674 | whether a response may be sent depends on its bytes alone and not on how they arrive; the prelude and what is left make up the body; a stream's prelude holds a data event and stays within 1 MiB |
| Responses.Response.PrepareSse | integrations/common/route_proxy.py:627-646 | the same for a server-sent stream: success exactly if its first MiB holds a data event |
| Responses.ReadingConserves | integrations/common/route_proxy.py:618-732 | a read of any size loses and repeats nothing and leaves unchanged whether the body is whole |
| Responses.EmptyReadTells | integrations/common/route_proxy.py:704-721 | at the end of what can be read, the body is whole exactly if the read neither raises nor leaves bytes owed |
| Cooldowns.Table.Active | integrations/common/route_proxy.py:248-255 | a model rests from its last trip, by whichever request, for the cooldown unless cleared since, although expired entries are dropped on the way |
| Cooldowns.LastChangeDecides | integrations/common/route_proxy.py:241-263 | only the last trip or clear of a model decides how long it rests |
| RouteProxy.Handler.Handle | integrations/common/route_proxy.py:895-1013 | whatever the upstreams answer, whenever the client leaves and whatever other requests do to the shared cooldowns: at most four calls, each with exactly the body it should have, exactly one head unless an error escapes that nothing catches, and then none and no end; which of the two, and which answer is delivered, is the function End of the request, of whether its primary rests and of the exchanges; one change of the cooldowns at most and exactly as logged, a switch to the fallback only after a trip, invalidations matching refused calls; the trace ends once, but not for an oversized body, an escaped error or a catalog that was delivered; without a client failure the client gets the whole body that can be read, the trace completes exactly if it was whole, and the primary is readmitted exactly if it delivered below 400 |
| RouteProxy.Handler.RouteRequest | integrations/common/route_proxy.py:911-982 | the same for a routed request; it starts with the fallback exactly if the primary rested when it looked, after every change made by then; its answer is that of RoutedEnd |
| RouteProxy.Handler.CandidateUpstream | integrations/common/route_proxy.py:523-534 | an account is asked once, and again without deferred tools exactly if it rejected them with 400 or 422; not at all if its body cannot be written; what comes of it is that of Tried |
| RouteProxy.OutcomeMeans | integrations/common/route_proxy.py:473-520 | when an exchange gives an answer, and which error it raises if not: no connection, an unverified owner, a verifier that cannot be read, a path that is not the proxy's own or cannot be sent, no reply |
| RouteProxy.Handler.FallbackUpstream | integrations/common/route_proxy.py:803-829 | the fallback is asked under its own name, shown as selected first; replacing the model fails only if the body cannot be written out again |
| RouteProxy.Handler.PrepareWithFallback | integrations/common/route_proxy.py:831-857 | a response that fails before output is replaced by the fallback's at most once and only from the primary, after tripping it |
| RouteProxy.Handler.Deliver | integrations/common/route_proxy.py:859-893 | what a delivery means for the cooldowns and the trace: a broken primary is tripped if there is a fallback, a whole answer below 400 clears it, a client that left changes nothing |
| RouteProxy.Handler.SendResponse | integrations/common/route_proxy.py:676-732 | what the client gets is the body from its start, all of it unless one side breaks off, and which side did |
| RouteProxy.Handler.Report | integrations/common/route_proxy.py:983-1013 | every failure is traced once but an oversized body and an error that nothing catches, and an error page is sent only if no answer has begun |
| RouteProxy.EscapesWhen | integrations/common/route_proxy.py:344-534 | where bodies can be written and verifiers understood, an error escapes if and only if one is raised before anything is asked, or the first exchange meets a path that cannot be sent |
| RouteProxy.UnsplittableIsUnanswered | integrations/common/route_proxy.py:911-1013 | a GET whose path raises when it is split gets no head, no call and no end in the trace |
| RouteProxy.ExcessiveIsUnanswered | integrations/common/route_proxy.py:344-350 | a routed request whose body holds an integer longer than the parser converts gets no call, no head and no end |
| RouteProxy.UnsendableIsUnanswered | integrations/common/route_proxy.py:490-513 | a request whose path cannot be sent, with an upstream there to take it, gets no head and no end |
| RouteProxy.AllowedOrder | integrations/common/route_proxy.py:895-1013 | read off the log: no call after output, no primary after the fallback, one head, one change of the cooldowns, one end |
| RouteProxy.CallsAreCounted | integrations/common/route_proxy.py:895-1013 | the number of calls in the log is the number that is bounded by four |
| RouteProxy.ReplaceModel | integrations/common/route_proxy.py:371-381 | replacing succeeds exactly if the body names the expected model; then it names the replacement and agrees with the request in every other field |
| RouteProxy.Stripped | integrations/common/route_proxy.py:353-368 | nothing but one field is stripped, and it exactly for the one model that does not support it |
| RouteProxy.RetryableMeans | integrations/common/route_proxy.py:30-60 | the answers after which the fallback is tried, and that a body is written anew for its own account exactly if something is taken out of it |
| RouteProxy.CallsCarryTheRequest | integrations/common/route_proxy.py:353-534 | every call in a log carries the request: the catalog's as it came; an account's with that account's model and every other field but the stripped one as it came; with deferral, that with nothing but its tools transformed |
| RouteStatus.Store.Select | integrations/common/route_status.py:67-97 | the keys stay the sessions selected last, as many as fit, and each entry stays that of the unbounded log |
| RouteStatus.Store.Update | integrations/common/route_status.py:142-157 | the bounded store follows the unbounded log for reports of any request, late ones included |
| RouteStatus.Store.Get | integrations/common/route_status.py:159-162 | the answer is that of the unbounded log for the sessions still kept, and nothing for others |
| RouteStatus.IdsAre | integrations/common/route_status.py:164-175 | the ids the store takes: a prefix and sixteen hexadecimal digits |
| RouteStatus.LatestOfSelected | integrations/common/route_status.py:93-97 | evicting after every selection keeps the same sessions as evicting once at the end |
| RouteStatus.RecencyIsLastSelected | integrations/common/route_status.py:93-97 | the store's order is the order of the last selections |
| RouteStatus.StaleReportIsInvisible | integrations/common/route_status.py:150-157 | with or without a report of a request that is no longer its session's last, every later state is the same |
| RouteStatus.EntryIsOfLastSelection | integrations/common/route_status.py:93-157 | a session's entry belongs to the request that selected it last |
| Telemetry.ReportsTell | integrations/common/route_proxy.py:120-192 | what the reports of one allowed log leave in the store, step by step: the route and why it was selected; pending, streaming, complete or failed, as the log is; and whose failure it was |
| Telemetry.ShownAmongOthers | integrations/common/route_proxy.py:120-192 | whatever other requests report in between, the entry of a session shows the request that selected it last: its last route and the reason for it, and once it has ended the status, the length and the party that failed; if another selected last, the entry is that one's |
| Sessions.SessionStore.Clear | integrations/common/orichum_sessions.py:959-1010 | keeps exactly the active sessions and their ancestors; a cyclic ancestry among the others is reported before anything is deleted, exactly if there is one; wherever it stops no session left has lost its parent; every report is right |
| Sessions.SessionStore.DeleteAll | integrations/common/orichum_sessions.py:994-995 | deleting deepest first, stopped by any failure, leaves no session without a parent it had; exactly those before the first failure are gone, and that one if it had gone already |
| Sessions.SessionStore.Remove | integrations/common/orichum_sessions.py:938-956 | a session is removed exactly if it is known, inactive and without children, each refusal told apart; nothing else is removed |
| Sessions.Retained | integrations/common/orichum_sessions.py:967-975 | the worklist terminates with the active sessions and exactly their ancestors |
| Sessions.SessionDepth | integrations/common/orichum_sessions.py:979-992 | the number of ancestors, or the report that following parents never ends, exactly then |
| Sessions.SortByDepth | integrations/common/orichum_sessions.py:994 | the same sessions, deepest first |
| Sessions.PrefixKeepsParents | integrations/common/orichum_sessions.py:994-995 | after every prefix of the deletions, each remaining session whose parent was present still has it |
| RouteSelection.ChainForgetsOrder | integrations/common/route_selection.py:163-214 | a chain does not depend on the order in which the accounts are listed |
| RouteSelection.EligibleForgetsOrder | integrations/common/route_selection.py:32-118 | nor do the routes of a pool |
| RouteSelection.PrimaryIsTop | integrations/common/route_selection.py:121-160 | the primary is a healthy route of highest priority in the first pool that has a healthy one, and the ordinal picks within that tier |
| RouteSelection.OrdinalsTakeTurns | integrations/common/route_selection.py:155-159 | any n consecutive ordinals pick each of the n routes of the tier exactly once |
| RouteSelection.ChainIsSound | integrations/common/orichum_sessions.py:222-243 | every chain makes a binding that can be read back: one fallback at most, same family and model, other account, other upstream name |
| RouteSelection.BindCandidate | integrations/common/orichum_sessions.py:454-508 | every binding can be read back, including that of a session that resumes, which keeps its primary as long as it is still a healthy route |
| RouteSelection.RouteChain | integrations/common/route_selection.py:163-214 | the loops with their set of seen accounts compute the chain of the specification |
| RouteSelection.ChooseNewSessionRoute | integrations/common/route_selection.py:121-160 | the loop over the pools computes the choice of the specification |
| RouteSelection.FindEligible | integrations/common/route_selection.py:32-118 | the method computes the filtered and sorted routes of a pool, or the error for an incomplete configuration |
| RouteSelection.EligibleMeans | integrations/common/route_selection.py:32-118 | a route is among those of a pool if and only if it is the route of a listed account that is active, of this pool, the locked one if any, of an allowed, authorised and ranked provider, and whose upstream name is available; there are routes to be found exactly for a complete configuration |
| RouteSelection.EligibleIsRanked | integrations/common/route_selection.py:102-118 | and they stand in order: never is a lower priority, or a provider ranked later at equal priority, ahead of a better route |
| RouteSelection.ChoosesWhen | integrations/common/route_selection.py:121-160 | a primary is chosen exactly if some pool has a healthy route and every pool before it is configured |
| RouteSelection.ChainMeans | integrations/common/route_selection.py:163-214 | every route of a chain is a healthy one that a pool serves, and the alternate is the first of another account, pool by pool in the order of each; there is one exactly if it is asked for and some other account has a route |
| Sorting.SortForgetsOrder | integrations/common/route_selection.py:109-118 | sorting elements that are never tied forgets the order they came in |
| ProfilePath.Profile.Open | integrations/common/shell_profiles.py:22-81 | terminates by links left and components pending; leaves a missing or plain file alone; otherwise computes the resolution; a destination that begins with exactly two slashes is unsafe |
| ProfilePath.ResolvedIsWell | integrations/common/shell_profiles.py:22-110 | the result is a safe regular file below the root, reached through real and safe directories, and every link and directory passed is guarded |
| ProfilePath.ResolvesWhen | integrations/common/shell_profiles.py:22-81 | exactly when a symlink resolves, and where to, without guards: every link and directory on the way is safe, every destination lies below the root, and at most forty links lead to a safe regular file |
| ProfilePath.LinkToFileResolves | integrations/common/shell_profiles.py:37-73 | a link that stands below the root, absolute or relative, resolves to its destination itself if that is a safe regular file that stands below the root |
| ProfilePath.ResolvesToItself | integrations/common/shell_profiles.py:42-73 | the result resolves to itself through no link at all |
| ProfilePath.GuardsSuffice | integrations/common/shell_profiles.py:83-130 | the guards are all the way depends on: while they agree, the profile resolves alike |
| ProfilePath.ResolvesLikeTheSystem | integrations/common/shell_profiles.py:37-71 | if no link that was passed takes the parent of a name that is itself a link, the result is the file the system itself would open (POSIX.1-2017, section 4.13); a parent behind a real directory, or ahead of the names, is allowed |
| ProfilePath.LexicalParentsCanDiffer | integrations/common/shell_profiles.py:51-57 | an input where lexical normalisation leads to a different file, and which that condition shuts out |
| ProfilePath.Profile.Unchanged | integrations/common/shell_profiles.py:112-130 | true exactly while every guarded link and directory is still what it was |
| Fingerprint.EqualStreamsMeanEqualFiles | integrations/common/install_state.py:595-604 | equal hashed streams come from the same names with the same modes and contents |
| Fingerprint.StreamDecodes | integrations/common/install_state.py:595-604 | the stream decodes back to the entries it was made of |
| Fingerprint.PathOrderIsForgotten | integrations/common/install_state.py:646-666 | the order in which the paths are given never matters |
| Fingerprint.FingerprintPaths | integrations/common/install_state.py:628-666 | succeeds exactly for some relative, distinct, readable paths, and feeds exactly the records in the order of the names, however the reads are cut |
| ToolDeferral.TransformKeepsTheRequest | integrations/common/tool_deferral.py:108-154 | every tool stays, in order, unchanged but for defer_loading and cache_control; exactly the non-resident client tools are deferred, and no other tool's defer_loading changes; the one marker of a deferred tool, if there is one, is with the last resident and every other stays; one search tool is appended; the rest of the document is kept |
| ToolDeferral.TransformsWhen | integrations/common/tool_deferral.py:108-154 | exactly the requests that are transformed, field by field: a verified model, at least twelve proper tools, one of them known, one to defer, and room for the cache marker |
| ToolDeferral.AfterLastSlashEnds | integrations/common/tool_deferral.py:34-37 | the logical model is what ends the name, at its start or behind a slash, and holds none |
| ToolDeferral.TransformIsIdempotent | integrations/common/tool_deferral.py:108-154 | the output is never transformed again, whatever the resident names |
| ToolDeferral.ExampleIsTransformed | integrations/common/tool_deferral.py:108-154 | a concrete request that is transformed |
| ToolDeferral.TransformRequest | integrations/common/tool_deferral.py:108-154 | the copying loop and the in-place move compute that transformation, and anything else is returned unchanged; a body whose parse raises anything but a syntax error raises |
| ToolDeferral.PreserveCacheBreakpoint | integrations/common/tool_deferral.py:72-105 | moves the marker in place from the one deferred tool to the last resident, or refuses and changes nothing, exactly when it must |
| ToolDeferral.MovingKeepsMarkers | integrations/common/tool_deferral.py:72-105 | the move conserves the multiset of markers |
| ContextControl.BoundedOutput | integrations/common/context_control.py:155-163 | replaced output totals at most 8000 characters, notices included, and less than before; a slot is left alone or keeps a non-empty start and a non-empty end of its text that do not overlap; some slot is cut |
| ContextControl.BoundSlots | integrations/common/context_control.py:131-163 | slots are replaced in place exactly if they are over budget and every notice fits |
| ContextControl.SlotsAre | integrations/common/context_control.py:100-131 | which texts of a response count, in order: what a finished shell command wrote, and every text block of an answer that is no error |
| ContextControl.OnlyTextsAreReplaced | integrations/common/context_control.py:155-173 | a replacement differs from its response in its texts, and in that what a shell has put aside is not shown |
| ContextControl.OutputGuard.Output | integrations/common/context_control.py:100-173 | a response is replaced only after it was saved whole, only when all its texts can be bounded, and in its texts alone; one within the budget, or one that may not be changed, is not even saved |
| ContextControl.CutSlotShrinksIff | integrations/common/context_control.py:158-163 | when a single cut slot gets shorter |
| ContextControl.CompactionGuard.Handle | integrations/common/context_control.py:201-268 | between two resets the automatic compactions that go ahead are at most two and those that met an unavailable guard; one is blocked exactly when the guard is available and two compactions are stored, a manual one never; what is not stored changes nothing, and a store may also raise after it has taken effect |
| ContextControl.DenialsLetThrough | integrations/common/context_control.py:201-268 | a run that meets the bound: n denials let n more go ahead, and then the guard blocks |

## Left out

- HomeLayout.Migration.Run: edits to the moved trees between two commands, and two installers at once
- ContextTransaction.Store.Write: temporary file names, partial writes before a rename and descriptor checks are one atomic step each
- ControlPlane.Installer.Activate: edits by others between the steps of one command; they may come between any two commands, as in ControlPlane.Installer.Run
- ControlPlane.Verdict: the validations that look inside the documents are two answers given as a parameter, and the candidate is one that staging has admitted, complete and within the limits
- ControlPlane.Installer.RollBackStack: the stack pair is restored as one value; the two-file restore behind it is not part of this model
- ControlPlane.Installer.RollBack: journals written by another home, and the separate Claude settings journal
- ControlPlane.Installer.Run: starts without an unfinished journal, which only one of its own activations can leave
- AccountLifecycle.Registry.Save: the 2 MiB limit of the registry file, which takes thousands of accounts to reach, and the checks of its mode and owner; a save refused for them is an error like any other, and peace means there is none
- AccountLifecycle.Registry.Remove: the stack bindings are only consulted, not saved again
- AccountLifecycle.Registry.Add: provider and pool validation, the format of names, ids and credential references, quota reading and the choice of a fresh id and prefix, which are parameters
- ProfilePath.ResolvesLikeTheSystem: goes one way only, because without its condition the lexical path may still happen to name the same file; destinations that end in a slash or a dot, which the system takes for directories only, are not part of this model
- ProfilePath.Profile.Open: resolving the directory of the requested path and of the home, which are given resolved, and changes to the file system during one resolution
- RouteProxy.Handler.Handle: header copying, sockets, timeouts and the text of events; an upstream is what it answers and how its bytes arrive; the event logger and the writing of an error page are assumed not to raise, and every parse of one body to end alike
- RouteProxy.Handler.Upstream: the verifier subprocess is an outcome of the exchange
- RouteSelection.RouteOf: the profile name hashed from account and model, a function of the two
- RouteSelection.BindCandidate: the field formats of a stored route, and the loop over candidates and roles around it
- RouteSelection.Unique: what the account registry guarantees (unique ids, unique 21-character prefixes) is assumed of the accounts
- ToolDeferral.Transform: the order of keys in an object and the JSON text itself
- Sse.HasSseDataEvent: only detection is modelled, not the parsing of events
- Fingerprint.FingerprintFile: link, owner and change checks are one readable file or an error; SHA-256 is not modelled, the bytes it is fed are
- ContextControl.OutputGuard.Output: descriptor checks, locks and time stamps; the notice is a parameter
- ContextControl.CompactionGuard.Handle: an event beyond the input limit, a malformed session id or a run directory that is not absolute lets a compaction pass without a word; these count as denials
- Cooldowns.Table: calls are atomic, as the lock makes them, other requests' calls come before each access of the one modelled, and the clock never goes back
- Network clients, OAuth, quota display, wizards, completion, schema validation and redaction: plumbing or branch-by-branch facts
- `resolve_session_plan`, `update_session_controller`: the loop over roles and the rewriting of one stored session add nothing to the binding rules
- `github_identity.py`, `runtime_bundle.py`: they rest on an external identity check and on recursive deletes that are not atomic
