# Models of gipny's protocols and formats

A Dafny project that models the parts of gipny where many functions have to agree: how two clients settle on one
session, how letters and ratchets survive crashes, how the browser engine stores and reopens its private state, how
metadata is cleaned out of pictures, how the relay network arbitrates aliases and carries mail, and how in-process streams
and stream permits behave under every interleaving. `dafny verify dfyconfig.toml` checks all of it.

Cryptography is symbolic: primitives are function parameters, and the laws used of them (opening undoes sealing, Diffie-Hellman
is symmetric, a ciphertext is sixteen bytes longer, a signature verifies, a digest has 32 bytes) are preconditions of the
lemmas that use them. Clocks, randomness and storage outcomes are parameters or events. Where the source works in place
(`clean_*`, the client's and engine's maps, the vault, streams, permits, the alias loops) there are methods or classes that
do the same and are proved equal to a specification function; the theorems are about those functions.

| module | what it models |
|---|---|
| `Prelude`, `Wire` | bytes, byte order, little-endian integers, bincode's fixed-width encoding |
| `Jpeg`, `Png`, `Webp`, `Grammars` | the metadata cleaners and which files they accept, against ITU-T T.81 section B.1.1, W3C PNG sections 5.3 and 5.4, RFC 9649 sections 2.3 and 2.7 |
| `Crossing`, `Races`, `Locks` | two native clients opening sessions at each other over ordered channels; what the wait for a bundle can do; the same at the granularity of locks |
| `EnginePeer`, `Readable` | the browser engine's per-peer slots; two engines, any delivery order, any clocks |
| `Durable`, `Retries` | persist before send, commit before acknowledge, with failed lookups, decryptions and writes, crashes and power losses |
| `Vault`, `Slots` | sealed profile records, credentials, and two-slot crash recovery |
| `Payload`, `Profile` | the stored private state: encoding, loader checks, round trip |
| `EngineOps`, `Effects`, `Engine`, `BrowserEngine` | engine calls, what each leaves in the maps, transactions, and the engine as an object |
| `History`, `Chains` | an engine through transactions, crashes and reopenings: prekeys and message keys used once |
| `Conversation` | two whole engines, whose dealings with each other are those of `Readable` |
| `Pipe`, `PipeEnds`, `Permits` | in-process stream pairs and stream permits |
| `Sealing`, `Mail`, `Alias` | padded sealed values, mail between a pair, alias arbitration |

## What the proofs brought out

- `core/src/core.rs`: `ensure_session_for` tests for a session, waits for a bundle, and installs without testing again. An
  install that finds a session overwrites it, and the two sides can settle on different sessions (`Races.LateInstallSplits`).
  Readability: a run is safe at every moment if and only if no session was installed over another (`Races.SafeExactly`), and,
  a received init being tested and written under different locks, none of the smaller key's between the two
  (`Locks.LocksSafeExactly`). Agreement: `Races.ConvergesExactly` says after which late installs the sides still end on one
  session.
- `core/src/core.rs`: the stored session is read outside the lock and cached unconditionally. A copy cached after another task
  has sent repeats a message key (`Durable.StaleCopyRepeats`); so does a power loss that undoes a save whose envelope left,
  since `put_session` is not synced (`Durable.PowerLossRepeats`). `Durable.KeysSafeExactly` says these are the only ways, and
  `Durable.LettersReadExactly` when such a ratchet also fails to read.
- `core/src/core.rs`: a letter that would open is given up, acknowledged and not stored, when its commit fails for good
  (`Durable.ReadCanLose`), when a lookup fails for good (`Durable.LookupCanLose`), or, sealed, when its ratchet is skipped or
  cannot decrypt (`Durable.SkippedCanLose`, `Durable.StarvedCanLose`); `Durable.OpeningGivesUpExactly` says exactly then. On a
  session set aside the ratchet is advanced before the commit, so after a failed commit the retry opens nowhere
  (`Durable.AsideRetryExactly`).
- `core/src/sanitizer.rs`: a WebP file whose RIFF size is 2^32 - 1 and from which nothing is dropped gets the size field 0
  and is refused by a second pass. `Webp.FixedPointExactly` says the fixed point holds exactly otherwise.
- `browser-router/src/engine.rs`: the one-time prekey counter wraps at 2^63 - 1, and the pool is in order exactly until
  then (`EngineOps.CounterWraps`, `EngineOps.PoolKeptExactly`). Different clocks can leave two engines on different primary
  sessions, though each still reads the other (`Readable.ClocksCanSplit`, `Readable.EveryLetterReads`);
  `Readable.PrimariesAgreeExactly` says when they agree, and `Conversation.EnginesAgreeExactly` of whole engines.
- `browser-router/src/socket.rs`: `poll_flush` succeeds after `poll_close` even if a write accepted while the close was
  waiting is still queued (`Pipe.FlushAfterCloseCanLag`), and a flush polled again answers for its first request
  (`Pipe.PolledFlushCanLag`); `Pipe.AtAckExactly` gives the condition.
- `dht/src/crypto.rs`: day numbers are cut to 32 bits, and a poll finds a letter exactly when both days are in one block of
  2^32 days (`Mail.PolledExactly`).
- `dht/src/items.rs`: the comment on tombstones says nothing can take a burned alias while the tombstone is visible; the code
  serves a stranger's claim when the burned claim itself is not visible (`Alias.BurnWithoutClaimYields`, exactly when:
  `Alias.BurnHoldsExactly`). The model follows the code. The record inside `Revoked` depends on the order of the values
  (`Alias.RevokedRecordDepends`, exactly when: `Alias.RevokedRecordExactly`).

## Model

| member | source | states |
|---|---|---|
| Jpeg.CleanJpeg | core/src/sanitizer.rs:188-286 | the index loop over the bytes returns, on every input, exactly what scanning into pieces, keeping, and reassembling gives, errors included; those bytes are spelled out by Jpeg.OutputExactly |
| Jpeg.ReadPiece | core/src/sanitizer.rs:200-228 | one turn of the loop takes one marker off the input as the scanner does and keeps body, orientation and JFIF end in step with the pieces read so far |
| Jpeg.ReadSegment | core/src/sanitizer.rs:222-272 | a segment, and after SOS its entropy-coded run, is taken as the scanner takes it |
| Jpeg.TakeSegment | core/src/sanitizer.rs:229-252 | what is kept of a segment (Jpeg.KeptExactly), the first Exif orientation seen, and where a leading JFIF ends |
| Jpeg.SkipFill | core/src/sanitizer.rs:204-206 | skips exactly the fill bytes |
| Jpeg.SkipRun | core/src/sanitizer.rs:255-270 | ends a run at the first real marker; stuffed bytes, restart markers and fill belong to the run |
| Jpeg.Finish | core/src/sanitizer.rs:278-285 | SOI, the leading JFIF, the orientation block if any, then the rest |
| Jpeg.ParseSound | core/src/sanitizer.rs:200-273 | the pieces the scanner finds are the input, byte for byte, up to the first EOI |
| Jpeg.ParseWellFormed | core/src/sanitizer.rs:200-273 | every piece found obeys the marker, length and run rules |
| Jpeg.ParsePrint | core/src/sanitizer.rs:245-272 | printing well-formed pieces and scanning them again gives them back, restart markers merged into the run before them |
| Jpeg.MinimalBlock | core/src/sanitizer.rs:290-332 | the written orientation block is read back as that orientation and is itself not kept |
| Jpeg.PicturePreserved | core/src/sanitizer.rs:188-332 | re-scanning the output finds the input's kept pieces in order, at most one added block, no other APPn or comment than JFIF, ICC and Adobe, and the input's effective orientation; which pieces are kept is Jpeg.KeptExactly |
| Jpeg.KeptExactly | core/src/sanitizer.rs:230-244 | the pieces kept are the input's, in order, without exactly the comments and the application segments other than APP0 with JFIF, APP2 with an ICC profile and APP14 with Adobe, told by their literal bytes |
| Jpeg.PurePictureUnchanged | core/src/sanitizer.rs:188-286 | a picture without application or comment segments comes out as it is, up to its end and without fill bytes |
| Jpeg.OutputExactly | core/src/sanitizer.rs:278-285 | the output byte for byte: start marker, a leading JFIF header, the block of an orientation from 2 to 8, the other pieces that are no metadata |
| Jpeg.ExifExactly | core/src/sanitizer.rs:290-318 | a TIFF block yields an orientation if and only if, in its byte order, it is marked 42 and the first orientation entry of its first directory is one SHORT of that value |
| Jpeg.OrientationExactly | core/src/sanitizer.rs:232-239 | the orientation is that of the first Exif segment that yields one |
| Grammars.JpegExactly | core/src/sanitizer.rs:200-273 | the scanner finds these pieces if and only if they obey the marker, length and run rules, spelled out, and with their fill bytes start the input; what follows the end of the image does not matter |
| Grammars.JpegAccepts | core/src/sanitizer.rs:188-273 | `clean_jpeg` accepts exactly the files that start with a start-of-image marker and such pieces |
| Jpeg.CleanIsFixedPoint | core/src/sanitizer.rs:188-286 | cleaning any accepted input's output succeeds and returns the same bytes |
| Png.CleanPng | core/src/sanitizer.rs:342-367 | the chunk loop returns, on every input, what parsing, keeping and joining gives, errors included |
| Png.ReadChunk | core/src/sanitizer.rs:348-356 | one chunk taken off the input as the parser takes it, or the same error |
| Png.ParseSound | core/src/sanitizer.rs:347-366 | the chunks found are the input, byte for byte, up to IEND |
| Png.ParseConcat | core/src/sanitizer.rs:347-366 | joining well-formed chunks and parsing gives them back |
| Png.CleanIsFixedPoint | core/src/sanitizer.rs:342-367 | a second pass returns the same bytes, and what is left is the input's critical and allow-listed chunks in input order |
| Png.KeptExactly | core/src/sanitizer.rs:357-363 | the chunks left are the input's in order; a chunk whose first letter is upper case is always left, and of chunks named by letters exactly these and the sixteen drawing chunks are |
| Png.CriticalUnchanged | core/src/sanitizer.rs:342-367 | a file with only upper-case chunks comes out unchanged up to IEND |
| Grammars.PngExactly | core/src/sanitizer.rs:347-366 | the walk finds these chunks if and only if they are whole, IHDR first, IEND last and nowhere else, and start what follows the signature |
| Webp.CleanWebp | core/src/sanitizer.rs:371-400 | the chunk loop with in-place flag and size fields returns what parsing, keeping and printing gives, errors included |
| Webp.ReadChunk | core/src/sanitizer.rs:380-383 | one chunk and where the next starts, as the parser has it, or the same error |
| Webp.TakeChunk | core/src/sanitizer.rs:384-394 | a kept chunk is copied, its VP8X flags cleared, its padding restored; any other is dropped |
| Webp.WithSize | core/src/sanitizer.rs:397-398 | the size field is patched in place and nothing else changes |
| Webp.ParsePrint | core/src/sanitizer.rs:379-396 | printing sized chunks and parsing gives them back |
| Webp.KeptExactly | core/src/sanitizer.rs:384-394 | the chunks left are the input's wanted chunks in order, the same but for two flag bits of a VP8X |
| Grammars.WebpExactly | core/src/sanitizer.rs:379-396 | the walk finds these chunks if and only if the bytes up to the RIFF end are they, with their sizes and padding of any value, which may be missing at the end |
| Webp.BodySize | core/src/sanitizer.rs:397-398 | the RIFF size is even, and fits 32 bits except in the overflowing family |
| Webp.CleanIsFixedPoint | core/src/sanitizer.rs:371-400 | unless the size overflows: RIFF size is length less eight and even, only allow-listed chunks in input order, VP8X advertises no EXIF or XMP, and a second pass returns the same bytes |
| Webp.OverflowIsRefused | core/src/sanitizer.rs:375-398 | in the overflowing family the output is refused by a second pass |
| Webp.FixedPointExactly | core/src/sanitizer.rs:371-400 | for every accepted input, a fixed point if and only if the size does not overflow |
| Webp.OverflowExists | core/src/sanitizer.rs:397-398 | an accepted input of that family |
| Crossing.Client.EnsureSession | core/src/core.rs:3775-3787 | in every world the client is a side of, this is the ask of that side: one more opening waits exactly when there is no session, and nothing of the other side or on its way to it changes |
| Crossing.Client.Install | core/src/core.rs:3851-3861 | installs the session it opened over whatever is there, forgets a lost init and remembers ours |
| Crossing.Client.SendPayload | core/src/core.rs:3865-3903 | sends on the current session and advances its index |
| Crossing.Client.HandleEnvelope | core/src/core.rs:2757-2932 | in-place handling of inits and letters does what the specification says, a letter nothing opens changing nothing |
| Crossing.LetterOpens | core/src/core.rs:2840-2932 | in a good view the letter at the front of the channel opens on the current or the lost session |
| Crossing.StepKeeps | core/src/core.rs:2757-2932 | every ask, every install that finds no session, every send and delivery of either side keeps the two-party invariant |
| Crossing.EveryLetterOpens | core/src/core.rs:2893-2932 | over every interleaving in which installs find no session, no delivered letter fails to open, and nobody opens two sessions |
| Crossing.Converges | core/src/core.rs:2794-2830 | over interleavings in which installs find no session, once both channels drain both hold the same session, the one of the smaller signing key if both opened one |
| Races.LateInstallSplits | core/src/core.rs:3775-3855 | a run in which an init is taken during the wait: the channels drain on different sessions and the next letter does not open |
| Races.LateLoses | core/src/core.rs:3851-3855 | after any install over a session, sends and deliveries exist that leave a letter unread |
| Races.InstallSafeExactly | core/src/core.rs:3851-3855 | between good clients an install is safe, whatever is sent and delivered afterwards, if and only if it finds no session |
| Races.SafeExactly | core/src/core.rs:3770-3863 | a whole run is safe at every moment if and only if every install in it found no session |
| Races.LateAgreesExactly | core/src/core.rs:3851-3855 | after an install over a session, however what is under way is then delivered, both sides end on one session if and only if not: the other has the smaller key and either (the late side never having opened) its own init is unanswered with nothing on its way to it, or its init is still on its way |
| Races.ConvergesExactly | core/src/core.rs:2794-2830 | after any punctual run and one more install, late or not, the drained sides agree if and only if the install found no session or the sides do not part as above |
| Locks.CleanKeeps | core/src/core.rs:2794-2828 | with a received init tested and written in two steps, clean acts keep the invariant and every pending test true |
| Locks.HastyInstallLoses | core/src/core.rs:2794-2828 | a run in which an install falls between the test and the write, and a letter goes unread |
| Locks.InstallCleanExactly | core/src/core.rs:3851-3855 | an install is safe, whatever follows, if and only if it finds no session and no init already tested that it would have stood against |
| Locks.LocksSafeExactly | core/src/core.rs:2794-2828 | the same over whole runs of asks, installs, sends, deliveries, tests and writes |
| Readable.LetterReads | browser-router/src/engine.rs:1133-1177 | a letter whose session's init was taken opens on the primary, the lost or an alternate session |
| Readable.ActKeeps | browser-router/src/engine.rs:1083-1177 | every initiation, send and delivery, in any order and at any clock, keeps each session in exactly one slot |
| Readable.EveryLetterReads | browser-router/src/engine.rs:1083-1177 | over every run in which an init comes before its session's letters, every letter opens, whatever the clocks say |
| Readable.ClocksCanSplit | browser-router/src/engine.rs:1087-1097 | a run in which stale clocks leave the two engines on different primaries |
| Readable.RunsAlike | browser-router/src/engine.rs:1083-1177 | with ordered channels and fresh clocks the engine refines the native client, event by event, and always installs punctually |
| Readable.PrimariesAgreeExactly | browser-router/src/engine.rs:1083-1128 | over any delivery order and any clocks, once both initiated and took the other's init, the primaries agree if and only if the other's init reached the smaller-key side while that side's own init was unanswered and fresh |
| Readable.FreshEnginesConverge | browser-router/src/engine.rs:1083-1106 | with ordered channels and fresh clocks, two engines that both opened settle on the smaller key's session |
| Durable.Client.SendPayload | core/src/core.rs:3894-3903 | encrypt, save, then hand on, in place, with every outcome of the save |
| Durable.Client.LookUp | core/src/core.rs:3775-3784 | looks at the cache and then, without the lock, copies what is on disk |
| Durable.Client.CacheCopy | core/src/core.rs:3784-3785 | the copy replaces whatever is cached |
| Durable.Client.HandleIncoming | core/src/core.rs:2840-2932 | a failed lookup ends it; then the current session, which a failed commit forgets, then the one set aside, advanced before its commit; which failure is returned and what was written |
| Durable.Client.CommitReceived | libcore/src/db/inbox.rs:41-74 | session and text in one synced commit, with every outcome of the write |
| Durable.Client.HandleFrame | core/src/core.rs:2690-2729 | what reading a letter the relay offers does, and whether the relay's copy is acknowledged: on which errors is Retries.LookupAckedExactly and its two companions |
| Durable.Client.DeliverLetter | core/src/core.rs:2964-2981 | the row and its letter after processing (Retries.ProcessedExactly); it is kept if and only if the failure was of the network, the relay or the file system, or a busy database |
| Durable.Client.DrainInbox | core/src/core.rs:2993-2999 | the loop over pending rows, skipping those being worked on |
| Durable.WireKept | core/src/core.rs:3775-3903 | every event, copies being cached and tables coming back in time, keeps each live ratchet, cached or stored, past every index sent on its chain |
| Durable.NoKeyTwice | core/src/core.rs:3894-3903 | over every run of sends, receives, loads, failed writes, crashes and power losses in which copies are cached and tables come back in time, no two envelopes handed on carry the same chain and index |
| Durable.StaleCopyRepeats | core/src/core.rs:3779-3785 | a run in which a copy cached too late sends one index twice |
| Durable.PowerLossRepeats | libcore/src/db.rs:367-369 | a run in which a power loss undoes a save whose envelope left, and the index leaves again |
| Durable.KeysSafeExactlyAt | core/src/core.rs:3784-3785 | after an event no sending, at once or after a restart, repeats a key if and only if nothing has left, at its index or above, on the chain of a copy it caches or a table it brings back |
| Durable.KeysSafeExactly | core/src/core.rs:3775-3903 | at no moment of a run can sending repeat a key, if and only if every copy was cached and every table came back in time |
| Durable.LettersKept | core/src/core.rs:2840-2932 | every event of an established contact, failed lookups and decryptions included, keeps every spent, handled or arrived letter accounted for and the ratchets in use ahead of what was sent |
| Durable.NoLetterLost | core/src/core.rs:2684-2730 | over every run a letter that arrived, on the current session or the one set aside, is at the relay, in the inbox, processed or past its time to live, unless a read of it gave up |
| Durable.LettersReadExactly | core/src/core.rs:2840-2886 | at every moment of a run every letter that may arrive is read, if and only if no ratchet came into use, from a copy or after a power loss, that had not got as far as what was sent |
| Durable.ReadIsSafeExactly | core/src/core.rs:2684-2730 | reading a letter not yet held leaves it safe if and only if the read is not one that gives up |
| Durable.OpeningGivesUpExactly | core/src/core.rs:2843-2927 | a letter some ratchet opens is given up if and only if a lookup or its commit fails with a stale prekey, a sealed drop, a state error, a database error that will not pass or, in the grace period, a crypto error, or its ratchet is skipped or cannot decrypt while it is sealed or the session fresh |
| Durable.CurrentGivesUpExactly | core/src/core.rs:2843-2886 | that is every letter of the current session that is not held |
| Durable.AsideRetryExactly | core/src/core.rs:2893-2927 | after a failed commit of a letter set aside, its retry leaves it safe if and only if the retry's lookup fails with an error not acknowledged, or it named its sender and the session is past its grace period |
| Durable.ReadCanLose | core/src/core.rs:2723-2729 | a read that gives up: a commit that fails for good, acknowledged with nothing stored |
| Durable.LookupCanLose | core/src/core.rs:2843-2855 | a lookup that fails for good, acknowledged with no commit tried |
| Durable.SkippedCanLose | core/src/core.rs:2902-2921 | a failed contact lookup skips the session set aside, and the sealed letter is dropped |
| Durable.StarvedCanLose | core/src/core.rs:2854-2921 | decryption without protected memory, and the sealed letter is dropped |
| Durable.FailedReadStillOpens | core/src/core.rs:2874-2882 | after a failed read the stored session is untouched, the cached one forgotten if it had read the letter, and what is left still opens the letter, unless the letter is held already |
| Durable.SpentWithText | libcore/src/db/inbox.rs:41-73 | a letter becomes spent on disk only in the step that stores its text, or with its text held already |
| Durable.AckAfterStore | core/src/core.rs:2690-2692 | the relay copy goes only once the letter is held, or when the read gives up |
| Durable.DrainedKeeps | core/src/core.rs:2993-2999 | draining the inbox keeps all of this |
| Retries.LookupAckedExactly | core/src/core.rs:2693-2729 | of the ten errors a lookup can fail with, the relay drops its copy on exactly five: stale prekey, sealed drop, state, a database error that will not pass, and crypto in the grace period |
| Retries.CommitAckedExactly | core/src/core.rs:2684-2730 | a letter that opens stays at the relay unless its commit fails with one of these; it is filed unless nothing was written |
| Retries.UnreadAckedExactly | core/src/core.rs:2711-2722 | a letter nothing opens stays at the relay if and only if it named its sender and no session is fresh |
| Retries.TriedUntilStored | core/src/core.rs:2716-2729 | however often reading a letter fails for the network, the relay, the file system or a busy database, and whatever else happens to an established contact: the relay keeps its copy, the first read that is written stores it, and no power loss takes that back |
| Retries.AckedOnceProcessed | core/src/core.rs:2690-2692 | a stored letter is acknowledged once it was processed, whatever came of that, and not before |
| Retries.ReadLeaves | core/src/core.rs:2840-2886 | a stored read leaves cached and stored ratchet the same: the letter spent, on the chain there was or, if theirs turned, on a new one from its start |
| Retries.OpeningLeaves | core/src/core.rs:3840-3863 | a session opened by either side forgets the one set aside and starts on a chain of its own, saved before its init is sent; not saved, nothing is sent |
| Retries.ProcessedExactly | core/src/core.rs:2964-2981 | a row whose processing fails with one of those four errors stays; after success or any other error its letter is settled and the row goes if it can be removed; no other row changes |
| Retries.RowLeavesExactly | core/src/core.rs:2964-2981 | an inbox row goes if and only if it was processed with success or a lasting error and could be removed, or is swept after 604800000 ms |
| Retries.DrainedExactly | core/src/core.rs:2983-2999 | draining settles exactly the letters of the listed rows that the receive path is not at and that do not fail in passing |
| Vault.CreateSound | browser-router/src/vault.rs:207-233 | a created vault meets the parser's header rules and opens with its passphrase |
| Vault.ChangePasswordSound | browser-router/src/vault.rs:355-363 | after a change the new passphrase fits, and key, generation and every passkey stay; when it succeeds at all is Vault.ChangePasswordExactly |
| Vault.EnrollSound | browser-router/src/vault.rs:365-400 | enrolling keeps the header rules, the password and all passkeys, and adds one that works |
| Vault.CreateExactly | browser-router/src/vault.rs:207-233 | a vault is created if and only if the profile name has 1 to 128 bytes without control characters and the passphrase 1 to 4096 |
| Vault.ChangePasswordExactly | browser-router/src/vault.rs:346-363 | for every vault: the password changes if and only if the old one is legal and unwraps to the vault's key and the new one is legal |
| Vault.EnrollExactly | browser-router/src/vault.rs:365-400 | a passkey is added if and only if fewer than eight are enrolled, its names and PRF output are in bounds and its credential is new; nothing else changes |
| Vault.OnlyItsPassword | browser-router/src/vault.rs:355-363 | where the cipher is not forged, a passphrase that derives another key does not fit after the change |
| Vault.HeaderBinds | browser-router/src/vault.rs:85-94 | where the cipher is not forged, the password wrap opens under no header with another name, salt or cost |
| Vault.PasskeyBinds | browser-router/src/vault.rs:365-400 | where the cipher is not forged, a passkey's wrap opens for no other profile, credential, relying party or salt |
| Vault.SealsExactly | browser-router/src/vault.rs:303-336 | a record is sealed if and only if text and header are within bounds and the counter has a next value |
| Vault.FrontBinds | browser-router/src/vault.rs:278-301 | where the cipher is not forged, a record whose header, generation, nonce or length was altered opens with no key |
| Vault.ParsedPrints | browser-router/src/vault.rs:411-458 | every record that parses is its own fields printed, the header within every bound, and the digest of all that |
| Vault.Cell.Commit | browser-router/src/vault.rs:338-344 | the generation moves by exactly one or not at all |
| Vault.Cell.RotatePassword | browser-router/src/vault.rs:355-363 | in place; succeeds if and only if the old passphrase fits and the new one is legal (Vault.ChangePasswordExactly), and a refused change leaves the vault as it was |
| Vault.Cell.AddPasskey | browser-router/src/vault.rs:365-400 | in place, with the duplicate scan; a refusal leaves the vault as it was |
| Vault.SealedParses | browser-router/src/vault.rs:303-336 | every record sealed is within the record limit and parses to the same header, generation, nonce, associated data and ciphertext |
| Vault.SealedOpens | browser-router/src/vault.rs:235-301 | it opens with the password and with every passkey to the vault one generation on and the sealed text, and under no other profile name |
| Vault.PasswordOpensExactly | browser-router/src/vault.rs:235-301 | a record opens with a password, to this vault and text, if and only if it parses, is of this profile, the password is legal, the key derived from it unwraps 32 bytes and these open the text |
| Vault.PasskeyOpensExactly | browser-router/src/vault.rs:249-301 | the same for the first entry of a passkey's credential and 32 bytes of PRF output |
| Vault.TornNeverParses | browser-router/src/vault.rs:411-458 | no proper prefix of a record parses, whatever the digest |
| Vault.NewestIsNewest | browser-router/src/vault.rs:470-481 | the choice is a stored record that parses, of the highest generation, and exists if and only if some slot parses |
| Slots.TearDisk | ui/src/browser-core/storage.ts:68-93 | whatever an unfinished write leaves that does not parse, or the whole record, the two slots show the last committed state or the whole candidate |
| Slots.PrefixIsTorn | ui/src/browser-core/storage.ts:72-81 | a write cut short anywhere leaves such bytes |
| Slots.CommitKeeps | browser-router/src/engine.rs:918-939 | after a flush the commit is never refused and installs the candidate |
| Slots.StepKeeps | browser-router/src/engine.rs:851-939 | seal, torn and finished writes, mirroring, commit, rollback, crash and reopen keep the recovery invariant and add at most one state to the history |
| Slots.NeverGoesBack | browser-router/src/vault.rs:303-344 | after any run, crashed at any step, the newest record is the last committed state or the candidate sealed last; committed generations are 1, 2, 3 and so on |
| Slots.LaterIsNewer | ui/src/browser-core/storage.ts:353-363 | what is found at any later moment is at least as new as the last commit, and as a candidate once its first copy was flushed |
| Slots.RecoversExactly | browser-router/src/vault.rs:278-301 | the saved state found opens, with its password or any passkey, to its vault and text |
| Wire.ListRoundTrip | browser-router/src/engine.rs:318-330 | a printed list is read back, with whatever follows left over |
| Payload.PayloadRoundTrip | browser-router/src/engine.rs:193-209 | every payload within the reader's limit is read back as printed |
| Payload.ReadExactly | browser-router/src/engine.rs:323-330 | bytes are read as a payload if and only if they are that payload printed, within 16 MiB: no other bytes and none left over |
| Profile.Write | browser-router/src/engine.rs:225-321 | the loops over the maps, in whatever order they are walked, print the payload of that order |
| Profile.Restore | browser-router/src/engine.rs:323-470 | the loader with all its checks and loops returns what the specification says, error by error |
| Profile.RestoreSecrets | browser-router/src/engine.rs:393-416 | identity, router identity, signed prekey and one-time prekeys are restored in this order, and the first failure is reported |
| Profile.Check | browser-router/src/engine.rs:332-391 | the version, profile, count, duplicate and alternates checks, in order |
| Profile.FindRepeat | browser-router/src/engine.rs:354-381 | reports a repeat if and only if there is one |
| Profile.FindOverflow | browser-router/src/engine.rs:383-391 | reports a peer with more than three alternates if and only if there is one |
| Profile.ChecksPass | browser-router/src/engine.rs:332-391 | a coherent state's payload passes every check of the loader |
| Profile.PeersRoundTrip | browser-router/src/engine.rs:418-451 | the five maps come back exactly, alternates in order |
| Profile.StateRoundTrip | browser-router/src/engine.rs:225-470 | a coherent state loads back exactly, whatever order its maps were walked in |
| Profile.RefusalExactly | browser-router/src/engine.rs:332-391 | the checks pass if and only if version, profile and counts are right, no peer or prekey id is repeated and no peer has more than three alternates, each spelled out |
| Profile.LoadsExactly | browser-router/src/engine.rs:323-451 | bytes load if and only if they are a printed payload within the limit that passes the checks and whose secrets and ratchets can be restored |
| EngineOps.ApplyCoherent | browser-router/src/engine.rs:838-1219 | every call, successful or not, keeps sessions and pinned keys together, everything else inside them, and the loader's bounds |
| EngineOps.AcceptTakes | browser-router/src/engine.rs:1342-1371 | accepting an init takes exactly its prekey out of the pool and issues the counter's next ids behind the others; it succeeds if and only if the pool could be filled |
| EngineOps.PoolKeptExactly | browser-router/src/engine.rs:472-484 | the pool stays distinct and below the counter if and only if the secrets at hand, from the place that falls free up to the last, do not carry the counter past its end |
| EngineOps.CounterWraps | browser-router/src/engine.rs:476-478 | a full pool at the counter's last value and one accepted init: the id issued is not below the counter |
| EngineOps.AcceptSpends | browser-router/src/engine.rs:1358-1366 | the prekey used is gone, and the pool holds only what it held and new ids |
| Effects.EncryptExactly | browser-router/src/engine.rs:945-1025 | `encrypt` succeeds if and only if the peer's ratchet advances or, for a new peer, the table has room and a verified bundle has both pinned keys; then exactly the peer's ratchet is replaced by the advanced one, or exactly the new peer's session, key and own init are written; a refusal changes nothing |
| Effects.InitExactly | browser-router/src/engine.rs:1061-1132 | when an init is let in (sender and key as named, room for it) and what it leaves: kept beside our session if ours is unanswered, under a minute old and of the smaller key, else taken over with the old session in front of at most three alternates; what a failed one leaves |
| Effects.AcceptExactly | browser-router/src/engine.rs:1342-1371 | what an init derives: from no prekey, or from the secret of exactly the prekey it names, lost only if a secret for the refill is missing |
| Effects.ReadExactly | browser-router/src/engine.rs:1133-1177 | the first ratchet that opens, of the session, the lost init and the alternates in this order, advances and nothing else changes but our own init, answered only by the session's; none opening, nothing is read |
| Effects.SearchExactly | browser-router/src/engine.rs:1179-1212 | a letter without a sender goes to the first peer of the walk one of whose ratchets opens it |
| Effects.LetterExactly | browser-router/src/engine.rs:1133-1217 | the letter is bound to the key the caller pinned, or else to the one on record; an unreadable text is reported after the ratchet has advanced |
| Effects.ForgetExactly | browser-router/src/engine.rs:838-848 | exactly the peer's entries leave the five maps |
| Effects.PasswordExactly | browser-router/src/engine.rs:1271-1278 | in a transaction: the candidate's password changes if and only if the old one fits and the new one is legal, the new one then opens the vault; otherwise the candidate is untouched |
| Effects.PasskeyExactly | browser-router/src/engine.rs:1291-1308 | the same for a passkey |
| Effects.OthersKept | browser-router/src/engine.rs:838-1219 | whatever a call does, the peers it is not about keep their entries in all five maps |
| Conversation.CarryTied | browser-router/src/engine.rs:945-1217 | `encrypt` and `decrypt` at one peer do to its entries what Readable's initiate, write and arrive do to its slots, and succeed; the smaller signing key stands |
| Prelude.LessExactly | browser-router/src/engine.rs:117-119 | the smaller key is the one with the smaller byte where the two first differ |
| Conversation.MovesKeep | browser-router/src/engine.rs:945-1217 | over any calls of two engines, about each other and about others, their entries for each other are the slots of a run of Readable |
| Conversation.EnginesReadEverything | browser-router/src/engine.rs:1052-1217 | after any such calls the next message of the other is taken, whichever ratchet it needs and whether or not its sender is named |
| Conversation.EnginesAgreeExactly | browser-router/src/engine.rs:1083-1128 | once both initiated and took the other's init, their session entries name the same session if and only if the init reached the smaller key's engine while its own was unanswered and fresh |
| Engine.NewStateOk | browser-router/src/engine.rs:628-677 | a created profile meets the invariant |
| Engine.ApplyKeeps | browser-router/src/engine.rs:945-1219 | every call keeps the state one the loader gives back |
| Engine.StepKeeps | browser-router/src/engine.rs:838-939 | begin, calls, seal, commit, rollback and close keep it too |
| Engine.ReopensExactly | browser-router/src/engine.rs:878-939 | after any sequence of events, a sealed record opens to exactly the state and metadata that commit installs, one generation on |
| Engine.RolledBack | browser-router/src/engine.rs:871-874 | a rolled-back or unsealed transaction leaves the committed state, prekeys included, for the next one |
| Engine.SealsExactly | browser-router/src/engine.rs:878-904 | sealing yields a record if and only if a transaction is open and not sealed, and state, header and counter fit; otherwise nothing changes |
| Engine.SealedIsFrozen | browser-router/src/engine.rs:851-904 | between sealing and commit, rollback or close nothing changes the engine, so what was sealed is what commit installs |
| Engine.OnlyCommitInstalls | browser-router/src/engine.rs:851-939 | whatever is tried, only commit changes the committed state and only close forgets it |
| Engine.ClosedForGood | browser-router/src/engine.rs:1311-1320 | after close nothing is held and everything but close and rollback is refused, for good |
| History.LifeTraces | browser-router/src/engine.rs:851-939 | a rule every call keeps for the record of its transaction holds of the committed, candidate and stored states along every history |
| History.NoPrekeyTwice | browser-router/src/engine.rs:1342-1371 | along every history, through crashes and reopenings from the last commit or the candidate sealed after it, no prekey id serves two committed inits, and a used id is in no later pool |
| Chains.CallInStep | browser-router/src/engine.rs:945-1217 | every call keeps each peer's next index beyond everything sealed on its session, and seals with no key a second time |
| Chains.NoIndexTwice | browser-router/src/engine.rs:967-970 | along every history, no two successful encryptions of committed transactions or of the one under way seal with the same session and index |
| BrowserEngine.FindPosition | browser-router/src/engine.rs:1347-1353 | the first position of an id, or the pool's length |
| BrowserEngine.RefillPool | browser-router/src/engine.rs:472-484 | the refill loop, stopping where a secret cannot be generated |
| BrowserEngine.AcceptInit | browser-router/src/engine.rs:1342-1371 | the pool changes only when the init opens; a failed refill loses the ratchet with the prekey already gone |
| BrowserEngine.TryAlternates | browser-router/src/engine.rs:1164-1174 | the first alternate that opens is replaced, the others untouched |
| BrowserEngine.SearchPeers | browser-router/src/engine.rs:1179-1212 | a sealed letter is tried on every peer in turn |
| BrowserEngine.BrowserEngine.Begin | browser-router/src/engine.rs:851-868 | the candidate starts as the committed state |
| BrowserEngine.BrowserEngine.Seal | browser-router/src/engine.rs:878-904 | seals the serialised candidate and freezes it |
| BrowserEngine.BrowserEngine.Commit | browser-router/src/engine.rs:918-939 | takes the candidate away and installs it if it was sealed |
| BrowserEngine.BrowserEngine.Encrypt | browser-router/src/engine.rs:945-1025 | in-place map updates of a send or a new session, tied to the call whose exact effect is Effects.EncryptExactly: the advanced ratchet is stored, and Chains.NoIndexTwice follows |
| BrowserEngine.BrowserEngine.TakeInit | browser-router/src/engine.rs:1061-1132 | in-place handling of an init; a refused one has already dropped own and lost inits |
| BrowserEngine.BrowserEngine.TakeLetter | browser-router/src/engine.rs:1133-1217 | in-place handling of a letter from a known or unknown sender |
| BrowserEngine.BrowserEngine.ForgetPeer | browser-router/src/engine.rs:838-848 | all five maps forget the peer |
| Pipe.Stream.PollRead | browser-router/src/socket.rs:316-351 | fills the front of the buffer with the next bytes of the stream and touches no other cell |
| Pipe.Stream.PollWrite | browser-router/src/socket.rs:355-380 | accepts at most one frame, or refuses, or waits for room |
| Pipe.Stream.PollFlush | browser-router/src/socket.rs:382-419 | queues one flush and reports its acknowledgement |
| Pipe.Stream.PollClose | browser-router/src/socket.rs:421-429 | closes the write side once flushed |
| Pipe.StepHalfKeeps | browser-router/src/socket.rs:254-430 | every poll, driver step, drop and abort keeps both directions' bytes, counts and flushes accounted for |
| Pipe.ReadsArePrefix | browser-router/src/socket.rs:219-286 | in every schedule bytes read are a prefix of bytes handed over, and these of bytes accepted |
| Pipe.CleanEndIsComplete | browser-router/src/socket.rs:335-348 | without task abort a clean end of stream is reported only when everything accepted was read |
| Pipe.FlushMeansHanded | browser-router/src/socket.rs:382-419 | a flush that succeeds with the write side open has handed over every byte accepted before it was queued |
| Pipe.CloseHandsEverything | browser-router/src/socket.rs:421-429 | if nothing was accepted while a close waited, everything is handed over at its success and ever after |
| Pipe.AtAckExactly | browser-router/src/socket.rs:382-429 | at the acknowledgement a waiting flush or close succeeds, having handed over everything if and only if nothing was accepted since it asked |
| Pipe.PolledFlushCanLag | browser-router/src/socket.rs:397-418 | a schedule in which a flush polled again succeeds with a byte still queued |
| Pipe.FlushAfterCloseCanLag | browser-router/src/socket.rs:384-386 | a schedule in which a flush after close succeeds with a byte still queued |
| PipeEnds.ReadsExactly | browser-router/src/socket.rs:316-351 | in every schedule a read gives the next bytes if any were handed over, else the end of a stream that ended, its failure, or nothing yet |
| PipeEnds.WritesExactly | browser-router/src/socket.rs:355-380 | a write is taken up to 65536 bytes, refused exactly when this side or the stream is closed, and waits exactly behind nine commands; what is reported is what is accepted |
| PipeEnds.CleanEndComes | browser-router/src/socket.rs:335-348 | in every schedule: once the other side has closed or was dropped and everything it accepted was read, three turns of its driver at most, and an endpoint that has not failed reads 0 |
| PipeEnds.FlushOnEndExactly | browser-router/src/socket.rs:254-286 | when the other side's driver ends, a flush here succeeds if and only if nothing of ours was under way and our stream had not failed |
| PipeEnds.DroppedPeerFails | browser-router/src/socket.rs:265-286 | a frame that finds the other endpoint dropped fails this one: next write and flush fail, and so does a read once everything was read |
| PipeEnds.QueuesStayShort | browser-router/src/socket.rs:219-286 | in every schedule no queue holds more than nine messages, and what is accepted but not read is bounded |
| PipeEnds.EverythingCanArrive | browser-router/src/socket.rs:219-286 | after any schedule without abort or drop, turns of a living driver and reads exist that bring everything accepted to the reader: nothing is stuck |
| Permits.StepShape | browser-router/src/network.rs:206-287 | each atomic operation moves one task and the counters by what its phases hold, and whoever gets in found room |
| Permits.PermitsConserved | browser-router/src/network.rs:200-287 | over every interleaving of any number of tasks: at most 16 live permits and unreleased guards, at most 8 accept permits, no counter below zero, counters equal to what is held |
| Permits.EverythingComesBack | browser-router/src/network.rs:255-287 | a finished task has returned each reservation exactly once; both counters are zero when nothing is held |
| Permits.EverythingCanComeBack | browser-router/src/network.rs:200-287 | from wherever any interleaving has brought the tasks, they can all finish, and then both counters are zero |
| Permits.ReturnsExactly | browser-router/src/network.rs:242-287 | a transferred permit leaves a guard with its stream and no accept; a dropped permit or released guard returns exactly what it held, once |
| Permits.AdmittedExactly | browser-router/src/network.rs:207-218 | with no other call under way a connect is admitted if and only if fewer than 16 are live |
| Permits.AcceptAdmittedExactly | browser-router/src/network.rs:220-240 | and an accept if and only if moreover fewer than 8 accepts are live; a refused one leaves the counters as they were |
| Permits.TryConnect | browser-router/src/network.rs:207-218 | one connect reservation |
| Permits.TryAccept | browser-router/src/network.rs:220-240 | one accept reservation, both limits, nothing kept on refusal |
| Permits.StreamPermit.Transfer | browser-router/src/network.rs:242-252 | the guard takes the stream over; the accept stops counting |
| Permits.StreamPermit.Drop | browser-router/src/network.rs:255-264 | returns what was not transferred |
| Permits.StreamCountGuard.Release | browser-router/src/network.rs:273-280 | only the first release returns the stream |
| Sealing.BucketFits | dht/src/crypto.rs:136-141 | the bucket is the least power of two from 256 to 4 MiB that holds text and length |
| Sealing.PadRoundTrip | dht/src/crypto.rs:136-152 | padding succeeds exactly within the limit, is undone exactly, and shows only the bucket |
| Sealing.SealRoundTrip | dht/src/crypto.rs:156-191 | opening undoes sealing; the sealed length shows only the bucket |
| Sealing.SealBinds | dht/src/crypto.rs:156-191 | where the cipher is not forged, a sealed value opens only at the key it is stored under and with the secret and kind it was sealed for |
| Mail.PairIsSymmetric | dht/src/crypto.rs:77-93 | both of a pair compute the same secret, or neither does |
| Mail.PairSecretExactly | dht/src/crypto.rs:77-93 | there is a secret if and only if the shared key is not all zeros |
| Mail.PairBinds | dht/src/crypto.rs:77-93 | where derivations do not collide, pairs with one secret are the same two people with the same shared key |
| Mail.MailKeyBinds | dht/src/crypto.rs:102-104 | where keyed hashes do not collide, each direction of a pair has a key of its own for each day |
| Mail.KeysFromContents | dht/src/items.rs:105-108 | the polled keys are those of today and the days before it, none before day zero |
| Mail.PolledExactly | dht/src/crypto.rs:43-45 | a letter's key is among those polled up to days - 1 days later if and only if both days are in one block of 2^32 |
| Mail.MailArrives | dht/src/items.rs:52-108 | a letter within the size limit is found and opened by the other of the pair to the same envelope, and its token hashes to the stored delete hash |
| Mail.MailBinds | dht/src/items.rs:52-108 | where the cipher is not forged, mail opens only under its own key and with its own pair's secret |
| Mail.MailExpires | dht/src/items.rs:69-78 | a letter waits seven days, and its delete hash is the digest of its token |
| Alias.OpenRecords | dht/src/items.rs:225-271 | the loop over values yields the valid claims and tombstones in order; which values these are, signature included, is Alias.OpenOneExactly |
| Alias.FoundingOfOwner | dht/src/items.rs:276-288 | one claim per owner, none of that owner's being older |
| Alias.PickFounding | dht/src/items.rs:309-311 | whatever order the map is walked in, the pick is the claim first in line |
| Alias.Resolve | dht/src/items.rs:303-325 | the whole verdict, step by step; on whose word it is told is Alias.VerdictIsSigned |
| Alias.OpenOneExactly | dht/src/items.rs:233-268 | a value is taken as a claim, or a tombstone, if and only if it opens under the alias's secret to a record of that kind and this alias, in its time, whose signature verifies under its owner over the record's digest |
| Alias.VerdictIsSigned | dht/src/items.rs:225-325 | a claim or burn is told only if some value is such a record of that kind saying exactly that; an alias is told free only if no value is any |
| Alias.OldestClaimWins | dht/src/items.rs:276-311 | no valid claim is older than the one told, and among equally old ones none is of a smaller key |
| Alias.DigestBinds | dht/src/items.rs:340-352 | where digests do not collide, the signature fixes kind, owner, times, body and key |
| Alias.BuildExactly | dht/src/items.rs:179-216 | a record is built if and only if the alias is well formed, its founding time not in the future and its payload fits |
| Alias.FoundingIsFirst | dht/src/items.rs:276-311 | the founding claim is one of the claims and no claim is before it by time, owner, expiry, payload |
| Alias.BuiltOpens | dht/src/items.rs:179-216 | a built claim, renewal or tombstone opens all through its time as what it was built to say |
| Alias.RecordsLast | dht/src/items.rs:204-223 | a claim or renewal is valid for exactly 366 days, a tombstone for exactly ten times as long |
| Alias.VerdictIsOrderFree | dht/src/items.rs:225-325 | reordering, repeating, or adding values that are no valid records (Alias.OpenOneExactly) changes neither the kind of verdict nor its owner, nor the record when claimed |
| Alias.SeniorityHolds | dht/src/items.rs:276-325 | while an owner's claim or renewal is valid and other owners' claims are later, the verdict names that owner, revoked if and only if a valid tombstone of theirs is present |
| Alias.BurnWithoutClaimYields | dht/src/items.rs:312-325 | a built tombstone alone burns the alias; beside a stranger's built claim the stranger has it |
| Alias.BurnHoldsExactly | dht/src/items.rs:303-325 | with a tombstone visible, the verdict is burned if and only if whoever is first in line has a visible tombstone |
| Alias.RevokedRecordDepends | dht/src/items.rs:313-314 | one claim and two tombstones as built: two orders give different records inside the verdict |
| Alias.RevokedRecordExactly | dht/src/items.rs:309-323 | the record inside the verdict is the same in every order and repetition if and only if all deciding tombstones are equal |

## Left out

- Real cryptography (X25519, Ed25519, XChaCha20-Poly1305, Argon2id, HKDF, SHA-256), the ratchet's key schedule, its limit on skipped keys, and zeroization.
- Resync, restart of the native client in the middle of a crossing, and contact wipe: the code promises no convergence there.
- Relay dialing, hosted relay, updates, DHT upkeep, typing, pins, events, groups and file parts in `core/src/core.rs`.
- `clean_pdf` and the file-name heuristics of the sanitizer.
- `run_socket`, the WebSocket and WebRTC adapters, wakers and task spawning; a poll is one atomic event.
- Introductions, address and bundle records, and the storing nodes of the relay network.
- Attachment keys and parts of the vault; context labels in associated data, which are constants.
- UTF-8 validity of profile names, metadata and aliases read from storage; hex and JSON parsing at the engine's border.
- Failure to expose a protected secret while serialising.
- The moments between the locks inside one install of a native session (own init, lost init, disk, cache), and inside the writing of one received init: each is one step; an init's test and its write are two (Locks).
- Crossing.Converges: assumes ordered delivery in each direction and no restart, which is what the source relies on; Races.ConvergesExactly gives the exact condition for a first late install, later ones are not followed.
- Durable.NoLetterLost: speaks of one established contact whose ratchets in use are ahead of what was sent (Durable.LettersReadExactly is the exact condition); sessions opened or replaced during the run are covered by NoKeyTwice only.
- Inbox rows that were deleted and come back after a power loss: they are processed again.
- Engine.ReopensExactly: bounded by how many one-time prekeys can still be numbered, because the counter wraps; see EngineOps.PoolKeptExactly for the exact condition.
- Pipe.FlushMeansHanded: a flush that is already queued covers what was accepted when it was queued, not what was accepted before a later poll of it (Pipe.PolledFlushCanLag).
- Chains.NoIndexTwice: sessions have names, and a call that sets one up must give it a new one; that fresh X3DH and ratchet keys do is cryptography.
- Conversation.EnginesReadEverything: forgetting the other of the pair, a full session table and an init whose prekey is gone are outside these runs; Effects.InitExactly says what they do.
- Mail.MailArrives: the expiry time is carried but what storing nodes make of it is not modelled.
- Slots.StepKeeps: the private state is an opaque text here; that it reopens exactly is Engine.ReopensExactly.
