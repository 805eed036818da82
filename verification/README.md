# Models of Telegravim's self-contained protocols and formats

A Dafny 4.11 project that states, and proves, what the most intricate self-contained pieces of Telegravim do. Each
module models one piece in the form its source has: classes with the same fields and loops where the source updates
state, functions where it computes. A class keeps its state in real fields, `Abs()` gives the abstract state, and
every method's contract says which function of the old state the new one is. What the source promises is proved about
these functions, over every run: a `Step` is one call, reply, timer or outside event, replies come in any order, and
an `EveryRun...` lemma carries the invariant through any sequence of steps. Where a handler of the source looks
something up without a check, the method's precondition is the invariant, which every reachable state has.

| module | models |
|---|---|
| `Fips180`, `PackerSha1` | the hand-written SHA-1 of the packer, against sections 5.1.1, 5.2.1, 5.3.1 and 6.1.2 of FIPS 180-4 |
| `UpdateEnvelope` | the envelope of an update: its writer, the client's parser, and embedding signatures |
| `ButtonRipple` | the ripple colour of a button, against plain proportional scaling |
| `ShellFrame` | the event queue, the frame generations and the reload timer of the web-app shell |
| `StickerSave`, `StickerRequests` | saving the order of sticker sets, and the requests that carry it out |
| `WebPages` | resolving pending web pages with temporary ids |
| `ForwardMessages` | forwarding in batches, paying stars, and the shared callback |
| `DialogsLoad`, `DialogsPage` | loading the lists of dialogs and the pinned ones, part after part |
| `MessageData`, `FileReferences` | requests that many callbacks wait for |
| `DraftSaves`, `DraftSweeps`, `DraftSavings` | saving drafts to the cloud, preventing quit until they are saved, what a sweep sends, and the count of saves that makes a history ignore its cloud draft |
| `Albums`, `AlbumDeals` | sending an album when its last part is there, and how it is sent |
| `UpdatePlan` | the plan of what the updaters copy, on Linux and on Windows, and carrying it out |
| `Mesh`, `MeshText` | the two mesh converters |
| `BlockedPeers`, `BlockedEffects`, `BlockedNested` | blocking and unblocking, also when those who are called block and unblock themselves |
| `ReleaseWatch` | the release watcher, with runs that overlap and may fail anywhere |
| `Sequences`, `Wrappers` | a fact about loops that erase, and optional values |

## Where the code does less than it seems to promise

The models follow the code. In these places a promise made by a comment, a document or the shape of the code holds
only under a condition; the lemma named gives it, or a run in which the promise fails.

- The padding of `hashSha1` keeps the length in 32 bits, so the result is SHA-1 exactly for messages shorter than
  2^29 bytes (`PackerSha1.PaddingExact`). For lengths from 2^32 - 64 up its loop does not end at all
  (`PackerSha1.LoopEnds`).
- The retry of a draft save that waited for a file reference overwrites the tracked id even when a newer save has
  taken its place, and switching encryption on for a peer erases the entries of its threads even when a save waits
  for its file reference and cannot be cancelled. The newest save stays tracked exactly as long as neither happens to
  it (`DraftSaves.StepKeeps`, `DraftSaves.EveryRunKeeps`), and as long as it does, quitting is prevented
  (`DraftSaves.NewestPreventsQuit`). After one of them quitting is not prevented although the newest save is under way
  (`DraftSaves.SupersededRetryLosesNewest`, `DraftSaves.EncryptionForgetsNewest`).
- A save that is only scheduled is forgotten by exactly the retry of an earlier save of its thread, or when encryption
  is switched on (`DraftSaves.ScheduledStays`, `DraftSaves.ScheduledUntilServed`); a run in which a retry does so is
  `DraftSaves.SupersededRetryDropsScheduled`.
- A save that is cancelled in flight, by a second one or by the switch to encryption, stays counted for good, so the
  history ignores what it hears about that cloud draft from then on, and it does so only then
  (`DraftSavings.StepBooks`, `DraftSavings.HearsAgain`); two saves in a row are enough
  (`DraftSavings.SecondSaveDeafens`).
- A file of an album that is empty or too large is taken out of the album without looking at it. If it was the last
  part without media, the album is complete, or empty, and stays so, unsent, until one of its parts is cancelled
  (`Albums.StepKeeps`, `Albums.StrandedStays`, `Albums.StrandedForGood`, `Albums.OrphanedForGood`); a run that ends so
  is `Albums.FailedLoadStrands`.
- A reply about blocking takes the entry of its peer even when that belongs to a later, opposite request. In every run
  in which no call supersedes the opposite one each callback gets the answer of its own request
  (`BlockedPeers.EveryCallerHearsItsOwn`), also when those who are called block and unblock
  (`BlockedNested.NestedCallersHearTheirOwn`); after such a call one can be told of failure although its request
  succeeds (`BlockedPeers.SupersededReplyMisreports`). A callback's own call can store its entry before the call
  around it does, which is then in flight without one (`BlockedNested.InnerKeepsEntry`).
- The text of a mesh converts back to the same bytes, as the comment of the decoder says, exactly when its counts are
  whole triples and pairs and its floats read back (`MeshText.RoundTrip`).
- A list of dialogs for which the server answers that nothing was modified is never asked for again
  (`DialogsLoad.ListArrivedKeeps`, `DialogsLoad.StalledStays`, `DialogsLoad.StalledForGood`), and no other reply
  stalls one (`DialogsLoad.EveryRunKeeps`).
- The end of a part of a list of dialogs can mix two of them: when the top message of the last dialog is not there, the
  next part is asked for with the date of an earlier dialog, but with the message and the peer of the last one
  (`DialogsPage.OffsetOfOneDialog`, `DialogsPage.MixedOffset`).
- A web page of its own origin whose origin is not known loses every event (`ShellFrame.MutePageLosesEvents`), and no
  other one does (`ShellFrame.EveryFrameIsServed`).
- Two files of an update can have one target when the binary is renamed (`UpdatePlan.TargetsCollide`,
  `UpdatePlan.CollidingUpdate`).
- An album whose paid request fails stays in the table for good (`Albums.UnpaidStays`).
- A web page that is due while its message is not found stays in the map without a timer of its own: it is asked for
  only when the timer is set for another page (`WebPages.LeftWaiting`, `WebPages.WebPagesPending.ResolveWebPages`). A
  request for web pages has no handler for failure, so its pages stay unresolved; in the model such a reply just
  never comes.

## Model

| member | source | states |
|---|---|---|
| `PackerSha1.OrFormsAgree` | Telegram/SourceFiles/_other/packer.cpp:104-107 | the two OR forms of the round functions equal the Ch and Maj of FIPS 180-4, which use XOR, for all words |
| `PackerSha1.ShiftsRotate` | Telegram/SourceFiles/_other/packer.cpp:82-84 | the two shifts joined by OR are the rotations by 1, 5 and 30 that the rounds of FIPS 180-4 use |
| `PackerSha1.ShiftedBits` | Telegram/SourceFiles/_other/packer.cpp:82-84 | no bit is lost: bit i of the argument is bit i + 1, i + 5 or i + 30 of the result, counted modulo 32 |
| `PackerSha1.ExpandIsSchedule` | Telegram/SourceFiles/_other/packer.cpp:99-102 | the word computed in place from the four earlier ones is the word of the message schedule of section 6.1.2 |
| `PackerSha1.ShiftSwapIsRound` | Telegram/SourceFiles/_other/packer.cpp:89-97 | one exchange of the five variables is one round of section 6.1.2, given that its function value is the round's |
| `PackerSha1.ExpandAt` | Telegram/SourceFiles/_other/packer.cpp:99-102 | writing one word extends the part of the array that holds the schedule |
| `PackerSha1.PartHash` | Telegram/SourceFiles/_other/packer.cpp:86-118 | the 80 fused rounds add to the state exactly what the compression of section 6.1.2 adds for the block |
| `PackerSha1.OrByte` | Telegram/SourceFiles/_other/packer.cpp:141-143 | OR-ing one byte into its lane of a cleared block gives the words of the message one byte longer |
| `PackerSha1.PaddingExact` | Telegram/SourceFiles/_other/packer.cpp:137-149 | the padding written equals that of section 5.1.1 if and only if the message is shorter than 2^29 bytes, because the length is kept in 32 bits |
| `PackerSha1.TailWords` | Telegram/SourceFiles/_other/packer.cpp:137-149 | the one or two last blocks, loaded and marked in place, are the words of the padded message's last blocks |
| `PackerSha1.LoadBlock` | Telegram/SourceFiles/_other/packer.cpp:128-133 | the 16 words loaded are the big-endian words of the block |
| `PackerSha1.LoadTail` | Telegram/SourceFiles/_other/packer.cpp:138-143 | the cleared block holds the rest of the message and the end mark |
| `PackerSha1.LoopEnds` | Telegram/SourceFiles/_other/packer.cpp:127-128 | in 32-bit arithmetic the loop ends if and only if the length is below 2^32 - 64, and then after as many rounds as there are whole blocks; from there up the offset stays at 2^32 - 64 for ever |
| `PackerSha1.HashWholeBlocks` | Telegram/SourceFiles/_other/packer.cpp:127-135 | for every length for which the loop ends, the state is that of all whole blocks, and the offset is where they end |
| `PackerSha1.HashTail` | Telegram/SourceFiles/_other/packer.cpp:137-149 | the tail takes the state to the hash of the whole padded message, in one block or two |
| `PackerSha1.StoreDigest` | Telegram/SourceFiles/_other/packer.cpp:151-155 | the 20 bytes stored are the five words, most significant byte first, and nothing else changes |
| `PackerSha1.HashSha1` | Telegram/SourceFiles/_other/packer.cpp:122-158 | for every message shorter than 2^29 bytes the result is the SHA-1 digest of FIPS 180-4; for all longer ones for which the loop ends it is the hash with the padding as written |
| `UpdateEnvelope.AppendLeU32` | Telegram/SourceFiles/_other/packer.cpp:164-172 | the four bytes appended are those of the value, the least significant first |
| `UpdateEnvelope.AppendLeU64` | Telegram/SourceFiles/_other/packer.cpp:174-177 | the eight bytes appended are those of the value, the least significant first |
| `UpdateEnvelope.U32Reads` | Telegram/SourceFiles/core/update_verify.cpp:435-444 | four bytes written are read back as the value, and the rest is left |
| `UpdateEnvelope.U32Writes` | Telegram/SourceFiles/core/update_verify.cpp:435-444 | four bytes read are the ones that writing the value gives |
| `UpdateEnvelope.BuildV2Envelope` | Telegram/SourceFiles/_other/packer.cpp:278-313 | the buffer grown field by field is the layout of the envelope |
| `UpdateEnvelope.EntriesRead` | Telegram/SourceFiles/core/update_verify.cpp:699-722 | the list of signatures written is read back as that list |
| `UpdateEnvelope.EntriesWrite` | Telegram/SourceFiles/core/update_verify.cpp:699-722 | a list of signatures that is read is the only one whose bytes these are |
| `UpdateEnvelope.DecodesWhatIsWritten` | Telegram/SourceFiles/_other/packer.cpp:278-313 | the layout of every envelope whose lengths fit is decoded to all its fields |
| `UpdateEnvelope.WritesWhatIsDecoded` | Telegram/SourceFiles/core/update_verify.cpp:609-739 | bytes that decode are exactly the layout of what they decode to |
| `UpdateEnvelope.UniquelyDecodable` | Telegram/SourceFiles/_other/packer.cpp:278-313 | two envelopes with the same bytes are the same |
| `UpdateEnvelope.NoOtherCut` | Telegram/SourceFiles/_other/packer.cpp:278-313 | no layout is a proper prefix of another one |
| `UpdateEnvelope.HeaderIs` | Telegram/SourceFiles/_other/packer.cpp:287-294 | the fixed part byte by byte: TDUP, the format, one byte each for channel, system and processor, and the version and the time in eight bytes each, the lowest first |
| `UpdateEnvelope.PartsAre` | Telegram/SourceFiles/_other/packer.cpp:287-313 | after the header come the manifest, its signature, the number of signatures with their entries, and the payload, each at its place and after its length |
| `UpdateEnvelope.EntryIs` | Telegram/SourceFiles/_other/packer.cpp:300-309 | an entry of the signatures is the name of the key and the signature, each after its length |
| `UpdateEnvelope.ClientReadsExactly` | Telegram/SourceFiles/core/update_verify.cpp:609-739 | the client reads an envelope just when its fields are within the client's limits |
| `UpdateEnvelope.Reader.NextU8` | Telegram/SourceFiles/core/update_verify.cpp:428-433 | reads one byte or fails at the end |
| `UpdateEnvelope.Reader.NextU32` | Telegram/SourceFiles/core/update_verify.cpp:435-444 | reads four bytes or fails |
| `UpdateEnvelope.Reader.NextU64` | Telegram/SourceFiles/core/update_verify.cpp:446-453 | reads eight bytes or fails |
| `UpdateEnvelope.Reader.NextBlob` | Telegram/SourceFiles/core/update_verify.cpp:455-464 | reads a length within limits and that many bytes, or fails |
| `UpdateEnvelope.ParseHead` | Telegram/SourceFiles/core/update_verify.cpp:617-661 | the checks of the head accept exactly the heads that a layout can start with |
| `UpdateEnvelope.ParseEntries` | Telegram/SourceFiles/core/update_verify.cpp:699-722 | the loop over the signatures reads the list or fails where the list does |
| `UpdateEnvelope.ParseBody` | Telegram/SourceFiles/core/update_verify.cpp:678-738 | the rest is accepted only if it ends where the data ends |
| `UpdateEnvelope.ParseEnvelope` | Telegram/SourceFiles/core/update_verify.cpp:609-739 | the parser is the decoder, and the signed region it keeps is the envelope's bytes up to its manifest |
| `UpdateEnvelope.EmbeddingChangesOnlySignatures` | Telegram/SourceFiles/_other/packer.cpp:529-537 | rebuilding a decoded envelope without signatures with some replaces its signature section and no other byte, and keeps the signed region |
| `UpdateEnvelope.EmbedSignatures` | Telegram/SourceFiles/_other/packer.cpp:474-537 | the rebuild succeeds exactly for an unsigned envelope of the channel asked for and at least one signature |
| `UpdateEnvelope.EmbeddedIsReadable` | Telegram/SourceFiles/_other/packer.cpp:529-541 | the rebuilt envelope is read back if and only if the signatures are within the limits |
| `ButtonRipple.HueBySextant` | Telegram/Resources/bot_webview_shell_html/page.js:363-373 | the hue computed falls into the sextant of the two brighter channels, also for ties, and with the right part of it |
| `ButtonRipple.TentAt` | Telegram/Resources/bot_webview_shell_html/page.js:379 | the tent function rises and falls by the distance to the next even sextant |
| `ButtonRipple.SextantNamesChannels` | Telegram/Resources/bot_webview_shell_html/page.js:384-402 | the branch taken for the hue gives each channel the share of its own colour |
| `ButtonRipple.SharesScale` | Telegram/Resources/bot_webview_shell_html/page.js:374-380 | a channel's share plus the common rest is the channel times the new value over the old one |
| `ButtonRipple.ChannelValues` | Telegram/Resources/bot_webview_shell_html/page.js:384-406 | each channel comes out scaled by the new brightest value over the old one |
| `ButtonRipple.RippleChannels` | Telegram/Resources/bot_webview_shell_html/page.js:360-402 | the whole route over hue, saturation and chroma multiplies each channel by one factor; black becomes grey 32 |
| `ButtonRipple.ScaledStaysInRange` | Telegram/Resources/bot_webview_shell_html/page.js:375-377 | the scaled channels are in 0..255 before rounding, so the clamps have nothing to do |
| `ButtonRipple.NoClampBinds` | Telegram/Resources/bot_webview_shell_html/page.js:346-351 | neither clamp of a channel changes the rounded value |
| `ButtonRipple.RoundedScaled` | Telegram/Resources/bot_webview_shell_html/page.js:374-406 | the rounded channel is the whole number nearest to its share of the new brightness: 32 less than the old one if that is above 128, else 32 more; black gives 32 |
| `ButtonRipple.DigitsAre` | Telegram/Resources/bot_webview_shell_html/page.js:354-359 | exactly the sixteen digits, small or capital, have a value, and which |
| `ButtonRipple.HexByteReads` | Telegram/Resources/bot_webview_shell_html/page.js:346-351 | the two digits written read back as the byte |
| `ButtonRipple.ButtonRippleForBackground` | Telegram/Resources/bot_webview_shell_html/page.js:353-407 | a result comes for exactly the strings that are colours, it is a colour, and each of its bytes is the whole number nearest to the channel's share of the brightness that is 32 lower above 128 and else 32 higher |
| `ButtonRipple.RippleKeepsShape` | Telegram/Resources/bot_webview_shell_html/page.js:353-407 | the order of the channels is kept and the brightest one gets the new value |
| `ShellFrame.PostQueues` | Telegram/Resources/bot_webview_shell_html/page.js:152-166 | an event posted to a frame that is not ready waits, and the accounts still hold |
| `ShellFrame.PostOverflows` | Telegram/Resources/bot_webview_shell_html/page.js:160-162 | an event over the bound drops the oldest one, and that is the one counted as lost |
| `ShellFrame.PostSends` | Telegram/Resources/bot_webview_shell_html/page.js:165 | an event posted to a ready frame is sent at once, after all earlier ones |
| `ShellFrame.FlushDelivers` | Telegram/Resources/bot_webview_shell_html/page.js:214-221 | flushing sends all that waits for the current generation, in order |
| `ShellFrame.LoadKeeps` | Telegram/Resources/bot_webview_shell_html/page.js:956-963 | a frame that loads gets its queue and is ready from then on |
| `ShellFrame.ReplaceKeeps` | Telegram/Resources/bot_webview_shell_html/page.js:944-972 | a new frame gets a new generation and loses what waited for the old one |
| `ShellFrame.QuietKeeps` | Telegram/Resources/bot_webview_shell_html/page.js:871-880 | the other steps send, queue and lose nothing |
| `ShellFrame.StepKeeps` | Telegram/Resources/bot_webview_shell_html/page.js:136-221 | every step keeps: queued events carry the current generation, a ready frame has an empty queue, at most 64 wait, and each generation is accounted for |
| `ShellFrame.EveryRunAccounts` | Telegram/Resources/bot_webview_shell_html/page.js:136-221 | in every reachable state each frame has got its own generation's events in posting order, but for those counted as lost |
| `ShellFrame.SmallGenerationsLoseNothing` | Telegram/Resources/bot_webview_shell_html/page.js:152-163 | a generation with at most 64 events loses some if and only if its frame was replaced while they waited or its page is mute |
| `ShellFrame.EveryFrameIsServed` | Telegram/Resources/bot_webview_shell_html/page.js:136-221 | in every run in which no start names a page of its own origin without an origin, every frame there ever was got all its events but those lost to overflow and those it was replaced with, and one that has loaded has none left to wait for |
| `ShellFrame.EveryRunHeeds` | Telegram/Resources/bot_webview_shell_html/page.js:136-150 | all along a run the page takes its frame for loaded and able to reload exactly when the events said so, and each message names the receivers that the start before its frame allows: the page's own origin if it is the shell's, any otherwise |
| `ShellFrame.ReplacedExactly` | Telegram/Resources/bot_webview_shell_html/page.js:944-994 | a frame is replaced, and its generation goes up by one, in exactly the starts, the timeouts, and the reloads of a frame that is not up or cannot reload itself |
| `ShellFrame.ReloadAsksOrReplaces` | Telegram/Resources/bot_webview_shell_html/page.js:978-994 | a frame that is up and can reload itself is asked to, and timed; any other one is replaced |
| `ShellFrame.ReloadIsAwaited` | Telegram/Resources/bot_webview_shell_html/page.js:978-991 | the timer of such a request stays in every run until the page announces its reload, which stops it, or the time is over, which replaces the frame |
| `ShellFrame.MutePageLosesEvents` | Telegram/Resources/bot_webview_shell_html/page.js:142-144 | a run in which a page of its own origin without a known origin gets no event |
| `ShellFrame.TimerBelongsToFrame` | Telegram/Resources/bot_webview_shell_html/page.js:944-991 | a reload timer that is set belongs to the current generation |
| `ShellFrame.Shell.SendToFrame` | Telegram/Resources/bot_webview_shell_html/page.js:136-150 | sends to the attached frame of this generation, with its receivers, unless the page is of its own origin without one; whom that leaves without events is `ShellFrame.EveryFrameIsServed` |
| `ShellFrame.Shell.PostToFrame` | Telegram/Resources/bot_webview_shell_html/page.js:152-166 | an event waits while the frame is not ready, and the oldest goes when more than 64 wait; otherwise it is sent |
| `ShellFrame.Shell.FlushPendingEvents` | Telegram/Resources/bot_webview_shell_html/page.js:214-221 | the queue is emptied, and what it held for this generation is sent in order |
| `ShellFrame.Shell.CreateIframe` | Telegram/Resources/bot_webview_shell_html/page.js:944-972 | replaces the frame, its generation, queue and timer |
| `ShellFrame.Shell.OnLoad` | Telegram/Resources/bot_webview_shell_html/page.js:956-963 | only the load of the current frame has an effect |
| `ShellFrame.Shell.OnWillReload` | Telegram/Resources/bot_webview_shell_html/page.js:874-880 | a page that reloads itself is not ready and needs no timer |
| `ShellFrame.Shell.ReloadFrame` | Telegram/Resources/bot_webview_shell_html/page.js:978-994 | asks a page that can reload itself and sets the timer, or replaces the frame |
| `ShellFrame.Shell.OnTimeout` | Telegram/Resources/bot_webview_shell_html/page.js:987-990 | a timer that fires replaces the frame |
| `ShellFrame.Shell.Bootstrap` | Telegram/Resources/bot_webview_shell_html/page.js:1001-1017 | sets the origin and creates the first frame |
| `StickerSave.RemoveAllPerSet` | Telegram/SourceFiles/apiwrap.cpp:1744-1824 | the first pass, seen from one set, drops, uninstalls or leaves it, by its own flags and the removed list |
| `StickerSave.InstallAllPerSet` | Telegram/SourceFiles/apiwrap.cpp:1839-1873 | the second pass installs exactly the sets named and leaves the order filtered to the known ones |
| `StickerSave.SavePerSet` | Telegram/SourceFiles/apiwrap.cpp:1743-1887 | the passes together, seen from one set, and the order filtered to the sets that survive |
| `StickerSave.SavedSets` | Telegram/SourceFiles/apiwrap.cpp:1743-1887 | the order is the one asked for, filtered to the sets that survive; a set of the type that is not archived is installed if and only if it is in it; every surviving set has a reason to be kept |
| `StickerSave.OutcomeFacts` | Telegram/SourceFiles/apiwrap.cpp:1743-1887 | a set that survives has a reason to be kept, and one of the type that is not archived is installed if and only if it is in the order |
| `StickerSave.OthersStay` | Telegram/SourceFiles/apiwrap.cpp:1826-1837 | a set of another type that the call does not name and that is needed stays as it is |
| `StickerSave.SaveTwice` | Telegram/SourceFiles/apiwrap.cpp:1743-1887 | saving the same order again changes no set and not the order |
| `StickerSave.SaveKeeps` | Telegram/SourceFiles/apiwrap.cpp:1652-1673 | a save supersedes the earlier one of its type: its requests are cancelled and their replies cannot act |
| `StickerSave.ChangeReplyKeeps` | Telegram/SourceFiles/apiwrap.cpp:1711-1721 | the reply to a change acts for its own save: the reorder goes out with the last of them |
| `StickerSave.OtherReplyKeeps` | Telegram/SourceFiles/apiwrap.cpp:1694-1708 | the replies to the reorder and to clearing leave the rest alone |
| `StickerSave.StepKeeps` | Telegram/SourceFiles/apiwrap.cpp:1652-1926 | every save and every reply keeps: the requests in flight of a type are its recorded ones, and a reorder is live only when the type has no change outstanding |
| `StickerSave.EveryRunKeeps` | Telegram/SourceFiles/apiwrap.cpp:1652-1926 | in every reachable state the requests in flight are the recorded ones, and a live reorder means that the type has no change outstanding |
| `StickerSave.ReorderAfterChanges` | Telegram/SourceFiles/apiwrap.cpp:1675-1721 | a save that was not superseded has sent exactly one reorder once its changes are answered, and none before, if its order has two sets or more |
| `StickerSave.IdleIsSound` | Telegram/SourceFiles/apiwrap.cpp:1652-1926 | every state of the sets with nothing in flight satisfies the invariant, so runs may start from any of them |
| `StickerSave.ApiStickers.CancelRequests` | Telegram/SourceFiles/apiwrap.cpp:1668-1673 | cancels the type's requests and the two for the recent stickers |
| `StickerSave.ApiStickers.StickersSaveOrder` | Telegram/SourceFiles/apiwrap.cpp:1675-1709 | sends a reorder for two sets or more |
| `StickerSave.ApiStickers.ForgetRecent` | Telegram/SourceFiles/apiwrap.cpp:1783-1790 | erasing from front to back keeps exactly the recent stickers of other sets, in order |
| `StickerSave.ApiStickers.RemoveSet` | Telegram/SourceFiles/apiwrap.cpp:1744-1823 | a set that is not archived is uninstalled and dropped unless something else keeps it; the two recent sets clear the recent stickers; that these are the requests wanted is `StickerRequests.SavedRequests` |
| `StickerSave.ApiStickers.RemoveSets` | Telegram/SourceFiles/apiwrap.cpp:1744-1824 | the loop removes the sets one after the other |
| `StickerSave.ApiStickers.ClearInstalledFlags` | Telegram/SourceFiles/apiwrap.cpp:1826-1837 | clears the flag of exactly the sets of the type that are not archived |
| `StickerSave.ApiStickers.InstallSet` | Telegram/SourceFiles/apiwrap.cpp:1840-1872 | a known set of the order is marked as installed, unarchived unless it was removed, and dated |
| `StickerSave.ApiStickers.InstallSets` | Telegram/SourceFiles/apiwrap.cpp:1839-1873 | the loop rebuilds the order from the sets it installs |
| `StickerSave.ApiStickers.DropUnneeded` | Telegram/SourceFiles/apiwrap.cpp:1875-1887 | keeps exactly the sets that have a reason to be kept |
| `StickerSave.ApiStickers.SaveStickerSets` | Telegram/SourceFiles/apiwrap.cpp:1652-1926 | the call cancels, runs the passes, and sends the reorder at once if no change is outstanding |
| `StickerSave.ApiStickers.OnReply` | Telegram/SourceFiles/apiwrap.cpp:1711-1721 | the reply to a change takes its id out and sends its save's reorder if it was the last; the others clear their ids |
| `StickerRequests.SavedRequests` | Telegram/SourceFiles/apiwrap.cpp:1652-1926 | a save takes back what the last save of its type has in flight, and sends exactly these requests: an uninstall for each removed set that is known and not archived, an install for each archived set of the order that stays, the clearing for each removed list of recent stickers, and the reorder at once only when no set changes |
| `StickerRequests.RemoveAllSends` | Telegram/SourceFiles/apiwrap.cpp:1743-1824 | the first pass asks to uninstall exactly the removed sets that are known and not archived, and to clear exactly the lists named; the custom set counts only if it comes before a clearing |
| `StickerRequests.InstallAllSends` | Telegram/SourceFiles/apiwrap.cpp:1839-1873 | the second pass asks to install exactly the sets of the order that are archived and were not removed, each once |
| `StickerRequests.SavedRecent` | Telegram/SourceFiles/apiwrap.cpp:1744-1790 | clearing a list empties the recent stickers; otherwise they lose exactly the stickers of the removed sets; the orders of the other types stay |
| `WebPages.GroupsHoldIds` | Telegram/SourceFiles/apiwrap.cpp:2745-2764 | the groups made by channel hold exactly the due messages of their channels, numbered without gaps |
| `WebPages.DueIsAsked` | Telegram/SourceFiles/apiwrap.cpp:2744-2765 | a due page with a message is in the list of its channel, or in the one without channel |
| `WebPages.MarksAreTemporary` | Telegram/SourceFiles/apiwrap.cpp:2760-2763 | each entry gets the temporary id of its own group |
| `WebPages.DueGetsRequest` | Telegram/SourceFiles/apiwrap.cpp:2792-2804 | writing back turns a due page's temporary id into the request of its group |
| `WebPages.RequestsAreExact` | Telegram/SourceFiles/apiwrap.cpp:2771-2791 | every request sent carries exactly the due messages of its channel, and no channel has two |
| `WebPages.WrittenResolves` | Telegram/SourceFiles/apiwrap.cpp:2792-2804 | writing back leaves every due page with the request of its group, no negative id, and all other entries as they were |
| `WebPages.DueHoldsItsRequest` | Telegram/SourceFiles/apiwrap.cpp:2732-2804 | every due page with a message that had no request holds the positive id of the one new request that carries it; no negative id is left; all other entries are as before |
| `WebPages.SoonestIs` | Telegram/SourceFiles/apiwrap.cpp:2767 | the time for the timer is the least one left to any page that is neither asked for nor due |
| `WebPages.LeftWaiting` | Telegram/SourceFiles/apiwrap.cpp:2732-2808 | a page that resolving leaves without a request is not due, or its message was not found |
| `WebPages.UnansweredStay` | Telegram/SourceFiles/apiwrap.cpp:3092-3102 | a reply erases exactly the entries that waited for it, and the rest stays in order |
| `WebPages.EmplacedIs` | Telegram/SourceFiles/apiwrap.cpp:2713 | a page is added in its place in the map, without a request, only if it is not there |
| `WebPages.WebPagesPending.MarkDue` | Telegram/SourceFiles/apiwrap.cpp:2740-2769 | the first loop: the lists, the groups, the marks and the soonest time |
| `WebPages.WebPagesPending.AskChannels` | Telegram/SourceFiles/apiwrap.cpp:2781-2791 | one request for each group, found by its number |
| `WebPages.WebPagesPending.WriteBack` | Telegram/SourceFiles/apiwrap.cpp:2792-2804 | every temporary id is replaced by its request |
| `WebPages.WebPagesPending.ResolveWebPages` | Telegram/SourceFiles/apiwrap.cpp:2732-2808 | after the call every due page with a message that had no request holds the one that carries it, all other entries are as before, and the timer is set for the soonest page not yet due; a page without a request then waits for the timer, or its message was not found |
| `WebPages.WebPagesPending.Answer` | Telegram/SourceFiles/apiwrap.cpp:3092-3103 | the loop that erases while it goes leaves the others in order; the pages still pending are pending no more, and they are the ones that fail |
| `WebPages.WebPagesPending.GotWebPages` | Telegram/SourceFiles/apiwrap.cpp:3092-3103 | the reply settles exactly the pages that wait for its request, and exactly those still pending fail |
| `WebPages.WebPagesPending.RequestWebPageDelayed` | Telegram/SourceFiles/apiwrap.cpp:2709-2718 | a pending page that has not failed gets an entry in its place unless it has one, and the timer fires no later than the page is due |
| `WebPages.WebPagesPending.ClearWebPageRequest` | Telegram/SourceFiles/apiwrap.cpp:2720-2725 | exactly the entry of the page goes, and without entries the timer stops; the pages left still wait for it |
| `WebPages.WebPagesPending.ClearWebPageRequests` | Telegram/SourceFiles/apiwrap.cpp:2727-2730 | no entry and no timer is left |
| `WebPages.WebPagesPending.ApplyPendingTill` | Telegram/SourceFiles/data/data_session.cpp:4773-4806 | a page that becomes pending is asked for later, and one that is no longer pending is taken out |
| `ForwardMessages.RunsSplit` | Telegram/SourceFiles/apiwrap.cpp:4163-4204 | the batches of one range, put together, are its items in order; each is of one peer, and neighbours differ |
| `ForwardMessages.BatchesSplit` | Telegram/SourceFiles/apiwrap.cpp:4163-4204 | the batches, put together, are the items of all ranges in order; each has one source peer and the flag of its range, and none is empty |
| `ForwardMessages.PaidInAll` | Telegram/SourceFiles/apiwrap.cpp:4068-4080 | however the items are split, the stars paid add up to what was approved or to the price of all items, whichever is less |
| `ForwardMessages.PaidInOrder` | Telegram/SourceFiles/apiwrap.cpp:4068-4080 | every batch goes out in order, and up to each of them exactly as much has been paid as its messages and all before it cost, or all that was approved |
| `ForwardMessages.CallPaysInAll` | Telegram/SourceFiles/apiwrap.cpp:4059-4204 | the stars paid by all the batches of one call are what was approved or the price of all its items, whichever is less |
| `ForwardMessages.ReplyKeeps` | Telegram/SourceFiles/apiwrap.cpp:4126-4154 | each reply to a batch in flight keeps: the counter is the number of batches that did not succeed, so it never goes below zero |
| `ForwardMessages.CalledOnceOnAllSuccess` | Telegram/SourceFiles/apiwrap.cpp:4126-4154 | in whatever order the batches in flight are answered, the callback has run once if and only if every batch succeeded, and never more; if one failed it does not run |
| `ForwardMessages.SomethingIsSent` | Telegram/SourceFiles/apiwrap.cpp:4059-4204 | ranges with items give at least one batch, so the callback is not forgotten |
| `ForwardMessages.Forwarding.SendAccumulated` | Telegram/SourceFiles/apiwrap.cpp:4059-4159 | sends what has gathered with its stars and counts the request |
| `ForwardMessages.Forwarding.AddRange` | Telegram/SourceFiles/apiwrap.cpp:4163-4204 | the items of a range go out as its runs of one source peer, in order |
| `ForwardMessages.Forwarding.ForwardMessages` | Telegram/SourceFiles/apiwrap.cpp:3971-4204 | sends the batches of all ranges; without any range the callback runs at once |
| `ForwardMessages.Forwarding.OnDone` | Telegram/SourceFiles/apiwrap.cpp:4126-4133 | a success counts down, and the last one runs the callback; each batch stays accounted for |
| `ForwardMessages.Forwarding.OnFail` | Telegram/SourceFiles/apiwrap.cpp:4142-4154 | a failed batch leaves the counter alone, so the callback cannot run any more |
| `DialogsLoad.FailHandlerIsSafe` | Telegram/SourceFiles/apiwrap.cpp:1019-1021 | when a list request fails its state is there and holds that request, so it can be dereferenced |
| `DialogsLoad.ListArrivedKeeps` | Telegram/SourceFiles/apiwrap.cpp:982-1017 | a reply to a list keeps the invariant; if no list was stalled, one is afterwards if and only if the reply said that nothing was modified |
| `DialogsLoad.NotModifiedStalls` | Telegram/SourceFiles/apiwrap.cpp:984-987 | after such a reply the list keeps an id that is not in flight |
| `DialogsLoad.StalledStays` | Telegram/SourceFiles/apiwrap.cpp:957-965 | a stalled list stays stalled in every step: no reply, request or reload gets it going again |
| `DialogsLoad.StalledForGood` | Telegram/SourceFiles/apiwrap.cpp:950-1196 | and so in every run: it is never asked for again |
| `DialogsLoad.StepKeeps` | Telegram/SourceFiles/apiwrap.cpp:950-1196 | every step keeps: the state of a list request in flight is there, holds its id and is not complete, the same for a pinned request, and no state has both parts; a step stalls a list if and only if it is a reply that nothing was modified |
| `DialogsLoad.StepAnnounced` | Telegram/SourceFiles/apiwrap.cpp:1120-1137 | every list that went away was announced once |
| `DialogsLoad.EveryRunKeeps` | Telegram/SourceFiles/apiwrap.cpp:950-1196 | that holds in every reachable state, and every state ever made is still there or was announced once; in the end no list is stalled if and only if no reply of the run said that nothing was modified |
| `DialogsLoad.OneOfEach` | Telegram/SourceFiles/apiwrap.cpp:957-1029 | a list has at most one list request and one pinned request of its own in flight |
| `DialogsLoad.StepPages` | Telegram/SourceFiles/apiwrap.cpp:957-1109 | every step keeps: each list has come to where the last dated part received for it ends, and its request in flight asks for what follows |
| `DialogsLoad.AsksWhatFollows` | Telegram/SourceFiles/apiwrap.cpp:967-981 | in every run from the start, every list request in flight asks from the end of the last dated part received for its state on, 500 of them, or for the first 20 if there was none |
| `DialogsLoad.AskingSends` | Telegram/SourceFiles/apiwrap.cpp:957-1029 | asking for more of a list that is idle, while loading is not blocked, puts its request in flight from where it has come to, and with it the pinned one that it lacks |
| `DialogsLoad.NewFolderIsAsked` | Telegram/SourceFiles/apiwrap.cpp:950-955 | a folder that has no state is asked for from its beginning, with its pinned ones |
| `DialogsLoad.EveryRunBlocksByDate` | Telegram/SourceFiles/apiwrap.cpp:1031-1041 | in every run loading is blocked only while the main list waits, incomplete, at a date that need not be passed |
| `DialogsLoad.LoadingGoesOn` | Telegram/SourceFiles/apiwrap.cpp:996-1017 | after a dated part of the main list, either its date need not be passed and loading is blocked, or the part that follows it is asked for at once |
| `DialogsLoad.ArchiveFollows` | Telegram/SourceFiles/apiwrap.cpp:1043-1061 | once the main list is complete, more of the archive is asked for where it is needed |
| `DialogsLoad.GoneWithBothParts` | Telegram/SourceFiles/apiwrap.cpp:1120-1137 | a state goes away only with the reply that brings its second part, and that step announces it |
| `DialogsLoad.ApiDialogs.DialogsLoadState` | Telegram/SourceFiles/apiwrap.cpp:1112-1118 | the state of a list, if there is one |
| `DialogsLoad.ApiDialogs.RefreshDialogsLoadBlocked` | Telegram/SourceFiles/apiwrap.cpp:1031-1041 | whether loading is blocked by date |
| `DialogsLoad.ApiDialogs.RequestDialogs` | Telegram/SourceFiles/apiwrap.cpp:950-955 | a folder without a state gets a fresh one, and then its next part is asked for |
| `DialogsLoad.ApiDialogs.RequestMoreDialogs` | Telegram/SourceFiles/apiwrap.cpp:957-1029 | asks for the next part unless one is on its way or blocked |
| `DialogsLoad.ApiDialogs.RequestPinnedDialogs` | Telegram/SourceFiles/apiwrap.cpp:1139-1152 | the pinned ones are asked for unless they were received or are on their way |
| `DialogsLoad.ApiDialogs.RequestMoreDialogsIfNeeded` | Telegram/SourceFiles/apiwrap.cpp:1043-1061 | goes on with the main list, then with the archive |
| `DialogsLoad.ApiDialogs.UpdateDialogsOffset` | Telegram/SourceFiles/apiwrap.cpp:1063-1110 | a part with a dated message moves the offset on to its end and frees the request; one without ends the list; what that means for the requests sent is `DialogsLoad.AsksWhatFollows` |
| `DialogsLoad.ApiDialogs.DialogsLoadFinish` | Telegram/SourceFiles/apiwrap.cpp:1120-1137 | removes a state with both parts and announces it |
| `DialogsLoad.ApiDialogs.OnListDone` | Telegram/SourceFiles/apiwrap.cpp:982-1018 | a list ends, moves on or stays as it is, by the reply, and loading goes on |
| `DialogsLoad.ApiDialogs.OnListFail` | Telegram/SourceFiles/apiwrap.cpp:1019-1021 | in every reachable state the handler finds the state and clears its id |
| `DialogsLoad.ApiDialogs.OnPinnedReply` | Telegram/SourceFiles/apiwrap.cpp:1145-1151 | success or failure, the pinned part counts as received |
| `DialogsPage.LastOffsetIs` | Telegram/SourceFiles/apiwrap.cpp:1063-1098 | the end of a part: there is a date if and only if some dialog is dated; it is that of the last dated dialog, and the message and the peer are those of the last known one |
| `DialogsPage.DateIs` | Telegram/SourceFiles/apiwrap.cpp:1085-1092 | a dialog's date is that of the last message that is its top one |
| `DialogsPage.FindDate` | Telegram/SourceFiles/apiwrap.cpp:1085-1092 | the inner loop finds that date |
| `DialogsPage.FindOffset` | Telegram/SourceFiles/apiwrap.cpp:1067-1098 | the loop over the dialogs finds that end, if it has a date |
| `DialogsPage.OffsetOfOneDialog` | Telegram/SourceFiles/apiwrap.cpp:1077-1092 | date, message and peer of the end are of one dialog if and only if the last known dialog has that date |
| `DialogsPage.MixedOffset` | Telegram/SourceFiles/apiwrap.cpp:1077-1092 | a part whose last dialog comes without its top message: the end has its message and peer, but the date of the dialog before it |
| `MessageData.JoinedWaits` | Telegram/SourceFiles/apiwrap.cpp:675-684 | a registration adds its callback to those that wait, and loses none |
| `MessageData.RequestKeeps` | Telegram/SourceFiles/apiwrap.cpp:675-688 | after it every entry waits for a request in flight that carries its message, or resolving is scheduled |
| `MessageData.ResolvedOneIs` | Telegram/SourceFiles/apiwrap.cpp:725-745 | one request takes exactly the messages of its channel that had none, and only those entries change |
| `MessageData.ResolveKeeps` | Telegram/SourceFiles/apiwrap.cpp:720-774 | resolving leaves no entry without a request in flight, and neither loses nor runs a callback |
| `MessageData.CollectedWaits` | Telegram/SourceFiles/apiwrap.cpp:784-798 | the callbacks collected are exactly those that stop waiting |
| `MessageData.CalledKeeps` | Telegram/SourceFiles/apiwrap.cpp:803-805 | the callbacks run are exactly the ones collected, whatever they register while they run, also by what has happened till then |
| `MessageData.EveryRunKeeps` | Telegram/SourceFiles/apiwrap.cpp:675-806 | in every reachable state each callback handed in waits in one entry or has run once |
| `MessageData.IdleHasCalledAll` | Telegram/SourceFiles/apiwrap.cpp:675-806 | once nothing is in flight or scheduled every callback has run as often as it was handed in |
| `MessageData.ApiMessageData.RequestMessageData` | Telegram/SourceFiles/apiwrap.cpp:675-688 | joins or makes the entry of the message and schedules resolving |
| `MessageData.ApiMessageData.CollectMessageIds` | Telegram/SourceFiles/apiwrap.cpp:690-701 | the loop collects the messages of a channel that have no request |
| `MessageData.ApiMessageData.ResolveMessageDatas` | Telegram/SourceFiles/apiwrap.cpp:720-774 | one request for each channel that needs one |
| `MessageData.ApiMessageData.FinalizeMessageDataRequest` | Telegram/SourceFiles/apiwrap.cpp:776-806 | erases the entries of the request, then runs their callbacks, which may register more |
| `FileReferences.RequestBalances` | Telegram/SourceFiles/apiwrap.cpp:2810-2897 | asking adds the handler, and the additional one where it is taken, to those that wait, and loses none |
| `FileReferences.RequestKeeps` | Telegram/SourceFiles/apiwrap.cpp:2810-2897 | asking keeps the keys the origins in flight, with one request each |
| `FileReferences.AdditionalWithNewSlot` | Telegram/SourceFiles/apiwrap.cpp:2887-2896 | after asking the slot is there, as the assertion says, and the additional handler is taken if and only if the request is a new one |
| `FileReferences.NewSlotKeeps` | Telegram/SourceFiles/apiwrap.cpp:2822-2827 | a new slot comes with one request of its own, so the keys stay the origins in flight |
| `FileReferences.TakenKeeps` | Telegram/SourceFiles/apiwrap.cpp:2844-2847 | taking a slot out with its request keeps the other keys |
| `FileReferences.TakenBalances` | Telegram/SourceFiles/apiwrap.cpp:2844-2847 | the handlers of the slot taken out are exactly those that stop waiting |
| `FileReferences.CalledKeeps` | Telegram/SourceFiles/apiwrap.cpp:2848-2850 | the handlers run are exactly those taken, also when they ask for the same origin again |
| `FileReferences.ReplyTells` | Telegram/SourceFiles/apiwrap.cpp:2844-2860 | a reply runs exactly the handlers that wait for its origin, in the order they came, each with the answer of the reply; asking runs none |
| `FileReferences.StepKeeps` | Telegram/SourceFiles/apiwrap.cpp:2810-2861 | both assertions hold, and the keys stay the origins in flight |
| `FileReferences.EveryRunKeeps` | Telegram/SourceFiles/apiwrap.cpp:2810-2861 | in every reachable state the keys are the origins in flight, one request each, and each handler waits once or has run once |
| `FileReferences.IdleHasCalledAll` | Telegram/SourceFiles/apiwrap.cpp:2810-2861 | once nothing is in flight every handler has run as often as it was handed in |
| `FileReferences.ApiFileReferences.RequestFileReference` | Telegram/SourceFiles/apiwrap.cpp:2810-2827 | the handler joins the slot of its origin, or a new slot and request are made |
| `FileReferences.ApiFileReferences.RefreshFileReference` | Telegram/SourceFiles/apiwrap.cpp:2880-2897 | then the additional handler joins a slot that holds one handler |
| `FileReferences.ApiFileReferences.OnReply` | Telegram/SourceFiles/apiwrap.cpp:2844-2860 | finds the slot, erases it and runs its handlers with the answer |
| `DraftSaves.SentKeeps` | Telegram/SourceFiles/apiwrap.cpp:2497-2504 | a new save cancels the request kept in the cloud draft and is the one tracked |
| `DraftSaves.SweepKeeps` | Telegram/SourceFiles/apiwrap.cpp:2623-2662 | a sweep over any entries keeps each id in the tables a save of its thread, and each newest save tracked |
| `DraftSaves.DoneKeeps` | Telegram/SourceFiles/apiwrap.cpp:2564-2587 | a save that is done takes its own entry only |
| `DraftSaves.FailKeeps` | Telegram/SourceFiles/apiwrap.cpp:2588-2607 | a failed save takes its own entry, or waits for its file reference |
| `DraftSaves.RetryCurrent` | Telegram/SourceFiles/apiwrap.cpp:2593-2603 | the retry keeps the newest save tracked if and only if it is not the retry of an older save whose thread's newest save is under way |
| `DraftSaves.EncryptedCurrent` | Telegram/SourceFiles/apiwrap.cpp:256-274 | switching encryption on keeps the newest saves tracked if and only if none of the peer's threads has a newest save that waits for its file reference |
| `DraftSaves.StepKeeps` | Telegram/SourceFiles/apiwrap.cpp:256-2671 | every step keeps: each id in the tables is a save of its thread in flight or waiting for its file reference; and it keeps the newest saves tracked if and only if it is neither such a retry nor such a switch to encryption |
| `DraftSaves.EveryRunKeeps` | Telegram/SourceFiles/apiwrap.cpp:256-2671 | in every reachable state each nonzero id tracked is a save of its thread in flight or waiting for its file reference; and each thread's newest save under way is tracked all along a run if and only if no step of it loses one in one of these two ways |
| `DraftSaves.ScheduledStays` | Telegram/SourceFiles/apiwrap.cpp:2165-2671 | a scheduled save is forgotten by a step other than a sweep or a new save of its thread if and only if that is the retry of an earlier save of the thread, or encryption is switched on for its peer |
| `DraftSaves.ScheduledUntilServed` | Telegram/SourceFiles/apiwrap.cpp:2165-2671 | until such a sweep or save, a scheduled save stays scheduled all along a run if and only if no step of it is one of these two |
| `DraftSaves.CompletionTakesItsOwn` | Telegram/SourceFiles/apiwrap.cpp:2538-2543 | a completion removes only an entry that still holds its own request, and announces the end when it was the last |
| `DraftSaves.SettledAllowsQuit` | Telegram/SourceFiles/apiwrap.cpp:2664-2671 | once all saves have settled after a sweep quitting is no longer prevented, in every run |
| `DraftSaves.NewestPreventsQuit` | Telegram/SourceFiles/apiwrap.cpp:2664-2671 | in every run from the start that loses no newest save, quitting is prevented while one is under way, also after the sweep that asking makes |
| `DraftSaves.SupersededRetryLosesNewest` | Telegram/SourceFiles/apiwrap.cpp:2507-2518 | a run from the start in which the retry of a superseded save takes the entry over and the newest save is no longer waited for |
| `DraftSaves.SupersededRetryDropsScheduled` | Telegram/SourceFiles/apiwrap.cpp:2507-2518 | a run from the start in which such a retry makes a scheduled save forgotten |
| `DraftSaves.EncryptionForgetsNewest` | Telegram/SourceFiles/apiwrap.cpp:256-274 | a run in which encryption is switched on while the newest save waits for its file reference: nothing prevents quitting, and then its retry goes out untracked |
| `DraftSaves.ApiDrafts.SaveDraftToCloudDelayed` | Telegram/SourceFiles/apiwrap.cpp:2165-2173 | schedules a thread that has no entry |
| `DraftSaves.ApiDrafts.SaveDraftToCloud` | Telegram/SourceFiles/apiwrap.cpp:2388-2405 | a refused draft changes nothing, a sent one is tracked |
| `DraftSaves.ApiDrafts.SavePreparedDraftToCloud` | Telegram/SourceFiles/apiwrap.cpp:2407-2621 | refuses before it cancels anything; else cancels, counts the save in the history, sends and notes the request |
| `DraftSaves.ApiDrafts.StartSavingCloudDraft` | Telegram/SourceFiles/history/history.cpp:468-473 | one more save of the thread is counted |
| `DraftSaves.ApiDrafts.FinishSavingCloudDraft` | Telegram/SourceFiles/history/history.cpp:475-485 | one save of the thread is counted no more, and no count of zero is left |
| `DraftSaves.ApiDrafts.SkipCloudDraftUpdate` | Telegram/SourceFiles/history/history.cpp:463-464 | what is heard about the cloud draft is ignored if and only if a save of the thread is counted |
| `DraftSaves.ApiDrafts.TrackRequestId` | Telegram/SourceFiles/apiwrap.cpp:2507-2518 | writes the new id over whatever the tables hold |
| `DraftSaves.ApiDrafts.FailCleanup` | Telegram/SourceFiles/apiwrap.cpp:2519-2547 | clears the request, and the draft where asked, and the entry, only if they are its own |
| `DraftSaves.ApiDrafts.OnDone` | Telegram/SourceFiles/apiwrap.cpp:2564-2587 | a success clears the id in the cloud draft and the entry, each only if it is its own |
| `DraftSaves.ApiDrafts.OnFail` | Telegram/SourceFiles/apiwrap.cpp:2588-2607 | a first failure for a file reference of a rich draft waits for the refresh; any other one cleans up |
| `DraftSaves.ApiDrafts.OnRefreshed` | Telegram/SourceFiles/apiwrap.cpp:2593-2603 | after the refresh the save goes out once more under a new id, which is then tracked, or is cleaned up |
| `DraftSaves.ApiDrafts.OnEncrypted` | Telegram/SourceFiles/apiwrap.cpp:261-273 | exactly the entries of the peer's threads go, the requests they hold are cancelled, and the end is announced if no entry is left |
| `DraftSaves.ApiDrafts.SweepEntry` | Telegram/SourceFiles/apiwrap.cpp:2624-2660 | an entry of a lost thread goes, one already sent stays, and a scheduled one is sent or dropped; which of these it is, and with what, is `DraftSweeps.SweepServes` |
| `DraftSaves.ApiDrafts.SaveDraftsToCloud` | Telegram/SourceFiles/apiwrap.cpp:2623-2662 | the loop sweeps every entry of the table, each once at least |
| `DraftSaves.ApiDrafts.IsQuitPrevent` | Telegram/SourceFiles/apiwrap.cpp:2664-2671 | an empty table lets the application quit; otherwise it sweeps and prevents quitting if an entry is left |
| `DraftSweeps.SweepServes` | Telegram/SourceFiles/apiwrap.cpp:2623-2662 | after a sweep over the table: a thread left it only if it is gone, skipped or refused; a save that was out is as it was; every other scheduled draft is under way as the newest save of its thread, with its contents, under a new id that its cloud draft keeps, and the request kept before is cancelled; nothing else is sent or cancelled |
| `DraftSweeps.SaveSends` | Telegram/SourceFiles/apiwrap.cpp:2388-2405 | a save that is not refused is under way at once as its thread's newest, in place of the one the cloud draft keeps; a delayed one is scheduled unless the thread has an entry or is skipped |
| `DraftSweeps.EveryRunOrigins` | Telegram/SourceFiles/apiwrap.cpp:2407-2621 | in every run exactly the saves made by a sweep may clear the cloud draft when they fail, and one that waits for its file reference has rich contents and was not sent again yet |
| `DraftSweeps.FailureRetriesOnce` | Telegram/SourceFiles/apiwrap.cpp:2588-2607 | a failed save waits if and only if it failed for a file reference, is rich and was not refreshed; after the refresh it goes out once more and never waits again |
| `DraftSweeps.CloudDraftGoes` | Telegram/SourceFiles/apiwrap.cpp:2519-2537 | a cloud draft goes if and only if it is told to be gone, or the save fails that was made by a sweep and whose id it keeps |
| `DraftSweeps.EveryRunKept` | Telegram/SourceFiles/apiwrap.cpp:2497-2587 | in every run without a switch to encryption, the id a cloud draft keeps is that of a save of its thread under way |
| `DraftSavings.StepBooks` | Telegram/SourceFiles/history/history.cpp:468-485 | every step keeps each save under way counted; it loses a save of a thread, so that the save stays counted although it is under way no more, if and only if it cancels one in flight |
| `DraftSavings.EveryRunBooks` | Telegram/SourceFiles/history/history.cpp:468-485 | so in every run each save under way is counted, and a save of the thread is lost if and only if some step cancelled one in flight |
| `DraftSavings.HearsAgain` | Telegram/SourceFiles/history/history.cpp:451-466 | in every run from the start: once no save of a thread is under way, its history hears about the cloud draft again if and only if none of its saves was ever cancelled in flight |
| `DraftSavings.IgnoresWhileSaving` | Telegram/SourceFiles/history/history.cpp:451-466 | while a save of a thread is under way its history ignores what it hears about the cloud draft |
| `DraftSavings.SecondSaveDeafens` | Telegram/SourceFiles/apiwrap.cpp:2497-2504 | a run in which a thread is saved again before the first reply: nothing is under way in the end, but the first save is still counted |
| `Albums.SentWhenComplete` | Telegram/SourceFiles/apiwrap.cpp:5768-5864 | looking at an album sends it if and only if it is complete with a message that exists and nothing prevents it; all its parts go, or those that exist |
| `Albums.DroppedWhenNothingRemains` | Telegram/SourceFiles/apiwrap.cpp:5772-5800 | it is dropped unsent if and only if no part remains, or it is complete but without a message or encrypted; then what is left is reported as failed |
| `Albums.ReadyKeeps` | Telegram/SourceFiles/apiwrap.cpp:5768-5890 | looking at an album keeps the invariant, and leaves every unsent album waiting for some part's media if all others were |
| `Albums.FillKeeps` | Telegram/SourceFiles/storage/localimageloader.cpp:404-413 | filling one part's media keeps the parts and the other albums |
| `Albums.RemoveKeeps` | Telegram/SourceFiles/storage/localimageloader.cpp:428-453 | removing one part, cancelled or failed to load, leaves exactly the others |
| `Albums.LoadFailedKeeps` | Telegram/SourceFiles/storage/localimageloader.cpp:1245-1257 | after a failed load every unsent album still waits for some part's media if and only if the part was not the last one without media |
| `Albums.CancelAsserts` | Telegram/SourceFiles/storage/localimageloader.cpp:428-432 | a message that exists is a part of its album as long as the album is there, so the part to remove is found |
| `Albums.StepKeeps` | Telegram/SourceFiles/apiwrap.cpp:4491-5890 | in every state reached the assertions hold, and every step keeps the invariant; it leaves every unsent album waiting for some part's media if and only if it is not such a failed load |
| `Albums.EveryRunKeeps` | Telegram/SourceFiles/apiwrap.cpp:4491-5890 | in every reachable state no album was sent twice and every one sent was complete; all along a run every unsent album waits for the media of a part still in it if and only if no failed load took the last part without media away |
| `Albums.StrandedStays` | Telegram/SourceFiles/storage/localimageloader.cpp:449-453 | an album that a failed load left complete or empty stays as it is in every step, unless that cancels one of its parts; then it is sent or dropped |
| `Albums.StrandedForGood` | Telegram/SourceFiles/storage/localimageloader.cpp:449-453 | so it stays, unsent, in every run that cancels none of its parts |
| `Albums.OrphanedForGood` | Telegram/SourceFiles/storage/localimageloader.cpp:1287-1298 | and if none of its parts has a message, as when it is empty, no run cancels one |
| `Albums.FailedLoadStrands` | Telegram/SourceFiles/storage/localimageloader.cpp:1245-1257 | a run of two files in which the first is uploaded and the second fails to load: the album is complete and is not sent |
| `Albums.UnpaidStays` | Telegram/SourceFiles/apiwrap.cpp:5729-5732 | an album whose paid request failed is in the table for good, marked as sent, with no request of its own in flight, in every run |
| `Albums.ApiAlbums.Collect` | Telegram/SourceFiles/apiwrap.cpp:5777-5791 | whether every part has media, and the first message that exists |
| `Albums.ApiAlbums.SendAlbumIfReady` | Telegram/SourceFiles/apiwrap.cpp:5768-5890 | an album is left alone, dropped, reported as failed, or handed over as ephemeral, paid, single or multiple, in the order of the tests; that the kind is right in every run is `AlbumDeals.EveryRunDeals` |
| `Albums.ApiAlbums.SendFiles` | Telegram/SourceFiles/apiwrap.cpp:4491-4497 | the album is entered with one part without media for each file |
| `Albums.ApiAlbums.OnLoadFailed` | Telegram/SourceFiles/storage/localimageloader.cpp:449-453 | the part is found and erased, and the album is not looked at |
| `Albums.ApiAlbums.OnLoaded` | Telegram/SourceFiles/api/api_sending.cpp:1229-1238 | the message of the part is made and its upload begins |
| `Albums.ApiAlbums.SendAlbumWithUploaded` | Telegram/SourceFiles/apiwrap.cpp:5735-5748 | fills the part of the message and looks at the album |
| `Albums.ApiAlbums.SendAlbumWithCancelled` | Telegram/SourceFiles/apiwrap.cpp:5750-5766 | removes the part, if the album is still there, and looks at it |
| `Albums.ReplyKeeps` | Telegram/SourceFiles/apiwrap.cpp:5879-5889 | the album of a reply is always there, so the branch for a missing one is never taken |
| `Albums.ApiAlbums.OnReply` | Telegram/SourceFiles/apiwrap.cpp:5716-5732 | a paid album goes with its messages on success and stays on failure; a multiple one goes, and its parts fail with it |
| `AlbumDeals.LookSends` | Telegram/SourceFiles/apiwrap.cpp:5777-5864 | the one sending that looking at a complete album makes is proper: of the kind that its price, its number of parts and the message it answers demand |
| `AlbumDeals.StepDeals` | Telegram/SourceFiles/apiwrap.cpp:4491-5890 | every step keeps: each album has the price it was made with, and its own parts in their order with the media uploaded for them |
| `AlbumDeals.EveryRunDeals` | Telegram/SourceFiles/apiwrap.cpp:4491-5890 | in every run all that was sent is proper: an album's own parts in order, each with its media, by an existing part's message; paid if and only if it was made with a price and does not answer an ephemeral message, single with one part and multiple with more |
| `AlbumDeals.ReplyReports` | Telegram/SourceFiles/apiwrap.cpp:5716-5732 | a success reports nothing and removes the album, a paid one also the messages of its parts; a paid failure reports the sample and leaves the album; any other reports all parts and removes it |
| `UpdatePlan.PathInjective` | Telegram/SourceFiles/_other/updater_linux.cpp:258 | a path has one reading as names from the top |
| `UpdatePlan.SkipIsTData` | Telegram/SourceFiles/_other/updater_linux.cpp:260 | the test on the path skips exactly the folder at the top |
| `UpdatePlan.SkipIsMarker` | Telegram/SourceFiles/_other/updater_linux.cpp:277 | the test on the path skips exactly the marker of the new layout |
| `UpdatePlan.SameBinary` | Telegram/SourceFiles/_other/updater_linux.cpp:272 | the comparison without case finds exactly the binary at the top |
| `UpdatePlan.TargetsCollide` | Telegram/SourceFiles/_other/updater_linux.cpp:267-276 | two files get the same target if and only if the renaming of the binary makes them collide |
| `UpdatePlan.CollidingUpdate` | Telegram/SourceFiles/_other/updater_linux.cpp:267-276 | an update with the binary and a file of the name it is to get: both are wanted, and both go to one place |
| `UpdatePlan.ScanEntry` | Telegram/SourceFiles/_other/updater_linux.cpp:258-287 | an entry is skipped if it is in the folder left out or cannot be examined, which cannot be on Windows, or else queued as a directory, refused as the updater, left out as the marker, or copied to its target, by what it is in the update |
| `UpdatePlan.ScanDir` | Telegram/SourceFiles/_other/updater_linux.cpp:254-288 | one directory gives exactly its directories and wanted files, each once, or finds the updater |
| `UpdatePlan.WalkStep` | Telegram/SourceFiles/_other/updater_linux.cpp:237-290 | reading one directory of the worklist keeps it complete, without repetitions and parents first |
| `UpdatePlan.Enumerate` | Telegram/SourceFiles/_other/updater_linux.cpp:232-290 | the worklist ends for every finite tree; a plan comes out if and only if everything can be read and there is no updater; it lists every wanted file once with its target, and every directory once after its parent |
| `UpdatePlan.SingleLevelSuffices` | Telegram/SourceFiles/_other/updater_win.cpp:233-246 | on a disk on which making a directory fails only for want of the one above it, making the directories of any plan in order, one level at a time as Windows does, succeeds, and then the directory of every file is there |
| `UpdatePlan.PrefixesAre` | Telegram/SourceFiles/_other/updater_linux.cpp:175-195 | the directories made for a path are its prefixes that end a name, shorter ones first |
| `UpdatePlan.MkPath` | Telegram/SourceFiles/_other/updater_linux.cpp:175-195 | makes them in order and stops at the first that cannot be made |
| `UpdatePlan.Updater.ForceDirs` | Telegram/SourceFiles/_other/updater_linux.cpp:292-300 | succeeds if and only if each directory can be made after those before it; what is made is all of them, on Linux with all above them, or those up to the first failure |
| `UpdatePlan.Updater.CopyFiles` | Telegram/SourceFiles/_other/updater_linux.cpp:302-341 | clears and copies in order and stops at the first failure |
| `UpdatePlan.Updater.Update` | Telegram/SourceFiles/_other/updater_linux.cpp:216-346 | nothing is made or copied unless the whole update was read and has no updater; it succeeds exactly if all of the plan is carried out |
| `Mesh.IntReadsBack` | Telegram/cmake/obj2binobj.py:61 | four bytes of a 32-bit integer read back as it |
| `Mesh.SectionIs` | Telegram/cmake/obj2binobj.py:61-66 | a count with its floats is read exactly where it is written |
| `Mesh.ReadsWhatIsWritten` | Telegram/cmake/obj2binobj.py:60-69 | a mesh is read from exactly the bytes that writing it gives, so every output is well formed and has one reading |
| `Mesh.FileIs` | Telegram/cmake/obj2binobj.py:60-69 | the bytes of a mesh each at its place: counts and indices in four bytes, the highest first, negative ones modulo 2^32, floats as they are, corners as position, uv and normal to the end of the file |
| `MeshText.IntegerReadsBack` | Telegram/cmake/obj2binobj.py:52-54 | an integer written in decimal reads back |
| `MeshText.VertexReadsBack` | Telegram/cmake/binobj2obj.py:77-80 | the three indices of a corner read back, also those that say that there is none |
| `MeshText.CornerForms` | Telegram/cmake/obj2binobj.py:47-55 | all the ways to write a corner: an index left out is -1, and what comes after the third one is not read |
| `MeshText.NumberForms` | Telegram/cmake/obj2binobj.py:52-54 | a number may have a sign, and single underscores between its digits |
| `MeshText.FloatsOfLine` | Telegram/cmake/obj2binobj.py:38-45 | of a line of floats the first two or three are read, more are ignored, and fewer are an error |
| `MeshText.FaceOfLine` | Telegram/cmake/obj2binobj.py:46-58 | a line of a face with any number of corners adds its fan |
| `MeshText.OtherLines` | Telegram/cmake/obj2binobj.py:34-37 | blank lines, comments and lines with other tags add nothing |
| `MeshText.LinesOfJoined` | Telegram/cmake/binobj2obj.py:58-80 | text written line by line is split into these lines |
| `MeshText.FloatLinesRead` | Telegram/cmake/binobj2obj.py:63-74 | the lines of floats give back the floats of their whole groups, or cannot be read |
| `MeshText.FaceLinesRead` | Telegram/cmake/binobj2obj.py:75-80 | the lines of faces give back the corners of the whole triangles |
| `MeshText.PrintedReads` | Telegram/cmake/binobj2obj.py:57-80 | reading the written text gives the floats of the whole groups as they come back from text, and the corners of the whole triangles |
| `MeshText.RoundTrip` | Telegram/cmake/binobj2obj.py:34-80 | converting a well-formed file to text and back gives the same bytes if and only if its counts are whole and its floats read back |
| `MeshText.EncodedIsWellFormed` | Telegram/cmake/obj2binobj.py:30-69 | every output of the encoder is read back as the mesh it wrote |
| `MeshText.FanIs` | Telegram/cmake/obj2binobj.py:56-58 | a face with k corners gives k - 2 triangles, all with its first corner |
| `MeshText.TriangulateFan` | Telegram/cmake/obj2binobj.py:57-58 | the loop appends exactly the triangles of the fan |
| `MeshText.ReadFace` | Telegram/cmake/obj2binobj.py:48-55 | the loop reads every vertex of a face, with -1 for an index left out, or fails |
| `MeshText.Obj2Binobj` | Telegram/cmake/obj2binobj.py:30-69 | the lines are read one by one by their tags, and the mesh is written if all could be read and everything fits 32 bits |
| `MeshText.BinobjReader.ReadInt` | Telegram/cmake/binobj2obj.py:34-38 | reads four bytes and moves on |
| `MeshText.BinobjReader.ReadFloats` | Telegram/cmake/binobj2obj.py:40-48 | reads a count and that many floats |
| `MeshText.BinobjReader.ReadCorners` | Telegram/cmake/binobj2obj.py:49-55 | reads the corners and accepts them only at the end of the data |
| `MeshText.WriteFloats` | Telegram/cmake/binobj2obj.py:63-74 | the loop writes one line for each whole group of floats |
| `MeshText.WriteFaces` | Telegram/cmake/binobj2obj.py:75-80 | the loop writes one line for each whole triangle |
| `MeshText.Binobj2Obj` | Telegram/cmake/binobj2obj.py:31-80 | the data is read by offset and written as text, or refused |
| `BlockedPeers.JoinedKeeps` | Telegram/SourceFiles/api/api_blocked_peers.cpp:172-180 | joining the request on its way adds the callback to its entry and changes no other entry |
| `BlockedPeers.SentKeeps` | Telegram/SourceFiles/api/api_blocked_peers.cpp:181-187 | a call opposite to the one on its way takes its entry away, tells its callbacks and sends its own request |
| `BlockedPeers.ReplyKeeps` | Telegram/SourceFiles/api/api_blocked_peers.cpp:87-108 | a reply takes the entry of its peer, whichever request that belongs to |
| `BlockedPeers.StepKeeps` | Telegram/SourceFiles/api/api_blocked_peers.cpp:75-224 | every step keeps: an entry is there only while its own request is in flight, callbacks are balanced, and the total of the slice covers its list |
| `BlockedPeers.EveryRunKeeps` | Telegram/SourceFiles/api/api_blocked_peers.cpp:75-224 | in every reachable state an entry has its own request in flight, each callback stored waits in one entry or has run once, and the slice's total is at least its length; with callbacks that call back see `BlockedNested.EveryNestedRunKeeps` |
| `BlockedPeers.SettledHasCalledAll` | Telegram/SourceFiles/api/api_blocked_peers.cpp:75-187 | once no request of a peer is in flight no callback of it waits; once none at all is, each has run as often as it was stored |
| `BlockedPeers.UnmixedUntilSuperseded` | Telegram/SourceFiles/api/api_blocked_peers.cpp:168-187 | requests and entries match until a call supersedes the opposite one, and that call always breaks the match |
| `BlockedPeers.OwnAnswer` | Telegram/SourceFiles/api/api_blocked_peers.cpp:87-108 | while they match, a reply answers the callbacks of its own request with its own outcome |
| `BlockedPeers.UnmixedRun` | Telegram/SourceFiles/api/api_blocked_peers.cpp:75-187 | all along a run requests and entries match if and only if no call of it supersedes the opposite one |
| `BlockedPeers.EveryCallerHearsItsOwn` | Telegram/SourceFiles/api/api_blocked_peers.cpp:75-187 | in every run in which no call supersedes the opposite one, each callback was told the outcome of its own request, and once nothing is in flight all have been told |
| `BlockedPeers.SupersededReplyMisreports` | Telegram/SourceFiles/api/api_blocked_peers.cpp:87-101 | a run in which a callback is told of failure although its request succeeds |
| `BlockedPeers.Blocked.BlockAlreadySent` | Telegram/SourceFiles/api/api_blocked_peers.cpp:168-187 | joins the same request, or takes the opposite one away |
| `BlockedPeers.Blocked.BlockPeer` | Telegram/SourceFiles/api/api_blocked_peers.cpp:75-114 | a blocked peer is left alone, the same call joins, and otherwise the request goes out and gets the entry |
| `BlockedPeers.Blocked.UnblockPeer` | Telegram/SourceFiles/api/api_blocked_peers.cpp:116-166 | a peer that is not blocked is left alone unless forced, and its callback is then neither stored nor run; the same call joins with its callback; otherwise the request goes out and gets the entry |
| `BlockedPeers.Blocked.OnReply` | Telegram/SourceFiles/api/api_blocked_peers.cpp:87-108 | a reply takes the entry, applies its success to the peer and the slice, and runs the callbacks |
| `BlockedPeers.Blocked.EraseItem` | Telegram/SourceFiles/api/api_blocked_peers.cpp:135-145 | erases the first item of the peer and lowers the total only above the length |
| `BlockedPeers.Blocked.RequestSlice` | Telegram/SourceFiles/api/api_blocked_peers.cpp:210-217 | one request for the list at a time |
| `BlockedPeers.Blocked.OnSlice` | Telegram/SourceFiles/api/api_blocked_peers.cpp:193-198 | a new slice is kept and announced if it differs |
| `BlockedEffects.BlockAsks` | Telegram/SourceFiles/api/api_blocked_peers.cpp:75-114 | blocking a peer that is not blocked puts that request on its way unless it is already, and asks for nothing else |
| `BlockedEffects.UnblockAsks` | Telegram/SourceFiles/api/api_blocked_peers.cpp:116-166 | so does unblocking one that is blocked, or any when forced, and then the callback is registered |
| `BlockedEffects.BlockedAsAnswered` | Telegram/SourceFiles/api/api_blocked_peers.cpp:87-134 | in every run each request is of the kind of the call that sent it, and a peer is blocked if and only if the last request for it that succeeded was to block it |
| `BlockedEffects.ListFollows` | Telegram/SourceFiles/api/api_blocked_peers.cpp:90-146 | unblocking takes the first item of the peer out, if there is one, and leaves the others in order, and the number beyond the list stays then and else goes down as long as there is any; blocking puts the peer in front |
| `BlockedEffects.ReplyChangesList` | Telegram/SourceFiles/api/api_blocked_peers.cpp:87-147 | a success changes the slice kept in that way and announces it; a failure does not |
| `BlockedEffects.ReloadedList` | Telegram/SourceFiles/api/api_blocked_peers.cpp:26-53 | a reloaded list is kept with the larger of the count and its length, and announced if it differs; nothing else changes it |
| `BlockedNested.MoveKeeps` | Telegram/SourceFiles/api/api_blocked_peers.cpp:75-187 | every call, reply and return keeps the invariant, also when callbacks, and those who hear of a peer or of the list, block and unblock while they run: each callback stored waits in one entry, is still to run in a handler or loop under way, or has run once |
| `BlockedNested.EveryNestedRunKeeps` | Telegram/SourceFiles/api/api_blocked_peers.cpp:75-187 | that holds in every reachable state, whatever they call |
| `BlockedNested.NestedSettled` | Telegram/SourceFiles/api/api_blocked_peers.cpp:75-187 | once nothing runs and nothing is in flight, each callback has run as often as it was stored |
| `BlockedNested.NestedCallersHearTheirOwn` | Telegram/SourceFiles/api/api_blocked_peers.cpp:75-187 | also then each callback was told the outcome of its own request, in every run in which no call supersedes the opposite one |
| `BlockedNested.AnswerIsReply` | Telegram/SourceFiles/api/api_blocked_peers.cpp:87-108 | when they call nothing, the small steps of a reply make up the one step of `BlockedPeers` |
| `BlockedNested.SupersedingIsSent` | Telegram/SourceFiles/api/api_blocked_peers.cpp:181-187 | and those of a call that supersedes the opposite one make up its one step |
| `BlockedNested.InnerKeepsEntry` | Telegram/SourceFiles/api/api_blocked_peers.cpp:110-113 | a run in which a callback's own call stores its entry before the call around it does: the outer request is in flight without an entry |
| `ReleaseWatch.TagNames` | ops/upstream-watch/upstream_watch.py:34-39 | a tag is accepted as a version exactly when it matches the pattern, and the version is its three numbers |
| `ReleaseWatch.TagsAreDecimal` | ops/upstream-watch/upstream_watch.py:34-39 | a version written in decimal, with a v or not, is read back; every tag names numbers below a million |
| `ReleaseWatch.LessIsNumeric` | ops/upstream-watch/upstream_watch.py:206-214 | versions are compared as the numbers they write, the first counting most |
| `ReleaseWatch.NotifiedExactly` | ops/upstream-watch/upstream_watch.py:252-262 | a run ends with a notification if and only if no other one holds the lock, the file is understood, every step outside succeeds, and the release exceeds the baseline and what was notified before |
| `ReleaseWatch.StepKeeps` | ops/upstream-watch/upstream_watch.py:206-262 | every step of overlapping runs keeps: only the holder of the lock runs, and what it knows still holds |
| `ReleaseWatch.EveryHistoryKeeps` | ops/upstream-watch/upstream_watch.py:206-262 | after every history of overlapping runs that may fail or be killed anywhere, the log is fresh, what is stored was sent just before, and the file remembers it |
| `ReleaseWatch.StoredOnce` | ops/upstream-watch/upstream_watch.py:206-262 | stored versions strictly increase and exceed their baseline, each was sent just before, and a version that was stored is never sent again |
| `ReleaseWatch.RefusedHasNoThreshold` | ops/upstream-watch/upstream_watch.py:206-214 | the state files that are refused, unreadable ones and those whose tag is no version, are exactly those for which a run finds no threshold |
| `ReleaseWatch.BrokenStays` | ops/upstream-watch/upstream_watch.py:208-214 | a state file that is refused is never overwritten, and while it is there nothing is sent |
| `ReleaseWatch.Watcher.LockState` | ops/upstream-watch/upstream_watch.py:239-249 | a run goes on only if no other one holds the lock |
| `ReleaseWatch.Watcher.ReadThreshold` | ops/upstream-watch/upstream_watch.py:206-214 | the newer of the baseline and the version remembered, or a failure |
| `ReleaseWatch.Watcher.FetchRelease` | ops/upstream-watch/upstream_watch.py:253-256 | goes on only with a version above the threshold |
| `ReleaseWatch.Watcher.SendNotification` | ops/upstream-watch/upstream_watch.py:258-259 | goes on only when the delivery was acknowledged |
| `ReleaseWatch.Watcher.SaveState` | ops/upstream-watch/upstream_watch.py:217-236 | the file has the old content or the complete new one |
| `ReleaseWatch.Watcher.Check` | ops/upstream-watch/upstream_watch.py:252-262 | one call is one of the histories, with the status it reports |
| `ReleaseWatch.Watcher.DryRun` | ops/upstream-watch/upstream_watch.py:252-262 | a dry run reports whether there is a newer version, or a failure, and changes nothing |

## Left out

- PackerSha1.HashSha1: requires a length below 2^32 - 64, because a method has to end: above it the source's loop does not, which `PackerSha1.LoopEnds` proves.
- PackerSha1.HashWholeBlocks: the same, for the same reason.
- ButtonRipple.RippleChannels: computes with real numbers; the rounding of doubles before the final rounding is not modelled.
- ButtonRipple.ButtonRippleForBackground: the same, so the byte printed at a tie of the final rounding may be the other one.
- ForwardMessages.Forwarding.ForwardMessages: begins where the ranges have been collected; the checks before that, the local messages and the reading of the inbox are not modelled, and replies arrive after the call has returned.
- DialogsLoad.ApiDialogs.OnListDone: applying the dialogs to the session, contacts and shortcuts are not modelled; what they decide comes in as a parameter.
- MessageData.ApiMessageData.RequestMessageData: keeps the table for messages outside channels and the tables of the channels as one list, ordered within each channel; the order of the channels among each other is not modelled.
- FileReferences.ApiFileReferences.RefreshFileReference: which request belongs to an origin, and the origins refused at once, are not modelled.
- StickerSave.ApiStickers.SaveStickerSets: writing to local storage and reloading after a failed reorder are not modelled; the removal of a set from the order list in the first pass is not either, since the list is cleared before it is read again.
- DraftSaves.ApiDrafts.SavePreparedDraftToCloud: the callbacks of a save and the contents of drafts are not modelled; that a file reference was refreshed comes in as a step of its own.
- DraftSaves.ApiDrafts.SkipCloudDraftUpdate: the open compose box and the time for which a history goes on ignoring its cloud draft after a save are not modelled.
- DraftSaves.ApiDrafts.OnEncrypted: which threads belong to the peer comes in as a parameter.
- Albums.ApiAlbums.SendAlbumIfReady: the stars paid, the captions, and what handing over a single medium does with it are not modelled.
- Albums.ApiAlbums.SendFiles: an album of files that are loaded one by one; albums of music, which are prepared together, those of files prepared before, and the limits of welcome messages, which leave a loaded file without a message, are not modelled.
- Albums.ApiAlbums.SendAlbumWithCancelled: moving the caption of the first part to the next one is not modelled.
- UpdatePlan.Enumerate: letters are lowered as in ASCII; the tree is finite and without links that lead back into it.
- UpdatePlan.Updater.Update: whether a directory can be made, a target cleared and a file copied within the tries or prompts allowed comes in as a parameter; permissions, the version file and the registry are not modelled.
- MeshText.RoundTrip: a float is its four bytes, and writing and reading its text are parameters, as are the comment lines written first; spaces and digits outside ASCII and Python's limit on the digits of a number are not modelled.
- BlockedPeers.Blocked.BlockPeer: the loops of the methods run callbacks that call nothing; callbacks and listeners that block and unblock are modelled as small steps on values in `BlockedNested`, not in the class.
- ReleaseWatch.Watcher.Check: reading the configuration, the request for the release, the token and the delivery come in as parameters; the messages of errors are not modelled.
- UpdateEnvelope.ParseEnvelope: keys, manifests, signatures and compression are byte strings; checking them is not modelled.
- WebPages.WebPagesPending.RequestWebPageDelayed: the milliseconds left are not cut to 32 bits; the remaining time of the timer is the time until it fires, or 0, since the timer's own code is not part of this model.
- WebPages.WebPagesPending.GotWebPages: begins where the changes of the reply have been applied; each of them is a call of `ApplyPendingTill`.
- Requests to the server: only fresh positive ids and the events of their replies and failures are modelled; a cancelled request has neither.
- Logging, user interface, process launch and crash reports are not modelled: they hold no state that these protocols depend on.
