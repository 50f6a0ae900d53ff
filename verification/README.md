# TeleForge protocols and codecs, verified

This project models the small, self-contained protocols inside the desktop client and its Rust agent, and proves
what they are relied on for. Every module has the same shape. The code's own branches are written down once, as
functions on values (a state and what each handler makes of it, or an input and its output). Where the source is
imperative, a class or a method does the same work step by step, with the source's fields and loops, and its
`ensures` ties the new state to those functions. The lemmas then say what the code is for: over every input, or over
every run in which the events come in any order. Nothing here was executed.

| file | models |
|---|---|
| `DraftSaver.dfy` | the delayed cloud-draft saver of `apiwrap.cpp` |
| `MessageData.dfy`, `MessageOrder.dfy`, `FileReferences.dfy` | its two callback coalescers |
| `WebPages.dfy` | its web-page resolver with temporary request ids |
| `Forwarding.dfy` | its forward batcher with the paid-stars budget, and the grouping in front of it |
| `Albums.dfy`, `AlbumRuns.dfy` | its album sender |
| `SealedBox.dfy`, `Keystore.dfy`, `Vault.dfy` | envelope key management of the agent, over symbolic cryptography |
| `TokenBucket.dfy`, `ReplayWindow.dfy` | admission control of the agent |
| `Manifest.dfy`, `ManifestReader.dfy`, `ManifestSpaces.dfy`, `ManifestNewlines.dfy`, `StableSort.dfy` | the signed bytes of an update manifest |
| `MeshBytes.dfy`, `MeshLayout.dfy`, `MeshText.dfy`, `MeshParse.dfy`, `MeshTools.dfy`, `MeshRoundTrip.dfy` | the `.binobj` and `.obj` converters |
| `Utf8.dfy` | the UTF-8 decoder and word mapper of the dictionary tool |
| `ConnString.dfy`, `Redaction.dfy` | the connection-string rewriter and the log scrubber |
| `ShellQueue.dfy` | the event queue of the web-view shell |
| `Text.dfy`, `Tally.dfy` | splitting, joining, trimming, decimal numbers and `Option`; how often something occurs |
| `MapOrder.dfy`, `Since.dfy`, `Octets.dfy` | the order a loop walks a map in; what is on since a step turned it on; bytes |

Conventions. A loop over a map takes the map's own order as a parameter and requires that it names every key once, or
picks the next key freely, so the results hold for every order. A request under way is an entry of a history map; an
answer may come for any of them at any time. `IsRun` says that a list of states is a run of a list of events from the
start. `OnSince` says that one step of a run turned something on and none after it turned it off. Errors and exceptions are
values (`Option`, `Result`).

Where the code and what is said about it part ways, the code is modelled:

- `change_passphrase` (`tfr/src/vault.rs:342-356`) assigns the new wrapping and verifier before it refuses a tenant with
  a recovery code. The comment there says a change does not silently invalidate anything; on the meta in memory the
  refused change leaves no passphrase that opens it. `Vault.WithRecovery` states exactly what is left.
- The replay window (`tfr/src/auth.rs:600-627`) forgets by order of arrival. A counter can be accepted twice when counters
  arrive out of order: `ReplayWindow.OutOfOrderAcceptsTwice` is a run in which it is, `ReplayWindow.ReplayedIff` says
  exactly when.
- The redaction search (`tfr/src/logging.rs:107-130`) skips whole keys, so a key that overlaps itself can be missed:
  `Redaction.SearchCompleteIff` says for which keys, `Redaction.ListedKeys` that "kek" is the only listed one.
- The listed keys are said to be scrubbed regardless of quoting style (`tfr/src/logging.rs:50-53`). The first of the list that
  is reported decides where a token is cut, and a value that another key marks in front of it is kept:
  `Redaction.MarkedValueSurvivesIff` says exactly when, `Redaction.EarlierValueSurvives` is such a token. A value behind a
  blank is a token of its own and passes: `Redaction.ValueBehindBlankSurvives`.
- The mesh converters call the round trip byte-identical (`Telegram/cmake/binobj2obj.py:3-20`). It is exactly when the
  counts divide: `MeshRoundTrip.RoundTripIsByteIdentical`.
- The rewritten connection string rewrites to itself exactly when the new host reads back as one token:
  `ConnString.IdempotentIff`.
- The comment on the rewriter (`tfr/src/tunnel.rs:353-358`) says a password is rejected rather than passed through. The code
  redacts the token that starts with the key. In the keyword/value form blanks may stand beside the equal sign and a quoted
  value may hold them, and then the value, or the rest of it, is passed on: `ConnString.PasswordsThatLeak` gives two such
  strings, `ConnString.SettingTokens` says where a value lies, `ConnString.SurvivesIff` which tokens are passed on as they
  are, and `ConnString.NothingCarriedIff` and `ConnString.PasswordLeaksIff` exactly when a value is all redacted.
- The requests for web pages have no fail handler (`Telegram/SourceFiles/apiwrap.cpp:2808-2827`). When one ends with an error
  that the library does not handle itself, the request is forgotten (`Telegram/SourceFiles/mtproto/sender.h:77-101`) and its
  pages keep its id, which counts as asked for, so they are never asked for again until they are cleared or told settled:
  `WebPages.FailureStrands` is a run that ends so, `WebPages.StuckIff` says exactly which pages are stuck, and
  `WebPages.StuckStays` that they stay so.
- Only an upload or a cancellation looks whether its album can go (`Telegram/SourceFiles/apiwrap.cpp:5690-5720`). A file that
  cannot be prepared, being empty or too large, leaves the album without that look
  (`Telegram/SourceFiles/storage/localimageloader.cpp:1254-1313`). When it was the last one outstanding, the album stays where
  it is, unsent, with all it needs: `AlbumRuns.AlbumIsLeftBehind` is a run that ends so, `AlbumRuns.BehindIff` says exactly
  which albums stay, and `AlbumRuns.HandedUnlessStranded` that all others are handed over.
- The caption of a cancelled first item moves to the next one only when that is a message already
  (`Telegram/SourceFiles/storage/localimageloader.cpp:433-452`), and is lost otherwise: `AlbumRuns.CaptionIsLost` is a run in
  which it is, `AlbumRuns.GatheredStep` says what becomes of it at every step.
- The signed bytes of a manifest are said to be canonical. Free of newlines, they determine what was printed exactly when at
  most one text per kind of row may hold spaces: `ManifestSpaces.SpacesAllowedIff`. One text that may hold spaces and
  newlines is too many: `ManifestNewlines.NewlinesAllowedIff`. The shape checks (`tfr/src/updater.rs:281-321`) leave triple
  and libc of an artifact, and every text of a delta, unchecked.

## Model

| member | source | states |
|---|---|---|
| `DraftSaver.Saver.SaveDraftToCloudDelayed` | Telegram/SourceFiles/apiwrap.cpp:2187-2200 | an edit queues its thread, or marks it changed when a save is in flight, and the timer is armed afterwards |
| `DraftSaver.Saver.SavePreparedDraftToCloud` | Telegram/SourceFiles/apiwrap.cpp:2434-2652 | a draft goes out under a fresh id; the request kept in a cloud draft that is being saved again is cancelled first, a fresh cloud draft forgets it |
| `DraftSaver.Saver.SaveDraftsToCloud` | Telegram/SourceFiles/apiwrap.cpp:2654-2697 | one tick, in whatever order the map has: dead threads are dropped, threads with a save in flight are left alone, the rest are sent |
| `DraftSaver.Saver.Answer` | Telegram/SourceFiles/apiwrap.cpp:2545-2633 | a done or fail answer ends the save it belongs to, and queues the thread again when it was changed meanwhile |
| `DraftSaver.StepKeeps` | Telegram/SourceFiles/apiwrap.cpp:2187-2697 | every event keeps the whole invariant: ids in flight and ids kept per thread match, and no edit is lost |
| `DraftSaver.AtMostOneSave` | Telegram/SourceFiles/apiwrap.cpp:2654-2697 | in every run no live thread has two saves in flight |
| `DraftSaver.NoEditIsLost` | Telegram/SourceFiles/apiwrap.cpp:2538-2697 | in every run the latest edit of a live thread was sent, or is queued with the timer armed, or is marked changed behind the save that is in flight for that very thread |
| `DraftSaver.EmptyMeansSent` | Telegram/SourceFiles/apiwrap.cpp:2654-2697 | with nothing left to save, every latest edit of a live thread was sent |
| `DraftSaver.TicksCancelNothing` | Telegram/SourceFiles/apiwrap.cpp:2515-2697 | in every run a tick cancels nothing: each save in flight before it is in flight after it, for the same thread |
| `DraftSaver.OneTickDrains` | Telegram/SourceFiles/apiwrap.cpp:2654-2697 | when nothing is in flight, a single tick sends every edit that is still unsent |
| `DraftSaver.SendsWithinEdits` | Telegram/SourceFiles/apiwrap.cpp:2187-2697 | between any two points of any run a thread is sent at most as often as it was edited, and once more if it waited at the first: nothing is saved for no reason, and without edits every run becomes quiet |
| `DraftSaver.WaitsForAnEdit` | Telegram/SourceFiles/apiwrap.cpp:2187-2697 | in every run a thread waits for a save only when it was edited after the send before, if there was one |
| `DraftSaver.LocalIsLastEdit` | Telegram/SourceFiles/apiwrap.cpp:2187-2200 | in every run the draft of a live thread is that of its latest edit |
| `DraftSaver.TickDropsDead` | Telegram/SourceFiles/apiwrap.cpp:2654-2697 | in every run a tick leaves no entry of a thread that is gone |
| `DraftSaver.AnswerEndsRequest` | Telegram/SourceFiles/apiwrap.cpp:2538-2633 | in every run the answer to a save of a live thread is that of the request its cloud draft keeps; the cloud draft forgets it, and goes itself when the save failed |
| `DraftSaver.SendCancelsKept` | Telegram/SourceFiles/apiwrap.cpp:2515-2523 | a send takes out of flight exactly the request its cloud draft keeps, unless the local draft is a null one |
| `MessageData.Coalescer.RequestMessageData` | Telegram/SourceFiles/apiwrap.cpp:661-674 | registers a callback for a message of a channel or of the common table; the delayed call is queued when the message has no request yet |
| `MessageData.Coalescer.ResolveMessageDatas` | Telegram/SourceFiles/apiwrap.cpp:706-760 | one request for the untagged ids of every table, the common one first, which tags exactly those; empty channel tables go |
| `MessageData.Coalescer.FinalizeMessageDataRequest` | Telegram/SourceFiles/apiwrap.cpp:762-792 | takes out the entries tagged with the request, drops an emptied channel table, then runs their callbacks in table order, which may register more |
| `MessageData.ResolveKeeps` | Telegram/SourceFiles/apiwrap.cpp:706-760 | a resolve, in any map order, keeps the invariant: entries and requests point at each other, untagged entries imply a queued call, no callback is lost or in two places |
| `MessageData.FinalizeKeeps` | Telegram/SourceFiles/apiwrap.cpp:762-792 | an answer with all the registrations its callbacks make keeps the same invariant |
| `MessageData.TaggedAreCarried` | Telegram/SourceFiles/apiwrap.cpp:676-760 | at every point of every run the entries tagged with a request are exactly the ids it carried, and no message of a channel is in two requests under way |
| `MessageData.RunsOnce` | Telegram/SourceFiles/apiwrap.cpp:661-792 | at every point of every run each callback ever registered has either run exactly once and waits nowhere, or has not run and waits in exactly one place |
| `MessageData.QuietMeansServed` | Telegram/SourceFiles/apiwrap.cpp:661-792 | with no call queued and no request under way every callback ever registered has run exactly once |
| `MessageData.ResolveServesAll` | Telegram/SourceFiles/apiwrap.cpp:706-760 | after a resolve every waiting callback has a request under way that carries its message |
| `MessageData.AnswerRunsItsOwn` | Telegram/SourceFiles/apiwrap.cpp:762-792 | of the callbacks that wait, an answer runs exactly those whose message its request carried |
| `MessageData.AnswerRunsNothingElse` | Telegram/SourceFiles/apiwrap.cpp:762-792 | and an answer runs no other callback, in particular none that its own callbacks register |
| `MessageOrder.ArmedIff` | Telegram/SourceFiles/apiwrap.cpp:661-674 | at every point of every run the delayed call is queued exactly while something waits that no request was sent for |
| `MessageOrder.TablesHoldSomething` | Telegram/SourceFiles/apiwrap.cpp:727-733 | at every point of every run no channel has an empty table |
| `MessageOrder.ResolveDropsEmpty` | Telegram/SourceFiles/apiwrap.cpp:727-733 | whatever tables it finds, a resolve leaves no empty table of a channel it walks |
| `MessageOrder.AskedWaitsThere` | Telegram/SourceFiles/apiwrap.cpp:661-674 | in every run a callback waits at the end of the entry of its own message and channel |
| `MessageOrder.WaitsOrRuns` | Telegram/SourceFiles/apiwrap.cpp:661-792 | in every run it stays at that place until it is run |
| `MessageOrder.AnswerRunsInOrder` | Telegram/SourceFiles/apiwrap.cpp:762-792 | in every run an answer runs callbacks message by message in table order, and those of one message in the order they were registered |
| `MessageOrder.CommonFirst` | Telegram/SourceFiles/apiwrap.cpp:706-760 | in every run a resolve gives the first new id to the request of the common table, if that holds a message not asked for, and no other request is for it |
| `FileReferences.Coalescer.RequestFileReference` | Telegram/SourceFiles/apiwrap.cpp:2845-2858 | joins the batch of the origin, or opens one and sends the one request for it |
| `FileReferences.Coalescer.RefreshFileReference` | Telegram/SourceFiles/apiwrap.cpp:2909-2931 | a caller joins; its extra step is kept exactly when the batch then holds one handler; the lookup behind it cannot fail |
| `FileReferences.Coalescer.FinishFileReference` | Telegram/SourceFiles/apiwrap.cpp:2860-2896 | a done or fail answer finds its batch, erases it and runs it in order, with re-entrant requests |
| `FileReferences.AnswersFindTheirBatch` | Telegram/SourceFiles/apiwrap.cpp:2880-2890 | in every run an answer finds the batch it looks for, so neither assertion can fire |
| `FileReferences.OneRequestPerOrigin` | Telegram/SourceFiles/apiwrap.cpp:2845-2858 | an origin has a batch exactly when one request, and only one, is under way for it |
| `FileReferences.AskedJoins` | Telegram/SourceFiles/apiwrap.cpp:2845-2858 | in every run a caller joins the batch of its own origin at the end; only one who finds none causes a request, and it is for that origin; other batches stay as they are |
| `FileReferences.RunsOnce` | Telegram/SourceFiles/apiwrap.cpp:2845-2896 | at every point of every run each handler handed over has run exactly once and waits nowhere, or has not run and waits in exactly one batch |
| `FileReferences.QuietMeansServed` | Telegram/SourceFiles/apiwrap.cpp:2845-2896 | with no request under way everyone who ever asked has been run exactly once |
| `FileReferences.BatchRunsTogether` | Telegram/SourceFiles/apiwrap.cpp:2880-2896 | an answer runs the whole batch in order, each handler with that answer, nothing else; the batch starts with the caller who caused the request and holds one extra step if that caller brought one, none otherwise |
| `WebPages.Resolver.ResolveWebPages` | Telegram/SourceFiles/apiwrap.cpp:2767-2843 | every page that is due, unasked and shown by some message ends up with the new request of its own chat; every other page keeps its value; each chat with something to ask gets one fresh request with exactly its messages in map order; the delay is the time to the next page, at most a day |
| `WebPages.Resolver.MarkPages` | Telegram/SourceFiles/apiwrap.cpp:2775-2804 | the first loop: temporary ids on the wanted pages, and slot numbers that are a bijection between channels and 0..n-1 |
| `WebPages.Resolver.SendRequests` | Telegram/SourceFiles/apiwrap.cpp:2806-2827 | one request per chat, in any map order, filed in the table under the channel slot |
| `WebPages.Resolver.DecodeTags` | Telegram/SourceFiles/apiwrap.cpp:2828-2839 | the last loop turns each temporary id into the request of the same chat |
| `WebPages.Resolver.GotWebPages` | Telegram/SourceFiles/apiwrap.cpp:3121-3139 | what the answer says of pages is applied first, report by report; then the pages that hold its id are erased, and those still waiting are marked failed |
| `WebPages.Resolver.ApplyChanges` | Telegram/SourceFiles/data/data_web_page.cpp:398-446 | the pages of an answer are told one after the other |
| `WebPages.Resolver.ProcessWebpage` | Telegram/SourceFiles/data/data_session.cpp:4356-4773 | a page there is none of fails if it waits; a page that did not wait and is told to is asked for |
| `WebPages.Resolver.ApplyFields` | Telegram/SourceFiles/data/data_web_page.cpp:271-388 | a page with an address that is settled or failed takes no new time; a page that waits no longer is taken out of the map |
| `WebPages.ReportsSay` | Telegram/SourceFiles/data/data_web_page.cpp:271-446 | what any list of reports leaves of a page, told from the reports and what was known before: in the map exactly when it was there and no report settled it, or one put it down and none settled it after that; the time it waits, whether it has an address and whether it failed are those of a fold over the reports alone |
| `WebPages.OneReport` | Telegram/SourceFiles/data/data_web_page.cpp:350-388 | a settled report ends the wait of any page and takes a waiting one out of the map; a positive time for a page that did not wait puts it down with that time unless it has an address or failed, when it changes nothing; a page there is none of fails exactly when it waited |
| `WebPages.Resolver.RequestFails` | Telegram/SourceFiles/mtproto/sender.h:77-101 | an error answer removes the request and, as there is no handler, nothing else |
| `WebPages.Resolver.RequestWebPageDelayed` | Telegram/SourceFiles/apiwrap.cpp:2744-2753 | a page that is still pending and has not failed waits to be asked for; one that waits already keeps its value |
| `WebPages.AskedOnlyWaiting` | Telegram/SourceFiles/apiwrap.cpp:2744-2753 | a page gets into the map exactly when it waits and has not failed, as not asked for; no page loses what it holds |
| `WebPages.Resolver.ClearWebPageRequest` | Telegram/SourceFiles/apiwrap.cpp:2755-2760 | forgets one page |
| `WebPages.SlotsStep` | Telegram/SourceFiles/apiwrap.cpp:2782-2796 | a new channel takes the next slot: the numbering stays a bijection, and temporary ids given before do not change |
| `WebPages.DecodesItsOwn` | Telegram/SourceFiles/apiwrap.cpp:2828-2839 | the temporary id of a chat is negative, stays inside the table and decodes to the request of that chat |
| `WebPages.TaggedByItsOwn` | Telegram/SourceFiles/apiwrap.cpp:2767-2839 | a newly tagged page holds an id that is new, of a request to its own channel that carries its message |
| `WebPages.DueIsAsked` | Telegram/SourceFiles/apiwrap.cpp:2775-2839 | in every run a resolve asks for a page of the map exactly when it was not asked for, its time is not after now and some message shows it, by a new request to the chat of that message; otherwise it keeps its value |
| `WebPages.WakesInTime` | Telegram/SourceFiles/apiwrap.cpp:2798-2842 | the timer is set exactly when a page waits for a later time, for the shortest such wait in milliseconds, at most 86400 seconds |
| `WebPages.CarriesOnlyItsOwn` | Telegram/SourceFiles/apiwrap.cpp:2775-2827 | a request carries only messages of its own chat, each for a page that now holds its id |
| `WebPages.RunKeeps` | Telegram/SourceFiles/apiwrap.cpp:2767-2843 | after every step of every run, errors included, no pending page holds a negative id, and the id a page holds is that of a request sent for it which is under way or has failed |
| `WebPages.FreeUnlessFailed` | Telegram/SourceFiles/apiwrap.cpp:2767-2843 | with no request under way a pending page is free to be asked for again exactly when it was not left behind by a failed request that it held |
| `WebPages.StuckIff` | Telegram/SourceFiles/apiwrap.cpp:2744-2843 | in every run a page holds the id of a request that is not under way exactly when some step failed the request it held and it was neither cleared nor told settled since |
| `WebPages.StuckStays` | Telegram/SourceFiles/apiwrap.cpp:2744-2843 | and then it keeps that id whatever is asked for, resolved, told or answered, until it is cleared or told settled |
| `WebPages.FailureStrands` | Telegram/SourceFiles/apiwrap.cpp:2806-2827 | a run that leaves a page behind: its request fails, it is told to wait anew and due again, and nothing is sent |
| `WebPages.AnswerRemovesItsOwn` | Telegram/SourceFiles/apiwrap.cpp:3121-3139 | in every run an answer removes exactly the pages that hold its request, all of them sent for by it, and those it settles, unless it puts them down again; afterwards each page has the time, address and failure the reports say, except that its own pages still waiting after them wait no more and have failed; all others keep their value |
| `Forwarding.CollectForwardRanges` | Telegram/SourceFiles/history/history_item_helpers.cpp:679-699 | the ranges concatenate to the items that can be sent, in order; each has one ephemeral flag and neighbours differ in it |
| `Forwarding.SendableFilters` | Telegram/SourceFiles/history/history_item_helpers.cpp:679-699 | which items can be sent is decided item by item: all but ephemeral ones that are not found by lookup |
| `Forwarding.Forwarder.SendAccumulated` | Telegram/SourceFiles/apiwrap.cpp:4090-4197 | sends what is piled up, if anything, under its peer and flag, pays for it as far as the stars go and empties the pile |
| `Forwarding.Forwarder.ForwardMessages` | Telegram/SourceFiles/apiwrap.cpp:4085-4247 | the batches sent are planned one by one from a split of the sendable items into maximal stretches of one peer and one flag: own peer, own flag, the ids and random ids of the stretch, the stars that are its share; what is left of the budget is what the plan leaves; at every position the id sent is the item's own, or, for an ephemeral item, the looked-up one, which is not 0 |
| `Forwarding.SplitIsUnique` | Telegram/SourceFiles/apiwrap.cpp:4201-4246 | there is exactly one such split of any list, so it is the split |
| `Forwarding.ItemsAreConserved` | Telegram/SourceFiles/apiwrap.cpp:4085-4247 | the batches concatenate to all items in order, none lost or repeated: at every position the item's own id when it is ordinary and the looked-up id, not 0, when it is ephemeral, next to the random id drawn for it |
| `Forwarding.StarsAreConserved` | Telegram/SourceFiles/apiwrap.cpp:4099-4111 | stars paid plus stars left are the stars approved, the rest is never negative, and the total paid is the price of all items capped by what was approved |
| `Forwarding.CallbackRunsOnce` | Telegram/SourceFiles/apiwrap.cpp:4094-4164 | the shared callback runs once when every batch is done, never before and never after a failure |
| `Albums.Sender.BeginAlbum` | Telegram/SourceFiles/apiwrap.cpp:4504-4511 | a new album has an item for every file, none a message yet |
| `Albums.Sender.AddLocalMessage` | Telegram/SourceFiles/api/api_sending.cpp:1182-1283 | a prepared file finds its item, which becomes a message with the trimmed caption |
| `Albums.Sender.RemoveTask` | Telegram/SourceFiles/storage/localimageloader.cpp:454-458 | a file that cannot be prepared finds its item, which is erased; no caption moves and nothing is checked |
| `Albums.Sender.SendAlbumWithUploaded` | Telegram/SourceFiles/apiwrap.cpp:5690-5702 | an upload of a message neither gone nor uploaded finds its album and its empty item, fills it with the trimmed caption of the message, and the album goes out if that was the last |
| `Albums.Sender.SendAlbumWithCancelled` | Telegram/SourceFiles/apiwrap.cpp:5704-5720 | a cancellation of a message that is not gone finds the item in an album that is still there and removes it, and the album goes out if nothing else was outstanding; an album that is gone is left alone |
| `Albums.Sender.SendAlbumIfReady` | Telegram/SourceFiles/apiwrap.cpp:5722-5844 | an empty album is dropped, one with an item outstanding waits, one item goes out alone, more go out together |
| `Albums.Sender.RemoveItem` | Telegram/SourceFiles/storage/localimageloader.cpp:433-452 | the item is erased; the caption of a removed first item moves behind that of the next, trimmed in its media too, if the next is a message |
| `Albums.Sender.FindAlbumItem` | Telegram/SourceFiles/storage/localimageloader.cpp:139-149 | the place of the first item of a message, or of a file by its own number |
| `Albums.StepKeeps` | Telegram/SourceFiles/apiwrap.cpp:5690-5844 | every event keeps all albums in step with what was prepared, uploaded and is gone; an upload or a cancellation hands over at most the planned list and leaves no unsent album with nothing outstanding |
| `AlbumRuns.AssertionsNeverFail` | Telegram/SourceFiles/apiwrap.cpp:5696-5700 | in every run, with events told only by what happened before, the assertions on album, item and media hold at every event, those of preparing included |
| `AlbumRuns.HandedAtMostOnce` | Telegram/SourceFiles/apiwrap.cpp:5722-5844 | in every run no album is handed over twice |
| `AlbumRuns.HandedExactlyWhenReady` | Telegram/SourceFiles/apiwrap.cpp:5690-5744 | an album is handed over exactly at the step whose upload or cancellation leaves nothing outstanding, and no other step hands anything over; one item goes out as a single media |
| `AlbumRuns.BehindIff` | Telegram/SourceFiles/storage/localimageloader.cpp:1254-1313 | in every run an album is there, unsent and with nothing outstanding, exactly when its last outstanding file could not be prepared and none of its messages was cancelled since |
| `AlbumRuns.HandedUnlessStranded` | Telegram/SourceFiles/apiwrap.cpp:5722-5744 | an album with something left and nothing outstanding was handed over exactly when it was not left behind in that way |
| `AlbumRuns.AlbumIsLeftBehind` | Telegram/SourceFiles/storage/localimageloader.cpp:1302-1313 | a run: one file is uploaded, the other cannot be prepared, and the album stays with every item filled and is not handed over |
| `AlbumRuns.GatheredStep` | Telegram/SourceFiles/storage/localimageloader.cpp:433-458 | at every step of every run the first item keeps the captions it has gathered, and another that comes first takes them over exactly when the one before was cancelled and it is a message by then |
| `AlbumRuns.CaptionIsLost` | Telegram/SourceFiles/storage/localimageloader.cpp:433-452 | a run in which the caption of a cancelled message does not go out, because the next file was not prepared yet |
| `AlbumRuns.HandedListIs` | Telegram/SourceFiles/apiwrap.cpp:5733-5744 | what goes out are the items not gone by then, in album order, each with its upload, its random id and its own caption; the first one also carries the captions it has gathered from messages cancelled while they were first; all captions are trimmed |
| `AlbumRuns.HistoryIs` | Telegram/SourceFiles/apiwrap.cpp:4504-5720 | in every run the history the statements above speak of is what the events say: which files became messages and under which captions, trimmed, what was uploaded for which, which are gone, which albums began with which files |
| `AlbumRuns.SentIff` | Telegram/SourceFiles/apiwrap.cpp:5722-5844 | in every run an album of several is in the map as sent exactly from its hand-over to its answer |
| `Keystore.AadInjective` | tfr/src/keystore.rs:372-383 | account, key version and purpose can be read back from the associated data: equal bytes, equal parts |
| `Keystore.AadReads` | tfr/src/keystore.rs:372-384 | the 19 bytes are the account, the key version with the high byte first, and the purpose |
| `Keystore.SecretStore.Create` | tfr/src/keystore.rs:658-730 | a refusal leaves the files alone; otherwise the file sealed for exactly these inputs is stored and the key handed out |
| `Keystore.SecretStore.Rotate` | tfr/src/keystore.rs:884-926 | a refusal leaves the stored envelope unchanged; otherwise it is replaced by the rotated one |
| `Keystore.SecretStore.Remove` | tfr/src/keystore.rs:928-936 | the envelope of the account, and no other, is gone |
| `Keystore.SecretStore.Unlock` | tfr/src/keystore.rs:785-842 | unlocking reads the stored envelope and changes nothing |
| `Keystore.StoreRefinesIdeal` | tfr/src/keystore.rs:658-936 | over every run of create, unlock, recover, rotate and remove on any accounts the store answers like an ideal one that keeps passphrase, code and key in the clear |
| `Keystore.IdealHolds` | tfr/src/keystore.rs:658-936 | from a create to the next remove the account holds the key of that create, the passphrase of the last accepted rotation, and the number of accepted rotations |
| `Keystore.UnlockAfterRun` | tfr/src/keystore.rs:797-842 | in every run, from a create to the next remove, exactly the passphrase of the last accepted rotation (or of the create) unlocks, and yields the minted key under key version 1 plus the accepted rotations |
| `Keystore.RecoverAfterRun` | tfr/src/keystore.rs:738-783 | in every such run exactly the minted recovery code recovers, and yields the minted key |
| `Keystore.RunSaltsDistinct` | tfr/src/keystore.rs:658-730 | with fresh salts no two generations of any accounts share one |
| `Keystore.StoredIsGenuine` | tfr/src/keystore.rs:658-936 | every stored envelope is one the history of the run records |
| `Keystore.AssembledUnlock` | tfr/src/keystore.rs:797-842 | an envelope put together from salts, costs, key versions and boxes of genuine envelopes, of any accounts, generations and slots, opens only to the key sealed in the generation whose salt it carries, for its account and its passphrase |
| `Keystore.AssembledRecovery` | tfr/src/keystore.rs:738-783 | the same for the recovery path, which opens only to the code of that generation |
| `Keystore.StoredUnlocksIff` | tfr/src/keystore.rs:785-842 | for any files, genuine or not: a passphrase yields a key exactly when the file is of this format, account and key derivation, its cost is valid, and verifier and key are sealed under that passphrase, each for its purpose |
| `Keystore.StoredRecoversIff` | tfr/src/keystore.rs:738-783 | and a code exactly when the key is sealed under it for recovery; here the key derivation the file names is not looked at |
| `Vault.TenantMeta.ChangePassphrase` | tfr/src/vault.rs:327-361 | the change, assignment by assignment: salt, cost and both boxes are overwritten before a recovery blob makes it refuse |
| `Vault.WrapAadReads` | tfr/src/crypto/kdf.rs:187-193 | the 32 bytes are the label, the tenant and the key version with the high byte first |
| `Vault.CreatedIff` | tfr/src/vault.rs:196-257 | a tenant is created exactly when the passphrase has 12 bytes and the cost is at least the minimum; it begins under key version 1, with a recovery blob exactly when a code is minted |
| `Vault.RefusedIff` | tfr/src/vault.rs:327-361 | for any meta, which error refuses a change, and exactly when none does the key version grows |
| `Vault.LastChangeIs` | tfr/src/vault.rs:358-361 | the unlock time kept is that of the last accepted change, whatever was refused since |
| `Vault.WithoutRecovery` | tfr/src/vault.rs:327-361 | for a tenant without a code, after any changes accepted or refused, exactly the last accepted passphrase opens the key of the create, and the key version is 1 plus the accepted changes |
| `Vault.AcceptedIff` | tfr/src/vault.rs:327-361 | such a change is accepted exactly when its passphrase has 12 bytes and the key version can still grow |
| `Vault.WithRecovery` | tfr/src/vault.rs:263-361 | for a tenant with a code no change is ever accepted, the code always opens the key of the create, and after the first well-formed attempt no passphrase does |
| `Vault.AssembledUnlock` | tfr/src/vault.rs:263-303 | a meta put together from salts, costs, key versions and boxes of genuine metas, of any tenants, generations and slots, opens only to the key sealed in the generation whose salt it carries, for its tenant and its passphrase |
| `Vault.AssembledRecovery` | tfr/src/vault.rs:306-325 | the same for the recovery path, which opens only to the code of that generation |
| `Vault.ChangesAreAssembled` | tfr/src/vault.rs:327-361 | every meta that changes lead to, accepted or refused, is put together from boxes they sealed |
| `Vault.SwappedWrapsRefused` | tfr/src/vault.rs:263-303 | wrapped key and verifier are sealed under one key and one associated data: the verifier in the place of the key is refused for its length, the key in the place of the verifier for its text |
| `Vault.UnlocksIff` | tfr/src/vault.rs:263-298 | for any meta, genuine or not: a passphrase yields a key exactly when the format and the cost are valid, it has 12 bytes, and verifier and a key of 32 bytes are sealed under it |
| `Vault.RecoversIff` | tfr/src/vault.rs:300-320 | and a code exactly when the cost is valid, it has 16 bytes and the key is sealed under it, whatever format and length |
| `TokenBucket.RateLimiter.TryTake` | tfr/src/auth.rs:579-592 | refill by the time passed, capped, then take one token if there is one |
| `TokenBucket.NeverExceedsRate` | tfr/src/auth.rs:570-592 | in every run no window of requests is granted more than capacity plus rate times time |
| `TokenBucket.StaysAhead` | tfr/src/auth.rs:570-592 | at every point of every run no choice of grants that obeys that bound on every window has granted more |
| `TokenBucket.GreedyIsMaximum` | tfr/src/auth.rs:570-592 | a fresh limiter keeps within the capacity it was made with, at least 1, plus the given rate times time on every window, and grants the most of all choices that do, at every point |
| `TokenBucket.AfterKeeps` | tfr/src/auth.rs:579-592 | the tokens stay between 0 and the capacity, and the clock kept never runs backwards |
| `TokenBucket.ClockIsNow` | tfr/src/auth.rs:579-592 | with times that never run backwards the clock kept is the time of the last request, so the bounds above are in real time |
| `ReplayWindow.Nonces.Accept` | tfr/src/auth.rs:607-627 | one counter is checked against the window and remembered; the 1025th oldest is forgotten |
| `ReplayWindow.WindowRemembers` | tfr/src/auth.rs:607-627 | in every run the window is the last 1024 accepted counters, by arrival, and the largest accepted one |
| `ReplayWindow.AcceptedIff` | tfr/src/auth.rs:607-627 | in every run, in whatever order counters arrive, one is accepted exactly when it is none of the last 1024 accepted and less than 1024 below each accepted so far |
| `ReplayWindow.ReplayedIff` | tfr/src/auth.rs:607-627 | a counter accepted before is accepted again exactly when at least 1024 acceptances came after it and it is less than 1024 below the largest |
| `ReplayWindow.AcceptancesFarApart` | tfr/src/auth.rs:607-627 | any two acceptances of one counter have at least 1024 other acceptances between them |
| `ReplayWindow.AcceptedOnFirstArrival` | tfr/src/auth.rs:607-627 | when counters first arrive in increasing order, with any replays between, each is accepted exactly the first time it arrives |
| `ReplayWindow.EvictedIsStale` | tfr/src/auth.rs:607-627 | what left an increasing window is at least 1024 below its largest, by pigeonhole |
| `ReplayWindow.OutOfOrderAcceptsTwice` | tfr/src/auth.rs:600-627 | a run out of order in which one counter is accepted twice |
| `Manifest.SigningBytes` | tfr/src/updater.rs:182-222 | the loops over the sorted clones write the canonical encoding of the header, artifact and delta rows |
| `ManifestReader.ReadsBack` | tfr/src/updater.rs:182-222 | a reader of its own, which looks for header keys and tags, takes lines apart at spaces, reads decimals and slim or full, recovers from the bytes of any manifest without newlines, and with spaces in header values and at most one known text per kind of row, every header value under its name and both kinds of rows field by field, artifacts sorted by triple and deltas by triple and version, stably |
| `Manifest.EncodeInjective` | tfr/src/updater.rs:182-222 | with at most one spaced position per kind of row and no newlines the bytes determine header, artifact and delta rows |
| `Manifest.RowDetermined` | tfr/src/updater.rs:197-220 | one line is read back to its fields when at most one position may hold spaces |
| `Manifest.SigningBytesEqualIff` | tfr/src/updater.rs:182-222 | for all manifests without newlines and with spaces in header values and at most one text per kind of row: equal bytes exactly when the headers are equal and, for every triple and every (triple, version) pair, the lists agree in order on the printed fields |
| `Manifest.SigningBytesCanonical` | tfr/src/updater.rs:182-222 | for the same manifests with distinct triples and pairs: equal bytes exactly when the headers are equal and the lists are reorderings of each other on every printed field |
| `ManifestSpaces.SpacesAllowedIff` | tfr/src/updater.rs:182-222 | free of newlines, the bytes determine everything printed exactly when at most one text of artifacts and at most one of deltas may hold spaces |
| `ManifestSpaces.ArtifactsCollide` | tfr/src/updater.rs:195-207 | for any two texts of an artifact, in any manifest: two artifacts that differ in these only and sign the same bytes |
| `ManifestSpaces.DeltasCollide` | tfr/src/updater.rs:208-220 | the same for any two texts of a delta |
| `ManifestSpaces.SpaceMovesBetweenFields` | tfr/src/updater.rs:195-207 | any artifact of any manifest with two choices of triple and libc, the texts the shape checks leave alone, that sign the same bytes |
| `ManifestNewlines.NewlinesAllowedIff` | tfr/src/updater.rs:182-222 | beside header values free of newlines, the bytes determine everything printed exactly when no text of an artifact or delta may hold anything at all and at most one per kind of row may hold spaces |
| `ManifestNewlines.ArtifactHoldsTwo` | tfr/src/updater.rs:195-207 | for any text of an artifact, in any manifest: one artifact that signs the same bytes as two, the second of a later triple |
| `ManifestNewlines.DeltaHoldsTwo` | tfr/src/updater.rs:208-220 | the same for any text of a delta |
| `StableSort.SortIsStable` | tfr/src/updater.rs:195-215 | sorting by key orders, loses nothing and keeps the order among equal keys |
| `StableSort.SortEqualIff` | tfr/src/updater.rs:195-215 | two lists sort to the same list exactly when they agree, in order, on every key |
| `MeshTools.BinobjToObj` | Telegram/cmake/binobj2obj.py:31-80 | refuses what does not decode to the last byte, and otherwise prints the mesh |
| `MeshTools.PrintMesh` | Telegram/cmake/binobj2obj.py:57-80 | prints the comments, whole triples and pairs, and triangles |
| `MeshTools.ObjToBinobj` | Telegram/cmake/obj2binobj.py:30-69 | fails where the text does not parse or a number does not fit, and otherwise packs the parsed mesh |
| `MeshTools.ReadFace` | Telegram/cmake/obj2binobj.py:48-55 | a face is its vertices in order, missing fields and all |
| `MeshTools.FanOut` | Telegram/cmake/obj2binobj.py:57-58 | the fan of a face |
| `MeshBytes.PackOfUnpack` | Telegram/cmake/binobj2obj.py:34-55 | what decodes packs back to the same bytes, so nothing of the file is left over |
| `MeshBytes.UnpackOfPack` | Telegram/cmake/obj2binobj.py:60-69 | what was packed decodes to the same mesh, with big-endian two-complement numbers |
| `MeshLayout.LayoutIs` | Telegram/cmake/obj2binobj.py:60-69 | where every number stands in the file: counted positions, UVs and normals as words, then the counted corners, three signed numbers each, all with the highest byte first and in two-complement |
| `MeshRoundTrip.CornerParses` | Telegram/cmake/binobj2obj.py:75-80 | the index shift on printing and the one on parsing cancel for every index |
| `MeshRoundTrip.TriangleIsFan` | Telegram/cmake/obj2binobj.py:57-58 | a triangle is its own fan |
| `MeshParse.TrianglesAre` | Telegram/cmake/obj2binobj.py:56-58 | a face of n corners becomes n - 2 triangles, none below three: the i-th is its first corner with corners i + 1 and i + 2 |
| `MeshParse.TextIs` | Telegram/cmake/obj2binobj.py:36-58 | any text is refused exactly when one of its lines has too few or unreadable numbers or a bad vertex; otherwise each line in turn adds what its tag says, with absent indices as -1 |
| `MeshRoundTrip.ParseOfPrint` | Telegram/cmake/obj2binobj.py:36-58 | the printed text parses to the whole triples, pairs and triangles of the mesh, for every mesh |
| `MeshRoundTrip.RoundTripIsByteIdentical` | Telegram/cmake/binobj2obj.py:31-80 | given that float text round-trips, the file comes back byte for byte exactly when position and normal counts divide by 3, the UV count by 2 and the corner count by 3 |
| `Utf8.DecodeUtf8` | Telegram/SourceFiles/_other/zxcvbn_translit.cpp:24-63 | the loop over continuation bytes computes the decoding, past the end as a zero byte |
| `Utf8.DecodeIsGrammar` | Telegram/SourceFiles/_other/zxcvbn_translit.cpp:24-63 | the decoder takes exactly the character of section 4 of RFC 3629 at that place, with its scalar value, and refuses everything else |
| `Utf8.DecodeSound` | Telegram/SourceFiles/_other/zxcvbn_translit.cpp:24-63 | a decoded scalar re-encodes to the bytes it was read from, which lie inside the text |
| `Utf8.DecodeComplete` | Telegram/SourceFiles/_other/zxcvbn_translit.cpp:24-63 | every encoded scalar decodes, whatever follows it |
| `Utf8.CharIsEncoding` | Telegram/SourceFiles/_other/zxcvbn_translit.cpp:24-63 | the characters of section 4 of RFC 3629 are encodings of scalars as in section 3 |
| `Utf8.PrefixUnique` | Telegram/SourceFiles/_other/zxcvbn_translit.cpp:65-78 | a word spells its scalars in one way only |
| `Utf8.WellFormedIff` | Telegram/SourceFiles/_other/zxcvbn_translit.cpp:65-78 | a word is well-formed exactly when it spells scalars |
| `Utf8.MapWord` | Telegram/SourceFiles/_other/zxcvbn_translit.cpp:65-85 | true exactly when the word spells scalars that all map, to at least two bytes; the mapping is then the result |
| `Utf8.MapsIff` | Telegram/SourceFiles/_other/zxcvbn_translit.cpp:65-85 | a word maps exactly when it is well-formed and every non-ASCII scalar it spells transliterates |
| `Utf8.OneMoreLetter` | Telegram/SourceFiles/_other/zxcvbn_translit.cpp:65-85 | what a word maps to, letter by letter: the empty word to nothing, a letter below 128 adds itself, any other what the table has for it, if it has |
| `ConnString.RewriteConnHostPort` | tfr/src/tunnel.rs:359-397 | the loop over the tokens computes the rewriting: host, port and password tokens replaced, a missing host and port appended |
| `ConnString.KindIs` | tfr/src/tunnel.rs:366-388 | what makes a token one of a host, port or password: its key without white space around it, in any case, is host or server, port, password or passwd; a token without an equal sign is none |
| `ConnString.OutputTokens` | tfr/src/tunnel.rs:359-397 | for a host without separators the output reads back as the tokens of the input in order, replaced one by one, plus at most one host and one port |
| `ConnString.PasswordsAreRedacted` | tfr/src/tunnel.rs:379-383 | every token of the output with a password key holds the redaction mark for its value |
| `ConnString.SurvivesIff` | tfr/src/tunnel.rs:363-388 | a token is passed on as it is exactly when its key is none of the known ones or it already is its own replacement |
| `ConnString.SettingTokens` | tfr/src/tunnel.rs:363-368 | a password setting, with optional blanks beside the equal sign and any value, reads as the tokens up to the equal sign and then the carriers of its value |
| `ConnString.NothingCarriedIff` | tfr/src/tunnel.rs:363-383 | the value is all in the redacted token exactly when no blank stands beside the equal sign and nothing follows the first separator inside the value |
| `ConnString.CarriersReachTheOutput` | tfr/src/tunnel.rs:363-388 | wherever the setting stands, each carrier reaches the output as it is unless its own text is a host, port or password token |
| `ConnString.PasswordLeaksIff` | tfr/src/tunnel.rs:363-388 | a password without separators or equal signs reaches the output exactly when there is a blank beside the equal sign of its setting |
| `ConnString.PasswordsThatLeak` | tfr/src/tunnel.rs:353-383 | two strings whose password, or the rest of it, reaches the output |
| `ConnString.PiecesTwice` | tfr/src/tunnel.rs:359-397 | rewriting the rewritten tokens with another host and port is rewriting the original with those |
| `ConnString.IdempotentIff` | tfr/src/tunnel.rs:359-397 | rewriting again changes nothing exactly when the host token reads back as one token |
| `ConnString.TokensGrow` | tfr/src/tunnel.rs:359-397 | otherwise every further rewriting has more tokens |
| `Redaction.ValueAfterKey` | tfr/src/logging.rs:107-122 | the loop computes the search for a key with a mark behind it that skips whole keys |
| `Redaction.SearchCompleteIff` | tfr/src/logging.rs:107-130 | for any key without marks: the search agrees with "some occurrence is followed by a mark" on every text exactly when the key has no proper border |
| `Redaction.ListedKeys` | tfr/src/logging.rs:54-73 | of the listed keys the search is complete for every one but "kek" |
| `Redaction.OverlappedIsMissed` | tfr/src/logging.rs:107-130 | a text in which a bordered key is missed |
| `Redaction.RedactToken` | tfr/src/logging.rs:90-103 | the loop over the listed keys computes the scrubbed token |
| `Redaction.RedactLine` | tfr/src/logging.rs:79-88 | the loop over the tokens computes the scrubbed line |
| `Redaction.IsBlobLike` | tfr/src/logging.rs:132-145 | the loop computes: every character is hexadecimal or of the base64 alphabet, and at least 90 percent are hexadecimal or none is |
| `Redaction.MarkedTokenIsCut` | tfr/src/logging.rs:90-130 | a token with a listed key other than "kek" and a mark behind it keeps nothing from the first occurrence of the chosen key on |
| `Redaction.MarkedValueSurvivesIff` | tfr/src/logging.rs:90-130 | the text up to the end of a value that a listed key other than "kek" marks is kept exactly when it ends before the first occurrence of the chosen key |
| `Redaction.EarlierValueSurvives` | tfr/src/logging.rs:90-103 | a token in which the value of a listed key is kept |
| `Redaction.ValueBehindBlankSurvives` | tfr/src/logging.rs:79-103 | a value set off by a space is a token of its own, and one without a key passes |
| `Redaction.ChangedIff` | tfr/src/logging.rs:90-103 | a token that is no blob changes exactly when the search reports some listed key in it |
| `Redaction.LineKeepsTokens` | tfr/src/logging.rs:79-88 | the scrubbed line has the tokens of the line, each scrubbed on its own |
| `Redaction.BlobIff` | tfr/src/logging.rs:132-145 | a token is a blob exactly when it is longer than 64, all of the base64 alphabet, and hexadecimal in at least nine places of ten or in none |
| `Redaction.BlobKeepsLength` | tfr/src/logging.rs:90-93 | what replaces a blob parses back to its length |
| `Redaction.BlobsLookAlike` | tfr/src/logging.rs:90-93 | two blobs are replaced by the same text exactly when they have the same length, so nothing else of them survives |
| `ShellQueue.Shell.PostToFrame` | Telegram/Resources/bot_webview_shell_html/page.js:148-162 | queues while there is no loaded frame and drops the oldest beyond 64; otherwise sends |
| `ShellQueue.Shell.FlushPendingEvents` | Telegram/Resources/bot_webview_shell_html/page.js:200-207 | empties the queue and sends, in order, what is of the current generation |
| `ShellQueue.Shell.CreateIframe` | Telegram/Resources/bot_webview_shell_html/page.js:874-910 | a new generation with an empty queue, not loaded, no reload pending |
| `ShellQueue.Shell.OnLoad` | Telegram/Resources/bot_webview_shell_html/page.js:893-901 | only the load of the current frame counts; it lets the queue go |
| `ShellQueue.Shell.OnMessage` | Telegram/Resources/bot_webview_shell_html/page.js:793-817 | only the current frame, from its origin, is heard; a reload notice stops the timeout and closes the queue gate |
| `ShellQueue.Shell.ReloadFrame` | Telegram/Resources/bot_webview_shell_html/page.js:916-932 | asks a frame that can reload and sets the timeout, replaces any other |
| `ShellQueue.Shell.OnReloadTimeout` | Telegram/Resources/bot_webview_shell_html/page.js:925-928 | the timeout replaces the frame |
| `ShellQueue.Shell.OnBootstrap` | Telegram/Resources/bot_webview_shell_html/page.js:938-955 | address and origin are set before a new frame is made |
| `ShellQueue.QueueIsBounded` | Telegram/Resources/bot_webview_shell_html/page.js:148-207 | in every run a loaded frame has an empty queue, the queue holds at most 64 events, in order, all posted for the frame there is |
| `ShellQueue.DeliveredInOrder` | Telegram/Resources/bot_webview_shell_html/page.js:132-207 | in every run deliveries follow the order of posting, so none is repeated, each goes to the generation its event was posted for, and all come before what still waits |
| `ShellQueue.DeliversToCurrent` | Telegram/Resources/bot_webview_shell_html/page.js:132-146 | a step delivers only to the frame there is, with its own origin as target, or any when origins are not compared, and takes nothing back |
| `ShellQueue.LoadDelivers` | Telegram/Resources/bot_webview_shell_html/page.js:893-907 | the load of the current frame delivers the whole queue in order when there is an origin to send to |
| `ShellQueue.StepLoses` | Telegram/Resources/bot_webview_shell_html/page.js:132-207 | a step loses an event that waits, or that it posts, exactly when the event is the oldest of a full queue that takes another, or its frame is replaced, or its turn comes and there is no usable origin |
| `ShellQueue.LostOnlySo` | Telegram/Resources/bot_webview_shell_html/page.js:132-207 | every event posted in a run waits, was delivered, or was lost at a step at which one of those three happened to it |
| `ShellQueue.GateIff` | Telegram/Resources/bot_webview_shell_html/page.js:793-910 | in every run the queue is by-passed exactly when the frame there is has loaded and has announced no reload since |
| `ShellQueue.TimeoutIff` | Telegram/Resources/bot_webview_shell_html/page.js:793-932 | in every run the timeout is set exactly when the frame there is was asked to reload and has neither announced it nor been replaced since |
| `ShellQueue.SupportedIff` | Telegram/Resources/bot_webview_shell_html/page.js:793-910 | in every run a frame counts as able to reload exactly when the frame there is said so last |
| `ShellQueue.FrameIsReplaced` | Telegram/Resources/bot_webview_shell_html/page.js:874-932 | in every run frames are numbered by their replacements, and a frame is asked to reload exactly when it can, has loaded and there is an origin to ask it at |
| `ShellQueue.BootstrapDecides` | Telegram/Resources/bot_webview_shell_html/page.js:874-955 | in every run the latest bootstrap decides page and origin of the frame, through all reloads and fallbacks after it |
| `ShellQueue.NothingBeforeBootstrap` | Telegram/Resources/bot_webview_shell_html/page.js:874-955 | in every run there is no frame, timeout or delivery before the first bootstrap |
| `Text.SplitJoin` | tfr/src/tunnel.rs:359-397 | pieces without separators, joined by one, split back to the same pieces |
| `Text.JoinSplit` | tfr/src/logging.rs:79-88 | a line split at a separator and joined with it is the line |
| `Text.TrimIs` | tfr/src/tunnel.rs:369 | white space in front of a text and behind it goes, and nothing else |
| `Text.LowerLetters` | tfr/src/tunnel.rs:369 | lower case changes the letters A to Z and nothing else, each to its own small letter |
| `Text.DecimalPlaces` | Telegram/cmake/binobj2obj.py:75-80 | the decimal digits of a number, the highest first, none in front that is not needed |
| `Text.ParseShowInt` | Telegram/cmake/binobj2obj.py:75-80 | an integer printed in decimal, sign and all, parses back |

## Left out

- Real cryptography, random sources, memory wiping, file permissions and the JSON form of envelopes and metas: a key is a
  free constructor over passphrase, salt and cost, a box opens on equal key and associated data, files are a map, and
  what the random source supplies is a parameter. Parameters of the key derivation below its minimum are refused as in
  the source; its other failures are not modelled.
- `TokenBucket`: the tokens are reals, so rounding of `f64` is not modelled.
- `ReplayWindow.Nonces.Accept`: requires that `counter + 1024` fits in 64 bits, because the build checks overflow and aborts.
- `Manifest`: text fields are sequences of characters, not of UTF-8 bytes; validation, selection, download and the JSON
  form are not modelled.
- `MeshRoundTrip`: a float is its 32-bit word, and its text is a parameter that is assumed to read back, which leaves out
  rounding and the payload of NaNs; underscores and non-ASCII digits or spaces, which Python also reads, are not
  modelled; a failing writer may leave part of a file behind, here it yields nothing.
- `Utf8`: the transliteration table is a parameter; dropping markup words and reading and writing dictionaries are not modelled.
- `ConnString`: keys are trimmed of Unicode white space and lowered in ASCII letters as in the source; in the settings the blanks
  beside the equal sign are spaces and tabs, and how a database driver unquotes a value is not modelled; socket binding,
  probing and spawning are not modelled.
- `Redaction`: lower case is for ASCII letters, as in the source; log files and levels are not modelled.
- `DraftSaver`: plain drafts that are not skipped, outside quitting (on quitting the finished notice goes out before a changed
  draft is queued again, so an edit can be lost then); rich drafts, support mode and the retry after an expired file
  reference are not modelled.
- `MessageData`: what `processExistingMessages` does before an answer is finalised counts as registrations of its own; what a
  callback registers depends on the callback alone.
- `FileReferences`: origins that cannot be fetched, whose own caller is told so at once without touching the table, and the
  refreshed references themselves are not modelled.
- `WebPages`: the timer appears as the delay a resolve asks for; which message shows a page is a parameter of each resolve, what
  an answer says of pages a parameter of each answer; of a page the time it waits, whether it has an address and whether it
  failed are modelled, its text and media and the notifications are not.
- `Forwarding`: the sort by position in front is not modelled, the list comes in that order; the special routes for saved music,
  dice and full or intelligent forwards, flags, captions and the local copies made for a single item are not modelled;
  integers are unbounded.
- `Albums`: an album is a value in the map, not a shared object; a file to send and the message it becomes share a number; the
  ephemeral and the paid route, albums of music that wait for all their files, welcome messages, the stars of an album and
  captions edited by hand are not modelled; a message of an album is destroyed by a cancellation only.
- `Albums.Sender.SendAlbumWithUploaded`: captions are trimmed of Unicode white space; the set that the source trims is that
  of its user interface library, which is not part of this model; formatting entities are left out.
- `ShellQueue`: a frame in the page always has a window; the shell's own controls, chrome and native calls with their token
  check, and the origin parser, are not modelled; the reload message itself is a history of its own beside the events.
- The rest of `apiwrap.cpp`, the widgets, `tdlib.rs`, `cli.rs`, `config.rs`, `main.rs`, `selftest.rs`, the scanner package, logs,
  build and language scripts: plumbing, input and output, or user interface.
