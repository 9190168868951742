# Keep2DownloadBot: video relay and media-group aggregation, modelled in Dafny

Keep2DownloadBot is a Telegram bot that takes every video posted to it,
downloads the document to a temporary file, uploads it again and sends the
uploaded file back as media replying to the original message. Videos posted together as an album arrive as separate messages that
share a `grouped_id`. The bot holds these in a table of open groups and
relays them together 2000 ms after the first fragment arrives.

This project models the logic of `BotHandler`:

- `media.dfy` (module `Media`) holds the parts of a message the bot reads and
  `IsVideoMessage`. A message is a video when it holds a document whose MIME
  type starts with `video/`, or whose attributes include the video attribute.
- `relay.dfy` (module `Relay`) covers `ProcessVideoAsync`. It picks the file
  name (the document's own name, or `video_<id>.mp4` when that name is blank)
  and the temporary name `<token>_<fileName>`. It also traces the announce,
  open, download, upload, send and delete steps as a list of effects. The step
  that throws is a parameter.
- `dispatch.dfy` (module `Dispatch`) is the dispatch logic written as
  functions on values. It covers routing (`HandleMessageAsync`), the offer and
  flush on the group table (`HandleMediaGroupAsync` and its delayed task), and
  a whole update batch (`HandleUpdatesInternal`).
- `albums.dfy` (module `Albums`) proves what a run of events does. An event is
  a message arriving or the timer of some group firing. The fragments of an
  album are relayed once each, in arrival order, and reply to the first
  fragment's peer. This holds however they interleave with other messages and
  with other albums' flushes. None of them is relayed before the album's own
  flush. An update batch acts exactly as the run of the messages it resolves
  to, so these results apply to the update callback.
- `handler.dfy` (module `Handler`) holds the class `BotHandler`. It has the
  group table as a `map` field and the list of relay hand-offs as a `seq`
  field. Each of its methods is proved against the `Dispatch` functions. Each
  lock-protected region is one method. The timer firing is an explicit call to
  `FlushMediaGroup`.
- `text.dfy` (module `Text`) has .NET's white-space test, prefix and suffix
  tests, and decimal formatting of a document id. `wrappers.dfy` has `Option`.

Three behaviours of the code that the model keeps:

- The temporary file is deleted only when every step succeeds
  (BotHandler.cs:184-187), not on every exit path.
  `Relay.TempFileLeftBehind` states exactly when the file is left behind.
- The error notice (BotHandler.cs:192) is not guarded. When it fails, the
  exception leaves `ProcessVideoAsync`, which is the `Escaped` outcome.
- `HandleUpdatesInternal` awaits each message in turn (BotHandler.cs:46), so
  a batch is handled one message after another rather than fire-and-forget.

## Model

| member | source | states |
|---|---|---|
| Media.FindVideoAttribute | Keep2DownloadBot/BotHandler.cs:82-88 | the early-return search over the attributes finds a video attribute exactly when some attribute is one |
| Media.MimeRule | Keep2DownloadBot/BotHandler.cs:72-78 | a document whose MIME type starts with `video/` is a video |
| Media.AttributeRule | Keep2DownloadBot/BotHandler.cs:80-88 | a document carrying a video attribute is a video whatever its MIME type |
| Media.NoDocumentIsNotVideo | Keep2DownloadBot/BotHandler.cs:72-91 | media that is not a document, or a document slot without a document, is never a video |
| Media.IsVideoMessage | Keep2DownloadBot/BotHandler.cs:70-92 | a message is a video if and only if it has a document and that document has a video MIME type or a video attribute; the two rules alone are `MimeRule` and `AttributeRule` |
| Media.OctetStreamWithVideoAttribute | Keep2DownloadBot/BotHandler.cs:80-88 | an `application/octet-stream` document with a video attribute is a video |
| Media.Mp4WithoutAttributes | Keep2DownloadBot/BotHandler.cs:75-78 | a `video/mp4` document with no attributes is a video |
| Media.OctetStreamWithoutMarkerIsNotVideo | Keep2DownloadBot/BotHandler.cs:70-92 | an `application/octet-stream` document without a video attribute is not a video |
| Relay.FileName | Keep2DownloadBot/BotHandler.cs:136-155 | a file name exists exactly when the message has a document, and it is never null or white space |
| Relay.GivenNameIsKept | Keep2DownloadBot/BotHandler.cs:140-146 | a document name that is not blank is used unchanged |
| Relay.BlankNameIsSynthesized | Keep2DownloadBot/BotHandler.cs:146-149 | a blank or missing document name is replaced by the name made from the document id |
| Relay.SynthesizedNameHoldsId | Keep2DownloadBot/BotHandler.cs:148 | the made-up name is `video_` + id + `.mp4`, and the id can be read back from the middle of the name |
| Relay.SynthesizedNamesDiffer | Keep2DownloadBot/BotHandler.cs:148 | documents with different ids never get the same made-up name |
| Text.IntToDecimalRoundTrip | Keep2DownloadBot/BotHandler.cs:148 | the decimal rendering of the id parses back to the id |
| Relay.TempName | Keep2DownloadBot/BotHandler.cs:161 | the temporary name starts with the token and ends with `_` + the file name |
| Relay.EqualLengthTokensNeverCollide | Keep2DownloadBot/BotHandler.cs:161 | different tokens of one length, such as two GUIDs in their 36-character form, give different temporary names whatever the file names |
| Relay.TokensOfDifferentLengthsCanCollide | Keep2DownloadBot/BotHandler.cs:161 | without equal lengths two token and file-name pairs can give one temporary name ("a" with "b_c", "a_b" with "c") |
| Relay.TempNamesDiffer | Keep2DownloadBot/BotHandler.cs:161 | different tokens give different temporary names for the same file |
| Relay.ProcessVideo | Keep2DownloadBot/BotHandler.cs:134-193 | no document gives no relay and no effect; otherwise it is relayed exactly when no step throws, reported when a step throws and the notice goes through, and escapes when the notice fails too; the traces are stated by the four lemmas below |
| Relay.NoDocumentNoEffects | Keep2DownloadBot/BotHandler.cs:152-155 | a message without a document performs no step and relays nothing |
| Relay.RelayedExactlyWithoutFault | Keep2DownloadBot/BotHandler.cs:157-187 | the relay succeeds if and only if no step throws, and it then announces "Processing: <file name>..." in reply to the message, creates and downloads into the temporary file, uploads it, sends the uploaded file as media replying to the original message and deletes the file, in that order |
| Relay.FailureIsReported | Keep2DownloadBot/BotHandler.cs:157-193 | when a step throws, the effects so far are exactly the first steps of the success trace before it, followed by an error notice threaded to the original message; if that notice fails, the exception escapes |
| Relay.EffectsStayOnTheirThread | Keep2DownloadBot/BotHandler.cs:159-192 | every message a relay sends goes to its own peer and replies to its own message |
| Relay.TempFileLeftBehind | Keep2DownloadBot/BotHandler.cs:161-192 | the temporary file is left behind if and only if the download, upload, send or delete throws |
| Dispatch.RouteOf | Keep2DownloadBot/BotHandler.cs:51-67 | non-videos are ignored, videos with grouped id 0 are relayed at once, and every other video goes to the group of its non-zero grouped id; the effect on the state is given by the three routing lemmas below |
| Dispatch.Offer | Keep2DownloadBot/BotHandler.cs:100-130 | the key is in the table afterwards; its list is the old list (or none) with the message at the end, and its peer is the old peer (or this one); every other entry is unchanged; see `OfferToOpenGroup` and `OfferToAbsentGroup` |
| Dispatch.Flush | Keep2DownloadBot/BotHandler.cs:111-121 | the key leaves the table, every other entry is unchanged, and the group is handed back exactly when it was present; see `FlushOpenGroup` and `FlushAbsentGroup` |
| Dispatch.AfterUpdates | Keep2DownloadBot/BotHandler.cs:32-48 | handling a batch only appends to the relays and never closes a group; `Albums.BatchIsRun` equates it with the run of its resolved messages |
| Dispatch.UnresolvedUpdateIgnored | Keep2DownloadBot/BotHandler.cs:32-47 | only new user messages whose sender resolves are handled; every other update changes nothing |
| Dispatch.NotUpdatesIgnored | Keep2DownloadBot/BotHandler.cs:27-30 | an object that is not an update batch changes nothing |
| Dispatch.AfterMessage | Keep2DownloadBot/BotHandler.cs:51-67 | handling one message only adds table keys, appends at most its own hand-off, never changes both the table and the hand-offs, and changes nothing for a non-video; `NonVideoIgnored`, `GroupedVideoOnlyOffered` and `SingleVideoRelayedDirectly` give each route's exact effect |
| Dispatch.Resolve | Keep2DownloadBot/BotHandler.cs:34-46 | an update yields a message exactly when it is a new user message whose sender is in the batch's directory, and then yields that message with the sender's input peer |
| Dispatch.AfterUpdate | Keep2DownloadBot/BotHandler.cs:34-46 | an update that does not resolve changes nothing (`UnresolvedUpdateIgnored`); any update only adds table keys and appends at most one hand-off |
| Dispatch.NonVideoIgnored | Keep2DownloadBot/BotHandler.cs:51-67 | a message that is not a video changes neither the table nor the relays |
| Dispatch.GroupedVideoOnlyOffered | Keep2DownloadBot/BotHandler.cs:58-61 | a video with a non-zero grouped id is offered to the table and starts no relay |
| Dispatch.SingleVideoRelayedDirectly | Keep2DownloadBot/BotHandler.cs:62-65 | a video with grouped id 0 is relayed at once and leaves the table unchanged |
| Dispatch.OfferToOpenGroup | Keep2DownloadBot/BotHandler.cs:100-130 | an offer to an open group appends the message at the end, keeps the first fragment's peer and leaves every other entry |
| Dispatch.OfferToAbsentGroup | Keep2DownloadBot/BotHandler.cs:100-130 | an offer to an absent key opens an entry holding exactly that message, with its peer, and leaves every other entry |
| Dispatch.AfterFlush | Keep2DownloadBot/BotHandler.cs:111-126 | a flush removes exactly its key, leaves every other entry, and appends one hand-off per message of the removed group after the earlier ones; `FlushOpenGroup`, `FlushAbsentGroup` and `FlushIsIdempotent` give the exact hand-offs and the repeat |
| Dispatch.FlushOpenGroup | Keep2DownloadBot/BotHandler.cs:111-126 | a flush removes the group, leaves every other entry, and relays its messages once each, in offer order, to the captured peer |
| Dispatch.FlushAbsentGroup | Keep2DownloadBot/BotHandler.cs:113-116 | a flush of an absent key changes nothing and relays nothing |
| Dispatch.FlushIsIdempotent | Keep2DownloadBot/BotHandler.cs:111-121 | a second flush of the same key relays nothing more |
| Dispatch.LateFragmentStartsNewGroup | Keep2DownloadBot/BotHandler.cs:100-102 | a fragment arriving after its group was flushed opens a new group holding only itself |
| Albums.Album | Keep2DownloadBot/BotHandler.cs:100-130 | the fragments of a group in a run are empty exactly when no message of the run is routed to that group |
| Albums.AlbumPeer | Keep2DownloadBot/BotHandler.cs:102 | the peer of a group exists exactly when some message of the run went to that group, and it is the peer of the first such message |
| Albums.BatchIsRun | Keep2DownloadBot/BotHandler.cs:25-49 | an update batch changes the state exactly as the run of the new user messages it resolves, in list order |
| Albums.SinglesRelayedAtOnce | Keep2DownloadBot/BotHandler.cs:62-65 | in a run of messages with no timer firing, the only relays are the single videos, at once and in arrival order |
| Albums.TableAfterEvents | Keep2DownloadBot/BotHandler.cs:98-131 | after any run in which a key's own timer does not fire, its entry is its old entry plus that key's fragments in arrival order; a key that was not open gets exactly its fragments and the first fragment's peer |
| Albums.NoEarlyRelay | Keep2DownloadBot/BotHandler.cs:98-126 | from a table whose groups hold only their own fragments, a run keeps that so, only appends to the relays, and relays no fragment of a group whose timer has not fired |
| Albums.AlbumRelayedInOrder | Keep2DownloadBot/BotHandler.cs:94-132 | an album collected over any run of messages and other albums' flushes, then flushed, is relayed in arrival order, once each, to the first fragment's peer, and its key leaves the table |
| Albums.ThreeFragmentAlbum | Keep2DownloadBot/BotHandler.cs:94-132 | three fragments and one timer give three relays in arrival order, all replying to the first fragment's peer |
| Handler.BotHandler.constructor | Keep2DownloadBot/BotHandler.cs:12-18 | a new handler has no open groups and has relayed nothing |
| Handler.BotHandler.HandleUpdatesInternal | Keep2DownloadBot/BotHandler.cs:25-49 | the new state is the batch's updates handled in list order, which is the run of its resolved messages, and every open group still holds only its own fragments |
| Handler.BotHandler.HandleMessage | Keep2DownloadBot/BotHandler.cs:51-67 | the new state is the routing function applied to the message |
| Handler.BotHandler.HandleMediaGroup | Keep2DownloadBot/BotHandler.cs:94-132 | starts a timer exactly when the key was absent; appends the message to that key's list and leaves every other key |
| Handler.BotHandler.FlushMediaGroup | Keep2DownloadBot/BotHandler.cs:104-127 | removes the key, relays its messages one by one in arrival order, and leaves every other key |
| Handler.BotHandler.ProcessVideo | Keep2DownloadBot/BotHandler.cs:134 | records one hand-off of the message and its peer and leaves the table alone |

## Left out

- Network and file-system calls (`SendMessageAsync`, `DownloadFileAsync`, `UploadFileAsync`, `SendMediaAsync`, `File.OpenWrite`, `File.Exists`, `File.Delete`) are not modelled as calls. `Relay.ProcessVideo` lists their effects instead, and a parameter decides which step throws.
- `Path.Combine(Path.GetTempPath(), …)` is left out because it depends on the host file system. `Relay.TempName` is the file-name part only.
- The `File.Exists` test before the delete (BotHandler.cs:184) is not modelled. On the success path the file was created by the open step, so the delete is always attempted.
- `inputMedia` (BotHandler.cs:175-182) is built but never used, so it is left out. The file is sent by passing the uploaded file straight to `SendMediaAsync` (BotHandler.cs:182), with no MIME type or video attribute. The kind of media the client library makes of it is not modelled; the `SendMedia` effect says only that the uploaded file is sent as media replying to the original message.
- `Guid.NewGuid()` is a `token` parameter. Its uniqueness is not modelled; `Relay.TempNamesDiffer` and `Relay.EqualLengthTokensNeverCollide` show what distinct tokens give.
- Concurrency is left out: `Task.Run`, `Task.Delay(2000)`, the `lock` and the interleaving of the delayed task with later updates. Each locked region is one atomic method, and the timer is an explicit `FlushMediaGroup` call.
- Handler.BotHandler.FlushMediaGroup: assumes every relay returns normally. When the error notice itself throws, the source loop stops and the remaining messages of the album are not relayed. The model does not capture this; `Relay.FailureIsReported` shows when it happens.
- Handler.BotHandler.HandleUpdatesInternal: for the same reason, the case where an escaping exception abandons the rest of an update batch is not modelled.
- Handler.BotHandler.ProcessVideo: records the hand-off only. What the call then does is `Relay.ProcessVideo`.
- `string.StartsWith("video/")` uses the current culture in .NET. The model uses an ordinal prefix test, so culture-specific matches (for example ignored zero-width characters) are not captured.
- `IntToDecimal` renders the id as the invariant culture does, with '-' as the negative sign. The interpolation at BotHandler.cs:148 uses the current culture, whose negative sign may differ, so the made-up name for a negative id in such a culture is not captured.
- `Document.Filename` and `UserOrChat`/`ToInputPeer` are helpers of the Telegram client library and are not part of this model. The file name is an optional field of `Document`, and peer resolution is a lookup in the batch's directory.
- Logging (Serilog) is left out everywhere.
- Subscribing and unsubscribing on `OnUpdates` (BotHandler.cs:14-23) is event wiring and is left out.
- Program.cs (process start-up, logger set-up, login, waiting for Ctrl-C) and Configuration.cs (loading settings, the missing-token check) are not part of this model.
