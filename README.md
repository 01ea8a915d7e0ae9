# Notification sound list: cache synchronisation model

A Dafny model of the Telegram client's notification-sound list (`NotificationSoundList.swift`).
The account keeps one cached copy of a server-owned list under one fixed cache key. The list is a
64-bit `hash` (the server's version token) and an ordered list of sounds, each wrapping one media file.
The model covers four things:

- **Value types** (`NotificationSounds`): `SoundList`, `Sound`, `File`, `Resource`. The model also
  covers the source's hand-written `==` on sounds and lists and the `compactMap` that turns server
  documents into sounds. Converting a document to a media file (`telegramMediaFileFromApiDocument`)
  is foreign code, so it is a parameter `parse: Document -> Option<File>`.
- **Transitions as functions** (`SoundListSync`): one poll pass, one save and one upload, each a
  total function of the prior cache slot and the outcomes of the external calls. Lemmas about them
  state the protocol's promises: overwrite on "modified", which fetches are requested,
  idempotence, and how the optimistic upload relates to the next poll.
- **The store** (`SoundListStore.SoundStore`): a class with four fields. `cached` is the cache slot
  (`None` means no entry). `stored` holds the bytes written into the media store. `fetchLog` records
  every resource fetch requested, and `requestLog` every RPC sent. One `UploadFileParts` entry in
  `requestLog` stands for the whole multipart upload; its per-part requests are not recorded. `Poll`, `SaveSound` and
  `UploadSound` change these fields step by step, as the source does. Each one is proved to leave
  exactly the state the transition functions describe. The two `for` loops of the fan-out are
  methods with loop invariants.
- **External outcomes as parameters.** The server's reply, the save reply, the blob upload, the
  ringtone registration and each resource fetch are parameters of type `Result`. A transport
  error is a `Failure`.

A transport error ends a poll pass before the resource fan-out (`submodules/TelegramCore/Sources/TelegramEngine/Peers/NotificationSoundList.swift:130-132`), so no fetch is
requested after it; `FetchPlan` and `Poll` state this.

## Model

| member | source | states |
|---|---|---|
| NotificationSounds.SoundEquals | submodules/TelegramCore/Sources/TelegramEngine/Peers/NotificationSoundList.swift:20-25 | the sound `==` holds exactly when the two sounds are the same value |
| NotificationSounds.SoundsEqual | submodules/TelegramCore/Sources/TelegramEngine/Peers/NotificationSoundList.swift:61 | array `==` on sound sequences holds exactly when the sequences are equal |
| NotificationSounds.ListEquals | submodules/TelegramCore/Sources/TelegramEngine/Peers/NotificationSoundList.swift:57-65 | the list `==` holds exactly when hash and sounds are both equal |
| NotificationSounds.SoundFromDocument | submodules/TelegramCore/Sources/TelegramEngine/Peers/NotificationSoundList.swift:82-88 | a sound exists exactly when the document converts to a file, and it wraps that file |
| NotificationSounds.ParseSounds | submodules/TelegramCore/Sources/TelegramEngine/Peers/NotificationSoundList.swift:137 | the parsed list is no longer than the documents; every sound comes from a document that parses to its file; every document that parses contributes its sound |
| NotificationSounds.ParseSoundsAppend | submodules/TelegramCore/Sources/TelegramEngine/Peers/NotificationSoundList.swift:137 | parsing a concatenation is the concatenation of the parses, so document order is kept |
| NotificationSounds.UnparseableDocumentDropped | submodules/TelegramCore/Sources/TelegramEngine/Peers/NotificationSoundList.swift:84-86 | a document that fails to parse is dropped and does not affect the documents around it |
| NotificationSounds.ParseSoundsAllParse | submodules/TelegramCore/Sources/TelegramEngine/Peers/NotificationSoundList.swift:137 | when every document parses, the i-th sound wraps the i-th document's file |
| SoundListSync.Token | submodules/TelegramCore/Sources/TelegramEngine/Peers/NotificationSoundList.swift:123 | the poll's token is the cached hash, or 0 when the slot is empty |
| SoundListSync.CachedResources | submodules/TelegramCore/Sources/TelegramEngine/Peers/NotificationSoundList.swift:146-151 | the resources of the cached sounds, one per sound in list order, and none when the slot is empty |
| SoundListSync.IsCloudDocument | submodules/TelegramCore/Sources/TelegramEngine/Peers/NotificationSoundList.swift:191 | a file passes the save guard only when its resource is a cloud document; otherwise it is another kind of resource |
| SoundListSync.Caught | submodules/TelegramCore/Sources/TelegramEngine/Peers/NotificationSoundList.swift:123-127 | a failed request becomes `nil`, and a reply is passed on unchanged |
| SoundListSync.CacheAfter | submodules/TelegramCore/Sources/TelegramEngine/Peers/NotificationSoundList.swift:129-142 | after a transport error or "not modified" the cache is unchanged; after "modified" it is exactly the server's hash with the parsed documents |
| SoundListSync.FetchPlan | submodules/TelegramCore/Sources/TelegramEngine/Peers/NotificationSoundList.swift:130-162 | after a transport error nothing is fetched; otherwise the fetches are exactly the resources of the updated cache's sounds, in list order, and none when the slot is empty |
| SoundListSync.SaveRequest | submodules/TelegramCore/Sources/TelegramEngine/Peers/NotificationSoundList.swift:194 | the save request carries the cloud document's file id, access hash and file reference, with `unsave` false |
| SoundListSync.SaveOutcome | submodules/TelegramCore/Sources/TelegramEngine/Peers/NotificationSoundList.swift:190-201 | a save completes exactly for a cloud document whose save request succeeded; every failure is `generic` |
| SoundListSync.UploadOutcome | submodules/TelegramCore/Sources/TelegramEngine/Peers/NotificationSoundList.swift:208-223 | an upload yields the new sound exactly when the upload and the registration succeed and the returned document parses; otherwise `generic` |
| SoundListSync.UploadRequests | submodules/TelegramCore/Sources/TelegramEngine/Peers/NotificationSoundList.swift:209-216 | the blob upload is issued first, and the `uploadRingtone` request with the title and `audio/mpeg` only after a successful upload |
| SoundListSync.CommitUpload | submodules/TelegramCore/Sources/TelegramEngine/Peers/NotificationSoundList.swift:229-230 | the committed list keeps the cached hash (0 when empty), puts the new sound first and keeps the old sounds after it |
| SoundListSync.ModifiedIgnoresPrior | submodules/TelegramCore/Sources/TelegramEngine/Peers/NotificationSoundList.swift:134-139 | a "modified" reply yields the same cache and the same fetches whatever the cache held before |
| SoundListSync.PollIdempotent | submodules/TelegramCore/Sources/TelegramEngine/Peers/NotificationSoundList.swift:130-142 | polling again with no server change (same reply, "not modified", or an error) leaves the cache as one poll left it |
| SoundListSync.NextTokenAfterReply | submodules/TelegramCore/Sources/TelegramEngine/Peers/NotificationSoundList.swift:123-141 | after a "modified" reply the next poll sends the server's new hash; after "not modified" it sends the same token again |
| SoundListSync.ModifiedSupersedesUpload | submodules/TelegramCore/Sources/TelegramEngine/Peers/NotificationSoundList.swift:134-139 | a later "modified" poll replaces the optimistic commit entirely |
| SoundListSync.NotModifiedAfterUploadFetchesItFirst | submodules/TelegramCore/Sources/TelegramEngine/Peers/NotificationSoundList.swift:146-161 | after an upload, a "not modified" poll fetches the new sound's resource first, then those of the sounds cached before |
| SoundListStore.CollectResources | submodules/TelegramCore/Sources/TelegramEngine/Peers/NotificationSoundList.swift:147-151 | the collected resources are the sounds' resources, one per sound, in order |
| SoundListStore.SoundStore.CachedList | submodules/TelegramCore/Sources/TelegramEngine/Peers/NotificationSoundList.swift:104-111 | reading the slot returns the cached list, or `nil` when there is none |
| SoundListStore.SoundStore.SetCachedList | submodules/TelegramCore/Sources/TelegramEngine/Peers/NotificationSoundList.swift:113-117 | writing the slot replaces its whole content with the given list |
| SoundListStore.SoundStore.FetchResource | submodules/TelegramCore/Sources/TelegramEngine/Peers/NotificationSoundList.swift:155-159 | a fetch is recorded whatever its outcome, and its failure is swallowed |
| SoundListStore.SoundStore.RequestFetches | submodules/TelegramCore/Sources/TelegramEngine/Peers/NotificationSoundList.swift:153-161 | one fetch is requested per resource, in order, whatever each fetch returns |
| SoundListStore.SoundStore.Poll | submodules/TelegramCore/Sources/TelegramEngine/Peers/NotificationSoundList.swift:119-175 | the request carries the cached hash (0 when empty); the new cache is `CacheAfter`; the fetches appended are `FetchPlan`, for any fetch outcomes |
| SoundListStore.SoundStore.SaveSound | submodules/TelegramCore/Sources/TelegramEngine/Peers/NotificationSoundList.swift:190-202 | a non-cloud file fails with no request and no change; a failed save sends only the save request; a successful one then runs one poll pass |
| SoundListStore.SoundStore.UploadSound | submodules/TelegramCore/Sources/TelegramEngine/Peers/NotificationSoundList.swift:208-241 | on success the bytes are stored under the new file's resource id and the cache becomes `CommitUpload`; any failure leaves cache and store unchanged |

## Left out

- managedSynchronizeNotificationSoundList (`:177-188`): the one-hour suspend-aware delay and the restart-on-failure supervisor are timing only, with no effect on the data.
- The reactive plumbing (`mapToSignal`, `switchToLatest`, `combineLatest`): each operation is modelled as one sequence of steps over given outcomes. The `.never()` returned for non-final multipart-upload states (`:237-238`) is left out; the upload outcome parameter is the final one.
- Concurrency: a poll and uploads each read and write the cache in separate transactions, and these can interleave. Each operation is modelled as atomic.
- The Codable encoding and decoding (`:27-38`, `:67-79`) depend on Postbox's encoder, which is not part of this model. The `CodableEntry` conversion (`:114`) is assumed to succeed, so a put always writes.
- The cache key (`:97-102`) and the collection's water marks (`:115`): the model has exactly one slot, so neither has an observable effect.
- `_internal_cachedNotificationSoundList(postbox:)` (`:91-95`) is the same read inside its own transaction; `CachedList` covers it.
- Foreign collaborators are parameters: `telegramMediaFileFromApiDocument` (`parse`), `network.request`, `multipartUpload` and `fetchedMediaResource` (their outcomes). The core itself fixes the multipart upload options at `:209` (`encrypt: false`, `forceNoBigParts: true`, `useCompression: false`); the model does not record them.
- What a successful fetch writes into the media store is that subsystem's business. `stored` records only the core's own synchronous write of uploaded bytes.
- SoundEquals: TelegramMediaFile's own `==` is not part of this model, so file equality is taken as structural.
