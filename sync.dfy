/** The cache transitions of one poll pass, one save and one upload, as pure
    functions of the prior cache slot and the outcomes of the external calls,
    with the properties the synchronisation promises. */
module SoundListSync {
  import opened Wrappers
  import opened NotificationSounds

  /** A failure reported by the transport or by the server. */
  datatype RequestError = RequestError(code: int, description: string)

  /** The error every failing mutation reports. */
  datatype UploadNotificationSoundError = Generic

  /** The handle the multipart upload subsystem returns for an uploaded blob. */
  datatype InputFile = InputFile(id: Int64, parts: nat, name: string)

  /** The two answers of `account.getSavedRingtones`. */
  datatype SavedRingtones =
    | SavedRingtonesNotModified
    | SavedRingtones(hash: Int64, ringtones: seq<Document>)

  /** What the core asks of the network, in the order it asks. */
  datatype Request =
    | GetSavedRingtones(hash: Int64)
    | SaveRingtone(fileId: Int64, accessHash: Int64, fileReference: Bytes, unsave: bool)
    | UploadFileParts(data: Bytes)
    | UploadRingtone(file: InputFile, fileName: string, mimeType: string)

  /** The mime type every uploaded ringtone is registered with. */
  const AudioMpeg: string := "audio/mpeg"

  /** The list assumed when the cache slot is empty. */
  const EmptyList: SoundList := SoundList(0, [])

  /** `current?.hash ?? 0`: the if-changed-since token a poll sends. */
  function Token(cached: Option<SoundList>): (r: Int64)
    ensures cached.None? ==> r == 0
    ensures cached.Some? ==> r == cached.value.hash
  {
    match cached
    case Some(list) => list.hash
    case None => 0
  }

  /** The `catch` that turns a failed request into `nil`. */
  function Caught(reply: Result<SavedRingtones, RequestError>): (r: Option<SavedRingtones>)
    ensures r.None? <==> reply.Failure?
    ensures reply.Success? ==> r.value == reply.value
  {
    match reply
    case Success(v) => Some(v)
    case Failure(_) => None
  }

  /** The cache slot after one poll pass. */
  function CacheAfter(prior: Option<SoundList>, reply: Result<SavedRingtones, RequestError>, parse: Document -> Option<File>): (r: Option<SoundList>)
    ensures reply.Failure? ==> r == prior
    ensures reply == Success(SavedRingtonesNotModified) ==> r == prior
    ensures reply.Success? && reply.value.SavedRingtones? ==>
              r == Some(SoundList(reply.value.hash, ParseSounds(reply.value.ringtones, parse)))
  {
    match Caught(reply)
    case None => prior
    case Some(SavedRingtonesNotModified) => prior
    case Some(SavedRingtones(hash, ringtones)) => Some(SoundList(hash, ParseSounds(ringtones, parse)))
  }

  /** The resources of the sounds in a cache slot, in list order. */
  function CachedResources(cached: Option<SoundList>): (r: seq<Resource>)
    ensures cached.None? ==> r == []
    ensures cached.Some? ==> |r| == |cached.value.sounds|
    ensures cached.Some? ==> forall i :: 0 <= i < |r| ==> r[i] == cached.value.sounds[i].file.resource
  {
    match cached
    case None => []
    case Some(list) => seq(|list.sounds|, i requires 0 <= i < |list.sounds| => list.sounds[i].file.resource)
  }

  /** The resource fetches one poll pass requests: none after a transport error,
      otherwise exactly the resources of the updated cache, in order. */
  function FetchPlan(prior: Option<SoundList>, reply: Result<SavedRingtones, RequestError>, parse: Document -> Option<File>): (r: seq<Resource>)
    ensures reply.Failure? ==> r == []
    ensures reply.Success? && CacheAfter(prior, reply, parse).None? ==> r == []
    ensures reply.Success? && CacheAfter(prior, reply, parse).Some? ==>
              var sounds := CacheAfter(prior, reply, parse).value.sounds;
              |r| == |sounds| && forall i :: 0 <= i < |r| ==> r[i] == sounds[i].file.resource
  {
    if Caught(reply).None? then [] else CachedResources(CacheAfter(prior, reply, parse))
  }

  /** The precondition of a save: only a cloud-hosted document can be saved. */
  function IsCloudDocument(file: File): (r: bool)
    ensures r ==> file.resource.CloudDocumentResource?
    ensures !r ==> file.resource.OtherResource?
  {
    file.resource.CloudDocumentResource?
  }

  /** The `saveRingtone` request for a cloud document (`unsave` is false). */
  function SaveRequest(file: File): (r: Request)
    requires IsCloudDocument(file)
    ensures r.SaveRingtone? && !r.unsave
    ensures r.fileId == file.resource.fileId && r.accessHash == file.resource.accessHash
    ensures r.fileReference == file.resource.fileReference
  {
    SaveRingtone(file.resource.fileId, file.resource.accessHash, file.resource.fileReference, false)
  }

  /** What a save reports: it completes only for a cloud document whose save
      request succeeded; every failure is `Generic`. */
  function SaveOutcome(file: File, save: Result<(), RequestError>): (r: Outcome<UploadNotificationSoundError>)
    ensures r.Pass? <==> IsCloudDocument(file) && save.Success?
    ensures r.Fail? ==> r.error == Generic
  {
    if !IsCloudDocument(file) then Fail(Generic)
    else match save
      case Failure(_) => Fail(Generic)
      case Success(_) => Pass
  }

  /** What an upload reports: the new sound exactly when the blob upload and the
      registration succeeded and the returned document parsed; otherwise `Generic`. */
  function UploadOutcome(upload: Result<InputFile, RequestError>, register: Result<Document, RequestError>,
                         parse: Document -> Option<File>): (r: Result<Sound, UploadNotificationSoundError>)
    ensures r.Success? <==> upload.Success? && register.Success? && parse(register.value).Some?
    ensures r.Success? ==> r.value == Sound(parse(register.value).value)
    ensures r.Failure? ==> r.error == Generic
  {
    match upload
    case Failure(_) => Failure(Generic)
    case Success(_) =>
      match register
      case Failure(_) => Failure(Generic)
      case Success(doc) =>
        match parse(doc)
        case None => Failure(Generic)
        case Some(file) => Success(Sound(file))
  }

  /** The requests an upload issues: the blob upload, then the registration once
      the blob is uploaded. */
  function UploadRequests(title: string, data: Bytes, upload: Result<InputFile, RequestError>): (r: seq<Request>)
    ensures |r| >= 1 && r[0] == UploadFileParts(data)
    ensures upload.Failure? ==> |r| == 1
    ensures upload.Success? ==> r == [UploadFileParts(data), UploadRingtone(upload.value, title, AudioMpeg)]
  {
    match upload
    case Failure(_) => [UploadFileParts(data)]
    case Success(handle) => [UploadFileParts(data), UploadRingtone(handle, title, AudioMpeg)]
  }

  /** The optimistic commit of an upload: the cached list, or the empty list at
      hash 0, with the new sound in front and the hash kept. */
  function CommitUpload(prior: Option<SoundList>, item: Sound): (r: SoundList)
    ensures r.hash == Token(prior)
    ensures |r.sounds| == |prior.GetOr(EmptyList).sounds| + 1
    ensures r.sounds[0] == item
    ensures r.sounds[1..] == prior.GetOr(EmptyList).sounds
  {
    var list := prior.GetOr(EmptyList);
    SoundList(list.hash, [item] + list.sounds)
  }

  // ---- Properties of a poll pass ----

  /** A "modified" reply overwrites the cache whatever it held before. */
  lemma ModifiedIgnoresPrior(p1: Option<SoundList>, p2: Option<SoundList>, hash: Int64, docs: seq<Document>, parse: Document -> Option<File>)
    ensures CacheAfter(p1, Success(SavedRingtones(hash, docs)), parse) == CacheAfter(p2, Success(SavedRingtones(hash, docs)), parse)
    ensures FetchPlan(p1, Success(SavedRingtones(hash, docs)), parse) == FetchPlan(p2, Success(SavedRingtones(hash, docs)), parse)
  {
  }

  /** Polling again with no server-side change (the server answers "not
      modified", repeats its answer, or cannot be reached) leaves the cache as
      one poll left it. */
  lemma PollIdempotent(prior: Option<SoundList>, reply: Result<SavedRingtones, RequestError>,
                       again: Result<SavedRingtones, RequestError>, parse: Document -> Option<File>)
    requires again == reply || again == Success(SavedRingtonesNotModified) || again.Failure?
    ensures CacheAfter(CacheAfter(prior, reply, parse), again, parse) == CacheAfter(prior, reply, parse)
  {
  }

  /** After a poll that reached the server, the next poll's token is the hash
      that poll stored on "modified", or the one that was cached on "not modified". */
  lemma NextTokenAfterReply(prior: Option<SoundList>, hash: Int64, docs: seq<Document>, parse: Document -> Option<File>)
    ensures Token(CacheAfter(prior, Success(SavedRingtones(hash, docs)), parse)) == hash
    ensures Token(CacheAfter(prior, Success(SavedRingtonesNotModified), parse)) == Token(prior)
  {
  }

  // ---- Properties of an upload ----

  /** A later "modified" poll supersedes the optimistic commit entirely. */
  lemma ModifiedSupersedesUpload(prior: Option<SoundList>, item: Sound, hash: Int64, docs: seq<Document>, parse: Document -> Option<File>)
    ensures CacheAfter(Some(CommitUpload(prior, item)), Success(SavedRingtones(hash, docs)), parse)
         == CacheAfter(prior, Success(SavedRingtones(hash, docs)), parse)
  {
  }

  /** A later "not modified" poll keeps the uploaded sound in front and asks
      for its resource first, then for those of the sounds that were cached. */
  lemma NotModifiedAfterUploadFetchesItFirst(prior: Option<SoundList>, item: Sound, parse: Document -> Option<File>)
    ensures FetchPlan(Some(CommitUpload(prior, item)), Success(SavedRingtonesNotModified), parse)
         == [item.file.resource] + CachedResources(Some(prior.GetOr(EmptyList)))
  {
    var committed := CommitUpload(prior, item);
    var before := prior.GetOr(EmptyList).sounds;
    var plan := CachedResources(Some(committed));
    var rest := CachedResources(Some(prior.GetOr(EmptyList)));
    assert FetchPlan(Some(committed), Success(SavedRingtonesNotModified), parse) == plan;
    assert |plan| == |rest| + 1;
    forall i | 0 <= i < |plan| ensures plan[i] == ([item.file.resource] + rest)[i] {
      if i > 0 {
        assert committed.sounds[i] == committed.sounds[1..][i - 1] == before[i - 1];
        assert rest[i - 1] == before[i - 1].file.resource;
      } else {
        assert committed.sounds[0] == item;
      }
    }
  }

}
