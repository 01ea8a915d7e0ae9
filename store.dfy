/** The account's cache slot for the notification sound list, the media store
    and the requests the core issues, with the operations that change them. */
module SoundListStore {
  import opened Wrappers
  import opened NotificationSounds
  import opened SoundListSync

  /** The `for sound in sounds { resources.append(sound.file.resource) }` loop of the fan-out. */
  method CollectResources(sounds: seq<Sound>) returns (resources: seq<Resource>)
    ensures |resources| == |sounds|
    ensures forall i :: 0 <= i < |sounds| ==> resources[i] == sounds[i].file.resource
  {
    resources := [];
    for i := 0 to |sounds|
      invariant |resources| == i
      invariant forall k :: 0 <= k < i ==> resources[k] == sounds[k].file.resource
    {
      resources := resources + [sounds[i].file.resource];
    }
  }

  class SoundStore {
    /** The single cache entry under the list's fixed key; `None` means no data. */
    var cached: Option<SoundList>
    /** Bytes the core writes into the media store, by resource id. */
    var stored: map<ResourceId, Bytes>
    /** Every resource fetch requested, in order. */
    var fetchLog: seq<Resource>
    /** Every request sent to the network, in order. */
    var requestLog: seq<Request>

    constructor ()
      ensures cached == None && stored == map[] && fetchLog == [] && requestLog == []
    {
      cached := None;
      stored := map[];
      fetchLog := [];
      requestLog := [];
    }

    /** `_internal_cachedNotificationSoundList(transaction:)`. */
    method CachedList() returns (r: Option<SoundList>)
      ensures r == cached
    {
      r := cached;
    }

    /** `_internal_setCachedNotificationSoundList`: the entry is replaced whole. */
    method SetCachedList(list: SoundList)
      modifies this`cached
      ensures cached == Some(list)
    {
      cached := Some(list);
    }

    /** One `fetchedMediaResource` attempt. Its `outcome` is caught and
        discarded: the attempt completes either way and changes nothing else. */
    method FetchResource(resource: Resource, outcome: Result<(), RequestError>)
      modifies this`fetchLog
      ensures fetchLog == old(fetchLog) + [resource]
    {
      fetchLog := fetchLog + [resource];
    }

    /** The second fan-out loop: one independent fetch per resource. */
    method RequestFetches(resources: seq<Resource>, fetch: Resource -> Result<(), RequestError>)
      modifies this`fetchLog
      ensures fetchLog == old(fetchLog) + resources
    {
      for i := 0 to |resources|
        invariant fetchLog == old(fetchLog) + resources[..i]
      {
        FetchResource(resources[i], fetch(resources[i]));
        assert resources[..i + 1] == resources[..i] + [resources[i]];
      }
    }

    /** `pollNotificationSoundList`: read the cache, ask the server with the
        cached hash, update the cache on a "modified" reply, then fetch the
        resources of the cached sounds. A transport error ends the pass before
        the fan-out. Whatever the fetches return, the cache is as the reply left it. */
    method Poll(reply: Result<SavedRingtones, RequestError>, parse: Document -> Option<File>,
                fetch: Resource -> Result<(), RequestError>)
      modifies this`cached, this`fetchLog, this`requestLog
      ensures requestLog == old(requestLog) + [GetSavedRingtones(Token(old(cached)))]
      ensures cached == CacheAfter(old(cached), reply, parse)
      ensures fetchLog == old(fetchLog) + FetchPlan(old(cached), reply, parse)
    {
      var current := CachedList();
      requestLog := requestLog + [GetSavedRingtones(Token(current))];
      var result := Caught(reply);
      if result.None? {
        return;
      }
      match result.value {
        case SavedRingtones(hash, ringtones) =>
          SetCachedList(SoundList(hash, ParseSounds(ringtones, parse)));
        case SavedRingtonesNotModified =>
      }
      var list := CachedList();
      if list.Some? {
        var resources := CollectResources(list.value.sounds);
        RequestFetches(resources, fetch);
      }
    }

    /** `_internal_saveNotificationSound`: a file that is not a cloud document
        fails at once without a request; otherwise the save request is sent, and
        when it succeeds one poll pass runs. The save itself never writes the cache. */
    method SaveSound(file: File, save: Result<(), RequestError>, reply: Result<SavedRingtones, RequestError>,
                     parse: Document -> Option<File>, fetch: Resource -> Result<(), RequestError>)
      returns (r: Outcome<UploadNotificationSoundError>)
      modifies this`cached, this`fetchLog, this`requestLog
      ensures r == SaveOutcome(file, save)
      ensures !IsCloudDocument(file) ==>
                requestLog == old(requestLog) && cached == old(cached) && fetchLog == old(fetchLog)
      ensures IsCloudDocument(file) && save.Failure? ==>
                requestLog == old(requestLog) + [SaveRequest(file)] && cached == old(cached) && fetchLog == old(fetchLog)
      ensures IsCloudDocument(file) && save.Success? ==>
                && requestLog == old(requestLog) + [SaveRequest(file), GetSavedRingtones(Token(old(cached)))]
                && cached == CacheAfter(old(cached), reply, parse)
                && fetchLog == old(fetchLog) + FetchPlan(old(cached), reply, parse)
    {
      if !file.resource.CloudDocumentResource? {
        return Fail(Generic);
      }
      requestLog := requestLog + [SaveRequest(file)];
      match save
      case Failure(_) =>
        r := Fail(Generic);
      case Success(_) =>
        Poll(reply, parse, fetch);
        r := Pass;
    }

    /** `_internal_uploadNotificationSound`: upload the bytes, register them as a
        ringtone, parse the returned document, then in one transaction store the
        bytes under the new file's resource id and prepend the new sound to the
        cached list (or to the empty list), keeping its hash. Every failure is
        `Generic` and commits nothing. */
    method UploadSound(title: string, data: Bytes, upload: Result<InputFile, RequestError>,
                       register: Result<Document, RequestError>, parse: Document -> Option<File>)
      returns (r: Result<Sound, UploadNotificationSoundError>)
      modifies this`cached, this`stored, this`requestLog
      ensures r == UploadOutcome(upload, register, parse)
      ensures requestLog == old(requestLog) + UploadRequests(title, data, upload)
      ensures r.Failure? ==> cached == old(cached) && stored == old(stored)
      ensures r.Success? ==>
                && stored == old(stored)[r.value.file.resource.id := data]
                && cached == Some(CommitUpload(old(cached), r.value))
    {
      requestLog := requestLog + [UploadFileParts(data)];
      if upload.Failure? {
        return Failure(Generic);
      }
      requestLog := requestLog + [UploadRingtone(upload.value, title, AudioMpeg)];
      if register.Failure? {
        return Failure(Generic);
      }
      var parsed := parse(register.value);
      if parsed.None? {
        return Failure(Generic);
      }
      var file := parsed.value;
      var item := Sound(file);
      stored := stored[file.resource.id := data];
      var current := CachedList();
      var list := current.GetOr(EmptyList);
      SetCachedList(SoundList(list.hash, [item] + list.sounds));
      r := Success(item);
    }
  }

  /** The scenario of an empty cache, a server answering version 7 with two
      documents that parse, and a not-modified reply afterwards. */
  method PollScenario(d1: Document, d2: Document, f1: File, f2: File, fetch: Resource -> Result<(), RequestError>)
    requires d1 != d2
  {
    var parse := (d: Document) => if d == d1 then Some(f1) else if d == d2 then Some(f2) else None;
    var store := new SoundStore();
    store.Poll(Success(SavedRingtones(7, [d1, d2])), parse, fetch);
    assert store.requestLog == [GetSavedRingtones(0)];
    assert parse(d1) == Some(f1) && parse(d2) == Some(f2);
    assert [d1, d2][1..] == [d2] && [d2][1..] == [];
    assert ParseSounds([d1, d2], parse) == [Sound(f1), Sound(f2)];
    assert store.cached == Some(SoundList(7, [Sound(f1), Sound(f2)]));
    assert store.fetchLog == [f1.resource, f2.resource];
    store.Poll(Success(SavedRingtonesNotModified), parse, fetch);
    assert store.requestLog[1] == GetSavedRingtones(7);
    assert store.cached == Some(SoundList(7, [Sound(f1), Sound(f2)]));
  }

  /** The scenario of a cache at version 7 holding [A, B] and an upload of C. */
  method UploadScenario(a: Sound, b: Sound, doc: Document, c: File, handle: InputFile, data: Bytes)
  {
    var store := new SoundStore();
    store.SetCachedList(SoundList(7, [a, b]));
    var parse := (d: Document) => if d == doc then Some(c) else None;
    var r := store.UploadSound("ring", data, Success(handle), Success(doc), parse);
    assert [Sound(c)] + [a, b] == [Sound(c), a, b];
    assert r == Success(Sound(c));
    assert store.cached == Some(SoundList(7, [Sound(c), a, b]));
    assert c.resource.id in store.stored && store.stored[c.resource.id] == data;
  }
}
