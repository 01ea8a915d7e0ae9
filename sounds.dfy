/** The value types of the notification sound list and the parse of server documents. */
module NotificationSounds {
  import opened Wrappers

  /** Swift's `Int64`, the width of the list's version token. */
  type Int64 = x: int | -0x8000_0000_0000_0000 <= x < 0x8000_0000_0000_0000

  type Bytes = seq<bv8>

  /** The key under which the media store keeps a resource's bytes. */
  datatype ResourceId = ResourceId(value: string)

  /** A media resource: either a document hosted in the cloud, addressed by its
      file id, access hash and file reference, or any other kind of resource. */
  datatype Resource =
    | CloudDocumentResource(id: ResourceId, datacenterId: int, fileId: Int64, accessHash: Int64, fileReference: Bytes)
    | OtherResource(id: ResourceId)

  /** A media file descriptor; of its many attributes only the resource matters here. */
  datatype File = File(fileId: Int64, resource: Resource, mimeType: string)

  /** A raw document as the server sends it; the model does not look inside it. */
  datatype Document = Document(raw: Bytes)

  /** One notification sound; equality is structural, by its file. */
  datatype Sound = Sound(file: File)

  /** The versioned list: the server's hash and the sounds in order. */
  datatype SoundList = SoundList(hash: Int64, sounds: seq<Sound>)

  /** `NotificationSound.==`: two sounds are equal when their files are. */
  function SoundEquals(lhs: Sound, rhs: Sound): (r: bool)
    ensures r <==> lhs == rhs
  {
    lhs.file == rhs.file
  }

  /** Swift's array `==` on sounds: equal counts and pairwise equal elements. */
  function SoundsEqual(lhs: seq<Sound>, rhs: seq<Sound>): (r: bool)
    ensures r <==> lhs == rhs
    decreases |lhs|
  {
    if |lhs| != |rhs| then false
    else if lhs == [] then true
    else SoundEquals(lhs[0], rhs[0]) && SoundsEqual(lhs[1..], rhs[1..])
  }

  /** `NotificationSoundList.==`: equal hashes and equal sound sequences. */
  function ListEquals(lhs: SoundList, rhs: SoundList): (r: bool)
    ensures r <==> lhs == rhs
  {
    if lhs.hash != rhs.hash then false
    else if !SoundsEqual(lhs.sounds, rhs.sounds) then false
    else true
  }

  /** `NotificationSound.init?(apiDocument:)`: a sound exists exactly when the
      document converts to a media file, and it wraps that file. */
  function SoundFromDocument(doc: Document, parse: Document -> Option<File>): (r: Option<Sound>)
    ensures r.Some? <==> parse(doc).Some?
    ensures r.Some? ==> r.value.file == parse(doc).value
  {
    match parse(doc)
    case Some(file) => Some(Sound(file))
    case None => None
  }

  /** `ringtones.compactMap(NotificationSound.init(apiDocument:))`: the sounds of
      the documents that parse, in document order; the others are dropped. */
  function ParseSounds(docs: seq<Document>, parse: Document -> Option<File>): (r: seq<Sound>)
    ensures |r| <= |docs|
    ensures forall s :: s in r ==> exists d :: d in docs && parse(d) == Some(s.file)
    ensures forall d :: d in docs && parse(d).Some? ==> Sound(parse(d).value) in r
    decreases |docs|
  {
    if docs == [] then []
    else
      var rest := ParseSounds(docs[1..], parse);
      assert forall d :: d in docs[1..] ==> d in docs;
      match SoundFromDocument(docs[0], parse)
      case Some(s) => [s] + rest
      case None => rest
  }

  /** Parsing distributes over concatenation: the result keeps document order. */
  lemma {:induction false} ParseSoundsAppend(a: seq<Document>, b: seq<Document>, parse: Document -> Option<File>)
    ensures ParseSounds(a + b, parse) == ParseSounds(a, parse) + ParseSounds(b, parse)
    decreases |a|
  {
    if a != [] {
      assert (a + b)[0] == a[0];
      assert (a + b)[1..] == a[1..] + b;
      ParseSoundsAppend(a[1..], b, parse);
    } else {
      assert a + b == b;
    }
  }

  /** A document that does not parse is dropped without affecting its neighbours. */
  lemma {:induction false} UnparseableDocumentDropped(before: seq<Document>, d: Document, after: seq<Document>, parse: Document -> Option<File>)
    requires parse(d).None?
    ensures ParseSounds(before + [d] + after, parse) == ParseSounds(before, parse) + ParseSounds(after, parse)
  {
    var single := ParseSounds([d] + after, parse);
    assert ([d] + after)[0] == d;
    assert ([d] + after)[1..] == after;
    assert single == ParseSounds(after, parse);
    assert before + [d] + after == before + ([d] + after);
    ParseSoundsAppend(before, [d] + after, parse);
  }

  /** When every document parses, nothing is dropped and the i-th sound wraps
      the i-th document's file. */
  lemma {:induction false} ParseSoundsAllParse(docs: seq<Document>, parse: Document -> Option<File>)
    requires forall d :: d in docs ==> parse(d).Some?
    ensures |ParseSounds(docs, parse)| == |docs|
    ensures forall i :: 0 <= i < |docs| ==> ParseSounds(docs, parse)[i] == Sound(parse(docs[i]).value)
    decreases |docs|
  {
    if docs != [] {
      assert forall d :: d in docs[1..] ==> d in docs;
      ParseSoundsAllParse(docs[1..], parse);
      assert docs[0] in docs;
      var r := ParseSounds(docs, parse);
      assert r == [Sound(parse(docs[0]).value)] + ParseSounds(docs[1..], parse);
      forall i | 0 <= i < |docs| ensures r[i] == Sound(parse(docs[i]).value) {
        if i > 0 {
          assert docs[i] == docs[1..][i - 1];
        }
      }
    }
  }
}
