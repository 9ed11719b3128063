/** The purchase note a post payment carries (backend/src/ppv-payload.ts). */
module PpvPayload {
  import opened Wrappers
  import opened Bytes
  import opened JsonText
  import opened HexText
  import opened SignedTransaction

  const PROTOCOL := Ascii("protocol")
  const VERSION := Ascii("version")
  const TYPE := Ascii("type")
  const POST_ID := Ascii("postId")
  const MEDIA_HASH := Ascii("mediaHash")
  const MEDIA_DIGEST := Ascii("mediaDigest")
  const ALGORITHM := Ascii("algorithm")
  const ENCODING := Ascii("encoding")
  const DIGEST := Ascii("digest")

  const PPV_PROTOCOL := Str(Ascii("kaskama"))
  const PPV_METADATA_VERSION := Number(Ascii("1"))
  const PPV_TYPE := Str(Ascii("post-purchase"))
  const PPV_HASH_ALGORITHM := Str(Ascii("blake3-256"))
  const PPV_HASH_ENCODING := Str(Ascii("hex"))

  // ----- the note -------------------------------------------------------------

  /** 64 hex digits of either case. */
  predicate IsDigest(text: Text) {
    |text| == 64 && forall i :: 0 <= i < 64 ==> IsHexUnit(text[i])
  }

  lemma {:induction false} LowerKeepsDigests(text: Text)
    ensures IsDigest(Lower(text)) <==> IsDigest(text)
    ensures Lower(Lower(text)) == Lower(text)
  {
    LowerKeepsHex(text);
  }

  datatype Note = Note(postId: Text, digest: Text)

  function NoteJson(postId: Text, digest: Text): Json {
    Object([
      Field(PROTOCOL, PPV_PROTOCOL), Field(VERSION, PPV_METADATA_VERSION), Field(TYPE, PPV_TYPE),
      Field(POST_ID, Str(postId)),
      Field(MEDIA_HASH, HashJson(digest))])
  }

  function HashJson(digest: Text): Json {
    Object([Field(ALGORITHM, PPV_HASH_ALGORITHM), Field(ENCODING, PPV_HASH_ENCODING), Field(DIGEST, Str(Lower(digest)))])
  }

  /** `undefined` and `null` are alike to every check below. */
  function Get(v: Json, key: Text): Json {
    if v.Object? then GetOrNull(v, key) else Null
  }

  predicate Truthy(v: Json) {
    match v
    case Null => false
    case Bool(value) => value
    case Number(printed) => printed != Ascii("0")
    case Str(text) => text != []
    case _ => true
  }

  function DigestOf(v: Json): Option<Text> {
    if v.Str? && IsDigest(v.text) then Some(Lower(v.text)) else None
  }

  function ParseMediaHash(v: Json): Option<Text> {
    var hash := Get(v, MEDIA_HASH);
    if Truthy(hash) then
      if Get(hash, ALGORITHM) != PPV_HASH_ALGORITHM || Get(hash, ENCODING) != PPV_HASH_ENCODING then None
      else DigestOf(Get(hash, DIGEST))
    else DigestOf(Get(v, MEDIA_DIGEST))
  }

  function ParseNote(v: Json): Option<Note> {
    if Get(v, PROTOCOL) != PPV_PROTOCOL || Get(v, VERSION) != PPV_METADATA_VERSION || Get(v, TYPE) != PPV_TYPE
       || !Get(v, POST_ID).Str? || Get(v, POST_ID).text == [] then None
    else
      match ParseMediaHash(v)
      case None => None
      case Some(digest) => Some(Note(Get(v, POST_ID).text, digest))
  }

  /** `ppvPayload`; `write` is the platform's JSON and UTF-8 encoder. */
  function NotePayload(write: Json -> Data, postId: Text, digest: Text): Text {
    Hex(write(NoteJson(postId, digest)))
  }

  /** `parsePpvPayload`; `read` is the platform's decoder, None where it throws. */
  function ParsePpvPayload(read: Data -> Option<Json>, payload: Text): Option<Note> {
    if payload == [] || |payload| % 2 != 0 || !(forall i :: 0 <= i < |payload| ==> IsHexUnit(payload[i])) then None
    else
      match read(Unhex(payload))
      case None => None
      case Some(v) => ParseNote(v)
  }

  lemma {:induction false} KeysDiffer()
    ensures PROTOCOL != VERSION && PROTOCOL != TYPE && PROTOCOL != POST_ID && PROTOCOL != MEDIA_HASH
    ensures VERSION != TYPE && VERSION != POST_ID && VERSION != MEDIA_HASH
    ensures TYPE != POST_ID && TYPE != MEDIA_HASH && POST_ID != MEDIA_HASH
    ensures ALGORITHM != ENCODING && ALGORITHM != DIGEST && ENCODING != DIGEST
  {
    AsciiDiffers("protocol", "postId", 1);
    AsciiDiffers("algorithm", "encoding", 0);
    AsciiDiffers("protocol", "version", 0);
    AsciiDiffers("protocol", "type", 0);
    AsciiDiffers("protocol", "mediaHash", 0);
    AsciiDiffers("version", "type", 0);
    AsciiDiffers("version", "postId", 0);
    AsciiDiffers("version", "mediaHash", 0);
    AsciiDiffers("type", "postId", 0);
    AsciiDiffers("type", "mediaHash", 0);
    AsciiDiffers("postId", "mediaHash", 0);
    AsciiDiffers("algorithm", "digest", 0);
    AsciiDiffers("encoding", "digest", 0);
  }

  lemma {:induction false} FieldAt(fields: seq<Field>, i: nat)
    requires i < |fields| && DistinctKeys(fields)
    ensures Get(Object(fields), fields[i].key) == fields[i].value
  {
    assert fields[i].key in Keys(fields);
    if i > 0 {
      KeysCons(fields);
      FieldAt(fields[1..], i - 1);
    }
  }

  lemma {:induction false} NoteKeysDiffer(postId: Text, digest: Text)
    ensures DistinctKeys(NoteJson(postId, digest).fields) && DistinctKeys(HashJson(digest).fields)
  {
    KeysDiffer();
  }

  lemma {:induction false} NoteMembers(postId: Text, digest: Text)
    ensures var v := NoteJson(postId, digest);
            && Get(v, PROTOCOL) == PPV_PROTOCOL && Get(v, VERSION) == PPV_METADATA_VERSION
            && Get(v, TYPE) == PPV_TYPE && Get(v, POST_ID) == Str(postId) && Get(v, MEDIA_HASH) == HashJson(digest)
  {
    NoteKeysDiffer(postId, digest);
    var fields := NoteJson(postId, digest).fields;
    FieldAt(fields, 0);
    FieldAt(fields, 1);
    FieldAt(fields, 2);
    FieldAt(fields, 3);
    FieldAt(fields, 4);
  }

  lemma {:induction false} HashMembers(digest: Text)
    ensures var v := HashJson(digest);
            && Get(v, ALGORITHM) == PPV_HASH_ALGORITHM && Get(v, ENCODING) == PPV_HASH_ENCODING
            && Get(v, DIGEST) == Str(Lower(digest))
  {
    NoteKeysDiffer([], digest);
    var fields := HashJson(digest).fields;
    FieldAt(fields, 0);
    FieldAt(fields, 1);
    FieldAt(fields, 2);
  }

  lemma {:induction false} HashParses(v: Json, digest: Text)
    requires Get(v, MEDIA_HASH) == HashJson(digest)
    ensures ParseMediaHash(v) == if IsDigest(digest) then Some(Lower(digest)) else None
  {
    HashMembers(digest);
    LowerKeepsDigests(digest);
  }

  lemma {:induction false} NoteParses(postId: Text, digest: Text)
    ensures ParseNote(NoteJson(postId, digest)) ==
            if postId != [] && IsDigest(digest) then Some(Note(postId, Lower(digest))) else None
  {
    NoteMembers(postId, digest);
    HashParses(NoteJson(postId, digest), digest);
  }

  lemma {:induction false} PayloadParses(read: Data -> Option<Json>, data: Data, v: Json)
    requires data != [] && read(data) == Some(v)
    ensures ParsePpvPayload(read, Hex(data)) == ParseNote(v)
  {
    HexReadsBack(data);
  }

  /** A written note reads back exactly when it names a post and a real digest. */
  lemma {:induction false} NoteReadsBack(write: Json -> Data, read: Data -> Option<Json>, postId: Text, digest: Text)
    requires read(write(NoteJson(postId, digest))) == Some(NoteJson(postId, digest))
    requires write(NoteJson(postId, digest)) != []
    ensures ParsePpvPayload(read, NotePayload(write, postId, digest)) ==
            if postId != [] && IsDigest(digest) then Some(Note(postId, Lower(digest))) else None
  {
    var v := NoteJson(postId, digest);
    PayloadParses(read, write(v), v);
    NoteParses(postId, digest);
  }

  // ----- what else is a note --------------------------------------------------

  /** What JavaScript takes for false: null, false, zero and the empty text. */
  ghost predicate IsFalsy(v: Json) {
    v == Null || v == Bool(false) || v == Number(Ascii("0")) || v == Str([])
  }

  /** The digest stands under the self-describing hash or, where that is absent or falsy, bare. */
  ghost predicate CarriesDigest(v: Json, text: Text) {
    || (&& !IsFalsy(Get(v, Ascii("mediaHash")))
        && Get(Get(v, Ascii("mediaHash")), Ascii("algorithm")) == Str(Ascii("blake3-256"))
        && Get(Get(v, Ascii("mediaHash")), Ascii("encoding")) == Str(Ascii("hex"))
        && Get(Get(v, Ascii("mediaHash")), Ascii("digest")) == Str(text))
    || (IsFalsy(Get(v, Ascii("mediaHash"))) && Get(v, Ascii("mediaDigest")) == Str(text))
  }

  /** A digest is the hex, in either case, of 32 bytes. */
  lemma {:induction false} DigestsAre(text: Text)
    ensures IsDigest(text) <==> exists bytes: Data :: |bytes| == 32 && Lower(text) == Hex(bytes)
  {
    if IsDigest(text) {
      HexWritesBack(text);
      assert |Unhex(text)| == 32;
    }
    forall bytes: Data | |bytes| == 32 && Lower(text) == Hex(bytes)
      ensures IsDigest(text)
    {
      LowerKeepsHex(text);
      assert forall i :: 0 <= i < 64 ==> Lower(text)[i] == Hex(bytes)[i];
    }
  }

  /** A value is read as a note exactly when it says so, names a post and carries 32 bytes in hex. */
  lemma {:induction false} NotesAre(v: Json, note: Note)
    ensures ParseNote(v) == Some(note) <==>
            && Get(v, Ascii("protocol")) == Str(Ascii("kaskama")) && Get(v, Ascii("version")) == Number(Ascii("1"))
            && Get(v, Ascii("type")) == Str(Ascii("post-purchase"))
            && note.postId != [] && Get(v, Ascii("postId")) == Str(note.postId)
            && exists text, bytes: Data ::
                 CarriesDigest(v, text) && |bytes| == 32 && note.digest == Lower(text) == Hex(bytes)
  {
    MediaHashIs(v);
    if ParseMediaHash(v).Some? {
      var text :| IsDigest(text) && CarriesDigest(v, text) && ParseMediaHash(v).value == Lower(text);
      DigestsAre(text);
      var bytes: Data :| |bytes| == 32 && Lower(text) == Hex(bytes);
    }
    forall text, bytes: Data | CarriesDigest(v, text) && |bytes| == 32 && Lower(text) == Hex(bytes)
      ensures ParseMediaHash(v) == Some(Lower(text))
    {
      DigestsAre(text);
    }
  }

  lemma {:induction false} MediaHashIs(v: Json)
    ensures forall text :: IsDigest(text) && CarriesDigest(v, text) ==> ParseMediaHash(v) == Some(Lower(text))
    ensures ParseMediaHash(v).Some? ==>
              exists text :: IsDigest(text) && CarriesDigest(v, text) && ParseMediaHash(v).value == Lower(text)
  {
    var hash := Get(v, MEDIA_HASH);
    if ParseMediaHash(v).Some? {
      var text := if Truthy(hash) then Get(hash, DIGEST).text else Get(v, MEDIA_DIGEST).text;
      assert IsDigest(text) && CarriesDigest(v, text);
    }
  }
}
