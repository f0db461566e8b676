/**
 * The check upload flow: create an Incoming check record, store the image under a path made
 * from the record id and a fresh token, then merge the image URL and a placeholder sender name
 * into the record. The fresh token, the record id chosen by the store, the server timestamp
 * and the download URL are parameters; a failing step is named by `fault`.
 */
module UploadCheck {
  import opened Wrappers
  import opened Records
  import opened Actions

  // String helpers

  /** JavaScript `indexOf` for one character: the first position of `c`, or -1. */
  function IndexOf(s: string, c: char): (r: int)
    ensures -1 <= r < |s|
    ensures r == -1 <==> c !in s
    ensures r >= 0 ==> s[r] == c && c !in s[..r]
  {
    if |s| == 0 then -1
    else if s[0] == c then 0
    else
      var k := IndexOf(s[1..], c);
      assert s[1..][..if k < 0 then 0 else k] == s[1..if k < 0 then 1 else k + 1];
      if k == -1 then -1 else k + 1
  }

  /** A position holding `c` with no `c` before it is what `IndexOf` finds. */
  lemma IndexOfFirst(s: string, c: char, i: nat)
    requires i < |s| && s[i] == c && c !in s[..i]
    ensures IndexOf(s, c) == i
  {
  }

  /**
   * The base64 payload of a data URI: everything after the first comma, or the whole text
   * when there is no comma (`substring(indexOf(',') + 1)`).
   */
  function StripDataUriPrefix(uri: string): (payload: string)
    ensures ',' !in uri ==> payload == uri
    ensures ',' in uri ==>
      var k := |uri| - |payload|;
      0 < k && uri[k - 1] == ',' && ',' !in uri[..k - 1]
    ensures uri == uri[..|uri| - |payload|] + payload
  {
    uri[IndexOf(uri, ',') + 1..]
  }

  /** When the header holds no comma, stripping gives back exactly the payload after it. */
  lemma StripDataUriPrefixRoundTrip(header: string, payload: string)
    requires ',' !in header
    ensures StripDataUriPrefix(header + "," + payload) == payload
  {
    var uri := header + "," + payload;
    assert uri[..|header|] == header;
    IndexOfFirst(uri, ',', |header|);
    assert uri[|header| + 1..] == payload;
  }

  const StoragePrefix := "checks/"
  const ImageExtension := ".jpg"

  /** Where the image of record `docId` is stored: `checks/<docId>/<token>.jpg`. */
  function StoragePath(docId: string, token: string): string {
    StoragePrefix + docId + "/" + token + ImageExtension
  }

  /** The rest of `s` after the prefix `p`, if `s` starts with it. */
  function StripPrefix(s: string, p: string): (r: Option<string>)
    ensures r.Some? <==> p <= s
    ensures r.Some? ==> s == p + r.value
  {
    if p <= s then
      assert s == s[..|p|] + s[|p|..];
      Some(s[|p|..])
    else None
  }

  /** The part of `s` before the suffix `x`, if `s` ends with it. */
  function StripSuffix(s: string, x: string): (r: Option<string>)
    ensures r.Some? <==> |x| <= |s| && s[|s| - |x|..] == x
    ensures r.Some? ==> s == r.value + x
  {
    if |x| <= |s| && s[|s| - |x|..] == x then
      assert s == s[..|s| - |x|] + s[|s| - |x|..];
      Some(s[..|s| - |x|])
    else None
  }

  /** `s` cut at its first `c`: the text before it (free of `c`) and the text after it. */
  function SplitAtFirst(s: string, c: char): (r: Option<(string, string)>)
    ensures r.Some? <==> c in s
    ensures r.Some? ==> c !in r.value.0 && s == r.value.0 + [c] + r.value.1
  {
    var k := IndexOf(s, c);
    if k < 0 then None
    else
      assert s == s[..k] + [s[k]] + s[k + 1..];
      Some((s[..k], s[k + 1..]))
  }

  /** Substituting the pieces of a split path back gives the path. */
  lemma PathPiecesJoin(path: string, prefix: string, rest: string, docId: string, tail: string, token: string, ext: string)
    requires path == prefix + rest && rest == docId + "/" + tail && tail == token + ext
    ensures path == prefix + docId + "/" + token + ext
  {
  }

  /** Reads the record id and token back out of a storage path. */
  function ParseStoragePath(path: string): (r: Option<(string, string)>)
    ensures r.Some? ==> '/' !in r.value.0 && path == StoragePath(r.value.0, r.value.1)
  {
    match StripPrefix(path, StoragePrefix)
    case None => None
    case Some(rest) =>
      match SplitAtFirst(rest, '/')
      case None => None
      case Some((docId, tail)) =>
        match StripSuffix(tail, ImageExtension)
        case None => None
        case Some(token) =>
          PathPiecesJoin(path, StoragePrefix, rest, docId, tail, token, ImageExtension);
          Some((docId, token))
  }

  /** A record id without '/' (as store-generated ids are) is recovered from its storage path. */
  lemma StoragePathRoundTrip(docId: string, token: string)
    requires '/' !in docId
    ensures ParseStoragePath(StoragePath(docId, token)) == Some((docId, token))
  {
    var rest := docId + "/" + token + ImageExtension;
    var path := StoragePath(docId, token);
    assert path == StoragePrefix + rest;
    assert StripPrefix(path, StoragePrefix) == Some(rest) by {
      assert StoragePrefix <= path;
      assert path[|StoragePrefix|..] == rest;
    }
    var tail := token + ImageExtension;
    assert rest == docId + ['/'] + tail;
    assert rest[..|docId|] == docId;
    IndexOfFirst(rest, '/', |docId|);
    assert SplitAtFirst(rest, '/') == Some((docId, tail)) by {
      assert rest[|docId| + 1..] == tail;
    }
    assert StripSuffix(tail, ImageExtension) == Some(token) by {
      assert tail[|tail| - |ImageExtension|..] == ImageExtension;
      assert tail[..|tail| - |ImageExtension|] == token;
    }
  }

  /** Different records (or tokens) never share a storage path. */
  lemma StoragePathInjective(d1: string, t1: string, d2: string, t2: string)
    requires '/' !in d1 && '/' !in d2
    requires StoragePath(d1, t1) == StoragePath(d2, t2)
    ensures d1 == d2 && t1 == t2
  {
    StoragePathRoundTrip(d1, t1);
    StoragePathRoundTrip(d2, t2);
  }

  const PlaceholderPrefix := "Uploaded Check "

  /** `Uploaded Check ${id.substring(0, 4)}`: the prefix followed by at most four leading characters of the id. */
  function PlaceholderName(docId: string): (name: string)
    ensures |name| >= |PlaceholderPrefix| && name[..|PlaceholderPrefix|] == PlaceholderPrefix
    ensures var tag := name[|PlaceholderPrefix|..];
      tag <= docId && |tag| == (if |docId| < 4 then |docId| else 4)
  {
    PlaceholderPrefix + docId[..if |docId| < 4 then |docId| else 4]
  }

  // Records written by the flow

  /** The record created before the upload: Incoming, sender "Unknown", nothing mapped or suggested. */
  function InitialCheck(docId: string, token: string, now: Timestamp): Check {
    Check(
      id := docId,
      checkId := token,
      senderName := "Unknown",
      status := Incoming,
      mappedTenantId := None,
      isSuggestion := false,
      suggestionReason := None,
      mappingConfidence := None,
      imageUrl := None,
      createdAt := Some(now))
  }

  /** The merge-update after the upload: only the image URL and the sender name are written. */
  function WithImage(c: Check, url: string): Check {
    c.(imageUrl := Some(url), senderName := PlaceholderName(c.id))
  }

  /** A check nobody has resolved yet: Incoming, no tenant, no suggestion and no confidence. */
  predicate Unresolved(c: Check) {
    c.status == Incoming && c.mappedTenantId.None? && !c.isSuggestion &&
    c.suggestionReason.None? && c.mappingConfidence.None?
  }

  /** Both records the flow writes are unresolved, and the second keeps the id, token and timestamp. */
  lemma UploadLeavesCheckUnresolved(docId: string, token: string, now: Timestamp, url: string)
    ensures Unresolved(InitialCheck(docId, token, now))
    ensures var c := WithImage(InitialCheck(docId, token, now), url);
      Unresolved(c) && c.id == docId && c.checkId == token && c.createdAt == Some(now) &&
      c.imageUrl == Some(url) && c.senderName == PlaceholderName(docId)
  {
  }

  // Blob store

  /**
   * A stored object, represented by the base64 text handed to the upload (the store decodes it
   * to bytes) and its content type.
   */
  datatype Blob = Blob(base64Data: string, contentType: string)

  const JpegContentType := "image/jpeg"

  class BlobStorage {
    var blobs: map<string, Blob>

    constructor ()
      ensures blobs == map[]
    {
      blobs := map[];
    }
  }

  /** The step whose awaited call throws; the flow has no handler, so the error escapes. */
  datatype UploadFault = NoFault | AddDocFails | UploadFails | DownloadUrlFails | UpdateDocFails

  /** `{checkId}`: the id of the created record in `checks`. */
  datatype UploadCheckOutput = UploadCheckOutput(checkId: string)

  /**
   * Runs the flow. On success the result is the record id (not the token stored as the record's
   * `checkId`). A failure after the first write leaves what was written in place: nothing is rolled back.
   */
  method UploadCheckFlow(
    db: Database, storage: BlobStorage, photoDataUri: string,
    token: string, docId: string, now: Timestamp, downloadUrl: string, fault: UploadFault)
    returns (r: Result<UploadCheckOutput, UploadFault>)
    requires db.Valid() && docId !in db.checks
    modifies db, storage
    ensures db.Valid()
    ensures db.tenants == old(db.tenants) && db.mappings == old(db.mappings)
    ensures r == if fault == NoFault then Success(UploadCheckOutput(docId)) else Failure(fault)
    ensures db.checks == match fault
      case AddDocFails => old(db.checks)
      case UploadFails | DownloadUrlFails | UpdateDocFails => old(db.checks)[docId := InitialCheck(docId, token, now)]
      case NoFault => old(db.checks)[docId := WithImage(InitialCheck(docId, token, now), downloadUrl)]
    ensures storage.blobs == if fault in {AddDocFails, UploadFails} then old(storage.blobs)
      else old(storage.blobs)[StoragePath(docId, token) := Blob(StripDataUriPrefix(photoDataUri), JpegContentType)]
  {
    // 1. create the record
    if fault == AddDocFails {
      return Failure(AddDocFails);
    }
    db.checks := db.checks[docId := InitialCheck(docId, token, now)];

    // 2. upload the image
    var path := StoragePath(docId, token);
    var payload := StripDataUriPrefix(photoDataUri);
    if fault == UploadFails {
      return Failure(UploadFails);
    }
    storage.blobs := storage.blobs[path := Blob(payload, JpegContentType)];

    // 3. the download URL
    if fault == DownloadUrlFails {
      return Failure(DownloadUrlFails);
    }

    // 4. merge the image URL and the placeholder name into the record
    if fault == UpdateDocFails {
      return Failure(UpdateDocFails);
    }
    db.checks := db.checks[docId := WithImage(db.checks[docId], downloadUrl)];
    r := Success(UploadCheckOutput(docId));
  }
}
