/** Getting a WhatsApp media id for a url: the cached id for the url without its query
  * string when the cache is used and holds one; otherwise the media is downloaded, refused
  * when it is a web page or plain text, uploaded under the Meta media type its MIME type maps
  * to, and the new id cached for thirty days. Any failure gives no id instead of an error.
  *
  * The download, the upload and the clock are parameters; the cache is a map. */
module MediaUpload {
  import opened Text

  /** `s.split(sep)[0]`: the part of `s` before the first `sep`. */
  lemma {:induction false} FirstPiece(s: string, sep: char)
    ensures var p := Split(s, sep)[0];
            && |p| <= |s| && p == s[..|p|] && sep !in p
            && (|p| < |s| ==> s[|p|] == sep)
    decreases |s|
  {
    if |s| > 0 && s[0] != sep {
      FirstPiece(s[1..], sep);
      var rest := Split(s[1..], sep);
      assert Split(s, sep)[0] == [s[0]] + rest[0];
      assert s == [s[0]] + s[1..];
    }
  }

  /** A string without `sep` splits into itself alone. */
  lemma {:induction false} SplitWithoutSeparator(s: string, sep: char)
    requires sep !in s
    ensures Split(s, sep) == [s]
    decreases |s|
  {
    if |s| > 0 {
      assert sep !in s[1..] by {
        forall i | 0 <= i < |s[1..]| ensures s[1..][i] != sep {
          assert s[1..][i] == s[i + 1];
        }
      }
      SplitWithoutSeparator(s[1..], sep);
      assert [s[0]] + s[1..] == s;
    }
  }

  /** `url.split("?")[0]`: the url up to its first "?". */
  function CacheUrl(url: string): (r: string)
    ensures '?' !in r && |r| <= |url| && r == url[..|r|]
    ensures |r| < |url| ==> url[|r|] == '?'
  {
    FirstPiece(url, '?');
    Split(url, '?')[0]
  }

  /** Stripping the query twice strips nothing more, and a url without a query is its own key. */
  lemma CacheUrlIdempotent(url: string)
    ensures CacheUrl(CacheUrl(url)) == CacheUrl(url)
    ensures '?' !in url ==> CacheUrl(url) == url
  {
    SplitWithoutSeparator(CacheUrl(url), '?');
    if '?' !in url {
      SplitWithoutSeparator(url, '?');
    }
  }

  /** Every query string of the same url shares one cache entry. */
  lemma QueryDoesNotChangeCacheUrl(base: string, query: string)
    requires '?' !in base
    ensures CacheUrl(base + "?" + query) == base
  {
    SplitAppend(base, '?', query);
    SplitWithoutSeparator(base, '?');
    assert base + "?" + query == base + ['?'] + query;
  }

  datatype ChatProvider = Dialog360 | WhatsApp

  /** "360dialog" credentials use the 360dialog provider; any other credentials WhatsApp. */
  function ProviderOf(credentialsProvider: string): (p: ChatProvider)
    ensures p.Dialog360? <==> credentialsProvider == "360dialog"
  {
    if credentialsProvider == "360dialog" then Dialog360 else WhatsApp
  }

  datatype MetaMediaType = Sticker | Image | Video | Audio | Document

  /** The Meta media type of a MIME type: webp is a sticker before anything else, then
    * image, video and audio, and a document otherwise. */
  function GetMetaMediaType(mime: string): (t: MetaMediaType)
  {
    if Contains(mime, "webp") then Sticker
    else if Contains(mime, "image") then Image
    else if Contains(mime, "video") then Video
    else if Contains(mime, "audio") then Audio
    else Document
  }

  /** `s.includes(sub)` holds when `sub` occurs at position `i`. */
  lemma {:induction false} ContainsAt(s: string, sub: string, i: nat)
    requires i + |sub| <= |s| && s[i..i + |sub|] == sub
    ensures Contains(s, sub)
    decreases i
  {
    if i > 0 {
      assert s[1..][i - 1..i - 1 + |sub|] == s[i..i + |sub|];
      ContainsAt(s[1..], sub, i - 1);
    }
  }

  /** `s.includes(sub)` fails when some character of `sub` does not occur in `s`. */
  lemma {:induction false} MissingCharNotContained(s: string, sub: string, k: nat)
    requires k < |sub| && sub[k] !in s
    ensures !Contains(s, sub)
    decreases |s|
  {
    if |sub| <= |s| {
      assert s[..|sub|][k] == s[k] != sub[k];
    }
    if |s| > 0 {
      assert sub[k] !in s[1..] by {
        forall i | 0 <= i < |s[1..]| ensures s[1..][i] != sub[k] {
          assert s[1..][i] == s[i + 1];
        }
      }
      MissingCharNotContained(s[1..], sub, k);
    }
  }

  const DefaultMime: string := "application/octet-stream"

  /** A webp image is a sticker, although its MIME type names an image. */
  lemma WebpIsASticker()
    ensures GetMetaMediaType("image/webp") == Sticker
  {
    ContainsAt("image/webp", "webp", 6);
  }

  /** Another image type is an image. */
  lemma PngIsAnImage()
    ensures GetMetaMediaType("image/png") == Image
  {
    MissingCharNotContained("image/png", "webp", 0);
    ContainsAt("image/png", "image", 0);
  }

  /** application/octet-stream names no image: it has no "g". */
  lemma DefaultMimeNamesNoImage()
    ensures !Contains(DefaultMime, "image")
  {
    MissingCharNotContained(DefaultMime, "image", 3);
  }

  /** application/octet-stream names no video: it has no "v". */
  lemma DefaultMimeNamesNoVideo()
    ensures !Contains(DefaultMime, "video")
  {
    MissingCharNotContained(DefaultMime, "video", 0);
  }

  /** application/octet-stream names no audio: it has no "u". */
  lemma DefaultMimeNamesNoAudio()
    ensures !Contains(DefaultMime, "audio")
  {
    MissingCharNotContained(DefaultMime, "audio", 1);
  }

  /** A missing content type, read as application/octet-stream, makes a document. */
  lemma DefaultMimeIsADocument()
    ensures GetMetaMediaType(DefaultMime) == Document
  {
    MissingCharNotContained(DefaultMime, "webp", 0);
    DefaultMimeNamesNoImage();
    DefaultMimeNamesNoVideo();
    DefaultMimeNamesNoAudio();
  }

  /** Content that is a web page or plain text is refused. */
  predicate IsRejectedMime(mime: string)
  {
    Contains(mime, "text/html") || Contains(mime, "text/plain")
  }

  /** What the upload is asked to store. */
  datatype UploadRequest = UploadRequest(provider: ChatProvider, mediaType: MetaMediaType, fileName: string, mimeType: string)

  /** `media.${mimeType.split("/")[1]}`; without a "/" the extension reads "undefined". */
  function UploadFileName(mime: string): (r: string)
    ensures StartsWith(r, "media.")
  {
    var parts := Split(mime, '/');
    "media." + (if |parts| >= 2 then parts[1] else "undefined")
  }

  /** The cache configuration of a call. */
  datatype UploadMediaCache = UploadMediaCache(credentialsProvider: string, publicTypebotId: string, skipCache: bool)

  datatype CacheKey = CacheKey(url: string, provider: ChatProvider, publicTypebotId: string)
  datatype CacheEntry = CacheEntry(mediaId: string, expiresAt: int)
  type MediaCacheTable = map<CacheKey, CacheEntry>

  const CacheLifetimeMs: int := 1000 * 60 * 60 * 24 * 30

  function KeyOf(url: string, cache: UploadMediaCache): (k: CacheKey)
    ensures '?' !in k.url
  {
    CacheKey(CacheUrl(url), ProviderOf(cache.credentialsProvider), cache.publicTypebotId)
  }

  /** A cache lookup: the stored id when there is one and it is not empty. */
  function CachedId(table: MediaCacheTable, key: CacheKey): Option<string>
  {
    if key in table && table[key].mediaId != "" then Some(table[key].mediaId) else None
  }

  /** The downloaded response: its content-type header, if any. `None` from the download
    * is a failed request. */
  datatype Download = Download(contentType: Option<string>)

  datatype Outcome = Outcome(mediaId: Option<string>, table: MediaCacheTable)

  /** `getOrUploadMedia`: the cached id on a hit; otherwise download, refuse web pages and
    * plain text, upload, and cache the new id unless the cache is skipped. Any failure gives
    * no id and leaves the cache as it was. */
  function GetOrUploadMedia(url: string, cache: UploadMediaCache, table: MediaCacheTable, now: int,
                            download: string -> Option<Download>, upload: UploadRequest -> Option<string>): (r: Outcome)
    ensures r.mediaId.None? ==> r.table == table
    ensures r.table != table ==>
              && !cache.skipCache && r.mediaId.Some?
              && r.table == table[KeyOf(url, cache) := CacheEntry(r.mediaId.value, now + CacheLifetimeMs)]
  {
    var key := KeyOf(url, cache);
    if !cache.skipCache && CachedId(table, key).Some? then Outcome(CachedId(table, key), table)
    else
      var response := download(url);
      if response.None? then Outcome(None, table)
      else
        var mime := if response.value.contentType.Some? then response.value.contentType.value else DefaultMime;
        if IsRejectedMime(mime) then Outcome(None, table)
        else
          var request := UploadRequest(key.provider, GetMetaMediaType(mime), UploadFileName(mime), mime);
          var id := upload(request);
          if id.None? then Outcome(None, table)
          else if cache.skipCache then Outcome(id, table)
          else Outcome(id, table[key := CacheEntry(id.value, now + CacheLifetimeMs)])
  }

  /** A cache hit answers without downloading or uploading: the result does not depend on
    * either. */
  lemma CacheHitSkipsNetwork(url: string, cache: UploadMediaCache, table: MediaCacheTable, now: int,
                             d1: string -> Option<Download>, u1: UploadRequest -> Option<string>,
                             d2: string -> Option<Download>, u2: UploadRequest -> Option<string>)
    requires !cache.skipCache && CachedId(table, KeyOf(url, cache)).Some?
    ensures GetOrUploadMedia(url, cache, table, now, d1, u1) == GetOrUploadMedia(url, cache, table, now, d2, u2)
    ensures GetOrUploadMedia(url, cache, table, now, d1, u1).mediaId == CachedId(table, KeyOf(url, cache))
  {
  }

  /** Refused content never reaches the upload, and gives no id. */
  lemma RejectedContentGivesNoId(url: string, cache: UploadMediaCache, table: MediaCacheTable, now: int,
                                 download: string -> Option<Download>, upload: UploadRequest -> Option<string>)
    requires cache.skipCache || CachedId(table, KeyOf(url, cache)).None?
    requires download(url).Some? && download(url).value.contentType.Some?
    requires IsRejectedMime(download(url).value.contentType.value)
    ensures GetOrUploadMedia(url, cache, table, now, download, upload) == Outcome(None, table)
  {
  }

  /** After an upload that gives a non-empty id with the cache in use, the next call for
    * the same url under any query string answers from the cache with that id. */
  lemma UploadedIdIsReused(url: string, query: string, cache: UploadMediaCache, table: MediaCacheTable,
                           now: int, later: int, download: string -> Option<Download>,
                           upload: UploadRequest -> Option<string>,
                           download2: string -> Option<Download>, upload2: UploadRequest -> Option<string>)
    requires '?' !in url && !cache.skipCache
    requires var r := GetOrUploadMedia(url, cache, table, now, download, upload);
             r.mediaId.Some? && r.mediaId.value != ""
    ensures var r := GetOrUploadMedia(url, cache, table, now, download, upload);
            GetOrUploadMedia(url + "?" + query, cache, r.table, later, download2, upload2).mediaId == r.mediaId
  {
    var r := GetOrUploadMedia(url, cache, table, now, download, upload);
    UploadIsCached(url, cache, table, now, download, upload);
    QueryKeepsTheKey(url, query, cache);
    CacheHitSkipsNetwork(url + "?" + query, cache, r.table, later, download2, upload2, download2, upload2);
  }

  /** With the cache in use, a non-empty id is found in the table the call returns. */
  lemma UploadIsCached(url: string, cache: UploadMediaCache, table: MediaCacheTable, now: int,
                       download: string -> Option<Download>, upload: UploadRequest -> Option<string>)
    requires !cache.skipCache
    requires var r := GetOrUploadMedia(url, cache, table, now, download, upload);
             r.mediaId.Some? && r.mediaId.value != ""
    ensures var r := GetOrUploadMedia(url, cache, table, now, download, upload);
            CachedId(r.table, KeyOf(url, cache)) == r.mediaId
  {
  }

  /** A url without a query and the same url with one share their cache key. */
  lemma QueryKeepsTheKey(url: string, query: string, cache: UploadMediaCache)
    requires '?' !in url
    ensures KeyOf(url + "?" + query, cache) == KeyOf(url, cache)
  {
    QueryDoesNotChangeCacheUrl(url, query);
    CacheUrlIdempotent(url);
  }
}
