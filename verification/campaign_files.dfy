/** Where a campaign's recipient file is stored and how it is found again. With S3
  * configured the upload sanitises the file name, stores the object under
  * `public/campaigns/<workspace>_<timestamp>_<name>` and returns its public url; without S3
  * it returns `/uploads/campaigns/<name>` with the name as given. The download reads the
  * object back by the url's path from its `public` segment on, fetches other http urls, and
  * reads anything else from disk (paths under `/uploads/` from the app's `public` folder).
  *
  * The url parser is reduced to its path: everything after `scheme://host` and before the
  * query or fragment, split at "/". */
module CampaignFiles {
  import opened Text

  // ----- upload -----

  /** `[a-zA-Z0-9.-]`. */
  predicate IsSafeChar(c: char)
  {
    ('a' <= c <= 'z') || ('A' <= c <= 'Z') || ('0' <= c <= '9') || c == '.' || c == '-'
  }

  /** `fileName.replace(/[^a-zA-Z0-9.-]/g, "_")`. */
  function SanitizeFileName(name: string): (r: string)
    ensures |r| == |name|
    ensures forall i :: 0 <= i < |r| ==> r[i] == (if IsSafeChar(name[i]) then name[i] else '_')
  {
    seq(|name|, i requires 0 <= i < |name| => if IsSafeChar(name[i]) then name[i] else '_')
  }

  /** A sanitised name holds only safe characters and "_", and sanitising it again
    * changes nothing. */
  lemma SanitizeIsIdempotent(name: string)
    ensures forall i :: 0 <= i < |SanitizeFileName(name)| ==>
              IsSafeChar(SanitizeFileName(name)[i]) || SanitizeFileName(name)[i] == '_'
    ensures SanitizeFileName(SanitizeFileName(name)) == SanitizeFileName(name)
  {
  }

  function ObjectKey(workspaceId: string, timestamp: nat, fileName: string): string
  {
    "campaigns/" + workspaceId + "_" + NatToString(timestamp) + "_" + SanitizeFileName(fileName)
  }

  datatype Upload = Upload(storedAt: Option<string>, url: string)

  /** `uploadCampaignFile`; `publicBaseUrl` is the configured S3 public base url, absent
    * when S3 is not configured. */
  function UploadCampaignFile(publicBaseUrl: Option<string>, workspaceId: string, timestamp: nat, fileName: string)
    : (r: Upload)
    ensures publicBaseUrl.Some? ==>
              var key := ObjectKey(workspaceId, timestamp, fileName);
              r.storedAt == Some("public/" + key) && r.url == publicBaseUrl.value + "/" + r.storedAt.value
    ensures publicBaseUrl.None? ==> r == Upload(None, "/uploads/campaigns/" + fileName)
  {
    if publicBaseUrl.Some? then
      var key := ObjectKey(workspaceId, timestamp, fileName);
      Upload(Some("public/" + key), publicBaseUrl.value + "/public/" + key)
    else Upload(None, "/uploads/campaigns/" + fileName)
  }

  // ----- download -----

  /** The url up to its query (`?`) or fragment (`#`), whichever comes first: what
    * `new URL(url)` keeps out of `pathname`. */
  function WithoutQuery(url: string): (r: string)
    ensures |r| <= |url| && r == url[..|r|] && '?' !in r && '#' !in r
    ensures |r| < |url| ==> url[|r|] == '?' || url[|r|] == '#'
    ensures Plain(url) ==> r == url
  {
    if url == [] || url[0] == '?' || url[0] == '#' then []
    else
      var rest := WithoutQuery(url[1..]);
      assert url[1..][..|rest|] == url[1..|rest| + 1];
      [url[0]] + rest
  }

  /** A string without a query or fragment mark. */
  predicate Plain(s: string)
  {
    '?' !in s && '#' !in s
  }

  /** The pieces of a split hold no character the string does not hold. */
  lemma {:induction false} SplitPiecesLack(s: string, sep: char, c: char)
    requires c !in s
    ensures forall k :: 0 <= k < |Split(s, sep)| ==> c !in Split(s, sep)[k]
    decreases |s|
  {
    if |s| > 0 {
      assert c !in s[1..] by {
        forall i | 0 <= i < |s[1..]| ensures s[1..][i] != c {
          assert s[1..][i] == s[i + 1];
        }
      }
      SplitPiecesLack(s[1..], sep, c);
    }
  }

  /** `new URL(url).pathname.split("/")`: an empty first segment, then the segments after
    * `scheme://host`, up to the query or fragment. */
  function PathParts(url: string): (r: seq<string>)
    ensures |r| >= 1 && r[0] == ""
    ensures forall k :: 0 <= k < |r| ==> '?' !in r[k] && '#' !in r[k]
    ensures Plain(url) && |Split(url, '/')| > 3 ==> r == [""] + Split(url, '/')[3..]
  {
    var path := WithoutQuery(url);
    var parts := Split(path, '/');
    SplitPiecesLack(path, '/', '?');
    SplitPiecesLack(path, '/', '#');
    [""] + (if |parts| > 3 then parts[3..] else [""])
  }

  /** A query or a fragment leaves the path segments as they are. */
  lemma QueryDoesNotChangePathParts(url: string, rest: string, mark: char)
    requires Plain(url) && (mark == '?' || mark == '#')
    ensures PathParts(url + [mark] + rest) == PathParts(url)
  {
    var u := url + [mark] + rest;
    assert u[..|url|] == url && u[|url|] == mark;
    assert WithoutQuery(u) == url;
  }

  datatype Source = S3Object(key: string) | HttpFetch(url: string) | LocalFile(path: string)

  /** `downloadCampaignFile`: which object, url or file it reads. */
  function DownloadSource(s3Configured: bool, fileUrl: string, cwd: string): (r: Source)
    ensures r.S3Object? <==> s3Configured && StartsWith(fileUrl, "http") && "public" in PathParts(fileUrl)
    ensures r.HttpFetch? <==> StartsWith(fileUrl, "http") && !(s3Configured && "public" in PathParts(fileUrl))
    ensures r.LocalFile? ==> r.path == (if StartsWith(fileUrl, "/uploads/") then cwd + "/public" + fileUrl else fileUrl)
  {
    if s3Configured && StartsWith(fileUrl, "http") && IndexOf(PathParts(fileUrl), "public").Some? then
      var parts := PathParts(fileUrl);
      S3Object(Join(parts[IndexOf(parts, "public").value..], '/'))
    else if StartsWith(fileUrl, "http") then HttpFetch(fileUrl)
    else LocalFile(if StartsWith(fileUrl, "/uploads/") then cwd + "/public" + fileUrl else fileUrl)
  }

  /** The S3 key is the path from the first `public` segment on. */
  lemma S3KeyStartsAtPublic(s3Configured: bool, fileUrl: string, cwd: string)
    requires DownloadSource(s3Configured, fileUrl, cwd).S3Object?
    ensures var parts := PathParts(fileUrl);
            exists k :: 0 <= k < |parts| && parts[k] == "public" && "public" !in parts[..k]
                        && DownloadSource(s3Configured, fileUrl, cwd).key == Join(parts[k..], '/')
  {
    var parts := PathParts(fileUrl);
    var k := IndexOf(parts, "public").value;
    assert parts[k] == "public" && "public" !in parts[..k];
  }

  lemma {:induction false} SplitOfSeparatorFree(s: string, sep: char)
    requires sep !in s
    ensures Split(s, sep) == [s]
    decreases |s|
  {
    if |s| > 0 {
      assert sep !in s[1..] by {
        forall i | 0 <= i < |s[1..]| ensures s[1..][i] != sep {
          assert s[1..][i] == s[i + 1];
        }
      }
      SplitOfSeparatorFree(s[1..], sep);
      assert [s[0]] + s[1..] == s;
    }
  }

  /** `a.join("/")` for a list that starts with one element. */
  lemma JoinCons(x: string, xs: seq<string>, sep: char)
    requires |xs| >= 1
    ensures Join([x] + xs, sep) == x + [sep] + Join(xs, sep)
  {
    assert ([x] + xs)[1..] == xs;
  }

  /** Splitting `base/seg/key` splits the base and the key apart around `seg`. */
  lemma SplitOfObjectUrl(base: string, seg: string, key: string)
    requires '/' !in seg
    ensures Split(base + "/" + seg + "/" + key, '/') == Split(base, '/') + [seg] + Split(key, '/')
  {
    assert base + "/" + seg + "/" + key == base + ['/'] + (seg + ['/'] + key);
    SplitAppend(base, '/', seg + ['/'] + key);
    SplitAppend(seg, '/', key);
    SplitOfSeparatorFree(seg, '/');
  }

  /** The path segments of `base/seg/key`: those of the base's path, `seg`, and those of
    * the key. */
  lemma PathPartsOfObjectUrl(base: string, seg: string, key: string)
    requires |Split(base, '/')| >= 3 && '/' !in seg && Plain(base) && Plain(seg) && Plain(key)
    ensures PathParts(base + "/" + seg + "/" + key) == [""] + Split(base, '/')[3..] + [seg] + Split(key, '/')
  {
    var b, k := Split(base, '/'), Split(key, '/');
    var tail := [seg] + k;
    SplitOfObjectUrl(base, seg, key);
    AppendAssoc(b, [seg], k);
    DropAcrossJoin(b, tail, 3);
    PathPartsOfSplit(base + "/" + seg + "/" + key, b + tail);
    AppendAssoc([""], b[3..], tail);
    AppendAssoc([""] + b[3..], [seg], k);
  }

  /** The path segments of a url are read off its split. */
  lemma PathPartsOfSplit(url: string, parts: seq<string>)
    requires Split(url, '/') == parts && |parts| > 3 && Plain(url)
    ensures PathParts(url) == [""] + parts[3..]
  {
  }

  /** Cutting the segments at the first `seg` and joining them gives `seg/key` back. */
  lemma KeyFromFirstSegment(prefix: seq<string>, seg: string, key: string)
    requires seg !in prefix
    ensures var parts := prefix + [seg] + Split(key, '/');
            IndexOf(parts, seg) == Some(|prefix|) && Join(parts[|prefix|..], '/') == seg + "/" + key
  {
    var k := Split(key, '/');
    var parts := prefix + [seg] + k;
    assert parts[|prefix|] == seg;
    assert parts[..|prefix|] == prefix;
    assert parts[|prefix|..] == [seg] + k;
    JoinCons(seg, k, '/');
    JoinSplit(key, '/');
  }

  /** The upload's url leads the download back to the stored object: for a public base url
    * `scheme://host/...` starting with "http" whose path has no `public` segment, the key
    * read is the key written. */
  lemma UploadThenDownloadFindsTheObject(base: string, workspaceId: string, timestamp: nat, fileName: string,
                                         cwd: string)
    requires StartsWith(base, "http") && |Split(base, '/')| >= 3 && Plain(base) && Plain(workspaceId)
    requires "public" !in Split(base, '/')[3..]
    ensures var up := UploadCampaignFile(Some(base), workspaceId, timestamp, fileName);
            DownloadSource(true, up.url, cwd) == S3Object(up.storedAt.value)
  {
    var key := ObjectKey(workspaceId, timestamp, fileName);
    ObjectKeyIsPlain(workspaceId, timestamp, fileName);
    ObjectUrlIsDownloadedFromS3(base, key, cwd);
  }

  /** An object key has no query or fragment mark when the workspace id has none. */
  lemma ObjectKeyIsPlain(workspaceId: string, timestamp: nat, fileName: string)
    requires Plain(workspaceId)
    ensures Plain(ObjectKey(workspaceId, timestamp, fileName))
  {
    var digits, name := NatToString(timestamp), SanitizeFileName(fileName);
    assert Plain(digits) && Plain(name) by {
      assert forall i :: 0 <= i < |digits| ==> IsDigit(digits[i]);
    }
    assert ObjectKey(workspaceId, timestamp, fileName) == "campaigns/" + workspaceId + "_" + digits + "_" + name;
  }

  /** The object url `base/public/key` is read from S3 under `public/key`. */
  lemma ObjectUrlIsDownloadedFromS3(base: string, key: string, cwd: string)
    requires StartsWith(base, "http") && |Split(base, '/')| >= 3 && Plain(base) && Plain(key)
    requires "public" !in Split(base, '/')[3..]
    ensures DownloadSource(true, base + "/public/" + key, cwd) == S3Object("public/" + key)
  {
    var url := base + "/public/" + key;
    var prefix := [""] + Split(base, '/')[3..];
    assert url == base + "/" + "public" + "/" + key;
    PathPartsOfObjectUrl(base, "public", key);
    assert "public" !in prefix;
    assert StartsWith(url, "http") by {
      assert url[..4] == base[..4];
    }
    S3KeyOfParts(url, cwd, prefix, key);
  }

  /** A url whose segments are `prefix`, `public` and the key's, with no `public` in
    * `prefix`, is read from S3 under `public/key`. */
  lemma S3KeyOfParts(url: string, cwd: string, prefix: seq<string>, key: string)
    requires StartsWith(url, "http") && "public" !in prefix
    requires PathParts(url) == prefix + ["public"] + Split(key, '/')
    ensures DownloadSource(true, url, cwd) == S3Object("public/" + key)
  {
    KeyFromFirstSegment(prefix, "public", key);
    assert "public" + "/" + key == "public/" + key;
  }

  /** Without S3 the returned path is read from the app's `public/uploads/campaigns`
    * folder under the name as given. */
  lemma LocalUploadIsReadFromPublicFolder(workspaceId: string, timestamp: nat, fileName: string, cwd: string,
                                          s3Configured: bool)
    ensures var up := UploadCampaignFile(None, workspaceId, timestamp, fileName);
            DownloadSource(s3Configured, up.url, cwd) == LocalFile(cwd + "/public/uploads/campaigns/" + fileName)
  {
    var url := "/uploads/campaigns/" + fileName;
    assert url == "/uploads/" + ("campaigns/" + fileName);
    StartsWithAppend("/uploads/", "campaigns/" + fileName);
    StartsDifferently(url, "/uploads/", "http");
    NonHttpIsLocal(s3Configured, url, cwd);
    assert "/public" + "/uploads/campaigns/" == "/public/uploads/campaigns/";
    AppendAssoc(cwd, "/public", url);
    AppendAssoc("/public", "/uploads/campaigns/", fileName);
    AppendAssoc(cwd, "/public/uploads/campaigns/", fileName);
  }

  lemma NonHttpIsLocal(s3Configured: bool, fileUrl: string, cwd: string)
    requires !StartsWith(fileUrl, "http")
    ensures DownloadSource(s3Configured, fileUrl, cwd)
              == LocalFile(if StartsWith(fileUrl, "/uploads/") then cwd + "/public" + fileUrl else fileUrl)
  {
  }

  /** An http url whose path has no `public` segment is fetched over http even with S3
    * configured. */
  lemma HttpWithoutPublicIsFetched(fileUrl: string, cwd: string)
    requires StartsWith(fileUrl, "http") && "public" !in PathParts(fileUrl)
    ensures DownloadSource(true, fileUrl, cwd) == HttpFetch(fileUrl)
  {
  }
}
