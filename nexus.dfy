/**
 * The Nexus fixture provider: it looks the recording up through the Nexus search API, keeps a
 * cache of downloaded recordings with a `.meta` sidecar holding the asset's checksum and ID,
 * downloads with curl on a cache miss and checks the MCAP magic before trusting the download.
 * The search API, curl, the environment and the sidecar's JSON encoding are functions the
 * caller supplies; the file system is a value passed in and out.
 */
module Nexus {
  import opened Wrappers
  import opened Strings
  import Paths
  import opened FileTree
  import opened Models
  import opened OrderedDicts

  /** `CACHE_DIR`. */
  const CacheDir := "/tmp/replay_testing/.cache"

  /** The first bytes of every MCAP file, `\x89MCAP0\r\n` (the Magic section of the MCAP file format specification). */
  const McapMagic: Bytes := [0x89, 0x4D, 0x43, 0x41, 0x50, 0x30, 0x0D, 0x0A]

  // ---------------------------------------------------------------------------------------------
  // The extra-header string

  /**
   * What one `;`-separated piece of the extra-header string contributes to the request headers:
   * the stripped piece is split at its first ':' and both halves are stripped; an empty piece, or
   * one without ':', contributes nothing.
   */
  function HeaderOf(piece: string): (r: Option<(string, string)>)
    ensures r.Some? <==> ':' in Strip(piece)
    ensures r.Some? ==> ':' !in r.value.0
  {
    var header := Strip(piece);
    if header != "" && ':' in header then
      var colon := FirstIndex(header, ':');
      StripWithout(header[..colon], ':');
      Some((Strip(header[..colon]), Strip(header[colon + 1..])))
    else None
  }

  /** A piece `key:value` whose key has no ':' and whose halves need no stripping gives that pair back. */
  lemma HeaderOfPair(key: string, value: string)
    requires ':' !in key && Strip(key) == key && Strip(value) == value
    ensures HeaderOf(key + ":" + value) == Some((key, value))
  {
    hide Strip, TrimLeft, TrimRight, IsSpace;
    var s := key + ":" + value;
    assert s[|key|] == ':';
    ColonIsNotSpace();
    assert !IsSpace(s[0]) by {
      if key != "" { assert s[0] == key[0]; } else { assert s[0] == ':'; }
    }
    assert !IsSpace(s[|s| - 1]) by {
      if value != "" { assert s[|s| - 1] == value[|value| - 1]; } else { assert s[|s| - 1] == ':'; }
    }
    StripClean(s);
    var colon := FirstIndex(s, ':');
    assert s[..|key|] == key;
    assert colon == |key|;
    assert s[colon + 1..] == value;
  }

  /** The header pairs of the pieces, in order: one for each piece that gives one. */
  function HeaderPairs(pieces: seq<string>): (r: seq<(string, string)>)
    ensures forall e :: e in r ==> ':' !in e.0
    decreases |pieces|
  {
    if pieces == [] then []
    else
      var init := HeaderPairs(pieces[..|pieces| - 1]);
      match HeaderOf(pieces[|pieces| - 1])
      case None => init
      case Some(kv) => init + [kv]
  }

  /** The header pairs of the extra-header string, none when it is empty. */
  function HeaderPairsOf(extra: string): seq<(string, string)> {
    if extra == "" then [] else HeaderPairs(Split(extra, ';'))
  }

  /** The headers of the search request: the pairs assigned in order. */
  function ParseHeaders(extra: string): Dict<string> {
    FromPairs(HeaderPairsOf(extra))
  }

  /** The header loop of `_get_asset_metadata`. */
  method ParseExtraHeaders(extra: string) returns (headers: Dict<string>)
    ensures headers == ParseHeaders(extra)
  {
    hide Strip, FirstIndex, Assign;
    headers := [];
    if extra != "" {
      var pieces := Split(extra, ';');
      for i := 0 to |pieces|
        invariant headers == FromPairs(HeaderPairs(pieces[..i]))
      {
        assert pieces[..i + 1][..i] == pieces[..i];
        ghost var before := HeaderPairs(pieces[..i]);
        var header := Strip(pieces[i]);
        if header != "" && ':' in header {
          var colon := FirstIndex(header, ':');
          ghost var kv := (Strip(header[..colon]), Strip(header[colon + 1..]));
          assert (before + [kv])[..|before|] == before;
          headers := Assign(headers, Strip(header[..colon]), Strip(header[colon + 1..]));
        }
      }
      assert pieces[..|pieces|] == pieces;
    }
  }

  /**
   * Each header key occurs once, holds the value of the last piece that names it and has no ':';
   * a key no piece names is absent.
   */
  lemma LastHeaderWins(extra: string)
    ensures KeysDistinct(ParseHeaders(extra))
    ensures forall key :: Get(ParseHeaders(extra), key) == LastValue(HeaderPairsOf(extra), key)
    ensures forall e :: e in ParseHeaders(extra) ==> ':' !in e.0
  {
    LastPairWins(HeaderPairsOf(extra));
    FromPairsEntries(HeaderPairsOf(extra));
  }

  /** A header argument: non-empty, with no white space at either end. */
  predicate Stripped(s: string) {
    s != "" && !IsSpace(s[0]) && !IsSpace(s[|s| - 1])
  }

  /** Arguments in pairs, each a `-H` flag followed by a header. */
  predicate FlagPairs(r: seq<string>) {
    && |r| % 2 == 0
    && (forall i :: 0 <= i < |r| && i % 2 == 0 ==> r[i] == "-H")
    && (forall i :: 0 <= i < |r| && i % 2 == 1 ==> Stripped(r[i]))
  }

  lemma FlagPairsAppend(init: seq<string>, header: string)
    requires FlagPairs(init) && Stripped(header)
    ensures FlagPairs(init + ["-H", header])
  {
    hide Stripped;
    var r := init + ["-H", header];
    assert forall i :: 0 <= i < |init| ==> r[i] == init[i];
    assert r[|init|] == "-H" && r[|init| + 1] == header;
  }

  /** The header arguments curl gets: `-H` before each non-empty stripped piece, with or without ':'. */
  function CurlHeaderArgs(pieces: seq<string>): (r: seq<string>)
    ensures FlagPairs(r)
    decreases |pieces|
  {
    if pieces == [] then []
    else
      var init := CurlHeaderArgs(pieces[..|pieces| - 1]);
      var header := Strip(pieces[|pieces| - 1]);
      if header != "" then FlagPairsAppend(init, header); init + ["-H", header] else init
  }

  /** Every header of the search request reaches curl too, as the stripped piece it came from. */
  lemma {:induction false} CurlGetsEveryHeader(pieces: seq<string>, i: nat)
    requires i < |pieces| && HeaderOf(pieces[i]).Some?
    ensures Strip(pieces[i]) in CurlHeaderArgs(pieces)
    decreases |pieces|
  {
    hide HeaderOf, Strip;
    var last := |pieces| - 1;
    if i < last {
      assert pieces[..last][i] == pieces[i];
      CurlGetsEveryHeader(pieces[..last], i);
    }
  }

  /** A non-empty piece without ':' is sent to curl although the search request leaves it out. */
  lemma CurlGetsColonlessPiece(piece: string)
    requires Strip(piece) != "" && ':' !in Strip(piece)
    ensures HeaderOf(piece) == None
    ensures CurlHeaderArgs([piece]) == ["-H", Strip(piece)]
  {
    assert [piece][..0] == [];
  }

  /** `curl_command`: the fixed arguments, then the header arguments. */
  function CurlCommand(nexusPath: string, dest: string, server: string, repo: string, username: string,
                       password: string, extra: string): seq<string>
  {
    ["curl", "-v", "-u", username + ":" + password, "-sL", "-o", dest, "-w", "%{http_code}",
     server + "/repository/" + repo + "/" + nexusPath]
    + (if extra == "" then [] else CurlHeaderArgs(Split(extra, ';')))
  }

  /** The command list of `_download_to_path`, extended in place by the header loop. */
  method BuildCurlCommand(nexusPath: string, dest: string, server: string, repo: string, username: string,
                          password: string, extra: string) returns (command: seq<string>)
    ensures command == CurlCommand(nexusPath, dest, server, repo, username, password, extra)
    ensures |command| >= 10 && command[6] == dest && command[9] == server + "/repository/" + repo + "/" + nexusPath
  {
    hide Strip;
    command := ["curl", "-v", "-u", username + ":" + password, "-sL", "-o", dest, "-w", "%{http_code}",
                server + "/repository/" + repo + "/" + nexusPath];
    ghost var fixed := command;
    if extra != "" {
      var pieces := Split(extra, ';');
      for i := 0 to |pieces|
        invariant command == fixed + CurlHeaderArgs(pieces[..i])
      {
        assert pieces[..i + 1][..i] == pieces[..i];
        var header := Strip(pieces[i]);
        if header != "" {
          command := command + ["-H", header];
        }
      }
      assert pieces[..|pieces|] == pieces;
    }
  }

  // ---------------------------------------------------------------------------------------------
  // The search API

  /** The checksums of a search item; a missing or `null` entry is `None`. */
  datatype Checksums = Checksums(sha256: Option<string>, sha1: Option<string>, md5: Option<string>)

  /** One item of the search response; a missing `path` is the empty string. */
  datatype Item = Item(path: string, id: Option<string>, checksum: Checksums)

  /** The metadata of the matching asset. */
  datatype AssetMetadata = AssetMetadata(id: Option<string>, checksum: Option<string>)

  /** The search request: URL, query parameters, basic authentication and headers. */
  datatype SearchRequest = SearchRequest(url: string, params: Dict<string>, auth: (string, string), headers: Dict<string>)

  /**
   * The checksum recorded for an item, as `type:value`: the first non-empty one of sha256, sha1
   * and md5, in that order, and `None` when all three are empty or missing.
   */
  function ChecksumOf(c: Checksums): (r: Option<string>)
    ensures r.None? <==> !Truthy(c.sha256) && !Truthy(c.sha1) && !Truthy(c.md5)
    ensures Truthy(c.sha256) ==> r == Some("sha256" + ":" + c.sha256.value)
    ensures !Truthy(c.sha256) && Truthy(c.sha1) ==> r == Some("sha1" + ":" + c.sha1.value)
    ensures !Truthy(c.sha256) && !Truthy(c.sha1) && Truthy(c.md5) ==> r == Some("md5" + ":" + c.md5.value)
  {
    var value := if Truthy(c.sha256) then c.sha256 else if Truthy(c.sha1) then c.sha1 else c.md5;
    var kind := if Truthy(c.sha256) then "sha256" else if Truthy(c.sha1) then "sha1" else "md5";
    if Truthy(value) then Some(kind + ":" + value.value) else None
  }

  /** The search path: the Nexus path with a leading '/', added only when it is missing. */
  function SearchPath(nexusPath: string): (r: string)
    ensures StartsWith(r, "/") && EndsWith(r, nexusPath)
    ensures |r| == |nexusPath| <==> StartsWith(nexusPath, "/")
    ensures |r| <= |nexusPath| + 1
  {
    if StartsWith(nexusPath, "/") then nexusPath else "/" + nexusPath
  }

  /** Adding the leading '/' a second time changes nothing. */
  lemma SearchPathIdempotent(nexusPath: string)
    ensures SearchPath(SearchPath(nexusPath)) == SearchPath(nexusPath)
  {
  }

  /** Whether an item is the asset: its path is the Nexus path, with or without a leading '/'. */
  predicate Matches(item: Item, nexusPath: string) {
    item.path == nexusPath || item.path == "/" + nexusPath
  }

  /** The position of the first matching item, or -1. */
  function FirstMatch(items: seq<Item>, nexusPath: string): (i: int)
    ensures -1 <= i < |items|
    ensures i >= 0 ==> Matches(items[i], nexusPath) && forall j :: 0 <= j < i ==> !Matches(items[j], nexusPath)
    ensures i < 0 ==> forall j :: 0 <= j < |items| ==> !Matches(items[j], nexusPath)
  {
    if items == [] then -1
    else if Matches(items[0], nexusPath) then 0
    else
      var j := FirstMatch(items[1..], nexusPath);
      if j < 0 then -1 else j + 1
  }

  /** The metadata `_get_asset_metadata` returns for a response listing `items`. */
  function MatchMetadata(items: seq<Item>, nexusPath: string): (r: Option<AssetMetadata>)
    ensures r.Some? <==> exists j :: 0 <= j < |items| && Matches(items[j], nexusPath)
    ensures r.Some? ==> var i := FirstMatch(items, nexusPath);
      r.value == AssetMetadata(items[i].id, ChecksumOf(items[i].checksum))
  {
    var i := FirstMatch(items, nexusPath);
    if i < 0 then None else Some(AssetMetadata(items[i].id, ChecksumOf(items[i].checksum)))
  }

  /** The request `_get_asset_metadata` sends. */
  function AssetRequest(nexusPath: string, server: string, repo: string, username: string, password: string,
                        extra: string): SearchRequest
  {
    SearchRequest(server + "/service/rest/v1/search/assets",
                  [("repository", repo), ("name", SearchPath(nexusPath))],
                  (username, password), ParseHeaders(extra))
  }

  /** The metadata of the asset, or `None` when the request fails or nothing matches. */
  function RemoteMetadata(nexusPath: string, server: string, repo: string, username: string, password: string,
                          extra: string, fetch: SearchRequest -> Option<seq<Item>>): Option<AssetMetadata>
  {
    match fetch(AssetRequest(nexusPath, server, repo, username, password, extra))
    case None => None
    case Some(items) => MatchMetadata(items, nexusPath)
  }

  /**
   * `_get_asset_metadata`: `fetch` sends the request and gives the response's items, or `None`
   * when a request exception (a connection error, an error status, a body that is not JSON) is
   * raised.
   */
  method GetAssetMetadata(nexusPath: string, server: string, repo: string, username: string, password: string,
                          extra: string, fetch: SearchRequest -> Option<seq<Item>>)
    returns (r: Option<AssetMetadata>)
    ensures r == RemoteMetadata(nexusPath, server, repo, username, password, extra, fetch)
  {
    hide ParseHeaders, Strip, MatchMetadata;
    var searchPath := if StartsWith(nexusPath, "/") then nexusPath else "/" + nexusPath;
    var headers := ParseExtraHeaders(extra);
    var response := fetch(SearchRequest(server + "/service/rest/v1/search/assets",
                                        [("repository", repo), ("name", searchPath)],
                                        (username, password), headers));
    if response.None? {
      return None;
    }
    var items := response.value;
    if items == [] {
      return None;
    }
    r := FindAsset(items, nexusPath);
  }

  /** The search loop of `_get_asset_metadata`: the first item at the asked path gives the ID and checksum. */
  method FindAsset(items: seq<Item>, nexusPath: string) returns (r: Option<AssetMetadata>)
    ensures r == MatchMetadata(items, nexusPath)
  {
    for i := 0 to |items|
      invariant forall j :: 0 <= j < i ==> !Matches(items[j], nexusPath)
    {
      var item := items[i];
      if item.path == nexusPath || item.path == "/" + nexusPath {
        var checksum := item.checksum;
        var value := if Truthy(checksum.sha256) then checksum.sha256 else if Truthy(checksum.sha1) then checksum.sha1 else checksum.md5;
        var kind := if Truthy(checksum.sha256) then "sha256" else if Truthy(checksum.sha1) then "sha1" else "md5";
        if Truthy(value) {
          return Some(AssetMetadata(item.id, Some(kind + ":" + value.value)));
        } else {
          return Some(AssetMetadata(item.id, None));
        }
      }
    }
    return None;
  }


  // ---------------------------------------------------------------------------------------------
  // The cache

  /** `CACHE_DIR / f'{repo}/{nexus_path}'`. */
  function CachePath(repo: string, nexusPath: string): Paths.PurePath {
    Paths.Div(Paths.Parse(CacheDir), repo + "/" + nexusPath)
  }

  /** The sidecar path: `<name>.meta` in the cached file's directory. */
  function SidecarPath(cache: Paths.PurePath): Paths.PurePath {
    Paths.Div(Paths.Parent(cache), Paths.Name(cache) + ".meta")
  }

  /** The sidecar lies beside the cached file, named after it with `.meta` added. */
  lemma SidecarBeside(repo: string, nexusPath: string)
    ensures var cache := CachePath(repo, nexusPath);
      Paths.Parent(SidecarPath(cache)) == Paths.Parent(cache) && Paths.Name(SidecarPath(cache)) == Paths.Name(cache) + ".meta"
  {
    hide CachePath;
    var cache := CachePath(repo, nexusPath);
    CachePathWellFormed(repo, nexusPath);
    MetaNameIsPart(Paths.Name(cache));
    Paths.ParentOfDiv(Paths.Parent(cache), Paths.Name(cache) + ".meta");
  }

  /** A name without '/' with `.meta` added is a single part. */
  lemma MetaNameIsPart(name: string)
    requires '/' !in name
    ensures Paths.IsPart(name + ".meta")
  {
    var meta := name + ".meta";
    assert forall i :: 0 <= i < |meta| ==> meta[i] == (if i < |name| then name[i] else ".meta"[i - |name|]);
    assert meta[|meta| - 1] == 'a';
  }


  /** With a repository name that is a relative path, the cached file lies below `CACHE_DIR`. */
  lemma CacheBelowCacheDir(repo: string, nexusPath: string)
    requires repo != "" && !StartsWith(repo, "/")
    ensures var cache := CachePath(repo, nexusPath);
      cache.absolute && cache.parts[..|Paths.Parse(CacheDir).parts|] == Paths.Parse(CacheDir).parts
  {
    var key := repo + "/" + nexusPath;
    assert key[0] == repo[0];
  }

  /** With the repository unset, the cache key is rooted and replaces `CACHE_DIR`: the cached file is `/<nexus_path>`. */
  lemma EmptyRepositoryEscapesCache(nexusPath: string)
    ensures CachePath("", nexusPath) == Paths.Parse("/" + nexusPath)
  {
    assert "" + "/" + nexusPath == "/" + nexusPath;
  }

  /** What a sidecar holds, as far as the validity check reads it. */
  datatype CachedMetadata = CachedMetadata(id: Option<string>, checksum: Option<string>)

  /** The sidecar `_write_metadata` writes. */
  datatype Sidecar = Sidecar(repository: string, path: string, id: Option<string>, checksum: Option<string>)

  /** The sidecar's contents, or `None` when it is not a readable file or not JSON (`readSidecar` decodes the JSON). */
  function ReadSidecar(fs: Node, sidecar: string, readSidecar: Bytes -> Option<CachedMetadata>): Option<CachedMetadata> {
    match At(fs, sidecar)
    case Some(File(data)) => readSidecar(data)
    case _ => None
  }

  /**
   * `_is_cache_valid`, check by check in the code's order. It holds exactly when the cached file
   * exists, the remote metadata and its checksum are present, the sidecar can be read, the
   * checksums agree and the IDs, when both are present, agree too.
   */
  function IsCacheValid(fs: Node, cache: string, sidecar: string, expected: Option<AssetMetadata>,
                        readSidecar: Bytes -> Option<CachedMetadata>): (valid: bool)
    ensures valid <==>
      Exists(fs, cache) && expected.Some? && Truthy(expected.value.checksum) &&
      ReadSidecar(fs, sidecar, readSidecar).Some? &&
      ReadSidecar(fs, sidecar, readSidecar).value.checksum == expected.value.checksum &&
      (Truthy(expected.value.id) && Truthy(ReadSidecar(fs, sidecar, readSidecar).value.id) ==>
         ReadSidecar(fs, sidecar, readSidecar).value.id == expected.value.id)
  {
    if !Exists(fs, cache) then false
    else if expected.None? then false
    else if !Truthy(expected.value.checksum) then false
    else if !Exists(fs, sidecar) then false
    else match ReadSidecar(fs, sidecar, readSidecar)
      case None => false
      case Some(cached) =>
        if cached.checksum == expected.value.checksum then
          !(Truthy(expected.value.id) && Truthy(cached.id) && cached.id != expected.value.id)
        else false
  }

  /** An ID that is missing or empty on either side is not compared: the checksums alone decide. */
  lemma MissingIdNotCompared(fs: Node, cache: string, sidecar: string, expected: AssetMetadata,
                             readSidecar: Bytes -> Option<CachedMetadata>)
    requires Exists(fs, cache) && Truthy(expected.checksum)
    requires var c := ReadSidecar(fs, sidecar, readSidecar); c.Some? && (!Truthy(expected.id) || !Truthy(c.value.id))
    ensures IsCacheValid(fs, cache, sidecar, Some(expected), readSidecar) <==>
      ReadSidecar(fs, sidecar, readSidecar).value.checksum == expected.checksum
  {
  }

  /** `_verify_mcap`: whether the file begins with the magic; a missing file or a directory raises. */
  function VerifyMcap(fs: Node, path: string): (r: Result<bool, OsError>)
    ensures r.Failure? <==> !IsFile(fs, path)
    ensures r == Success(true) <==>
      IsFile(fs, path) && |At(fs, path).value.data| >= |McapMagic| && At(fs, path).value.data[..|McapMagic|] == McapMagic
  {
    match At(fs, path)
    case None => Failure(FileNotFound(path))
    case Some(Dir(_)) => Failure(IsADirectory(path))
    case Some(File(data)) =>
      var header := if |data| < |McapMagic| then data else data[..|McapMagic|];
      Success(header == McapMagic)
  }

  // ---------------------------------------------------------------------------------------------
  // Downloading

  /** What running curl gives: the file system after it, its exit code and its standard output. */
  datatype CurlRun = CurlRun(fs: Node, returncode: int, stdout: string)

  /** `_download_to_path`'s verdict and HTTP code: success exactly on exit code 0 and a code starting with '2'. */
  function DownloadVerdict(returncode: int, stdout: string): (r: (bool, string))
    ensures r.1 == Strip(stdout)
    ensures r.0 <==> returncode == 0 && StartsWith(Strip(stdout), "2")
  {
    var httpCode := Strip(stdout);
    if returncode != 0 then (false, httpCode)
    else if !StartsWith(httpCode, "2") then (false, httpCode)
    else (true, httpCode)
  }

  /** The settings `download` reads from the environment, each defaulting to the empty string. */
  datatype Settings = Settings(username: string, password: string, server: string, repository: string, extraHeaders: string)

  function Getenv(env: string -> Option<string>, name: string): string {
    env(name).GetOr("")
  }

  function SettingsFrom(env: string -> Option<string>): Settings {
    Settings(Getenv(env, "NEXUS_USERNAME"), Getenv(env, "NEXUS_PASSWORD"), Getenv(env, "NEXUS_SERVER"),
             Getenv(env, "NEXUS_REPOSITORY"), Getenv(env, "NEXUS_EXTRA_HEADERS"))
  }

  /** `_download_to_path`: curl the asset into `dest`. */
  method DownloadToPath(fs: Node, nexusPath: string, dest: string, s: Settings, curl: (Node, seq<string>) -> CurlRun)
    returns (fs': Node, success: bool, httpCode: string)
    ensures var run := curl(fs, CurlCommand(nexusPath, dest, s.server, s.repository, s.username, s.password, s.extraHeaders));
      fs' == run.fs && (success, httpCode) == DownloadVerdict(run.returncode, run.stdout)
  {
    var command := BuildCurlCommand(nexusPath, dest, s.server, s.repository, s.username, s.password, s.extraHeaders);
    var result := curl(fs, command);
    fs' := result.fs;
    httpCode := Strip(result.stdout);
    if result.returncode != 0 {
      return fs', false, httpCode;
    }
    if !StartsWith(httpCode, "2") {
      return fs', false, httpCode;
    }
    return fs', true, httpCode;
  }

  /** The exceptions `download` raises. */
  datatype NexusError = RuntimeError(message: string) | OsFailure(error: OsError)

  function DownloadFailedMessage(nexusPath: string, httpCode: string): string {
    "Failed to download fixture from Nexus: " + nexusPath + " (HTTP " + httpCode + ")"
  }

  function NotMcapMessage(nexusPath: string): string {
    "Downloaded file is not a valid MCAP (possibly a Cloudflare challenge page): " + nexusPath
  }

  /** `destination_folder / nexus_filename`, the file name being the last '/'-piece of the Nexus path. */
  function LocalPath(destination: string, nexusPath: string): string {
    Paths.Render(Paths.Div(Paths.Parse(destination), Paths.LastPiece(nexusPath)))
  }

  /** The local file is the destination folder with the Nexus path's last '/'-piece below it. */
  lemma LocalPathRule(destination: string, nexusPath: string)
    requires Paths.IsPart(Paths.LastPiece(nexusPath))
    ensures var d := Paths.Parse(destination);
      Locate(LocalPath(destination, nexusPath)) == d.parts + [Paths.LastPiece(nexusPath)]
    ensures '/' !in Paths.LastPiece(nexusPath) && EndsWith(nexusPath, Paths.LastPiece(nexusPath))
  {
    var name := Paths.LastPiece(nexusPath);
    Paths.LastPieceIsBasename(nexusPath);
    Strings.SplitWithout(name, '/');
    assert Paths.Clean([name]) == [name];
    assert Paths.Parse(name).parts == [name];
    Paths.ParseRender(Paths.Div(Paths.Parse(destination), name));
  }

  /** The sidecar written after a verified download. */
  function SidecarFor(repo: string, nexusPath: string, metadata: Option<AssetMetadata>): Sidecar {
    Sidecar(repo, nexusPath, if metadata.Some? then metadata.value.id else None,
            if metadata.Some? then metadata.value.checksum else None)
  }

  /** `_write_metadata`: a write that fails is only logged. */
  function WriteSidecar(fs: Node, sidecar: string, contents: Sidecar, encode: Sidecar -> Bytes): (fs': Node)
    ensures fs' == fs || At(fs', sidecar) == Some(File(encode(contents)))
  {
    match WriteFile(fs, sidecar, encode(contents))
    case Failure(_) => fs
    case Success(r) =>
      WriteFileWrites(fs, sidecar, encode(contents));
      r
  }

  /** `shutil.copy2(cache_path, local_path)` and the returned recording. */
  function CopyOut(fs: Node, cache: string, local: string): (r: (Node, Result<McapFixture, NexusError>))
    ensures r.1.Success? ==> r.1.value == McapFixture(local) && (var t := CopyFile(fs, cache, local); t.Success? && r.0 == t.value.0)
    ensures r.1.Failure? ==> r.0 == fs && r.1.error.OsFailure?
  {
    match CopyFile(fs, cache, local)
    case Failure(e) => (fs, Failure(OsFailure(e)))
    case Success(t) => (t.0, Success(McapFixture(local)))
  }

  /** A cache miss: download into the cache, verify the magic, write the sidecar and copy out. */
  function Fetch(nexusPath: string, fs: Node, s: Settings, metadata: Option<AssetMetadata>, cache: string,
                 sidecar: string, local: string, curl: (Node, seq<string>) -> CurlRun, encode: Sidecar -> Bytes)
    : (r: (Node, Result<McapFixture, NexusError>))
    ensures r.1.Success? ==> r.1.value == McapFixture(local)
  {
    var run := curl(fs, CurlCommand(nexusPath, cache, s.server, s.repository, s.username, s.password, s.extraHeaders));
    var verdict := DownloadVerdict(run.returncode, run.stdout);
    if !verdict.0 then (run.fs, Failure(RuntimeError(DownloadFailedMessage(nexusPath, verdict.1))))
    else match VerifyMcap(run.fs, cache)
      case Failure(e) => (run.fs, Failure(OsFailure(e)))
      case Success(isMcap) =>
        if !isMcap then
          match Unlink(run.fs, cache, true)
          case Failure(e) => (run.fs, Failure(OsFailure(e)))
          case Success(fs') => (fs', Failure(RuntimeError(NotMcapMessage(nexusPath))))
        else CopyOut(WriteSidecar(run.fs, sidecar, SidecarFor(s.repository, nexusPath, metadata), encode), cache, local)
  }

  /** `download` once the destination folder exists: look the asset up, then use the cache or fill it. */
  function FromFolder(nexusPath: string, fs: Node, s: Settings, local: string, fetch: SearchRequest -> Option<seq<Item>>,
                      curl: (Node, seq<string>) -> CurlRun, readSidecar: Bytes -> Option<CachedMetadata>,
                      encode: Sidecar -> Bytes)
    : (r: (Node, Result<McapFixture, NexusError>))
    ensures r.1.Success? ==> r.1.value == McapFixture(local)
  {
    var metadata := RemoteMetadata(nexusPath, s.server, s.repository, s.username, s.password, s.extraHeaders, fetch);
    var cache := CachePath(s.repository, nexusPath);
    match EnsureDir(fs, Paths.Render(Paths.Parent(cache)))
    case Failure(e) => (fs, Failure(OsFailure(e)))
    case Success(fs') =>
      var cacheFile, sidecarFile := Paths.Render(cache), Paths.Render(SidecarPath(cache));
      if IsCacheValid(fs', cacheFile, sidecarFile, metadata, readSidecar) then CopyOut(fs', cacheFile, local)
      else Fetch(nexusPath, fs', s, metadata, cacheFile, sidecarFile, local, curl, encode)
  }

  /** `download`, as one expression. */
  function DownloadSpec(nexusPath: string, fs: Node, destination: string, env: string -> Option<string>,
                        fetch: SearchRequest -> Option<seq<Item>>, curl: (Node, seq<string>) -> CurlRun,
                        readSidecar: Bytes -> Option<CachedMetadata>, encode: Sidecar -> Bytes)
    : (r: (Node, Result<McapFixture, NexusError>))
    ensures r.1.Success? ==> r.1.value == McapFixture(LocalPath(destination, nexusPath))
  {
    match EnsureDir(fs, destination)
    case Failure(e) => (fs, Failure(OsFailure(e)))
    case Success(fs') =>
      FromFolder(nexusPath, fs', SettingsFrom(env), LocalPath(destination, nexusPath), fetch, curl, readSidecar, encode)
  }

  /** `_get_cache_paths`: the two paths, after making the cached file's directory. */
  method GetCachePaths(fs: Node, nexusPath: string, repo: string) returns (fs': Node, cache: string, sidecar: string, err: Option<OsError>)
    ensures cache == Paths.Render(CachePath(repo, nexusPath)) && sidecar == Paths.Render(SidecarPath(CachePath(repo, nexusPath)))
    ensures var made := EnsureDir(fs, Paths.Render(Paths.Parent(CachePath(repo, nexusPath))));
      (err.Some? <==> made.Failure?) && (made.Failure? ==> err == Some(made.error) && fs' == fs) && (made.Success? ==> fs' == made.value)
  {
    var cachePath := Paths.Div(Paths.Parse(CacheDir), repo + "/" + nexusPath);
    var parent := Paths.Parent(cachePath);
    var made := EnsureDir(fs, Paths.Render(parent));
    if made.Failure? {
      return fs, Paths.Render(cachePath), Paths.Render(SidecarPath(cachePath)), Some(made.error);
    }
    var metadataPath := Paths.Div(parent, Paths.Name(cachePath) + ".meta");
    return made.value, Paths.Render(cachePath), Paths.Render(metadataPath), None;
  }

  /**
   * `NexusFixture(path).download(destination_folder)`: `env` gives the process environment,
   * `fetch` answers the search request, `curl` runs curl, and `readSidecar`/`encode` are the JSON
   * reading and writing of a sidecar.
   */
  method Download(nexusPath: string, fs: Node, destination: string, env: string -> Option<string>,
                  fetch: SearchRequest -> Option<seq<Item>>, curl: (Node, seq<string>) -> CurlRun,
                  readSidecar: Bytes -> Option<CachedMetadata>, encode: Sidecar -> Bytes)
    returns (fs': Node, r: Result<McapFixture, NexusError>)
    ensures (fs', r) == DownloadSpec(nexusPath, fs, destination, env, fetch, curl, readSidecar, encode)
    ensures r.Success? ==> r.value.path == LocalPath(destination, nexusPath)
  {
    hide FromFolder, EnsureDir;
    var s := Settings(Getenv(env, "NEXUS_USERNAME"), Getenv(env, "NEXUS_PASSWORD"), Getenv(env, "NEXUS_SERVER"),
                      Getenv(env, "NEXUS_REPOSITORY"), Getenv(env, "NEXUS_EXTRA_HEADERS"));
    var localPath := Paths.Render(Paths.Div(Paths.Parse(destination), Paths.LastPiece(nexusPath)));
    var made := EnsureDir(fs, destination);
    if made.Failure? {
      return fs, Failure(OsFailure(made.error));
    }
    fs', r := DownloadFromFolder(nexusPath, made.value, s, localPath, fetch, curl, readSidecar, encode);
  }

  /** The part of `download` after the destination folder is made. */
  method DownloadFromFolder(nexusPath: string, fs: Node, s: Settings, local: string, fetch: SearchRequest -> Option<seq<Item>>,
                            curl: (Node, seq<string>) -> CurlRun, readSidecar: Bytes -> Option<CachedMetadata>,
                            encode: Sidecar -> Bytes)
    returns (fs': Node, r: Result<McapFixture, NexusError>)
    ensures (fs', r) == FromFolder(nexusPath, fs, s, local, fetch, curl, readSidecar, encode)
  {
    hide IsCacheValid, Fetch, RemoteMetadata, EnsureDir, CopyFile, Paths.Render, Paths.Div, Paths.Parse, Paths.Parent;
    var metadata := GetAssetMetadata(nexusPath, s.server, s.repository, s.username, s.password, s.extraHeaders, fetch);
    var cachePath, metadataPath, err;
    fs', cachePath, metadataPath, err := GetCachePaths(fs, nexusPath, s.repository);
    if err.Some? {
      return fs', Failure(OsFailure(err.value));
    }
    if IsCacheValid(fs', cachePath, metadataPath, metadata, readSidecar) {
      var copied := CopyFile(fs', cachePath, local);
      if copied.Failure? {
        return fs', Failure(OsFailure(copied.error));
      }
      return copied.value.0, Success(McapFixture(local));
    }
    fs', r := DownloadIntoCache(nexusPath, fs', s, metadata, cachePath, metadataPath, local, curl, encode);
  }

  /** The cache-miss half of `download`. */
  method DownloadIntoCache(nexusPath: string, fs: Node, s: Settings, metadata: Option<AssetMetadata>, cache: string,
                           sidecar: string, local: string, curl: (Node, seq<string>) -> CurlRun, encode: Sidecar -> Bytes)
    returns (fs': Node, r: Result<McapFixture, NexusError>)
    ensures (fs', r) == Fetch(nexusPath, fs, s, metadata, cache, sidecar, local, curl, encode)
  {
    var success, httpCode;
    fs', success, httpCode := DownloadToPath(fs, nexusPath, cache, s, curl);
    if !success {
      return fs', Failure(RuntimeError(DownloadFailedMessage(nexusPath, httpCode)));
    }
    var verified := VerifyMcap(fs', cache);
    if verified.Failure? {
      return fs', Failure(OsFailure(verified.error));
    }
    if !verified.value {
      var removed := Unlink(fs', cache, true);
      if removed.Failure? {
        return fs', Failure(OsFailure(removed.error));
      }
      return removed.value, Failure(RuntimeError(NotMcapMessage(nexusPath)));
    }
    fs' := WriteSidecar(fs', sidecar, SidecarFor(s.repository, nexusPath, metadata), encode);
    var copied := CopyFile(fs', cache, local);
    if copied.Failure? {
      return fs', Failure(OsFailure(copied.error));
    }
    return copied.value.0, Success(McapFixture(local));
  }

  // ---------------------------------------------------------------------------------------------
  // Properties of the download flow

  /** The cached file's path is well formed, so its string resolves to its parts. */
  lemma CachePathWellFormed(repo: string, nexusPath: string)
    ensures Paths.WellFormed(CachePath(repo, nexusPath))
  {
    hide Paths.Parse, Paths.Div;
    Paths.DivWellFormed(Paths.Parse(CacheDir), repo + "/" + nexusPath);
  }

  /** The sidecar's parts: the cached file's, with `.meta` added to the last. */
  lemma SidecarParts(cache: Paths.PurePath)
    requires Paths.WellFormed(cache) && cache.parts != []
    ensures var n := |cache.parts|;
      SidecarPath(cache).parts == cache.parts[..n - 1] + [cache.parts[n - 1] + ".meta"] && Paths.WellFormed(SidecarPath(cache))
  {
    var n := |cache.parts|;
    var name := cache.parts[n - 1] + ".meta";
    MetaNameIsPart(cache.parts[n - 1]);
    Paths.ParentOfDiv(Paths.Parent(cache), name);
    var all := SidecarPath(cache).parts;
    assert all == cache.parts[..n - 1] + [name];
  }

  /** The cached file and its sidecar are different files, neither inside the other. */
  lemma CachePathsApart(repo: string, nexusPath: string)
    requires CachePath(repo, nexusPath).parts != []
    ensures var cache := CachePath(repo, nexusPath);
      Apart(Locate(Paths.Render(cache)), Locate(Paths.Render(SidecarPath(cache))))
  {
    var cache := CachePath(repo, nexusPath);
    CachePathWellFormed(repo, nexusPath);
    SidecarParts(cache);
    Paths.ParseRender(cache);
    Paths.ParseRender(SidecarPath(cache));
    var n := |cache.parts|;
    assert |cache.parts[n - 1] + ".meta"| != |cache.parts[n - 1]|;
    assert SidecarPath(cache).parts[n - 1] != cache.parts[n - 1];
  }

  /** A valid cache means copying only: curl is never run and no sidecar is written. */
  lemma CacheHitSkipsDownload(nexusPath: string, fs: Node, s: Settings, local: string,
                              fetch: SearchRequest -> Option<seq<Item>>, curl: (Node, seq<string>) -> CurlRun,
                              otherCurl: (Node, seq<string>) -> CurlRun, readSidecar: Bytes -> Option<CachedMetadata>,
                              encode: Sidecar -> Bytes, otherEncode: Sidecar -> Bytes)
    requires var cache := CachePath(s.repository, nexusPath);
      var made := EnsureDir(fs, Paths.Render(Paths.Parent(cache)));
      made.Success? &&
      IsCacheValid(made.value, Paths.Render(cache), Paths.Render(SidecarPath(cache)),
                   RemoteMetadata(nexusPath, s.server, s.repository, s.username, s.password, s.extraHeaders, fetch), readSidecar)
    ensures FromFolder(nexusPath, fs, s, local, fetch, curl, readSidecar, encode) ==
            FromFolder(nexusPath, fs, s, local, fetch, otherCurl, readSidecar, otherEncode)
    ensures var cache := CachePath(s.repository, nexusPath);
      FromFolder(nexusPath, fs, s, local, fetch, curl, readSidecar, encode) ==
      CopyOut(EnsureDir(fs, Paths.Render(Paths.Parent(cache))).value, Paths.Render(cache), local)
  {
    hide IsCacheValid, CopyOut, RemoteMetadata;
  }

  /** The curl run of a cache miss. */
  function CurlRunOf(nexusPath: string, fs: Node, s: Settings, cache: string, curl: (Node, seq<string>) -> CurlRun): CurlRun {
    curl(fs, CurlCommand(nexusPath, cache, s.server, s.repository, s.username, s.password, s.extraHeaders))
  }

  /**
   * A successful download that does not begin with the MCAP magic is removed from the cache and
   * reported as not an MCAP file.
   */
  lemma BadDownloadRemoved(nexusPath: string, fs: Node, s: Settings, metadata: Option<AssetMetadata>, cache: string,
                           sidecar: string, local: string, curl: (Node, seq<string>) -> CurlRun, encode: Sidecar -> Bytes)
    requires var run := CurlRunOf(nexusPath, fs, s, cache, curl);
      DownloadVerdict(run.returncode, run.stdout).0 && VerifyMcap(run.fs, cache) == Success(false)
    requires Locate(cache) != []
    ensures var r := Fetch(nexusPath, fs, s, metadata, cache, sidecar, local, curl, encode);
      r.1 == Failure(RuntimeError(NotMcapMessage(nexusPath))) && !IsFile(r.0, cache)
  {
    var run := CurlRunOf(nexusPath, fs, s, cache, curl);
    UnlinkFile(run.fs, cache, true);
    UnlinkRemoves(run.fs, cache, true);
  }

  /** The sidecar is left as it was unless the downloaded file passed the magic check. */
  lemma SidecarOnlyAfterVerify(nexusPath: string, fs: Node, s: Settings, metadata: Option<AssetMetadata>, cache: string,
                               sidecar: string, local: string, curl: (Node, seq<string>) -> CurlRun, encode: Sidecar -> Bytes)
    requires Apart(Locate(cache), Locate(sidecar))
    ensures var run := CurlRunOf(nexusPath, fs, s, cache, curl);
      var r := Fetch(nexusPath, fs, s, metadata, cache, sidecar, local, curl, encode);
      !(DownloadVerdict(run.returncode, run.stdout).0 && VerifyMcap(run.fs, cache) == Success(true)) ==>
        At(r.0, sidecar) == At(run.fs, sidecar)
  {
    hide CurlCommand, WriteSidecar, CopyOut, DownloadVerdict, VerifyMcap, Locate, Unlink, At;
    var run := CurlRunOf(nexusPath, fs, s, cache, curl);
    if DownloadVerdict(run.returncode, run.stdout).0 && VerifyMcap(run.fs, cache) == Success(false) {
      if Unlink(run.fs, cache, true).Success? {
        UnlinkKeepsApart(run.fs, cache, true, sidecar);
      }
    }
  }

  /**
   * Once a verified download's sidecar is written, the cache is valid for the metadata it was
   * written from, provided reading a sidecar gives back what writing it stored.
   */
  lemma VerifiedDownloadCached(nexusPath: string, fs: Node, s: Settings, metadata: Option<AssetMetadata>, cache: string,
                               sidecar: string, curl: (Node, seq<string>) -> CurlRun,
                               readSidecar: Bytes -> Option<CachedMetadata>, encode: Sidecar -> Bytes)
    requires var run := CurlRunOf(nexusPath, fs, s, cache, curl); VerifyMcap(run.fs, cache) == Success(true)
    requires Apart(Locate(cache), Locate(sidecar))
    requires metadata.Some? && Truthy(metadata.value.checksum)
    requires var run := CurlRunOf(nexusPath, fs, s, cache, curl); var written := SidecarFor(s.repository, nexusPath, metadata);
      WriteFile(run.fs, sidecar, encode(written)).Success? &&
      readSidecar(encode(written)) == Some(CachedMetadata(written.id, written.checksum))
    ensures var run := CurlRunOf(nexusPath, fs, s, cache, curl);
      IsCacheValid(WriteSidecar(run.fs, sidecar, SidecarFor(s.repository, nexusPath, metadata), encode), cache, sidecar, metadata, readSidecar)
  {
    var run := CurlRunOf(nexusPath, fs, s, cache, curl);
    var data := encode(SidecarFor(s.repository, nexusPath, metadata));
    WriteFileWrites(run.fs, sidecar, data);
    var p, q := Locate(sidecar), Locate(cache);
    assert Apart(p, q) by {
      var k :| 0 <= k < |q| && k < |p| && q[k] != p[k];
    }
    LookupPutApart(run.fs, p, File(data), q);
  }
}
