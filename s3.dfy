/**
 * The S3 fixture provider: its settings come from the constructor's arguments with the
 * environment as fallback, its boto3 client is configured from them, and `download` fetches the
 * object into a destination folder, mapping every failure of the S3 calls to a `RuntimeError`.
 * boto3's `head_object` and `download_file` and the environment are functions the caller
 * supplies; the file system is a value passed in and out.
 */
module S3 {
  import opened Wrappers
  import opened Strings
  import Paths
  import opened FileTree
  import opened Models
  import opened OrderedDicts

  /** The provider's settings after the fallbacks of its constructor. */
  datatype S3Fixture = S3Fixture(key: string, bucket: string, regionName: string, accessKeyId: Option<string>,
                                 secretAccessKey: Option<string>, sessionToken: Option<string>, endpointUrl: Option<string>)

  /** Python's `arg or fallback` on an optional string. */
  function Or(arg: Option<string>, fallback: Option<string>): Option<string> {
    if Truthy(arg) then arg else fallback
  }

  /** `S3Fixture(key, bucket, region_name, ...)`: each setting is its argument if truthy, otherwise the environment's. */
  function NewS3Fixture(key: string, bucket: Option<string>, regionName: Option<string>, accessKeyId: Option<string>,
                        secretAccessKey: Option<string>, sessionToken: Option<string>, endpointUrl: Option<string>,
                        env: string -> Option<string>): S3Fixture
  {
    S3Fixture(key,
              Or(bucket, Some(env("AWS_BUCKET").GetOr(""))).value,
              Or(regionName, Some(env("AWS_DEFAULT_REGION").GetOr("us-east-1"))).value,
              Or(accessKeyId, env("AWS_ACCESS_KEY_ID")),
              Or(secretAccessKey, env("AWS_SECRET_ACCESS_KEY")),
              Or(sessionToken, env("AWS_SESSION_TOKEN")),
              Or(endpointUrl, env("AWS_S3_ENDPOINT_URL")))
  }

  /** A truthy argument is kept as given, whatever the environment holds. */
  lemma ArgumentsOverrideEnvironment(key: string, bucket: Option<string>, regionName: Option<string>,
                                     accessKeyId: Option<string>, secretAccessKey: Option<string>,
                                     sessionToken: Option<string>, endpointUrl: Option<string>, env: string -> Option<string>)
    ensures var f := NewS3Fixture(key, bucket, regionName, accessKeyId, secretAccessKey, sessionToken, endpointUrl, env);
      f.key == key &&
      (Truthy(bucket) ==> f.bucket == bucket.value) && (Truthy(regionName) ==> f.regionName == regionName.value) &&
      (Truthy(accessKeyId) ==> f.accessKeyId == accessKeyId) && (Truthy(secretAccessKey) ==> f.secretAccessKey == secretAccessKey) &&
      (Truthy(sessionToken) ==> f.sessionToken == sessionToken) && (Truthy(endpointUrl) ==> f.endpointUrl == endpointUrl)
  {
  }

  /**
   * An argument that is missing or empty gives way to its environment variable; without one the
   * bucket is empty, the region is `us-east-1` and the other settings are `None`.
   */
  lemma EnvironmentFallback(key: string, bucket: Option<string>, regionName: Option<string>,
                            accessKeyId: Option<string>, secretAccessKey: Option<string>,
                            sessionToken: Option<string>, endpointUrl: Option<string>, env: string -> Option<string>)
    ensures var f := NewS3Fixture(key, bucket, regionName, accessKeyId, secretAccessKey, sessionToken, endpointUrl, env);
      (!Truthy(bucket) ==> f.bucket == (if env("AWS_BUCKET").Some? then env("AWS_BUCKET").value else "")) &&
      (!Truthy(regionName) ==> f.regionName == (if env("AWS_DEFAULT_REGION").Some? then env("AWS_DEFAULT_REGION").value else "us-east-1")) &&
      (!Truthy(accessKeyId) ==> f.accessKeyId == env("AWS_ACCESS_KEY_ID")) &&
      (!Truthy(secretAccessKey) ==> f.secretAccessKey == env("AWS_SECRET_ACCESS_KEY")) &&
      (!Truthy(sessionToken) ==> f.sessionToken == env("AWS_SESSION_TOKEN")) &&
      (!Truthy(endpointUrl) ==> f.endpointUrl == env("AWS_S3_ENDPOINT_URL"))
  {
  }

  /** What `_create_s3_client` hands to boto3: the keyword arguments of the session and of the client. */
  datatype Client = Client(session: Dict<string>, client: Dict<string>)

  /** The session's keyword arguments: the credentials only when both the key ID and the secret are truthy, the session token only then and when truthy itself. */
  function SessionKwargs(f: S3Fixture): (d: Dict<string>)
    ensures KeysDistinct(d)
    ensures var credentials := Truthy(f.accessKeyId) && Truthy(f.secretAccessKey);
      Get(d, "aws_access_key_id") == (if credentials then f.accessKeyId else None) &&
      Get(d, "aws_secret_access_key") == (if credentials then f.secretAccessKey else None) &&
      Get(d, "aws_session_token") == (if credentials && Truthy(f.sessionToken) then f.sessionToken else None)
    ensures forall k :: k != "aws_access_key_id" && k != "aws_secret_access_key" && k != "aws_session_token" ==> Get(d, k) == None
  {
    if Truthy(f.accessKeyId) && Truthy(f.secretAccessKey) then
      var withKeys := Assign(Assign([], "aws_access_key_id", f.accessKeyId.value), "aws_secret_access_key", f.secretAccessKey.value);
      if Truthy(f.sessionToken) then Assign(withKeys, "aws_session_token", f.sessionToken.value) else withKeys
    else []
  }

  /** The client's keyword arguments: the service `s3`, with the region and the endpoint when each is truthy. */
  function ClientKwargs(f: S3Fixture): (d: Dict<string>)
    ensures KeysDistinct(d)
    ensures Get(d, "service_name") == Some("s3")
    ensures Get(d, "region_name") == (if f.regionName != "" then Some(f.regionName) else None)
    ensures Get(d, "endpoint_url") == (if Truthy(f.endpointUrl) then f.endpointUrl else None)
    ensures forall k :: k != "service_name" && k != "region_name" && k != "endpoint_url" ==> Get(d, k) == None
  {
    var service := Assign([], "service_name", "s3");
    var withRegion := if f.regionName != "" then Assign(service, "region_name", f.regionName) else service;
    if Truthy(f.endpointUrl) then Assign(withRegion, "endpoint_url", f.endpointUrl.value) else withRegion
  }

  /** `_create_s3_client`: a session with its keyword arguments, and a client of it with its own. */
  function CreateS3Client(f: S3Fixture): Client {
    Client(SessionKwargs(f), ClientKwargs(f))
  }


  /** The `Error` entry of a `ClientError`'s response, with its `Code` and `Message` when present. */
  datatype ErrorBody = ErrorBody(code: Option<string>, message: Option<string>)

  /** What a boto3 call raises: a `ClientError` (its response's `Error` entry and `str(e)`), `NoCredentialsError`, or anything else (with `str(e)`). */
  datatype BotoError = ClientError(error: Option<ErrorBody>, text: string) | NoCredentialsError | OtherError(text: string)

  /** What `download` raises. */
  datatype S3Error = TypeError(message: string) | OsFailure(error: OsError) | RuntimeError(message: string)

  const CredentialsMessage :=
    "AWS credentials not configured. Set AWS_ACCESS_KEY_ID and AWS_SECRET_ACCESS_KEY environment variables or configure AWS CLI."

  /** The generic handler's error for an exception whose `str` is `text`. */
  function Unexpected(text: string): S3Error {
    RuntimeError("Failed to download fixture from S3: " + text)
  }

  function NotFoundMessage(bucket: string, key: string): string {
    "S3 object not found: s3://" + bucket + "/" + key
  }

  /**
   * The error a failed `head_object` ends in. Its `ClientError` is turned into a `RuntimeError`
   * that the generic handler wraps again; reading `Error` or `Code` of a response without them
   * raises a `KeyError`, whose `str` is the quoted key.
   */
  function HeadFailure(f: S3Fixture, e: BotoError): (r: S3Error)
    ensures r.RuntimeError?
    ensures e.NoCredentialsError? ==> r == RuntimeError(CredentialsMessage)
  {
    match e
    case NoCredentialsError => RuntimeError(CredentialsMessage)
    case OtherError(text) => Unexpected(text)
    case ClientError(None, _) => Unexpected("'Error'")
    case ClientError(Some(ErrorBody(None, _)), _) => Unexpected("'Code'")
    case ClientError(Some(ErrorBody(Some(code), _)), text) =>
      if code == "404" then Unexpected(NotFoundMessage(f.bucket, f.key))
      else Unexpected("Failed to get object metadata: " + text)
  }

  /** The error a failed `download_file` ends in: a `ClientError` reports its message, or `str(e)` without one. */
  function FetchFailure(e: BotoError): (r: S3Error)
    ensures r.RuntimeError?
    ensures e.NoCredentialsError? ==> r == RuntimeError(CredentialsMessage)
  {
    match e
    case NoCredentialsError => RuntimeError(CredentialsMessage)
    case OtherError(text) => Unexpected(text)
    case ClientError(body, text) =>
      RuntimeError("Failed to download from S3: " + (if body.Some? && body.value.message.Some? then body.value.message.value else text))
  }

  /** `os.path.join(destination_folder, os.path.basename(key))`. */
  function LocalPath(destination: string, key: string): string {
    Paths.OsJoin(destination, Paths.Basename(key))
  }

  function NoPathMessage(filename: string): string {
    "No valid path provided: " + filename
  }

  /**
   * `S3Fixture.download(destination_folder)`: a key without a base name is refused before
   * anything else; the destination folder is made outside the `try`, so its error passes
   * unchanged; then the object's metadata is fetched and the object downloaded to the local
   * path, which must exist afterwards. A local path without the `.mcap` suffix is only warned about.
   */
  function DownloadSpec(f: S3Fixture, fs: Node, destination: string,
                        head: (Client, string, string) -> Option<BotoError>,
                        fetch: (Node, Client, string, string, string) -> Result<Node, BotoError>): (r: (Node, Result<McapFixture, S3Error>))
    ensures r.1.Success? ==> r.1.value.path == LocalPath(destination, f.key) && Exists(r.0, r.1.value.path)
  {
    var filename := Paths.Basename(f.key);
    if filename == "" then (fs, Failure(TypeError(NoPathMessage(filename))))
    else match EnsureDir(fs, destination)
      case Failure(e) => (fs, Failure(OsFailure(e)))
      case Success(made) =>
        var local := LocalPath(destination, f.key);
        var client := CreateS3Client(f);
        match head(client, f.bucket, f.key)
        case Some(e) => (made, Failure(HeadFailure(f, e)))
        case None =>
          match fetch(made, client, f.bucket, f.key, local)
          case Failure(e) => (made, Failure(FetchFailure(e)))
          case Success(fetched) =>
            if !Exists(fetched, local) then (fetched, Failure(Unexpected("Downloaded file not found at " + local)))
            else (fetched, Success(McapFixture(local)))
  }

  /** `S3Fixture.download`, with the client `_create_s3_client` configures. */
  method Download(f: S3Fixture, fs: Node, destination: string,
                  head: (Client, string, string) -> Option<BotoError>,
                  fetch: (Node, Client, string, string, string) -> Result<Node, BotoError>)
    returns (fs': Node, r: Result<McapFixture, S3Error>)
    ensures (fs', r) == DownloadSpec(f, fs, destination, head, fetch)
    ensures r.Success? ==> r.value.path == LocalPath(destination, f.key) && Exists(fs', r.value.path)
  {
    hide EnsureDir, Exists, CreateS3Client, HeadFailure, FetchFailure, Paths.OsJoin, Unexpected;
    var filename := Paths.Basename(f.key);
    if filename == "" {
      return fs, Failure(TypeError(NoPathMessage(filename)));
    }
    var made := EnsureDir(fs, destination);
    if made.Failure? {
      return fs, Failure(OsFailure(made.error));
    }
    var local := Paths.OsJoin(destination, filename);
    var client := CreateS3Client(f);
    fs' := made.value;
    var headError := head(client, f.bucket, f.key);
    if headError.Some? {
      r := Failure(HeadFailure(f, headError.value));
    } else {
      var fetched := fetch(fs', client, f.bucket, f.key, local);
      if fetched.Failure? {
        r := Failure(FetchFailure(fetched.error));
      } else if !Exists(fetched.value, local) {
        fs', r := fetched.value, Failure(Unexpected("Downloaded file not found at " + local));
      } else {
        fs', r := fetched.value, Success(McapFixture(local));
      }
    }
  }

  /** A key without a base name (empty, or ending in '/') is refused with a `TypeError`, before any call to S3 or the file system. */
  lemma EmptyBasenameRefused(f: S3Fixture, fs: Node, destination: string,
                             head: (Client, string, string) -> Option<BotoError>,
                             fetch: (Node, Client, string, string, string) -> Result<Node, BotoError>)
    ensures Paths.Basename(f.key) == "" <==> f.key == "" || f.key[|f.key| - 1] == '/'
    ensures Paths.Basename(f.key) == "" ==>
      DownloadSpec(f, fs, destination, head, fetch) == (fs, Failure(TypeError("No valid path provided: ")))
  {
    if f.key != "" && f.key[|f.key| - 1] == '/' {
      Paths.DirLengthUnique(f.key, |f.key|);
    }
    assert NoPathMessage("") == "No valid path provided: ";
  }

  /**
   * `download` succeeds exactly when the key has a base name, the folder can be made, the
   * metadata request succeeds and the downloaded file exists; the `.mcap` suffix plays no part.
   * Its errors: `TypeError` for a key without a base name, the folder's own error when it cannot
   * be made, and `RuntimeError` for everything that fails after that.
   */
  lemma DownloadOutcome(f: S3Fixture, fs: Node, destination: string,
                        head: (Client, string, string) -> Option<BotoError>,
                        fetch: (Node, Client, string, string, string) -> Result<Node, BotoError>)
    ensures var r := DownloadSpec(f, fs, destination, head, fetch).1;
      var made := EnsureDir(fs, destination);
      var client := CreateS3Client(f);
      var local := LocalPath(destination, f.key);
      (r.Success? <==>
        Paths.Basename(f.key) != "" && made.Success? && head(client, f.bucket, f.key).None? &&
        fetch(made.value, client, f.bucket, f.key, local).Success? &&
        Exists(fetch(made.value, client, f.bucket, f.key, local).value, local)) &&
      (r.Failure? ==>
        (r.error.TypeError? <==> Paths.Basename(f.key) == "") &&
        (r.error.OsFailure? <==> Paths.Basename(f.key) != "" && made.Failure?) &&
        (Paths.Basename(f.key) != "" && made.Success? ==> r.error.RuntimeError?))
  {
  }

  /** A missing object is reported as not found, wrapped by the generic handler. */
  lemma NotFoundRewrapped(f: S3Fixture, fs: Node, destination: string, message: Option<string>, text: string,
                          head: (Client, string, string) -> Option<BotoError>,
                          fetch: (Node, Client, string, string, string) -> Result<Node, BotoError>)
    requires Paths.Basename(f.key) != "" && EnsureDir(fs, destination).Success?
    requires head(CreateS3Client(f), f.bucket, f.key) == Some(ClientError(Some(ErrorBody(Some("404"), message)), text))
    ensures DownloadSpec(f, fs, destination, head, fetch).1 == Failure(Unexpected(NotFoundMessage(f.bucket, f.key)))
  {
    hide CreateS3Client, EnsureDir, LocalPath, Exists, Unexpected, NotFoundMessage;
    var made := EnsureDir(fs, destination).value;
    var e := head(CreateS3Client(f), f.bucket, f.key).value;
    assert DownloadSpec(f, fs, destination, head, fetch) == (made, Failure(HeadFailure(f, e)));
  }

  /** Missing credentials, at either call, give the one message that says how to configure them. */
  lemma MissingCredentials(f: S3Fixture, fs: Node, destination: string,
                           head: (Client, string, string) -> Option<BotoError>,
                           fetch: (Node, Client, string, string, string) -> Result<Node, BotoError>)
    requires Paths.Basename(f.key) != "" && EnsureDir(fs, destination).Success?
    requires var client := CreateS3Client(f);
      head(client, f.bucket, f.key) == Some(NoCredentialsError) ||
      (head(client, f.bucket, f.key).None? &&
       fetch(EnsureDir(fs, destination).value, client, f.bucket, f.key, LocalPath(destination, f.key)) == Failure(NoCredentialsError))
    ensures DownloadSpec(f, fs, destination, head, fetch).1 == Failure(RuntimeError(CredentialsMessage))
  {
    if head(CreateS3Client(f), f.bucket, f.key).Some? {
      HeadCredentials(f, fs, destination, head, fetch);
    } else {
      FetchCredentials(f, fs, destination, head, fetch);
    }
  }

  lemma HeadCredentials(f: S3Fixture, fs: Node, destination: string,
                        head: (Client, string, string) -> Option<BotoError>,
                        fetch: (Node, Client, string, string, string) -> Result<Node, BotoError>)
    requires Paths.Basename(f.key) != "" && EnsureDir(fs, destination).Success?
    requires head(CreateS3Client(f), f.bucket, f.key) == Some(NoCredentialsError)
    ensures DownloadSpec(f, fs, destination, head, fetch).1 == Failure(RuntimeError(CredentialsMessage))
  {
    hide CreateS3Client, EnsureDir, LocalPath, Exists, Unexpected, HeadFailure, FetchFailure, Paths.Basename, Paths.OsJoin, NoPathMessage;
    assert DownloadSpec(f, fs, destination, head, fetch).1 == Failure(HeadFailure(f, NoCredentialsError));
  }

  lemma FetchCredentials(f: S3Fixture, fs: Node, destination: string,
                         head: (Client, string, string) -> Option<BotoError>,
                         fetch: (Node, Client, string, string, string) -> Result<Node, BotoError>)
    requires Paths.Basename(f.key) != "" && EnsureDir(fs, destination).Success?
    requires var client := CreateS3Client(f);
      head(client, f.bucket, f.key).None? &&
      fetch(EnsureDir(fs, destination).value, client, f.bucket, f.key, LocalPath(destination, f.key)) == Failure(NoCredentialsError)
    ensures DownloadSpec(f, fs, destination, head, fetch).1 == Failure(RuntimeError(CredentialsMessage))
  {
    hide CreateS3Client, EnsureDir, LocalPath, Exists, Unexpected, HeadFailure, FetchFailure, Paths.Basename, Paths.OsJoin, NoPathMessage;
    assert DownloadSpec(f, fs, destination, head, fetch).1 == Failure(FetchFailure(NoCredentialsError));
  }


  /** The local file is named after the key's base name and lies in the destination folder. */
  lemma LocalPathRule(destination: string, key: string)
    requires Paths.Basename(key) != ""
    ensures StartsWith(LocalPath(destination, key), destination)
    ensures Paths.Basename(LocalPath(destination, key)) == Paths.Basename(key)
  {
    Paths.BasenameOfJoin(destination, Paths.Basename(key));
  }
}
