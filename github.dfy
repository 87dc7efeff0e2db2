/**
 * The GitHub side of the self-update (internal/update/github.go): the
 * latest-release query, whose HTTP exchange goes through an injected
 * client, and the choice of the release asset for one platform.
 */
module GitHub {
  import opened Wrappers
  import opened Errors
  import opened Seqs

  const RepoOwner := "hiragram"
  const RepoName := "agent-workspace"

  /** The address of the latest-release endpoint of the project's repository. */
  const LatestReleaseURL := "https://api.github.com/repos/" + RepoOwner + "/" + RepoName + "/releases/latest"

  const GitHubJson := "application/vnd.github+json"

  /** One downloadable file of a release. */
  datatype Asset = Asset(name: string, browserDownloadURL: string)

  /** The fields the updater reads from a release. */
  datatype ReleaseInfo = ReleaseInfo(tagName: string, assets: seq<Asset>)

  /** An HTTP request as the client sees it: method (verb), address and the Accept header, if set. */
  datatype Request = Request(verb: string, url: string, accept: Option<string>)

  /** An HTTP response: status code and the whole body. */
  datatype Response = Response(statusCode: int, body: seq<byte>)

  /** The request `FetchLatestRelease` sends. */
  const LatestRequest := Request("GET", LatestReleaseURL, Some(GitHubJson))

  /** The errors of `FetchLatestRelease`. */
  datatype FetchError =
    | FetchingLatestRelease(cause: string)         // fetching latest release: %w
    | ApiStatus(status: int, body: seq<byte>)      // GitHub API returned status %d: %s
    | ParsingReleaseInfo(cause: string)            // parsing release info: %w

  /**
   * An HTTP client whose answers are fixed in advance: `respond` is what
   * the network would return for each request (a transport error or a
   * response), and `sent` records every request in order.
   */
  class HttpClient {
    const respond: Request -> Result<Response, string>
    var sent: seq<Request>

    constructor(respond: Request -> Result<Response, string>)
      ensures this.respond == respond && sent == []
    {
      this.respond := respond;
      sent := [];
    }

    /** `Do`: sends one request and returns the network's answer to it. */
    method Do(req: Request) returns (r: Result<Response, string>)
      modifies this
      ensures r == respond(req)
      ensures sent == old(sent) + [req]
    {
      sent := sent + [req];
      r := respond(req);
    }
  }

  /**
   * What `FetchLatestRelease` makes of the client's answer: a transport
   * error and a status other than 200 are errors, and only a 200 body is
   * handed to the JSON decoder `decode`.
   */
  function ReleaseFromResponse(answer: Result<Response, string>, decode: seq<byte> -> Result<ReleaseInfo, string>)
    : (r: Result<ReleaseInfo, FetchError>)
    ensures answer.Err? ==> r == Err(FetchingLatestRelease(answer.error))
    ensures answer.Ok? && answer.value.statusCode != 200 ==>
              r == Err(ApiStatus(answer.value.statusCode, answer.value.body))
    ensures r.Ok? <==> answer.Ok? && answer.value.statusCode == 200 && decode(answer.value.body).Ok?
    ensures r.Ok? ==> r.value == decode(answer.value.body).value
  {
    match answer
    case Err(e) => Err(FetchingLatestRelease(e))
    case Ok(resp) =>
      if resp.statusCode != 200 then Err(ApiStatus(resp.statusCode, resp.body))
      else
        match decode(resp.body)
        case Err(e) => Err(ParsingReleaseInfo(e))
        case Ok(release) => Ok(release)
  }

  /** A status other than 200 is an error whatever the decoder would make of the body: the body is never decoded. */
  lemma StatusGateSkipsDecoding(resp: Response, d1: seq<byte> -> Result<ReleaseInfo, string>,
                                d2: seq<byte> -> Result<ReleaseInfo, string>)
    requires resp.statusCode != 200
    ensures ReleaseFromResponse(Ok(resp), d1) == ReleaseFromResponse(Ok(resp), d2)
    ensures ReleaseFromResponse(Ok(resp), d1).Err?
  {
  }

  /**
   * `FetchLatestRelease`: one GET of the latest-release endpoint with the
   * GitHub JSON media type, then the status gate and the decoding.
   */
  method FetchLatestRelease(client: HttpClient, decode: seq<byte> -> Result<ReleaseInfo, string>)
    returns (r: Result<ReleaseInfo, FetchError>)
    modifies client
    ensures client.sent == old(client.sent) + [LatestRequest]
    ensures r == ReleaseFromResponse(client.respond(LatestRequest), decode)
  {
    var answer := client.Do(LatestRequest);
    if answer.Err? {
      return Err(FetchingLatestRelease(answer.error));
    }
    var resp := answer.value;
    if resp.statusCode != 200 {
      return Err(ApiStatus(resp.statusCode, resp.body));
    }
    var decoded := decode(resp.body);
    if decoded.Err? {
      return Err(ParsingReleaseInfo(decoded.error));
    }
    r := Ok(decoded.value);
  }

  /** The archive name of the release built for `goos`/`goarch`. */
  function AssetName(goos: string, goarch: string): string
  {
    "aw_" + goos + "_" + goarch + ".tar.gz"
  }

  /** The error of `FindAssetURL`: no asset for this platform. */
  datatype AssetError = AssetNotFound(goos: string, goarch: string)

  function AssetErrorMessage(e: AssetError): string
  {
    "no release asset found for " + e.goos + "/" + e.goarch
  }

  /** The asset is called `expected`. */
  predicate Named(expected: string, a: Asset)
  {
    a.name == expected
  }

  /**
   * `FindAssetURL`: the download address of the first asset named exactly
   * `AssetName(goos, goarch)`; an error when there is none.
   */
  function FindAssetURL(release: ReleaseInfo, goos: string, goarch: string): (r: Result<string, AssetError>)
    ensures r.Err? <==> forall j :: 0 <= j < |release.assets| ==> release.assets[j].name != AssetName(goos, goarch)
    ensures r.Err? ==> r.error == AssetNotFound(goos, goarch)
    ensures r.Ok? ==> exists i :: 0 <= i < |release.assets|
                        && release.assets[i].name == AssetName(goos, goarch)
                        && release.assets[i].browserDownloadURL == r.value
                        && forall j :: 0 <= j < i ==> release.assets[j].name != AssetName(goos, goarch)
  {
    match FirstWhere(release.assets, a => Named(AssetName(goos, goarch), a))
    case None => Err(AssetNotFound(goos, goarch))
    case Some(i) => Ok(release.assets[i].browserDownloadURL)
  }

  /** Assets in front that do not match change nothing: the first matching asset wins, wherever it is. */
  lemma FindAssetURLSkipsOthers(others: seq<Asset>, rest: seq<Asset>, tag: string, goos: string, goarch: string)
    requires forall j :: 0 <= j < |others| ==> others[j].name != AssetName(goos, goarch)
    ensures FindAssetURL(ReleaseInfo(tag, others + rest), goos, goarch) == FindAssetURL(ReleaseInfo(tag, rest), goos, goarch)
  {
    FirstWhereAfter(others, rest, a => Named(AssetName(goos, goarch), a));
  }

  /** The cases of github_test.go: the darwin/arm64 asset is found; a windows/amd64 asset is not. */
  lemma FindAssetURLExamples()
    ensures FindAssetURL(ReleaseInfo("", [Asset("aw_darwin_arm64.tar.gz", "https://example.com/darwin_arm64.tar.gz"),
                                          Asset("aw_linux_amd64.tar.gz", "https://example.com/linux_amd64.tar.gz")]),
                         "darwin", "arm64")
            == Ok("https://example.com/darwin_arm64.tar.gz")
    ensures FindAssetURL(ReleaseInfo("", [Asset("aw_linux_amd64.tar.gz", "https://example.com/linux_amd64.tar.gz")]),
                         "windows", "amd64")
            == Err(AssetNotFound("windows", "amd64"))
  {
    assert AssetName("darwin", "arm64") == "aw_darwin_arm64.tar.gz";
    assert AssetName("windows", "amd64") != "aw_linux_amd64.tar.gz" by {
      assert AssetName("windows", "amd64")[3] == 'w';
    }
  }

  /** The not-found message names the platform and says that no asset was found. */
  lemma AssetErrorMessageSaysNotFound(goos: string, goarch: string)
    ensures Contains(AssetErrorMessage(AssetNotFound(goos, goarch)), "no release asset found")
  {
    var m := AssetErrorMessage(AssetNotFound(goos, goarch));
    assert m[0..22] == "no release asset found";
  }
}
