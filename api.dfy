/**
 * The client of the image service (src/api/index.ts). The HTTP exchanges
 * themselves are outside the model: each operation receives the outcome of
 * its request as an input and returns the requests it issued, so that a
 * guard that fires "before any request" is visible as an empty list.
 */
module Api {
  import opened Wrappers
  import opened Types
  import Url

  const ApiHost := "https://api.gyazo.com"
  const RedirectUrl := "https://gyazo.com/oauth/obsidian/callback"
  const ClientId := "YOUR_CLIENT_ID"
  const ClientSecret := "YOUR_CLIENT_SECRET"

  /** The outcome of one HTTP request: the data of a successful response, or any failure. */
  datatype HttpResult<T> = Ok(data: T) | Failed

  /** The requests the client issues. */
  datatype Request =
    | ListImages(url: string, accessToken: string, perPage: int)
    | ExchangeCode(url: string, clientId: string, clientSecret: string, redirectUri: string,
                   grantType: string, code: string)
    | CurrentUser(url: string, accessToken: string)

  /** Why an operation threw: no token was held, or the request failed. */
  datatype ApiError = NoAccessToken | RequestFailed

  /** An image record as the server sends it; `kind` is its optional `type` field. */
  datatype RawImage = RawImage(
    imageId: string,
    permalinkUrl: string,
    thumbUrl: string,
    url: string,
    kind: Option<string>,
    createdAt: string,
    altText: Option<string>,
    ocr: Option<Ocr>,
    metadata: Option<Metadata>)

  /** The body of a successful token exchange. */
  datatype TokenResponse = TokenResponse(accessToken: string)

  /** The authorization endpoint and the query parameters appended to it. */
  datatype AuthorizeUrl = AuthorizeUrl(endpoint: string, params: Url.Params)

  /** `String.prototype.endsWith`. */
  predicate EndsWith(s: string, suffix: string)
  {
    |suffix| <= |s| && s[|s| - |suffix|..] == suffix
  }

  /** The gif test of `determineType`: the type says gif, or the url ends in `.gif`. */
  predicate LooksLikeGif(raw: RawImage)
  {
    raw.kind == Some("gif") || EndsWith(raw.url, ".gif")
  }

  /** The mp4 test of `determineType`, consulted only after the gif test fails. */
  predicate LooksLikeMp4(raw: RawImage)
  {
    raw.kind == Some("mp4") || EndsWith(raw.url, ".mp4")
  }

  /**
   * The kind of a server record: gif first, then mp4, and png for everything
   * else (including jpg, webp and heic).
   */
  function DetermineType(raw: RawImage): (k: ImageKind)
    ensures k == Png || k == Gif || k == Mp4
    ensures k == Gif <==> LooksLikeGif(raw)
    ensures k == Mp4 <==> !LooksLikeGif(raw) && LooksLikeMp4(raw)
    ensures k == Png <==> !LooksLikeGif(raw) && !LooksLikeMp4(raw)
  {
    if raw.kind == Some("gif") || EndsWith(raw.url, ".gif") then Gif
    else if raw.kind == Some("mp4") || EndsWith(raw.url, ".mp4") then Mp4
    else Png
  }

  /** The gif test runs first: a record typed mp4 whose url ends in `.gif` is a gif. */
  lemma GifTestWins(raw: RawImage)
    requires raw.kind == Some("mp4") && EndsWith(raw.url, ".gif")
    ensures DetermineType(raw) == Gif
  {
  }

  /** An explicit gif type wins over any url; a missing type falls back to the url's extension. */
  lemma DetermineTypeExamples(raw: RawImage)
    ensures DetermineType(raw.(kind := Some("gif"), url := "https://x/y.png")) == Gif
    ensures DetermineType(raw.(kind := None, url := "https://x/y.mp4")) == Mp4
    ensures DetermineType(raw.(kind := Some("jpg"), url := "https://x/y.jpg")) == Png
  {
    assert EndsWith("https://x/y.mp4", ".mp4");
    assert !EndsWith("https://x/y.mp4", ".gif") by { assert "https://x/y.mp4"[11..] != ".gif"; }
    assert !EndsWith("https://x/y.jpg", ".gif") by { assert "https://x/y.jpg"[11..] != ".gif"; }
    assert !EndsWith("https://x/y.jpg", ".mp4") by { assert "https://x/y.jpg"[11..] != ".mp4"; }
  }

  /**
   * One record of the image list as the client returns it: five fields copied,
   * the kind determined, the metadata replaced by `{}` when missing, and the
   * alternative text and OCR left out.
   */
  function MapImage(raw: RawImage): (img: GyazoImage)
    ensures img.imageId == raw.imageId && img.permalinkUrl == raw.permalinkUrl
    ensures img.thumbUrl == raw.thumbUrl && img.url == raw.url && img.createdAt == raw.createdAt
    ensures img.kind == DetermineType(raw)
    ensures img.metadata == raw.metadata.GetOr(EmptyMetadata)
    ensures img.altText == None && img.ocr == None
  {
    GyazoImage(raw.imageId, raw.permalinkUrl, raw.thumbUrl, raw.url, DetermineType(raw),
               raw.createdAt, None, None, if raw.metadata.Some? then raw.metadata.value else EmptyMetadata)
  }

  /** The records of a response mapped one by one (`response.data.map`). */
  function MapImages(raws: seq<RawImage>): (imgs: seq<GyazoImage>)
    ensures |imgs| == |raws|
  {
    if raws == [] then [] else [MapImage(raws[0])] + MapImages(raws[1..])
  }

  /** The mapping keeps the length and the order: record `i` becomes image `i`. */
  lemma {:induction false} MapImagesAt(raws: seq<RawImage>)
    ensures |MapImages(raws)| == |raws|
    ensures forall i :: 0 <= i < |raws| ==> MapImages(raws)[i] == MapImage(raws[i])
  {
    if raws != [] {
      MapImagesAt(raws[1..]);
      forall i | 0 < i < |raws| ensures MapImages(raws)[i] == MapImage(raws[i]) {
        assert raws[1..][i - 1] == raws[i];
      }
    }
  }

  /** The parameters of the authorization URL, in the order they are appended. */
  function AuthorizeParams(state: string): (ps: Url.Params)
    ensures |ps| == 5 && ps[4] == ("state", state)
  {
    [("client_id", ClientId), ("redirect_uri", RedirectUrl), ("response_type", "code"),
     ("scope", "public upload"), ("state", state)]
  }

  /** The parameter names, each once, in the order client id, redirect URI, response type, scope, state. */
  lemma AuthorizeParamNames(state: string)
    ensures |AuthorizeParams(state)| == 5
    ensures AuthorizeParams(state)[0].0 == "client_id" && AuthorizeParams(state)[1].0 == "redirect_uri"
    ensures AuthorizeParams(state)[2].0 == "response_type" && AuthorizeParams(state)[3].0 == "scope"
    ensures AuthorizeParams(state)[4].0 == "state"
    ensures forall i, j :: 0 <= i < j < 5 ==> AuthorizeParams(state)[i].0 != AuthorizeParams(state)[j].0
  {
  }

  /** Looking the fixed parameters up finds the client id, the redirect URL, `code` and `public upload`. */
  lemma AuthorizeFixedValues(state: string)
    ensures Url.Get(AuthorizeParams(state), "client_id") == Some(ClientId)
    ensures Url.Get(AuthorizeParams(state), "redirect_uri") == Some(RedirectUrl)
    ensures Url.Get(AuthorizeParams(state), "response_type") == Some("code")
    ensures Url.Get(AuthorizeParams(state), "scope") == Some("public upload")
  {
    var ps := AuthorizeParams(state);
    Url.GetAt(ps, 0, "client_id");
    Url.GetAt(ps, 1, "redirect_uri");
    Url.GetAt(ps, 2, "response_type");
    Url.GetAt(ps, 3, "scope");
  }

  /** Looking up `state` finds the state the URL was generated with. */
  lemma AuthorizeState(state: string)
    ensures Url.Get(AuthorizeParams(state), "state") == Some(state)
  {
    Url.GetAt(AuthorizeParams(state), 4, "state");
  }

  /** The API client: it holds one access token, fixed when it is built. */
  class GyazoApi {
    /** The token; a `const`, so nothing but the constructor writes it. */
    const accessToken: string

    constructor(accessToken: string)
      ensures this.accessToken == accessToken
    {
      this.accessToken := accessToken;
    }

    /**
     * Lists the user's images. Without a token it throws before any request;
     * otherwise it issues one request and maps a successful response, and a
     * failed request is rethrown.
     */
    method GetImages(limit: int, response: HttpResult<seq<RawImage>>)
      returns (r: Result<seq<GyazoImage>, ApiError>, sent: seq<Request>)
      ensures accessToken == "" ==> r == Failure(NoAccessToken) && sent == []
      ensures accessToken != "" ==> sent == [ListImages(ApiHost + "/api/images", accessToken, limit)]
      ensures accessToken != "" && response.Failed? ==> r == Failure(RequestFailed)
      ensures accessToken != "" && response.Ok? ==>
                && r.Success?
                && |r.value| == |response.data|
                && forall i :: 0 <= i < |r.value| ==> r.value[i] == MapImage(response.data[i])
    {
      if accessToken == "" {
        return Failure(NoAccessToken), [];
      }
      sent := [ListImages(ApiHost + "/api/images", accessToken, limit)];
      match response {
        case Ok(data) =>
          MapImagesAt(data);
          r := Success(MapImages(data));
        case Failed =>
          r := Failure(RequestFailed);
      }
    }

    /**
     * The authorization URL for a given anti-forgery `state`: the endpoint
     * with client id, redirect URI, response type, scope and state appended
     * in that order.
     */
    method GenerateAuthorizeUrl(state: string) returns (url: AuthorizeUrl)
      ensures url.endpoint == ApiHost + "/oauth/authorize"
      ensures url.params == AuthorizeParams(state)
    {
      var params: Url.Params := [];
      params := params + [("client_id", ClientId)];
      params := params + [("redirect_uri", RedirectUrl)];
      params := params + [("response_type", "code")];
      params := params + [("scope", "public upload")];
      params := params + [("state", state)];
      url := AuthorizeUrl(ApiHost + "/oauth/authorize", params);
    }

    /** The `code` parameter of a redirect URL, or absent; an unparsable URL gives absent. */
    function GetCodeFromUrl(url: string): (r: Option<string>)
      ensures !Url.HasScheme(url) ==> r == None
      ensures Url.HasScheme(url) ==> r == Url.Get(Url.ParseQuery(Url.Search(url)), "code")
    {
      match Url.SearchParams(url)
      case Some(params) => Url.Get(params, "code")
      case None => None
    }

    /**
     * Exchanges an authorization code for a token: one request with the fixed
     * client credentials; the token is returned, not stored.
     */
    method GetAccessToken(code: string, response: HttpResult<TokenResponse>)
      returns (r: Result<string, ApiError>, sent: seq<Request>)
      ensures sent == [ExchangeCode(ApiHost + "/oauth/token", ClientId, ClientSecret, RedirectUrl,
                                    "authorization_code", code)]
      ensures response.Ok? ==> r == Success(response.data.accessToken)
      ensures response.Failed? ==> r == Failure(RequestFailed)
    {
      sent := [ExchangeCode(ApiHost + "/oauth/token", ClientId, ClientSecret, RedirectUrl,
                            "authorization_code", code)];
      r := if response.Ok? then Success(response.data.accessToken) else Failure(RequestFailed);
    }

    /** Whether the token is accepted: false without a token, before any request. */
    method ValidateAccessToken(response: HttpResult<()>) returns (valid: bool, sent: seq<Request>)
      ensures accessToken == "" ==> !valid && sent == []
      ensures accessToken != "" ==> sent == [CurrentUser(ApiHost + "/api/users/me", accessToken)]
      ensures valid <==> accessToken != "" && response.Ok?
    {
      if accessToken == "" {
        return false, [];
      }
      sent := [CurrentUser(ApiHost + "/api/users/me", accessToken)];
      valid := response.Ok?;
    }
  }

  /** A redirect URL carrying `?code=v` gives back `v`. */
  lemma CodeFromRedirect(api: GyazoApi, base: string, v: string)
    requires Url.HasScheme(base) && '?' !in base && '#' !in base
    requires '&' !in v && '#' !in v
    ensures api.GetCodeFromUrl(base + "?code=" + v) == Some(v)
  {
    var ps := [("code", v)];
    assert Url.Plain(ps[0]);
    Url.SearchParamsRoundTrip(base, ps);
    assert Url.Serialize(ps) == "code=" + v;
    assert base + "?" + Url.Serialize(ps) == base + "?code=" + v;
  }

  /** A URL whose query names no `code` gives absent. */
  lemma NoCodeInRedirect(api: GyazoApi, base: string, ps: Url.Params)
    requires Url.HasScheme(base) && '?' !in base && '#' !in base
    requires forall i :: 0 <= i < |ps| ==> Url.Plain(ps[i]) && ps[i].0 != "code"
    ensures api.GetCodeFromUrl(base + "?" + Url.Serialize(ps)) == None
  {
    Url.SearchParamsRoundTrip(base, ps);
  }
}
