/**
 * The plugin object (main.ts): its settings, the API client built from the
 * stored token, the OAuth callback, the image fetch used by the views and
 * the drop handler. Host calls (views, ribbon, notices, persistence) are
 * outside the model; what persistence returns is an input.
 */
module Plugin {
  import opened Wrappers
  import opened Types
  import Util
  import Api

  /** The settings object read back from storage; an absent key is `None`. */
  datatype StoredData = StoredData(
    accessToken: Option<string>,
    language: Option<Language>,
    oauthState: Option<string>,
    includePermalinkLinks: Option<bool>,
    imageWidth: Option<int>,
    enableImageWidth: Option<bool>)

  /**
   * `Object.assign({}, defaults, loaded)`: every key takes its loaded value
   * when one was stored and its default otherwise; nothing stored (`null`)
   * leaves the defaults.
   */
  function MergeSettings(defaults: Settings, loaded: Option<StoredData>): (s: Settings)
    ensures loaded.None? ==> s == defaults
    ensures loaded.Some? && loaded.value.accessToken.Some? ==> s.accessToken == loaded.value.accessToken.value
    ensures loaded.Some? && loaded.value.language.Some? ==> s.language == loaded.value.language.value
  {
    match loaded
    case None => defaults
    case Some(d) =>
      Settings(
        d.accessToken.GetOr(defaults.accessToken),
        d.language.GetOr(defaults.language),
        if d.oauthState.Some? then d.oauthState else defaults.oauthState,
        d.includePermalinkLinks.GetOr(defaults.includePermalinkLinks),
        if d.imageWidth.Some? then d.imageWidth else defaults.imageWidth,
        if d.enableImageWidth.Some? then d.enableImageWidth else defaults.enableImageWidth)
  }

  /** Each key is the stored value when present and the default otherwise. */
  lemma MergeSettingsKeys(defaults: Settings, d: StoredData)
    ensures var s := MergeSettings(defaults, Some(d));
      && s.accessToken == d.accessToken.GetOr(defaults.accessToken)
      && s.language == d.language.GetOr(defaults.language)
      && (d.oauthState.Some? ==> s.oauthState == d.oauthState)
      && (d.oauthState.None? ==> s.oauthState == defaults.oauthState)
      && s.includePermalinkLinks == d.includePermalinkLinks.GetOr(defaults.includePermalinkLinks)
      && (d.imageWidth.Some? ==> s.imageWidth == d.imageWidth)
      && (d.imageWidth.None? ==> s.imageWidth == defaults.imageWidth)
      && (d.enableImageWidth.Some? ==> s.enableImageWidth == d.enableImageWidth)
      && (d.enableImageWidth.None? ==> s.enableImageWidth == defaults.enableImageWidth)
  {
  }

  /** The object `saveSettings` hands to storage: every key that has a value. */
  function Persisted(s: Settings): (d: StoredData)
    ensures MergeSettings(DefaultSettings, Some(d)) ==
            s.(oauthState := if s.oauthState.Some? then s.oauthState else DefaultSettings.oauthState)
  {
    StoredData(Some(s.accessToken), Some(s.language), s.oauthState, Some(s.includePermalinkLinks),
               s.imageWidth, s.enableImageWidth)
  }

  /** Loading what was saved gives back the saved settings, whatever the defaults. */
  lemma LoadAfterSave(defaults: Settings, s: Settings)
    requires s.oauthState.None? ==> defaults.oauthState.None?
    requires s.imageWidth.None? ==> defaults.imageWidth.None?
    requires s.enableImageWidth.None? ==> defaults.enableImageWidth.None?
    ensures MergeSettings(defaults, Some(Persisted(s))) == s
  {
  }

  /** With the plugin's defaults, loading what was saved gives back the saved settings exactly when they had an OAuth state. */
  lemma LoadAfterSaveWithDefaults(s: Settings)
    ensures MergeSettings(DefaultSettings, Some(Persisted(s))) == s <==> s.oauthState.Some?
  {
  }

  /** Nothing stored, or an empty object stored, gives the defaults. */
  lemma LoadNothing(defaults: Settings)
    ensures MergeSettings(defaults, None) == defaults
    ensures MergeSettings(defaults, Some(StoredData(None, None, None, None, None, None))) == defaults
  {
  }

  /** The per-language tables of interface strings. */
  datatype TranslationTable<T> = TranslationTable(en: T, ja: T) {
    function For(l: Language): T
    {
      match l
      case En => en
      case Ja => ja
    }
  }

  /** What the drop handler inserts for a capture: a bare image embed, with no permalink link. */
  function DropEmbed(image: GyazoImage): (r: string)
    ensures r == Util.ImageEmbed("", image.url)
    ensures |r| == |image.url| + 5
  {
    "![](" + image.url + ")"
  }

  /**
   * While the client holds the stored token, a fetch with a stored token
   * gives the mapped records of a successful response and nothing otherwise.
   */
  lemma SyncedFetchUsesStoredToken(p: GyazoPlugin, response: Api.HttpResult<seq<Api.RawImage>>)
    requires p.TokenInSync() && p.settings.accessToken != ""
    ensures response.Ok? ==> p.FetchResult(response) == Api.MapImages(response.data)
    ensures response.Failed? ==> p.FetchResult(response) == []
  {
  }

  /**
   * The records the client returns carry no alternative text, so the markdown
   * of every fetched capture is the drop handler's bare embed wrapped in a
   * link to its permalink.
   */
  lemma {:induction false} FetchedMarkdownIsLinkedDropEmbed(raws: seq<Api.RawImage>, i: nat)
    requires i < |raws|
    ensures |Api.MapImages(raws)| == |raws|
    ensures var image := Api.MapImages(raws)[i];
      Util.GyazoMarkdown(image) == Util.Link(DropEmbed(image), image.permalinkUrl)
  {
    Api.MapImagesAt(raws);
    var image := Api.MapImages(raws)[i];
    assert image == Api.MapImage(raws[i]);
    Util.MarkdownIsPermalinkLink(image);
  }

  /** `images.find(img => img.image_id === id)`: the first image with that id, or absent. */
  method FindById(images: seq<GyazoImage>, id: string) returns (found: Option<GyazoImage>)
    ensures found.None? <==> forall k :: 0 <= k < |images| ==> images[k].imageId != id
    ensures found.Some? ==> exists k :: 0 <= k < |images| && images[k] == found.value &&
                                        images[k].imageId == id &&
                                        forall j :: 0 <= j < k ==> images[j].imageId != id
  {
    var i := 0;
    while i < |images|
      invariant 0 <= i <= |images|
      invariant forall j :: 0 <= j < i ==> images[j].imageId != id
    {
      if images[i].imageId == id {
        return Some(images[i]);
      }
      i := i + 1;
    }
    return None;
  }

  /** The plugin: its settings and the API client it talks through. */
  class GyazoPlugin {
    var settings: Settings
    var api: Api.GyazoApi

    /** The client holds the stored token. */
    predicate TokenInSync()
      reads this
    {
      api.accessToken == settings.accessToken
    }

    /** `onload`: load the settings, then build the client from the stored token. */
    constructor Onload(loaded: Option<StoredData>)
      ensures settings == MergeSettings(DefaultSettings, loaded)
      ensures fresh(api) && TokenInSync()
    {
      var loadedSettings := MergeSettings(DefaultSettings, loaded);
      settings := loadedSettings;
      api := new Api.GyazoApi(loadedSettings.accessToken);
    }

    /** `loadSettings`: the defaults merged with what storage returns; the client is not rebuilt. */
    method LoadSettings(loaded: Option<StoredData>)
      modifies this
      ensures settings == MergeSettings(DefaultSettings, loaded)
      ensures api == old(api)
    {
      settings := MergeSettings(DefaultSettings, loaded);
    }

    /** The interface strings of the selected language. */
    function GetTranslation<T>(table: TranslationTable<T>): (t: T)
      reads this
      ensures settings.language == En ==> t == table.en
      ensures settings.language == Ja ==> t == table.ja
    {
      table.For(settings.language)
    }

    /**
     * The OAuth callback. Without a code nothing happens. Otherwise the code
     * is exchanged; on success the token is stored and the client rebuilt
     * with it, on failure both stay as they were.
     */
    method HandleOAuth(code: Option<string>, response: Api.HttpResult<Api.TokenResponse>)
      returns (sent: seq<Api.Request>)
      modifies this
      ensures code.None? || code == Some("") ==>
        settings == old(settings) && api == old(api) && sent == []
      ensures code.Some? && code.value != "" ==>
        sent == [Api.ExchangeCode(Api.ApiHost + "/oauth/token", Api.ClientId, Api.ClientSecret,
                                  Api.RedirectUrl, "authorization_code", code.value)]
      ensures code.Some? && code.value != "" && response.Ok? ==>
        settings == old(settings).(accessToken := response.data.accessToken) &&
        fresh(api) && api.accessToken == response.data.accessToken
      ensures code.Some? && code.value != "" && response.Failed? ==>
        settings == old(settings) && api == old(api)
      ensures old(TokenInSync()) ==> TokenInSync()
      ensures code.Some? && code.value != "" && response.Ok? ==> TokenInSync()
    {
      sent := [];
      if code.Some? && code.value != "" {
        var r;
        r, sent := api.GetAccessToken(code.value, response);
        match r {
          case Success(accessToken) =>
            settings := settings.(accessToken := accessToken);
            api := new Api.GyazoApi(accessToken);
          case Failure(_) =>
        }
      }
    }

    /**
     * The images the views show: none without a stored token (and no request),
     * otherwise the client's first 100, and none when the client throws.
     */
    function FetchResult(response: Api.HttpResult<seq<Api.RawImage>>): seq<GyazoImage>
      reads this
    {
      if settings.accessToken == "" || api.accessToken == "" || response.Failed? then []
      else Api.MapImages(response.data)
    }

    method GetGyazoImages(response: Api.HttpResult<seq<Api.RawImage>>)
      returns (images: seq<GyazoImage>, sent: seq<Api.Request>)
      ensures images == FetchResult(response)
      ensures settings.accessToken == "" ==> images == [] && sent == []
      ensures settings.accessToken != "" ==>
        sent == (if api.accessToken == "" then [] else [Api.ListImages(Api.ApiHost + "/api/images", api.accessToken, 100)])
      ensures settings.accessToken != "" && api.accessToken != "" && response.Ok? ==>
        |images| == |response.data| &&
        forall i :: 0 <= i < |images| ==> images[i] == Api.MapImage(response.data[i])
    {
      if settings.accessToken == "" {
        return [], [];
      }
      var r;
      r, sent := api.GetImages(100, response);
      match r {
        case Success(list) =>
          Api.MapImagesAt(response.data);
          images := list;
        case Failure(_) =>
          images := [];
      }
    }

    /**
     * The drop handler: with a markdown editor active and a dragged image id,
     * it fetches the images and inserts the bare embed of the first one with
     * that id, or nothing when none has it.
     */
    method HandleDrop(editorActive: bool, draggedId: string, response: Api.HttpResult<seq<Api.RawImage>>)
      returns (inserted: Option<string>, sent: seq<Api.Request>)
      ensures !editorActive || draggedId == "" ==> inserted == None && sent == []
      ensures editorActive && draggedId != "" ==>
        sent == (if settings.accessToken == "" || api.accessToken == "" then []
                 else [Api.ListImages(Api.ApiHost + "/api/images", api.accessToken, 100)])
      ensures var images := FetchResult(response);
        inserted.None? <==>
          !editorActive || draggedId == "" || forall k :: 0 <= k < |images| ==> images[k].imageId != draggedId
      ensures var images := FetchResult(response);
        inserted.Some? ==>
          exists k :: 0 <= k < |images| && images[k].imageId == draggedId &&
                      inserted.value == DropEmbed(images[k]) &&
                      forall j :: 0 <= j < k ==> images[j].imageId != draggedId
    {
      if !editorActive || draggedId == "" {
        return None, [];
      }
      var images;
      images, sent := GetGyazoImages(response);
      var image := FindById(images, draggedId);
      if image.Some? {
        inserted := Some(DropEmbed(image.value));
      } else {
        inserted := None;
      }
    }
  }
}
