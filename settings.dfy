/**
 * The rules behind the settings tab (src/settings/index.ts): how the stored
 * token is shown, and what each control's callback does to the plugin's
 * settings and client. Rendering is outside the model.
 */
module SettingsTab {
  import opened Wrappers
  import opened Types
  import Api
  import Plugin

  function Min(a: int, b: int): int { if a <= b then a else b }
  function Max(a: int, b: int): int { if a <= b then b else a }

  /** `s.substring(start, end)`: both bounds clamped to `[0, |s|]`, then swapped if reversed. */
  function JsSubstring(s: string, start: int, end: int): (r: string)
    ensures |r| <= |s|
    ensures 0 <= start <= end <= |s| ==> r == s[start..end]
    ensures r == s[Min(Max(Min(start, end), 0), |s|)..Min(Max(Max(start, end), 0), |s|)]
  {
    var a := Min(Max(start, 0), |s|);
    var b := Min(Max(end, 0), |s|);
    if a <= b then s[a..b] else s[b..a]
  }

  /** The masked token: its first four characters, `...`, its last four. */
  function MaskToken(t: string): (m: string)
    ensures m == t[..Min(4, |t|)] + "..." + t[Max(0, |t| - 4)..]
    ensures |t| >= 4 ==> |m| == 11
    ensures |t| < 4 ==> m == t + "..." + t
  {
    JsSubstring(t, 0, 4) + "..." + JsSubstring(t, |t| - 4, |t|)
  }

  /** A token of at most eight characters is disclosed in full by its mask. */
  lemma ShortTokenDisclosed(t: string)
    requires 4 <= |t| <= 8
    ensures var m := MaskToken(t); t == m[..4] + m[7 + (8 - |t|)..]
  {
    var m := MaskToken(t);
    assert m[..4] == t[..4];
    assert m[7..] == t[|t| - 4..];
    assert m[7 + (8 - |t|)..] == t[4..];
    assert t == t[..4] + t[4..];
  }

  /** The token row of the tab: the masked token with a revoke button, or an entry field. */
  datatype TokenRow = Masked(shown: string) | Entry

  function TokenSection(s: Settings): (row: TokenRow)
    ensures row.Masked? <==> s.accessToken != ""
    ensures row.Masked? ==> row.shown == MaskToken(s.accessToken)
  {
    if s.accessToken != "" then Masked(MaskToken(s.accessToken)) else Entry
  }

  /** The settings tab; its callbacks act on the plugin it belongs to. */
  class GyazoSettingTab {
    const plugin: Plugin.GyazoPlugin

    constructor(plugin: Plugin.GyazoPlugin)
      ensures this.plugin == plugin
    {
      this.plugin := plugin;
    }

    /** Revoke: the stored token is cleared and the client rebuilt without a token. */
    method Revoke()
      modifies plugin
      ensures plugin.settings == old(plugin.settings).(accessToken := "")
      ensures fresh(plugin.api) && plugin.api.accessToken == ""
      ensures plugin.TokenInSync()
    {
      plugin.settings := plugin.settings.(accessToken := "");
      plugin.api := new Api.GyazoApi("");
    }

    /**
     * The token entry field: the typed value becomes the stored token, but
     * the client is kept, still holding its old token.
     */
    method EnterToken(value: string)
      modifies plugin
      ensures plugin.settings == old(plugin.settings).(accessToken := value)
      ensures plugin.api == old(plugin.api)
      ensures plugin.TokenInSync() <==> plugin.api.accessToken == value
    {
      plugin.settings := plugin.settings.(accessToken := value);
    }

    /** The entry field as evidently intended: the client is rebuilt with the typed token. */
    method EnterTokenSynced(value: string)
      modifies plugin
      ensures plugin.settings == old(plugin.settings).(accessToken := value)
      ensures fresh(plugin.api) && plugin.api.accessToken == value
      ensures plugin.TokenInSync()
    {
      plugin.settings := plugin.settings.(accessToken := value);
      plugin.api := new Api.GyazoApi(value);
    }

    /** The language dropdown: the selected language is stored; the client is kept. */
    method SelectLanguage<T>(value: Language, table: Plugin.TranslationTable<T>)
      modifies plugin
      ensures plugin.settings == old(plugin.settings).(language := value)
      ensures plugin.api == old(plugin.api)
      ensures plugin.GetTranslation(table) == table.For(value)
    {
      plugin.settings := plugin.settings.(language := value);
    }

    /** The permalink toggle: its value is stored as it is. */
    method TogglePermalinkLinks(value: bool)
      modifies plugin
      ensures plugin.settings == old(plugin.settings).(includePermalinkLinks := value)
      ensures plugin.api == old(plugin.api)
    {
      plugin.settings := plugin.settings.(includePermalinkLinks := value);
    }

    /**
     * The width field, given the value's `parseInt` (absent for NaN): a
     * positive width is stored; anything else leaves the settings as they are.
     */
    method ChangeImageWidth(parsed: Option<int>)
      modifies plugin
      ensures parsed.Some? && parsed.value > 0 ==>
        plugin.settings == old(plugin.settings).(imageWidth := parsed)
      ensures !(parsed.Some? && parsed.value > 0) ==> plugin.settings == old(plugin.settings)
      ensures plugin.api == old(plugin.api)
    {
      if parsed.Some? && parsed.value > 0 {
        plugin.settings := plugin.settings.(imageWidth := parsed);
      }
    }

    /** The width toggle: its value is stored as it is. */
    method ToggleImageWidth(value: bool)
      modifies plugin
      ensures plugin.settings == old(plugin.settings).(enableImageWidth := Some(value))
      ensures plugin.api == old(plugin.api)
    {
      plugin.settings := plugin.settings.(enableImageWidth := Some(value));
    }
  }

  /**
   * A fresh installation where the user types a token into the entry field:
   * the fetch still goes through the client built without a token, so it
   * issues no request and shows no images, whatever the server holds.
   */
  method EnteredTokenIgnored(value: string, raws: seq<Api.RawImage>)
    returns (images: seq<GyazoImage>, sent: seq<Api.Request>)
    requires value != ""
    ensures images == [] && sent == []
  {
    var plugin := new Plugin.GyazoPlugin.Onload(None);
    var tab := new GyazoSettingTab(plugin);
    tab.EnterToken(value);
    assert plugin.settings.accessToken != "" && plugin.api.accessToken == "";
    images, sent := plugin.GetGyazoImages(Api.Ok(raws));
  }

  /** The same steps with the corrected entry field: the typed token is used for the fetch. */
  method EnteredTokenUsed(value: string, raws: seq<Api.RawImage>)
    returns (images: seq<GyazoImage>, sent: seq<Api.Request>)
    requires value != ""
    ensures sent == [Api.ListImages(Api.ApiHost + "/api/images", value, 100)]
    ensures |images| == |raws| && forall i :: 0 <= i < |raws| ==> images[i] == Api.MapImage(raws[i])
  {
    var plugin := new Plugin.GyazoPlugin.Onload(None);
    var tab := new GyazoSettingTab(plugin);
    tab.EnterTokenSynced(value);
    images, sent := plugin.GetGyazoImages(Api.Ok(raws));
  }
}
