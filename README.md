# Gyazo plugin for Obsidian: a Dafny model of its core

The plugin lets an Obsidian user browse their Gyazo captures and insert them
into notes. This project models the logic that sits around its HTTP calls
and its user interface:

- the embed formatter, which turns a capture into `[![alt](url)](permalink)` (`Util`);
- the API client `GyazoApi` (`Api`): its single token, fixed at construction;
  the kind classification of server records; the mapping of the image list;
  the empty-token guards; the authorization URL's parameters; the extraction
  of the `code` from a redirect URL (helped by a simplified URL model, `Url`);
- the settings and image records and the default settings (`Types`);
- the plugin object `GyazoPlugin` (`Plugin`): built on load from stored
  settings, the OAuth callback, the image fetch with its fallback to an empty
  list, the merge of stored settings with the defaults, and the drop handler;
- the callbacks of the settings tab (`SettingsTab`): the masked token, revoke,
  token entry, language, permalink toggle, width and width toggle.

HTTP exchanges are not performed: each operation receives the outcome of its
request as an input (`HttpResult<T> = Ok(data) | Failed`) and returns the list
of requests it issued. A guard that fires "before any request" therefore
shows up as an empty list. The invariant that ties the plugin together is
`GyazoPlugin.TokenInSync()`: the client's token equals the stored token.
Loading, the OAuth callback and revoke keep or restore it. The token entry
field breaks it (see Findings).

The model follows the code. Three points of it are easy to misread:
- The settings tab stores a permalink toggle, an image width and a width
  toggle (src/settings/index.ts:90-119), but the formatter reads none of them.
  Its output is always wrapped in a permalink link.
- `determineType` lets a `.gif` url override an explicit `mp4` type, because
  the gif test runs first.
- The token exchange returns the response's `access_token` field as it is.
  It does not fail when that field is missing.

## Model

| member | source | states |
|---|---|---|
| `Util.GyazoMarkdown` | src/util/index.ts:8-10 | total; the output length is the lengths of alt text, url and permalink plus 9 |
| `Util.MarkdownIsPermalinkLink` | src/util/index.ts:8-10 | the output is always the image embed `![alt](url)` inside a link to the permalink; no option is consulted |
| `Util.AbsentAltIsEmptyAlt` | src/util/index.ts:9-10 | an absent alt text gives the same output as `""`, namely `[![](url)](permalink)` |
| `Util.MarkdownDependsOnlyOnLinkFields` | src/util/index.ts:8-10 | two captures that agree on alt text, url and permalink give the same output, whatever their other fields |
| `Util.MarkdownLayout` | src/util/index.ts:10 | alt text, url and permalink appear verbatim as contiguous pieces at fixed offsets between the constant delimiters |
| `Util.MarkdownNotInjective` | src/util/index.ts:10 | with no escaping, two different captures can give the same markdown |
| `Types.DefaultSettingsValues` | src/types/index.ts:8-13 | the defaults: empty token, English, empty OAuth state, permalink links on, no width settings |
| `Api.DetermineType` | src/api/index.ts:44-51 | the kind is always png, gif or mp4; gif iff the type is gif or the url ends in `.gif`; mp4 iff that fails and the type is mp4 or the url ends in `.mp4`; png otherwise |
| `Api.GifTestWins` | src/api/index.ts:45-46 | a record typed mp4 whose url ends in `.gif` is classified gif |
| `Api.DetermineTypeExamples` | src/api/index.ts:44-51 | an explicit gif type beats a `.png` url; a missing type with a `.mp4` url gives mp4; a jpg gives png |
| `Api.MapImage` | src/api/index.ts:29-37 | id, permalink, thumbnail url, url and creation time are copied; the kind is `DetermineType`; missing metadata becomes `{}`; alt text and OCR are not copied |
| `Api.MapImages` | src/api/index.ts:29 | the list mapping returns one image per record |
| `Api.MapImagesAt` | src/api/index.ts:29-37 | the list mapping keeps the length and the order: record `i` becomes image `i` |
| `Api.GyazoApi.constructor` | src/api/index.ts:10-14 | the client holds the given token; being a constant, nothing else ever writes it |
| `Api.GyazoApi.GetImages` | src/api/index.ts:16-42 | an empty token throws `NoAccessToken` with no request issued. Otherwise exactly one list request carries the token and the limit. A failed request throws; a success gives one mapped image per record, in order |
| `Api.GyazoApi.GenerateAuthorizeUrl` | src/api/index.ts:56-66 | the URL is the authorize endpoint with the parameter list `AuthorizeParams(state)`, built by five appends |
| `Api.AuthorizeParams` | src/api/index.ts:57-63 | five parameters, the last one `state` carrying the given state |
| `Api.AuthorizeParamNames` | src/api/index.ts:59-63 | exactly five parameters, `client_id`, `redirect_uri`, `response_type`, `scope`, `state`, in that order, each name once |
| `Api.AuthorizeFixedValues` | src/api/index.ts:59-62 | the lookups give the client id, the redirect URL, `code` for the response type and `public upload` for the scope |
| `Api.AuthorizeState` | src/api/index.ts:57-63 | the `state` lookup gives the state passed in |
| `Url.GetAt` | src/api/index.ts:82 | when index `i` is the first pair with the name, the lookup returns that pair's value |
| `Api.GyazoApi.GetCodeFromUrl` | src/api/index.ts:79-87 | an unparsable URL gives absent rather than an error; otherwise the first `code` parameter of the query, or absent |
| `Api.CodeFromRedirect` | src/api/index.ts:79-87 | a redirect URL ending in `?code=v` gives `v` |
| `Api.NoCodeInRedirect` | src/api/index.ts:79-87 | a URL whose query has no `code` parameter gives absent |
| `Api.GyazoApi.GetAccessToken` | src/api/index.ts:92-111 | exactly one token request with the fixed client id, secret, redirect URI, `authorization_code` grant and the code. Success returns the response's token without storing it; failure rethrows |
| `Api.GyazoApi.ValidateAccessToken` | src/api/index.ts:116-132 | false with no request for an empty token; otherwise one user request, and true iff it succeeds |
| `Url.Get` | src/api/index.ts:82 | absent iff no pair has the name; otherwise the value of the first pair with that name |
| `Url.SearchParams` | src/api/index.ts:81 | a URL parses iff it starts with a scheme |
| `Url.SearchParamsRoundTrip` | src/api/index.ts:81-82 | a base URL followed by `?` and a serialized query parses back to exactly the query's pairs |
| `Plugin.MergeSettings` | main.ts:121-127 | nothing stored gives the defaults; a stored token or language replaces the default |
| `Plugin.MergeSettingsKeys` | main.ts:121-127 | every settings key takes its stored value when one is present and its default otherwise |
| `Plugin.Persisted` | main.ts:129-131 | what is saved loads back over the defaults as the same settings, except that an absent OAuth state comes back as the default one |
| `Plugin.LoadNothing` | main.ts:121-127 | nothing stored, or an empty object, gives the defaults |
| `Plugin.LoadAfterSave` | main.ts:121-131 | loading what `saveSettings` wrote gives back the saved settings when each absent optional key is also absent from the defaults |
| `Plugin.LoadAfterSaveWithDefaults` | main.ts:121-131 | with the plugin's defaults, that round trip holds exactly when the saved settings had an OAuth state |
| `Plugin.DropEmbed` | main.ts:110 | the dropped text is the bare image embed `![](url)`, with no alt text and no permalink link |
| `Plugin.FindById` | main.ts:107 | absent iff no image has the id; otherwise the first image with that id |
| `Plugin.FetchedMarkdownIsLinkedDropEmbed` | main.ts:104-111 | every fetched capture's markdown is its drop embed wrapped in a link to its permalink, because the client drops the alt text |
| `Plugin.GyazoPlugin.TokenInSync` | main.ts:35 | the invariant: the client holds the stored token |
| `Plugin.SyncedFetchUsesStoredToken` | main.ts:150-167 | while the invariant holds and a token is stored, a fetch returns the mapped records of a successful response and `[]` for a failed one |
| `Plugin.GyazoPlugin.Onload` | main.ts:32-35 | the settings are the defaults merged with the stored data, and the new client holds the stored token |
| `Plugin.GyazoPlugin.LoadSettings` | main.ts:121-127 | the settings become the merge of the defaults with the stored data; the client is untouched |
| `Plugin.GyazoPlugin.GetTranslation` | main.ts:133-135 | the English table when the language is English, the Japanese table when it is Japanese |
| `Plugin.GyazoPlugin.HandleOAuth` | main.ts:61-87 | without a code nothing changes and nothing is sent. A successful exchange stores the token and rebuilds the client with it. A failed exchange leaves both as they were. The token invariant is kept |
| `Plugin.GyazoPlugin.GetGyazoImages` | main.ts:150-167 | an empty stored token gives `[]` with no request. Otherwise the client's list of 100 is returned, and any failure gives `[]` |
| `Plugin.GyazoPlugin.HandleDrop` | main.ts:93-113 | with no active editor or no dragged id, nothing is inserted and no request is sent. Otherwise the images are fetched (no request when either token is empty) and the bare embed of the first one with that id is inserted; nothing is inserted when no image has the id |
| `SettingsTab.JsSubstring` | src/settings/index.ts:26-30 | JavaScript `substring`: the slice between the smaller and the larger bound, each clamped to `[0, |s|]`; in range it is the plain slice |
| `SettingsTab.MaskToken` | src/settings/index.ts:25-30 | the mask is `t[..min(4,|t|)] + "..." + t[max(0,|t|-4)..]`; 11 characters for tokens of length 4 or more |
| `SettingsTab.ShortTokenDisclosed` | src/settings/index.ts:25-30 | for tokens of 4 to 8 characters the mask shows every character |
| `SettingsTab.TokenSection` | src/settings/index.ts:24-67 | the masked token (with revoke) is shown iff a token is stored; otherwise the entry field |
| `SettingsTab.GyazoSettingTab.constructor` | src/settings/index.ts:8-11 | the tab acts on the given plugin |
| `SettingsTab.GyazoSettingTab.Revoke` | src/settings/index.ts:40-46 | the stored token becomes `""` and a new client holds `""`; the token invariant holds afterwards |
| `SettingsTab.GyazoSettingTab.EnterToken` | src/settings/index.ts:53-56 | only the stored token changes; the client keeps its old token, so the invariant holds afterwards only if that old token equals the typed one |
| `SettingsTab.GyazoSettingTab.EnterTokenSynced` | src/settings/index.ts:53-56 | corrected entry field: the typed token is stored and a new client holds it |
| `SettingsTab.GyazoSettingTab.SelectLanguage` | src/settings/index.ts:77-81 | the selected language is stored, and `getTranslation` (main.ts:133-135) then returns that language's table |
| `SettingsTab.GyazoSettingTab.TogglePermalinkLinks` | src/settings/index.ts:90-93 | the toggle's value is stored verbatim |
| `SettingsTab.GyazoSettingTab.ChangeImageWidth` | src/settings/index.ts:103-110 | the width is stored only when the parsed value is a number greater than 0; otherwise the settings are unchanged |
| `SettingsTab.GyazoSettingTab.ToggleImageWidth` | src/settings/index.ts:116-119 | the toggle's value is stored verbatim |
| `SettingsTab.EnteredTokenIgnored` | src/settings/index.ts:53-56 | on a fresh install, after typing a token into the field, a fetch sends no request and yields no images |
| `SettingsTab.EnteredTokenUsed` | src/settings/index.ts:53-56 | with the corrected field, the same steps send one list request with the typed token and yield the mapped images |

## Left out

- HTTP transport, JSON decoding and error objects: every response is an input `Ok(data)` or `Failed`. Server records are assumed to have the declared shape; fields other than `type`, `alt_text`, `ocr` and `metadata` are assumed present.
- `Api.GyazoApi.GetAccessToken`: a success response without an `access_token` field would return `undefined`. That case is not modelled; the field is assumed present.
- `Api.GyazoApi.GetImages`: the default argument `limit = 100` is not modelled; the limit is always passed, and the plugin passes 100.
- `SettingsTab.MaskToken` and `SettingsTab.JsSubstring`: strings are sequences of Unicode characters, while JavaScript's `length` and `substring` count UTF-16 code units. For a token with a character outside the Basic Multilingual Plane the real mask can split a surrogate pair and differs from the model's. The length of 11 is counted in characters.
- `generateRandomState` uses `Math.random`, so the OAuth state is a parameter of `GenerateAuthorizeUrl`.
- WHATWG URL parsing and serialization are replaced by a simplified model. A URL parses when it begins with a scheme. Its query is the text after the first `?` and before the next `#`. The query is split at `&` into non-empty segments, and each segment at its first `=`. Percent-encoding, `+` as space, host and port validation are not modelled. `GenerateAuthorizeUrl` returns the endpoint and its parameter list rather than the serialized string.
- `parseInt` is not modelled; the width callback receives its result as `Option<int>`, with `None` for NaN.
- The translation tables in src/i18n/index.ts are constant data; `getTranslation` indexes an abstract two-language table.
- Obsidian host calls: notices, view registration and activation, the ribbon icon, opening the settings with a timer, `onunload`, and the `saveData`/`loadData` storage. Storage contents are an input; what `saveSettings` writes is `Plugin.Persisted`.
- The stored settings object is assumed to hold values of the declared types; a stored language other than `en`/`ja` cannot be represented.
- The host's instantiation of the plugin and `onload` are modelled together as the constructor `Plugin.GyazoPlugin.Onload`.
- The drop handler's active-leaf and markdown-view checks are one boolean input; the drag payload is the dragged id string, empty when absent.
- The React views (src/ui/GyazoView.tsx, src/ui/GyazoDetailView.tsx): rendering, toasts, clipboard, `window.open`, the locked-card test and date formatting.
- Concurrency: the asynchronous callbacks are modelled as atomic steps, and in-flight requests that race with a token change are not modelled.

## Findings

| source | as written | input that shows it | evidently intended | confidence | as-written member | corrected member |
|---|---|---|---|---|---|---|
| src/settings/index.ts:53-55 | the token entry field stores the typed token in the settings but keeps `plugin.api`, which was built with the old (empty) token | fresh install, type any non-empty token, open the gallery: `getGyazoImages` passes its stored-token check, the client throws for its empty token, and the gallery shows no images until the plugin is reloaded | rebuild the client with the typed token, as revoke and the OAuth callback do | not executed; high | `SettingsTab.EnteredTokenIgnored` (with `SettingsTab.GyazoSettingTab.EnterToken`) | `SettingsTab.EnteredTokenUsed` (with `SettingsTab.GyazoSettingTab.EnterTokenSynced`) |
