/**
 * The records of the plugin: its persisted settings, the image records the
 * gallery shows, and the default settings (src/types/index.ts).
 */
module Types {
  import opened Wrappers

  /** The interface language; the settings only admit "en" and "ja". */
  datatype Language = En | Ja

  /**
   * The kind of an asset. The image record declares png, gif, jpg, webp and
   * heic; the API client also produces mp4, so the model's kind covers both.
   */
  datatype ImageKind = Png | Gif | Jpg | Webp | Heic | Mp4

  /** Optical character recognition of a capture. */
  datatype Ocr = Ocr(locale: string, description: string)

  /**
   * Annotations of a capture. Every field is optional except `desc`.
   * `EmptyMetadata` is the empty object `{}` the API client substitutes
   * when the server sends none: it has no `desc`, which the declared type
   * does not admit, so it is a separate case here.
   */
  datatype Metadata =
    | Metadata(app: Option<string>, title: Option<string>, url: Option<string>, desc: string,
               originalTitle: Option<string>, originalUrl: Option<string>)
    | EmptyMetadata

  /** One capture of the user's library. */
  datatype GyazoImage = GyazoImage(
    imageId: string,
    permalinkUrl: string,
    thumbUrl: string,
    url: string,
    kind: ImageKind,
    createdAt: string,
    altText: Option<string>,
    ocr: Option<Ocr>,
    metadata: Metadata)

  /**
   * The plugin settings. `oauthState` is optional. `imageWidth` and
   * `enableImageWidth` are read and written by the settings tab but are
   * missing from the declared settings and from the defaults, so they are
   * absent until a value is stored.
   */
  datatype Settings = Settings(
    accessToken: string,
    language: Language,
    oauthState: Option<string>,
    includePermalinkLinks: bool,
    imageWidth: Option<int>,
    enableImageWidth: Option<bool>)

  /** The settings of a fresh installation. */
  const DefaultSettings: Settings := Settings("", En, Some(""), true, None, None)

  /** The defaults: no token, English, an empty OAuth state, permalink links on. */
  lemma DefaultSettingsValues()
    ensures DefaultSettings.accessToken == ""
    ensures DefaultSettings.language == En
    ensures DefaultSettings.oauthState == Some("")
    ensures DefaultSettings.includePermalinkLinks
    ensures DefaultSettings.imageWidth.None? && DefaultSettings.enableImageWidth.None?
  {
  }
}
