/**
 * The embed formatter (src/util/index.ts): the markdown inserted for a
 * capture is its image, linked to the capture's permalink page. Nothing is
 * escaped and no setting is consulted.
 */
module Util {
  import opened Wrappers
  import opened Types

  /** A markdown link `[text](target)`. */
  function Link(text: string, target: string): (r: string)
    ensures |r| == |text| + |target| + 4
    ensures r[0] == '[' && r[|r| - 1] == ')'
  {
    "[" + text + "](" + target + ")"
  }

  /** A markdown image `![alt](src)`: an exclamation mark before a link. */
  function ImageEmbed(alt: string, src: string): (r: string)
    ensures |r| == |alt| + |src| + 5
    ensures r[0] == '!'
  {
    "!" + Link(alt, src)
  }

  /** The alternative text a capture is rendered with: absent counts as empty. */
  function AltText(image: GyazoImage): string
  {
    image.altText.GetOr("")
  }

  /** The markdown for a capture: `[![alt](url)](permalink)`. */
  function GyazoMarkdown(image: GyazoImage): (r: string)
    ensures |r| == |AltText(image)| + |image.url| + |image.permalinkUrl| + 9
  {
    "[![" + AltText(image) + "](" + image.url + ")](" + image.permalinkUrl + ")"
  }

  /** The markdown is always the image embed wrapped in a link to the permalink. */
  lemma MarkdownIsPermalinkLink(image: GyazoImage)
    ensures GyazoMarkdown(image) == Link(ImageEmbed(AltText(image), image.url), image.permalinkUrl)
  {
  }

  /** An absent alternative text and an empty one give the same markdown, `[![](url)](permalink)`. */
  lemma AbsentAltIsEmptyAlt(image: GyazoImage)
    ensures GyazoMarkdown(image.(altText := None)) == GyazoMarkdown(image.(altText := Some("")))
    ensures GyazoMarkdown(image.(altText := None)) == "[![](" + image.url + ")](" + image.permalinkUrl + ")"
  {
  }

  /** Only the alternative text, the url and the permalink reach the markdown. */
  lemma MarkdownDependsOnlyOnLinkFields(a: GyazoImage, b: GyazoImage)
    requires AltText(a) == AltText(b) && a.url == b.url && a.permalinkUrl == b.permalinkUrl
    ensures GyazoMarkdown(a) == GyazoMarkdown(b)
  {
  }

  /**
   * The three inputs are copied verbatim, each at a fixed offset fixed by the
   * lengths of the ones before it, between the constant delimiters.
   */
  lemma MarkdownLayout(image: GyazoImage)
    ensures var r, a, u, p := GyazoMarkdown(image), AltText(image), image.url, image.permalinkUrl;
      && r[..3] == "[!["
      && r[3..3 + |a|] == a
      && r[3 + |a|..5 + |a|] == "]("
      && r[5 + |a|..5 + |a| + |u|] == u
      && r[5 + |a| + |u|..8 + |a| + |u|] == ")]("
      && r[8 + |a| + |u|..8 + |a| + |u| + |p|] == p
      && r[8 + |a| + |u| + |p|..] == ")"
  {
  }

  /**
   * Because nothing is escaped, two different captures can give the same
   * markdown: a `)](` inside the url is read back as the permalink separator.
   */
  lemma MarkdownNotInjective(image: GyazoImage)
    ensures var a := image.(altText := None, url := "x)](y", permalinkUrl := "z");
            var b := image.(altText := None, url := "x", permalinkUrl := "y)](z");
            a != b && GyazoMarkdown(a) == GyazoMarkdown(b)
  {
  }
}
