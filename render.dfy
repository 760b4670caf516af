/**
 * The image reference derived from the diagram text (GenerateFlowchart.js
 * lines 14-23): no reference for empty text, otherwise PlantUML's SVG
 * endpoint followed by the encoded text.
 *
 * The plantuml-encoder library (deflate plus PlantUML's own base64 alphabet)
 * is not part of this model: callers supply it as a total function value
 * `encode`, which makes it deterministic and nothing more.
 */
module Render {

  /** PlantUML's public SVG rendering endpoint. */
  const SvgBase: string := "https://www.plantuml.com/plantuml/svg/"

  /** The graph URL for the diagram text umlCode. */
  function GraphUrl(encode: string -> string, umlCode: string): (url: string)
    ensures url == "" <==> umlCode == ""
    ensures umlCode != "" ==> SvgBase <= url && url[|SvgBase|..] == encode(umlCode)
  {
    if umlCode != "" then SvgBase + encode(umlCode) else ""
  }

  /** The URL carries exactly the token: two non-empty texts share a URL
      if and only if they share a token. */
  lemma GraphUrlTokenRoundTrip(encode: string -> string, a: string, b: string)
    requires a != "" && b != ""
    ensures GraphUrl(encode, a) == GraphUrl(encode, b) <==> encode(a) == encode(b)
  {
    if GraphUrl(encode, a) == GraphUrl(encode, b) {
      assert encode(a) == GraphUrl(encode, a)[|SvgBase|..];
    }
  }
}
