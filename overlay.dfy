/** The overlay document of `update_overlay` in `src/pipeline.rs`: the HTML
    template with the style sheet and the two logos, as data URIs (RFC 2397)
    carrying standard Base64, substituted for its placeholders. */
module Overlay {
  import opened Wrappers
  import Base64
  import opened Template

  /** The two images embedded at build time; their bytes are not part of
      this model. */
  datatype Assets = Assets(igaliaLogo: seq<Base64.byte>, gstLogo: seq<Base64.byte>)

  const CSS_KEY: string := "css_buffer"
  const IGALIA_LOGO_KEY: string := "igalia_logo"
  const GST_LOGO_KEY: string := "gst_logo"

  const PNG_DATA_URI_PREFIX: string := "data:image/png;base64,"
  const SVG_DATA_URI_PREFIX: string := "data:image/svg+xml;base64,"

  function DataUri(prefix: string, data: seq<Base64.byte>): string {
    prefix + Base64.Encode(data)
  }

  /** The three values the template may refer to. */
  function Variables(css: string, assets: Assets): (vars: map<string, string>)
    ensures forall k :: k in vars <==> KnownKey(k)
    ensures CSS_KEY in vars && vars[CSS_KEY] == css
  {
    map[CSS_KEY := css,
        IGALIA_LOGO_KEY := DataUri(PNG_DATA_URI_PREFIX, assets.igaliaLogo),
        GST_LOGO_KEY := DataUri(SVG_DATA_URI_PREFIX, assets.gstLogo)]
  }

  /** The document `update_overlay` loads; a `Failure` is the panic of its
      `unwrap`. */
  function Render(html: string, css: string, assets: Assets): (r: Result<string, FormatError>)
    ensures BraceFree(html) ==> r == Success(html)
    ensures r.Failure? && r.error.KeyError? ==> !KnownKey(r.error.key)
  {
    Format(html, Variables(css, assets))
  }

  predicate KnownKey(k: string) {
    k == CSS_KEY || k == IGALIA_LOGO_KEY || k == GST_LOGO_KEY
  }

  /** The value substituted for a known key: the style sheet, or a logo as a
      data URI. */
  function Substitution(k: string, css: string, assets: Assets): string
    requires KnownKey(k)
  {
    if k == CSS_KEY then css
    else if k == IGALIA_LOGO_KEY then PNG_DATA_URI_PREFIX + Base64.Encode(assets.igaliaLogo)
    else SVG_DATA_URI_PREFIX + Base64.Encode(assets.gstLogo)
  }

  /** What the pieces of a template become when every key is known. */
  function Substituted(ps: seq<Piece>, css: string, assets: Assets): string
    requires forall i :: 0 <= i < |ps| && ps[i].Placeholder? ==> KnownKey(ps[i].key)
  {
    if ps == [] then ""
    else
      (match ps[0]
       case Literal(text) => text
       case Placeholder(key) => Substitution(key, css, assets)) + Substituted(ps[1..], css, assets)
  }

  /** A well-formed template renders when all its keys are among the three
      known ones, to the template with each placeholder replaced; otherwise
      the render fails (and `update_overlay` panics) on the first other key. */
  lemma {:induction false} RenderTemplate(ps: seq<Piece>, css: string, assets: Assets)
    requires WellFormed(ps)
    ensures Render(Text(ps), css, assets).Success?
        <==> (forall i :: 0 <= i < |ps| && ps[i].Placeholder? ==> KnownKey(ps[i].key))
    ensures Render(Text(ps), css, assets).Failure? ==>
      Render(Text(ps), css, assets).error.KeyError? && !KnownKey(Render(Text(ps), css, assets).error.key)
    ensures (forall i :: 0 <= i < |ps| && ps[i].Placeholder? ==> KnownKey(ps[i].key)) ==>
      Render(Text(ps), css, assets) == Success(Substituted(ps, css, assets))
  {
    var vars := Variables(css, assets);
    FormatText(ps, vars);
    ExpandKnown(ps, css, assets);
  }

  lemma {:induction false} ExpandKnown(ps: seq<Piece>, css: string, assets: Assets)
    ensures Expand(ps, Variables(css, assets)).Success?
        <==> (forall i :: 0 <= i < |ps| && ps[i].Placeholder? ==> KnownKey(ps[i].key))
    ensures Expand(ps, Variables(css, assets)).Failure? ==>
      Expand(ps, Variables(css, assets)).error.KeyError? && !KnownKey(Expand(ps, Variables(css, assets)).error.key)
    ensures (forall i :: 0 <= i < |ps| && ps[i].Placeholder? ==> KnownKey(ps[i].key)) ==>
      Expand(ps, Variables(css, assets)) == Success(Substituted(ps, css, assets))
  {
    var vars := Variables(css, assets);
    assert forall k :: k in vars <==> KnownKey(k);
    if ps != [] {
      ExpandKnown(ps[1..], css, assets);
      assert forall i :: 1 <= i < |ps| ==> ps[1..][i - 1] == ps[i];
    }
  }

  /** The data URI of a logo carries its type prefix and then a payload that
      decodes back to the logo's bytes. */
  lemma LogoPayloads(css: string, assets: Assets)
    ensures var v := Variables(css, assets)[IGALIA_LOGO_KEY];
      v[..|PNG_DATA_URI_PREFIX|] == PNG_DATA_URI_PREFIX
      && Base64.Decode(v[|PNG_DATA_URI_PREFIX|..]) == Some(assets.igaliaLogo)
    ensures var v := Variables(css, assets)[GST_LOGO_KEY];
      v[..|SVG_DATA_URI_PREFIX|] == SVG_DATA_URI_PREFIX
      && Base64.Decode(v[|SVG_DATA_URI_PREFIX|..]) == Some(assets.gstLogo)
  {
    var v := Variables(css, assets);
    assert v[IGALIA_LOGO_KEY][|PNG_DATA_URI_PREFIX|..] == Base64.Encode(assets.igaliaLogo);
    assert v[GST_LOGO_KEY][|SVG_DATA_URI_PREFIX|..] == Base64.Encode(assets.gstLogo);
    Base64.DecodeEncode(assets.igaliaLogo);
    Base64.DecodeEncode(assets.gstLogo);
  }

  lemma KeysBraceFree()
    ensures BraceFree(CSS_KEY) && BraceFree(IGALIA_LOGO_KEY) && BraceFree(GST_LOGO_KEY)
  {
  }

  /** The style sheet is substituted literally, whatever braces it holds,
      between the text around its placeholder. */
  lemma RenderStyleSheet(before: string, after: string, css: string, assets: Assets)
    requires BraceFree(before) && BraceFree(after)
    ensures Render(before + ("{" + CSS_KEY + "}" + after), css, assets) == Success(before + (css + after))
  {
    var vars := Variables(css, assets);
    KeysBraceFree();
    FormatBetween(before, CSS_KEY, after, vars);
  }

  /** A key outside the three known ones makes the render fail with that
      key. */
  lemma RenderUnknownKey(before: string, key: string, after: string, css: string, assets: Assets)
    requires BraceFree(before) && BraceFree(key) && !KnownKey(key)
    ensures Render(before + ("{" + key + "}" + after), css, assets) == Failure(KeyError(key))
  {
    var vars := Variables(css, assets);
    FormatPlaceholder(key, after, vars);
    FormatLiteral(before, "{" + key + "}" + after, vars);
  }
}
