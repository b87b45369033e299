/** The two markdown renderer overrides of the blog front end
    (frontend/src/app/get-post-by-id/get-marked-html.ts:10-29): the HTML built for an image
    and for a fenced code block. highlight.js is a parameter: `knows` stands for
    `hljs.getLanguage` being truthy, `highlight` for `hljs.highlight(lang, code).value`. */
module MarkedHtml {
  import opened Wrappers

  const SrcOpen: string := "<div class=\"image-wrapper\"><img src=\""
  const AltOpen: string := " alt=\""
  const TitleOpen: string := " title=\""
  const ImageClose: string := "></div>"
  const ImageRoute: string := "/images?file="

  const CodePrefix: string := "<pre><code class=\""
  const CodeClose: string := "</code></pre>"

  /** A title is emitted when it is truthy: present and non-empty. */
  predicate Truthy(title: Option<string>)
  {
    title.Some? && title.value != ""
  }

  /** `renderer.image` (:20-29). */
  function ImageHtml(href: string, title: Option<string>, text: string): string
  {
    var imagePath := ImageRoute + href;
    SrcOpen + imagePath + "\"" + AltOpen + text + "\""
      + (if Truthy(title) then TitleOpen + title.value + "\"" else "")
      + ImageClose
  }

  /** How the block's language reads inside the template (:16): an indented code block has
      none, and `undefined` is interpolated as the text `undefined`. */
  function LanguageText(language: Option<string>): string
  {
    if language.Some? then language.value else "undefined"
  }

  /** The language highlight.js is asked for (:12): the block's own when known, else
      `'plaintext'`; highlight.js knows no language for a missing one. */
  function HighlightLanguage(language: Option<string>, knows: string -> bool): string
  {
    if language.Some? && knows(language.value) then language.value else "plaintext"
  }

  /** `renderer.code` (:10-17). */
  function CodeHtml(code: string, language: Option<string>, knows: string -> bool,
                    highlight: (string, string) -> string): string
  {
    var validLang := HighlightLanguage(language, knows);
    var highlighted := highlight(validLang, code);
    CodePrefix + "hljs " + LanguageText(language) + "\">" + highlighted + CodeClose
  }

  // Reading the HTML back.

  /** The attributes an emitted image tag carries. */
  datatype ImageTag = ImageTag(src: string, alt: string, title: Option<string>)

  /** The text before the first double quote and the text after it. */
  function SplitAtQuote(s: string): (r: Option<(string, string)>)
    ensures r.Some? ==> s == r.value.0 + "\"" + r.value.1 && '"' !in r.value.0
  {
    if s == [] then None
    else if s[0] == '"' then Some(([], s[1..]))
    else match SplitAtQuote(s[1..])
      case None => None
      case Some((v, rest)) => Some(([s[0]] + v, rest))
  }

  predicate StartsWith(s: string, p: string)
  {
    |p| <= |s| && s[..|p|] == p
  }

  /** Reads `open`, an attribute value and its closing quote: the value and what follows. */
  function ReadAttribute(s: string, open: string): Option<(string, string)>
  {
    if StartsWith(s, open) then SplitAtQuote(s[|open|..]) else None
  }

  /** Reads `<div class="image-wrapper"><img src="…" alt="…"[ title="…"]></div>`. */
  function ParseImage(s: string): Option<ImageTag>
  {
    match ReadAttribute(s, SrcOpen)
    case None => None
    case Some((src, afterSrc)) =>
      match ReadAttribute(afterSrc, AltOpen)
      case None => None
      case Some((alt, afterAlt)) =>
        if afterAlt == ImageClose then Some(ImageTag(src, alt, None))
        else match ReadAttribute(afterAlt, TitleOpen)
          case None => None
          case Some((title, afterTitle)) =>
            if afterTitle == ImageClose then Some(ImageTag(src, alt, Some(title))) else None
  }

  /** Reads `<pre><code class="…">…</code></pre>` into its class attribute and its body. */
  function ParseCodeBlock(s: string): Option<(string, string)>
  {
    if !StartsWith(s, CodePrefix) then None
    else match SplitAtQuote(s[|CodePrefix|..])
      case None => None
      case Some((cls, rest)) =>
        if |rest| >= 1 + |CodeClose| && rest[0] == '>' && rest[|rest| - |CodeClose|..] == CodeClose
        then Some((cls, rest[1..|rest| - |CodeClose|]))
        else None
  }

  lemma {:induction false} SplitAtQuoteOf(v: string, rest: string)
    requires '"' !in v
    ensures SplitAtQuote(v + "\"" + rest) == Some((v, rest))
  {
    if v != [] {
      assert (v + "\"" + rest)[1..] == v[1..] + "\"" + rest;
      SplitAtQuoteOf(v[1..], rest);
      assert [v[0]] + v[1..] == v;
    }
  }

  lemma StartsWithPrefix(p: string, rest: string)
    ensures StartsWith(p + rest, p) && (p + rest)[|p|..] == rest
  {
  }

  lemma ReadAttributeOf(open: string, v: string, rest: string)
    requires '"' !in v
    ensures ReadAttribute(open + (v + "\"" + rest), open) == Some((v, rest))
  {
    StartsWithPrefix(open, v + "\"" + rest);
    SplitAtQuoteOf(v, rest);
  }

  /** The image HTML is the wrapper around one `img` tag whose `src` is the image route
      followed by the original href unchanged, whose `alt` is the link text, and which has a
      `title` exactly when the title is truthy, provided none of the three contains a double
      quote (nothing is escaped). */
  lemma ImageHtmlReadsBack(href: string, title: Option<string>, text: string)
    requires '"' !in href && '"' !in text && (title.Some? ==> '"' !in title.value)
    ensures ParseImage(ImageHtml(href, title, text))
      == Some(ImageTag(ImageRoute + href, text, if Truthy(title) then title else None))
  {
    var src := ImageRoute + href;
    var titlePart := if Truthy(title) then TitleOpen + title.value + "\"" else "";
    var afterAlt := titlePart + ImageClose;
    var afterSrc := AltOpen + (text + "\"" + afterAlt);
    assert ImageHtml(href, title, text) == SrcOpen + (src + "\"" + afterSrc);
    assert '"' !in src by {
      assert forall k :: 0 <= k < |src| ==> src[k] == if k < |ImageRoute| then ImageRoute[k] else href[k - |ImageRoute|];
    }
    ReadAttributeOf(SrcOpen, src, afterSrc);
    ReadAttributeOf(AltOpen, text, afterAlt);
    if Truthy(title) {
      assert afterAlt == TitleOpen + (title.value + "\"" + ImageClose);
      assert afterAlt != ImageClose by { assert afterAlt[0] != ImageClose[0]; }
      ReadAttributeOf(TitleOpen, title.value, ImageClose);
    }
  }

  /** The code block's class is `hljs ` followed by the block's own language, even when
      highlighting fell back to `'plaintext'`, or by `undefined` when the block has none;
      its body is what highlight.js returned for the block's language when it knows it and
      for `'plaintext'` otherwise, provided the language contains no double quote. */
  lemma CodeHtmlReadsBack(code: string, language: Option<string>, knows: string -> bool,
                          highlight: (string, string) -> string)
    requires language.Some? ==> '"' !in language.value
    ensures language.Some? && knows(language.value) ==>
      ParseCodeBlock(CodeHtml(code, language, knows, highlight))
        == Some(("hljs " + language.value, highlight(language.value, code)))
    ensures language.Some? && !knows(language.value) ==>
      ParseCodeBlock(CodeHtml(code, language, knows, highlight))
        == Some(("hljs " + language.value, highlight("plaintext", code)))
    ensures language.None? ==>
      ParseCodeBlock(CodeHtml(code, language, knows, highlight))
        == Some(("hljs undefined", highlight("plaintext", code)))
  {
    var text := LanguageText(language);
    var cls := "hljs " + text;
    var body := highlight(HighlightLanguage(language, knows), code);
    var rest := ">" + body + CodeClose;
    var s := CodeHtml(code, language, knows, highlight);
    assert s == CodePrefix + (cls + "\"" + rest);
    StartsWithPrefix(CodePrefix, cls + "\"" + rest);
    assert '"' !in cls by {
      assert forall k :: 0 <= k < |cls| ==> cls[k] == if k < 5 then "hljs "[k] else text[k - 5];
    }
    SplitAtQuoteOf(cls, rest);
    assert rest[|rest| - |CodeClose|..] == CodeClose;
    assert rest[1..|rest| - |CodeClose|] == body;
    assert language.None? ==> cls == "hljs undefined";
  }
}
