/**
 * The text component of the design system
 * (src/components/designSystem/Typography.tsx): the internal-link href
 * guard, the default colour of each variant, and the splicing of router
 * links into sanitized HTML.
 */
module Typography {
  import opened Wrappers
  import opened Strings

  // ---------------------------------------------------------------------
  // isSafeHref

  predicate IsAsciiLetter(c: char) {
    'a' <= c <= 'z' || 'A' <= c <= 'Z'
  }

  /** `[a-zA-Z0-9+\-.]` */
  predicate IsSchemeChar(c: char) {
    IsAsciiLetter(c) || '0' <= c <= '9' || c == '+' || c == '-' || c == '.'
  }

  /** `/^[a-zA-Z][a-zA-Z0-9+\-.]*:/` matches: a letter, scheme characters, then a colon at `k`. */
  predicate StartsWithScheme(s: string) {
    exists k :: 1 <= k < |s| && s[k] == ':' && IsAsciiLetter(s[0])
                && forall j :: 1 <= j < k ==> IsSchemeChar(s[j])
  }

  /** The regular expression's scan, from position `i` on: scheme characters up to a colon. */
  function ScanScheme(s: string, i: nat): (r: bool)
    requires i <= |s|
    ensures r <==> exists k :: i <= k < |s| && s[k] == ':' && forall j :: i <= j < k ==> IsSchemeChar(s[j])
    decreases |s| - i
  {
    if i == |s| then false
    else if s[i] == ':' then true
    else if IsSchemeChar(s[i]) then ScanScheme(s, i + 1)
    else false
  }

  /** `isSafeHref`: only paths within the application are allowed. */
  predicate IsSafeHref(href: string) {
    if href == "" then false
    else if StartsWith(href, "//") then false
    else if StartsWith(href, "/") then true
    else if IsAsciiLetter(href[0]) && ScanScheme(href, 1) then false
    else true
  }

  /** An href is safe iff it is non-empty, not protocol-relative, and either rooted or without a leading scheme. */
  lemma SafeHrefMeaning(href: string)
    ensures IsSafeHref(href) <==> href != "" && !StartsWith(href, "//") && (StartsWith(href, "/") || !StartsWithScheme(href))
  {
  }

  /** Every href accepted is an absolute path that is not protocol-relative, or has no scheme at all. */
  lemma SafeHrefsStayInTheApp(href: string)
    requires IsSafeHref(href)
    ensures |href| > 0
    ensures href[0] == '/' ==> |href| == 1 || href[1] != '/'
    ensures href[0] != '/' ==> forall k :: 0 < k < |href| && href[k] == ':' ==>
                                  !IsAsciiLetter(href[0]) || exists j :: 1 <= j < k && !IsSchemeChar(href[j])
  {
    SafeHrefMeaning(href);
    if |href| > 1 && href[0] == '/' {
      assert href[..2] == [href[0], href[1]];
    }
    assert href[0] != '/' ==> !StartsWith(href, "/");
  }

  // ---------------------------------------------------------------------
  // mapColor

  /** The keys of `ColorTypeEnum`. */
  datatype TypographyColor =
    | Grey700 | Grey600 | Grey500 | Grey400 | Info600 | InfoMain | Purple600 | Primary600
    | Danger600 | Warning700 | Success600 | Inherit | White | Disabled | TextPrimary | TextSecondary

  /** The theme colour each key stands for. */
  function ColorValue(c: TypographyColor): string {
    match c
    case Grey700 => "grey.700"
    case Grey600 => "grey.600"
    case Grey500 => "grey.500"
    case Grey400 => "grey.400"
    case Info600 => "info.600"
    case InfoMain => "info.main"
    case Purple600 => "purple.600"
    case Primary600 => "primary.600"
    case Danger600 => "error.600"
    case Warning700 => "warning.700"
    case Success600 => "success.600"
    case Inherit => "inherit"
    case White => "common.white"
    case Disabled => "text.disabled"
    case TextPrimary => "text.primary"
    case TextSecondary => "text.secondary"
  }

  datatype Variant =
    | Headline | Subhead1 | Subhead2 | BodyHl | Body | CaptionHl | Caption | Note | NoteHl | CaptionCode
    | OtherVariant(name: string)

  /** `mapColor(variant, color)` */
  function MapColor(variant: Variant, color: Option<TypographyColor>): (c: string)
    ensures color.Some? ==> c == ColorValue(color.value)
    ensures color.None? && (variant.Headline? || variant.Subhead1? || variant.Subhead2?) ==> c == ColorValue(TextSecondary)
    ensures color.None? && !(variant.Headline? || variant.Subhead1? || variant.Subhead2?) ==> c == ColorValue(TextPrimary)
  {
    if color.Some? then ColorValue(color.value)
    else match variant
      case Headline => ColorValue(TextSecondary)
      case Subhead1 => ColorValue(TextSecondary)
      case Subhead2 => ColorValue(TextSecondary)
      case _ => ColorValue(TextPrimary)
  }

  /** Without an explicit colour, the text is `text.secondary` exactly for the headline and subheads. */
  lemma SecondaryTextOnlyForHeadings(variant: Variant)
    ensures MapColor(variant, None) == ColorValue(TextSecondary)
            <==> variant.Headline? || variant.Subhead1? || variant.Subhead2?
  {
    assert ColorValue(TextPrimary) != ColorValue(TextSecondary) by {
      assert ColorValue(TextPrimary)[5] != ColorValue(TextSecondary)[5];
    }
  }

  // ---------------------------------------------------------------------
  // getSanitizedHtml

  const InternalLinkPlaceholder: string := "{{link}}"
  const InternalLinkPlaceholderHtml: string := "<span class=\"internal-link-placeholder\">" + InternalLinkPlaceholder + "</span>"

  /** The attributes of an anchor the sanitizer visits that the component reads. */
  datatype Attributes = Attributes(href: Option<string>, dataText: Option<string>)

  /**
   * One run of the HTML sanitizer: the anchors it handed to the `a`
   * transform, in document order, and the sanitized HTML, in which each
   * anchor with a `data-text` has become the placeholder span.
   */
  datatype SanitizerRun = SanitizerRun(anchors: seq<Attributes>, html: string)

  /** What the component renders. */
  datatype Child = Html(html: string) | RouterLink(to: string, text: string) | PlainText(text: string)

  predicate IsInternal(a: Attributes) {
    a.dataText.Some? && a.dataText.value != ""
  }

  /** The anchors the transform records, in order. */
  function InternalLinks(anchors: seq<Attributes>): (links: seq<Attributes>)
    ensures |links| <= |anchors|
    ensures forall a :: a in links <==> a in anchors && IsInternal(a)
  {
    if anchors == [] then []
    else
      var init := InternalLinks(anchors[..|anchors| - 1]);
      var last := anchors[|anchors| - 1];
      assert anchors == anchors[..|anchors| - 1] + [last];
      if IsInternal(last) then init + [last] else init
  }

  /** The child rendered for an internal link: a router link only when its href is safe. */
  function LinkChild(link: Attributes): Child {
    if IsSafeHref(OrEmpty(link.href)) then RouterLink(OrEmpty(link.href), OrEmpty(link.dataText))
    else PlainText(OrEmpty(link.dataText))
  }

  /** What piece `i` contributes: the link recorded before it, if any, then the piece itself. */
  function Segment(pieces: seq<string>, links: seq<Attributes>, i: nat): seq<Child>
    requires i < |pieces|
  {
    (if 0 < i && i - 1 < |links| then [LinkChild(links[i - 1])] else []) + [Html(pieces[i])]
  }

  /** The children for the first `n` pieces. */
  function Interleaved(pieces: seq<string>, links: seq<Attributes>, n: nat): seq<Child>
    requires n <= |pieces|
  {
    if n == 0 then [] else Interleaved(pieces, links, n - 1) + Segment(pieces, links, n - 1)
  }

  /** The recording half of the `a` transform. */
  method CollectInternalLinks(anchors: seq<Attributes>) returns (internalLinks: seq<Attributes>)
    ensures internalLinks == InternalLinks(anchors)
  {
    internalLinks := [];
    var i := 0;
    while i < |anchors|
      invariant 0 <= i <= |anchors|
      invariant internalLinks == InternalLinks(anchors[..i])
    {
      assert anchors[..i + 1][..i] == anchors[..i];
      if IsInternal(anchors[i]) {
        internalLinks := internalLinks + [anchors[i]];
      }
      i := i + 1;
    }
    assert anchors[..i] == anchors;
  }

  /** `getSanitizedHtml(htmlString)`, given how the sanitizer ran on it. */
  method GetSanitizedHtml(run: SanitizerRun) returns (children: seq<Child>)
    ensures InternalLinks(run.anchors) == [] ==> children == [Html(run.html)]
    ensures InternalLinks(run.anchors) != [] ==>
              var pieces := Split(run.html, InternalLinkPlaceholderHtml);
              children == Interleaved(pieces, InternalLinks(run.anchors), |pieces|)
  {
    var internalLinks := CollectInternalLinks(run.anchors);
    if |internalLinks| == 0 {
      return [Html(run.html)];
    }
    var splitted := Split(run.html, InternalLinkPlaceholderHtml);
    children := [];
    var i := 0;
    while i < |splitted|
      invariant 0 <= i <= |splitted|
      invariant children == Interleaved(splitted, internalLinks, i)
    {
      if 0 < i && i - 1 < |internalLinks| {
        var internalLink := internalLinks[i - 1];
        if IsSafeHref(OrEmpty(internalLink.href)) {
          children := children + [RouterLink(OrEmpty(internalLink.href), OrEmpty(internalLink.dataText))];
        } else {
          children := children + [PlainText(OrEmpty(internalLink.dataText))];
        }
      }
      children := children + [Html(splitted[i])];
      i := i + 1;
    }
  }

  /** The HTML pieces among the children, in order. */
  function HtmlPieces(children: seq<Child>): seq<string> {
    if children == [] then []
    else HtmlPieces(children[..|children| - 1])
         + (if children[|children| - 1].Html? then [children[|children| - 1].html] else [])
  }

  lemma {:induction false} HtmlPiecesAppend(a: seq<Child>, b: seq<Child>)
    ensures HtmlPieces(a + b) == HtmlPieces(a) + HtmlPieces(b)
    decreases |b|
  {
    if b == [] {
      assert a + b == a;
    } else {
      assert (a + b)[..|a + b| - 1] == a + b[..|b| - 1];
      assert (a + b)[|a + b| - 1] == b[|b| - 1];
      HtmlPiecesAppend(a, b[..|b| - 1]);
    }
  }

  /** The pieces between the placeholders are all rendered, in order, and nothing else as HTML. */
  lemma {:induction false} InterleavedKeepsPieces(pieces: seq<string>, links: seq<Attributes>, n: nat)
    requires n <= |pieces|
    ensures HtmlPieces(Interleaved(pieces, links, n)) == pieces[..n]
  {
    if n > 0 {
      var prior := Interleaved(pieces, links, n - 1);
      var seg := Segment(pieces, links, n - 1);
      InterleavedKeepsPieces(pieces, links, n - 1);
      HtmlPiecesAppend(prior, seg);
      SegmentPieces(pieces, links, n - 1);
      PrefixSnoc(pieces, n);
      assert Interleaved(pieces, links, n) == prior + seg;
    }
  }

  lemma PrefixSnoc<T>(s: seq<T>, n: nat)
    requires 0 < n <= |s|
    ensures s[..n] == s[..n - 1] + [s[n - 1]]
  {
  }

  /** A segment renders exactly its own piece as HTML. */
  lemma SegmentPieces(pieces: seq<string>, links: seq<Attributes>, i: nat)
    requires i < |pieces|
    ensures HtmlPieces(Segment(pieces, links, i)) == [pieces[i]]
  {
    var seg := Segment(pieces, links, i);
    assert seg[|seg| - 1] == Html(pieces[i]);
    if |seg| == 2 {
      assert seg[0] == LinkChild(links[i - 1]);
      assert seg[..1][|seg[..1]| - 1] == seg[0];
      assert seg[..1][..0] == [];
      assert HtmlPieces(seg[..1]) == [];
    } else {
      assert seg[..0] == [];
    }
  }

  /**
   * Putting the placeholder back between the rendered HTML pieces gives the
   * sanitized HTML: the splice loses no text.
   */
  lemma RenderedHtmlIsTheSanitizedHtml(run: SanitizerRun)
    requires InternalLinks(run.anchors) != []
    ensures var pieces := Split(run.html, InternalLinkPlaceholderHtml);
            Join(HtmlPieces(Interleaved(pieces, InternalLinks(run.anchors), |pieces|)), InternalLinkPlaceholderHtml) == run.html
  {
    var pieces := Split(run.html, InternalLinkPlaceholderHtml);
    InterleavedKeepsPieces(pieces, InternalLinks(run.anchors), |pieces|);
    assert pieces[..|pieces|] == pieces;
    JoinSplit(run.html, InternalLinkPlaceholderHtml);
  }

  /** Only a safe href ever becomes a router link, and only an internal link's text is shown as a link. */
  lemma {:induction false} RouterLinksAreSafe(pieces: seq<string>, links: seq<Attributes>, n: nat)
    requires n <= |pieces|
    ensures forall c :: c in Interleaved(pieces, links, n) && c.RouterLink? ==> IsSafeHref(c.to)
  {
    if n > 0 {
      RouterLinksAreSafe(pieces, links, n - 1);
    }
  }

  /** Links and pieces alternate: piece `i` follows link `i - 1`, so `k` links need `k + 1` pieces to all appear. */
  lemma {:induction false} InterleavedLength(pieces: seq<string>, links: seq<Attributes>, n: nat)
    requires n <= |pieces|
    ensures |Interleaved(pieces, links, n)| == n + (if n == 0 then 0 else if n - 1 < |links| then n - 1 else |links|)
  {
    if n > 0 {
      InterleavedLength(pieces, links, n - 1);
    }
  }
}
