/** The part of the page both variants of `Preview` build and read: the nav
    anchors, the nodes appended to `.bannernav`, and the abstract state of the
    preview iframe. */
module Page {
  import opened Decimal
  import opened Grouping

  datatype Option<T> = None | Some(value: T)

  /** A nav entry `<a href=… class=… data-width=… data-height=…>name</a>`.
      `dataset` values are strings: the descriptor's numbers converted by `String`. */
  datatype Anchor = Anchor(href: string, className: string, text: string, dataWidth: string, dataHeight: string)

  /** A child appended to `.bannernav`: a `div` of the given class holding an `h1` and
      a `ul` (one variant), or a bare `h1` or `ul` (the other). Each `li` holds one anchor. */
  datatype Node =
    | Section(className: string, heading: string, items: seq<Anchor>)
    | Heading(text: string)
    | List(items: seq<Anchor>)

  /** What the preview iframe shows: nothing yet, hidden while a banner loads,
      faded in, or replaced by the ad-block notice. */
  datatype FrameState = Idle | Loading | Visible | Blocked

  /** What the `onload` handler finds when it inspects the frame: a readable document
      (with or without a `#banner` element), no document, or an exception
      (a cross-origin or blocked frame). */
  datatype Inspection = Accessible(hasBanner: bool) | Inaccessible | Throws

  /** `array[i]` in JavaScript: `undefined` outside the array. */
  function At<T>(s: seq<T>, i: int): Option<T> {
    if 0 <= i < |s| then Some(s[i]) else None
  }

  const HrefPrefix: string := "banners/"
  const HrefSuffix: string := "/index.html"

  /** The page of a banner, relative to the preview page. */
  function BannerHref(name: string): string {
    HrefPrefix + name + HrefSuffix
  }

  /** The banner name can be read back from its href. */
  lemma BannerHrefName(name: string)
    ensures |BannerHref(name)| == |name| + 19
    ensures BannerHref(name)[8..|BannerHref(name)| - 11] == name
  {
    var h := BannerHref(name);
    assert h == HrefPrefix + (name + HrefSuffix);
    assert h[8..] == name + HrefSuffix;
    assert h[8..|h| - 11] == h[8..][..|name|];
  }

  /** A banner name without '?' gives an href without a query string. */
  lemma BannerHrefNoQuery(name: string)
    requires '?' !in name
    ensures '?' !in BannerHref(name)
  {
    var h := BannerHref(name);
    forall i | 0 <= i < |h| ensures h[i] != '?' {
      if i < 8 {
        assert h[i] == HrefPrefix[i];
      } else if i < 8 + |name| {
        assert h[i] == name[i - 8];
      } else {
        assert h[i] == HrefSuffix[i - 8 - |name|];
      }
    }
  }

  /** Different banners have different hrefs. */
  lemma BannerHrefInjective(a: string, b: string)
    requires BannerHref(a) == BannerHref(b)
    ensures a == b
  {
    BannerHrefName(a);
    BannerHrefName(b);
  }

  /** The anchor `_appendLinks` creates for one descriptor. */
  function ToAnchor(d: Descriptor, className: string): Anchor {
    Anchor(BannerHref(d.name), className, d.name, IntToDecimal(d.width), IntToDecimal(d.height))
  }

  /** The anchors of a group, in group order. */
  function Anchors(items: seq<Descriptor>, className: string): (r: seq<Anchor>)
    ensures |r| == |items|
    ensures forall i :: 0 <= i < |r| ==> r[i] == ToAnchor(items[i], className)
  {
    if |items| == 0 then []
    else Anchors(items[..|items| - 1], className) + [ToAnchor(items[|items| - 1], className)]
  }

  lemma AnchorsAppend(a: seq<Descriptor>, b: seq<Descriptor>, className: string)
    ensures Anchors(a + b, className) == Anchors(a, className) + Anchors(b, className)
  {
    var l, r := Anchors(a + b, className), Anchors(a, className) + Anchors(b, className);
    forall i | 0 <= i < |l| ensures l[i] == r[i] {
      if i < |a| { assert (a + b)[i] == a[i]; } else { assert (a + b)[i] == b[i - |a|]; }
    }
  }

  /** The inner `groups[lang].forEach` loop: one `li > a` per descriptor of the group. */
  method RenderList(items: seq<Descriptor>, className: string) returns (ul: seq<Anchor>)
    ensures ul == Anchors(items, className)
  {
    ul := [];
    var i := 0;
    while i < |items|
      invariant 0 <= i <= |items|
      invariant ul == Anchors(items[..i], className)
    {
      ul := ul + [ToAnchor(items[i], className)];
      assert items[..i + 1][..i] == items[..i];
      i := i + 1;
    }
    assert items[..i] == items;
  }

  function ItemsOf(n: Node): seq<Anchor> {
    match n
    case Section(_, _, items) => items
    case Heading(_) => []
    case List(items) => items
  }

  /** `document.querySelectorAll('a')` over the nav, in document order. */
  function AnchorsOf(nav: seq<Node>): seq<Anchor> {
    if |nav| == 0 then [] else AnchorsOf(nav[..|nav| - 1]) + ItemsOf(nav[|nav| - 1])
  }

  lemma AnchorsOfSnoc(nav: seq<Node>, n: Node)
    ensures AnchorsOf(nav + [n]) == AnchorsOf(nav) + ItemsOf(n)
  {
    assert (nav + [n])[..|nav|] == nav;
  }
}
