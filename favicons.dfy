/**
 * Favicon discovery (`download_image` and `download_favicon` in
 * usr/lib/web-manager/common.py).  The network, the favicongrabber.com API,
 * the HTML of the page and image decoding are inputs (`Net`); a Python
 * exception inside a `try` block is the `Raised` stage, which keeps whatever
 * was appended before it.
 */
module Favicons {
  import opened Wrappers
  import opened Strings
  import opened Urls

  /** A decoded picture: its size and whether PIL can write it out as PNG. */
  datatype Image = Image(width: nat, height: nat, pngWritable: bool)

  /** One candidate icon: where it was found, the picture, and the temporary file (the n-th one made) it was saved to. */
  datatype Entry = Entry(origin: string, image: Image, file: nat)

  /** Body of a 200 reply from the grabber API: unusable (not UTF-8, not JSON, no "icons"), or the "src" of each icon. */
  datatype ApiBody = Malformed | Icons(srcs: seq<Option<string>>)

  datatype ApiReply = ApiReply(status: int, body: ApiBody)

  /** A tag found in the page, with the attribute the program reads from it ("href" or "content") if present. */
  datatype Tag = Tag(attr: Option<string>)

  /** What BeautifulSoup finds in a page: the first `<link>` per `rel` value, and the first og:image `<meta>`. */
  datatype Page = Page(links: map<string, Tag>, ogImage: Option<Tag>)

  /**
   * The outside world: API replies by request URL, pages by URL, and decoded
   * images by URL.  A URL missing from a map is a request or decode that fails.
   */
  datatype Net = Net(api: map<string, ApiReply>, pages: map<string, Page>, images: map<string, Image>)

  /** How a `try` block ended: normally, or by an exception after appending `found`. */
  datatype Stage = Done(found: seq<Entry>) | Raised(found: seq<Entry>)

  const MaxHeight: nat := 256
  const GrabberLabel: string := "Favicon Grabber"
  /** The `rel` values tried in the page, in order. */
  const Keywords: seq<string> := ["apple-touch-icon", "shortcut icon", "icon", "msapplication-TileImage"]
  /** Every label the HTML fallback can give, in the order it tries them. */
  const FallbackLabels: seq<string> := Keywords + ["favicon", "og:image"]

  function GrabberEndpoint(host: string): string
  {
    "https://favicongrabber.com/api/grab/" + host + "?pretty=true"
  }

  // ---------------------------------------------------------------------
  // download_image
  // ---------------------------------------------------------------------

  /** Turn a link found for the site into an absolute URL. */
  function ResolveHref(root: string, link: string): string
  {
    if !Contains(link, "://") then
      if StartsWith(link, "/") then root + link else root + "/" + link
    else link
  }

  /** A link without a scheme lands under the site root, joined by exactly one '/'. */
  lemma ResolveHrefRelative(root: string, link: string)
    requires !Contains(link, "://")
    ensures var r := ResolveHref(root, link);
      StartsWith(r, root + "/") && r[|root| + 1..] == (if StartsWith(link, "/") then link[1..] else link)
  {
    var r := ResolveHref(root, link);
    if StartsWith(link, "/") {
      assert link == "/" + link[1..];
      assert r == (root + "/") + link[1..];
    } else {
      assert r == (root + "/") + link;
    }
  }

  /** A scheme-relative link such as "//cdn/x" is not recognised as one: it is appended to the root after its own '/'. */
  lemma SchemeRelativeHref(root: string, rest: string)
    requires !Contains(rest, "://")
    ensures ResolveHref(root, "//" + rest) == root + "//" + rest
  {
    var link := "//" + rest;
    forall i | 0 <= i <= |link| - 3
      ensures !Occurs(link, "://", i)
    {
      if i < 2 {
        assert link[i..i + 3][0] == link[i] == '/';
      } else {
        assert link[i..i + 3] == rest[i - 2..i + 1];
        assert !Occurs(rest, "://", i - 2);
      }
    }
    assert StartsWith(link, "/");
  }

  /** Against an absolute root every link resolves to an absolute URL; absolute links are kept as they are. */
  lemma ResolveHrefAbsolute(root: string, link: string)
    requires Contains(root, "://")
    ensures Contains(ResolveHref(root, link), "://")
    ensures Contains(link, "://") ==> ResolveHref(root, link) == link
  {
    var r := ResolveHref(root, link);
    if !Contains(link, "://") {
      assert r[..|root|] == root;
      ContainsSlice(r, "://", 0, |root|);
    }
  }

  /** Pictures taller than 256 pixels are scaled to 256 by 256; others are kept as they are. */
  function Resize(img: Image): (r: Image)
    ensures r.height <= MaxHeight
    ensures img.height <= MaxHeight ==> r == img
    ensures img.height > MaxHeight ==> r.width == MaxHeight && r.height == MaxHeight
    ensures r.pngWritable == img.pngWritable
  {
    if img.height > MaxHeight then Image(MaxHeight, MaxHeight, img.pngWritable) else img
  }

  /** Fetch and decode `link`; any failure gives `None`. */
  function DownloadImage(root: string, link: string, images: map<string, Image>): (r: Option<Image>)
    ensures r.Some? <==> ResolveHref(root, link) in images
    ensures r.Some? ==> r.value == Resize(images[ResolveHref(root, link)])
    ensures r.Some? ==> r.value.height <= MaxHeight
  {
    var url := ResolveHref(root, link);
    if url in images then Some(Resize(images[url])) else None
  }

  // ---------------------------------------------------------------------
  // download_favicon, stage by stage
  // ---------------------------------------------------------------------

  /**
   * Download `href` and, when that works, append it under `origin` with the
   * next temporary file; saving it as PNG raises once it is appended.
   */
  function Offer(root: string, href: string, images: map<string, Image>, found: seq<Entry>, origin: string): Stage
  {
    match DownloadImage(root, href, images)
    case None => Done(found)
    case Some(img) =>
      var more := found + [Entry(origin, img, |found|)];
      if img.pngWritable then Done(more) else Raised(more)
  }

  /** The loop over the grabber's icons; an icon without "src" raises. */
  function GrabIcons(root: string, srcs: seq<Option<string>>, images: map<string, Image>, found: seq<Entry>): Stage
    decreases |srcs|
  {
    if srcs == [] then Done(found)
    else match srcs[0]
      case None => Raised(found)
      case Some(src) =>
        match Offer(root, src, images, found, GrabberLabel)
        case Raised(more) => Raised(more)
        case Done(more) => GrabIcons(root, srcs[1..], images, more)
  }

  /** The first `try` block: ask the grabber API about `host`. */
  function Grab(host: string, root: string, net: Net): Stage
  {
    var endpoint := GrabberEndpoint(host);
    if endpoint !in net.api then Raised([])
    else if net.api[endpoint].status != 200 then Done([])
    else match net.api[endpoint].body
      case Malformed => Raised([])
      case Icons(srcs) => GrabIcons(root, srcs, net.images, [])
  }

  /** The loop over the `<link>` relations `keys` (`Keywords` in `download_favicon`), from the `k`-th on; a `<link>` without href raises. */
  function LinkIcons(root: string, page: Page, keys: seq<string>, k: nat, images: map<string, Image>, found: seq<Entry>): Stage
    requires k <= |keys|
    decreases |keys| - k
  {
    if k == |keys| then Done(found)
    else if keys[k] !in page.links then LinkIcons(root, page, keys, k + 1, images, found)
    else match page.links[keys[k]].attr
      case None => Raised(found)
      case Some(href) =>
        match Offer(root, href, images, found, keys[k])
        case Raised(more) => Raised(more)
        case Done(more) => LinkIcons(root, page, keys, k + 1, images, more)
  }

  /** The second `try` block: the page's own links, then /favicon.ico, then og:image. */
  function Fallback(url: string, root: string, net: Net, found: seq<Entry>): seq<Entry>
  {
    if url !in net.pages then found
    else
      match LinkIcons(root, net.pages[url], Keywords, 0, net.images, found)
      case Raised(more) => more
      case Done(more) => Extras(root, net.pages[url], net.images, more)
  }

  /** After the page's links: /favicon.ico, then the og:image `<meta>` if it has a content. */
  function Extras(root: string, page: Page, images: map<string, Image>, found: seq<Entry>): seq<Entry>
  {
    match Offer(root, "/favicon.ico", images, found, "favicon")
    case Raised(more) => more
    case Done(more) =>
      match page.ogImage
      case None => more
      case Some(tag) =>
        match tag.attr
        case None => more
        case Some(content) => Offer(root, content, images, more, "og:image").found
  }

  /** The host of the normalised URL. */
  function HostOf(url: string): string
  {
    Split(Normalize(url), "").netloc
  }

  /** "scheme://host" of the normalised URL, against which links are resolved. */
  function RootOf(url: string): string
  {
    var p := Split(Normalize(url), "");
    p.scheme + "://" + p.netloc
  }

  /** Everything collected, in discovery order: the grabber's result, or the fallback after it raised. */
  function Collected(url: string, net: Net): seq<Entry>
  {
    match Grab(HostOf(url), RootOf(url), net)
    case Done(found) => found
    case Raised(found) => Fallback(Normalize(url), RootOf(url), net, found)
  }

  /** What `download_favicon` returns: everything collected, tallest first. */
  function Favicons(url: string, net: Net): (r: seq<Entry>)
    ensures multiset(r) == multiset(Collected(url, net))
    ensures Descending(r)
  {
    SortByHeight(Collected(url, net))
  }

  // ---------------------------------------------------------------------
  // sorted(images, key=height, reverse=True)
  // ---------------------------------------------------------------------

  predicate Descending(s: seq<Entry>)
  {
    forall i, j :: 0 <= i < j < |s| ==> s[i].image.height >= s[j].image.height
  }

  /** The entries of `s` whose height is `h`, in order. */
  function WithHeight(s: seq<Entry>, h: nat): (r: seq<Entry>)
    ensures |r| <= |s|
  {
    if s == [] then []
    else (if s[0].image.height == h then [s[0]] else []) + WithHeight(s[1..], h)
  }

  /** Put `x` in front of the first entry no taller than it. */
  function Insert(x: Entry, s: seq<Entry>): seq<Entry>
  {
    if s == [] || s[0].image.height <= x.image.height then [x] + s
    else [s[0]] + Insert(x, s[1..])
  }

  lemma {:induction false} InsertPermutes(x: Entry, s: seq<Entry>)
    ensures multiset(Insert(x, s)) == multiset(s) + multiset{x}
  {
    if s != [] && s[0].image.height > x.image.height {
      InsertPermutes(x, s[1..]);
      assert s == [s[0]] + s[1..];
    }
  }

  lemma {:induction false} InsertDescending(x: Entry, s: seq<Entry>)
    requires Descending(s)
    ensures Descending(Insert(x, s))
  {
    if s != [] && s[0].image.height > x.image.height {
      var rest := Insert(x, s[1..]);
      InsertDescending(x, s[1..]);
      InsertPermutes(x, s[1..]);
      forall j | 0 <= j < |rest|
        ensures rest[j].image.height <= s[0].image.height
      {
        assert rest[j] in multiset(rest);
        if rest[j] != x {
          assert rest[j] in multiset(s[1..]);
          var m :| 0 <= m < |s[1..]| && s[1..][m] == rest[j];
          assert s[m + 1] == rest[j];
        }
      }
    }
  }

  /** Python's stable sort by height, tallest first. */
  function SortByHeight(s: seq<Entry>): (r: seq<Entry>)
    ensures multiset(r) == multiset(s)
    ensures Descending(r)
  {
    if s == [] then []
    else
      var rest := SortByHeight(s[1..]);
      InsertPermutes(s[0], rest);
      InsertDescending(s[0], rest);
      assert s == [s[0]] + s[1..];
      Insert(s[0], rest)
  }

  /** Inserting into a sorted list puts `x` before every entry of its own height. */
  lemma {:induction false} InsertWithHeight(x: Entry, s: seq<Entry>, h: nat)
    requires Descending(s)
    ensures WithHeight(Insert(x, s), h) == (if x.image.height == h then [x] else []) + WithHeight(s, h)
  {
    if s == [] || s[0].image.height <= x.image.height {
      assert ([x] + s)[1..] == s;
    } else {
      InsertWithHeight(x, s[1..], h);
      assert ([s[0]] + Insert(x, s[1..]))[1..] == Insert(x, s[1..]);
    }
  }

  /** The sort is stable: entries of equal height keep the order they were found in. */
  lemma {:induction false} SortStable(s: seq<Entry>, h: nat)
    ensures WithHeight(SortByHeight(s), h) == WithHeight(s, h)
  {
    if s != [] {
      SortStable(s[1..], h);
      InsertWithHeight(s[0], SortByHeight(s[1..]), h);
    }
  }

  // ---------------------------------------------------------------------
  // What download_favicon collects
  // ---------------------------------------------------------------------

  /** Position of a fallback label in `FallbackLabels`; 6 for anything else. */
  function Rank(origin: string): nat
  {
    if origin == "apple-touch-icon" then 0
    else if origin == "shortcut icon" then 1
    else if origin == "icon" then 2
    else if origin == "msapplication-TileImage" then 3
    else if origin == "favicon" then 4
    else if origin == "og:image" then 5
    else 6
  }

  lemma RankOf(k: nat)
    requires k < |FallbackLabels|
    ensures Rank(FallbackLabels[k]) == k
  {
  }

  /** The `m`-th relation of `keys` is the `m`-th fallback source. */
  predicate RankedKeys(keys: seq<string>)
  {
    forall m :: 0 <= m < |keys| ==> Rank(keys[m]) == m
  }

  lemma KeywordsRanked()
    ensures RankedKeys(Keywords)
  {
    forall m | 0 <= m < |Keywords|
      ensures Rank(Keywords[m]) == m
    {
      RankOf(m);
      assert FallbackLabels[m] == Keywords[m];
    }
  }

  /** `r` keeps `found` as its prefix. */
  predicate Extends(found: seq<Entry>, r: seq<Entry>)
  {
    |found| <= |r| && r[..|found|] == found
  }

  /** From position `from` on, each entry was saved to the temporary file of its own position and is at most 256 pixels high. */
  predicate Numbered(r: seq<Entry>, from: nat)
  {
    forall i :: from <= i < |r| ==> r[i].file == i && r[i].image.height <= MaxHeight
  }

  /** From position `from` on, entries come from `FallbackLabels[lo..hi]`, each from a later source than the one before. */
  predicate Ranked(r: seq<Entry>, from: nat, lo: nat, hi: nat)
  {
    (forall i :: from <= i < |r| ==> lo <= Rank(r[i].origin) < hi)
    && (forall i, j :: from <= i < j < |r| ==> Rank(r[i].origin) < Rank(r[j].origin))
  }

  lemma OfferGrows(root: string, href: string, images: map<string, Image>, found: seq<Entry>, origin: string)
    ensures var r := Offer(root, href, images, found, origin).found;
      Extends(found, r) && Numbered(r, |found|) && |r| <= |found| + 1
      && forall i :: |found| <= i < |r| ==> r[i].origin == origin
  {
  }

  /** The grabber loop only ever appends "Favicon Grabber" entries. */
  lemma {:induction false} GrabIconsGrows(root: string, srcs: seq<Option<string>>, images: map<string, Image>, found: seq<Entry>)
    ensures var r := GrabIcons(root, srcs, images, found).found;
      Extends(found, r) && Numbered(r, |found|)
      && forall i :: |found| <= i < |r| ==> r[i].origin == GrabberLabel
    decreases |srcs|
  {
    if srcs != [] && srcs[0].Some? {
      OfferGrows(root, srcs[0].value, images, found, GrabberLabel);
      var step := Offer(root, srcs[0].value, images, found, GrabberLabel);
      if step.Done? {
        var more := step.found;
        GrabIconsGrows(root, srcs[1..], images, more);
        var r := GrabIcons(root, srcs[1..], images, more).found;
        assert forall i :: 0 <= i < |more| ==> r[i] == r[..|more|][i];
      }
    }
  }

  /** The keyword loop from the `k`-th keyword on appends at most one entry per keyword, in keyword order. */
  lemma {:induction false} LinkIconsGrows(root: string, page: Page, keys: seq<string>, k: nat, images: map<string, Image>, found: seq<Entry>)
    requires k <= |keys| && RankedKeys(keys)
    ensures var r := LinkIcons(root, page, keys, k, images, found).found;
      Extends(found, r) && Numbered(r, |found|) && Ranked(r, |found|, k, |keys|)
    decreases |keys| - k
  {
    if k < |keys| {
      if keys[k] !in page.links {
        LinkIconsGrows(root, page, keys, k + 1, images, found);
      } else if page.links[keys[k]].attr.Some? {
        var href := page.links[keys[k]].attr.value;
        OfferGrows(root, href, images, found, keys[k]);
        var step := Offer(root, href, images, found, keys[k]);
        var more := step.found;
        assert Ranked(more, |found|, k, k + 1);
        if step.Done? {
          LinkIconsGrows(root, page, keys, k + 1, images, more);
          ExtendsJoin(found, more, LinkIcons(root, page, keys, k + 1, images, more).found, k, k + 1, |keys|);
        }
      }
    }
  }

  lemma ExtrasGrows(root: string, page: Page, images: map<string, Image>, found: seq<Entry>)
    ensures var r := Extras(root, page, images, found);
      Extends(found, r) && Numbered(r, |found|) && Ranked(r, |found|, 4, |FallbackLabels|)
  {
    OfferGrows(root, "/favicon.ico", images, found, "favicon");
    var icon := Offer(root, "/favicon.ico", images, found, "favicon");
    var more := icon.found;
    RankOf(4);
    assert Ranked(more, |found|, 4, 5);
    if icon.Done? && page.ogImage.Some? && page.ogImage.value.attr.Some? {
      var content := page.ogImage.value.attr.value;
      OfferGrows(root, content, images, more, "og:image");
      var r := Offer(root, content, images, more, "og:image").found;
      RankOf(5);
      assert Ranked(r, |more|, 5, 6);
      ExtendsJoin(found, more, r, 4, 5, 6);
      assert Extras(root, page, images, found) == r;
    } else {
      assert Extras(root, page, images, found) == more;
    }
  }

  /** Two growth steps in a row make one. */
  lemma ExtendsJoin(a: seq<Entry>, b: seq<Entry>, c: seq<Entry>, lo: nat, mid: nat, hi: nat)
    requires lo <= mid <= hi
    requires Extends(a, b) && Numbered(b, |a|) && Ranked(b, |a|, lo, mid)
    requires Extends(b, c) && Numbered(c, |b|) && Ranked(c, |b|, mid, hi)
    ensures Extends(a, c) && Numbered(c, |a|) && Ranked(c, |a|, lo, hi)
  {
    assert forall i :: 0 <= i < |b| ==> c[i] == c[..|b|][i];
  }

  /** The fallback keeps what it was given and appends each of the six sources at most once, in order. */
  lemma FallbackGrows(url: string, root: string, net: Net, found: seq<Entry>)
    ensures var r := Fallback(url, root, net, found);
      Extends(found, r) && Numbered(r, |found|) && Ranked(r, |found|, 0, |FallbackLabels|)
  {
    if url in net.pages {
      var page := net.pages[url];
      KeywordsRanked();
      LinkIconsGrows(root, page, Keywords, 0, net.images, found);
      var links := LinkIcons(root, page, Keywords, 0, net.images, found);
      if links.Done? {
        ExtrasGrows(root, page, net.images, links.found);
        ExtendsJoin(found, links.found, Extras(root, page, net.images, links.found), 0, |Keywords|, |FallbackLabels|);
      }
    }
  }

  /** Every entry returned was saved to a temporary file of its own and is at most 256 pixels high. */
  lemma CollectedNumbered(url: string, net: Net)
    ensures Numbered(Collected(url, net), 0)
  {
    var grab := Grab(HostOf(url), RootOf(url), net);
    var endpoint := GrabberEndpoint(HostOf(url));
    if endpoint in net.api && net.api[endpoint].status == 200 && net.api[endpoint].body.Icons? {
      GrabIconsGrows(RootOf(url), net.api[endpoint].body.srcs, net.images, []);
    }
    if grab.Raised? {
      FallbackGrows(Normalize(url), RootOf(url), net, grab.found);
      var r := Collected(url, net);
      assert forall i :: 0 <= i < |grab.found| ==> r[i] == r[..|grab.found|][i];
    }
  }

  /** No icon `download_favicon` returns is taller than 256 pixels (its width is not bounded). */
  lemma FaviconsHeightBound(url: string, net: Net)
    ensures forall e :: e in Favicons(url, net) ==> e.image.height <= MaxHeight
  {
    CollectedNumbered(url, net);
    var c := Collected(url, net);
    forall e | e in Favicons(url, net)
      ensures e.image.height <= MaxHeight
    {
      assert e in multiset(Favicons(url, net));
      assert e in multiset(c);
      var i :| 0 <= i < |c| && c[i] == e;
    }
  }

  /** A grabber reply other than 200 ends the search with nothing: no fallback. */
  lemma GrabberRefusal(url: string, net: Net)
    requires GrabberEndpoint(HostOf(url)) in net.api
    requires net.api[GrabberEndpoint(HostOf(url))].status != 200
    ensures Favicons(url, net) == []
  {
  }

  /**
   * When the grabber block runs to its end, only its own entries are
   * returned and the page is never consulted.
   */
  lemma GrabberCompletes(url: string, net: Net, pages: map<string, Page>)
    requires Grab(HostOf(url), RootOf(url), net).Done?
    ensures forall e :: e in Collected(url, net) ==> e.origin == GrabberLabel
    ensures Collected(url, net.(pages := pages)) == Collected(url, net)
  {
    var endpoint := GrabberEndpoint(HostOf(url));
    if net.api[endpoint].status == 200 {
      GrabIconsGrows(RootOf(url), net.api[endpoint].body.srcs, net.images, []);
    }
    assert Grab(HostOf(url), RootOf(url), net.(pages := pages)) == Grab(HostOf(url), RootOf(url), net);
  }

  /**
   * When the grabber block raises, what it appended stays in front and the
   * fallback appends after it, each of its six sources at most once, in order.
   */
  lemma GrabberRaises(url: string, net: Net)
    requires Grab(HostOf(url), RootOf(url), net).Raised?
    ensures var before := Grab(HostOf(url), RootOf(url), net).found;
      Extends(before, Collected(url, net)) && Ranked(Collected(url, net), |before|, 0, |FallbackLabels|)
  {
    FallbackGrows(Normalize(url), RootOf(url), net, Grab(HostOf(url), RootOf(url), net).found);
  }

  /** The grabber loop stops at the first icon without "src": the icons after it are never fetched. */
  lemma {:induction false} GrabIconsStops(root: string, s1: seq<Option<string>>, s2: seq<Option<string>>, images: map<string, Image>, found: seq<Entry>)
    ensures GrabIcons(root, s1 + [None] + s2, images, found) == Raised(GrabIcons(root, s1, images, found).found)
    decreases |s1|
  {
    var srcs := s1 + [None] + s2;
    if s1 == [] {
      assert srcs[0] == None;
    } else {
      assert srcs[0] == s1[0] && srcs[1..] == s1[1..] + [None] + s2;
      if s1[0].Some? {
        var step := Offer(root, s1[0].value, images, found, GrabberLabel);
        if step.Done? {
          GrabIconsStops(root, s1[1..], s2, images, step.found);
        }
      }
    }
  }

  /**
   * A grabber answer with an icon that has no "src" raises there: what the
   * icons before it gave stays in front, and the page is consulted after.
   */
  lemma GrabberMissingSrc(url: string, net: Net, s1: seq<Option<string>>, s2: seq<Option<string>>)
    requires GrabberEndpoint(HostOf(url)) in net.api
    requires net.api[GrabberEndpoint(HostOf(url))] == ApiReply(200, Icons(s1 + [None] + s2))
    ensures var before := GrabIcons(RootOf(url), s1, net.images, []).found;
      Grab(HostOf(url), RootOf(url), net) == Raised(before)
      && Extends(before, Collected(url, net))
      && Ranked(Collected(url, net), |before|, 0, |FallbackLabels|)
  {
    GrabIconsStops(RootOf(url), s1, s2, net.images, []);
    GrabberRaises(url, net);
  }

  /** A page that cannot be fetched adds nothing to what the grabber left. */
  lemma PageUnreachable(url: string, net: Net)
    requires Grab(HostOf(url), RootOf(url), net).Raised?
    requires Normalize(url) !in net.pages
    ensures Collected(url, net) == Grab(HostOf(url), RootOf(url), net).found
  {
  }

  /** The keyword loop stops at the `k`-th keyword when its `<link>` has no href. */
  lemma LinkIconsStops(root: string, page: Page, keys: seq<string>, j: nat, k: nat, images: map<string, Image>, found: seq<Entry>)
    requires j <= k < |keys| && RankedKeys(keys)
    requires keys[k] in page.links && page.links[keys[k]].attr.None?
    ensures LinkIcons(root, page, keys, j, images, found).Raised?
    ensures Ranked(LinkIcons(root, page, keys, j, images, found).found, |found|, j, k)
  {
    LinkIconsCut(root, page, keys, j, k, images, found);
    assert RankedKeys(keys[..k]) by {
      forall m | 0 <= m < k ensures Rank(keys[..k][m]) == m {
        assert keys[..k][m] == keys[m];
      }
    }
    LinkIconsGrows(root, page, keys[..k], j, images, found);
  }

  /** Up to a `<link>` without href, the loop runs as if the relations stopped before it, then raises. */
  lemma {:induction false} LinkIconsCut(root: string, page: Page, keys: seq<string>, j: nat, k: nat, images: map<string, Image>, found: seq<Entry>)
    requires j <= k < |keys|
    requires keys[k] in page.links && page.links[keys[k]].attr.None?
    ensures LinkIcons(root, page, keys, j, images, found) == Raised(LinkIcons(root, page, keys[..k], j, images, found).found)
    decreases k - j
  {
    if j < k {
      assert keys[..k][j] == keys[j];
      if keys[j] !in page.links {
        LinkIconsCut(root, page, keys, j + 1, k, images, found);
      } else if page.links[keys[j]].attr.Some? {
        var step := Offer(root, page.links[keys[j]].attr.value, images, found, keys[j]);
        if step.Done? {
          LinkIconsCut(root, page, keys, j + 1, k, images, step.found);
        }
      }
    }
  }

  /**
   * A `<link>` without href for the `k`-th keyword ends the fallback there:
   * only sources before it contribute, and /favicon.ico and og:image are skipped.
   */
  lemma MissingHref(url: string, net: Net, k: nat)
    requires Grab(HostOf(url), RootOf(url), net).Raised?
    requires Normalize(url) in net.pages && k < |Keywords|
    requires Keywords[k] in net.pages[Normalize(url)].links
    requires net.pages[Normalize(url)].links[Keywords[k]].attr.None?
    ensures var before := Grab(HostOf(url), RootOf(url), net).found;
      Collected(url, net) == LinkIcons(RootOf(url), net.pages[Normalize(url)], Keywords[..k], 0, net.images, before).found
    ensures Ranked(Collected(url, net), |Grab(HostOf(url), RootOf(url), net).found|, 0, k)
  {
    KeywordsRanked();
    LinkIconsStops(RootOf(url), net.pages[Normalize(url)], Keywords, 0, k, net.images, Grab(HostOf(url), RootOf(url), net).found);
    LinkIconsCut(RootOf(url), net.pages[Normalize(url)], Keywords, 0, k, net.images, Grab(HostOf(url), RootOf(url), net).found);
  }

  /** `href` resolves to an image that downloads and saves. */
  predicate Serves(root: string, href: string, images: map<string, Image>)
  {
    ResolveHref(root, href) in images && images[ResolveHref(root, href)].pngWritable
  }

  /** Every `<link>` from the `k`-th keyword on is there, with an href that serves. */
  predicate LinksServe(root: string, page: Page, keys: seq<string>, k: nat, images: map<string, Image>)
  {
    forall m :: k <= m < |keys| ==>
      keys[m] in page.links && page.links[keys[m]].attr.Some?
      && Serves(root, page.links[keys[m]].attr.value, images)
  }

  lemma OfferServes(root: string, href: string, images: map<string, Image>, found: seq<Entry>, origin: string)
    requires Serves(root, href, images)
    ensures Offer(root, href, images, found, origin)
      == Done(found + [Entry(origin, Resize(images[ResolveHref(root, href)]), |found|)])
  {
  }

  /** Where the entries of `s` come from, in order. */
  function Origins(s: seq<Entry>): (o: seq<string>)
    ensures |o| == |s|
  {
    if s == [] then [] else [s[0].origin] + Origins(s[1..])
  }

  lemma {:induction false} OriginsAppend(a: seq<Entry>, b: seq<Entry>)
    ensures Origins(a + b) == Origins(a) + Origins(b)
  {
    if a == [] {
      assert a + b == b;
    } else {
      assert (a + b)[1..] == a[1..] + b;
      OriginsAppend(a[1..], b);
    }
  }

  /** One turn of the loop on a `<link>` that serves: its entry is appended and the loop goes on. */
  lemma LinkServes(root: string, page: Page, keys: seq<string>, k: nat, images: map<string, Image>, found: seq<Entry>)
    returns (e: Entry)
    requires k < |keys| && LinksServe(root, page, keys, k, images)
    ensures e.origin == keys[k] && LinksServe(root, page, keys, k + 1, images)
    ensures LinkIcons(root, page, keys, k, images, found) == LinkIcons(root, page, keys, k + 1, images, found + [e])
  {
    assert keys[k] in page.links && page.links[keys[k]].attr.Some?;
    var href := page.links[keys[k]].attr.value;
    OfferServes(root, href, images, found, keys[k]);
    e := Entry(keys[k], Resize(images[ResolveHref(root, href)]), |found|);
  }

  /** What extends `found` and one more entry extends `found`, that entry first. */
  lemma ExtendsOne(found: seq<Entry>, e: Entry, r: seq<Entry>)
    requires Extends(found + [e], r)
    ensures Extends(found, r) && r[|found|..] == [e] + r[|found| + 1..]
  {
    var more := found + [e];
    assert r[..|found|] == r[..|more|][..|found|];
    assert r[|found|] == r[..|more|][|found|];
  }

  /** When every `<link>` from the `k`-th on serves, the loop appends one entry per relation, in order. */
  lemma {:induction false} LinkIconsAll(root: string, page: Page, keys: seq<string>, k: nat, images: map<string, Image>, found: seq<Entry>)
    requires k <= |keys| && LinksServe(root, page, keys, k, images)
    ensures var r := LinkIcons(root, page, keys, k, images, found);
      r.Done? && Extends(found, r.found) && Origins(r.found[|found|..]) == keys[k..]
    decreases |keys| - k
  {
    if k < |keys| {
      var e := LinkServes(root, page, keys, k, images, found);
      var more := found + [e];
      LinkIconsAll(root, page, keys, k + 1, images, more);
      var r := LinkIcons(root, page, keys, k + 1, images, more).found;
      ExtendsOne(found, e, r);
      assert r[|found|..] == [e] + r[|more|..];
      OriginsAppend([e], r[|more|..]);
      assert Origins([e]) == [keys[k]] by {
        assert [e][1..] == [];
      }
      assert keys[k..] == [keys[k]] + keys[k + 1..];
      assert Origins(r[|found|..]) == [keys[k]] + keys[k + 1..];
    } else {
      assert found[|found|..] == [];
    }
  }

  /**
   * When the grabber raised before finding anything usable and the page
   * offers every source, the fallback appends exactly six entries, one per
   * label of `FallbackLabels`, in that order.
   */
  lemma FullFallback(url: string, net: Net)
    requires Grab(HostOf(url), RootOf(url), net).Raised?
    requires Normalize(url) in net.pages
    requires var page := net.pages[Normalize(url)];
      && LinksServe(RootOf(url), page, Keywords, 0, net.images)
      && Serves(RootOf(url), "/favicon.ico", net.images)
      && page.ogImage.Some? && page.ogImage.value.attr.Some?
      && Serves(RootOf(url), page.ogImage.value.attr.value, net.images)
    ensures var before := Grab(HostOf(url), RootOf(url), net).found;
      var r := Collected(url, net);
      Extends(before, r) && Origins(r[|before|..]) == FallbackLabels
  {
    var before := Grab(HostOf(url), RootOf(url), net).found;
    assert Collected(url, net) == Fallback(Normalize(url), RootOf(url), net, before);
    FallbackAll(Normalize(url), RootOf(url), net, before);
  }

  /** A page that serves every source gives one fallback entry per label of `FallbackLabels`, in that order. */
  lemma FallbackAll(url: string, root: string, net: Net, before: seq<Entry>)
    requires url in net.pages
    requires var page := net.pages[url];
      && LinksServe(root, page, Keywords, 0, net.images)
      && Serves(root, "/favicon.ico", net.images)
      && page.ogImage.Some? && page.ogImage.value.attr.Some?
      && Serves(root, page.ogImage.value.attr.value, net.images)
    ensures var r := Fallback(url, root, net, before);
      Extends(before, r) && Origins(r[|before|..]) == FallbackLabels
  {
    var page := net.pages[url];
    LinkIconsAll(root, page, Keywords, 0, net.images, before);
    var links := LinkIcons(root, page, Keywords, 0, net.images, before).found;
    var content := page.ogImage.value.attr.value;
    OfferServes(root, "/favicon.ico", net.images, links, "favicon");
    var icon := Entry("favicon", Resize(net.images[ResolveHref(root, "/favicon.ico")]), |links|);
    var more := links + [icon];
    OfferServes(root, content, net.images, more, "og:image");
    var og := Entry("og:image", Resize(net.images[ResolveHref(root, content)]), |more|);
    var r := more + [og];
    assert Extras(root, page, net.images, links) == r;
    assert r[..|before|] == links[..|before|];
    assert r[|before|..] == links[|before|..] + [icon, og];
    OriginsAppend(links[|before|..], [icon, og]);
    assert Origins([icon, og]) == ["favicon", "og:image"] by {
      assert [icon, og][1..] == [og];
    }
  }

  // ---------------------------------------------------------------------
  // download_favicon itself
  // ---------------------------------------------------------------------

  /** The first `try` block of `download_favicon`: what it appended, and whether it raised. */
  method TryGrabber(host: string, root: string, net: Net) returns (images: seq<Entry>, raised: bool)
    ensures Grab(host, root, net) == if raised then Raised(images) else Done(images)
  {
    images := [];
    raised := false;
    var endpoint := GrabberEndpoint(host);
    if endpoint !in net.api {
      raised := true;
    } else if net.api[endpoint].status == 200 {
      if net.api[endpoint].body.Malformed? {
        raised := true;
      } else {
        var srcs := net.api[endpoint].body.srcs;
        var i := 0;
        while i < |srcs| && !raised
          invariant 0 <= i <= |srcs|
          invariant Grab(host, root, net)
            == if raised then Raised(images) else GrabIcons(root, srcs[i..], net.images, images)
        {
          assert srcs[i..][1..] == srcs[i + 1..];
          if srcs[i].None? {
            raised := true;
          } else {
            var image := DownloadImage(root, srcs[i].value, net.images);
            if image.Some? {
              images := images + [Entry(GrabberLabel, image.value, |images|)];
              raised := !image.value.pngWritable;
            }
          }
          i := i + 1;
        }
      }
    }
  }

  /** The loop over the page's `<link>` tags, appending to `found`. */
  method ScanLinks(root: string, page: Page, images: map<string, Image>, found: seq<Entry>)
    returns (more: seq<Entry>, raised: bool)
    ensures LinkIcons(root, page, Keywords, 0, images, found) == if raised then Raised(more) else Done(more)
  {
    more := found;
    raised := false;
    var k := 0;
    while k < |Keywords| && !raised
      invariant 0 <= k <= |Keywords|
      invariant LinkIcons(root, page, Keywords, 0, images, found)
        == if raised then Raised(more) else LinkIcons(root, page, Keywords, k, images, more)
    {
      if Keywords[k] in page.links {
        var item := page.links[Keywords[k]];
        if item.attr.None? {
          raised := true;
        } else {
          var image := DownloadImage(root, item.attr.value, images);
          if image.Some? {
            more := more + [Entry(Keywords[k], image.value, |more|)];
            raised := !image.value.pngWritable;
          }
        }
      }
      k := k + 1;
    }
  }

  /** The second `try` block of `download_favicon`, appending to `found`. */
  method TryPage(url: string, root: string, net: Net, found: seq<Entry>) returns (images: seq<Entry>)
    ensures images == Fallback(url, root, net, found)
  {
    images := found;
    if url in net.pages {
      var page := net.pages[url];
      var raised;
      images, raised := ScanLinks(root, page, net.images, images);
      if !raised {
        ghost var links := images;
        var image := DownloadImage(root, "/favicon.ico", net.images);
        if image.Some? {
          images := images + [Entry("favicon", image.value, |images|)];
          raised := !image.value.pngWritable;
        }
        if !raised && page.ogImage.Some? && page.ogImage.value.attr.Some? {
          image := DownloadImage(root, page.ogImage.value.attr.value, net.images);
          if image.Some? {
            images := images + [Entry("og:image", image.value, |images|)];
          }
        }
        assert images == Extras(root, page, net.images, links);
      }
    }
  }

  /**
   * `download_favicon(url)`: try the grabber, fall back to the page when its
   * block raises, and return what was found, tallest first.
   */
  method DownloadFavicon(url: string, net: Net) returns (images: seq<Entry>)
    ensures images == Favicons(url, net)
  {
    var normalized := Normalize(url);
    var parts := Split(normalized, "");
    var root := parts.scheme + "://" + parts.netloc;
    var raised;
    images, raised := TryGrabber(parts.netloc, root, net);
    if !raised {
      images := SortByHeight(images);
      return;
    }
    images := TryPage(normalized, root, net, images);
    images := SortByHeight(images);
  }
}
