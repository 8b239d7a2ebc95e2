/** PostCardComponent: which image a card shows, and what it shows next
    each time the browser reports that the image failed to load. */
module PostCard {
  import opened Wrappers
  import opened Text
  import opened UriEncoding
  import opened Models

  const DataImage := "data:image"
  /** The inline SVG placeholder ("Imagen" on a grey rectangle). */
  const FallbackImage := DataImage + "/svg+xml;utf8,<svg xmlns='http://www.w3.org/2000/svg' width='800' height='420'><rect width='100%' height='100%' fill='%23e9ecef'/><text x='50%' y='50%' dominant-baseline='middle' text-anchor='middle' fill='%236c757d' font-size='24' font-family='Arial'>Imagen</text></svg>"
  const WeservHost := "images.weserv.nl"
  const WsrvHost := "wsrv.nl"
  const AlloriginsHost := "allorigins.win"
  /** `https://wsrv.nl/?url=` */
  const ProxyA := "https://" + WsrvHost + "/?url="
  /** `https://api.allorigins.win/raw?url=` */
  const ProxyC := "https://api." + AlloriginsHost + "/raw?url="
  const PlaceholderHost := "via.placeholder.com"

  /** The card's `variant`, and the `size` getImageUrl is asked for. */
  datatype Variant = Horizontal | Vertical

  /** `${proxy}${encodeURIComponent(url)}`. */
  function ToProxyUrl(url: string, proxy: string): (r: string)
    ensures StartsWith(r, proxy)
    ensures |r| >= |proxy| + |url|
  {
    proxy + EncodeUriComponent(url)
  }

  /** Host names and the other plain text of the url survive the wrapping. */
  lemma ToProxyUrlKeepsText(url: string, proxy: string, p: string)
    requires forall i :: 0 <= i < |p| ==> Unreserved(p[i])
    requires Contains(url, p)
    ensures Contains(ToProxyUrl(url, proxy), p)
  {
    EncodedContainsPreserves(url, p);
    ContainsExtend(proxy, EncodeUriComponent(url), p);
  }

  /** safeUrl: nothing for a missing or empty url, the proxied url for a
      via.placeholder.com image, the url itself otherwise. */
  function SafeUrl(url: Option<string>): (r: Option<string>)
    ensures r.None? <==> !Truthy(url)
    ensures r.Some? ==> r.value != ""
    ensures Truthy(url) && Contains(url.value, PlaceholderHost) ==> r == Some(ToProxyUrl(url.value, ProxyA))
    ensures Truthy(url) && !Contains(url.value, PlaceholderHost) ==> r == url
  {
    if !Truthy(url) then None
    else if Contains(url.value, PlaceholderHost) then Some(ToProxyUrl(url.value, ProxyA))
    else url
  }

  /** getImageUrl: the photo's url for the horizontal card; its thumbnail,
      else its url, for the vertical one; the placeholder when neither is
      usable. */
  function GetImageUrl(post: PostWithPhoto, size: Variant): (r: string)
    ensures r != ""
    ensures size == Horizontal ==> r == OrElse(SafeUrl(PhotoUrl(post)), FallbackImage)
    ensures size == Vertical && Truthy(PhotoThumbnailUrl(post)) ==> r == SafeUrl(PhotoThumbnailUrl(post)).value
    ensures size == Vertical && !Truthy(PhotoThumbnailUrl(post)) ==> r == OrElse(SafeUrl(PhotoUrl(post)), FallbackImage)
  {
    if size == Horizontal then OrElse(SafeUrl(PhotoUrl(post)), FallbackImage)
    else OrElse(SafeUrl(PhotoThumbnailUrl(post)), OrElse(SafeUrl(PhotoUrl(post)), FallbackImage))
  }

  /** The horizontal card never looks at the thumbnail. */
  lemma HorizontalIgnoresThumbnail(post: PostWithPhoto, thumbnail: string)
    requires post.photo.Some?
    ensures GetImageUrl(post.(photo := Some(post.photo.value.(thumbnailUrl := thumbnail))), Horizontal)
         == GetImageUrl(post, Horizontal)
  {
  }

  /** A post without a photo shows the placeholder in both variants. */
  lemma NoPhotoShowsFallback(post: PostWithPhoto, size: Variant)
    requires post.photo.None?
    ensures GetImageUrl(post, size) == FallbackImage
  {
  }

  /** onImageError as written: a data URI is kept; the weserv test comes
      before the allorigins one; anything else is wrapped in proxyA. */
  function NextSrcAsWritten(src: string): (next: string)
    ensures StartsWith(src, DataImage) ==> next == src
    ensures !StartsWith(src, DataImage) && Contains(src, WeservHost) ==> next == ToProxyUrl(src, ProxyC)
    ensures !StartsWith(src, DataImage) && !Contains(src, WeservHost) && Contains(src, AlloriginsHost)
      ==> next == FallbackImage
    ensures !StartsWith(src, DataImage) && !Contains(src, WeservHost) && !Contains(src, AlloriginsHost)
      ==> next == ToProxyUrl(src, ProxyA)
  {
    if StartsWith(src, DataImage) then src
    else if Contains(src, WeservHost) then ToProxyUrl(src, ProxyC)
    else if Contains(src, AlloriginsHost) then FallbackImage
    else ToProxyUrl(src, ProxyA)
  }

  /** onImageError corrected: an allorigins url gives up first, and a url
      of either weserv host (proxyA's wsrv.nl included) moves on to
      allorigins. */
  function NextSrc(src: string): (next: string)
    ensures StartsWith(src, DataImage) ==> next == src
    ensures !StartsWith(src, DataImage) && Contains(src, AlloriginsHost) ==> next == FallbackImage
    ensures !StartsWith(src, DataImage) && !Contains(src, AlloriginsHost) && Contains(src, WeservHost)
      ==> next == ToProxyUrl(src, ProxyC)
    ensures !StartsWith(src, DataImage) && !Contains(src, AlloriginsHost) && Contains(src, WsrvHost)
      ==> next == ToProxyUrl(src, ProxyC)
    ensures !StartsWith(src, DataImage) && !Contains(src, AlloriginsHost)
            && !Contains(src, WeservHost) && !Contains(src, WsrvHost)
      ==> next == ToProxyUrl(src, ProxyA)
  {
    if StartsWith(src, DataImage) then src
    else if Contains(src, AlloriginsHost) then FallbackImage
    else if Contains(src, WeservHost) || Contains(src, WsrvHost) then ToProxyUrl(src, ProxyC)
    else ToProxyUrl(src, ProxyA)
  }

  /** The src after k load errors. */
  function AfterErrors(src: string, k: nat): string
  {
    if k == 0 then src else NextSrc(AfterErrors(src, k - 1))
  }

  /** The src after k load errors, as written. */
  function AfterErrorsAsWritten(src: string, k: nat): string
  {
    Iterate(NextSrcAsWritten, src, k)
  }

  /** f applied k times. */
  function Iterate(f: string -> string, x: string, k: nat): string
    decreases k
  {
    if k == 0 then x else Iterate(f, f(x), k - 1)
  }

  /** A property f keeps holds after any number of steps. */
  lemma {:induction false} IterateKeeps(f: string -> string, inv: string -> bool, x: string, k: nat)
    requires inv(x)
    requires forall y :: inv(y) ==> inv(f(y))
    ensures inv(Iterate(f, x, k))
    decreases k
  {
    if k > 0 {
      IterateKeeps(f, inv, f(x), k - 1);
    }
  }

  lemma FallbackIsDataImage()
    ensures StartsWith(FallbackImage, DataImage)
  {
    assert FallbackImage[..|DataImage|] == DataImage;
  }

  /** A data URI, the placeholder among them, is left alone in both
      versions. */
  lemma DataImageIsFixed(src: string)
    requires StartsWith(src, DataImage)
    ensures NextSrc(src) == src && NextSrcAsWritten(src) == src
  {
  }

  /** A proxied url is never a data URI. */
  lemma ProxiedIsNotData(url: string, proxy: string)
    requires proxy != [] && proxy[0] == 'h'
    ensures !StartsWith(ToProxyUrl(url, proxy), DataImage)
  {
    assert ToProxyUrl(url, proxy)[0] == 'h';
  }

  /** The allorigins-wrapped url names allorigins.win. */
  lemma ProxyCNamesAllorigins(url: string)
    ensures Contains(ToProxyUrl(url, ProxyC), AlloriginsHost)
  {
    var r := ToProxyUrl(url, ProxyC);
    assert r[12..][..|AlloriginsHost|] == AlloriginsHost;
    ContainsAt(r, AlloriginsHost, 12);
  }

  /** The wsrv-wrapped url names wsrv.nl. */
  lemma ProxyANamesWsrv(url: string)
    ensures Contains(ToProxyUrl(url, ProxyA), WsrvHost)
  {
    var r := ToProxyUrl(url, ProxyA);
    assert r[8..][..|WsrvHost|] == WsrvHost;
    ContainsAt(r, WsrvHost, 8);
  }

  /** Corrected: whatever the first src, the third error at the latest
      leaves the card on the placeholder or on the data URI it started
      with, where it stays. */
  lemma SettlesWithinThreeErrors(src: string)
    ensures StartsWith(AfterErrors(src, 3), DataImage)
    ensures NextSrc(AfterErrors(src, 3)) == AfterErrors(src, 3)
  {
    FallbackIsDataImage();
    var s1 := NextSrc(src);
    var s2 := NextSrc(s1);
    assert AfterErrors(src, 1) == s1;
    assert AfterErrors(src, 2) == s2;
    if !StartsWith(src, DataImage) && !Contains(src, AlloriginsHost) {
      if Contains(src, WeservHost) || Contains(src, WsrvHost) {
        ProxyCNamesAllorigins(src);
        ProxiedIsNotData(src, ProxyC);
      } else {
        ProxyANamesWsrv(src);
        ProxiedIsNotData(src, ProxyA);
        if !Contains(s1, AlloriginsHost) {
          ProxyCNamesAllorigins(s1);
          ProxiedIsNotData(s1, ProxyC);
        }
      }
    }
  }

  /** A src the written chain can never get out of: no data URI, no
      images.weserv.nl and no allorigins.win in it. */
  predicate Rewrapped(src: string)
  {
    !StartsWith(src, DataImage) && !Contains(src, WeservHost) && !Contains(src, AlloriginsHost)
  }

  /** Wrapping in proxyA adds neither host: proxyA has no 'i' and no 'a' to
      start one, and the encoding cannot produce their letters from
      escapes. */
  lemma ProxyAAddsNoHost(url: string)
    ensures Contains(ToProxyUrl(url, ProxyA), WeservHost) ==> Contains(url, WeservHost)
    ensures Contains(ToProxyUrl(url, ProxyA), AlloriginsHost) ==> Contains(url, AlloriginsHost)
  {
    var e := EncodeUriComponent(url);
    ProxyALacks('i');
    ProxyALacks('a');
    ContainsSkip(ProxyA, e, WeservHost);
    ContainsSkip(ProxyA, e, AlloriginsHost);
    HostsArePlain();
    EncodedContainsPlain(url, WeservHost);
    EncodedContainsPlain(url, AlloriginsHost);
  }

  /** Neither 'i' nor 'a' occurs in proxyA. */
  lemma ProxyALacks(c: char)
    requires c == 'i' || c == 'a'
    ensures forall k :: 0 <= k < |ProxyA| ==> ProxyA[k] != c
  {
    assert ProxyA == ['h', 't', 't', 'p', 's', ':', '/', '/', 'w', 's', 'r', 'v', '.', 'n', 'l', '/', '?', 'u', 'r', 'l', '='];
  }

  /** The host names are lower-case letters and dots. */
  lemma HostsArePlain()
    ensures WeservHost[0] == 'i' && AlloriginsHost[0] == 'a'
    ensures forall i :: 0 <= i < |WeservHost| ==> Plain(WeservHost[i])
    ensures forall i :: 0 <= i < |AlloriginsHost| ==> Plain(AlloriginsHost[i])
  {
  }

  /** As written, a Rewrapped src is wrapped in proxyA again, and the
      result is Rewrapped and longer. */
  lemma RewrappedStep(src: string)
    requires Rewrapped(src)
    ensures NextSrcAsWritten(src) == ToProxyUrl(src, ProxyA)
    ensures Rewrapped(NextSrcAsWritten(src))
    ensures |NextSrcAsWritten(src)| > |src|
  {
    ProxiedIsNotData(src, ProxyA);
    ProxyAAddsNoHost(src);
  }

  /** As written, a Rewrapped src stays Rewrapped: every further error
      wraps it once more. */
  lemma RewrappedForever(src: string, k: nat)
    requires Rewrapped(src)
    ensures Rewrapped(AfterErrorsAsWritten(src, k))
  {
    forall y | Rewrapped(y)
      ensures Rewrapped(NextSrcAsWritten(y))
    {
      RewrappedStep(y);
    }
    IterateKeeps(NextSrcAsWritten, Rewrapped, src, k);
  }

  /** A src that is not a data URI, a Rewrapped one say, is not the
      placeholder. */
  lemma RewrappedIsNotFallback(src: string)
    requires !StartsWith(src, DataImage)
    ensures src != FallbackImage
  {
    FallbackIsDataImage();
  }

  /** The plainest image url is Rewrapped. */
  lemma PlainUrlIsRewrapped()
    ensures Rewrapped("https://h/img")
  {
    var src := "https://h/img";
    assert src[0] != DataImage[0];
    ShorterLacks(src, WeservHost);
    ShorterLacks(src, AlloriginsHost);
  }

  /** A src naming images.weserv.nl that is not a data URI. */
  predicate WeservStuck(src: string)
  {
    !StartsWith(src, DataImage) && Contains(src, WeservHost)
  }

  /** As written, a src naming images.weserv.nl is wrapped in allorigins
      again and again: the wrapped url still names images.weserv.nl, and
      that test comes before the allorigins one. */
  lemma WeservLoopsForever(src: string, k: nat)
    requires WeservStuck(src)
    ensures WeservStuck(AfterErrorsAsWritten(src, k))
  {
    forall y | WeservStuck(y)
      ensures WeservStuck(NextSrcAsWritten(y))
    {
      WeservStep(y);
    }
    IterateKeeps(NextSrcAsWritten, WeservStuck, src, k);
  }

  /** One error on a src naming images.weserv.nl, as written: it is wrapped
      in allorigins and still names images.weserv.nl. */
  lemma WeservStep(src: string)
    requires WeservStuck(src)
    ensures NextSrcAsWritten(src) == ToProxyUrl(src, ProxyC)
    ensures WeservStuck(NextSrcAsWritten(src))
  {
    HostsArePlain();
    ToProxyUrlKeepsText(src, ProxyC, WeservHost);
    ProxiedIsNotData(src, ProxyC);
  }

  /** A plain image url that fails is wrapped in proxyA on every error and
      never reaches the placeholder. */
  lemma PlainUrlLoops(k: nat)
    ensures AfterErrorsAsWritten("https://h/img", k) != FallbackImage
  {
    PlainUrlIsRewrapped();
    RewrappedForever("https://h/img", k);
    RewrappedIsNotFallback(AfterErrorsAsWritten("https://h/img", k));
  }

  /** The two chains part at the second error on a plain url: once it is
      wrapped in proxyA, the written chain wraps it in proxyA again, while
      the corrected one moves it on to allorigins. */
  lemma ChainsPartOnProxiedUrl()
    ensures var s1 := NextSrcAsWritten("https://h/img");
      && s1 == ToProxyUrl("https://h/img", ProxyA)
      && NextSrcAsWritten(s1) == ToProxyUrl(s1, ProxyA)
      && NextSrc(s1) == ToProxyUrl(s1, ProxyC)
  {
    var src := "https://h/img";
    PlainUrlIsRewrapped();
    RewrappedStep(src);
    var s1 := NextSrcAsWritten(src);
    RewrappedStep(s1);
    ProxyANamesWsrv(src);
  }

  /** A weserv-proxied image url, the kind the written chain loops on. */
  lemma WeservUrlLoops(k: nat)
    ensures !StartsWith(AfterErrorsAsWritten("https://images.weserv.nl/?url=x", k), DataImage)
  {
    var src := "https://images.weserv.nl/?url=x";
    assert src[0] != DataImage[0];
    assert src[8..][..|WeservHost|] == WeservHost;
    ContainsAt(src, WeservHost, 8);
    WeservLoopsForever(src, k);
  }

  /** The img element's `src`, the only part of the DOM that is modelled. */
  class PostCardImage {
    var src: string

    constructor (initial: string)
      ensures src == initial
    {
      src := initial;
    }

    /** onImageError as written. */
    method OnImageError()
      modifies this
      ensures src == NextSrcAsWritten(old(src))
    {
      if StartsWith(src, DataImage) {
        return;
      }
      if Contains(src, WeservHost) {
        src := ToProxyUrl(src, ProxyC);
        return;
      }
      if Contains(src, AlloriginsHost) {
        src := FallbackImage;
        return;
      }
      src := ToProxyUrl(src, ProxyA);
    }

    /** onImageError corrected: allorigins gives up first, and either
        weserv host moves on to allorigins. */
    method OnImageErrorCorrected()
      modifies this
      ensures src == NextSrc(old(src))
    {
      if StartsWith(src, DataImage) {
        return;
      }
      if Contains(src, AlloriginsHost) {
        src := FallbackImage;
        return;
      }
      if Contains(src, WeservHost) || Contains(src, WsrvHost) {
        src := ToProxyUrl(src, ProxyC);
        return;
      }
      src := ToProxyUrl(src, ProxyA);
    }
  }
}
