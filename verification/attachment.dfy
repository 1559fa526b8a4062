/** How a chat message attachment is shown
    (apps/web/components/chat/AttachmentItem.tsx): an image hosted on the
    application's Cloudinary account, served through a resizing loader, or
    otherwise a link card. */
module Attachment {
  import opened Wrappers
  import opened Text

  /** The upload prefix of the application's Cloudinary account. */
  const CloudinaryPrefix: string := "https://res.cloudinary.com/disclown/image/upload/"

  /** The largest box an attachment image is fitted into. */
  const MaxWidth: int := 500
  const MaxHeight: int := 400

  /** `AttachmentType`: integral JavaScript numbers, `null` dimensions as `None`. */
  datatype AttachmentType = AttachmentType(
    name: string, url: string, kind: string,
    width: Option<int>, height: Option<int>, bytes: int)

  /** The condition under which the attachment is drawn as an image. */
  function ShowsImage(a: AttachmentType): (b: bool)
    ensures b ==> a.kind == "image" && a.width.Some? && a.height.Some?
    ensures b ==> |a.url| >= |CloudinaryPrefix| && a.url[..|CloudinaryPrefix|] == CloudinaryPrefix
  {
    a.kind == "image" && a.width.Some? && a.height.Some? && CloudinaryPrefix <= a.url
  }

  /** `decodeURIComponent` throws a `URIError` on a malformed escape. */
  datatype URIError = URIError

  /** `s.slice(start)` for a non-negative start. */
  function Slice(s: string, start: nat): (r: string)
    ensures start <= |s| ==> r == s[start..]
    ensures start > |s| ==> r == ""
  {
    if start >= |s| then "" else s[start..]
  }

  /** What is rendered: an image (its alternative text, source, intrinsic size
      and bounding box) or a link card (target, label, size caption). */
  datatype View =
    | ImageView(alt: string, src: string, width: int, height: int, maxWidth: int, maxHeight: int)
    | LinkCard(href: string, title: string, caption: string)

  /** `AttachmentItem({ attachment })`, given the behaviour of
      `decodeURIComponent` (`None` where it throws). */
  function Render(a: AttachmentType, decode: string -> Option<string>): (r: Result<View, URIError>)
    ensures r.Err? <==> ShowsImage(a) && decode(a.url).None?
    ensures r.Ok? && r.value.ImageView? <==> ShowsImage(a) && decode(a.url).Some?
    ensures r.Ok? && r.value.ImageView? ==>
      var v := r.value;
      && v.alt == a.name
      && v.src == Slice(decode(a.url).value, |CloudinaryPrefix|)
      && a.width == Some(v.width) && a.height == Some(v.height)
      && v.maxWidth == MaxWidth && v.maxHeight == MaxHeight
    ensures !ShowsImage(a) ==> r.Ok? && r.value.LinkCard? && r.value.href == a.url && r.value.title == a.name
    ensures !ShowsImage(a) ==> a.bytes >= 0 ==> BytesOfCaption(r.value.caption) == Some(a.bytes)
  {
    if ShowsImage(a) then
      match decode(a.url)
      case None => Err(URIError)
      case Some(decoded) =>
        Ok(ImageView(a.name, Slice(decoded, |CloudinaryPrefix|), a.width.value, a.height.value, MaxWidth, MaxHeight))
    else
      var caption := Decimal(a.bytes) + " Bytes";
      assert a.bytes >= 0 ==> BytesOfCaption(caption) == Some(a.bytes) by {
        if a.bytes >= 0 {
          CaptionRoundTrip(a.bytes);
        }
      }
      Ok(LinkCard(a.url, a.name, caption))
  }

  /** Reads back a caption of the form "<digits> Bytes". */
  function BytesOfCaption(caption: string): Option<nat>
  {
    if |caption| > 6 && caption[|caption| - 6..] == " Bytes" && AllDigits(caption[..|caption| - 6]) then
      Some(DigitsValue(caption[..|caption| - 6]))
    else None
  }

  /** A byte count written as a caption reads back as the same count. */
  lemma CaptionRoundTrip(n: int)
    requires n >= 0
    ensures BytesOfCaption(Decimal(n) + " Bytes") == Some(n)
  {
    var caption := Decimal(n) + " Bytes";
    assert caption[..|caption| - 6] == Decimal(n) == NatDigits(n);
    NatDigitsRoundTrip(n);
  }

  /** `q_${quality || "auto"}`: an absent or zero quality becomes "auto". */
  function QualityText(quality: Option<int>): (t: string)
    ensures t == "auto" <==> quality.None? || quality == Some(0)
    ensures t != "auto" ==> AllDigitsOrSign(t) && DecimalValue(t) == quality.value
  {
    if quality.None? || quality == Some(0) then "auto"
    else
      DecimalRoundTrip(quality.value);
      Decimal(quality.value)
  }

  predicate AllDigitsOrSign(t: string)
  {
    |t| >= 1 && forall i :: 0 <= i < |t| ==> IsDigit(t[i]) || (i == 0 && t[i] == '-')
  }

  /** The transformation parameters `["c_limit", w_<width>, q_<quality>].join(",")`. */
  function Params(width: int, quality: Option<int>): string
  {
    Join(["c_limit", "w_" + Decimal(width), "q_" + QualityText(quality)], ",")
  }

  /** The image loader: prefix, parameters, a slash, then the source path. */
  function Loader(src: string, width: int, quality: Option<int>): (u: string)
    ensures CloudinaryPrefix <= u
    ensures |u| > |CloudinaryPrefix| + |src| && u[|u| - |src|..] == src && u[|u| - |src| - 1] == '/'
    ensures u[|CloudinaryPrefix|..|u| - |src| - 1] == "c_limit,w_" + Decimal(width) + ",q_" + QualityText(quality)
  {
    ParamsShape(width, quality);
    var u := CloudinaryPrefix + Params(width, quality) + "/" + src;
    assert u[|CloudinaryPrefix|..|u| - |src| - 1] == Params(width, quality);
    u
  }

  /** The parameters are exactly the three comma-separated transformations. */
  lemma ParamsShape(width: int, quality: Option<int>)
    ensures Params(width, quality) == "c_limit,w_" + Decimal(width) + ",q_" + QualityText(quality)
    ensures '/' !in Params(width, quality)
  {
    JoinCons("c_limit", ["w_" + Decimal(width), "q_" + QualityText(quality)], ",");
    JoinCons("w_" + Decimal(width), ["q_" + QualityText(quality)], ",");
    var p := Params(width, quality);
    var d := Decimal(width);
    var q := QualityText(quality);
    assert p == "c_limit,w_" + d + ",q_" + q;
    forall i | 0 <= i < |p| ensures p[i] != '/' {
      if i < 10 {
      } else if i < 10 + |d| {
        assert p[i] == d[i - 10];
      } else if i < 13 + |d| {
      } else {
        assert p[i] == q[i - 13 - |d|];
      }
    }
  }

  /** The loaded URL is on the account's upload prefix; what follows the
      prefix up to its first slash is exactly the transformation parameters
      for the requested width and quality, and what follows that slash is the
      source path, unchanged. */
  lemma LoaderRoundTrip(src: string, width: int, quality: Option<int>)
    ensures var u := Loader(src, width, quality);
      && CloudinaryPrefix <= u
      && BeforeFirst(u[|CloudinaryPrefix|..], "/") == "c_limit,w_" + Decimal(width) + ",q_" + QualityText(quality)
      && AfterFirst(u[|CloudinaryPrefix|..], '/') == Some(src)
  {
    var u := Loader(src, width, quality);
    ParamsShape(width, quality);
    assert u[|CloudinaryPrefix|..] == Params(width, quality) + ['/'] + src;
    AfterFirstOfJoin(Params(width, quality), '/', src);
    BeforeFirstOfJoin(Params(width, quality), '/', src);
  }

  /** The pieces of "c_limit,w_<d>,q_<q>" sit at fixed offsets after `d`. */
  lemma ParamsPieces(d: string, q: string)
    ensures var p := "c_limit,w_" + d + ",q_" + q;
      && p[..10] == "c_limit,w_" && p[10..10 + |d|] == d
      && p[10 + |d|..13 + |d|] == ",q_" && p[13 + |d|..] == q
  {
  }

  /** The width, and a quality other than "auto", read back from the loaded
      URL's parameters. */
  lemma LoaderParamsReadBack(src: string, width: int, quality: Option<int>)
    ensures var p := BeforeFirst(Loader(src, width, quality)[|CloudinaryPrefix|..], "/");
      var d := Decimal(width);
      && p == "c_limit,w_" + d + ",q_" + QualityText(quality)
      && DecimalValue(p[10..10 + |d|]) == width
      && p[10 + |d|..13 + |d|] == ",q_"
      && (p[13 + |d|..] == "auto" <==> quality.None? || quality == Some(0))
      && (p[13 + |d|..] != "auto" ==> DecimalValue(p[13 + |d|..]) == quality.value)
  {
    var d, q := Decimal(width), QualityText(quality);
    LoaderRoundTrip(src, width, quality);
    var p := BeforeFirst(Loader(src, width, quality)[|CloudinaryPrefix|..], "/");
    assert p == "c_limit,w_" + d + ",q_" + q;
    DecimalRoundTrip(width);
    ParamsPieces(d, q);
  }

  /** For an image URL without escapes, the loader at any width serves the very
      path that was uploaded. */
  lemma ImageServedFromUploadedPath(a: AttachmentType, decode: string -> Option<string>, width: int, quality: Option<int>)
    requires ShowsImage(a) && decode(a.url) == Some(a.url)
    ensures Render(a, decode).Ok? && Render(a, decode).value.ImageView?
    ensures var u := Loader(Render(a, decode).value.src, width, quality);
      AfterFirst(u[|CloudinaryPrefix|..], '/') == Some(a.url[|CloudinaryPrefix|..])
  {
    LoaderRoundTrip(Render(a, decode).value.src, width, quality);
  }

  /** Whether the image has finished loading. */
  datatype LoadState = Loading | Loaded

  /** The component state of `AttachmentImage`. */
  class ImageLoad {
    var state: LoadState

    constructor ()
      ensures state == Loading
    {
      state := Loading;
    }

    /** `onLoadingComplete` */
    method OnLoadingComplete()
      modifies this
      ensures state == Loaded
    {
      state := Loaded;
    }
  }
}
