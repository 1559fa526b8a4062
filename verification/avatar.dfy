/** The avatar component (packages/ui/components/avatar.tsx): the initials
    shown when there is no image, and the image's alternative text. */
module Avatar {
  import opened Wrappers

  /** The `size` variants. */
  datatype Size = Small | TwoSm | Medium | Large | XLarge

  /** The characters the regular expression class `\s` matches. */
  predicate IsWhitespace(c: char)
  {
    var n := c as int;
    n in {0x09, 0x0A, 0x0B, 0x0C, 0x0D, 0x20, 0xA0, 0x1680, 0x2028, 0x2029, 0x202F, 0x205F, 0x3000, 0xFEFF}
    || 0x2000 <= n <= 0x200A
  }

  /** `s.split(/\s/)`: the pieces between whitespace characters, empty pieces
      included; one more piece than there are whitespace characters. */
  function SplitWhitespace(s: string): (pieces: seq<string>)
    ensures |pieces| >= 1
    decreases |s|
  {
    if |s| == 0 then [""]
    else
      var rest := SplitWhitespace(s[1..]);
      if IsWhitespace(s[0]) then [""] + rest else [[s[0]] + rest[0]] + rest[1..]
  }

  /** `v.length > 0 ? v.charAt(0) : ""` */
  function FirstChar(v: string): string
  {
    if |v| > 0 then [v[0]] else ""
  }

  /** `.map(FirstChar).join("")` */
  function FirstChars(pieces: seq<string>): string
  {
    if |pieces| == 0 then "" else FirstChar(pieces[0]) + FirstChars(pieces[1..])
  }

  /** Reference reading of initials: every non-whitespace character that begins
      the string or follows a whitespace character, in order. */
  function WordStarts(s: string, atStart: bool): string
  {
    if |s| == 0 then ""
    else (if atStart && !IsWhitespace(s[0]) then [s[0]] else "") + WordStarts(s[1..], IsWhitespace(s[0]))
  }

  /** The small sizes show a single initial. */
  predicate IsSmall(size: Option<Size>)
  {
    size == Some(Small) || size == Some(TwoSm)
  }

  /** `fallbackText` */
  function FallbackText(fallback: Option<string>, size: Option<Size>): (t: Option<string>)
    ensures t.None? <==> fallback.None?
    ensures t.Some? && IsSmall(size) ==> |t.value| <= 1
    ensures t.Some? ==> t.value <= FirstChars(SplitWhitespace(fallback.value))
  {
    match fallback
    case None => None
    case Some(f) =>
      var text := FirstChars(SplitWhitespace(f));
      Some(if IsSmall(size) && |text| > 1 then text[..1] else text)
  }

  lemma {:induction false} WordStartsOfFirstPiece(s: string)
    ensures WordStarts(s, true) == FirstChar(SplitWhitespace(s)[0]) + WordStarts(s, false)
  {
    if |s| > 0 && !IsWhitespace(s[0]) {
      assert WordStarts(s, false) == WordStarts(s[1..], false);
    }
  }

  /** Splitting and taking each piece's first character yields exactly the
      word starts. */
  lemma {:induction false} InitialsAreWordStarts(s: string)
    ensures FirstChars(SplitWhitespace(s)) == WordStarts(s, true)
    decreases |s|
  {
    if |s| > 0 {
      var rest := SplitWhitespace(s[1..]);
      InitialsAreWordStarts(s[1..]);
      if IsWhitespace(s[0]) {
        assert ([""] + rest)[1..] == rest;
      } else {
        var pieces := [[s[0]] + rest[0]] + rest[1..];
        assert pieces[1..] == rest[1..];
        var head := FirstChar(rest[0]);
        assert FirstChars(rest) == head + FirstChars(rest[1..]);
        WordStartsOfFirstPiece(s[1..]);
        assert head + FirstChars(rest[1..]) == head + WordStarts(s[1..], false);
        assert FirstChars(rest[1..]) == (head + FirstChars(rest[1..]))[|head|..];
        assert WordStarts(s[1..], false) == (head + WordStarts(s[1..], false))[|head|..];
        assert FirstChar(pieces[0]) == [s[0]];
        assert WordStarts(s, true) == [s[0]] + WordStarts(s[1..], false);
      }
    }
  }

  lemma {:induction false} WordStartsHaveNoWhitespace(s: string, atStart: bool)
    ensures forall i :: 0 <= i < |WordStarts(s, atStart)| ==> !IsWhitespace(WordStarts(s, atStart)[i])
    decreases |s|
  {
    if |s| > 0 {
      WordStartsHaveNoWhitespace(s[1..], IsWhitespace(s[0]));
    }
  }

  /** The initials: absent without a fallback; otherwise the word starts of the
      fallback, cut to one character for the small sizes only, and never a
      whitespace character. */
  lemma FallbackTextSpec(fallback: Option<string>, size: Option<Size>)
    ensures FallbackText(fallback, size).None? <==> fallback.None?
    ensures fallback.Some? ==>
      var all := WordStarts(fallback.value, true);
      var text := FallbackText(fallback, size).value;
      && (IsSmall(size) ==> text == if |all| > 0 then all[..1] else "")
      && (!IsSmall(size) ==> text == all)
      && (forall i :: 0 <= i < |text| ==> !IsWhitespace(text[i]))
  {
    if fallback.Some? {
      InitialsAreWordStarts(fallback.value);
      WordStartsHaveNoWhitespace(fallback.value, true);
    }
  }

  /** The image element: its alternative text and source. */
  datatype Image = Image(alt: string, src: string)

  /** What the component renders: an image when there is a source, and the
      initials underneath as fallback content. */
  datatype AvatarView = AvatarView(image: Option<Image>, text: Option<string>)

  /** `Avatar({ src, fallback, alt, size })` */
  function Render(src: Option<string>, fallback: Option<string>, alt: Option<string>, size: Option<Size>): (v: AvatarView)
    ensures v.image.Some? <==> src.Some?
    ensures v.image.Some? ==> v.image.value.src == src.value
    ensures v.image.Some? ==>
      v.image.value.alt == if fallback.Some? then fallback.value else if alt.Some? then alt.value else "avatar"
    ensures v.text == FallbackText(fallback, size)
  {
    AvatarView(
      if src.Some? then Some(Image(fallback.GetOr(alt.GetOr("avatar")), src.value)) else None,
      FallbackText(fallback, size))
  }
}
