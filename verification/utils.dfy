/** The TMDB image URL builder: a base URL, a size segment (`original` or
    `w` followed by a pixel width) and the image path, joined without a
    separator between the size and the path. */
module TmdbImages {
  import opened Wrappers

  /** The base of every image URL. */
  const TmdbImageBaseUrl := "https://image.tmdb.org/t/p"

  /** The requested size: the original image, or a width in pixels. */
  datatype Width = Original | Pixels(w: nat)

  predicate IsDigit(c: char)
  {
    '0' <= c <= '9'
  }

  predicate AllDigits(s: string)
  {
    forall i :: 0 <= i < |s| ==> IsDigit(s[i])
  }

  function DigitChar(d: nat): (c: char)
    requires d < 10
    ensures IsDigit(c)
  {
    ('0' as int + d) as char
  }

  function DigitValue(c: char): (d: nat)
    requires IsDigit(c)
    ensures d < 10
  {
    c as int - '0' as int
  }

  /** The decimal rendering of a natural number (a template literal's
      `${n}`): digits only, with no leading zero. */
  function Decimal(n: nat): (r: string)
    ensures |r| > 0 && AllDigits(r)
    ensures r[0] == '0' ==> n == 0
  {
    if n < 10 then [DigitChar(n)] else Decimal(n / 10) + [DigitChar(n % 10)]
  }

  /** The number a string of decimal digits denotes. */
  function DecimalValue(s: string): nat
    requires AllDigits(s)
  {
    if |s| == 0 then 0 else DecimalValue(s[..|s| - 1]) * 10 + DigitValue(s[|s| - 1])
  }

  /** Reading a rendered number back gives the number. */
  lemma {:induction false} DecimalRoundTrip(n: nat)
    ensures DecimalValue(Decimal(n)) == n
  {
    if n >= 10 {
      var s := Decimal(n);
      assert s[..|s| - 1] == Decimal(n / 10);
      DecimalRoundTrip(n / 10);
    }
  }

  /** The size segment of the URL. */
  function SizeSegment(width: Width): string
  {
    match width
    case Original => "original"
    case Pixels(w) => "w" + Decimal(w)
  }

  /** `getTMDBImagePath`: the base URL, a slash, the size segment and then
      the path as given. The width defaults to `original`. */
  function GetTMDBImagePath(path: string, width: Width := Original): (r: string)
    ensures TmdbImageBaseUrl + "/" <= r
    ensures |r| >= |path| && r[|r| - |path|..] == path
  {
    TmdbImageBaseUrl + "/" + SizeSegment(width) + path
  }

  /** The position of the first '/' of `s`, or `|s|`. */
  function SlashIndex(s: string): (k: nat)
    ensures k <= |s| && (k < |s| ==> s[k] == '/')
    ensures forall j :: 0 <= j < k ==> s[j] != '/'
  {
    if |s| == 0 || s[0] == '/' then 0 else 1 + SlashIndex(s[1..])
  }

  /** Reads a size segment back. */
  function ParseSize(seg: string): Option<Width>
  {
    if seg == "original" then Some(Original)
    else if |seg| >= 2 && seg[0] == 'w' && AllDigits(seg[1..]) then Some(Pixels(DecimalValue(seg[1..])))
    else None
  }

  /** Splits an image URL into its size and its path, the path starting at
      the first '/' after the size. */
  function ParseImagePath(url: string): Option<(Width, string)>
  {
    var prefix := TmdbImageBaseUrl + "/";
    if !(prefix <= url) then None
    else
      var rest := url[|prefix|..];
      var k := SlashIndex(rest);
      if k == |rest| then None
      else
        match ParseSize(rest[..k])
        case None => None
        case Some(width) => Some((width, rest[k..]))
  }

  /** The URL's shape for both kinds of width, and the default. */
  lemma ImagePathShape(path: string, w: nat)
    ensures GetTMDBImagePath(path) == "https://image.tmdb.org/t/p/original" + path
    ensures GetTMDBImagePath(path, Pixels(w)) == "https://image.tmdb.org/t/p/w" + Decimal(w) + path
  {
  }

  /** For a path starting with '/' (as TMDB's image paths do), the size and
      the path can be read back from the URL. */
  lemma ImagePathRoundTrip(path: string, width: Width)
    requires |path| > 0 && path[0] == '/'
    ensures ParseImagePath(GetTMDBImagePath(path, width)) == Some((width, path))
  {
    var prefix := TmdbImageBaseUrl + "/";
    var seg := SizeSegment(width);
    var url := GetTMDBImagePath(path, width);
    assert url == prefix + (seg + path);
    var rest := url[|prefix|..];
    assert rest == seg + path;
    assert forall j :: 0 <= j < |seg| ==> seg[j] != '/' by {
      if width.Pixels? {
        forall j | 0 < j < |seg| ensures seg[j] != '/' {
          assert seg[j] == Decimal(width.w)[j - 1];
        }
      }
    }
    var k := SlashIndex(rest);
    assert rest[|seg|] == '/';
    assert k == |seg|;
    assert rest[..k] == seg && rest[k..] == path;
    if width.Pixels? {
      assert seg[1..] == Decimal(width.w);
      DecimalRoundTrip(width.w);
      assert seg[0] != "original"[0];
    }
  }

  /** No separator is inserted between the size and the path: without a
      leading '/', different widths and paths give the same URL. */
  lemma NoSeparatorBeforePath()
    ensures GetTMDBImagePath("0.jpg", Pixels(50)) == GetTMDBImagePath(".jpg", Pixels(500))
  {
  }
}
