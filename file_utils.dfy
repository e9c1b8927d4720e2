/** The pure decisions of the frontend file manager: the MIME type of an extension,
    the kind of preview rendered for it, JavaScript `parseInt` of the consumer fee, the
    fee badge and the paywall, the purchase check and the lookup of metadata by cid.
    Contract calls (the purchaser list, the list of all content) arrive as `Result`
    values: an `Err` stands for a call that threw. */
module FileUtils {
  import opened Common
  import opened Numerals
  import opened Types
  import opened Preview

  const OctetStream := "application/octet-stream"

  /** The extensions with a MIME type of their own. */
  const KnownExtensions: set<string> := {"jpg", "png", "txt", "pdf", "mp3", "mp4", "mkv"}

  /** `getMimeType`: the MIME type of an extension; `undefined` and unknown extensions
      fall back to `application/octet-stream`. */
  function GetMimeType(fileType: Option<string>): (mime: string)
    ensures mime == OctetStream <==> fileType.None? || fileType.value !in KnownExtensions
  {
    match fileType
    case None => OctetStream
    case Some(ext) =>
      if ext == "jpg" then "image/jpeg"
      else if ext == "png" then "image/png"
      else if ext == "txt" then "text/plain"
      else if ext == "pdf" then "application/pdf"
      else if ext == "mp3" then "audio/mpeg"
      else if ext == "mp4" then "video/mp4"
      else if ext == "mkv" then "video/x-matroska"
      else OctetStream
  }

  /** Distinct known extensions have distinct MIME types. */
  lemma MimeTypeInjective(a: string, b: string)
    requires a in KnownExtensions && b in KnownExtensions
    requires GetMimeType(Some(a)) == GetMimeType(Some(b))
    ensures a == b
  {
  }

  /** What a preview shows: an image, a video or audio player, an embedded frame, or a
      download link. */
  datatype Media =
    | Img(src: string, alt: string)
    | VideoPlayer(src: string)
    | AudioPlayer(src: string)
    | Frame(src: string)
    | DownloadLink(href: string)
  {
    /** The object URL the element points at. */
    function Url(): string
    {
      match this
      case Img(src, _) => src
      case VideoPlayer(src) => src
      case AudioPlayer(src) => src
      case Frame(src) => src
      case DownloadLink(href) => href
    }
  }

  /** The element dispatch of `getPreview` on the extension. */
  function MediaFor(fileType: string, url: string, title: string): (m: Media)
    ensures m.Url() == url
  {
    if fileType == "jpg" || fileType == "png" then Img(url, title)
    else if fileType == "mp4" || fileType == "mkv" then VideoPlayer(url)
    else if fileType == "mp3" then AudioPlayer(url)
    else if fileType == "pdf" then Frame(url)
    else DownloadLink(url)
  }

  predicate HasPrefix(prefix: string, s: string)
  {
    |prefix| <= |s| && s[..|prefix|] == prefix
  }

  /** The preview chosen for an extension agrees with its MIME type: images, videos and
      audio by their MIME family, a frame for PDF only, and a download link for all the
      rest, which includes `txt` although it has a MIME type of its own. */
  lemma MediaAgreesWithMime(ext: string, url: string, title: string)
    ensures MediaFor(ext, url, title).Img? <==> HasPrefix("image/", GetMimeType(Some(ext)))
    ensures MediaFor(ext, url, title).VideoPlayer? <==> HasPrefix("video/", GetMimeType(Some(ext)))
    ensures MediaFor(ext, url, title).AudioPlayer? <==> HasPrefix("audio/", GetMimeType(Some(ext)))
    ensures MediaFor(ext, url, title).Frame? <==> GetMimeType(Some(ext)) == "application/pdf"
    ensures MediaFor(ext, url, title).DownloadLink?
        <==> GetMimeType(Some(ext)) == "text/plain" || GetMimeType(Some(ext)) == OctetStream
  {
    var mime := GetMimeType(Some(ext));
    if ext == "jpg" || ext == "png" {
      assert mime[..6] == "image/";
    } else if ext == "mp4" || ext == "mkv" {
      assert mime[..6] == "video/";
    } else if ext == "mp3" {
      assert mime[..6] == "audio/";
    } else if ext == "txt" {
      assert mime[..6] == "text/p";
    } else {
      assert mime[..6] == "applic";
    }
  }

  // ---------------------------------------------------------------------------
  // JavaScript parseInt(s) with no radix argument

  /** The white space and line terminators `parseInt` skips before the number. */
  predicate IsJsSpace(c: char)
  {
    var k := c as int;
    || k == 0x09 || k == 0x0A || k == 0x0B || k == 0x0C || k == 0x0D || k == 0x20
    || k == 0xA0 || k == 0x1680 || 0x2000 <= k <= 0x200A || k == 0x2028 || k == 0x2029
    || k == 0x202F || k == 0x205F || k == 0x3000 || k == 0xFEFF
  }

  /** `s` without its leading white space. */
  function TrimStart(s: string): (t: string)
    ensures |t| <= |s| && t == s[|s| - |t|..]
    ensures t == [] || !IsJsSpace(t[0])
    ensures forall i :: 0 <= i < |s| - |t| ==> IsJsSpace(s[i])
  {
    if s != [] && IsJsSpace(s[0]) then TrimStart(s[1..]) else s
  }

  /** The longest prefix of `s` made of digits of `base`. */
  function DigitPrefix(s: string, base: nat): (d: string)
    ensures |d| <= |s| && d == s[..|d|]
    ensures forall i :: 0 <= i < |d| ==> IsDigit(d[i], base)
    ensures |d| < |s| ==> !IsDigit(s[|d|], base)
  {
    if s != [] && IsDigit(s[0], base) then [s[0]] + DigitPrefix(s[1..], base) else []
  }

  /** The unsigned part of `parseInt`: radix 16 after `0x` or `0X`, otherwise radix 10;
      the longest run of digits, the rest ignored; no digits is `NaN`, here `None`. */
  function ParseUnsigned(u: string): (r: Option<nat>)
  {
    var hex := |u| >= 2 && u[0] == '0' && (u[1] == 'x' || u[1] == 'X');
    var base := if hex then 16 else 10;
    var digits := DigitPrefix(if hex then u[2..] else u, base);
    if digits == [] then None else Some(FromRadix(digits, base))
  }

  /** `parseInt` after the white space: an optional sign, then the unsigned part. */
  function ParseSigned(t: string): (r: Option<int>)
    ensures r.Some? && r.value < 0 ==> t != [] && t[0] == '-'
  {
    if t != [] && t[0] == '-' then
      match ParseUnsigned(t[1..])
      case None => None
      case Some(v) => Some(-(v as int))
    else if t != [] && t[0] == '+' then
      match ParseUnsigned(t[1..])
      case None => None
      case Some(v) => Some(v)
    else
      match ParseUnsigned(t)
      case None => None
      case Some(v) => Some(v)
  }

  /** `parseInt(s)`: skip white space, take an optional sign, then the unsigned part. */
  function ParseInt(s: string): (r: Option<int>)
    ensures r.Some? && r.value < 0 ==> TrimStart(s) != [] && TrimStart(s)[0] == '-'
  {
    ParseSigned(TrimStart(s))
  }

  /** A string made only of digits of `base` is its own longest digit prefix, whatever
      follows it. */
  lemma {:induction false} DigitPrefixOfDigits(d: string, rest: string, base: nat)
    requires forall i :: 0 <= i < |d| ==> IsDigit(d[i], base)
    requires rest == [] || !IsDigit(rest[0], base)
    ensures DigitPrefix(d + rest, base) == d
  {
    if d != [] {
      assert (d + rest)[1..] == d[1..] + rest;
      DigitPrefixOfDigits(d[1..], rest, base);
    } else {
      assert d + rest == rest;
    }
  }

  /** Trimming a string that does not start with white space leaves it as it is. */
  lemma TrimStartNoSpace(s: string)
    requires s == [] || !IsJsSpace(s[0])
    ensures TrimStart(s) == s
  {
  }

  /** Without a leading decimal digit there is nothing to read. */
  lemma ParseUnsignedNoDigit(u: string)
    requires u == [] || !IsDigit(u[0], 10)
    ensures ParseUnsigned(u) == None
  {
    if u != [] {
      assert u[0] != '0' by {
        assert DigitValue('0') == 0;
      }
      assert DigitPrefix(u, 10) == [];
    }
  }

  /** The decimal digits of `n` followed by a tail that does not start with a letter or
      digit read as `n`. */
  lemma UnsignedDecimal(n: nat, rest: string)
    requires rest == [] || !IsDigit(rest[0], 36)
    ensures ParseUnsigned(ToRadix(n, 10) + rest) == Some(n)
  {
    var d := ToRadix(n, 10);
    FromToRadix(n, 10);
    DigitPrefixOfDigits(d, rest, 10);
    var s := d + rest;
    assert |d| > 1 ==> s[1] == d[1] && IsLowerHexChar(d[1]);
    assert |d| == 1 && rest != [] ==> s[1] == rest[0];
  }

  /** A decimal rendering reads back as its number, with any tail that does not start
      with a letter or digit (an `x` after a lone `0` would switch to radix 16). */
  lemma ParseIntDecimal(n: nat, rest: string)
    requires rest == [] || !IsDigit(rest[0], 36)
    ensures ParseInt(ToRadix(n, 10) + rest) == Some(n)
  {
    var d := ToRadix(n, 10);
    var s := d + rest;
    UnsignedDecimal(n, rest);
    assert s[0] == d[0] && '0' <= s[0] <= '9';
    TrimStartNoSpace(s);
    assert ParseInt(s) == ParseSigned(s);
  }

  /** Behind a minus sign, a decimal rendering reads back as the negated number. */
  lemma ParseIntNegativeDecimal(n: nat, rest: string)
    requires rest == [] || !IsDigit(rest[0], 36)
    ensures ParseInt("-" + ToRadix(n, 10) + rest) == Some(-(n as int))
  {
    var s := ToRadix(n, 10) + rest;
    UnsignedDecimal(n, rest);
    var m := "-" + ToRadix(n, 10) + rest;
    assert m == ['-'] + s;
    assert m[0] == '-' && m[1..] == s;
    TrimStartNoSpace(m);
    assert ParseInt(m) == ParseSigned(m);
  }

  /** A hexadecimal rendering behind `0x` reads back as its number. */
  lemma ParseIntHex(n: nat)
    ensures ParseInt("0x" + ToRadix(n, 16)) == Some(n)
  {
    var d := ToRadix(n, 16);
    FromToRadix(n, 16);
    DigitPrefixOfDigits(d, [], 16);
    var s := "0x" + d;
    assert s[0] == '0' && s[1] == 'x' && s[2..] == d + [];
    TrimStartNoSpace(s);
    assert ParseUnsigned(s) == Some(n);
    assert ParseInt(s) == ParseSigned(s);
  }

  /** Leading white space does not change the result. */
  lemma ParseIntSkipsSpace(c: char, s: string)
    requires IsJsSpace(c)
    ensures ParseInt([c] + s) == ParseInt(s)
  {
    var t := [c] + s;
    assert t[0] == c && t[1..] == s;
    assert TrimStart(t) == TrimStart(s);
  }

  /** A string that starts with neither white space, a sign nor a digit is `NaN`. */
  lemma ParseIntNaN(s: string)
    requires s == [] || (!IsJsSpace(s[0]) && s[0] != '-' && s[0] != '+' && !IsDigit(s[0], 10))
    ensures ParseInt(s) == None
  {
    TrimStartNoSpace(s);
    ParseUnsignedNoDigit(s);
    assert ParseInt(s) == ParseSigned(s);
  }

  // ---------------------------------------------------------------------------
  // Fee badge, purchase check and paywall

  /** The card's fee badge: `parseInt(consumerFee)` is truthy, i.e. a number other than
      0 (`NaN` is falsy). */
  predicate ShowsFeeBadge(consumerFee: string)
  {
    var v := ParseInt(consumerFee);
    v.Some? && v.value != 0
  }

  /** The paywall condition `parseInt(consumerFee) > 0 && !purchased` (`NaN > 0` is false). */
  predicate IsPaywalled(consumerFee: string, purchased: bool)
  {
    var v := ParseInt(consumerFee);
    v.Some? && v.value > 0 && !purchased
  }

  /** A paywalled card always carries the fee badge; a negative fee shows the badge but
      is never paywalled. */
  lemma PaywallShowsBadge(consumerFee: string, purchased: bool)
    ensures IsPaywalled(consumerFee, purchased) ==> ShowsFeeBadge(consumerFee)
    ensures ParseInt(consumerFee).Some? && ParseInt(consumerFee).value < 0
      ==> ShowsFeeBadge(consumerFee) && !IsPaywalled(consumerFee, purchased)
  {
  }

  /** For a fee written in decimal, the content is paywalled exactly when the fee is
      positive and the account has not bought it. */
  lemma PaywallOfDecimalFee(fee: nat, purchased: bool)
    ensures IsPaywalled(ToRadix(fee, 10), purchased) <==> fee > 0 && !purchased
    ensures ShowsFeeBadge(ToRadix(fee, 10)) <==> fee > 0
  {
    ParseIntDecimal(fee, []);
    assert ToRadix(fee, 10) + [] == ToRadix(fee, 10);
  }

  /** `hasPurchasedContent`: the account address occurs in the flattened purchaser list;
      a failed contract call counts as not purchased. */
  function HasPurchased(purchasers: Result<seq<seq<string>>>, account: string): (r: bool)
    ensures r <==> purchasers.Ok? && exists i :: 0 <= i < |purchasers.value| && account in purchasers.value[i]
  {
    if purchasers.Err? then false
    else
      InConcat(purchasers.value, account);
      account in Concat(purchasers.value)
  }

  /** `fileObjects.find(item => item.cid === cid)`: the first object with this cid. */
  function FindByCid(files: seq<FileObject>, cid: string): (r: Option<FileObject>)
    ensures r.None? <==> forall j :: 0 <= j < |files| ==> files[j].cid != cid
    ensures r.Some? ==> exists i :: 0 <= i < |files| && files[i] == r.value && r.value.cid == cid
                                 && forall j :: 0 <= j < i ==> files[j].cid != cid
  {
    if files == [] then None
    else if files[0].cid == cid then Some(files[0])
    else
      var r := FindByCid(files[1..], cid);
      if r.Some? then
        ghost var i :| 0 <= i < |files[1..]| && files[1..][i] == r.value && r.value.cid == cid
          && forall j :: 0 <= j < i ==> files[1..][j].cid != cid;
        assert files[i + 1] == r.value;
        r
      else r
  }

  /** `fetchFileMetadataByCid`: the first listed object with this cid, or `null` when none
      matches or the listing fails. */
  function FetchFileMetadataByCid(all: Result<seq<FileObject>>, cid: string): (r: Option<FileObject>)
    ensures all.Err? ==> r.None?
    ensures r.Some? ==> r.value.cid == cid && r.value in all.value
  {
    if all.Err? then None else FindByCid(all.value, cid)
  }

  /** A cid listed once is found, with exactly its metadata. */
  lemma FetchUniqueCid(all: seq<FileObject>, k: nat)
    requires k < |all|
    requires forall j :: 0 <= j < |all| && j != k ==> all[j].cid != all[k].cid
    ensures FetchFileMetadataByCid(Ok(all), all[k].cid) == Some(all[k])
  {
  }

  // ---------------------------------------------------------------------------
  // getPreview

  /** The badge in the card's header. */
  datatype Badge = FeeBadge | FreeBadge

  /** The rendered card: keyed by cid, titled, with a badge, the media element, and
      whether the element is dimmed behind a "Pay to View" button. */
  datatype Card = Card(key: string, title: string, tooltip: string, badge: Badge, media: Media, locked: bool)

  /** What `getPreview` does: ask for a wallet, or store a card in the preview list. */
  datatype PreviewOutcome =
    | NeedsWallet(message: string)
    | Previewed(list: seq<PreviewContent<Card>>)

  /** The card built for a content item, given whether its fee was paid. */
  function RenderCard(file: FileObject, url: string, purchased: bool): Card
  {
    Card(file.cid, file.title, file.description,
         if ShowsFeeBadge(file.consumerFee) then FeeBadge else FreeBadge,
         MediaFor(file.fileType, url, file.title),
         IsPaywalled(file.consumerFee, purchased))
  }

  /** `getPreview`: without an active account, return the wallet message and leave the
      list alone; otherwise check the purchase and upsert the card under the cid. */
  function GetPreview(list: seq<PreviewContent<Card>>, file: FileObject, url: string,
                      account: Option<string>, purchasers: Result<seq<seq<string>>>): (out: PreviewOutcome)
    ensures out.NeedsWallet? <==> account.None?
    ensures out.NeedsWallet? ==> out.message == "You need to connect wallet to proceed"
    ensures out.Previewed? ==> |list| <= |out.list| <= |list| + 1
  {
    match account
    case None => NeedsWallet("You need to connect wallet to proceed")
    case Some(a) =>
      Previewed(Update(list, file.cid, RenderCard(file, url, HasPurchased(purchasers, a)), file))
  }

  /** After `getPreview` with an account, the lookup by cid gives the item's metadata and
      a card that is locked exactly when the fee is positive and the account is not among
      the purchasers, showing the media chosen for the extension. */
  lemma GetPreviewThenLookup(list: seq<PreviewContent<Card>>, file: FileObject, url: string,
                             account: string, purchasers: Result<seq<seq<string>>>)
    ensures GetPreview(list, file, url, Some(account), purchasers).Previewed?
    ensures var found := GetPreviewByCid(GetPreview(list, file, url, Some(account), purchasers).list, file.cid);
      && found.Some?
      && found.value.fileObject == file
      && found.value.element.media == MediaFor(file.fileType, url, file.title)
      && (found.value.element.locked <==>
           && ParseInt(file.consumerFee).Some? && ParseInt(file.consumerFee).value > 0
           && !(purchasers.Ok? && exists i :: 0 <= i < |purchasers.value| && account in purchasers.value[i]))
  {
    var card := RenderCard(file, url, HasPurchased(purchasers, account));
    GetAfterUpdate(list, file.cid, card, file);
  }
}
