/**
 * The shared helpers of the PHP back end (web/utils_php/utils.php): identifiers,
 * new logs and lookup tables, the error-log location and the thumbnail guard.
 */
module Utils {
  import opened Wrappers
  import opened SaveFiles
  import opened Ledger

  // ---------------------------------------------------------------------------
  // generate_id: "<random hex>-<prefix>-<Y_m_d_H_i_s>"
  // ---------------------------------------------------------------------------

  /** The clock's reading, as date('Y_m_d_H_i_s') formats it. */
  datatype DateTime = DateTime(year: int, month: int, day: int, hour: int, minute: int, second: int)
  {
    predicate Valid()
    {
      1000 <= year <= 9999 && 1 <= month <= 12 && 1 <= day <= 31
      && 0 <= hour <= 23 && 0 <= minute <= 59 && 0 <= second <= 59
    }
  }

  const HexDigits: string := "0123456789abcdef"

  function HexValue(c: char): (v: int)
    ensures -1 <= v < 16
    ensures 0 <= v ==> HexDigits[v] == c
  {
    if '0' <= c <= '9' then c as int - '0' as int
    else if 'a' <= c <= 'f' then c as int - 'a' as int + 10
    else -1
  }

  /** bin2hex: two lower-case hex digits per byte. */
  function BinToHex(bytes: seq<bv8>): (h: string)
    ensures |h| == 2 * |bytes|
    ensures forall i :: 0 <= i < |h| ==> h[i] in HexDigits
  {
    if bytes == [] then ""
    else [HexDigits[bytes[0] as int / 16], HexDigits[bytes[0] as int % 16]] + BinToHex(bytes[1..])
  }

  /** hex2bin, the inverse of bin2hex; None on an odd length or a non-hex digit. */
  function HexToBin(h: string): Option<seq<bv8>>
    decreases |h|
  {
    if h == [] then Some([])
    else if |h| == 1 || HexValue(h[0]) < 0 || HexValue(h[1]) < 0 then None
    else match HexToBin(h[2..])
      case None => None
      case Some(rest) => Some([(HexValue(h[0]) * 16 + HexValue(h[1])) as bv8] + rest)
  }

  lemma HexDigitValue(v: int)
    requires 0 <= v < 16
    ensures HexValue(HexDigits[v]) == v
  {
  }

  lemma {:induction false} HexRoundTrip(bytes: seq<bv8>)
    ensures HexToBin(BinToHex(bytes)) == Some(bytes)
  {
    if bytes != [] {
      var h := BinToHex(bytes);
      var hi, lo := bytes[0] as int / 16, bytes[0] as int % 16;
      assert h[0] == HexDigits[hi] && h[1] == HexDigits[lo];
      HexDigitValue(hi);
      HexDigitValue(lo);
      assert h[2..] == BinToHex(bytes[1..]);
      HexRoundTrip(bytes[1..]);
      assert hi * 16 + lo == bytes[0] as int;
      assert (hi * 16 + lo) as bv8 == bytes[0];
      assert HexToBin(h) == Some([(hi * 16 + lo) as bv8] + bytes[1..]);
      assert [bytes[0]] + bytes[1..] == bytes;
    }
  }

  /** A number of exactly width decimal digits (zero-padded), as date() prints it. */
  function Digits(n: nat, width: nat): (s: string)
    ensures |s| == width
    ensures forall i :: 0 <= i < |s| ==> '0' <= s[i] <= '9'
  {
    if width == 0 then ""
    else Digits(n / 10, width - 1) + [('0' as int + n % 10) as char]
  }

  function ParseDigits(s: string): (n: nat)
  {
    if s == [] then 0
    else 10 * ParseDigits(s[..|s| - 1]) + (if '0' <= s[|s| - 1] <= '9' then s[|s| - 1] as int - '0' as int else 0)
  }

  function Pow10(k: nat): (p: nat)
    ensures p >= 1
  {
    if k == 0 then 1 else 10 * Pow10(k - 1)
  }

  lemma {:induction false} DigitsRoundTrip(n: nat, width: nat)
    requires n < Pow10(width)
    ensures ParseDigits(Digits(n, width)) == n
  {
    if width > 0 {
      var s := Digits(n, width);
      assert s[..|s| - 1] == Digits(n / 10, width - 1);
      DigitsRoundTrip(n / 10, width - 1);
    }
  }

  /** date('Y_m_d_H_i_s'): 19 characters. */
  function FormatDate(d: DateTime): (s: string)
    requires d.Valid()
    ensures |s| == 19
  {
    Digits(d.year, 4) + "_" + Digits(d.month, 2) + "_" + Digits(d.day, 2) + "_"
      + Digits(d.hour, 2) + "_" + Digits(d.minute, 2) + "_" + Digits(d.second, 2)
  }

  function ParseDate(s: string): (d: DateTime)
    requires |s| == 19
  {
    DateTime(ParseDigits(s[0..4]), ParseDigits(s[5..7]), ParseDigits(s[8..10]),
             ParseDigits(s[11..13]), ParseDigits(s[14..16]), ParseDigits(s[17..19]))
  }

  lemma FormatDateRoundTrip(d: DateTime)
    requires d.Valid()
    ensures ParseDate(FormatDate(d)) == d
  {
    var s := FormatDate(d);
    assert Pow10(4) == 10000 && Pow10(2) == 100;
    assert s[0..4] == Digits(d.year, 4);
    assert s[5..7] == Digits(d.month, 2);
    assert s[8..10] == Digits(d.day, 2);
    assert s[11..13] == Digits(d.hour, 2);
    assert s[14..16] == Digits(d.minute, 2);
    assert s[17..19] == Digits(d.second, 2);
    DigitsRoundTrip(d.year, 4);
    DigitsRoundTrip(d.month, 2);
    DigitsRoundTrip(d.day, 2);
    DigitsRoundTrip(d.hour, 2);
    DigitsRoundTrip(d.minute, 2);
    DigitsRoundTrip(d.second, 2);
  }

  /**
   * generate_id(prefix): the random bytes and the clock are oracles; PHP draws
   * random_bytes(7), so an identifier starts with 14 hex digits.
   */
  function GenerateId(random: seq<bv8>, prefix: string, now: DateTime): (id: string)
    requires now.Valid()
    ensures |id| == 2 * |random| + 1 + |prefix| + 1 + 19
    ensures forall i :: 0 <= i < 2 * |random| ==> id[i] in HexDigits
    ensures id[2 * |random|] == '-' && id[|id| - 20] == '-'
  {
    BinToHex(random) + "-" + prefix + "-" + FormatDate(now)
  }

  /** Take a 7-byte identifier apart again: random bytes, prefix and time. */
  function SplitId(id: string): Option<(seq<bv8>, string, DateTime)>
  {
    if |id| < 14 + 1 + 1 + 19 || id[14] != '-' || id[|id| - 20] != '-' then None
    else match HexToBin(id[..14])
      case None => None
      case Some(bytes) => Some((bytes, id[15..|id| - 20], ParseDate(id[|id| - 19..])))
  }

  /** An identifier determines the random bytes, the prefix and the time it was made from. */
  lemma GenerateIdRoundTrip(random: seq<bv8>, prefix: string, now: DateTime)
    requires |random| == 7 && now.Valid()
    ensures SplitId(GenerateId(random, prefix, now)) == Some((random, prefix, now))
  {
    var id := GenerateId(random, prefix, now);
    assert id[..14] == BinToHex(random);
    assert id[15..|id| - 20] == prefix;
    assert id[|id| - 19..] == FormatDate(now);
    HexRoundTrip(random);
    FormatDateRoundTrip(now);
  }

  /** Identifiers made from different random bytes differ, whatever the prefix and time. */
  lemma GenerateIdDistinct(r1: seq<bv8>, r2: seq<bv8>, p1: string, p2: string, t1: DateTime, t2: DateTime)
    requires |r1| == 7 && |r2| == 7 && t1.Valid() && t2.Valid()
    requires r1 != r2
    ensures GenerateId(r1, p1, t1) != GenerateId(r2, p2, t2)
  {
    GenerateIdRoundTrip(r1, p1, t1);
    GenerateIdRoundTrip(r2, p2, t2);
  }

  // ---------------------------------------------------------------------------
  // create_new_log, create_new_lookup_table
  // ---------------------------------------------------------------------------

  const WelcomeHead: string := " - Welcome to the logs \n project: "
  const WelcomeMiddle: string := " \n save: "

  /** The body create_new_log writes (and returns) for a save's new log.txt. */
  function WelcomeText(date: string, project: string, save: string): (body: string)
    ensures |body| == |date| + |WelcomeHead| + |project| + |WelcomeMiddle| + |save| + 2
    ensures var p := |date| + |WelcomeHead|;
            body[p..p + |project|] == project
            && body[p + |project| + |WelcomeMiddle|..p + |project| + |WelcomeMiddle| + |save|] == save
  {
    date + WelcomeHead + project + WelcomeMiddle + save + " \n"
  }

  /**
   * The image names of a save that the given mapping knows, with the names the
   * mapping gives them, added to an existing mapping.
   */
  function CopyKnown(existing: map<string, string>, images: seq<string>, mapping: map<string, string>): (r: map<string, string>)
    ensures forall img :: img in r <==> img in existing || (img in images && img in mapping)
    ensures forall img :: img in images && img in mapping ==> r[img] == mapping[img]
    ensures forall img :: img in existing && !(img in images && img in mapping) ==> r[img] == existing[img]
  {
    existing + map img | img in images && img in mapping :: mapping[img]
  }

  /**
   * The lookup table create_new_lookup_table builds from the template: the template's
   * ledger, the given ids and names, and the known names of the save's images. The
   * template's own image mapping is empty.
   */
  method CreateNewLookupTable(projectId: string, projectName: string, saveId: string, saveName: string,
                              images: seq<string>, mapping: map<string, string>)
    returns (t: LookupTable)
    ensures t.projectId == projectId && t.saveId == saveId
    ensures t.userGivenProjectName == projectName && t.userGivenSaveName == saveName
    ensures t.imageMapping == CopyKnown(map[], images, mapping)
    ensures t.transmission == Some(DefaultTransmission) && t.cer.None?
  {
    t := LookupTable(projectId, saveId, projectName, saveName, map[], Some(DefaultTransmission), None);
    var i := 0;
    while i < |images|
      invariant 0 <= i <= |images|
      invariant t.projectId == projectId && t.saveId == saveId
      invariant t.userGivenProjectName == projectName && t.userGivenSaveName == saveName
      invariant t.transmission == Some(DefaultTransmission) && t.cer.None?
      invariant t.imageMapping == CopyKnown(map[], images[..i], mapping)
    {
      if images[i] in mapping {
        t := t.(imageMapping := t.imageMapping[images[i] := mapping[images[i]]]);
      }
      assert images[..i + 1] == images[..i] + [images[i]];
      i := i + 1;
    }
    assert images[..i] == images;
  }

  /** The lookup table of a save never names an image outside the save. */
  lemma LookupTableNamesOnlySaveImages(images: seq<string>, mapping: map<string, string>)
    ensures forall img :: img in CopyKnown(map[], images, mapping) ==> img in images && img in mapping
  {
  }

  // ---------------------------------------------------------------------------
  // log_error_on_server
  // ---------------------------------------------------------------------------

  /** The error log goes into the given directory if it exists, else into the working directory. */
  function ErrorLogPath(dir: string, dirExists: bool): (path: string)
    ensures dirExists ==> path == dir + "/error.txt"
    ensures !dirExists ==> path == "error.txt"
  {
    if dirExists then dir + "/error.txt" else "error.txt"
  }

  const ErrorHead: string := "\n-----------PHP error object-----------\n "
  const ErrorRule: string := " \n--------------------------------------\n "

  /** The entry appended to the error log; the session id is appended only when given. */
  function ErrorText(date: string, message: string, session: Option<string>): (text: string)
    ensures |text| == |ErrorHead| + |date| + |ErrorRule| + |message| + (if session.Some? then 13 + |session.value| else 0)
    ensures text[..|ErrorHead|] == ErrorHead && text[|ErrorHead|..|ErrorHead| + |date|] == date
    ensures session.None? <==> |text| == |ErrorHead| + |date| + |ErrorRule| + |message|
    ensures session.Some? ==> text[|text| - |session.value|..] == session.value
  {
    var base := ErrorHead + date + ErrorRule + message;
    match session
    case None => base
    case Some(s) => base + "\n sessionID: " + s
  }

  // ---------------------------------------------------------------------------
  // create_thumbnail_image
  // ---------------------------------------------------------------------------

  datatype ImageType = Jpeg | Png | OtherType
  datatype ThumbnailOutcome =
    | AlreadyThere
    | Created(width: int, height: int)
    | Unsupported  // the "no such image type" exception
    | TooSmall     // imagecreatetruecolor refuses a zero width or height with a ValueError

  /** PHP's round() of n / 10 for a non-negative pixel count: halves round up. */
  function RoundTenth(n: nat): (r: nat)
    ensures 10 * r - 5 <= n < 10 * r + 5
  {
    (n + 5) / 10
  }

  /**
   * A thumbnail is only made when none exists, only from a JPEG or PNG, at a tenth
   * of the size; an image under 5 pixels in either dimension rounds to a zero size,
   * which imagecreatetruecolor refuses.
   */
  function Thumbnail(exists_: bool, kind: ImageType, width: nat, height: nat): (o: ThumbnailOutcome)
    ensures exists_ ==> o == AlreadyThere
    ensures !exists_ && kind == OtherType ==> o == Unsupported
    ensures o == TooSmall <==> !exists_ && kind != OtherType && (width < 5 || height < 5)
    ensures o.Created? ==>
              !exists_ && kind != OtherType && o.width >= 1 && o.height >= 1
              && 10 * o.width - 5 <= width < 10 * o.width + 5
              && 10 * o.height - 5 <= height < 10 * o.height + 5
    ensures !exists_ && kind != OtherType && width >= 5 && height >= 5 ==> o.Created?
  {
    if exists_ then AlreadyThere
    else if kind == OtherType then Unsupported
    else if RoundTenth(width) == 0 || RoundTenth(height) == 0 then TooSmall
    else Created(RoundTenth(width), RoundTenth(height))
  }
}
