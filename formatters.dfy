/** The display formatters of frontend/src/utils/formatters.js, on integers and
    strings. A JavaScript `undefined` or `null` argument is `None`; `NaN` is
    `None` too where the source tests for it. */
module Formatters {
  import opened Wrappers
  import opened Numbers

  // ---------------------------------------------------------------------------
  // formatTime / formatDuration

  /** `n.toString().padStart(2, '0')`. */
  function TwoDigits(n: int): string {
    PadStart(IntToString(n), 2, '0')
  }

  /** `formatTime(ms)`: whole minutes, ':', and the seconds left over as two
      digits. Division floors and `%` truncates, as in JavaScript. */
  function FormatTime(ms: Option<int>): (r: string)
    ensures ms.None? || ms == Some(0) ==> r == "0:00"
    ensures ms.Some? && ms.value > 0 ==>
              r == NatToString(ms.value / 1000 / 60) + ":" + TwoDigits(ms.value / 1000 % 60)
    // a negative duration floors to negative minutes, so the text starts with '-'
    ensures ms.Some? && ms.value < 0 ==> |r| > 0 && r[0] == '-'
  {
    if ms.None? || ms.value == 0 then "0:00"
    else
      var totalSeconds := ms.value / 1000;
      var minutes := totalSeconds / 60;
      var seconds := JsRem(totalSeconds, 60);
      IntToString(minutes) + ":" + TwoDigits(seconds)
  }

  /** A number below 100 padded to two digits is two digits that read back as it. */
  lemma TwoDigitsReadBack(n: nat)
    requires n < 100
    ensures |TwoDigits(n)| == 2 && IsDigits(TwoDigits(n)) && ParseDigits(TwoDigits(n)) == n
  {
    ParsePadded(n, 2);
    if n >= 10 {
      assert NatToString(n) == NatToString(n / 10) + [DigitChar(n % 10)];
    }
  }

  /** The two sides of the ':' in `m + ":" + s` for a two-character `s`. */
  lemma ColonSplit(m: string, s: string)
    requires |s| == 2
    ensures var r := m + ":" + s;
            |r| == |m| + 3 && r[|r| - 3] == ':' && r[..|r| - 3] == m && r[|r| - 2..] == s
  {
  }

  /** A zero duration prints as the positive ones do: minutes, ':', two digits. */
  lemma FormatTimeShape(ms: nat)
    ensures FormatTime(Some(ms)) == NatToString(ms / 1000 / 60) + ":" + TwoDigits(ms / 1000 % 60)
  {
    if ms == 0 {
      assert NatToString(0) == "0";
      assert TwoDigits(0) == "00";
    }
  }

  /** For any non-negative duration the text reads back: the digits before the
      ':' are the minutes, the two after it the seconds below 60, and together
      they make the whole seconds of the duration. */
  lemma FormatTimeReadsBack(ms: nat)
    ensures var r := FormatTime(Some(ms));
            && |r| >= 4 && r[|r| - 3] == ':'
            && IsDigits(r[..|r| - 3]) && IsDigits(r[|r| - 2..])
            && ParseDigits(r[|r| - 2..]) < 60
            && ParseDigits(r[..|r| - 3]) * 60 + ParseDigits(r[|r| - 2..]) == ms / 1000
  {
    var minutes, seconds := ms / 1000 / 60, ms / 1000 % 60;
    var m, s := NatToString(minutes), TwoDigits(seconds);
    FormatTimeShape(ms);
    ParseNatToString(minutes);
    TwoDigitsReadBack(seconds);
    ColonSplit(m, s);
    assert minutes * 60 + seconds == ms / 1000;
  }

  /** `formatDuration(ms)` is `formatTime(ms)`. */
  function FormatDuration(ms: Option<int>): (r: string)
    ensures r == FormatTime(ms)
  {
    FormatTime(ms)
  }

  // ---------------------------------------------------------------------------
  // formatArtistNames

  /** An artist object; a missing name is "", which `join` prints the same way. */
  datatype Artist = Artist(name: string)

  function TotalLength(names: seq<string>): nat {
    if names == [] then 0 else TotalLength(names[..|names| - 1]) + |names[|names| - 1]|
  }

  /** `names.join(sep)`. */
  function Join(names: seq<string>, sep: string): (r: string)
    ensures |r| == TotalLength(names) + (if names == [] then 0 else (|names| - 1) * |sep|)
    ensures |names| == 1 ==> r == names[0]
  {
    if names == [] then ""
    else if |names| == 1 then names[0]
    else Join(names[..|names| - 1], sep) + sep + names[|names| - 1]
  }

  function Names(artists: seq<Artist>): (names: seq<string>)
    ensures |names| == |artists|
    ensures forall i :: 0 <= i < |artists| ==> names[i] == artists[i].name
  {
    if artists == [] then [] else Names(artists[..|artists| - 1]) + [artists[|artists| - 1].name]
  }

  /** `formatArtistNames(artists)`; `None` stands for anything that is not an array. */
  function FormatArtistNames(artists: Option<seq<Artist>>): (r: string)
    ensures artists.None? ==> r == ""
    ensures artists.Some? ==> r == Join(Names(artists.value), ", ")
  {
    if artists.None? then "" else Join(Names(artists.value), ", ")
  }

  /** Adding an artist adds ", " and the name at the end. */
  lemma ArtistNamesAppend(artists: seq<Artist>, a: Artist)
    requires artists != []
    ensures FormatArtistNames(Some(artists + [a])) == FormatArtistNames(Some(artists)) + ", " + a.name
  {
    var all := artists + [a];
    assert all[..|all| - 1] == artists;
    assert Names(all)[..|all| - 1] == Names(artists);
  }

  // ---------------------------------------------------------------------------
  // truncateString

  /** `s.substring(0, end)`: `end` is clamped into `0..|s|`. */
  function Prefix(s: string, end: int): (r: string)
    ensures |r| == if end < 0 then 0 else if end > |s| then |s| else end
    ensures r == s[..|r|]
  {
    if end < 0 then "" else if end > |s| then s else s[..end]
  }

  /** `truncateString(str, maxLength)`; `maxLength` is None when omitted, which
      means 30. */
  function TruncateString(str: string, maxLength: Option<int>): (r: string)
    ensures str == "" ==> r == ""
    ensures var max := if maxLength.Some? then maxLength.value else 30;
            && (|str| <= max ==> r == str)
            && (|str| > max && str != "" ==>
                  && 3 <= |r| <= |str| + 3
                  && r[|r| - 3..] == "..."
                  && r[..|r| - 3] == str[..|r| - 3]
                  && (max >= 3 ==> |r| == max)
                  && (max < 3 ==> r == "..."))
  {
    var max := if maxLength.Some? then maxLength.value else 30;
    if str == "" then ""
    else if |str| <= max then str
    else Prefix(str, max - 3) + "..."
  }

  // ---------------------------------------------------------------------------
  // formatTrackNumber

  /** `formatTrackNumber(n)`: "" for a missing or zero number, otherwise its
      decimal text with a leading '0' when it has a single character. */
  function FormatTrackNumber(trackNumber: Option<int>): (r: string)
    ensures trackNumber.None? || trackNumber == Some(0) ==> r == ""
    ensures trackNumber.Some? && trackNumber.value != 0 ==> |r| >= 2
  {
    if trackNumber.None? || trackNumber.value == 0 then ""
    else TwoDigits(trackNumber.value)
  }

  /** A positive track number reads back from its text. */
  lemma TrackNumberReadsBack(n: nat)
    requires n > 0
    ensures IsDigits(FormatTrackNumber(Some(n)))
    ensures ParseDigits(FormatTrackNumber(Some(n))) == n
    ensures |FormatTrackNumber(Some(n))| == if n < 100 then 2 else |NatToString(n)|
  {
    ParsePadded(n, 2);
    if n >= 10 {
      assert NatToString(n) == NatToString(n / 10) + [DigitChar(n % 10)];
    }
  }

  // ---------------------------------------------------------------------------
  // formatPopularity

  const FullStar: char := '★'
  const EmptyStar: char := '☆'

  /** `'★'.repeat(stars) + '☆'.repeat(5 - stars)`; `repeat` with a negative count
      throws a RangeError, which is the Failure here. */
  function Stars(stars: int): (r: Result<string, string>)
    ensures r.Success? <==> 0 <= stars <= 5
  {
    if stars < 0 || stars > 5 then Failure("RangeError: Invalid count value")
    else Success(Repeat(FullStar, stars) + Repeat(EmptyStar, 5 - stars))
  }

  /** `formatPopularity(p)`: p/20 rounded half up, as that many full stars out of
      five. */
  function FormatPopularity(popularity: Option<int>): (r: Result<string, string>)
    ensures popularity.None? ==> r == Success("")
    ensures popularity.Some? ==> (r.Success? <==> -10 <= popularity.value < 110)
  {
    if popularity.None? then Success("")
    else Stars((popularity.value + 10) / 20)
  }

  /** A popularity in 0..100 shows five stars, the full ones first, and the number
      of full ones is the popularity to the nearest 20 points, halves rounded up. */
  lemma PopularityStars(p: int)
    requires 0 <= p <= 100
    ensures var r := FormatPopularity(Some(p));
            r.Success? && |r.value| == 5 &&
            exists full :: 0 <= full <= 5 && full * 20 - 10 <= p < full * 20 + 10 &&
              (forall i :: 0 <= i < full ==> r.value[i] == FullStar) &&
              (forall i :: full <= i < 5 ==> r.value[i] == EmptyStar)
  {
    var full := (p + 10) / 20;
    var r := FormatPopularity(Some(p)).value;
    assert r == Repeat(FullStar, full) + Repeat(EmptyStar, 5 - full);
    assert forall i :: 0 <= i < full ==> r[i] == Repeat(FullStar, full)[i];
    assert forall i :: full <= i < 5 ==> r[i] == Repeat(EmptyStar, 5 - full)[i - full];
    assert 0 <= full <= 5 && full * 20 - 10 <= p < full * 20 + 10;
  }

  // ---------------------------------------------------------------------------
  // formatNumberWithCommas

  /** The regular expression `/\B(?=(\d{3})+(?!\d))/g` applied to the digits after
      the first one: a ',' goes before each digit that has a multiple of three
      digits from it to the end. */
  function CommasBefore(t: string): (r: string)
    ensures |r| == |t| + |t| / 3
  {
    if t == [] then ""
    else (if |t| % 3 == 0 then "," else "") + [t[0]] + CommasBefore(t[1..])
  }

  /** The regex replacement on a digit string: never a ',' before the first digit,
      where `\B` fails. */
  function InsertCommas(d: string): string {
    if d == [] then "" else [d[0]] + CommasBefore(d[1..])
  }

  /** `formatNumberWithCommas(num)` for an integer; a '-' sign is followed by a
      word boundary, so it takes no ',' after it. */
  function FormatNumberWithCommas(num: Option<int>): (r: string)
    ensures num.None? ==> r == ""
    ensures num.Some? && num.value < 0 ==> |r| > 0 && r[0] == '-'
  {
    if num.None? then ""
    else if num.value >= 0 then InsertCommas(NatToString(num.value))
    else "-" + InsertCommas(NatToString(-num.value))
  }

  /** Groups of three digits from the right, joined by ','. */
  function GroupThousands(d: string): string {
    if |d| <= 3 then d else GroupThousands(d[..|d| - 3]) + "," + d[|d| - 3..]
  }

  function StripCommas(s: string): string {
    if s == [] then "" else (if s[0] == ',' then "" else [s[0]]) + StripCommas(s[1..])
  }

  lemma {:induction false} CommasBeforeSplit(a: string, b: string)
    requires |b| % 3 == 0
    ensures CommasBefore(a + b) == CommasBefore(a) + CommasBefore(b)
  {
    if a != [] {
      CommasBeforeSplit(a[1..], b);
      assert (a + b)[1..] == a[1..] + b;
    } else {
      assert a + b == b;
    }
  }

  lemma CommasBeforeShort(t: string)
    requires |t| < 3
    ensures CommasBefore(t) == t
  {
    if t != [] {
      assert CommasBefore(t[1..]) == t[1..] by {
        if |t| == 2 { assert CommasBefore(t[1..][1..]) == ""; }
      }
    }
  }

  /** Three trailing digits take one ',' before them. */
  lemma CommasBeforeTriple(tail: string)
    requires |tail| == 3
    ensures CommasBefore(tail) == "," + tail
  {
    CommasBeforeShort(tail[1..]);
    assert tail == [tail[0]] + tail[1..];
  }

  /** The regex inserts exactly the thousands separators: its result is the
      digits grouped by three from the right. */
  lemma {:induction false} InsertCommasGroups(d: string)
    ensures InsertCommas(d) == GroupThousands(d)
  {
    if |d| <= 3 {
      if d != [] { CommasBeforeShort(d[1..]); }
    } else {
      var head, tail := d[..|d| - 3], d[|d| - 3..];
      assert d[0] == head[0];
      assert d[1..] == head[1..] + tail;
      calc {
        InsertCommas(d);
        [d[0]] + CommasBefore(d[1..]);
        { CommasBeforeSplit(head[1..], tail); }
        [head[0]] + (CommasBefore(head[1..]) + CommasBefore(tail));
        { CommasBeforeTriple(tail); }
        [head[0]] + (CommasBefore(head[1..]) + ("," + tail));
        ([head[0]] + CommasBefore(head[1..])) + "," + tail;
        InsertCommas(head) + "," + tail;
        { InsertCommasGroups(head); }
        GroupThousands(head) + "," + tail;
      }
    }
  }

  lemma {:induction false} StripCommasAppend(a: string, b: string)
    ensures StripCommas(a + b) == StripCommas(a) + StripCommas(b)
  {
    if a != [] {
      StripCommasAppend(a[1..], b);
      assert (a + b)[1..] == a[1..] + b;
    } else {
      assert a + b == b;
    }
  }

  lemma {:induction false} StripDigits(d: string)
    requires IsDigits(d)
    ensures StripCommas(d) == d
  {
    if d != [] {
      StripDigits(d[1..]);
    }
  }

  lemma {:induction false} GroupThousandsStrips(d: string)
    requires IsDigits(d)
    ensures StripCommas(GroupThousands(d)) == d
  {
    if |d| <= 3 {
      StripDigits(d);
    } else {
      var head, tail := d[..|d| - 3], d[|d| - 3..];
      GroupThousandsStrips(head);
      StripCommasAppend(GroupThousands(head) + ",", tail);
      StripCommasAppend(GroupThousands(head), ",");
      StripDigits(tail);
      assert d == head + tail;
    }
  }

  /** Deleting the commas from a formatted integer gives back its plain decimal
      text: the digits of its magnitude, after a '-' when it is negative. */
  lemma CommasRoundTrip(n: int)
    ensures StripCommas(FormatNumberWithCommas(Some(n))) == IntToString(n)
    ensures n >= 0 ==> ParseDigits(StripCommas(FormatNumberWithCommas(Some(n)))) == n
    ensures n < 0 ==> ParseDigits(StripCommas(FormatNumberWithCommas(Some(n)))[1..]) == -n
  {
    var m: nat := if n >= 0 then n else -n;
    var d := NatToString(m);
    InsertCommasGroups(d);
    GroupThousandsStrips(d);
    ParseNatToString(m);
    if n < 0 {
      StripCommasAppend("-", InsertCommas(d));
      assert StripCommas("-") == "-";
    }
  }

  // ---------------------------------------------------------------------------
  // formatRelativeTime

  const Minute := 60
  const Hour := 60 * Minute
  const Day := 24 * Hour
  const Month := 30 * Day
  const Year := 12 * Month

  /** "`n` `unit`s ago", with the 's' only when `n` is not 1. */
  function Ago(n: int, unit: string): string {
    IntToString(n) + " " + unit + (if n != 1 then "s" else "") + " ago"
  }

  lemma MulLe(m: int, x: int, y: int)
    requires m > 0 && x <= y
    ensures m * x <= m * y
  {
    assert m * y - m * x == m * (y - x);
  }

  lemma MulLt(m: int, x: int, y: int)
    requires m > 0 && x < y
    ensures m * x + m <= m * y
  {
    MulLe(m, x + 1, y);
    assert m * (x + 1) == m * x + m;
  }

  /** A quotient and remainder in range are the floor division's. */
  lemma DivUnique(a: int, m: int, x: int, y: int)
    requires m > 0 && 0 <= y < m && a == m * x + y
    ensures a / m == x
  {
    var q := a / m;
    assert a == m * q + a % m;
    if q < x {
      MulLt(m, q, x);
    } else if q > x {
      MulLt(m, x, q);
    }
  }

  lemma DivDiv(a: int, b: int, c: int)
    requires b > 0 && c > 0
    ensures a / b / c == a / (b * c)
  {
    var q, r := a / b, a % b;
    var q2, r2 := q / c, q % c;
    assert a == b * q + r;
    assert q == c * q2 + r2;
    assert b * q == (b * c) * q2 + b * r2 by {
      assert b * (c * q2 + r2) == b * (c * q2) + b * r2;
      assert b * (c * q2) == (b * c) * q2;
    }
    MulLe(b, r2, c - 1);
    assert b * (c - 1) == b * c - b;
    assert 0 <= b * r2;
    DivUnique(a, b * c, q2, b * r2 + r);
  }

  /** `formatRelativeTime(timestamp)` at time `now` (both in milliseconds). */
  function FormatRelativeTime(timestamp: Option<int>, now: int): (r: string)
    ensures timestamp.None? || timestamp == Some(0) ==> r == ""
    ensures timestamp.Some? && timestamp.value != 0 ==>
              var s := (now - timestamp.value) / 1000;
              && (s < Minute ==> r == "just now")
              && (Minute <= s < Hour ==> r == Ago(s / Minute, "minute"))
              && (Hour <= s < Day ==> r == Ago(s / Hour, "hour"))
              && (Day <= s < Month ==> r == Ago(s / Day, "day"))
              && (Month <= s < Year ==> r == Ago(s / Month, "month"))
              && (Year <= s ==> r == Ago(s / Year, "year"))
  {
    if timestamp.None? || timestamp.value == 0 then ""
    else
      var diffInSeconds := (now - timestamp.value) / 1000;
      if diffInSeconds < 60 then "just now"
      else
        var diffInMinutes := diffInSeconds / 60;
        if diffInMinutes < 60 then Ago(diffInMinutes, "minute")
        else
          var diffInHours := diffInMinutes / 60;
          DivDiv(diffInSeconds, 60, 60);
          if diffInHours < 24 then Ago(diffInHours, "hour")
          else
            var diffInDays := diffInHours / 24;
            DivDiv(diffInSeconds, Hour, 24);
            if diffInDays < 30 then Ago(diffInDays, "day")
            else
              var diffInMonths := diffInDays / 30;
              DivDiv(diffInSeconds, Day, 30);
              if diffInMonths < 12 then Ago(diffInMonths, "month")
              else
                DivDiv(diffInSeconds, Month, 12);
                Ago(diffInMonths / 12, "year")
  }

  // ---------------------------------------------------------------------------
  // formatAlbumType

  function LowerChar(c: char): char {
    if 'A' <= c <= 'Z' then (c as int + 32) as char else c
  }

  /** `s.toLowerCase()` on ASCII letters. */
  function ToLower(s: string): (r: string)
    ensures |r| == |s|
    ensures forall i :: 0 <= i < |s| ==> r[i] == LowerChar(s[i])
  {
    if s == [] then "" else [LowerChar(s[0])] + ToLower(s[1..])
  }

  /** The display name of each album type the provider sends. */
  function KnownAlbumType(key: string): Option<string> {
    match key
    case "album" => Some("Album")
    case "single" => Some("Single")
    case "compilation" => Some("Compilation")
    case _ => None
  }

  lemma {:induction false} LowerCaseUnchanged(s: string)
    requires forall i :: 0 <= i < |s| ==> 'a' <= s[i] <= 'z'
    ensures ToLower(s) == s
  {
    if s != [] {
      LowerCaseUnchanged(s[1..]);
    }
  }

  /** What `types[key]` can be in the source: one of its own strings, or a member
      every object literal inherits from `Object.prototype` whose name has no
      upper-case letter. */
  datatype Looked = Text(s: string) | ObjectConstructor | ObjectPrototype

  /** `types[key]` including inherited members; all of them are truthy. */
  function TypesLookup(key: string): Option<Looked> {
    if KnownAlbumType(key).Some? then Some(Text(KnownAlbumType(key).value))
    else if key == "constructor" then Some(ObjectConstructor)
    else if key == "__proto__" then Some(ObjectPrototype)
    else None
  }

  /** `formatAlbumType(albumType)` as written. */
  function FormatAlbumTypeAsWritten(albumType: string): (r: Looked)
    ensures albumType == "" ==> r == Text("")
    ensures KnownAlbumType(ToLower(albumType)).Some? ==> r == Text(KnownAlbumType(ToLower(albumType)).value)
  {
    if albumType == "" then Text("")
    else
      var found := TypesLookup(ToLower(albumType));
      if found.Some? then found.value else Text(albumType)
  }

  /** An album type that lower-cases to "constructor" or "__proto__" is displayed
      as an inherited member of the lookup object instead of a text. */
  lemma InheritedKeysAreNotText(albumType: string)
    requires ToLower(albumType) == "constructor" || ToLower(albumType) == "__proto__"
    ensures !FormatAlbumTypeAsWritten(albumType).Text?
  {
    assert albumType != "";
  }

  /** The album type "constructor" is such a case. */
  lemma AlbumTypeConstructorIsNotText()
    ensures !FormatAlbumTypeAsWritten("constructor").Text?
  {
    LowerCaseUnchanged("constructor");
    InheritedKeysAreNotText("constructor");
  }

  /** `formatAlbumType(albumType)` as intended: the display name of a known type,
      in any letter case, and any other type as given. */
  function FormatAlbumType(albumType: string): (r: string)
    ensures albumType == "" ==> r == ""
    ensures KnownAlbumType(ToLower(albumType)).Some? ==> r == KnownAlbumType(ToLower(albumType)).value
    ensures KnownAlbumType(ToLower(albumType)).None? ==> r == albumType
  {
    if albumType == "" then ""
    else
      var known := KnownAlbumType(ToLower(albumType));
      if known.Some? then known.value else albumType
  }

  /** The intended version differs from the written one only where the written
      one yields something that is not a text. */
  lemma AlbumTypeAgreesOnText(albumType: string)
    ensures FormatAlbumTypeAsWritten(albumType).Text? ==> FormatAlbumTypeAsWritten(albumType).s == FormatAlbumType(albumType)
    ensures FormatAlbumTypeAsWritten(albumType).Text? <==>
              (albumType == "" || (ToLower(albumType) != "constructor" && ToLower(albumType) != "__proto__"))
  {
  }
}
