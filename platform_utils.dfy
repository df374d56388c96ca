/**
 * The platform helpers (`utils/platform_utils.py`): the display name of the
 * platform, the per-platform application data directory, and the
 * duration text `format_duration` builds.
 *
 * The platform string, the home directory and the APPDATA variable are
 * parameters. Durations are exact `real`s: binary floating point is not
 * modelled.
 */
module PlatformUtils {
  import opened Wrappers
  import opened Strings
  import Paths

  // ---------------------------------------------------------------- get_platform_name

  const PLATFORM_NAMES: map<string, string> := map["win32" := "Windows", "darwin" := "macOS", "linux" := "Linux"]

  /** `get_platform_name`: the display name of a known platform string, else "Unknown". */
  function PlatformName(platform: string): (r: string)
    ensures r == "Unknown" <==> platform !in {"win32", "darwin", "linux"}
    ensures platform == "win32" ==> r == "Windows"
    ensures platform == "darwin" ==> r == "macOS"
    ensures platform == "linux" ==> r == "Linux"
  {
    if platform in PLATFORM_NAMES then PLATFORM_NAMES[platform] else "Unknown"
  }

  // ---------------------------------------------------------------- get_app_data_dir

  /** The module-level platform tests: a prefix for Windows and Linux, equality for macOS. */
  predicate IsWindows(platform: string) { StartsWith(platform, "win") }
  predicate IsMac(platform: string) { platform == "darwin" }

  /**
   * `get_app_data_dir`: the directory for `appName` under APPDATA (or
   * ~/AppData/Roaming without it) on Windows, ~/Library/Application Support
   * on macOS, and ~/.local/share everywhere else.
   */
  function AppDataDir(platform: string, home: string, appData: Option<string>, appName: string): (r: string)
    ensures IsWindows(platform) && appData.Some? ==> r == Paths.PathJoin(appData.value, appName)
    ensures IsWindows(platform) && appData.None? ==>
      r == Paths.PathJoin(Paths.PathJoin(Paths.PathJoin(home, "AppData"), "Roaming"), appName)
    ensures IsMac(platform) ==>
      r == Paths.PathJoin(Paths.PathJoin(Paths.PathJoin(home, "Library"), "Application Support"), appName)
    ensures !IsWindows(platform) && !IsMac(platform) ==>
      r == Paths.PathJoin(Paths.PathJoin(Paths.PathJoin(home, ".local"), "share"), appName)
  {
    MacIsNotWindows(platform);
    var base :=
      if IsWindows(platform) then
        (if appData.Some? then appData.value else Paths.PathJoin(Paths.PathJoin(home, "AppData"), "Roaming"))
      else if IsMac(platform) then Paths.PathJoin(Paths.PathJoin(home, "Library"), "Application Support")
      else Paths.PathJoin(Paths.PathJoin(home, ".local"), "share");
    Paths.PathJoin(base, appName)
  }

  /** "darwin" does not start with "win". */
  lemma MacIsNotWindows(platform: string)
    ensures IsMac(platform) ==> !IsWindows(platform)
  {
    if IsMac(platform) {
      assert platform[..3] == "dar";
    }
  }

  /** Joining a relative name keeps the directory as a prefix. */
  lemma JoinKeepsPrefix(a: string, b: string)
    requires !StartsWith(b, "/")
    ensures StartsWith(Paths.PathJoin(a, b), a)
  {
    var r := Paths.PathJoin(a, b);
    assert r[..|a|] == a;
  }

  /** Three relative steps below `home` stay below it and end in the last step. */
  lemma JoinedThreeUnder(home: string, mid: string, leaf: string, appName: string)
    requires mid != "" && mid[0] != '/' && leaf != "" && leaf[0] != '/' && !StartsWith(appName, "/")
    ensures var r := Paths.PathJoin(Paths.PathJoin(Paths.PathJoin(home, mid), leaf), appName);
      StartsWith(r, home) && EndsWith(r, appName)
  {
    var a := Paths.PathJoin(home, mid);
    var b := Paths.PathJoin(a, leaf);
    var r := Paths.PathJoin(b, appName);
    JoinKeepsPrefix(home, mid);
    JoinKeepsPrefix(a, leaf);
    JoinKeepsPrefix(b, appName);
    assert r[..|home|] == b[..|home|] == a[..|home|];
  }

  /**
   * Unless APPDATA is used, the directory lies under the home directory and
   * ends in the application's name (for a relative name); APPDATA matters on
   * Windows only.
   */
  lemma AppDataDirUnderHome(platform: string, home: string, appData: Option<string>, appName: string)
    requires !StartsWith(appName, "/")
    requires !IsWindows(platform) || appData.None?
    ensures var r := AppDataDir(platform, home, appData, appName);
      StartsWith(r, home) && EndsWith(r, appName)
      && r == AppDataDir(platform, home, None, appName)
  {
    if IsWindows(platform) {
      JoinedThreeUnder(home, "AppData", "Roaming", appName);
    } else if IsMac(platform) {
      JoinedThreeUnder(home, "Library", "Application Support", appName);
    } else {
      JoinedThreeUnder(home, ".local", "share", appName);
    }
  }

  // ---------------------------------------------------------------- format_duration

  /** Python's `int(x)` on a number: the integer part, truncated toward zero. */
  function Trunc(x: real): (r: int)
    ensures x >= 0.0 ==> 0 <= r && r as real <= x < r as real + 1.0
    ensures x < 0.0 ==> r <= 0 && r as real - 1.0 < x <= r as real
  {
    if x >= 0.0 then x.Floor else -((-x).Floor)
  }

  /** The `:02d` / `:03d` format: zero-padded to `w` characters, a minus sign counting toward the width. */
  function PadInt(i: int, w: nat): (r: string)
    requires w >= 1
    ensures i >= 0 ==> r == ZeroPad(i, w)
  {
    if i >= 0 then ZeroPad(i, w) else "-" + ZeroPad(-i, w - 1)
  }

  /** `a`, then the character `c`, then `b`. */
  function Joined(a: string, c: char, b: string): (r: string)
    ensures |r| == |a| + 1 + |b|
    ensures r[..|a|] == a && r[|a|] == c && r[|a| + 1..] == b
    ensures EndsWith(r, [c] + b)
  {
    assert (a + [c] + b)[|a|..] == [c] + b;
    a + [c] + b
  }

  /** The text for whole hours, minutes and seconds and a millisecond count. */
  function DurationText(hours: int, minutes: nat, secs: nat, millis: int): (r: string)
  {
    var tail := Joined(ZeroPad(secs, 2), '.', PadInt(millis, 3));
    if hours > 0 then Joined(PadInt(hours, 2), ':', Joined(ZeroPad(minutes, 2), ':', tail))
    else Joined(ZeroPad(minutes, 2), ':', tail)
  }

  /**
   * `format_duration` as written: the seconds are truncated before the
   * millisecond field is computed, and that field is taken from the
   * already-whole seconds, so it is always 0.
   */
  function FormatDurationAsWritten(seconds: real): (r: string)
  {
    var n := Trunc(seconds);
    var hours := n / 3600;
    var remainder := n % 3600;
    var minutes := remainder / 60;
    var secs := remainder % 60;
    DurationText(hours, minutes, secs, Millis(secs as real))
  }

  /** A whole number has no fractional milliseconds. */
  lemma WholeHasNoMillis(k: int)
    ensures Trunc(k as real) == k
    ensures Millis(k as real) == 0
  {
    assert Trunc(0.0) == 0;
  }

  /** As written, only the whole seconds reach the text, with a zero millisecond count. */
  lemma AsWrittenIsWhole(seconds: real)
    ensures var n := Trunc(seconds);
      FormatDurationAsWritten(seconds) == DurationText(n / 3600, (n % 3600) / 60, (n % 3600) % 60, 0)
  {
    var n := Trunc(seconds);
    WholeHasNoMillis((n % 3600) % 60);
  }

  /** The text ends with the millisecond field after a dot. */
  lemma DurationTextEnds(hours: int, minutes: nat, secs: nat, millis: int)
    ensures EndsWith(DurationText(hours, minutes, secs, millis), "." + PadInt(millis, 3))
  {
    var f := PadInt(millis, 3);
    var tail := Joined(ZeroPad(secs, 2), '.', f);
    assert ['.'] + f == "." + f;
    var mid := Joined(ZeroPad(minutes, 2), ':', tail);
    JoinedEndsWithTail(ZeroPad(minutes, 2), ':', tail);
    EndsWithTrans(mid, tail, "." + f);
    if hours > 0 {
      JoinedEndsWithTail(PadInt(hours, 2), ':', mid);
      EndsWithTrans(Joined(PadInt(hours, 2), ':', mid), mid, "." + f);
    }
  }

  lemma JoinedEndsWithTail(a: string, c: char, b: string)
    ensures EndsWith(Joined(a, c, b), b)
  {
  }

  lemma EndsWithTrans(a: string, b: string, c: string)
    requires EndsWith(a, b) && EndsWith(b, c)
    ensures EndsWith(a, c)
  {
    assert a[|a| - |c|..] == b[|b| - |c|..];
  }

  /** The as-written millisecond field is "000" for every input. */
  lemma AsWrittenDropsMilliseconds(seconds: real)
    ensures EndsWith(FormatDurationAsWritten(seconds), ".000")
  {
    var n := Trunc(seconds);
    AsWrittenIsWhole(seconds);
    DurationTextEnds(n / 3600, (n % 3600) / 60, (n % 3600) % 60, 0);
    ZeroField();
  }

  lemma ZeroField()
    ensures "." + PadInt(0, 3) == ".000"
  {
    assert NatToString(0) == "0";
    assert Repeat('0', 2) == "00";
  }

  /** As written, a duration reads the same as its whole seconds. */
  lemma AsWrittenIgnoresFraction(seconds: real)
    ensures FormatDurationAsWritten(seconds) == FormatDurationAsWritten(Trunc(seconds) as real)
  {
    var n := Trunc(seconds);
    AsWrittenIsWhole(seconds);
    AsWrittenIsWhole(n as real);
    WholeHasNoMillis(n);
  }

  /** One and a half seconds show no milliseconds as written. */
  lemma AsWrittenOneAndAHalf()
    ensures FormatDurationAsWritten(1.5) == "00:01.000"
  {
    assert Trunc(1.5) == 1;
    assert 1 / 3600 == 0 && 1 % 3600 == 1 && 1 / 60 == 0 && 1 % 60 == 1;
    assert Millis(1 as real) == 0 by {
      assert Trunc(1.0) == 1;
      assert Trunc(0.0) == 0;
    }
    assert FormatDurationAsWritten(1.5) == DurationText(0, 0, 1, 0);
    OneSecondText();
  }

  /** Zero hours, zero minutes, one second and no milliseconds read "00:01.000". */
  lemma OneSecondText()
    ensures DurationText(0, 0, 1, 0) == "00:01.000"
  {
    SmallPads();
    var tail := Joined("01", '.', "000");
    assert tail == "01.000";
    assert DurationText(0, 0, 1, 0) == Joined("00", ':', tail);
    assert Joined("00", ':', tail) == "00:01.000";
  }

  /** The padded texts of zero and one. */
  lemma SmallPads()
    ensures ZeroPad(0, 2) == "00" && ZeroPad(1, 2) == "01" && PadInt(0, 3) == "000"
  {
    assert NatToString(0) == "0" && NatToString(1) == "1";
    ZeroPadParts(0, 2);
    ZeroPadParts(1, 2);
    ZeroPadParts(0, 3);
    assert Repeat('0', 1) == "0" && Repeat('0', 2) == "00";
  }

  /** The padded text of 500. */
  lemma FiveHundredPad()
    ensures PadInt(500, 3) == "500"
  {
    assert NatToString(5) == "5";
    assert NatToString(50) == "50";
    assert NatToString(500) == "500";
    ZeroPadParts(500, 3);
  }

  /** The milliseconds of a duration: the first three decimals of its fractional part. */
  function Millis(seconds: real): (r: int)
    ensures seconds >= 0.0 ==> 0 <= r < 1000
    ensures seconds < 0.0 ==> -1000 < r <= 0
  {
    Trunc((seconds - Trunc(seconds) as real) * 1000.0)
  }

  /** `format_duration` corrected: the millisecond field comes from the input's fractional part. */
  function FormatDuration(seconds: real): (r: string)
  {
    var n := Trunc(seconds);
    DurationText(n / 3600, (n % 3600) / 60, (n % 3600) % 60, Millis(seconds))
  }

  /** Zeros followed by digits are digits. */
  lemma ZerosThenDigits(k: nat, d: string)
    requires forall i :: 0 <= i < |d| ==> '0' <= d[i] <= '9'
    ensures forall i :: 0 <= i < |Repeat('0', k) + d| ==> '0' <= (Repeat('0', k) + d)[i] <= '9'
  {
  }

  /** Leading zeros do not change a decimal value. */
  lemma {:induction false} DecimalValueLeadingZeros(k: nat, d: string)
    requires forall i :: 0 <= i < |d| ==> '0' <= d[i] <= '9'
    ensures forall i :: 0 <= i < |Repeat('0', k) + d| ==> '0' <= (Repeat('0', k) + d)[i] <= '9'
    ensures DecimalValue(Repeat('0', k) + d) == DecimalValue(d)
  {
    ZerosThenDigits(k, d);
    if |d| == 0 {
      ZerosValue(k);
      assert Repeat('0', k) + d == Repeat('0', k);
    } else {
      var init, last := d[..|d| - 1], d[|d| - 1];
      DecimalValueLeadingZeros(k, init);
      assert d == init + [last];
      assert Repeat('0', k) + d == (Repeat('0', k) + init) + [last];
      DecimalValueSnoc(Repeat('0', k) + init, last);
      DecimalValueSnoc(init, last);
    }
  }

  /** Any number of zeros denotes 0. */
  lemma {:induction false} ZerosValue(k: nat)
    ensures DecimalValue(Repeat('0', k)) == 0
  {
    if k > 0 {
      ZerosValue(k - 1);
      assert Repeat('0', k) == Repeat('0', k - 1) + ['0'];
      DecimalValueSnoc(Repeat('0', k - 1), '0');
    }
  }

  /** One more digit at the end: ten times the value, plus that digit. */
  lemma DecimalValueSnoc(t: string, c: char)
    requires forall i :: 0 <= i < |t| ==> '0' <= t[i] <= '9'
    requires '0' <= c <= '9'
    ensures forall i :: 0 <= i < |t + [c]| ==> '0' <= (t + [c])[i] <= '9'
    ensures DecimalValue(t + [c]) == 10 * DecimalValue(t) + DigitValue(c)
  {
    assert (t + [c])[..|t|] == t;
  }

  /** A zero-padded number reads back as that number. */
  lemma ZeroPadValue(n: nat, w: nat)
    ensures forall i :: 0 <= i < |ZeroPad(n, w)| ==> '0' <= ZeroPad(n, w)[i] <= '9'
    ensures DecimalValue(ZeroPad(n, w)) == n
  {
    var k := ZeroPadPadded(n, w);
    ValueOfPadded(ZeroPad(n, w), k, NatToString(n));
    DecimalValueOfNatToString(n);
  }

  /** A text that is zeros before digits is digits, and has their value. */
  lemma ValueOfPadded(z: string, k: nat, d: string)
    requires forall i :: 0 <= i < |d| ==> '0' <= d[i] <= '9'
    requires z == Repeat('0', k) + d
    ensures forall i :: 0 <= i < |z| ==> '0' <= z[i] <= '9'
    ensures DecimalValue(z) == DecimalValue(d)
  {
    DecimalValueLeadingZeros(k, d);
  }

  /** Both cases of ZeroPad at once: the text behind as many zeros as the width lacks. */
  lemma ZeroPadPadded(n: nat, w: nat) returns (k: nat)
    ensures ZeroPad(n, w) == Repeat('0', k) + NatToString(n)
  {
    var d := NatToString(n);
    ZeroPadParts(n, w);
    if |d| >= w {
      k := 0;
      assert Repeat('0', 0) + d == d;
    } else {
      k := w - |d|;
    }
  }

  /** A zero-padded number is its decimal text behind the zeros that fill the width. */
  lemma ZeroPadParts(n: nat, w: nat)
    ensures |NatToString(n)| < w ==> ZeroPad(n, w) == Repeat('0', w - |NatToString(n)|) + NatToString(n)
    ensures |NatToString(n)| >= w ==> ZeroPad(n, w) == NatToString(n)
  {
  }

  /** A small number zero-padded to its width has exactly that width. */
  lemma ZeroPadWidth(n: nat, w: nat)
    requires 1 <= w && n < Pow10(w)
    ensures |ZeroPad(n, w)| == w
  {
    ShortDecimal(n, w);
  }

  lemma {:induction false} ShortDecimal(n: nat, w: nat)
    requires 1 <= w && n < Pow10(w)
    ensures |NatToString(n)| <= w
  {
    if n >= 10 {
      ShortDecimal(n / 10, w - 1);
    }
  }

  /** The digits of one zero-padded field and the number they denote. */
  predicate Field(s: string, w: nat, value: nat) {
    |s| == w && (forall i :: 0 <= i < |s| ==> '0' <= s[i] <= '9') && DecimalValue(s) == value
  }

  lemma PaddedField(n: nat, w: nat)
    requires 1 <= w && n < Pow10(w)
    ensures Field(ZeroPad(n, w), w, n)
  {
    ZeroPadWidth(n, w);
    ZeroPadValue(n, w);
  }

  /** `r` is `MM:SS.mmm` with these field values. */
  predicate ShortForm(r: string, minutes: nat, secs: nat, millis: nat) {
    |r| == 9 && r[2] == ':' && r[5] == '.'
    && Field(r[..2], 2, minutes) && Field(r[3..5], 2, secs) && Field(r[6..], 3, millis)
  }

  /** `r` is `HH:MM:SS.mmm`, the hours in two or more digits, with these field values. */
  predicate LongForm(r: string, hours: nat, minutes: nat, secs: nat, millis: nat) {
    var h := |r| - 10;
    h >= 2 && r[h] == ':' && r[h + 3] == ':' && r[h + 6] == '.'
    && (forall i :: 0 <= i < h ==> '0' <= r[i] <= '9')
    && DecimalValue(r[..h]) == hours
    && Field(r[h + 1..h + 3], 2, minutes) && Field(r[h + 4..h + 6], 2, secs) && Field(r[h + 7..], 3, millis)
  }

  /** `MM:SS.mmm` for two-digit minutes and seconds: the fields read back. */
  lemma DurationTextShort(minutes: nat, secs: nat, millis: nat)
    requires minutes < 100 && secs < 100 && millis < 1000
    ensures ShortForm(DurationText(0, minutes, secs, millis), minutes, secs, millis)
  {
    var mm, ss, fff := ZeroPad(minutes, 2), ZeroPad(secs, 2), ZeroPad(millis, 3);
    ZeroPadWidth(minutes, 2);
    ZeroPadWidth(secs, 2);
    ZeroPadWidth(millis, 3);
    var tail := Joined(ss, '.', fff);
    var r := Joined(mm, ':', tail);
    assert r == DurationText(0, minutes, secs, millis);
    SliceOfSlice(r, 3, 2);
    SliceOfSlice(r, 3, 3);
    assert r[..2] == mm && r[3..5] == ss && r[6..] == fff;
    PaddedField(minutes, 2);
    PaddedField(secs, 2);
    PaddedField(millis, 3);
  }

  lemma SliceOfSlice(r: string, i: nat, k: nat)
    requires i + k <= |r|
    ensures r[i..][..k] == r[i..i + k] && r[i..][k..] == r[i + k..]
  {
  }

  /** The hours field: two or more digits that read back as the hours. */
  lemma HoursField(hours: nat)
    ensures |ZeroPad(hours, 2)| >= 2 && Field(ZeroPad(hours, 2), |ZeroPad(hours, 2)|, hours)
  {
    ZeroPadValue(hours, 2);
  }

  /** Where the pieces of `HH:MM:SS.mmm` sit, for any hours text. */
  lemma LongLayout(hh: string, mm: string, ss: string, fff: string)
    requires |mm| == 2 && |ss| == 2 && |fff| == 3
    ensures var r := Joined(hh, ':', Joined(mm, ':', Joined(ss, '.', fff)));
      var h := |hh|;
      |r| == h + 10 && r[..h] == hh && r[h] == ':' && r[h + 1..h + 3] == mm && r[h + 3] == ':'
      && r[h + 4..h + 6] == ss && r[h + 6] == '.' && r[h + 7..] == fff
  {
    var tail := Joined(ss, '.', fff);
    var mid := Joined(mm, ':', tail);
    var r := Joined(hh, ':', mid);
    var h := |hh|;
    SliceOfSlice(r, h + 1, 2);
    SliceOfSlice(r, h + 1, 3);
    SliceOfSlice(mid, 3, 2);
    SliceOfSlice(mid, 3, 3);
    assert r[h + 1..] == mid;
    assert r[h + 4..] == tail;
    SliceOfSlice(r, h + 4, 2);
    SliceOfSlice(r, h + 4, 3);
  }

  /** `HH:MM:SS.mmm` for positive hours: the fields read back, the hours in at least two digits. */
  lemma DurationTextLong(hours: nat, minutes: nat, secs: nat, millis: nat)
    requires hours >= 1 && minutes < 100 && secs < 100 && millis < 1000
    ensures LongForm(DurationText(hours, minutes, secs, millis), hours, minutes, secs, millis)
  {
    DurationTextPieces(hours, minutes, secs, millis);
    LongFormOfPadded(DurationText(hours, minutes, secs, millis), hours, minutes, secs, millis);
  }

  /** The four zero-padded fields, joined, are the long form of their values. */
  lemma LongFormOfPadded(r: string, hours: nat, minutes: nat, secs: nat, millis: nat)
    requires minutes < 100 && secs < 100 && millis < 1000
    requires r == Joined(ZeroPad(hours, 2), ':', Joined(ZeroPad(minutes, 2), ':', Joined(ZeroPad(secs, 2), '.', ZeroPad(millis, 3))))
    ensures LongForm(r, hours, minutes, secs, millis)
  {
    HoursField(hours);
    PaddedFields(minutes, secs, millis);
    LongFormOfFields(r, ZeroPad(hours, 2), ZeroPad(minutes, 2), ZeroPad(secs, 2), ZeroPad(millis, 3), hours, minutes, secs, millis);
  }

  /** With positive hours, the text is the four zero-padded fields joined by ':', ':' and '.'. */
  lemma DurationTextPieces(hours: nat, minutes: nat, secs: nat, millis: nat)
    requires hours >= 1
    ensures DurationText(hours, minutes, secs, millis)
      == Joined(ZeroPad(hours, 2), ':', Joined(ZeroPad(minutes, 2), ':', Joined(ZeroPad(secs, 2), '.', ZeroPad(millis, 3))))
  {
  }

  /** The minutes, seconds and milliseconds fields read back. */
  lemma PaddedFields(minutes: nat, secs: nat, millis: nat)
    requires minutes < 100 && secs < 100 && millis < 1000
    ensures Field(ZeroPad(minutes, 2), 2, minutes) && Field(ZeroPad(secs, 2), 2, secs) && Field(ZeroPad(millis, 3), 3, millis)
  {
    PaddedField(minutes, 2);
    PaddedField(secs, 2);
    PaddedField(millis, 3);
  }

  /** Fields that read back as the four values give the long form, whatever the hours text's width. */
  lemma LongFormOfFields(r: string, hh: string, mm: string, ss: string, fff: string, hours: nat, minutes: nat, secs: nat, millis: nat)
    requires r == Joined(hh, ':', Joined(mm, ':', Joined(ss, '.', fff)))
    requires |hh| >= 2 && Field(hh, |hh|, hours)
    requires Field(mm, 2, minutes) && Field(ss, 2, secs) && Field(fff, 3, millis)
    ensures LongForm(r, hours, minutes, secs, millis)
  {
    LongLayout(hh, mm, ss, fff);
    var h := |r| - 10;
    assert h == |hh| && r[..h] == hh;
    forall i | 0 <= i < h
      ensures '0' <= r[i] <= '9'
    {
      assert r[i] == r[..h][i];
    }
    assert Field(r[h + 1..h + 3], 2, minutes);
    assert Field(r[h + 4..h + 6], 2, secs);
    assert Field(r[h + 7..], 3, millis);
  }

  /**
   * Under an hour, the corrected text is `MM:SS.mmm` whose fields read back
   * as the whole minutes, the seconds within the minute and the milliseconds.
   */
  lemma FormatDurationShort(seconds: real)
    requires 0.0 <= seconds < 3600.0
    ensures ShortForm(FormatDuration(seconds), Trunc(seconds) / 60, Trunc(seconds) % 60, Millis(seconds))
  {
    var n := Trunc(seconds);
    assert n / 3600 == 0 && n % 3600 == n;
    DurationTextShort(n / 60, n % 60, Millis(seconds));
  }

  /**
   * From an hour on, the corrected text is `HH:MM:SS.mmm` (the hours at
   * least two digits) whose fields read back as hours, minutes, seconds and
   * milliseconds.
   */
  lemma FormatDurationLong(seconds: real)
    requires seconds >= 3600.0
    ensures var n := Trunc(seconds);
      LongForm(FormatDuration(seconds), n / 3600, (n % 3600) / 60, (n % 3600) % 60, Millis(seconds))
  {
    var n := Trunc(seconds);
    assert n / 3600 >= 1;
    DurationTextLong(n / 3600, (n % 3600) / 60, (n % 3600) % 60, Millis(seconds));
  }

  /** One and a half seconds show their 500 milliseconds once corrected. */
  lemma CorrectedOneAndAHalf()
    ensures FormatDuration(1.5) == "00:01.500"
  {
    assert Trunc(1.5) == 1;
    assert Millis(1.5) == 500 by {
      assert (1.5 - 1.0) * 1000.0 == 500.0;
      assert Trunc(500.0) == 500;
    }
    assert 1 / 3600 == 0 && 1 % 3600 == 1 && 1 / 60 == 0 && 1 % 60 == 1;
    assert FormatDuration(1.5) == DurationText(0, 0, 1, 500);
    OneAndAHalfText();
  }

  /** Zero hours, zero minutes, one second and 500 milliseconds read "00:01.500". */
  lemma OneAndAHalfText()
    ensures DurationText(0, 0, 1, 500) == "00:01.500"
  {
    SmallPads();
    FiveHundredPad();
    HalfSecondJoined();
  }

  /** The fields of one and a half seconds joined by their separators. */
  lemma HalfSecondJoined()
    ensures Joined("00", ':', Joined("01", '.', "500")) == "00:01.500"
  {
    var tail := Joined("01", '.', "500");
    assert tail == "01.500";
  }

  /** For a whole number of seconds the two versions agree. */
  lemma AgreeOnWholeSeconds(n: nat)
    ensures FormatDuration(n as real) == FormatDurationAsWritten(n as real)
  {
    AsWrittenIsWhole(n as real);
    WholeHasNoMillis(n);
  }
}
