/** The pure parts of the player bar (src/components/PlayerBar.jsx): the clock
    text, the like-state shown for the loaded song, the volume icon, the
    no-song guard, and the like/dislike handlers' guard and error swallowing. */
module PlayerBar {
  import opened Base
  import opened Entities

  // ---------------------------------------------------------------- clock text

  /** What `formatTime` may receive: `undefined`/`null`, `NaN`, or a finite
      number of seconds. */
  datatype TimeValue = Missing | NaN | Num(x: real)

  /** `Math.trunc`. */
  function Trunc(r: real): (t: int)
    ensures r >= 0.0 ==> t == r.Floor
    ensures r < 0.0 ==> t == -((-r).Floor)
  {
    if r >= 0.0 then r.Floor else -((-r).Floor)
  }

  /** JavaScript's `%` on numbers: the sign follows the dividend. */
  function JsRem(x: real, m: real): (r: real)
    requires m != 0.0
    ensures x == m * (Trunc(x / m) as real) + r
    ensures x >= 0.0 && m > 0.0 ==> 0.0 <= r < m
    ensures x < 0.0 && m > 0.0 ==> -m < r <= 0.0
  {
    JsRemBounds(x, m);
    x - m * (Trunc(x / m) as real)
  }

  /** The remainder lies between 0 and the divisor, on the dividend's side. */
  lemma JsRemBounds(x: real, m: real)
    requires m != 0.0
    ensures var r := x - m * (Trunc(x / m) as real);
      && (x >= 0.0 && m > 0.0 ==> 0.0 <= r < m)
      && (x < 0.0 && m > 0.0 ==> -m < r <= 0.0)
  {
    if m > 0.0 {
      assert x / m * m == x;
      RemBoundsOfQuotient(x, m, x / m);
    }
  }

  /** The same, for a quotient `q` given with `q * m == x`. */
  lemma RemBoundsOfQuotient(x: real, m: real, q: real)
    requires m > 0.0 && q * m == x
    ensures var r := x - m * (Trunc(q) as real);
      && (x >= 0.0 ==> 0.0 <= r < m)
      && (x < 0.0 ==> -m < r <= 0.0)
  {
    var t := Trunc(q);
    if x >= 0.0 {
      assert q >= 0.0;
      ScaledFloor(x, m, q, t);
    } else {
      assert q < 0.0;
      var f := (-q).Floor;
      assert (f as real) <= -q < (f as real) + 1.0;
      ScaledCeil(x, m, q, t);
    }
  }

  /** Multiplying `t <= q < t + 1` by a positive `m`. */
  lemma ScaledFloor(x: real, m: real, q: real, t: int)
    requires m > 0.0 && q * m == x && (t as real) <= q < (t as real) + 1.0
    ensures m * (t as real) <= x < m * (t as real) + m
  {
    var tr := t as real;
    var below, above := q - tr, tr + 1.0 - q;
    assert below * m >= 0.0 && below * m == q * m - tr * m;
    assert above * m > 0.0 && above * m == tr * m + m - q * m;
  }

  /** Multiplying `t - 1 < q <= t` by a positive `m`. */
  lemma ScaledCeil(x: real, m: real, q: real, t: int)
    requires m > 0.0 && q * m == x && (t as real) - 1.0 < q <= t as real
    ensures m * (t as real) - m < x <= m * (t as real)
  {
    var tr := t as real;
    var below, above := q - tr + 1.0, tr - q;
    assert below * m > 0.0 && below * m == q * m - tr * m + m;
    assert above * m >= 0.0 && above * m == tr * m - q * m;
    assert tr * m - m < x <= tr * m;
    assert tr * m == m * tr;
  }

  /** `s.padStart(2, "0")`. */
  function PadStart2(s: string): (r: string)
    ensures |s| >= 2 ==> r == s
    ensures |s| < 2 ==> |r| == 2 && r[2 - |s|..] == s && forall k :: 0 <= k < 2 - |s| ==> r[k] == '0'
  {
    if |s| >= 2 then s else if |s| == 1 then "0" + s else "00"
  }

  /** `formatTime`: `mins:ss` with `mins = floor(s / 60)` and
      `ss = floor(s % 60)` padded to two places; `"0:00"` for a falsy input. */
  function FormatTime(v: TimeValue): (r: string)
    ensures v.Missing? || v.NaN? || v == Num(0.0) ==> r == "0:00"
  {
    match v
    case Num(x) =>
      if x == 0.0 then "0:00"
      else IntToString((x / 60.0).Floor) + ":" + PadStart2(IntToString(JsRem(x, 60.0).Floor))
    case _ => "0:00"
  }

  /** A clock text: minute digits, a colon, then exactly two second digits
      reading below 60. */
  predicate IsClock(s: string) {
    && |s| >= 4
    && s[|s| - 3] == ':'
    && AllDigits(s[..|s| - 3])
    && AllDigits(s[|s| - 2..])
    && DigitsValue(s[|s| - 2..]) < 60
  }

  function ClockMinutes(s: string): nat
    requires IsClock(s)
  {
    DigitsValue(s[..|s| - 3])
  }

  /** The number of whole seconds a clock text shows. */
  function ClockSeconds(s: string): nat
    requires IsClock(s)
  {
    60 * ClockMinutes(s) + DigitsValue(s[|s| - 2..])
  }

  /** A seconds value below 60, rendered and padded, is two digits reading
      back as that value. */
  lemma PaddedSeconds(n: nat)
    requires n < 60
    ensures var p := PadStart2(NatToString(n));
      |p| == 2 && AllDigits(p) && DigitsValue(p) == n
  {
    var s := NatToString(n);
    DigitsValueOfNatToString(n);
    var p := PadStart2(s);
    if n < 10 {
      assert p == "0" + s;
      assert p[..1] == "0";
      assert DigitsValue("0") == 0;
    } else {
      assert NatToString(n / 10) == [DigitChar(n / 10)];
      assert |s| == 2;
    }
  }

  /** For a positive input, the minutes and the floored remainder that
      `formatTime` computes are the quotient and remainder of `floor(s)` by 60. */
  lemma ClockParts(x: real)
    requires x > 0.0
    ensures 0 <= (x / 60.0).Floor
    ensures 0 <= JsRem(x, 60.0).Floor < 60
    ensures 60 * (x / 60.0).Floor + JsRem(x, 60.0).Floor == x.Floor
  {
    var m := (x / 60.0).Floor;
    assert (m as real) <= x / 60.0 < (m as real) + 1.0;
    assert Trunc(x / 60.0) == m;
    var rem := JsRem(x, 60.0);
    assert rem == x - 60.0 * (m as real);
    var sec := rem.Floor;
    assert (60 * m + sec) as real <= x < (60 * m + sec) as real + 1.0;
  }

  /** Minutes, a colon and the padded seconds. */
  function ClockText(m: nat, sec: nat): string {
    NatToString(m) + ":" + PadStart2(NatToString(sec))
  }

  /** A clock text with seconds below 60 reads back as its minutes and its
      total. */
  lemma ClockTextReads(m: nat, sec: nat)
    requires sec < 60
    ensures IsClock(ClockText(m, sec))
    ensures ClockMinutes(ClockText(m, sec)) == m
    ensures ClockSeconds(ClockText(m, sec)) == 60 * m + sec
  {
    PaddedSeconds(sec);
    DigitsValueOfNatToString(m);
    var r := ClockText(m, sec);
    var p := PadStart2(NatToString(sec));
    assert r[..|r| - 3] == NatToString(m);
    assert r[|r| - 2..] == p;
  }

  /** For a positive input the text is a clock whose minutes are
      `floor(s / 60)` and whose total is `floor(s)`: the seconds field is two
      characters and below 60. */
  lemma FormatTimePositive(x: real)
    requires x > 0.0
    ensures IsClock(FormatTime(Num(x)))
    ensures ClockMinutes(FormatTime(Num(x))) == (x / 60.0).Floor
    ensures ClockSeconds(FormatTime(Num(x))) == x.Floor
  {
    ClockParts(x);
    var m, sec := (x / 60.0).Floor, JsRem(x, 60.0).Floor;
    assert FormatTime(Num(x)) == ClockText(m, sec);
    ClockTextReads(m, sec);
  }

  /** A whole number of seconds is shown exactly: reading the clock back
      gives the number. */
  lemma FormatTimeWhole(n: nat)
    ensures IsClock(FormatTime(Num(n as real)))
    ensures ClockSeconds(FormatTime(Num(n as real))) == n
  {
    if n == 0 {
      var r := FormatTime(Num(0.0));
      assert r[..1] == "0" && r[2..] == "00";
      assert DigitsValue("0") == 0;
      assert DigitsValue("00") == 0 by {
        assert "00"[..1] == "0";
      }
    } else {
      FormatTimePositive(n as real);
    }
  }

  // ---------------------------------------------------------------- like state

  /** `songInList?.state || currentSong.state || 'none'`: the catalogue's
      state for the loaded song, else the loaded record's own, else `none`. */
  function SongState(catalog: seq<Track>, current: Track): (st: string)
    ensures st != ""
    ensures var inList := FindById(catalog, current.id);
      && (inList.Some? && inList.value.state != "" ==> st == inList.value.state)
      && ((inList.None? || inList.value.state == "") && current.state != "" ==> st == current.state)
      && ((inList.None? || inList.value.state == "") && current.state == "" ==> st == "none")
  {
    var inList := FindById(catalog, current.id);
    if inList.Some? && inList.value.state != "" then inList.value.state
    else if current.state != "" then current.state
    else "none"
  }

  /** When the catalogue's first entry for the loaded song is that very
      record, the shown state is the record's own, or `none`. */
  lemma SongStateOfCatalogued(catalog: seq<Track>, current: Track)
    requires FindById(catalog, current.id) == Some(current)
    ensures SongState(catalog, current) == (if current.state != "" then current.state else "none")
  {
  }

  // ---------------------------------------------------------------- volume icon

  datatype VolumeIcon = Mute | Low | Loud

  function IconFor(volume: real): (icon: VolumeIcon)
    ensures icon == Mute <==> volume == 0.0
    ensures icon == Low <==> volume != 0.0 && volume < 0.5
    ensures icon == Loud <==> volume >= 0.5
  {
    if volume == 0.0 then Mute else if volume < 0.5 then Low else Loud
  }

  function IconRank(icon: VolumeIcon): nat {
    match icon
    case Mute => 0
    case Low => 1
    case Loud => 2
  }

  /** Over the slider's range the icon never drops as the volume rises. */
  lemma IconMonotone(v1: real, v2: real)
    requires 0.0 <= v1 <= v2
    ensures IconRank(IconFor(v1)) <= IconRank(IconFor(v2))
  {
  }

  // ---------------------------------------------------------------- the bar

  /** What the bar shows. Times are the player's tenths of a second, shown as
      seconds. */
  datatype BarView = BarView(
    title: string, artist: string, cover: string, state: string,
    elapsed: string, total: string, icon: VolumeIcon)

  function Seconds(tenths: int): TimeValue {
    Num(tenths as real / 10.0)
  }

  /** The bar renders nothing without a loaded song. */
  function View(current: Option<Track>, catalog: seq<Track>, time: int, duration: int, volume: real)
    : (v: Option<BarView>)
    ensures v.None? <==> current.None?
    ensures v.Some? ==>
      && v.value.state == SongState(catalog, current.value)
      && v.value.elapsed == FormatTime(Seconds(time))
      && v.value.total == FormatTime(Seconds(duration))
      && v.value.icon == IconFor(volume)
  {
    if current.None? then None
    else
      var song := current.value;
      Some(BarView(song.title, song.artist, song.cover, SongState(catalog, song),
        FormatTime(Seconds(time)), FormatTime(Seconds(duration)), IconFor(volume)))
  }

  /** A whole-second position in tenths shows that many seconds. */
  lemma ElapsedWholeSeconds(n: nat)
    ensures IsClock(FormatTime(Seconds(10 * n)))
    ensures ClockSeconds(FormatTime(Seconds(10 * n))) == n
  {
    assert (10 * n) as real / 10.0 == n as real;
    FormatTimeWhole(n);
  }

  // ---------------------------------------------------------------- handlers

  /** How a like or dislike click ends. The handler never throws: a failure of
      the toggle call is logged and dropped. */
  datatype ClickOutcome = Skipped | Toggled(songId: string, liked: seq<string>) | Logged(songId: string, error: string)

  /** `handleToggleLike` / `handleToggleDislike`: without a user nothing is
      called; otherwise the toggle is called for the loaded song and its
      failure is swallowed. `call` is what that call resolved to. */
  function ToggleClick(user: Option<AuthRecord>, current: Track, call: Result<seq<string>>): (o: ClickOutcome)
    ensures o.Skipped? <==> user.None?
    ensures user.Some? && call.Ok? ==> o == Toggled(current.id, call.value)
    ensures user.Some? && call.Err? ==> o == Logged(current.id, call.msg)
  {
    if user.None? then Skipped
    else match call
      case Ok(liked) => Toggled(current.id, liked)
      case Err(e) => Logged(current.id, e)
  }
}
