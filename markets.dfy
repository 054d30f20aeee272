// Kalshi ticker parsing: daily-high and daily-low temperature tickers
// (threshold or bracket) and BTC/ETH price-threshold tickers.

module Markets {
  import opened Prelude
  import opened Text

  /** MONTHS: a three-letter month code to its two-digit number. */
  function MonthNumber(mon: string): (r: Option<string>)
    ensures r.Some? ==> IsMonthNumber(r.value)
  {
    if mon == "JAN" then Some("01") else if mon == "FEB" then Some("02")
    else if mon == "MAR" then Some("03") else if mon == "APR" then Some("04")
    else if mon == "MAY" then Some("05") else if mon == "JUN" then Some("06")
    else if mon == "JUL" then Some("07") else if mon == "AUG" then Some("08")
    else if mon == "SEP" then Some("09") else if mon == "OCT" then Some("10")
    else if mon == "NOV" then Some("11") else if mon == "DEC" then Some("12")
    else None
  }

  predicate IsMonthNumber(s: string)
  {
    s in {"01", "02", "03", "04", "05", "06", "07", "08", "09", "10", "11", "12"}
  }

  /** CITY_MAP: city code of a daily-high ticker to weather station. */
  function CityStation(city: string): Option<string>
  {
    if city == "NY" then Some("KNYC") else if city == "CHI" then Some("KMDW")
    else if city == "MIA" then Some("KMIA") else if city == "DEN" then Some("KDEN")
    else if city == "HOU" then Some("KIAH") else if city == "LA" then Some("KLAX")
    else if city == "ATL" then Some("KATL") else if city == "DFW" then Some("KDFW")
    else if city == "PHX" then Some("KPHX") else if city == "SEA" then Some("KSEA")
    else if city == "BOS" then Some("KBOS") else if city == "MSP" then Some("KMSP")
    else if city == "DCA" then Some("KDCA") else if city == "DTW" then Some("KDTW")
    else if city == "PHL" then Some("KPHL") else if city == "SF" then Some("KSFO")
    else None
  }

  /** LOW_CITY_MAP: city code of a daily-low ticker to weather station. */
  function LowCityStation(city: string): Option<string>
  {
    if city == "NYC" then Some("KNYC") else if city == "CHI" then Some("KMDW")
    else if city == "MIA" then Some("KMIA") else if city == "DEN" then Some("KDEN")
    else if city == "AUS" then Some("KAUS") else if city == "PHIL" then Some("KPHL")
    else None
  }

  datatype TempKind = HighTemp | LowTemp
  datatype Period = Daily | Weekly

  /**
   * The value part of a temperature ticker. A NaN value (parseFloat of a
   * run of dots) is None, and so are the floor and ceiling taken from it.
   */
  datatype WeatherContract =
    | Threshold(threshold: Option<real>)
    | Bracket(bracket: Option<real>, bracketLow: Option<int>, bracketHigh: Option<int>)

  datatype Ticker =
    | Weather(kind: TempKind, city: string, station: Option<string>, date: string, contract: WeatherContract)
    | Crypto(coin: string, period: Period, date: string, threshold: nat)
  {
    /** The `type` field: 'threshold' or 'bracket'. */
    predicate IsThreshold() { Crypto? || contract.Threshold? }
  }

  // ------------------------------------------------------ regular expressions

  function UpperPrefixLen(s: string): (n: nat)
    ensures n <= |s| && AllUpper(s[..n])
    ensures n < |s| ==> !IsUpper(s[n])
  {
    if s == [] || !IsUpper(s[0]) then 0
    else
      var n := 1 + UpperPrefixLen(s[1..]);
      assert s[..n] == [s[0]] + s[1..][..n - 1];
      n
  }

  /** The run of capitals ends exactly at the first non-capital. */
  lemma {:induction false} UpperPrefixLenExact(s: string, n: nat)
    requires n < |s| && AllUpper(s[..n]) && !IsUpper(s[n])
    ensures UpperPrefixLen(s) == n
  {
    if n > 0 {
      assert IsUpper(s[..n][0]);
      assert s[1..][..n - 1] == s[..n][1..];
      UpperPrefixLenExact(s[1..], n - 1);
    }
  }

  predicate AllDigitOrDot(s: string)
  {
    forall i :: 0 <= i < |s| ==> IsDigitOrDot(s[i])
  }

  /** The captures `(\d{2})([A-Z]{3})(\d{2})` of a ticker's date code, e.g. 26FEB09. */
  datatype DateCode = DateCode(yy: string, mon: string, dd: string)

  predicate WellFormedDate(d: DateCode)
  {
    |d.yy| == 2 && AllDigits(d.yy) && |d.mon| == 3 && AllUpper(d.mon) && |d.dd| == 2 && AllDigits(d.dd)
  }

  function DateText(d: DateCode): string
  {
    d.yy + d.mon + d.dd
  }

  /** Matches `-<date code>-` at the start of `s`; returns the code and what follows. */
  function MatchDate(s: string): (r: Option<(DateCode, string)>)
    ensures r.Some? ==> WellFormedDate(r.value.0) && s == "-" + DateText(r.value.0) + "-" + r.value.1
  {
    if |s| >= 9 && s[0] == '-' && AllDigits(s[1..3]) && AllUpper(s[3..6]) && AllDigits(s[6..8]) && s[8] == '-' then
      var d := DateCode(s[1..3], s[3..6], s[6..8]);
      assert s == "-" + DateText(d) + "-" + s[9..];
      Some((d, s[9..]))
    else None
  }

  lemma MatchDateComplete(d: DateCode, rest: string)
    requires WellFormedDate(d)
    ensures MatchDate("-" + DateText(d) + "-" + rest) == Some((d, rest))
  {
    var s := "-" + DateText(d) + "-" + rest;
    assert s[1..3] == d.yy && s[3..6] == d.mon && s[6..8] == d.dd && s[9..] == rest;
  }

  /** The captures of `([A-Z]+)-(\d{2})([A-Z]{3})(\d{2})-(T|B)([\d.]+)$`. */
  datatype WxMatch = WxMatch(city: string, date: DateCode, typeChar: char, valStr: string)

  predicate WellFormedWx(m: WxMatch)
  {
    |m.city| >= 1 && AllUpper(m.city) && WellFormedDate(m.date)
    && (m.typeChar == 'T' || m.typeChar == 'B')
    && |m.valStr| >= 1 && AllDigitOrDot(m.valStr)
  }

  function ComposeWx(m: WxMatch): string
  {
    m.city + ("-" + DateText(m.date) + "-" + ([m.typeChar] + m.valStr))
  }

  /**
   * Matches the part of a temperature ticker after its series prefix. A
   * match is always well formed and reassembles to the input.
   */
  function MatchWeatherTail(tail: string): (r: Option<WxMatch>)
    ensures r.Some? ==> WellFormedWx(r.value) && ComposeWx(r.value) == tail
  {
    var n := UpperPrefixLen(tail);
    var dm := MatchDate(tail[n..]);
    if n >= 1 && dm.Some? && |dm.value.1| >= 2 && (dm.value.1[0] == 'T' || dm.value.1[0] == 'B')
      && AllDigitOrDot(dm.value.1[1..])
    then
      WeatherTailParts(tail, n, dm.value.0, dm.value.1);
      Some(WxMatch(tail[..n], dm.value.0, dm.value.1[0], dm.value.1[1..]))
    else None
  }

  /** The captures of a matched temperature tail reassemble to it. */
  lemma WeatherTailParts(tail: string, n: nat, d: DateCode, rest: string)
    requires 1 <= n <= |tail| && AllUpper(tail[..n])
    requires WellFormedDate(d) && tail[n..] == "-" + DateText(d) + "-" + rest
    requires |rest| >= 2 && (rest[0] == 'T' || rest[0] == 'B') && AllDigitOrDot(rest[1..])
    ensures var m := WxMatch(tail[..n], d, rest[0], rest[1..]);
      WellFormedWx(m) && ComposeWx(m) == tail
  {
    assert rest == [rest[0]] + rest[1..];
    assert tail == tail[..n] + tail[n..];
  }

  /** Every well-formed capture set is matched back: the matcher is complete. */
  lemma MatchWeatherTailComplete(m: WxMatch)
    requires WellFormedWx(m)
    ensures MatchWeatherTail(ComposeWx(m)) == Some(m)
  {
    var s := ComposeWx(m);
    var n := |m.city|;
    var rest := [m.typeChar] + m.valStr;
    assert s[..n] == m.city;
    assert s[n..] == "-" + DateText(m.date) + "-" + rest;
    assert s[n] == '-';
    UpperPrefixLenExact(s, n);
    MatchDateComplete(m.date, rest);
    assert rest[1..] == m.valStr;
  }

  /** The captures of `^KX(BTC|ETH)([DW]?)-(\d{2})([A-Z]{3})(\d{2})-T(\d+)$`. */
  datatype CryptoMatch = CryptoMatch(coin: string, period: string, date: DateCode, valStr: string)

  predicate WellFormedCrypto(m: CryptoMatch)
  {
    (m.coin == "BTC" || m.coin == "ETH") && (m.period == "" || m.period == "D" || m.period == "W")
    && WellFormedDate(m.date) && |m.valStr| >= 1 && AllDigits(m.valStr)
  }

  function ComposeCrypto(m: CryptoMatch): string
  {
    "KX" + m.coin + m.period + ("-" + DateText(m.date) + "-" + ("T" + m.valStr))
  }

  function MatchCrypto(t: string): (r: Option<CryptoMatch>)
    ensures r.Some? ==> WellFormedCrypto(r.value) && ComposeCrypto(r.value) == t
  {
    if |t| >= 5 && t[..2] == "KX" && (t[2..5] == "BTC" || t[2..5] == "ETH") then
      var i := if |t| > 5 && (t[5] == 'D' || t[5] == 'W') then 6 else 5;
      var dm := MatchDate(t[i..]);
      if dm.Some? && |dm.value.1| >= 2 && dm.value.1[0] == 'T' && AllDigits(dm.value.1[1..]) then
        CryptoTickerParts(t, i, dm.value.0, dm.value.1);
        Some(CryptoMatch(t[2..5], t[5..i], dm.value.0, dm.value.1[1..]))
      else None
    else None
  }

  /** The pieces `MatchCrypto` cuts a ticker into are well formed and reassemble to it. */
  lemma CryptoTickerParts(t: string, i: int, d: DateCode, rest: string)
    requires |t| >= i >= 5 && t[..2] == "KX" && (t[2..5] == "BTC" || t[2..5] == "ETH")
    requires i == (if |t| > 5 && (t[5] == 'D' || t[5] == 'W') then 6 else 5)
    requires WellFormedDate(d) && t[i..] == "-" + DateText(d) + "-" + rest
    requires |rest| >= 2 && rest[0] == 'T' && AllDigits(rest[1..])
    ensures var m := CryptoMatch(t[2..5], t[5..i], d, rest[1..]);
      WellFormedCrypto(m) && ComposeCrypto(m) == t
  {
    var m := CryptoMatch(t[2..5], t[5..i], d, rest[1..]);
    assert m.period == "" || m.period == "D" || m.period == "W" by {
      if i == 6 { assert m.period == [t[5]]; }
    }
    assert rest == "T" + m.valStr;
    assert t[..i] == "KX" + m.coin + m.period by {
      assert t[..i] == t[..2] + t[2..5] + t[5..i];
    }
    assert t == t[..i] + t[i..];
  }

  lemma MatchCryptoComplete(m: CryptoMatch)
    requires WellFormedCrypto(m)
    ensures MatchCrypto(ComposeCrypto(m)) == Some(m)
  {
    var s := ComposeCrypto(m);
    var i := 5 + |m.period|;
    var rest := "T" + m.valStr;
    assert s[..2] == "KX" && s[2..5] == m.coin && s[5..i] == m.period;
    assert s[i..] == "-" + DateText(m.date) + "-" + rest;
    MatchDateComplete(m.date, rest);
    assert rest[1..] == m.valStr;
  }

  // ------------------------------------------------------------------ parsing

  /** `20${yy}-${monthNum}-${dd}` */
  function TickerDate(yy: string, monthNum: string, dd: string): string
  {
    "20" + yy + "-" + monthNum + "-" + dd
  }

  function CeilR(x: real): int
  {
    -((-x).Floor)
  }

  /** The temperature contract for a `T` or `B` value string. */
  function WeatherValue(typeChar: char, valStr: string): WeatherContract
    requires |valStr| >= 1 && AllDigitOrDot(valStr)
  {
    var value := ParseDecimal(valStr);
    if typeChar == 'T' then Threshold(value)
    else if value.None? then Bracket(None, None, None)
    else
      var v := value.value;
      Bracket(value, Some(v.Floor), Some(CeilR(v) + (if v == v.Floor as real then 1 else 0)))
  }

  /** `CITY_MAP[city] || null` and, for low tickers, `LOW_CITY_MAP[city]` first. */
  function StationFor(kind: TempKind, city: string): Option<string>
  {
    if kind == LowTemp && LowCityStation(city).Some? then LowCityStation(city)
    else CityStation(city)
  }

  function SeriesPrefix(kind: TempKind): string
  {
    if kind == HighTemp then "KXHIGH" else "KXLOWT"
  }

  function ParseWeather(kind: TempKind, m: WxMatch): (r: Option<Ticker>)
    requires WellFormedWx(m)
    ensures r.Some? ==> r.value.Weather? && r.value.kind == kind
    ensures r.Some? ==> (|r.value.date| == 10 && r.value.date[..2] == "20" && IsMonthNumber(r.value.date[5..7]))
  {
    var monthNum := MonthNumber(m.date.mon);
    if monthNum.None? then None
    else
      assert TickerDate(m.date.yy, monthNum.value, m.date.dd)[5..7] == monthNum.value;
      Some(Weather(kind, m.city, StationFor(kind, m.city), TickerDate(m.date.yy, monthNum.value, m.date.dd), WeatherValue(m.typeChar, m.valStr)))
  }

  function ParseCrypto(m: CryptoMatch): (r: Option<Ticker>)
    requires WellFormedCrypto(m)
    ensures r.Some? ==> r.value.Crypto?
    ensures r.Some? ==> (|r.value.date| == 10 && r.value.date[..2] == "20" && IsMonthNumber(r.value.date[5..7]))
  {
    var monthNum := MonthNumber(m.date.mon);
    if monthNum.None? then None
    else
      var date := TickerDate(m.date.yy, monthNum.value, m.date.dd);
      assert date[5..7] == monthNum.value;
      Some(Crypto(m.coin, if m.period == "W" then Weekly else Daily, date, DigitsValue(m.valStr)))
  }

  /**
   * `parseTicker(ticker)`: a daily-high ticker, else a daily-low ticker,
   * else a crypto ticker, else nothing; an unknown month code rejects the
   * ticker. Every parsed date has the shape 20YY-MM-DD with a month from
   * 01 to 12.
   */
  function ParseTicker(t: string): (r: Option<Ticker>)
    ensures t == [] ==> r.None?
    ensures r.Some? ==> (|r.value.date| == 10 && r.value.date[..2] == "20" && IsMonthNumber(r.value.date[5..7]))
  {
    if t == [] then None
    else if |t| >= 6 && t[..6] == "KXHIGH" && MatchWeatherTail(t[6..]).Some? then
      ParseWeather(HighTemp, MatchWeatherTail(t[6..]).value)
    else if |t| >= 6 && t[..6] == "KXLOWT" && MatchWeatherTail(t[6..]).Some? then
      ParseWeather(LowTemp, MatchWeatherTail(t[6..]).value)
    else if MatchCrypto(t).Some? then
      ParseCrypto(MatchCrypto(t).value)
    else None
  }

  /**
   * Soundness of the parser: whatever it accepts is a series prefix followed
   * by well-formed parts, exactly as the regular expressions demand.
   */
  lemma ParseTickerSound(t: string)
    ensures var r := ParseTicker(t);
      (r.Some? && r.value.Weather? ==>
        exists m :: WellFormedWx(m) && t == SeriesPrefix(r.value.kind) + ComposeWx(m))
      && (r.Some? && r.value.Crypto? ==>
        exists m :: WellFormedCrypto(m) && t == ComposeCrypto(m))
  {
    if t != [] && |t| >= 6 && t[..6] == "KXHIGH" && MatchWeatherTail(t[6..]).Some? {
      WeatherTickerSound(t, HighTemp);
    } else if t != [] && |t| >= 6 && t[..6] == "KXLOWT" && MatchWeatherTail(t[6..]).Some? {
      WeatherTickerSound(t, LowTemp);
    } else if t != [] && MatchCrypto(t).Some? {
      var m := MatchCrypto(t).value;
      assert WellFormedCrypto(m) && t == ComposeCrypto(m);
    }
  }

  /** The captures behind a parsed temperature ticker. */
  lemma WeatherParts(t: string) returns (m: WxMatch)
    requires ParseTicker(t).Some? && ParseTicker(t).value.Weather?
    ensures |t| >= 6 && WellFormedWx(m) && t == t[..6] + ComposeWx(m)
    ensures ParseTicker(t).value.contract == WeatherValue(m.typeChar, m.valStr)
  {
    if |t| >= 6 && t[..6] == "KXHIGH" && MatchWeatherTail(t[6..]).Some? {
      m := MatchWeatherTail(t[6..]).value;
      WeatherTickerSound(t, HighTemp);
    } else if |t| >= 6 && t[..6] == "KXLOWT" && MatchWeatherTail(t[6..]).Some? {
      m := MatchWeatherTail(t[6..]).value;
      WeatherTickerSound(t, LowTemp);
    } else {
      assert false;
    }
  }

  /** The captures behind a parsed crypto ticker. */
  lemma CryptoParts(t: string) returns (m: CryptoMatch)
    requires ParseTicker(t).Some? && ParseTicker(t).value.Crypto?
    ensures WellFormedCrypto(m) && t == ComposeCrypto(m)
    ensures ParseTicker(t).value.threshold == DigitsValue(m.valStr)
  {
    if |t| >= 6 && (t[..6] == "KXHIGH" || t[..6] == "KXLOWT") && MatchWeatherTail(t[6..]).Some? {
      assert false;
    }
    m := MatchCrypto(t).value;
  }

  lemma WeatherTickerSound(t: string, kind: TempKind)
    requires |t| >= 6 && t[..6] == SeriesPrefix(kind) && MatchWeatherTail(t[6..]).Some?
    ensures var m := MatchWeatherTail(t[6..]).value;
      WellFormedWx(m) && t == SeriesPrefix(kind) + ComposeWx(m)
  {
    assert t == t[..6] + t[6..];
  }

  /**
   * The parser inverts ticker construction: a daily-high or daily-low ticker
   * built from well-formed parts with a known month parses back to those
   * parts.
   */
  lemma ParseWeatherTicker(kind: TempKind, m: WxMatch)
    requires WellFormedWx(m) && MonthNumber(m.date.mon).Some?
    ensures ParseTicker(SeriesPrefix(kind) + ComposeWx(m))
         == Some(Weather(kind, m.city, StationFor(kind, m.city), TickerDate(m.date.yy, MonthNumber(m.date.mon).value, m.date.dd), WeatherValue(m.typeChar, m.valStr)))
  {
    var t := SeriesPrefix(kind) + ComposeWx(m);
    assert t[..6] == SeriesPrefix(kind) && t[6..] == ComposeWx(m);
    MatchWeatherTailComplete(m);
  }

  lemma ParseCryptoTicker(m: CryptoMatch)
    requires WellFormedCrypto(m) && MonthNumber(m.date.mon).Some?
    ensures ParseTicker(ComposeCrypto(m))
         == Some(Crypto(m.coin, if m.period == "W" then Weekly else Daily, TickerDate(m.date.yy, MonthNumber(m.date.mon).value, m.date.dd), DigitsValue(m.valStr)))
  {
    var t := ComposeCrypto(m);
    assert t[..6] != "KXHIGH" && t[..6] != "KXLOWT" by {
      assert t[2] == m.coin[0];
    }
    MatchCryptoComplete(m);
  }

  /**
   * Daily-high tickers name their station through CITY_MAP only; daily-low
   * tickers try LOW_CITY_MAP first and fall back to CITY_MAP, so "NYC" is
   * known only to low tickers and "NY" to both; an unmapped city has no
   * station.
   */
  lemma StationLookup()
    ensures StationFor(HighTemp, "HOU") == Some("KIAH") && StationFor(HighTemp, "NYC") == None
    ensures StationFor(LowTemp, "NYC") == Some("KNYC") && StationFor(LowTemp, "NY") == Some("KNYC")
    ensures StationFor(LowTemp, "PHIL") == Some("KPHL") && StationFor(HighTemp, "PHIL") == None
    ensures StationFor(LowTemp, "XYZ") == None
  {
  }

  /** 'FOOBAR' matches none of the three patterns. */
  lemma ExampleGarbage()
    ensures ParseTicker("FOOBAR") == None
  {
    var t := "FOOBAR";
    assert t[..6][0] == 'F';
    assert "KXHIGH"[0] == 'K' && "KXLOWT"[0] == 'K';
    assert t[..6] != "KXHIGH" && t[..6] != "KXLOWT";
    assert t[..2][0] == 'F' && "KX"[0] == 'K';
    assert t[..2] != "KX";
  }

  /** An unknown month abbreviation makes an otherwise well-formed weather ticker unparseable. */
  lemma UnknownMonthWeather(kind: TempKind, m: WxMatch)
    requires WellFormedWx(m) && MonthNumber(m.date.mon).None?
    ensures ParseTicker(SeriesPrefix(kind) + ComposeWx(m)).None?
  {
    var t := SeriesPrefix(kind) + ComposeWx(m);
    assert t[..6] == SeriesPrefix(kind) && t[6..] == ComposeWx(m);
    MatchWeatherTailComplete(m);
  }

  /** The same for a crypto ticker. */
  lemma UnknownMonthCrypto(m: CryptoMatch)
    requires WellFormedCrypto(m) && MonthNumber(m.date.mon).None?
    ensures ParseTicker(ComposeCrypto(m)).None?
  {
    var t := ComposeCrypto(m);
    assert t[..6] != "KXHIGH" && t[..6] != "KXLOWT" by {
      assert t[2] == m.coin[0];
    }
    MatchCryptoComplete(m);
  }

  /** A bracket always spans exactly one degree: bracketHigh = bracketLow + 1. */
  lemma BracketSpansOneDegree(typeChar: char, valStr: string)
    requires |valStr| >= 1 && AllDigitOrDot(valStr)
    ensures var c := WeatherValue(typeChar, valStr);
      c.Bracket? && c.bracket.Some? ==>
        c.bracketLow.Some? && c.bracketHigh.Some? && c.bracketHigh.value == c.bracketLow.value + 1
        && c.bracketLow.value as real <= c.bracket.value < c.bracketHigh.value as real
  {
  }

  /** 'KXHIGHNY-26FEB09-T28' is the New York daily high above 28°F on 2026-02-09. */
  lemma ExampleNewYorkThreshold(t: string)
    requires t == "KXHIGHNY-26FEB09-T28"
    ensures ParseTicker(t) == Some(Weather(HighTemp, "NY", Some("KNYC"), "2026-02-09", Threshold(Some(28.0))))
  {
    var m := WxMatch("NY", DateCode("26", "FEB", "09"), 'T', "28");
    NewYorkTicker(t, m);
    ParseWeatherTicker(HighTemp, m);
    NewYorkThreshold();
  }

  lemma NewYorkTicker(t: string, m: WxMatch)
    requires t == "KXHIGHNY-26FEB09-T28" && m == WxMatch("NY", DateCode("26", "FEB", "09"), 'T', "28")
    ensures WellFormedWx(m) && t == SeriesPrefix(HighTemp) + ComposeWx(m)
    ensures MonthNumber(m.date.mon) == Some("02") && TickerDate(m.date.yy, "02", m.date.dd) == "2026-02-09"
  {
  }

  lemma NewYorkThreshold()
    ensures StationFor(HighTemp, "NY") == Some("KNYC")
    ensures WeatherValue('T', "28") == Threshold(Some(28.0))
  {
    ParseDecimalOfDigits("28");
    assert DigitsValue("28") == 28 by {
      assert "28"[..1] == "2";
    }
  }

  /** 'KXHIGHCHI-26FEB09-B38' is the bracket [38, 39) in Chicago. */
  lemma ExampleIntegerBracket(t: string)
    requires t == "KXHIGHCHI-26FEB09-B38"
    ensures var r := ParseTicker(t);
      r.Some? && r.value.Weather? && r.value.station == Some("KMDW")
      && r.value.contract == Bracket(Some(38.0), Some(38), Some(39))
  {
    var m := WxMatch("CHI", DateCode("26", "FEB", "09"), 'B', "38");
    ChicagoTicker(t, m);
    ParseWeatherTicker(HighTemp, m);
    ChicagoBracket();
  }

  lemma ChicagoTicker(t: string, m: WxMatch)
    requires t == "KXHIGHCHI-26FEB09-B38" && m == WxMatch("CHI", DateCode("26", "FEB", "09"), 'B', "38")
    ensures WellFormedWx(m) && t == SeriesPrefix(HighTemp) + ComposeWx(m) && MonthNumber(m.date.mon).Some?
  {
    assert MonthNumber("FEB") == Some("02");
  }

  lemma ChicagoBracket()
    ensures StationFor(HighTemp, "CHI") == Some("KMDW")
    ensures WeatherValue('B', "38") == Bracket(Some(38.0), Some(38), Some(39))
  {
    ParseDecimalOfDigits("38");
    assert DigitsValue("38") == 38 by {
      assert "38"[..1] == "3";
    }
  }

  /** 'KXBTCD-26FEB09-T100000' is the daily BTC threshold 100000. */
  lemma ExampleBitcoinDaily(t: string)
    requires t == "KXBTCD-26FEB09-T100000"
    ensures ParseTicker(t) == Some(Crypto("BTC", Daily, "2026-02-09", 100000))
  {
    var m := CryptoMatch("BTC", "D", DateCode("26", "FEB", "09"), "100000");
    BitcoinTicker(t, m);
    FebruaryNinth(m.date);
    ParseCryptoTicker(m);
    HundredThousand(m.valStr);
  }

  lemma HundredThousand(s: string)
    requires s == "100000"
    ensures AllDigits(s) && DigitsValue(s) == 100000
  {
    var p1, p2, p3, p4, p5 := s[..1], s[..2], s[..3], s[..4], s[..5];
    assert DigitsValue(p1) == 1 by { assert p1[..0] == []; }
    assert DigitsValue(p2) == 10 by { assert p2[..1] == p1; }
    assert DigitsValue(p3) == 100 by { assert p3[..2] == p2; }
    assert DigitsValue(p4) == 1000 by { assert p4[..3] == p3; }
    assert DigitsValue(p5) == 10000 by { assert p5[..4] == p4; }
    assert s[..5] == p5;
  }

  lemma FebruaryNinth(d: DateCode)
    requires d == DateCode("26", "FEB", "09")
    ensures MonthNumber(d.mon) == Some("02") && TickerDate(d.yy, "02", d.dd) == "2026-02-09"
  {
  }

  lemma BitcoinTicker(t: string, m: CryptoMatch)
    requires t == "KXBTCD-26FEB09-T100000" && m == CryptoMatch("BTC", "D", DateCode("26", "FEB", "09"), "100000")
    ensures WellFormedCrypto(m) && t == ComposeCrypto(m)
  {
    assert DateText(m.date) == "26FEB09";
  }
}
