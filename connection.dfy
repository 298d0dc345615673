/**
 * The `OandaAPI` adapter of the `src` tree: the date window `get_history`
 * asks the broker for, and the `get_account_info` dispatch over an account
 * summary.  The clock is a parameter: `now` is a naive local timestamp in
 * seconds since 1970-01-01 00:00, a Thursday.
 */
module Connection {
  import opened Wrappers

  const Minute := 60
  const Hour := 3600
  const Day := 86400

  /** `datetime.weekday()`: Monday is 0 and Sunday is 6. */
  function Weekday(t: int): (d: int)
    ensures 0 <= d < 7
  {
    (t / Day + 3) % 7
  }

  /** Moving a timestamp back by whole days moves its weekday back by as many days. */
  lemma WeekdayBack(t: int, k: int)
    ensures Weekday(t - k * Day) == (Weekday(t) - k) % 7
  {
    assert (t - k * Day) / Day == t / Day - k by {
      var q := t / Day;
      var r := t % Day;
      assert t - k * Day == (q - k) * Day + r;
    }
  }

  /**
   * The end of the window: on Saturday it is moved back one day and on
   * Sunday two, to Friday.
   */
  function HistoryEnd(now: int): (e: int)
    ensures Weekday(now) < 5 ==> e == now
    ensures Weekday(now) == 5 ==> e == now - Day
    ensures Weekday(now) == 6 ==> e == now - 2 * Day
    ensures Weekday(now) >= 5 ==> Weekday(e) == 4 && now - 2 * Day <= e < now
  {
    var wd := Weekday(now);
    if wd >= 5 then
      var e := now - (wd - 4) * Day;
      WeekdayBack(now, wd - 4);
      e
    else now
  }

  predicate IsDigit(c: char) {
    '0' <= c <= '9'
  }

  predicate AllDigits(s: string) {
    forall i :: 0 <= i < |s| ==> IsDigit(s[i])
  }

  function DigitsValue(s: string): nat
    requires AllDigits(s)
  {
    if s == [] then 0 else DigitsValue(s[..|s| - 1]) * 10 + (s[|s| - 1] as int - '0' as int)
  }

  /**
   * Python's `int(s)` on a base-10 literal: an optional sign followed by at
   * least one ASCII digit; anything else raises ValueError.
   */
  function ParseInt(s: string): (r: Result<int, string>)
    ensures r.Err? <==> var d := if |s| > 0 && (s[0] == '+' || s[0] == '-') then s[1..] else s; d == [] || !AllDigits(d)
    ensures r.Ok? && (|s| == 0 || s[0] != '-') ==> r.value >= 0
    ensures r.Ok? && |s| > 0 && s[0] == '-' ==> r.value <= 0
  {
    var negative := |s| > 0 && s[0] == '-';
    var digits := if |s| > 0 && (s[0] == '+' || s[0] == '-') then s[1..] else s;
    if digits == [] || !AllDigits(digits) then
      Err("invalid literal for int() with base 10: '" + s + "'")
    else if negative then Ok(-(DigitsValue(digits) as int))
    else Ok(DigitsValue(digits))
  }

  /** The decimal spelling of a natural number, as `str(n)` writes it. */
  function Decimal(n: nat): (s: string)
    ensures |s| > 0 && AllDigits(s) && s[0] != '-'
  {
    var d := [(n % 10 + '0' as int) as char];
    if n < 10 then d else Decimal(n / 10) + d
  }

  lemma {:induction false} DecimalRoundTrip(n: nat)
    ensures DigitsValue(Decimal(n)) == n
  {
    var s := Decimal(n);
    if n >= 10 {
      DecimalRoundTrip(n / 10);
      assert s[..|s| - 1] == Decimal(n / 10);
    }
  }

  /** `int(str(n)) == n`. */
  lemma ParseDecimal(n: nat)
    ensures ParseInt(Decimal(n)) == Ok(n)
  {
    DecimalRoundTrip(n);
  }

  datatype Window = Window(start: int, end: int)

  const HourlyGranularities: seq<string> := ["H1", "H2", "H3", "H4", "H6", "H8", "H12"]

  /**
   * The window `get_history` passes to the broker, or the ValueError that
   * `int()` raises on a minute or second granularity without a number.
   */
  function HistoryWindow(granularity: string, count: int, now: int): (r: Result<Window, string>)
    ensures r.Ok? ==> r.value.end == HistoryEnd(now)
    ensures r.Err? <==> granularity != "D" && granularity !in HourlyGranularities
                        && |granularity| > 0 && (granularity[0] == 'M' || granularity[0] == 'S')
                        && ParseInt(granularity[1..]).Err?
  {
    var end := HistoryEnd(now);
    if granularity == "D" then
      Ok(Window(end - count * 2 * Day, end))
    else if granularity in HourlyGranularities then
      var hours := if |granularity| > 2 then ParseInt(granularity[1..]) else Ok(1);
      assert granularity == "H12" || |granularity| <= 2;
      if hours.Ok? then Ok(Window(end - count * hours.value * 2 * Hour, end))
      else assert false; Err("")
    else if |granularity| > 0 && granularity[0] == 'M' then
      var minutes := ParseInt(granularity[1..]);
      if minutes.Err? then Err(minutes.error)
      else Ok(Window(end - count * minutes.value * Minute, end))
    else if |granularity| > 0 && granularity[0] == 'S' then
      var seconds := ParseInt(granularity[1..]);
      if seconds.Err? then Err(seconds.error)
      else Ok(Window(end - count * seconds.value, end))
    else
      Ok(Window(end - count * 2 * Day, end))
  }

  /** Daily candles, and every granularity no branch matches (such as "W"), get `count * 2` days. */
  lemma DailyWindow(granularity: string, count: int, now: int)
    requires granularity == "D" || (granularity !in HourlyGranularities
                                    && (|granularity| == 0 || (granularity[0] != 'M' && granularity[0] != 'S')))
    ensures HistoryWindow(granularity, count, now) == Ok(Window(HistoryEnd(now) - count * 2 * Day, HistoryEnd(now)))
  {
  }

  /**
   * The hour count is parsed only from three-character names, so H1 to H8
   * all count as one hour and only H12 as twelve.
   */
  lemma HourlyWindow(granularity: string, count: int, now: int)
    requires granularity in HourlyGranularities
    ensures var hours := if granularity == "H12" then 12 else 1;
      HistoryWindow(granularity, count, now) == Ok(Window(HistoryEnd(now) - count * hours * 2 * Hour, HistoryEnd(now)))
  {
    if granularity == "H12" {
      assert granularity[1..] == Decimal(12);
      ParseDecimal(12);
    }
  }

  /** "M<n>" spans `count * n` minutes. */
  lemma MinuteWindow(n: nat, count: int, now: int)
    ensures HistoryWindow("M" + Decimal(n), count, now) == Ok(Window(HistoryEnd(now) - count * n * Minute, HistoryEnd(now)))
  {
    var g := "M" + Decimal(n);
    assert g[1..] == Decimal(n);
    ParseDecimal(n);
    assert g !in HourlyGranularities by { assert g[0] == 'M'; }
  }

  /** "S<n>" spans `count * n` seconds. */
  lemma SecondWindow(n: nat, count: int, now: int)
    ensures HistoryWindow("S" + Decimal(n), count, now) == Ok(Window(HistoryEnd(now) - count * n, HistoryEnd(now)))
  {
    var g := "S" + Decimal(n);
    assert g[1..] == Decimal(n);
    ParseDecimal(n);
    assert g !in HourlyGranularities by { assert g[0] == 'S'; }
  }

  /** Monthly "M" reaches the minute branch and `int('')` raises. */
  lemma PlainMonthFails(count: int, now: int)
    ensures HistoryWindow("M", count, now).Err?
  {
  }

  lemma NonNegativeProduct(a: int, b: int, c: int)
    requires a >= 0 && b >= 0 && c >= 0
    ensures a * b * c >= 0
  {
  }

  /** With a non-negative count and no minus sign in the granularity, the window is never reversed. */
  lemma StartNotAfterEnd(granularity: string, count: int, now: int)
    requires count >= 0
    requires forall i :: 0 <= i < |granularity| ==> granularity[i] != '-'
    requires HistoryWindow(granularity, count, now).Ok?
    ensures HistoryWindow(granularity, count, now).value.start <= HistoryWindow(granularity, count, now).value.end
  {
    var w := HistoryWindow(granularity, count, now).value;
    if granularity == "D" {
    } else if granularity in HourlyGranularities {
      HourlyWindow(granularity, count, now);
      NonNegativeProduct(count, if granularity == "H12" then 12 else 1, 2 * Hour);
    } else if |granularity| > 0 && (granularity[0] == 'M' || granularity[0] == 'S') {
      var n := ParseInt(granularity[1..]).value;
      assert |granularity[1..]| == 0 || granularity[1..][0] != '-' by {
        if |granularity[1..]| > 0 { assert granularity[1..][0] == granularity[1]; }
      }
      NonNegativeProduct(count, n, if granularity[0] == 'M' then Minute else 1);
    }
  }

  /** What `get_account_info` returns: one summary field, or the whole summary. */
  datatype AccountInfo = Field(value: string) | Whole(summary: map<string, string>)

  /**
   * `get_account_info`: "balance" and "account_id" read required summary
   * keys (a missing one raises KeyError, `Err` carrying the key);
   * "account_type" falls back to the configured environment; any other
   * request returns the whole summary.
   */
  function GetAccountInfo(summary: map<string, string>, infoType: string, environment: string): (r: Result<AccountInfo, string>)
    ensures infoType == "balance" ==> r == if "balance" in summary then Ok(Field(summary["balance"])) else Err("balance")
    ensures infoType == "account_id" ==> r == if "id" in summary then Ok(Field(summary["id"])) else Err("id")
    ensures infoType == "account_type" ==> r.Ok? && r.value.Field?
    ensures infoType == "account_type" && "account_type" in summary ==> r == Ok(Field(summary["account_type"]))
    ensures infoType == "account_type" && "account_type" !in summary ==> r == Ok(Field(environment))
    ensures infoType !in {"balance", "account_type", "account_id"} ==> r == Ok(Whole(summary))
    ensures r.Ok? && r.value.Whole? <==> infoType !in {"balance", "account_type", "account_id"}
  {
    if infoType == "balance" then
      if "balance" in summary then Ok(Field(summary["balance"])) else Err("balance")
    else if infoType == "account_type" then
      Ok(Field(if "account_type" in summary then summary["account_type"] else environment))
    else if infoType == "account_id" then
      if "id" in summary then Ok(Field(summary["id"])) else Err("id")
    else
      Ok(Whole(summary))
  }
}
