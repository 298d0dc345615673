/**
 * The `OandaAPI` adapter of the `brokers/oanda` tree: `get_history` picks a
 * fixed calendar window per granularity, and classifies the broker's error
 * message into one of three re-raised exceptions.
 */
module BrokerConnection {
  import opened Wrappers

  /** A naive `datetime` to the minute (every value used is on a whole minute). */
  datatype DateTime = DateTime(year: int, month: int, day: int, hour: int, minute: int)

  /** Chronological order on valid dates is lexicographic order on the fields. */
  predicate Before(a: DateTime, b: DateTime) {
    a.year < b.year
    || (a.year == b.year && (a.month < b.month
    || (a.month == b.month && (a.day < b.day
    || (a.day == b.day && (a.hour < b.hour
    || (a.hour == b.hour && a.minute < b.minute)))))))
  }

  function Date(year: int, month: int, day: int): DateTime {
    DateTime(year, month, day, 0, 0)
  }

  datatype Window = Window(start: DateTime, end: DateTime)

  const HourlyGranularities: seq<string> := ["H1", "H2", "H3", "H4", "H6", "H8", "H12"]

  /** The window requested for a granularity; the count matters only for daily candles. */
  function FixedWindow(granularity: string, count: int): (w: Window)
    ensures Before(w.start, w.end)
    ensures w.end == Date(2025, 10, 18) || w.end == DateTime(2025, 10, 18, 18, 0)
  {
    if granularity == "D" then
      Window(if count <= 20 then Date(2025, 10, 1) else Date(2025, 8, 1), Date(2025, 10, 18))
    else if granularity in HourlyGranularities then
      Window(DateTime(2025, 10, 14, 0, 0), DateTime(2025, 10, 18, 18, 0))
    else if granularity == "W" then
      Window(Date(2025, 8, 1), Date(2025, 10, 18))
    else if granularity == "M" then
      Window(Date(2024, 1, 1), Date(2025, 10, 18))
    else if |granularity| > 0 && granularity[0] == 'M' then
      Window(DateTime(2025, 10, 17, 0, 0), DateTime(2025, 10, 18, 18, 0))
    else
      Window(Date(2025, 10, 1), Date(2025, 10, 18))
  }

  /** Only the daily window depends on the count: up to 20 candles start in October, more in August. */
  lemma CountOnlyMattersForDaily(granularity: string, c1: int, c2: int)
    ensures granularity != "D" ==> FixedWindow(granularity, c1) == FixedWindow(granularity, c2)
    ensures FixedWindow("D", c1).start == if c1 <= 20 then Date(2025, 10, 1) else Date(2025, 8, 1)
  {
  }

  /** Plain "M" (monthly) is matched before the minute branch; "M1", "M5", ... share one window. */
  lemma MonthlyBeforeMinutes(granularity: string, count: int)
    requires |granularity| > 1 && granularity[0] == 'M'
    ensures FixedWindow("M", count) == Window(Date(2024, 1, 1), Date(2025, 10, 18))
    ensures FixedWindow(granularity, count) == Window(DateTime(2025, 10, 17, 0, 0), DateTime(2025, 10, 18, 18, 0))
  {
    assert granularity !in HourlyGranularities by { assert granularity[0] == 'M'; }
  }

  /** The start of every non-daily branch: hourly, weekly, monthly, minute and the default (seconds and the rest). */
  lemma BranchStarts(granularity: string, count: int)
    ensures granularity in HourlyGranularities ==> FixedWindow(granularity, count).start == DateTime(2025, 10, 14, 0, 0)
    ensures granularity == "W" ==> FixedWindow(granularity, count).start == Date(2025, 8, 1)
    ensures granularity == "M" ==> FixedWindow(granularity, count).start == Date(2024, 1, 1)
    ensures |granularity| > 1 && granularity[0] == 'M' ==> FixedWindow(granularity, count).start == DateTime(2025, 10, 17, 0, 0)
    ensures granularity !in HourlyGranularities && granularity !in ["D", "W"] && (|granularity| == 0 || granularity[0] != 'M')
      ==> FixedWindow(granularity, count).start == Date(2025, 10, 1)
  {
    if |granularity| > 1 && granularity[0] == 'M' {
      MonthlyBeforeMinutes(granularity, count);
    }
  }

  function LowerChar(c: char): char {
    if 'A' <= c <= 'Z' then (c as int + 32) as char else c
  }

  /** ASCII `str.lower()`: each character is lowered on its own, and no capital letter is left. */
  function Lower(s: string): (r: string)
    ensures |r| == |s|
    ensures forall i :: 0 <= i < |s| ==> r[i] == LowerChar(s[i])
    ensures forall i :: 0 <= i < |r| ==> !('A' <= r[i] <= 'Z')
  {
    if s == [] then [] else [LowerChar(s[0])] + Lower(s[1..])
  }

  /** `sub` occurs in `s` starting at position `i`. */
  predicate OccursAt(s: string, sub: string, i: nat) {
    i + |sub| <= |s| && s[i..i + |sub|] == sub
  }

  /** `sub in s`: `sub` occurs at some position of `s`. */
  function Contains(s: string, sub: string): (b: bool)
    ensures b <==> exists i: nat :: OccursAt(s, sub, i)
  {
    if |sub| > |s| then false
    else if s[..|sub|] == sub then
      assert OccursAt(s, sub, 0);
      true
    else
      assert !OccursAt(s, sub, 0);
      assert forall i: nat :: 1 <= i ==> OccursAt(s, sub, i) == OccursAt(s[1..], sub, i - 1);
      assert forall j: nat :: OccursAt(s[1..], sub, j) == OccursAt(s, sub, j + 1);
      Contains(s[1..], sub)
  }

  /** The three exceptions `get_history` re-raises, each carrying the original message. */
  datatype HistoryError =
    | AccessDenied(original: string)
    | InvalidRequest(original: string)
    | RetrievalFailed(original: string)
  {
    /** The text of the re-raised exception: a fixed explanation ending in the original message. */
    function Message(): (m: string)
      ensures |original| < |m| && m[|m| - |original|..] == original
    {
      match this
      case AccessDenied(e) =>
        "Historical data access denied. Your OANDA practice account may not have "
        + "historical data permissions. Error: " + e
      case InvalidRequest(e) =>
        "Invalid request parameters for historical data. This may be due to "
        + "requesting data outside available range or invalid instrument. Error: " + e
      case RetrievalFailed(e) =>
        "Error retrieving historical data: " + e
    }
  }

  /** The error classification: "401" or "authorization" first, then "400", else generic. */
  function ClassifyError(message: string): (e: HistoryError)
    ensures e.original == message
    ensures e.AccessDenied? <==> Contains(message, "401") || Contains(Lower(message), "authorization")
    ensures e.InvalidRequest? <==> !e.AccessDenied? && Contains(message, "400")
  {
    if Contains(message, "401") || Contains(Lower(message), "authorization") then AccessDenied(message)
    else if Contains(message, "400") then InvalidRequest(message)
    else RetrievalFailed(message)
  }

  /** A "401" anywhere in the message makes it an access-denied error, whatever else it says. */
  lemma Status401Wins(prefix: string, suffix: string)
    ensures ClassifyError(prefix + "401" + suffix).AccessDenied?
  {
    var m := prefix + "401" + suffix;
    assert OccursAt(m, "401", |prefix|);
  }

  /** "authorization" in any letter case makes it an access-denied error, whatever else it says. */
  lemma AuthorizationWins(prefix: string, word: string, suffix: string)
    requires |word| == 13 && forall i :: 0 <= i < 13 ==> LowerChar(word[i]) == "authorization"[i]
    ensures ClassifyError(prefix + word + suffix).AccessDenied?
  {
    var m := prefix + word + suffix;
    var low := Lower(m);
    forall k | 0 <= k < 13 ensures low[|prefix| + k] == "authorization"[k] {
      assert m[|prefix| + k] == word[k];
    }
    assert low[|prefix|..|prefix| + 13] == "authorization";
    assert OccursAt(Lower(m), "authorization", |prefix|);
  }

  /** `lower()` distributes over concatenation. */
  lemma LowerAppend(s: string, t: string)
    ensures Lower(s + t) == Lower(s) + Lower(t)
  {
    forall i | 0 <= i < |s + t| ensures Lower(s + t)[i] == (Lower(s) + Lower(t))[i] {
      if i < |s| {
        assert (s + t)[i] == s[i];
      } else {
        assert (s + t)[i] == t[i - |s|];
      }
    }
  }

  /** The broker's answer: the candles, or the text of the exception it raised. */
  datatype Candles = Candles(closes: seq<real>)

  /**
   * `get_history`: the request uses the fixed window, and every broker
   * failure is re-raised as one of the three classified exceptions.
   */
  function GetHistory(granularity: string, count: int, answer: Window -> Result<Candles, string>): (r: Result<Candles, HistoryError>)
    ensures var w := FixedWindow(granularity, count);
      (answer(w).Ok? ==> r == Ok(answer(w).value))
      && (answer(w).Err? ==> r == Err(ClassifyError(answer(w).error)))
  {
    var w := FixedWindow(granularity, count);
    match answer(w)
    case Ok(candles) => Ok(candles)
    case Err(message) => Err(ClassifyError(message))
  }
}
