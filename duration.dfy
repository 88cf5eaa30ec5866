/**
 * `format_duration` (app_tracker.py and mac_app_tracker.py carry the same
 * definition): seconds written as `H:M:S`, minutes and seconds unpadded,
 * hours unbounded.
 */
module Duration {
  import opened Wrappers
  import opened Text

  datatype Hms = Hms(h: int, m: int, s: int)

  /**
   * The two `divmod(_, 60)` steps. Python's `divmod` floors, and for the
   * positive divisor 60 that is Dafny's Euclidean `/` and `%`, negative
   * durations included.
   */
  function Breakdown(seconds: int): (p: Hms)
    ensures 0 <= p.m < 60 && 0 <= p.s < 60
    ensures p.h * 3600 + p.m * 60 + p.s == seconds
  {
    var minutes := seconds / 60;
    Hms(minutes / 60, minutes % 60, seconds % 60)
  }

  /** Hours, minutes below 60 and seconds below 60 are determined by the total. */
  lemma BreakdownUnique(seconds: int, p: Hms)
    requires 0 <= p.m < 60 && 0 <= p.s < 60
    requires p.h * 3600 + p.m * 60 + p.s == seconds
    ensures p == Breakdown(seconds)
  {
    var q := Breakdown(seconds);
    assert (p.h * 60 + p.m) * 60 + p.s == (q.h * 60 + q.m) * 60 + q.s;
    DivModUnique(p.h * 60 + p.m, p.s, q.h * 60 + q.m, q.s);
    DivModUnique(p.h, p.m, q.h, q.m);
  }

  lemma DivModUnique(a: int, r: int, b: int, t: int)
    requires 0 <= r < 60 && 0 <= t < 60
    requires a * 60 + r == b * 60 + t
    ensures a == b && r == t
  {
    assert (a - b) * 60 == t - r;
  }

  function FormatDuration(seconds: int): string {
    var p := Breakdown(seconds);
    IntToStr(p.h) + ":" + IntToStr(p.m) + ":" + IntToStr(p.s)
  }

  /** Reads an `H:M:S` string back into seconds. */
  function ParseDuration(text: string): Option<int> {
    var fields := Split(text, ':');
    if |fields| != 3 then None
    else
      match (ParseInt(fields[0]), ParseInt(fields[1]), ParseInt(fields[2]))
      case (Some(h), Some(m), Some(s)) => Some(h * 3600 + m * 60 + s)
      case _ => None
  }

  /** The formatted duration loses nothing: it reads back as the same number of seconds. */
  lemma FormatDurationRoundTrip(seconds: int)
    ensures ParseDuration(FormatDuration(seconds)) == Some(seconds)
  {
    var p := Breakdown(seconds);
    ParseJoined(p.h, p.m, p.s);
  }

  lemma ParseJoined(h: int, m: int, s: int)
    ensures ParseDuration(IntToStr(h) + ":" + IntToStr(m) + ":" + IntToStr(s)) == Some(h * 3600 + m * 60 + s)
  {
    var a, b, c := IntToStr(h), IntToStr(m), IntToStr(s);
    IntToStrRoundTrip(h);
    IntToStrRoundTrip(m);
    IntToStrRoundTrip(s);
    SplitThree(a, b, c);
    ParseFields(a + ":" + b + ":" + c, h, m, s);
  }

  lemma ParseFields(text: string, h: int, m: int, s: int)
    requires |Split(text, ':')| == 3
    requires ParseInt(Split(text, ':')[0]) == Some(h)
    requires ParseInt(Split(text, ':')[1]) == Some(m)
    requires ParseInt(Split(text, ':')[2]) == Some(s)
    ensures ParseDuration(text) == Some(h * 3600 + m * 60 + s)
  {
  }

  lemma SplitThree(a: string, b: string, c: string)
    requires ':' !in a && ':' !in b && ':' !in c
    ensures Split(a + ":" + b + ":" + c, ':') == [a, b, c]
  {
    assert a + ":" + b + ":" + c == a + [':'] + (b + [':'] + c);
    SplitFirst(a, ':', b + [':'] + c);
    SplitFirst(b, ':', c);
    assert Split(c, ':') == [c];
  }
}
