/**
 * `generate_report` (app_tracker.py and mac_app_tracker.py carry the same
 * definition): the day's timeline and the per-application breakdown.
 *
 * `datetime.strptime(text, ...).timestamp()` is the parameter `parse`
 * (`None` where `strptime` raises `ValueError`), and
 * `datetime.fromtimestamp(t).strftime(...)` is the parameter `fmt`.
 */
module Report {
  import opened Wrappers
  import opened Dict
  import opened Duration
  import opened Sorting
  import opened Aggregate
  import opened Persistence

  /**
   * One entry of `all_sessions_ts`. A legacy pair is kept as it is stored,
   * so either end may be a non-number (`None` here); a current-form session
   * has both ends parsed.
   */
  datatype Span = Span(start: Option<int>, end: Option<int>)

  /** `strptime(session[key], ...)`: a non-string raises `TypeError`, a bad string `ValueError`. */
  function ParseEnd(session: Json, key: string, parse: string -> Option<int>): Result<int, Fault>
    requires IsSessionObj(session) && (key == "start" || key == "end")
  {
    match Get(session.fields, key)
    case JStr(text) => (match parse(text) case Some(t) => Ok(t) case None => Err(ValueError))
    case _ => Err(TypeError)
  }

  /** What one stored session contributes to `all_sessions_ts`; the start is parsed before the end. */
  function SpanOf(j: Json, parse: string -> Option<int>): Result<seq<Span>, Fault> {
    if IsLegacyPair(j) then Ok([Span(AsStamp(j.items[0]), AsStamp(j.items[1]))])
    else if IsSessionObj(j) then
      match ParseEnd(j, "start", parse)
      case Err(f) => Err(f)
      case Ok(s) =>
        match ParseEnd(j, "end", parse)
        case Err(f) => Err(f)
        case Ok(e) => Ok([Span(Some(s), Some(e))])
    else Ok([])
  }

  /** The loop over the stored sessions, in list order. */
  function Spans(sessions: seq<Json>, parse: string -> Option<int>): Result<seq<Span>, Fault>
    decreases |sessions|
  {
    if |sessions| == 0 then Ok([])
    else
      match Spans(sessions[..|sessions| - 1], parse)
      case Err(f) => Err(f)
      case Ok(done) =>
        match SpanOf(sessions[|sessions| - 1], parse)
        case Err(f) => Err(f)
        case Ok(r) => Ok(done + r)
  }

  /** The loop's step: the list up to `i + 1` is the list up to `i` and the entry at `i`. */
  lemma SpansStep(sessions: seq<Json>, i: nat, parse: string -> Option<int>)
    requires i < |sessions|
    ensures Spans(sessions[..i + 1], parse)
            == match Spans(sessions[..i], parse)
               case Err(f) => Err(f)
               case Ok(done) => (match SpanOf(sessions[i], parse) case Err(f) => Err(f) case Ok(r) => Ok(done + r))
  {
    assert sessions[..i + 1][..i] == sessions[..i];
  }

  /** A current-form session whose start or end `strptime` cannot take. */
  predicate BadObj(j: Json, parse: string -> Option<int>) {
    IsSessionObj(j) && (ParseEnd(j, "start", parse).Err? || ParseEnd(j, "end", parse).Err?)
  }

  /** The time `strptime` reads from an object's `key`, if it is a string that parses. */
  function Stamp(j: Json, key: string, parse: string -> Option<int>): Option<int> {
    if j.JObj? && Has(j.fields, key) then
      match Get(j.fields, key)
      case JStr(text) => parse(text)
      case _ => None
    else None
  }

  /** The span of one kept session: a legacy pair's two values as stored, an object's parsed start and end. */
  function Timed(j: Json, parse: string -> Option<int>): Span {
    if IsLegacyPair(j) then Span(AsStamp(j.items[0]), AsStamp(j.items[1]))
    else Span(Stamp(j, "start", parse), Stamp(j, "end", parse))
  }

  /**
   * Collecting the spans fails exactly when some current-form session has
   * an unparsable end; otherwise span `k` is the time span of the `k`-th
   * kept session, and every object's span has both ends.
   */
  lemma {:induction false} SpansOutcome(sessions: seq<Json>, parse: string -> Option<int>)
    ensures Spans(sessions, parse).Err? <==> exists i :: 0 <= i < |sessions| && BadObj(sessions[i], parse)
    ensures Spans(sessions, parse).Ok? ==>
              |Spans(sessions, parse).value| == |Kept(sessions)|
              && (forall k :: 0 <= k < |Kept(sessions)| ==> Spans(sessions, parse).value[k] == Timed(Kept(sessions)[k], parse))
              && forall k :: 0 <= k < |Kept(sessions)| && IsSessionObj(Kept(sessions)[k]) ==>
                   Spans(sessions, parse).value[k].start.Some? && Spans(sessions, parse).value[k].end.Some?
    decreases |sessions|
  {
    if |sessions| > 0 {
      var init, last := sessions[..|sessions| - 1], sessions[|sessions| - 1];
      SpansOutcome(init, parse);
      assert forall i :: 0 <= i < |init| ==> init[i] == sessions[i];
      if (exists i :: 0 <= i < |sessions| && BadObj(sessions[i], parse)) && !BadObj(last, parse) {
        var i :| 0 <= i < |sessions| && BadObj(sessions[i], parse);
        assert i < |init| && BadObj(init[i], parse);
      }
      if Spans(sessions, parse).Ok? {
        var done := Spans(init, parse).value;
        var extra := if IsLegacyPair(last) || IsSessionObj(last) then [last] else [];
        SpanOfTimed(last, parse);
        assert Spans(sessions, parse).value == done + SpanOf(last, parse).value;
        assert Kept(sessions) == Kept(init) + extra;
      }
    }
  }

  /** What one session contributes, when it does not raise. */
  lemma SpanOfTimed(j: Json, parse: string -> Option<int>)
    requires SpanOf(j, parse).Ok?
    ensures SpanOf(j, parse).value == if IsLegacyPair(j) || IsSessionObj(j) then [Timed(j, parse)] else []
    ensures IsSessionObj(j) ==> Timed(j, parse).start.Some? && Timed(j, parse).end.Some?
  {
  }

  /** A failure part-way through the list is the failure of the whole list. */
  lemma {:induction false} SpansErrPropagates(sessions: seq<Json>, n: nat, parse: string -> Option<int>)
    requires n <= |sessions|
    requires Spans(sessions[..n], parse).Err?
    ensures Spans(sessions, parse) == Spans(sessions[..n], parse)
    decreases |sessions|
  {
    if n < |sessions| {
      var init := sessions[..|sessions| - 1];
      assert init[..n] == sessions[..n];
      SpansErrPropagates(init, n, parse);
    } else {
      assert sessions[..n] == sessions;
    }
  }

  /** Every span has a number at both ends, so `min`, `max` and `-` do not raise. */
  predicate Numeric(spans: seq<Span>) {
    forall i :: 0 <= i < |spans| ==> spans[i].start.Some? && spans[i].end.Some?
  }

  /** `min(s[0] for s in spans)`. */
  function Earliest(spans: seq<Span>): (r: int)
    requires |spans| > 0 && Numeric(spans)
    ensures exists i :: 0 <= i < |spans| && r == spans[i].start.value
    ensures forall i :: 0 <= i < |spans| ==> r <= spans[i].start.value
  {
    if |spans| == 1 then spans[0].start.value
    else
      var rest := Earliest(spans[1..]);
      assert forall i :: 1 <= i < |spans| ==> spans[i] == spans[1..][i - 1];
      if spans[0].start.value <= rest then spans[0].start.value else rest
  }

  /** `max(s[1] for s in spans)`. */
  function Latest(spans: seq<Span>): (r: int)
    requires |spans| > 0 && Numeric(spans)
    ensures exists i :: 0 <= i < |spans| && r == spans[i].end.value
    ensures forall i :: 0 <= i < |spans| ==> r >= spans[i].end.value
  {
    if |spans| == 1 then spans[0].end.value
    else
      var rest := Latest(spans[1..]);
      assert forall i :: 1 <= i < |spans| ==> spans[i] == spans[1..][i - 1];
      if spans[0].end.value >= rest then spans[0].end.value else rest
  }

  /** `sum(s[1] - s[0] for s in spans)`. */
  function Used(spans: seq<Span>): int
    requires Numeric(spans)
  {
    if |spans| == 0 then 0
    else Used(spans[..|spans| - 1]) + (spans[|spans| - 1].end.value - spans[|spans| - 1].start.value)
  }

  /** The four figures at the head of the report. */
  datatype Summary = Summary(boot: int, shutdown: int, used: int, idle: int)

  /** The timeline once the open session `[sessionStart, now]` is appended to the stored spans. */
  function Summarize(spans: seq<Span>, sessionStart: int, now: int, idle: int): Result<Summary, Fault> {
    var all := spans + [Span(Some(sessionStart), Some(now))];
    if !Numeric(all) then Err(TypeError)
    else Ok(Summary(Earliest(all), Latest(all), Used(all), idle))
  }

  /**
   * With the open session always present the timeline is never empty, so
   * boot and shutdown are defined: boot is the earliest start and no later
   * than the open session's start, shutdown the latest end and no earlier
   * than now, and the used time counts the open session too.
   */
  lemma SummarizeEffect(spans: seq<Span>, sessionStart: int, now: int, idle: int)
    ensures Summarize(spans, sessionStart, now, idle).Ok? <==> Numeric(spans)
    ensures Numeric(spans) ==>
              var s := Summarize(spans, sessionStart, now, idle).value;
              s.boot <= sessionStart && s.shutdown >= now
              && (s.boot == sessionStart || exists i :: 0 <= i < |spans| && s.boot == spans[i].start.value)
              && (s.shutdown == now || exists i :: 0 <= i < |spans| && s.shutdown == spans[i].end.value)
              && (forall i :: 0 <= i < |spans| ==> s.boot <= spans[i].start.value && spans[i].end.value <= s.shutdown)
              && s.used == Used(spans) + (now - sessionStart)
              && s.idle == idle
  {
    var open := Span(Some(sessionStart), Some(now));
    var all := spans + [open];
    assert all[|all| - 1] == open;
    assert forall i :: 0 <= i < |spans| ==> all[i] == spans[i];
    if Numeric(spans) {
      assert all[..|all| - 1] == spans;
    } else {
      var i :| 0 <= i < |spans| && !(spans[i].start.Some? && spans[i].end.Some?);
      assert all[i] == spans[i];
    }
  }

  /** One entry of `apps_list`: the name, the seconds recomputed from the titles, and the titles. */
  datatype AppRow = AppRow(name: string, seconds: int, titles: Dict<int>)

  function Row(entry: (string, AppUsage)): AppRow {
    AppRow(entry.0, Sum(entry.1.titles), entry.1.titles)
  }

  /** `apps_list` before sorting, in the apps' insertion order. */
  function Rows(apps: Dict<AppUsage>): seq<AppRow> {
    seq(|apps|, i requires 0 <= i < |apps| => Row(apps[i]))
  }

  function ByTotal(r: AppRow): int {
    r.seconds
  }

  function BySeconds(t: (string, int)): int {
    t.1
  }

  /** `apps_list.sort(key=lambda x: x[1], reverse=True)`. */
  function RankedApps(apps: Dict<AppUsage>): seq<AppRow> {
    SortDesc(Rows(apps), ByTotal)
  }

  /** `sorted(titles.items(), key=lambda item: item[1], reverse=True)`. */
  function RankedTitles(titles: Dict<int>): seq<(string, int)> {
    SortDesc(titles, BySeconds)
  }

  /**
   * The apps are listed in descending recomputed seconds, each app exactly
   * once, apps of equal seconds in insertion order; when every stored total
   * agrees with its titles the recomputed seconds are the stored totals.
   */
  lemma AppsRanked(apps: Dict<AppUsage>)
    ensures SortedDesc(RankedApps(apps), ByTotal)
    ensures multiset(RankedApps(apps)) == multiset(Rows(apps))
    ensures forall k :: WithKey(RankedApps(apps), ByTotal, k) == WithKey(Rows(apps), ByTotal, k)
    ensures WellFormed(apps) && Consistent(apps) ==>
              forall i :: 0 <= i < |apps| ==> Rows(apps)[i].seconds == apps[i].1.total
  {
    SortDescPermutes(Rows(apps), ByTotal);
    forall k
      ensures WithKey(RankedApps(apps), ByTotal, k) == WithKey(Rows(apps), ByTotal, k)
    {
      SortDescStable(Rows(apps), ByTotal, k);
    }
    if WellFormed(apps) && Consistent(apps) {
      forall i | 0 <= i < |apps|
        ensures Rows(apps)[i].seconds == apps[i].1.total
      {
        GetAt(apps, i);
      }
    }
  }

  /** The titles of an app are listed in descending seconds, each exactly once, ties in insertion order. */
  lemma TitlesRanked(titles: Dict<int>)
    ensures SortedDesc(RankedTitles(titles), BySeconds)
    ensures multiset(RankedTitles(titles)) == multiset(titles)
    ensures forall k :: WithKey(RankedTitles(titles), BySeconds, k) == WithKey(titles, BySeconds, k)
  {
    SortDescPermutes(titles, BySeconds);
    forall k
      ensures WithKey(RankedTitles(titles), BySeconds, k) == WithKey(titles, BySeconds, k)
    {
      SortDescStable(titles, BySeconds, k);
    }
  }

  function Dashes(n: nat): string {
    seq(n, _ => '-')
  }

  function Header(s: Summary, fmt: int -> string): seq<string> {
    [ "开机时间:" + fmt(s.boot),
      "关机时间:" + fmt(s.shutdown),
      "共使用: " + FormatDuration(s.used),
      "闲置: " + FormatDuration(s.idle),
      Dashes(30),
      "应用程序使用详情 (按时长倒序):" ]
  }

  function TitleLines(ranked: seq<(string, int)>): seq<string> {
    seq(|ranked|, i requires 0 <= i < |ranked| => TitleLine(ranked[i]))
  }

  function TitleLine(t: (string, int)): string {
    "    " + t.0 + " " + FormatDuration(t.1)
  }

  lemma TitleLinesStep(ranked: seq<(string, int)>, t: nat)
    requires t < |ranked|
    ensures TitleLines(ranked[..t + 1]) == TitleLines(ranked[..t]) + [TitleLine(ranked[t])]
  {
  }

  /** An app's line followed by its titles' lines. */
  function AppLines(row: AppRow): seq<string> {
    [row.name + " " + FormatDuration(row.seconds)] + TitleLines(RankedTitles(row.titles))
  }

  function Body(rows: seq<AppRow>): seq<string> {
    if |rows| == 0 then [] else AppLines(rows[0]) + Body(rows[1..])
  }

  lemma {:induction false} BodySnoc(rows: seq<AppRow>, row: AppRow)
    ensures Body(rows + [row]) == Body(rows) + AppLines(row)
  {
    if |rows| > 0 {
      assert (rows + [row])[1..] == rows[1..] + [row];
      BodySnoc(rows[1..], row);
    }
  }

  /** How many lines the app section of the report holds. */
  function BodySize(rows: seq<AppRow>): nat {
    if |rows| == 0 then 0 else 1 + |rows[0].titles| + BodySize(rows[1..])
  }

  lemma {:induction false} BodyLength(rows: seq<AppRow>)
    ensures |Body(rows)| == BodySize(rows)
  {
    if |rows| > 0 {
      SortDescPermutes(rows[0].titles, BySeconds);
      assert |RankedTitles(rows[0].titles)| == |multiset(rows[0].titles)|;
      BodyLength(rows[1..]);
    }
  }

  /** The lines `generate_report` joins with newlines and writes. */
  function ReportLines(stats: Aggregate, sessionStart: int, now: int,
                       parse: string -> Option<int>, fmt: int -> string): Result<seq<string>, Fault> {
    match Spans(stats.sessions, parse)
    case Err(f) => Err(f)
    case Ok(spans) =>
      match Summarize(spans, sessionStart, now, stats.idleSeconds)
      case Err(f) => Err(f)
      case Ok(s) => Ok(Header(s, fmt) + Body(RankedApps(stats.apps)))
  }

  /**
   * The report is the six header lines, then one line per app and one per
   * title of that app, apps in ranked order; the shutdown line shows a time
   * no earlier than now.
   */
  lemma ReportShape(stats: Aggregate, sessionStart: int, now: int, parse: string -> Option<int>, fmt: int -> string)
    ensures ReportLines(stats, sessionStart, now, parse, fmt).Ok? ==>
              var lines := ReportLines(stats, sessionStart, now, parse, fmt).value;
              var s := Summarize(Spans(stats.sessions, parse).value, sessionStart, now, stats.idleSeconds).value;
              |lines| == 6 + BodySize(RankedApps(stats.apps))
              && lines[..6] == Header(s, fmt)
              && s.boot <= sessionStart && s.shutdown >= now
  {
    if ReportLines(stats, sessionStart, now, parse, fmt).Ok? {
      var spans := Spans(stats.sessions, parse).value;
      SummarizeEffect(spans, sessionStart, now, stats.idleSeconds);
      BodyLength(RankedApps(stats.apps));
    }
  }
}
