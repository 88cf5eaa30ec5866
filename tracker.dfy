/**
 * The tracker's module-level state as one object, with the three routines
 * that work on it: `save_data`, `generate_report` and one pass of
 * `monitor_loop`. Each is proved to compute what the corresponding
 * specification in `Persistence`, `Report` and `Engine` describes.
 */
module Monitor {
  import opened Wrappers
  import opened Dict
  import opened Text
  import opened Duration
  import opened Sorting
  import opened Aggregate
  import opened Persistence
  import opened Report
  import opened Policy
  import opened Probe
  import opened Engine

  class Tracker {
    const platform: Platform
    var stats: Aggregate      // stats_data
    var isIdle: bool          // is_idle_status
    var currentDate: string   // current_date_str
    var sessionStart: int     // current_session_start

    function State(): TrackerState
      reads this
    {
      TrackerState(stats, isIdle, currentDate, sessionStart)
    }

    /**
     * Start-up: the globals' initial values, then `load_data()`, which
     * replaces the aggregate by today's stored document when there is one
     * that loads (`stored`).
     */
    constructor (p: Platform, today: string, now: int, stored: Option<Aggregate>)
      ensures platform == p
      ensures State() == TrackerState(if stored.Some? then stored.value else Empty, false, today, now)
    {
      platform := p;
      stats := Empty;
      isIdle := false;
      currentDate := today;
      sessionStart := now;
      if stored.Some? {
        stats := stored.value;
      }
    }

    /** `save_data()`: the document to write. The aggregate itself is left as it is. */
    method SaveData(now: int, fmt: int -> string) returns (doc: Result<Aggregate, Fault>)
      ensures doc == Snapshot(stats, sessionStart, now, fmt)
    {
      var current := SessionObj(fmt(sessionStart), fmt(now));
      var sessions := stats.sessions;
      var readable: seq<Json> := [];
      var i := 0;
      while i < |sessions|
        invariant 0 <= i <= |sessions|
        invariant Normalize(sessions[..i], fmt) == Ok(readable)
      {
        var session := sessions[i];
        NormalizeStep(sessions, i, fmt);
        if IsLegacyPair(session) {
          var start, end := AsStamp(session.items[0]), AsStamp(session.items[1]);
          if start.None? || end.None? {
            assert Readable(session, fmt) == Err(TypeError);
            NormalizeErrPropagates(sessions, i + 1, fmt);
            return Err(TypeError);
          }
          assert Readable(session, fmt) == Ok([SessionObj(fmt(start.value), fmt(end.value))]);
          readable := readable + [SessionObj(fmt(start.value), fmt(end.value))];
        } else if IsSessionObj(session) {
          assert Readable(session, fmt) == Ok([session]);
          readable := readable + [session];
        } else {
          assert Readable(session, fmt) == Ok([]);
          assert readable + [] == readable;
        }
        i := i + 1;
      }
      assert sessions[..i] == sessions;
      readable := readable + [current];
      doc := Ok(stats.(sessions := readable));
    }

    /** The first loop of `generate_report()`: the stored sessions as spans. */
    method CollectSpans(parse: string -> Option<int>) returns (spans: Result<seq<Span>, Fault>)
      ensures spans == Spans(stats.sessions, parse)
    {
      var sessions := stats.sessions;
      var collected: seq<Span> := [];
      var i := 0;
      while i < |sessions|
        invariant 0 <= i <= |sessions|
        invariant Spans(sessions[..i], parse) == Ok(collected)
      {
        var session := sessions[i];
        SpansStep(sessions, i, parse);
        if IsLegacyPair(session) {
          assert SpanOf(session, parse) == Ok([Span(AsStamp(session.items[0]), AsStamp(session.items[1]))]);
          collected := collected + [Span(AsStamp(session.items[0]), AsStamp(session.items[1]))];
        } else if IsSessionObj(session) {
          var start := ParseEnd(session, "start", parse);
          if start.Err? {
            SpansErrPropagates(sessions, i + 1, parse);
            return Err(start.error);
          }
          var end := ParseEnd(session, "end", parse);
          if end.Err? {
            SpansErrPropagates(sessions, i + 1, parse);
            return Err(end.error);
          }
          assert SpanOf(session, parse) == Ok([Span(Some(start.value), Some(end.value))]);
          collected := collected + [Span(Some(start.value), Some(end.value))];
        } else {
          assert SpanOf(session, parse) == Ok([]);
          assert collected + [] == collected;
        }
        i := i + 1;
      }
      assert sessions[..i] == sessions;
      spans := Ok(collected);
    }

    /** The `apps_list` loop: each app with the seconds recomputed from its titles. */
    method AppsList() returns (rows: seq<AppRow>)
      ensures rows == Rows(stats.apps)
    {
      var apps := stats.apps;
      rows := [];
      var j := 0;
      while j < |apps|
        invariant 0 <= j <= |apps|
        invariant rows == Rows(apps[..j])
      {
        rows := rows + [AppRow(apps[j].0, Sum(apps[j].1.titles), apps[j].1.titles)];
        j := j + 1;
      }
      assert apps[..j] == apps;
    }

    /** `generate_report()`: the lines to write. */
    method GenerateReport(now: int, parse: string -> Option<int>, fmt: int -> string)
      returns (report: Result<seq<string>, Fault>)
      ensures report == ReportLines(stats, sessionStart, now, parse, fmt)
    {
      var spans := CollectSpans(parse);
      if spans.Err? {
        return Err(spans.error);
      }
      var all := spans.value + [Span(Some(sessionStart), Some(now))];
      if !Numeric(all) {
        return Err(TypeError);
      }
      var summary := Summary(Earliest(all), Latest(all), Used(all), stats.idleSeconds);
      var rows := AppsList();
      rows := SortDesc(rows, ByTotal);
      var body := RenderApps(rows);
      report := Ok(Header(summary, fmt) + body);
    }

    /** The exemption test of this platform, with the whitelist just loaded. */
    method IsAppExempt(app: Option<string>, exemptList: seq<string>) returns (exempt: bool)
      ensures exempt == Exempt(platform, app, exemptList)
    {
      if platform == Windows {
        exempt := Truthy(app) && app.value in exemptList;
      } else {
        exempt := IsExemptMac(app, exemptList);
      }
    }

    /**
     * One pass of `monitor_loop`, with the outgoing day flushed into its own
     * files on a rollover. `written` and `log` are the files written and
     * the messages logged; `halted` is the exception that ends the loop.
     */
    method Tick(o: Observation, parse: string -> Option<int>, fmt: int -> string)
      returns (written: seq<Written>, log: seq<string>, halted: Option<Fault>)
      modifies this
      ensures TickOutcome(State(), written, log, halted) == TickSpec(platform, old(State()), o, parse, fmt)
    {
      written, log, halted := [], [], None;
      if o.nowDate != currentDate {
        written, halted := Rollover(o, parse, fmt);
        if halted.Some? {
          return;
        }
        log := [RolloverMessage(o.nowDate)];
      }
      var stepLog := RecordSecond(o);
      log := log + stepLog;
    }

    /** The date-change block: save and report the outgoing day, then reset. */
    method Rollover(o: Observation, parse: string -> Option<int>, fmt: int -> string)
      returns (written: seq<Written>, halted: Option<Fault>)
      modifies this
      ensures (written, halted) == Flush(platform, old(State()), o.now, old(currentDate), parse, fmt)
      ensures State() == if halted.None? then Reset(old(State()), o) else old(State())
    {
      var doc := SaveData(o.now, fmt);
      ghost var filed := Filed(platform, currentDate, doc, ReportLines(stats, sessionStart, o.now, parse, fmt));
      assert Flush(platform, State(), o.now, currentDate, parse, fmt) == filed;
      if doc.Err? {
        assert filed == ([], Some(doc.error));
        return [], Some(doc.error);
      }
      written := [DataFile(FilePaths(platform, currentDate).json, doc.value)];
      var report := GenerateReport(o.now, parse, fmt);
      if report.Err? {
        assert filed == (written, Some(report.error));
        return written, Some(report.error);
      }
      written := written + [ReportFile(FilePaths(platform, currentDate).report, report.value)];
      halted := None;
      assert filed == (written, halted);
      currentDate := o.nowDate;
      stats := stats.(sessions := []);
      stats := stats.(idleSeconds := 0);
      stats := stats.(apps := []);
      sessionStart := o.now;
    }

    /** The idle decision and the `with data_lock:` block. */
    method RecordSecond(o: Observation) returns (log: seq<string>)
      modifies this
      ensures Step(State(), log) == Record(platform, old(State()), o)
    {
      log := [];
      var exemptList := LoadConfig(platform, o.config);
      var exempt := IsAppExempt(o.app, exemptList);
      var realIdle := false;
      if o.idleDuration > 60.0 && !exempt {
        realIdle := true;
      }

      if realIdle {
        if !isIdle {
          log := log + ["Idle Start"];
          isIdle := true;
        }
        stats := stats.(idleSeconds := stats.idleSeconds + 1);
      } else {
        if isIdle {
          log := log + ["Idle End"];
          isIdle := false;
        }
        if Truthy(o.app) && Truthy(o.title) {
          CreditSecond(o.app.value, o.title.value);
        }
      }
    }

    /**
     * `stats_data["apps"][app]["titles"][title] += 1` and
     * `stats_data["apps"][app]["total"] += 1`, after creating the missing
     * entries at zero.
     */
    method CreditSecond(app: string, title: string)
      modifies this
      ensures stats == old(stats.(apps := RecordActivity(stats.apps, app, title)))
      ensures isIdle == old(isIdle) && currentDate == old(currentDate) && sessionStart == old(sessionStart)
    {
      var apps := stats.apps;
      ghost var before := GetOr(apps, app, Unused);
      if !Has(apps, app) {
        apps := Put(apps, app, AppUsage(0, []));
        PutGet(stats.apps, app, Unused);
      }
      var usage := Get(apps, app);
      assert usage == before;
      ghost var seconds := GetOr(usage.titles, title, 0);
      if !Has(usage.titles, title) {
        usage := usage.(titles := Put(usage.titles, title, 0));
        PutGet(before.titles, title, 0);
      }
      assert Get(usage.titles, title) == seconds;
      var titles := Put(usage.titles, title, Get(usage.titles, title) + 1);
      PutPut(before.titles, title, 0, seconds + 1);
      assert titles == Put(before.titles, title, seconds + 1);
      usage := usage.(titles := titles);
      usage := usage.(total := usage.total + 1);
      assert usage == Credit(before, title);
      PutPut(stats.apps, app, Unused, usage);
      stats := stats.(apps := Put(apps, app, usage));
    }
  }

  /** The loop that appends one line per app and, below it, one per title. */
  method RenderApps(rows: seq<AppRow>) returns (lines: seq<string>)
    ensures lines == Body(rows)
  {
    lines := [];
    var k := 0;
    while k < |rows|
      invariant 0 <= k <= |rows|
      invariant lines == Body(rows[..k])
    {
      var row := rows[k];
      var titleLines := RenderTitles(RankedTitles(row.titles));
      BodySnoc(rows[..k], row);
      assert rows[..k + 1] == rows[..k] + [row];
      lines := lines + ([row.name + " " + FormatDuration(row.seconds)] + titleLines);
      k := k + 1;
    }
    assert rows[..k] == rows;
  }

  /** The inner loop: one indented line per title, in ranked order. */
  method RenderTitles(ranked: seq<(string, int)>) returns (lines: seq<string>)
    ensures lines == TitleLines(ranked)
  {
    lines := [];
    var t := 0;
    while t < |ranked|
      invariant 0 <= t <= |ranked|
      invariant lines == TitleLines(ranked[..t])
    {
      TitleLinesStep(ranked, t);
      lines := lines + [TitleLine(ranked[t])];
      t := t + 1;
    }
    assert ranked[..t] == ranked;
  }
}
