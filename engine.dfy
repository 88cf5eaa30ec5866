/**
 * One pass of `monitor_loop` (app_tracker.py and mac_app_tracker.py differ
 * only in the exemption test, the whitelist fallback and where the files
 * live): the day-rollover check, the idle decision, and the one counter
 * the second is credited to.
 *
 * The clock, the configuration file and the probes are read once per pass;
 * their answers form an `Observation`.
 */
module Engine {
  import opened Wrappers
  import opened Dict
  import opened Text
  import opened Aggregate
  import opened Persistence
  import opened Report
  import opened Policy
  import opened Probe

  /** The module-level state the monitor thread works on. */
  datatype TrackerState = TrackerState(
    stats: Aggregate,      // stats_data
    idle: bool,            // is_idle_status
    date: string,          // current_date_str
    sessionStart: int)     // current_session_start

  /** What one pass reads from the world. */
  datatype Observation = Observation(
    nowDate: string,       // datetime.now().strftime("%Y%m%d")
    now: int,              // time.time(), in whole seconds
    config: Config,        // the configuration file load_config() reads
    idleDuration: real,    // get_idle_duration()
    app: Option<string>,   // get_active_window_info()[0]
    title: Option<string>) // get_active_window_info()[1]

  /** A file written by a pass: the data document or the report, with its path. */
  datatype Written =
    | DataFile(path: seq<string>, doc: Aggregate)
    | ReportFile(path: seq<string>, lines: seq<string>)

  /**
   * The result of one pass: the new state, the files written, the log
   * messages, and the exception that ended the loop, if one did. When
   * saving or reporting raises on a rollover, nothing after it happens
   * and the monitor thread dies.
   */
  datatype TickOutcome = TickOutcome(state: TrackerState, written: seq<Written>, log: seq<string>, halted: Option<Fault>)

  /** The state and log messages after the idle decision. */
  datatype Step = Step(state: TrackerState, log: seq<string>)

  /** `is_app_exempt`, with the whitelist `load_config()` returns. */
  predicate IsExempt(p: Platform, o: Observation) {
    Exempt(p, o.app, LoadConfig(p, o.config))
  }

  /** `real_idle`. */
  predicate IsIdleTick(p: Platform, o: Observation) {
    RealIdle(o.idleDuration, IsExempt(p, o))
  }

  /** The second is credited to the foreground window: `if exe_name and title`. */
  predicate IsActiveTick(p: Platform, o: Observation) {
    !IsIdleTick(p, o) && Truthy(o.app) && Truthy(o.title)
  }

  /** The `with data_lock:` block: count an idle second or credit the foreground window. */
  function Record(p: Platform, s: TrackerState, o: Observation): Step {
    if IsIdleTick(p, o) then
      Step(s.(stats := s.stats.(idleSeconds := s.stats.idleSeconds + 1), idle := true),
           if s.idle then [] else ["Idle Start"])
    else
      var apps := if Truthy(o.app) && Truthy(o.title) then RecordActivity(s.stats.apps, o.app.value, o.title.value)
                  else s.stats.apps;
      Step(s.(stats := s.stats.(apps := apps), idle := false),
           if s.idle then ["Idle End"] else [])
  }

  /** `save_data()` then `generate_report()` into the files of `fileDate`. */
  function Flush(p: Platform, s: TrackerState, now: int, fileDate: string,
                 parse: string -> Option<int>, fmt: int -> string): (seq<Written>, Option<Fault>)
  {
    Filed(p, fileDate, Snapshot(s.stats, s.sessionStart, now, fmt),
          ReportLines(s.stats, s.sessionStart, now, parse, fmt))
  }

  /** The files of `fileDate` a flush writes, given the document and the report it built. */
  function Filed(p: Platform, fileDate: string, snapshot: Result<Aggregate, Fault>,
                 report: Result<seq<string>, Fault>): (seq<Written>, Option<Fault>)
  {
    match snapshot
    case Err(f) => ([], Some(f))
    case Ok(doc) =>
      var saved := [DataFile(FilePaths(p, fileDate).json, doc)];
      match report
      case Err(f) => (saved, Some(f))
      case Ok(lines) => (saved + [ReportFile(FilePaths(p, fileDate).report, lines)], None)
  }

  /** The reset after a rollover: a new day from now on. `is_idle_status` is kept. */
  function Reset(s: TrackerState, o: Observation): TrackerState {
    TrackerState(Empty, s.idle, o.nowDate, o.now)
  }

  function RolloverMessage(nowDate: string): string {
    "Date changed to " + nowDate + ", resetting stats."
  }

  /** One pass, flushing an outgoing day into the files of `fileDate`. */
  function TickInto(p: Platform, s: TrackerState, o: Observation, fileDate: string,
                    parse: string -> Option<int>, fmt: int -> string): TickOutcome
  {
    if o.nowDate != s.date then
      var (written, fault) := Flush(p, s, o.now, fileDate, parse, fmt);
      if fault.Some? then TickOutcome(s, written, [], fault)
      else
        var step := Record(p, Reset(s, o), o);
        TickOutcome(step.state, written, [RolloverMessage(o.nowDate)] + step.log, None)
    else
      var step := Record(p, s, o);
      TickOutcome(step.state, [], step.log, None)
  }

  /**
   * One pass as the source writes it: on a rollover `save_data()` and
   * `generate_report()` call `get_file_paths()` without a date, so they
   * use today's date, the date of the day that has just begun.
   */
  function TickAsWritten(p: Platform, s: TrackerState, o: Observation,
                         parse: string -> Option<int>, fmt: int -> string): (r: TickOutcome)
    ensures r.state == TickSpec(p, s, o, parse, fmt).state
    ensures r.log == TickSpec(p, s, o, parse, fmt).log && r.halted == TickSpec(p, s, o, parse, fmt).halted
    ensures |r.written| == |TickSpec(p, s, o, parse, fmt).written|
    ensures forall k :: 0 <= k < |r.written| ==>
              (r.written[k].DataFile? <==> TickSpec(p, s, o, parse, fmt).written[k].DataFile?)
              && (r.written[k].DataFile? ==> r.written[k].doc == TickSpec(p, s, o, parse, fmt).written[k].doc)
              && (r.written[k].ReportFile? ==> r.written[k].lines == TickSpec(p, s, o, parse, fmt).written[k].lines)
  {
    TickIntoAnyFile(p, s, o, o.nowDate, s.date, parse, fmt);
    TickInto(p, s, o, o.nowDate, parse, fmt)
  }

  /** Where a pass files the outgoing day changes the paths written, and nothing else. */
  lemma TickIntoAnyFile(p: Platform, s: TrackerState, o: Observation, d1: string, d2: string,
                        parse: string -> Option<int>, fmt: int -> string)
    ensures var (r1, r2) := (TickInto(p, s, o, d1, parse, fmt), TickInto(p, s, o, d2, parse, fmt));
            r1.state == r2.state && r1.log == r2.log && r1.halted == r2.halted
            && |r1.written| == |r2.written|
            && forall k :: 0 <= k < |r1.written| ==>
                 (r1.written[k].DataFile? <==> r2.written[k].DataFile?)
                 && (r1.written[k].DataFile? ==> r1.written[k].doc == r2.written[k].doc)
                 && (r1.written[k].ReportFile? ==> r1.written[k].lines == r2.written[k].lines)
  {
    if o.nowDate != s.date {
      FlushAnyFile(p, s, o.now, d1, d2, parse, fmt);
    }
  }

  /** A flush writes the same document and report whichever day's files it targets. */
  lemma FlushAnyFile(p: Platform, s: TrackerState, now: int, d1: string, d2: string,
                     parse: string -> Option<int>, fmt: int -> string)
    ensures var (f1, f2) := (Flush(p, s, now, d1, parse, fmt), Flush(p, s, now, d2, parse, fmt));
            f1.1 == f2.1 && |f1.0| == |f2.0|
            && forall k :: 0 <= k < |f1.0| ==>
                 (f1.0[k].DataFile? <==> f2.0[k].DataFile?)
                 && (f1.0[k].DataFile? ==> f1.0[k].doc == f2.0[k].doc)
                 && (f1.0[k].ReportFile? ==> f1.0[k].lines == f2.0[k].lines)
  {
    FiledAnyFile(p, d1, d2, Snapshot(s.stats, s.sessionStart, now, fmt),
                 ReportLines(s.stats, s.sessionStart, now, parse, fmt));
  }

  lemma FiledAnyFile(p: Platform, d1: string, d2: string, snapshot: Result<Aggregate, Fault>,
                     report: Result<seq<string>, Fault>)
    ensures var (f1, f2) := (Filed(p, d1, snapshot, report), Filed(p, d2, snapshot, report));
            f1.1 == f2.1 && |f1.0| == |f2.0|
            && forall k :: 0 <= k < |f1.0| ==>
                 (f1.0[k].DataFile? <==> f2.0[k].DataFile?)
                 && (f1.0[k].DataFile? ==> f1.0[k].doc == f2.0[k].doc)
                 && (f1.0[k].ReportFile? ==> f1.0[k].lines == f2.0[k].lines)
  {
  }

  /** One pass, with the outgoing day flushed into its own files. */
  function TickSpec(p: Platform, s: TrackerState, o: Observation,
                    parse: string -> Option<int>, fmt: int -> string): TickOutcome
  {
    TickInto(p, s, o, s.date, parse, fmt)
  }

  /** A flush writes only the data file and the report of `fileDate`, the data file first. */
  lemma FlushPaths(p: Platform, s: TrackerState, now: int, fileDate: string,
                   parse: string -> Option<int>, fmt: int -> string)
    ensures var (written, fault) := Flush(p, s, now, fileDate, parse, fmt);
            (forall k :: 0 <= k < |written| ==>
               written[k].path == FilePaths(p, fileDate).json || written[k].path == FilePaths(p, fileDate).report)
            && (Snapshot(s.stats, s.sessionStart, now, fmt).Ok? ==>
                  |written| >= 1 && written[0] == DataFile(FilePaths(p, fileDate).json, Snapshot(s.stats, s.sessionStart, now, fmt).value))
  {
    FiledPaths(p, fileDate, Snapshot(s.stats, s.sessionStart, now, fmt),
               ReportLines(s.stats, s.sessionStart, now, parse, fmt));
  }

  lemma FiledPaths(p: Platform, fileDate: string, snapshot: Result<Aggregate, Fault>,
                   report: Result<seq<string>, Fault>)
    ensures var (written, fault) := Filed(p, fileDate, snapshot, report);
            (forall k :: 0 <= k < |written| ==>
               written[k].path == FilePaths(p, fileDate).json || written[k].path == FilePaths(p, fileDate).report)
            && (snapshot.Ok? ==> |written| >= 1 && written[0] == DataFile(FilePaths(p, fileDate).json, snapshot.value))
  {
  }

  /**
   * On a rollover, the source files the outgoing day's document and report
   * under the new day's name, so the outgoing day's own files never receive
   * its final state, and the new day's first save overwrites what was filed.
   */
  lemma RolloverMisfiled(p: Platform, s: TrackerState, o: Observation,
                         parse: string -> Option<int>, fmt: int -> string)
    requires o.nowDate != s.date && |o.nowDate| == |s.date|
    requires Snapshot(s.stats, s.sessionStart, o.now, fmt).Ok?
    ensures var out := TickAsWritten(p, s, o, parse, fmt);
            |out.written| >= 1
            && out.written[0] == DataFile(FilePaths(p, o.nowDate).json, Snapshot(s.stats, s.sessionStart, o.now, fmt).value)
            && (forall k :: 0 <= k < |out.written| ==>
                  out.written[k].path != FilePaths(p, s.date).json && out.written[k].path != FilePaths(p, s.date).report)
  {
    var written := Flush(p, s, o.now, o.nowDate, parse, fmt).0;
    assert TickAsWritten(p, s, o, parse, fmt).written == written;
    FlushPaths(p, s, o.now, o.nowDate, parse, fmt);
    FilePathsDistinct(p, o.nowDate, s.date);
    FilePathsReportDistinct(p, o.nowDate, s.date);
    NotSameKind(p, o.nowDate, s.date);
  }

  lemma FilePathsReportDistinct(p: Platform, date1: string, date2: string)
    requires |date1| == |date2| && date1 != date2
    ensures FilePaths(p, date1).report != FilePaths(p, date2).report
  {
    var r1, r2 := FilePaths(p, date1).report, FilePaths(p, date2).report;
    var n := |Dir(p, date1)|;
    assert r1[n] == date1 + ".report.txt" && r2[n] == date2 + ".report.txt";
    assert (date1 + ".report.txt")[..|date1|] == date1;
    assert (date2 + ".report.txt")[..|date2|] == date2;
  }

  /** A day's data file is never another day's report. */
  lemma NotSameKind(p: Platform, date1: string, date2: string)
    ensures FilePaths(p, date1).json != FilePaths(p, date2).report
    ensures FilePaths(p, date1).report != FilePaths(p, date2).json
  {
    var j1, r2 := FilePaths(p, date1).json, FilePaths(p, date2).report;
    var j2, r1 := FilePaths(p, date2).json, FilePaths(p, date1).report;
    var n := |Dir(p, date1)|;
    assert |Dir(p, date2)| == n;
    assert j1[n][|j1[n]| - 1] == 'n' && r2[n][|r2[n]| - 1] == 't';
    assert j2[n][|j2[n]| - 1] == 'n' && r1[n][|r1[n]| - 1] == 't';
  }

  /** With the outgoing day flushed into its own files, its document and report are where its earlier saves went. */
  lemma RolloverFiled(p: Platform, s: TrackerState, o: Observation,
                      parse: string -> Option<int>, fmt: int -> string)
    requires o.nowDate != s.date
    ensures Snapshot(s.stats, s.sessionStart, o.now, fmt).Ok? && ReportLines(s.stats, s.sessionStart, o.now, parse, fmt).Ok? ==>
              TickSpec(p, s, o, parse, fmt).written
              == [ DataFile(FilePaths(p, s.date).json, Snapshot(s.stats, s.sessionStart, o.now, fmt).value),
                   ReportFile(FilePaths(p, s.date).report, ReportLines(s.stats, s.sessionStart, o.now, parse, fmt).value) ]
              && TickSpec(p, s, o, parse, fmt).halted == None
  {
  }

  /**
   * A rollover that saves and reports successfully starts the new day
   * empty, dated today, with the session starting now; the probe of the
   * same pass is then applied to that empty day. A failing save or report
   * leaves the state as it was and ends the loop.
   */
  lemma RolloverReset(p: Platform, s: TrackerState, o: Observation,
                      parse: string -> Option<int>, fmt: int -> string)
    requires o.nowDate != s.date
    ensures var out := TickSpec(p, s, o, parse, fmt);
            out.halted.None? <==> Snapshot(s.stats, s.sessionStart, o.now, fmt).Ok?
                                  && ReportLines(s.stats, s.sessionStart, o.now, parse, fmt).Ok?
    ensures var out := TickSpec(p, s, o, parse, fmt);
            if out.halted.None? then
              out.state == Record(p, TrackerState(Empty, s.idle, o.nowDate, o.now), o).state
              && out.state.date == o.nowDate && out.state.sessionStart == o.now
              && out.state.stats.sessions == []
              && |out.log| >= 1 && out.log[0] == RolloverMessage(o.nowDate)
            else out.state == s && out.log == []
  {
  }

  /**
   * An idle second on the same day: `idle_seconds` goes up by one, apps and
   * sessions are untouched, the flag is set, and "Idle Start" is logged
   * only when the flag was clear.
   */
  lemma IdleTick(p: Platform, s: TrackerState, o: Observation,
                 parse: string -> Option<int>, fmt: int -> string)
    requires o.nowDate == s.date && IsIdleTick(p, o)
    ensures var out := TickSpec(p, s, o, parse, fmt);
            out.state.stats == s.stats.(idleSeconds := s.stats.idleSeconds + 1)
            && out.state.idle && out.state.date == s.date && out.state.sessionStart == s.sessionStart
            && out.log == (if s.idle then [] else ["Idle Start"]) && out.written == [] && out.halted == None
  {
  }

  /**
   * An active second with an app and a title on the same day: that title's
   * seconds and that app's total each go up by one, from zero when new;
   * every other app is unchanged, `idle_seconds` is unchanged, the flag is
   * cleared and "Idle End" is logged only when it was set.
   */
  lemma ActiveTick(p: Platform, s: TrackerState, o: Observation,
                   parse: string -> Option<int>, fmt: int -> string)
    requires o.nowDate == s.date && IsActiveTick(p, o)
    ensures var out := TickSpec(p, s, o, parse, fmt);
            var app, title := o.app.value, o.title.value;
            var before := GetOr(s.stats.apps, app, Unused);
            var after := out.state.stats.apps;
            Has(after, app)
            && Get(after, app).total == before.total + 1
            && Has(Get(after, app).titles, title)
            && Get(Get(after, app).titles, title) == GetOr(before.titles, title, 0) + 1
            && (forall a :: a != app && Has(s.stats.apps, a) ==> Has(after, a) && Get(after, a) == Get(s.stats.apps, a))
            && out.state.stats.idleSeconds == s.stats.idleSeconds
            && out.state.stats.sessions == s.stats.sessions
            && !out.state.idle
            && out.log == (if s.idle then ["Idle End"] else [])
  {
    var app, title := o.app.value, o.title.value;
    RecordActivityEffect(s.stats.apps, app, title);
    CreditEffect(GetOr(s.stats.apps, app, Unused), title);
  }

  /** A non-idle second without an app name or without a title changes no counter. */
  lemma UnattributedTick(p: Platform, s: TrackerState, o: Observation,
                         parse: string -> Option<int>, fmt: int -> string)
    requires o.nowDate == s.date && !IsIdleTick(p, o) && !(Truthy(o.app) && Truthy(o.title))
    ensures TickSpec(p, s, o, parse, fmt).state == s.(idle := false)
  {
  }

  /** An exempt app is never idle, however long the input has been idle. */
  lemma ExemptNeverIdle(p: Platform, s: TrackerState, o: Observation,
                        parse: string -> Option<int>, fmt: int -> string)
    requires o.nowDate == s.date && IsExempt(p, o)
    ensures TickSpec(p, s, o, parse, fmt).state.stats.idleSeconds == s.stats.idleSeconds
    ensures !TickSpec(p, s, o, parse, fmt).state.idle
  {
  }

  /** The flag after the idle decision, and the one log line a flip writes. */
  lemma RecordIdleFlag(p: Platform, s: TrackerState, o: Observation)
    ensures var step := Record(p, s, o);
            step.state.idle == IsIdleTick(p, o)
            && step.log == (if IsIdleTick(p, o) && !s.idle then ["Idle Start"]
                            else if !IsIdleTick(p, o) && s.idle then ["Idle End"] else [])
  {
  }

  /**
   * `is_idle_status` follows the idle decision of each pass, and a log
   * line is written exactly when it flips.
   */
  lemma IdleFlag(p: Platform, s: TrackerState, o: Observation,
                 parse: string -> Option<int>, fmt: int -> string)
    ensures var out := TickSpec(p, s, o, parse, fmt);
            out.halted.None? ==>
              out.state.idle == IsIdleTick(p, o)
              && ("Idle Start" in out.log <==> IsIdleTick(p, o) && !s.idle)
              && ("Idle End" in out.log <==> !IsIdleTick(p, o) && s.idle)
  {
    if TickSpec(p, s, o, parse, fmt).halted.None? {
      var base := if o.nowDate != s.date then Reset(s, o) else s;
      var head := if o.nowDate != s.date then [RolloverMessage(o.nowDate)] else [];
      var rec := Record(p, base, o);
      TickRecords(p, s, o, parse, fmt);
      RecordIdleFlag(p, base, o);
      assert "Idle Start" !in head && "Idle End" !in head by {
        if o.nowDate != s.date {
          assert RolloverMessage(o.nowDate)[0] == 'D';
        }
      }
      assert ("Idle Start" in head + rec.log <==> "Idle Start" in rec.log)
          && ("Idle End" in head + rec.log <==> "Idle End" in rec.log);
    }
  }

  /** A pass that does not halt applies the idle decision to the day it ends on, after the rollover message if any. */
  lemma TickRecords(p: Platform, s: TrackerState, o: Observation,
                    parse: string -> Option<int>, fmt: int -> string)
    ensures var base := if o.nowDate != s.date then Reset(s, o) else s;
            var head := if o.nowDate != s.date then [RolloverMessage(o.nowDate)] else [];
            TickSpec(p, s, o, parse, fmt).halted.None? ==>
              TickSpec(p, s, o, parse, fmt).state == Record(p, base, o).state
              && TickSpec(p, s, o, parse, fmt).log == head + Record(p, base, o).log
  {
    if o.nowDate == s.date {
      assert [] + Record(p, s, o).log == Record(p, s, o).log;
    }
  }

  /**
   * On Windows, a second that is not idle is credited exactly when there is
   * a foreground window whose process has a name; its title is then the
   * window text, or "Unknown Title" when that is blank.
   */
  lemma WindowsProbeCredited(s: TrackerState, o: Observation, w: Window,
                             parse: string -> Option<int>, fmt: int -> string)
    requires (o.app, o.title) == WindowsInfo(w)
    requires o.nowDate == s.date && !IsIdleTick(Windows, o)
    ensures IsActiveTick(Windows, o) <==> w.Foreground? && w.exeName != ""
    ensures w.Foreground? && w.exeName != "" ==>
              var apps := TickSpec(Windows, s, o, parse, fmt).state.stats.apps;
              Has(apps, w.exeName) && Has(Get(apps, w.exeName).titles, OrUnknown(w.text))
  {
    if w.Foreground? {
      assert o.title.value != "" by { assert Strip(o.title.value) != ""; }
      if w.exeName != "" {
        ActiveTick(Windows, s, o, parse, fmt);
      }
    }
  }

  /**
   * On macOS, a second that is not idle is credited exactly when there is a
   * frontmost application with a non-empty name; that name ends in `.app`
   * and the title is never blank.
   */
  lemma MacProbeCredited(s: TrackerState, o: Observation, front: Option<MacApp>, run: ScriptRun,
                         parse: string -> Option<int>, fmt: int -> string)
    requires (o.app, o.title) == MacInfo(front, run)
    requires o.nowDate == s.date && !IsIdleTick(MacOS, o)
    ensures IsActiveTick(MacOS, o) <==> front.Some? && Truthy(MacAppName(front.value))
    ensures IsActiveTick(MacOS, o) ==>
              var apps := TickSpec(MacOS, s, o, parse, fmt).state.stats.apps;
              EndsWith(o.app.value, ".app") && Has(apps, o.app.value)
              && Has(Get(apps, o.app.value).titles, MacTitle(run))
  {
    if front.Some? {
      assert o.title.value != "" by { assert Strip(o.title.value) != ""; }
      if Truthy(o.app) {
        ActiveTick(MacOS, s, o, parse, fmt);
      }
    }
  }

  /** All the seconds the day has counted: idle ones and ones credited to apps. */
  function Counted(stats: Aggregate): int {
    stats.idleSeconds + Credited(stats.apps)
  }

  /**
   * Within a day exactly one counter moves per pass, by one second, when the
   * second is idle or attributable; none moves otherwise.
   */
  lemma OneCounterMoves(p: Platform, s: TrackerState, o: Observation,
                        parse: string -> Option<int>, fmt: int -> string)
    requires o.nowDate == s.date
    ensures var after := TickSpec(p, s, o, parse, fmt).state.stats;
            Counted(after) == Counted(s.stats) + (if IsIdleTick(p, o) || IsActiveTick(p, o) then 1 else 0)
            && (IsIdleTick(p, o) ==> after.apps == s.stats.apps)
            && (!IsIdleTick(p, o) ==> after.idleSeconds == s.stats.idleSeconds)
  {
    if IsActiveTick(p, o) {
      RecordActivityCredits(s.stats.apps, o.app.value, o.title.value);
    }
  }

  /** What the tracker keeps true of its apps: no duplicate keys and `total == sum(titles)`. */
  ghost predicate Invariant(s: TrackerState) {
    WellFormed(s.stats.apps) && Consistent(s.stats.apps)
  }

  /** Every pass keeps the invariant, rollovers included. */
  lemma TickKeepsInvariant(p: Platform, s: TrackerState, o: Observation,
                           parse: string -> Option<int>, fmt: int -> string)
    requires Invariant(s)
    ensures Invariant(TickSpec(p, s, o, parse, fmt).state)
  {
    TickRecords(p, s, o, parse, fmt);
    TickHaltKeepsState(p, s, o, parse, fmt);
    if TickSpec(p, s, o, parse, fmt).halted.None? {
      var base := if o.nowDate != s.date then Reset(s, o) else s;
      assert Invariant(base);
      RecordKeepsInvariant(p, base, o);
    }
  }

  /** A pass that halts leaves the state as it was. */
  lemma TickHaltKeepsState(p: Platform, s: TrackerState, o: Observation,
                           parse: string -> Option<int>, fmt: int -> string)
    ensures TickSpec(p, s, o, parse, fmt).halted.Some? ==> TickSpec(p, s, o, parse, fmt).state == s
  {
  }

  /** Counting an idle second or crediting the foreground window keeps the invariant. */
  lemma RecordKeepsInvariant(p: Platform, s: TrackerState, o: Observation)
    requires Invariant(s)
    ensures Invariant(Record(p, s, o).state)
  {
    if !IsIdleTick(p, o) && Truthy(o.app) && Truthy(o.title) {
      RecordActivityConsistent(s.stats.apps, o.app.value, o.title.value);
      RecordActivityWellFormed(s.stats.apps, o.app.value, o.title.value);
    }
  }

}
