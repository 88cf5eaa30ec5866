/**
 * What `get_active_window_info` makes of the operating system's answers,
 * and where `get_file_paths` puts a day's files. The operating-system
 * calls themselves are not modelled: their answers are the inputs here.
 */
module Probe {
  import opened Wrappers
  import opened Text
  import opened Policy

  const UnknownTitle: string := "Unknown Title"

  /** A title the tracker records: the window text, or a placeholder when that is blank. */
  function OrUnknown(title: string): (t: string)
    ensures Strip(t) != ""
    ensures Strip(title) != "" ==> t == title
    ensures Strip(title) == "" ==> t == UnknownTitle
  {
    UnknownTitleNotBlank();
    if Strip(title) == "" then UnknownTitle else title
  }

  lemma UnknownTitleNotBlank()
    ensures Strip(UnknownTitle) != ""
  {
    assert !IsSpace(UnknownTitle[0]);
    NotBlank(UnknownTitle);
  }

  lemma NotBlank(s: string)
    requires |s| > 0 && !IsSpace(s[0])
    ensures Strip(s) != ""
  {
    StripEmpty(s);
  }

  /** The foreground window on Windows, as win32gui and psutil report it. */
  datatype Window =
    | NoWindow      // `GetForegroundWindow()` returned 0
    | ProbeFailed   // any of the calls raised
    | Foreground(exeName: string, text: string)

  /**
   * app_tracker.py's `get_active_window_info()`: the process name and the
   * window text, kept unstripped, or "Unknown Title" when it is blank; both
   * `None` when there is no foreground window or a call raised.
   */
  function WindowsInfo(w: Window): (r: (Option<string>, Option<string>))
    ensures r.0.Some? <==> w.Foreground?
    ensures r.1.Some? <==> w.Foreground?
    ensures w.Foreground? ==>
              r.0.value == w.exeName && Strip(r.1.value) != ""
              && (Strip(w.text) != "" ==> r.1.value == w.text)
              && (Strip(w.text) == "" ==> r.1.value == UnknownTitle)
  {
    match w
    case Foreground(exe, text) => (Some(exe), Some(OrUnknown(text)))
    case _ => (None, None)
  }

  /** The frontmost application on macOS, as NSWorkspace reports it. */
  datatype MacApp = MacApp(localizedName: Option<string>, bundleIdentifier: Option<string>)

  /** The `osascript` run that reads the front window's title. */
  datatype ScriptRun =
    | Finished(returnCode: int, stdout: string)
    | Raised  // timed out or could not start

  /** `if app_name and not app_name.endswith('.app'): app_name += '.app'`. */
  function AppSuffix(name: string): (r: string)
    ensures r != "" ==> EndsWith(r, ".app")
    ensures r == "" <==> name == ""
    ensures EndsWith(name, ".app") ==> r == name
    ensures name != "" && !EndsWith(name, ".app") ==> r == name + ".app"
  {
    if name != "" && !EndsWith(name, ".app") then
      assert (name + ".app")[|name + ".app"| - 4..] == ".app";
      name + ".app"
    else name
  }

  /** Adding the suffix twice is adding it once. */
  lemma AppSuffixIdempotent(name: string)
    ensures AppSuffix(AppSuffix(name)) == AppSuffix(name)
  {
  }

  /** The localized name, else the bundle identifier cut to its last dotted segment. */
  function RawMacName(app: MacApp): Option<string> {
    if Truthy(app.localizedName) then app.localizedName
    else if Truthy(app.bundleIdentifier) && '.' in app.bundleIdentifier.value then
      var parts := Split(app.bundleIdentifier.value, '.');
      Some(parts[|parts| - 1])
    else app.bundleIdentifier
  }

  function MacAppName(app: MacApp): Option<string> {
    match RawMacName(app)
    case None => None
    case Some(name) => Some(AppSuffix(name))
  }

  /**
   * The name mac_app_tracker.py records for the frontmost app: every
   * non-empty name ends in `.app`; a localized name is used as it is, with
   * the suffix added when missing; without one, a dotted bundle identifier
   * gives the text after its last dot, and an undotted one is used whole.
   */
  lemma MacAppNameShape(app: MacApp)
    ensures Truthy(MacAppName(app)) ==> EndsWith(MacAppName(app).value, ".app")
    ensures Truthy(app.localizedName) ==> MacAppName(app) == Some(AppSuffix(app.localizedName.value))
    ensures !Truthy(app.localizedName) && Truthy(app.bundleIdentifier) && '.' in app.bundleIdentifier.value ==>
              exists pre, seg :: '.' !in seg && app.bundleIdentifier.value == pre + "." + seg
                                 && MacAppName(app) == Some(AppSuffix(seg))
    ensures !Truthy(app.localizedName) && app.bundleIdentifier.Some? && '.' !in app.bundleIdentifier.value ==>
              MacAppName(app) == Some(AppSuffix(app.bundleIdentifier.value))
    ensures !Truthy(app.localizedName) && app.bundleIdentifier.None? ==> MacAppName(app) == None
  {
    if !Truthy(app.localizedName) && Truthy(app.bundleIdentifier) && '.' in app.bundleIdentifier.value {
      var bundle := app.bundleIdentifier.value;
      var parts := Split(bundle, '.');
      var seg := parts[|parts| - 1];
      assert MacAppName(app) == Some(AppSuffix(seg));
      var pre := SplitLastPrefix(bundle, '.');
      assert '.' !in seg && bundle == pre + "." + seg;
    }
  }

  /** The window title from the AppleScript run: its stripped output when it succeeded. */
  function MacTitle(run: ScriptRun): (t: string)
    ensures Strip(t) != ""
    ensures run.Finished? && run.returnCode == 0 && Strip(run.stdout) != "" ==> t == Strip(run.stdout)
    ensures run.Finished? && run.returnCode == 0 && Strip(run.stdout) == "" ==> t == UnknownTitle
    ensures !(run.Finished? && run.returnCode == 0) ==> t == UnknownTitle
  {
    if run.Finished? && run.returnCode == 0 then
      StripStripped(run.stdout);
      OrUnknown(Strip(run.stdout))
    else OrUnknown("")
  }

  /** What `strip()` returns is blank only when empty. */
  lemma StripStripped(x: string)
    ensures Strip(Strip(x)) == "" <==> Strip(x) == ""
  {
    var s := Strip(x);
    if s != "" {
      StripEmpty(s);
      var l := LStrip(x);
      assert s == l[..|s|];
      assert !IsSpace(s[0]);
    }
  }

  /** mac_app_tracker.py's `get_active_window_info()` without its psutil fallback. */
  function MacInfo(front: Option<MacApp>, run: ScriptRun): (r: (Option<string>, Option<string>))
    ensures front.None? ==> r == (None, None)
    ensures front.Some? ==>
              r.0 == MacAppName(front.value)
              && r.1 == Some(MacTitle(run)) && Strip(r.1.value) != ""
              && (Truthy(r.0) ==> EndsWith(r.0.value, ".app"))
  {
    match front
    case None => (None, None)
    case Some(app) =>
      MacAppNameShape(app);
      (MacAppName(app), Some(MacTitle(run)))
  }

  /** The three files of one day, as path components below the script's directory. */
  datatype Paths = Paths(json: seq<string>, report: seq<string>, log: seq<string>)

  /** `s[a:b]` for `0 <= a <= b`: both bounds clamp to the length. */
  function Slice(s: string, a: nat, b: nat): string
    requires a <= b
  {
    var hi := if b < |s| then b else |s|;
    var lo := if a < hi then a else hi;
    s[lo..hi]
  }

  function Dir(p: Platform, date: string): seq<string> {
    match p
    case Windows => ["Data"]
    case MacOS => ["Data", Slice(date, 0, 4) + "." + Slice(date, 4, 6)]
  }

  /** `get_file_paths(date)`. */
  function FilePaths(p: Platform, date: string): Paths {
    var d := Dir(p, date);
    Paths(d + [date + ".data.json"], d + [date + ".report.txt"], d + [date + ".log.txt"])
  }

  /**
   * For a `YYYYMMDD` date the three files share one directory and are named
   * after the date; on macOS that directory is `Data/YYYY.MM`, on Windows
   * `Data` itself.
   */
  lemma FilePathsShape(p: Platform, date: string)
    requires |date| == 8
    ensures var paths := FilePaths(p, date);
            var dir := if p == Windows then ["Data"] else ["Data", date[..4] + "." + date[4..6]];
            paths.json == dir + [date + ".data.json"]
            && paths.report == dir + [date + ".report.txt"]
            && paths.log == dir + [date + ".log.txt"]
  {
  }

  /** Distinct days never share a data file. */
  lemma FilePathsDistinct(p: Platform, date1: string, date2: string)
    requires |date1| == |date2| && date1 != date2
    ensures FilePaths(p, date1).json != FilePaths(p, date2).json
  {
    var j1, j2 := FilePaths(p, date1).json, FilePaths(p, date2).json;
    var n := |Dir(p, date1)|;
    assert j1[n] == date1 + ".data.json" && j2[n] == date2 + ".data.json";
    assert (date1 + ".data.json")[..|date1|] == date1;
    assert (date2 + ".data.json")[..|date2|] == date2;
  }
}
