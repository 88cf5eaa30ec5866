/**
 * The idle policy: which applications are exempt from idle detection
 * (`load_config` and the exemption test in `monitor_loop`), and when a
 * second counts as idle.
 */
module Policy {
  import opened Wrappers
  import opened Text

  datatype Platform = Windows | MacOS

  /** `statistics.configuration.json` as `load_config` finds it. */
  datatype Config =
    | NoFile
      /** Unreadable, not JSON, or not a JSON object: the bare `except` falls back. */
    | Unreadable
      /** A JSON object, with its `idleExempt` list when that key is present. */
    | Loaded(idleExempt: Option<seq<string>>)

  /** app_tracker.py's built-in whitelist. */
  const WindowsDefault: seq<string> :=
    ["vlc.exe", "chrome.exe", "msedge.exe", "QQMusic.exe", "xmp.exe", "哔哩哔哩.exe"]

  /** mac_app_tracker.py's built-in whitelist. */
  const MacDefault: seq<string> :=
    ["VLC.app", "Google Chrome.app", "Safari.app", "Spotify.app", "Music.app", "TV.app", "QuickTime Player.app"]

  function Default(p: Platform): seq<string> {
    match p
    case Windows => WindowsDefault
    case MacOS => MacDefault
  }

  /**
   * `load_config()`: the configured list or the platform default. macOS
   * never ends up with an empty whitelist, while Windows keeps an explicitly
   * empty one and then exempts nothing.
   */
  function LoadConfig(p: Platform, c: Config): (list: seq<string>)
    ensures list == Default(p) || (c.Loaded? && c.idleExempt == Some(list))
    ensures p == MacOS ==> list != []
    ensures p == Windows && c == Loaded(Some([])) ==> list == []
    ensures !c.Loaded? || c.idleExempt.None? ==> list == Default(p)
    ensures c.Loaded? && c.idleExempt.Some? && (p == Windows || c.idleExempt.value != []) ==> list == c.idleExempt.value
  {
    match c
    case Loaded(Some(list)) => if p == Windows || list != [] then list else Default(p)
    case _ => Default(p)
  }

  /** Windows: `if exe_name:` then `exe_name in exempt_list`. */
  predicate ExemptExact(app: Option<string>, list: seq<string>) {
    Truthy(app) && app.value in list
  }

  /** macOS: one lower-cased name contains the other. */
  predicate Matches(app: string, entry: string) {
    Contains(Lower(app), Lower(entry)) || Contains(Lower(entry), Lower(app))
  }

  /** macOS: some whitelist entry matches the app name. */
  predicate ExemptSubstring(app: Option<string>, list: seq<string>) {
    Truthy(app) && exists i :: 0 <= i < |list| && Matches(app.value, list[i])
  }

  /** The macOS exemption loop, which stops at the first matching entry. */
  method IsExemptMac(app: Option<string>, list: seq<string>) returns (exempt: bool)
    ensures exempt == ExemptSubstring(app, list)
  {
    exempt := false;
    if Truthy(app) {
      var i := 0;
      while i < |list|
        invariant 0 <= i <= |list|
        invariant !exempt
        invariant forall j :: 0 <= j < i ==> !Matches(app.value, list[j])
      {
        if Matches(app.value, list[i]) {
          exempt := true;
          break;
        }
        i := i + 1;
      }
    }
  }

  /** The exemption test each platform applies. */
  predicate Exempt(p: Platform, app: Option<string>, list: seq<string>) {
    match p
    case Windows => ExemptExact(app, list)
    case MacOS => ExemptSubstring(app, list)
  }

  /** The macOS test is the looser one: every exact match is also a substring match. */
  lemma ExactImpliesSubstring(app: Option<string>, list: seq<string>)
    requires ExemptExact(app, list)
    ensures ExemptSubstring(app, list)
  {
    var i :| 0 <= i < |list| && list[i] == app.value;
    ContainsSelf(Lower(app.value));
    assert Matches(app.value, list[i]);
  }

  /** `idle_duration > 60 and not is_app_exempt`. */
  predicate RealIdle(idleDuration: real, exempt: bool) {
    idleDuration > 60.0 && !exempt
  }
}
