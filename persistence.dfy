/**
 * What `save_data` writes (app_tracker.py and mac_app_tracker.py carry the
 * same definition): a copy of the daily aggregate whose `sessions` are
 * rewritten into the `{"start": ..., "end": ...}` form, with the session
 * that is still open appended last. The in-memory aggregate is not touched.
 *
 * `datetime.fromtimestamp(t).strftime(...)` is the parameter `fmt`; the
 * local-time conversion it performs is not modelled.
 */
module Persistence {
  import opened Wrappers
  import opened Dict
  import opened Aggregate

  /** The Python exceptions a malformed stored session raises. */
  datatype Fault =
    | TypeError   // a timestamp that is not a number, a date that is not a string
    | ValueError  // a date string `strptime` rejects

  /** A value `fromtimestamp` accepts. A JSON `true`/`false` is the int 1/0 in Python. */
  function AsStamp(j: Json): Option<int> {
    match j
    case JNum(n) => Some(n)
    case JBool(b) => Some(if b then 1 else 0)
    case _ => None
  }

  /** The legacy form `[start, end]`: any two-element list. */
  predicate IsLegacyPair(j: Json) {
    j.JList? && |j.items| == 2
  }

  /** The current form: an object with both a `start` and an `end` key. */
  predicate IsSessionObj(j: Json) {
    j.JObj? && Has(j.fields, "start") && Has(j.fields, "end")
  }

  function SessionObj(start: string, end: string): Json {
    JObj([("start", JStr(start)), ("end", JStr(end))])
  }

  lemma SessionObjComplete(start: string, end: string)
    ensures IsSessionObj(SessionObj(start, end))
  {
    assert Keys(SessionObj(start, end).fields) == ["start", "end"];
  }

  /** What one stored session contributes to the rewritten list: zero or one entries. */
  function Readable(j: Json, fmt: int -> string): Result<seq<Json>, Fault> {
    if IsLegacyPair(j) then
      match (AsStamp(j.items[0]), AsStamp(j.items[1]))
      case (Some(s), Some(e)) => Ok([SessionObj(fmt(s), fmt(e))])
      case _ => Err(TypeError)
    else if IsSessionObj(j) then Ok([j])
    else Ok([])
  }

  /** The `readable_sessions` loop, element by element in list order. */
  function Normalize(sessions: seq<Json>, fmt: int -> string): Result<seq<Json>, Fault>
    decreases |sessions|
  {
    if |sessions| == 0 then Ok([])
    else
      match Normalize(sessions[..|sessions| - 1], fmt)
      case Err(f) => Err(f)
      case Ok(done) =>
        match Readable(sessions[|sessions| - 1], fmt)
        case Err(f) => Err(f)
        case Ok(r) => Ok(done + r)
  }

  /** The loop's step: the list up to `i + 1` is the list up to `i` and the entry at `i`. */
  lemma NormalizeStep(sessions: seq<Json>, i: nat, fmt: int -> string)
    requires i < |sessions|
    ensures Normalize(sessions[..i + 1], fmt)
            == match Normalize(sessions[..i], fmt)
               case Err(f) => Err(f)
               case Ok(done) => (match Readable(sessions[i], fmt) case Err(f) => Err(f) case Ok(r) => Ok(done + r))
  {
    assert sessions[..i + 1][..i] == sessions[..i];
  }

  /** The document `save_data` writes. */
  function Snapshot(stats: Aggregate, sessionStart: int, now: int, fmt: int -> string): Result<Aggregate, Fault> {
    match Normalize(stats.sessions, fmt)
    case Err(f) => Err(f)
    case Ok(readable) => Ok(stats.(sessions := readable + [SessionObj(fmt(sessionStart), fmt(now))]))
  }

  /** A legacy pair holding something other than a number. */
  predicate BadPair(j: Json) {
    IsLegacyPair(j) && (AsStamp(j.items[0]).None? || AsStamp(j.items[1]).None?)
  }

  /** The stored sessions the rewrite keeps, in list order: legacy pairs and complete objects. */
  function Kept(sessions: seq<Json>): seq<Json>
    decreases |sessions|
  {
    if |sessions| == 0 then []
    else Kept(sessions[..|sessions| - 1])
         + (if IsLegacyPair(sessions[|sessions| - 1]) || IsSessionObj(sessions[|sessions| - 1]) then [sessions[|sessions| - 1]] else [])
  }

  /**
   * The entry written for one kept session: a legacy `[s, e]` of numbers
   * becomes `{"start": fmt(s), "end": fmt(e)}`, an object is written as it is.
   */
  function Saved(j: Json, fmt: int -> string): Json {
    if IsLegacyPair(j) && AsStamp(j.items[0]).Some? && AsStamp(j.items[1]).Some? then
      SessionObj(fmt(AsStamp(j.items[0]).value), fmt(AsStamp(j.items[1]).value))
    else j
  }

  /**
   * Saving fails exactly when some legacy pair holds a non-number; then
   * nothing is written. Otherwise entry `k` is the `k`-th kept session,
   * converted, and every entry is in the current form.
   */
  lemma {:induction false} NormalizeOutcome(sessions: seq<Json>, fmt: int -> string)
    ensures Normalize(sessions, fmt).Err? <==> exists i :: 0 <= i < |sessions| && BadPair(sessions[i])
    ensures Normalize(sessions, fmt).Ok? ==>
              |Normalize(sessions, fmt).value| == |Kept(sessions)|
              && (forall k :: 0 <= k < |Kept(sessions)| ==> Normalize(sessions, fmt).value[k] == Saved(Kept(sessions)[k], fmt))
              && forall k :: 0 <= k < |Normalize(sessions, fmt).value| ==> IsSessionObj(Normalize(sessions, fmt).value[k])
    decreases |sessions|
  {
    if |sessions| > 0 {
      var init, last := sessions[..|sessions| - 1], sessions[|sessions| - 1];
      NormalizeOutcome(init, fmt);
      assert forall i :: 0 <= i < |init| ==> init[i] == sessions[i];
      if (exists i :: 0 <= i < |sessions| && BadPair(sessions[i])) && !BadPair(last) {
        var i :| 0 <= i < |sessions| && BadPair(sessions[i]);
        assert i < |init| && BadPair(init[i]);
      }
      if IsLegacyPair(last) && !BadPair(last) {
        SessionObjComplete(fmt(AsStamp(last.items[0]).value), fmt(AsStamp(last.items[1]).value));
      }
      if Normalize(sessions, fmt).Ok? {
        var done := Normalize(init, fmt).value;
        var extra := if IsLegacyPair(last) || IsSessionObj(last) then [last] else [];
        assert Readable(last, fmt) == Ok(if IsLegacyPair(last) || IsSessionObj(last) then [Saved(last, fmt)] else []);
        assert Normalize(sessions, fmt).value == done + Readable(last, fmt).value;
        assert Kept(sessions) == Kept(init) + extra;
      }
    }
  }

  /** A failure part-way through the list is the failure of the whole list. */
  lemma {:induction false} NormalizeErrPropagates(sessions: seq<Json>, n: nat, fmt: int -> string)
    requires n <= |sessions|
    requires Normalize(sessions[..n], fmt).Err?
    ensures Normalize(sessions, fmt) == Normalize(sessions[..n], fmt)
    decreases |sessions|
  {
    if n < |sessions| {
      var init := sessions[..|sessions| - 1];
      assert init[..n] == sessions[..n];
      NormalizeErrPropagates(init, n, fmt);
    } else {
      assert sessions[..n] == sessions;
    }
  }

  /** A list already in the current form is written back unchanged. */
  lemma {:induction false} NormalizeKeepsObjects(sessions: seq<Json>, fmt: int -> string)
    requires forall i :: 0 <= i < |sessions| ==> IsSessionObj(sessions[i])
    ensures Normalize(sessions, fmt) == Ok(sessions)
    decreases |sessions|
  {
    if |sessions| > 0 {
      var init, last := sessions[..|sessions| - 1], sessions[|sessions| - 1];
      NormalizeKeepsObjects(init, fmt);
      assert Readable(last, fmt) == Ok([last]);
      assert init + [last] == sessions;
    }
  }

  /**
   * What `save_data` promises about one save: counters and apps are copied
   * as they are, the surviving sessions come first in the current form, and
   * the open session, formatted from its start and from now, comes last.
   */
  lemma SnapshotEffect(stats: Aggregate, sessionStart: int, now: int, fmt: int -> string)
    requires !exists i :: 0 <= i < |stats.sessions| && BadPair(stats.sessions[i])
    ensures Snapshot(stats, sessionStart, now, fmt).Ok?
    ensures var d := Snapshot(stats, sessionStart, now, fmt).value;
            d.idleSeconds == stats.idleSeconds && d.apps == stats.apps
            && |d.sessions| == |Kept(stats.sessions)| + 1
            && (forall k :: 0 <= k < |Kept(stats.sessions)| ==> d.sessions[k] == Saved(Kept(stats.sessions)[k], fmt))
            && d.sessions[|d.sessions| - 1] == SessionObj(fmt(sessionStart), fmt(now))
            && forall k :: 0 <= k < |d.sessions| ==> IsSessionObj(d.sessions[k])
  {
    NormalizeOutcome(stats.sessions, fmt);
    SessionObjComplete(fmt(sessionStart), fmt(now));
  }

  /**
   * Saving, loading what was saved and saving again adds exactly one
   * session, the one open at the second save: rewriting is idempotent.
   */
  lemma SnapshotReload(stats: Aggregate, start1: int, now1: int, start2: int, now2: int, fmt: int -> string)
    requires Snapshot(stats, start1, now1, fmt).Ok?
    ensures var d := Snapshot(stats, start1, now1, fmt).value;
            Snapshot(d, start2, now2, fmt) == Ok(d.(sessions := d.sessions + [SessionObj(fmt(start2), fmt(now2))]))
  {
    var d := Snapshot(stats, start1, now1, fmt).value;
    NormalizeOutcome(stats.sessions, fmt);
    var readable := Normalize(stats.sessions, fmt).value;
    var last := SessionObj(fmt(start1), fmt(now1));
    assert d.sessions == readable + [last];
    SessionObjComplete(fmt(start1), fmt(now1));
    NormalizeKeepsObjects(d.sessions, fmt);
  }
}
