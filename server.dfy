/**
 * The decisions `StatsHandler.do_GET` in server.py takes for a request
 * path: the date list, the per-day document, the ban on fetching data files
 * directly, and the static-file fallback. Sockets, headers and the static
 * file server itself are not modelled; the directory listing and the data
 * files are inputs.
 */
module Server {
  import opened Wrappers
  import opened Text
  import opened Sorting
  import opened Aggregate

  const DataSuffix: string := ".data.json"

  /** A date as the tracker names its files: eight ASCII digits. */
  predicate IsDate(d: string) {
    |d| == 8 && AllDigits(d)
  }

  /**
   * For a name ending in `.data.json`, group 1 of
   * `re.match(r"(\d{8})\.data\.json", f)`: eight digits and `.data.json`
   * at the start of the name (nothing is required after them).
   */
  function DateOf(f: string): (d: Option<string>)
    ensures d.Some? ==> IsDate(d.value) && StartsWith(f, d.value + DataSuffix) && EndsWith(f, DataSuffix)
    ensures EndsWith(f, DataSuffix) && |f| >= 8 && IsDate(f[..8]) && StartsWith(f, f[..8] + DataSuffix) ==>
              d == Some(f[..8])
  {
    if EndsWith(f, DataSuffix) && |f| >= 18 && AllDigits(f[..8]) && f[8..18] == DataSuffix then
      assert (f[..8] + DataSuffix) == f[..18];
      Some(f[..8])
    else None
  }

  /** The server finds the date again in the name of every data file the tracker writes. */
  lemma DateOfDataFile(d: string)
    requires IsDate(d)
    ensures DateOf(d + DataSuffix) == Some(d)
  {
    var f := d + DataSuffix;
    assert f[..8] == d && f[8..18] == DataSuffix;
    assert f[|f| - |DataSuffix|..] == DataSuffix;
  }

  /** The dates found in a directory listing, in listing order. */
  function Extract(names: seq<string>): seq<string>
    decreases |names|
  {
    if |names| == 0 then []
    else
      var last := DateOf(names[|names| - 1]);
      Extract(names[..|names| - 1]) + (if last.Some? then [last.value] else [])
  }

  /** The value of a date, which orders dates as Python compares them (see `DateOrder`). */
  function DateKey(d: string): int {
    if AllDigits(d) then DigitsValue(d) else 0
  }

  /** The `/api/dates` loop and `dates.sort(reverse=True)`. */
  method ListDates(names: seq<string>) returns (dates: seq<string>)
    ensures dates == SortDesc(Extract(names), DateKey)
  {
    dates := [];
    var i := 0;
    while i < |names|
      invariant 0 <= i <= |names|
      invariant dates == Extract(names[..i])
    {
      var m := DateOf(names[i]);
      if m.Some? {
        dates := dates + [m.value];
      }
      assert names[..i + 1][..i] == names[..i];
      i := i + 1;
    }
    assert names[..i] == names;
    dates := SortDesc(dates, DateKey);
  }

  /**
   * The listed dates are exactly the dates of the data files in the
   * listing, each as often as it occurs, newest first.
   */
  lemma {:induction false} ExtractMembers(names: seq<string>)
    ensures forall k :: 0 <= k < |Extract(names)| ==> IsDate(Extract(names)[k])
    ensures forall d :: d in Extract(names) <==> exists i :: 0 <= i < |names| && DateOf(names[i]) == Some(d)
    decreases |names|
  {
    if |names| > 0 {
      var init := names[..|names| - 1];
      ExtractMembers(init);
      assert forall i :: 0 <= i < |init| ==> init[i] == names[i];
      forall d | exists i :: 0 <= i < |names| && DateOf(names[i]) == Some(d)
        ensures d in Extract(names)
      {
        var i :| 0 <= i < |names| && DateOf(names[i]) == Some(d);
        if i < |init| {
          assert DateOf(init[i]) == Some(d);
        }
      }
    }
  }

  lemma DatesListed(names: seq<string>)
    ensures var dates := SortDesc(Extract(names), DateKey);
            SortedDesc(dates, DateKey)
            && multiset(dates) == multiset(Extract(names))
            && (forall k :: 0 <= k < |dates| ==> IsDate(dates[k]))
            && forall d :: d in dates <==> exists i :: 0 <= i < |names| && DateOf(names[i]) == Some(d)
  {
    var dates := SortDesc(Extract(names), DateKey);
    SortDescPermutes(Extract(names), DateKey);
    ExtractMembers(names);
    assert forall d :: d in dates <==> d in multiset(dates);
    forall k | 0 <= k < |dates|
      ensures IsDate(dates[k])
    {
      assert dates[k] in multiset(Extract(names));
    }
  }

  /** Python's `a < b` on strings: code-point order, a proper prefix first. */
  predicate LexLess(a: string, b: string)
    decreases |a|
  {
    |b| > 0 && (|a| == 0 || a[0] < b[0] || (a[0] == b[0] && LexLess(a[1..], b[1..])))
  }

  function Pow10(n: nat): nat {
    if n == 0 then 1 else 10 * Pow10(n - 1)
  }

  function Digit(c: char): int {
    c as int - '0' as int
  }

  lemma {:induction false} DigitsValueBound(s: string)
    requires AllDigits(s)
    ensures DigitsValue(s) < Pow10(|s|)
    decreases |s|
  {
    if |s| > 0 {
      DigitsValueBound(s[..|s| - 1]);
    }
  }

  /** The value read from the front: the leading digit weighs `10^(n-1)`. */
  lemma {:induction false} DigitsValueHead(s: string)
    requires AllDigits(s) && |s| > 0
    ensures DigitsValue(s) == Digit(s[0]) * Pow10(|s| - 1) + DigitsValue(s[1..])
    decreases |s|
  {
    if |s| > 1 {
      var init := s[..|s| - 1];
      DigitsValueHead(init);
      assert init[1..] == s[1..][..|s| - 2];
      assert s[1..][|s| - 2] == s[|s| - 1];
    }
  }

  /**
   * For digit strings of one length, numeric order is Python's string
   * order, so sorting by `DateKey` sorts the dates as `dates.sort` does.
   */
  lemma {:induction false} DateOrder(a: string, b: string)
    requires |a| == |b| && AllDigits(a) && AllDigits(b)
    ensures LexLess(a, b) <==> DigitsValue(a) < DigitsValue(b)
    decreases |a|
  {
    if |a| > 0 {
      var p := Pow10(|a| - 1);
      var ra, rb := DigitsValue(a[1..]), DigitsValue(b[1..]);
      DigitsValueHead(a);
      DigitsValueHead(b);
      DigitsValueBound(a[1..]);
      DigitsValueBound(b[1..]);
      if a[0] == b[0] {
        DateOrder(a[1..], b[1..]);
      } else if a[0] < b[0] {
        LeadingDigitDominates(Digit(a[0]), Digit(b[0]), ra, rb, p);
      } else {
        LeadingDigitDominates(Digit(b[0]), Digit(a[0]), rb, ra, p);
      }
    }
  }

  lemma LeadingDigitDominates(x: int, y: int, rx: int, ry: int, p: int)
    requires x < y && 0 <= rx < p && 0 <= ry
    ensures x * p + rx < y * p + ry
  {
    var k := y - x;
    MulAtLeast(k, p);
    assert y * p == x * p + k * p;
  }

  lemma {:induction false} MulAtLeast(k: nat, p: nat)
    requires k >= 1
    ensures k * p >= p
  {
    if k > 1 {
      MulAtLeast(k - 1, p);
      assert k * p == (k - 1) * p + p;
    }
  }

  /**
   * The date in an `/api/data/...` path: `path.replace('/api/data/', '')`
   * with trailing slashes stripped, accepted when `^\d{8}$` matches it. In
   * Python's `re`, `$` also matches before a final newline.
   */
  function ValidDate(path: string): (d: Option<string>)
    ensures var x := RStripChar(RemoveAll(path, "/api/data/"), '/');
            d.Some? <==> IsDate(x) || (|x| == 9 && AllDigits(x[..8]) && x[8] == '\n')
    ensures d.Some? ==> d.value == RStripChar(RemoveAll(path, "/api/data/"), '/')
    ensures d.Some? ==> |d.value| >= 8 && IsDate(d.value[..8]) && (d.value == d.value[..8] || d.value == d.value[..8] + "\n")
  {
    var date := RStripChar(RemoveAll(path, "/api/data/"), '/');
    if IsDate(date) then Some(date)
    else if |date| == 9 && AllDigits(date[..8]) && date[8] == '\n' then
      assert date == date[..8] + "\n";
      Some(date)
    else None
  }

  lemma {:induction false} RemoveAllNoSlash(s: string, pat: string)
    requires |pat| > 0 && pat[0] == '/' && '/' !in s
    ensures RemoveAll(s, pat) == s
    decreases |s|
  {
    if |s| >= |pat| {
      assert s[..|pat|][0] == s[0] != '/';
      RemoveAllNoSlash(s[1..], pat);
      assert [s[0]] + s[1..] == s;
    }
  }

  /** The dashboard's request for a date the tracker wrote, with or without a final `/`, is accepted as that date. */
  lemma ValidDateOfApiPath(d: string, slash: bool)
    requires IsDate(d)
    ensures ValidDate("/api/data/" + d + (if slash then "/" else "")) == Some(d)
  {
    var pat := "/api/data/";
    var tail := d + (if slash then "/" else "");
    var s := pat + tail;
    assert s == "/api/data/" + d + (if slash then "/" else "");
    assert s[..|pat|] == pat && s[|pat|..] == tail;
    assert forall i :: 0 <= i < |d| ==> d[i] != '/';
    RemoveAllNoSlash(d, pat);
    if slash {
      assert '/' !in d;
      RemoveAllSlash(d, pat);
      assert RStripChar(d + "/", '/') == RStripChar(d, '/');
    }
    assert RemoveAll(s, pat) == RemoveAll(tail, pat);
    assert IsDate(d) && |d| > 0 && d[|d| - 1] != '/';
  }

  lemma RemoveAllSlash(d: string, pat: string)
    requires |pat| > 1 && pat[0] == '/' && '/' !in d && RemoveAll(d, pat) == d
    ensures RemoveAll(d + "/", pat) == d + "/"
  {
    RemoveAllNoSlashEnd(d, pat);
  }

  lemma {:induction false} RemoveAllNoSlashEnd(s: string, pat: string)
    requires |pat| > 1 && pat[0] == '/' && '/' !in s
    ensures RemoveAll(s + "/", pat) == s + "/"
    decreases |s|
  {
    var t := s + "/";
    if |t| >= |pat| {
      assert t[0] == s[0] != '/';
      assert t[1..] == s[1..] + "/";
      RemoveAllNoSlashEnd(s[1..], pat);
      assert [t[0]] + t[1..] == t;
    }
  }

  /** The data files the server can read, by name. */
  datatype FileState =
    | Missing
    | Unreadable(message: string)  // exists, but opening or parsing it raised
    | Readable(doc: Json)

  datatype Response =
    | Reply(status: int, body: Json)
      /** Left to the static file server, with the request path it is given. */
    | Static(path: string)

  function ErrorBody(message: string): Json {
    JObj([("error", JStr(message))])
  }

  const BadDateMessage: string := "Invalid date format. Use YYYYMMDD"
  const ForbiddenMessage: string := "直接访问数据文件已被禁用，请使用 /api/data/YYYYMMDD 接口"

  function DateList(dates: seq<string>): Json {
    JList(seq(|dates|, i requires 0 <= i < |dates| => JStr(dates[i])))
  }

  /**
   * `do_GET`. `path` is the path part of the request, `rawPath` the request
   * target as received (`self.path`), `listing` the result of listing the
   * data directory and `files` what reading a data file gives.
   */
  function Handle(path: string, rawPath: string, listing: Result<seq<string>, string>,
                  files: string -> FileState): (r: Response)
    ensures r.Static? <==> path != "/api/dates" && !StartsWith(path, "/api/data/") && !EndsWith(path, DataSuffix)
    ensures r == Reply(400, ErrorBody(BadDateMessage)) <==> StartsWith(path, "/api/data/") && ValidDate(path).None?
    ensures r == Reply(403, ErrorBody(ForbiddenMessage)) <==>
              path != "/api/dates" && !StartsWith(path, "/api/data/") && EndsWith(path, DataSuffix)
  {
    ApiDataIsNotDates(path);
    if path == "/api/dates" then
      match listing
      case Ok(names) => Reply(200, DateList(SortDesc(Extract(names), DateKey)))
      case Err(message) => Reply(500, ErrorBody(message))
    else if StartsWith(path, "/api/data/") then
      match ValidDate(path)
      case None => Reply(400, ErrorBody(BadDateMessage))
      case Some(date) =>
        match files(date + DataSuffix)
        case Missing => Reply(200, Document(Empty))
        case Unreadable(message) => Reply(500, ErrorBody(message))
        case Readable(doc) => Reply(200, doc)
    else if EndsWith(path, DataSuffix) then Reply(403, ErrorBody(ForbiddenMessage))
    else if path == "/" || path == "/index.html" then Static("/daily.html")
    else Static(rawPath)
  }

  /**
   * `/api/dates` answers 200 with every data file's date, as often as it
   * occurs, newest first, and nothing else; a listing that raised gives 500
   * with its message.
   */
  lemma DatesRoute(rawPath: string, listing: Result<seq<string>, string>, files: string -> FileState)
    ensures listing.Err? ==> Handle("/api/dates", rawPath, listing, files) == Reply(500, ErrorBody(listing.error))
    ensures listing.Ok? ==>
              var dates := SortDesc(Extract(listing.value), DateKey);
              Handle("/api/dates", rawPath, listing, files) == Reply(200, DateList(dates))
                && SortedDesc(dates, DateKey)
                && multiset(dates) == multiset(Extract(listing.value))
                && (forall k :: 0 <= k < |dates| ==> IsDate(dates[k]))
                && forall d :: d in dates <==> exists i :: 0 <= i < |listing.value| && DateOf(listing.value[i]) == Some(d)
  {
    if listing.Ok? {
      var names := listing.value;
      var dates := SortDesc(Extract(names), DateKey);
      assert SortedDesc(dates, DateKey)
          && multiset(dates) == multiset(Extract(names))
          && (forall k :: 0 <= k < |dates| ==> IsDate(dates[k]))
          && forall d :: d in dates <==> exists i :: 0 <= i < |names| && DateOf(names[i]) == Some(d)
      by {
        DatesListed(names);
      }
      assert Handle("/api/dates", rawPath, listing, files) == Reply(200, DateList(dates)) by {
        DatesReply(rawPath, names, files);
      }
    }
  }

  lemma DatesReply(rawPath: string, names: seq<string>, files: string -> FileState)
    ensures Handle("/api/dates", rawPath, Ok(names), files) == Reply(200, DateList(SortDesc(Extract(names), DateKey)))
  {
  }

  /** The two API routes never overlap. */
  lemma ApiDataIsNotDates(path: string)
    ensures StartsWith(path, "/api/data/") ==> path != "/api/dates"
  {
    if StartsWith(path, "/api/data/") {
      assert path[9] == '/' && "/api/dates"[9] == 's';
    }
  }

  /** A path under `/api/data/` with anything but an eight-digit date is answered 400. */
  lemma BadDate(rawPath: string, listing: Result<seq<string>, string>, files: string -> FileState)
    ensures Handle("/api/data/2025-01-01", rawPath, listing, files) == Reply(400, ErrorBody(BadDateMessage))
    ensures Handle("/api/data/latest", rawPath, listing, files) == Reply(400, ErrorBody(BadDateMessage))
    ensures Handle("/api/data/", rawPath, listing, files) == Reply(400, ErrorBody(BadDateMessage))
  {
    DashedDateRejected();
    WordDateRejected();
    EmptyDateRejected();
  }

  lemma DashedDateRejected()
    ensures ValidDate("/api/data/2025-01-01").None?
  {
    var pat, p := "/api/data/", "/api/data/2025-01-01";
    assert p[..|pat|] == pat && p[|pat|..] == "2025-01-01";
    assert "2025-01-01"[..|pat|] != pat by { assert "2025-01-01"[0] == '2'; }
    assert RemoveAll("2025-01-01", pat) == "2" + RemoveAll("025-01-01", pat);
    assert |RStripChar(RemoveAll(p, pat), '/')| == 10;
  }

  lemma WordDateRejected()
    ensures ValidDate("/api/data/latest").None?
  {
    var pat, p := "/api/data/", "/api/data/latest";
    assert p[..|pat|] == pat && p[|pat|..] == "latest";
    assert RStripChar(RemoveAll(p, pat), '/') == "latest";
  }

  lemma EmptyDateRejected()
    ensures ValidDate("/api/data/").None?
  {
    var pat, p := "/api/data/", "/api/data/";
    assert p[..|pat|] == pat && p[|pat|..] == "";
    assert RStripChar(RemoveAll(p, pat), '/') == "";
  }

  /** A data file is never handed to the static file server, whatever the path looks like. */
  lemma DataFilesNeverStatic(path: string, rawPath: string, listing: Result<seq<string>, string>,
                             files: string -> FileState)
    requires EndsWith(path, DataSuffix)
    ensures !Handle(path, rawPath, listing, files).Static?
    ensures !StartsWith(path, "/api/data/") ==> Handle(path, rawPath, listing, files) == Reply(403, ErrorBody(ForbiddenMessage))
  {
    assert path[|path| - 1] == DataSuffix[|DataSuffix| - 1] == 'n';
    assert "/api/dates"[9] == 's';
  }

  /**
   * A well-formed request for a day with no file yet is answered with the
   * empty document, which is the aggregate the tracker starts a day from
   * (a malformed date is a 400, see `BadDate`).
   */
  lemma DataRequests(d: string, slash: bool, rawPath: string, listing: Result<seq<string>, string>,
                     files: string -> FileState)
    requires IsDate(d)
    ensures var path := "/api/data/" + d + (if slash then "/" else "");
            match files(d + DataSuffix)
            case Missing => Handle(path, rawPath, listing, files) == Reply(200, Document(Empty))
            case Unreadable(m) => Handle(path, rawPath, listing, files) == Reply(500, ErrorBody(m))
            case Readable(doc) => Handle(path, rawPath, listing, files) == Reply(200, doc)
  {
    var path := "/api/data/" + d + (if slash then "/" else "");
    ValidDateOfApiPath(d, slash);
    assert path[..10] == "/api/data/";
    assert path != "/api/dates" by {
      assert |path| >= 18;
    }
  }

  /**
   * Any path under `/api/data/` whose date is accepted, extra trailing
   * slashes included, reads the data file of the accepted date.
   */
  lemma DataRequestsAt(path: string, rawPath: string, listing: Result<seq<string>, string>,
                       files: string -> FileState)
    requires StartsWith(path, "/api/data/") && ValidDate(path).Some?
    ensures var d := ValidDate(path).value;
            match files(d + DataSuffix)
            case Missing => Handle(path, rawPath, listing, files) == Reply(200, Document(Empty))
            case Unreadable(m) => Handle(path, rawPath, listing, files) == Reply(500, ErrorBody(m))
            case Readable(doc) => Handle(path, rawPath, listing, files) == Reply(200, doc)
  {
    ApiDataIsNotDates(path);
  }

  /** The empty document is `{"sessions": [], "idle_seconds": 0, "apps": {}}`. */
  lemma EmptyDocument()
    ensures Document(Empty) == JObj([("sessions", JList([])), ("idle_seconds", JNum(0)), ("apps", JObj([]))])
  {
    assert AppsJson([]) == [];
  }

  /** `/` and `/index.html` are served as `/daily.html`; every other plain page as requested. */
  lemma StaticRewrite(path: string, rawPath: string, listing: Result<seq<string>, string>,
                      files: string -> FileState)
    requires path != "/api/dates" && !StartsWith(path, "/api/data/") && !EndsWith(path, DataSuffix)
    ensures Handle(path, rawPath, listing, files)
            == Static(if path == "/" || path == "/index.html" then "/daily.html" else rawPath)
  {
  }
}
