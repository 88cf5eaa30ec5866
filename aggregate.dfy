/**
 * The daily aggregate `stats_data` and the one mutation the sampler makes
 * to its `apps` part: crediting one second to an (app, title) pair.
 */
module Aggregate {
  import opened Dict

  /** A JSON value as `json.load` returns it. Numbers are whole seconds. */
  datatype Json =
    | JNull
    | JBool(b: bool)
    | JNum(n: int)
    | JStr(s: string)
    | JList(items: seq<Json>)
    | JObj(fields: Dict<Json>)

  /** `{"total": t, "titles": {title: seconds, ...}}` */
  datatype AppUsage = AppUsage(total: int, titles: Dict<int>)

  /** `stats_data`: `{"sessions": [...], "idle_seconds": n, "apps": {...}}`. */
  datatype Aggregate = Aggregate(sessions: seq<Json>, idleSeconds: int, apps: Dict<AppUsage>)

  /** The aggregate a new day starts from. */
  const Empty: Aggregate := Aggregate([], 0, [])

  const Unused: AppUsage := AppUsage(0, [])

  function TitlesJson(titles: Dict<int>): Dict<Json> {
    seq(|titles|, i requires 0 <= i < |titles| => (titles[i].0, JNum(titles[i].1)))
  }

  function AppsJson(apps: Dict<AppUsage>): Dict<Json> {
    seq(|apps|, i requires 0 <= i < |apps| =>
      (apps[i].0, JObj([("total", JNum(apps[i].1.total)), ("titles", JObj(TitlesJson(apps[i].1.titles)))])))
  }

  /** The aggregate as the JSON document it is written as. */
  function Document(stats: Aggregate): Json {
    JObj([ ("sessions", JList(stats.sessions)),
           ("idle_seconds", JNum(stats.idleSeconds)),
           ("apps", JObj(AppsJson(stats.apps))) ])
  }

  /** No duplicate app and no duplicate title, as Python dicts guarantee. */
  ghost predicate WellFormed(apps: Dict<AppUsage>) {
    Distinct(apps) && forall a :: Has(apps, a) ==> Distinct(Get(apps, a).titles)
  }

  /** How far an app's stored total is from the sum of its titles. */
  function Gap(u: AppUsage): int {
    u.total - Sum(u.titles)
  }

  /** The `total == sum(titles)` invariant, for every app. */
  ghost predicate Consistent(apps: Dict<AppUsage>) {
    forall a :: Has(apps, a) ==> Gap(Get(apps, a)) == 0
  }

  /** The seconds credited to apps, over all apps. */
  function Credited(apps: Dict<AppUsage>): int {
    if |apps| == 0 then 0 else apps[0].1.total + Credited(apps[1..])
  }

  /**
   * One active second for `title` of `app`: the app entry and the title
   * entry are created at zero when absent, then the title's seconds and the
   * app's total each go up by one.
   */
  function RecordActivity(apps: Dict<AppUsage>, app: string, title: string): Dict<AppUsage> {
    var usage := GetOr(apps, app, Unused);
    Put(apps, app, Credit(usage, title))
  }

  function Credit(usage: AppUsage, title: string): AppUsage {
    AppUsage(usage.total + 1, Put(usage.titles, title, GetOr(usage.titles, title, 0) + 1))
  }

  /**
   * The effect of one recorded second on the apps: `app` now holds its old
   * usage (zero when absent) credited once, a new app goes last, and every
   * other app is unchanged.
   */
  lemma RecordActivityEffect(apps: Dict<AppUsage>, app: string, title: string)
    ensures Has(RecordActivity(apps, app, title), app)
    ensures Get(RecordActivity(apps, app, title), app) == Credit(GetOr(apps, app, Unused), title)
    ensures Keys(RecordActivity(apps, app, title)) == if Has(apps, app) then Keys(apps) else Keys(apps) + [app]
    ensures forall a :: a != app && Has(apps, a) ==> Get(RecordActivity(apps, app, title), a) == Get(apps, a)
  {
    PutGet(apps, app, Credit(GetOr(apps, app, Unused), title));
    PutKeys(apps, app, Credit(GetOr(apps, app, Unused), title));
  }

  /**
   * The effect on one app: its total and `title`'s seconds go up by one
   * (from zero when the title is new), a new title goes last, and every
   * other title keeps its seconds.
   */
  lemma CreditEffect(usage: AppUsage, title: string)
    ensures Credit(usage, title).total == usage.total + 1
    ensures Has(Credit(usage, title).titles, title)
    ensures Get(Credit(usage, title).titles, title) == GetOr(usage.titles, title, 0) + 1
    ensures Keys(Credit(usage, title).titles) == if Has(usage.titles, title) then Keys(usage.titles) else Keys(usage.titles) + [title]
    ensures forall t :: t != title && Has(usage.titles, t) ==> Get(Credit(usage, title).titles, t) == Get(usage.titles, t)
  {
    var v := GetOr(usage.titles, title, 0) + 1;
    var t := Put(usage.titles, title, v);
    PutGet(usage.titles, title, v);
    PutKeys(usage.titles, title, v);
    assert Credit(usage, title) == AppUsage(usage.total + 1, t);
  }

  /** Recording a second never changes any app's gap between total and title sum. */
  lemma RecordActivityKeepsGap(apps: Dict<AppUsage>, app: string, title: string)
    ensures var r := RecordActivity(apps, app, title);
            forall a :: Has(r, a) ==> Gap(Get(r, a)) == (if Has(apps, a) then Gap(Get(apps, a)) else 0)
  {
    var before := GetOr(apps, app, Unused);
    var after := Credit(before, title);
    PutGet(apps, app, after);
    PutKeys(apps, app, after);
    PutSum(before.titles, title, GetOr(before.titles, title, 0) + 1);
  }

  /** So `total == sum(titles)` survives every recorded second. */
  lemma RecordActivityConsistent(apps: Dict<AppUsage>, app: string, title: string)
    requires Consistent(apps)
    ensures Consistent(RecordActivity(apps, app, title))
  {
    RecordActivityKeepsGap(apps, app, title);
  }

  /** And no duplicate key appears. */
  lemma RecordActivityWellFormed(apps: Dict<AppUsage>, app: string, title: string)
    requires WellFormed(apps)
    ensures WellFormed(RecordActivity(apps, app, title))
  {
    var before := GetOr(apps, app, Unused);
    var after := Credit(before, title);
    PutGet(apps, app, after);
    PutKeys(apps, app, after);
    PutDistinct(apps, app, after);
    PutDistinct(before.titles, title, GetOr(before.titles, title, 0) + 1);
  }

  lemma {:induction false} CreditedPut(apps: Dict<AppUsage>, app: string, u: AppUsage)
    ensures Credited(Put(apps, app, u)) == Credited(apps) - GetOr(apps, app, Unused).total + u.total
  {
    if |apps| != 0 {
      KeysTail(apps);
      if apps[0].0 != app {
        CreditedPut(apps[1..], app, u);
      }
    }
  }

  /** One recorded second adds exactly one second to the apps' credited time. */
  lemma RecordActivityCredits(apps: Dict<AppUsage>, app: string, title: string)
    ensures Credited(RecordActivity(apps, app, title)) == Credited(apps) + 1
  {
    CreditedPut(apps, app, Credit(GetOr(apps, app, Unused), title));
  }
}
