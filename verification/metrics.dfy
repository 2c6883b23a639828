/** The metrics route: validates a date range, builds one mock row per day
    of the inclusive range from random factors, sums the daily counters and
    derives the ratios with their zero guards.

    Dates are day ordinals; parsing is a parameter (None for an invalid
    date). The `Math.random()` draws are parameters in [0, 1). */
module Metrics {
  import opened Wrappers
  import opened Http

  /** A value of `Math.random()`. */
  type Unit = r: real | 0.0 <= r < 1.0

  /** The five draws made for one day, in the order the route makes them. */
  datatype DayDraw = DayDraw(impressions: Unit, clickRate: Unit, costPerClick: Unit,
                             conversionRate: Unit, revenuePerConversion: Unit)

  /** The draw for the campaign factor and the draws for each day index. */
  datatype Randomness = Randomness(campaign: Unit, day: nat -> DayDraw)

  datatype MetricsRequest = MetricsRequest(verb: string, startDate: Option<QueryValue>,
                                           endDate: Option<QueryValue>, campaignId: Option<QueryValue>)

  datatype DailyMetric = DailyMetric(date: int, clicks: nat, impressions: nat, conversions: nat,
                                     cost: real, revenue: real)

  /** The five summed counters. */
  datatype Counters = Counters(clicks: nat, impressions: nat, conversions: nat, cost: real, revenue: real)

  datatype Totals = Totals(clicks: nat, impressions: nat, conversions: nat, cost: real, revenue: real,
                           ctr: real, cpc: real, conversionRate: real, costPerConversion: real,
                           roi: real)

  datatype MetricsBody = Data(totals: Totals, dailyData: seq<DailyMetric>) | Message(text: string)

  datatype MetricsResponse = MetricsResponse(status: int, body: MetricsBody, allow: seq<string>)

  const MissingDatesMessage: string := "startDate e endDate são obrigatórios."

  /** The ROI reported when there is revenue but no cost (the route maps
      an infinite ROI to this value). */
  const RoiSentinel: real := 10000.0

  // ---------------------------------------------------------------------
  // Per-day mock values

  /** `!campaignId || campaignId === 'all'`. */
  predicate AllCampaigns(campaignId: Option<QueryValue>) {
    campaignId.None? || campaignId == Some(Single("")) || campaignId == Some(Single("all"))
  }

  /** Share of the traffic attributed to the selected campaign. */
  function CampaignFactor(campaignId: Option<QueryValue>, draw: Unit): (f: real)
    ensures AllCampaigns(campaignId) ==> f == 1.0
    ensures !AllCampaigns(campaignId) ==> 0.2 <= f < 0.8
  {
    if AllCampaigns(campaignId) then 1.0 else 0.2 + draw * 0.6
  }

  /** `Math.floor` of a non-negative number. */
  function FloorNat(x: real): (n: nat)
    requires x >= 0.0
    ensures n as real <= x < n as real + 1.0
  {
    x.Floor
  }

  lemma FloorOfScaledDown(n: nat, rate: real)
    requires 0.0 <= rate < 1.0
    ensures FloorNat(n as real * rate) <= n
  {
    assert n as real * rate <= n as real;
    var f := FloorNat(n as real * rate);
    assert f as real <= n as real;
  }

  lemma ScaleDown(x: real, factor: real, days: nat)
    requires x >= 0.0 && 0.0 < factor <= 1.0 && days >= 1
    ensures 0.0 <= x * factor / days as real <= x
  {
    assert x * factor <= x;
    assert x * factor / days as real <= x * factor;
  }

  /** `Math.floor((10000 + r * 40000) * campaignFactor / days)`. */
  function DayImpressions(days: nat, factor: real, r: Unit): (n: nat)
    requires days >= 1 && 0.0 < factor <= 1.0
    ensures n < 50000
  {
    var base := 10000.0 + r * 40000.0;
    ScaleDown(base, factor, days);
    FloorNat(base * factor / days as real)
  }

  /** `Math.floor(n * (low + r * span))` for a rate below 1. */
  function ShareOf(n: nat, low: real, span: real, r: Unit): (k: nat)
    requires 0.0 <= low && 0.0 < span && low + span <= 1.0
    ensures k <= n
  {
    var rate := low + r * span;
    assert 0.0 <= r * span < span;
    FloorOfScaledDown(n, rate);
    FloorNat(n as real * rate)
  }

  /** `n * (low + r * span)` for a positive lower bound. */
  function Amount(n: nat, low: real, span: real, r: Unit): (a: real)
    requires 0.0 < low && 0.0 <= span
    ensures 0.0 <= a
    ensures a == 0.0 <==> n == 0
  {
    n as real * (low + r * span)
  }

  /** One day's row, from its date, the number of days, the campaign factor
      and the day's draws. */
  function Day(date: int, days: nat, factor: real, d: DayDraw): (m: DailyMetric)
    requires days >= 1 && 0.0 < factor <= 1.0
    ensures m.date == date
    ensures m.conversions <= m.clicks <= m.impressions < 50000
    ensures 0.0 <= m.cost && 0.0 <= m.revenue
    ensures m.cost == 0.0 <==> m.clicks == 0
    ensures m.conversions == 0 <==> m.revenue == 0.0
  {
    var impressions := DayImpressions(days, factor, d.impressions);
    var clicks := ShareOf(impressions, 0.01, 0.04, d.clickRate);
    var cost := Amount(clicks, 0.50, 1.50, d.costPerClick);
    var conversions := ShareOf(clicks, 0.02, 0.08, d.conversionRate);
    var revenue := Amount(conversions, 50.0, 150.0, d.revenuePerConversion);
    DailyMetric(date, clicks, impressions, conversions, cost, revenue)
  }

  // ---------------------------------------------------------------------
  // Totals and derived ratios

  /** The counters after adding one row. */
  function Add(c: Counters, d: DailyMetric): Counters {
    Counters(c.clicks + d.clicks, c.impressions + d.impressions, c.conversions + d.conversions,
             c.cost + d.cost, c.revenue + d.revenue)
  }

  /** The counters summed over the rows. */
  function Sum(ds: seq<DailyMetric>): Counters {
    if ds == [] then Counters(0, 0, 0, 0.0, 0.0)
    else Add(Sum(ds[..|ds| - 1]), ds[|ds| - 1])
  }

  /** What every generated row satisfies. */
  predicate WellFormedDay(d: DailyMetric) {
    && d.conversions <= d.clicks <= d.impressions
    && 0.0 <= d.cost && 0.0 <= d.revenue
    && (d.cost == 0.0 <==> d.clicks == 0)
    && (d.conversions == 0 <==> d.revenue == 0.0)
  }

  /** The per-day ordering and the zero couplings carry over to the sums. */
  lemma {:induction false} SumKeepsDayProperties(ds: seq<DailyMetric>)
    requires forall i :: 0 <= i < |ds| ==> WellFormedDay(ds[i])
    ensures var s := Sum(ds);
      && s.conversions <= s.clicks <= s.impressions
      && 0.0 <= s.cost && 0.0 <= s.revenue
      && (s.cost == 0.0 <==> s.clicks == 0)
      && (s.conversions == 0 <==> s.revenue == 0.0)
  {
    if ds != [] {
      SumKeepsDayProperties(ds[..|ds| - 1]);
    }
  }

  /** `part / whole * 100`, or 0 when `whole` is 0. */
  function Percent(part: nat, whole: nat): (p: real)
    ensures whole == 0 ==> p == 0.0
    ensures part <= whole ==> 0.0 <= p <= 100.0
    ensures whole > 0 ==> p * whole as real == part as real * 100.0
  {
    if whole > 0 then
      var q := part as real / whole as real;
      assert q * whole as real == part as real;
      assert part <= whole ==> q <= 1.0;
      q * 100.0
    else 0.0
  }

  /** `amount / count`, or 0 when `count` is 0. */
  function PerUnit(amount: real, count: nat): (r: real)
    ensures count == 0 ==> r == 0.0
    ensures count > 0 ==> r * count as real == amount
  {
    if count > 0 then amount / count as real else 0.0
  }

  /** ROI in percent; with no cost, the sentinel if there is revenue and
      0 otherwise. */
  function Roi(revenue: real, cost: real): (r: real)
    ensures cost > 0.0 ==> r * cost == (revenue - cost) * 100.0
    ensures cost <= 0.0 ==> r == if revenue > 0.0 then RoiSentinel else 0.0
  {
    if cost > 0.0 then ((revenue - cost) / cost) * 100.0
    else if revenue > 0.0 then RoiSentinel else 0.0
  }

  /** The totals with `ctr`, `cpc`, conversion rate, cost per conversion
      and ROI, each guarded against a zero denominator. */
  function Derive(c: Counters): (t: Totals)
    ensures t.clicks == c.clicks && t.impressions == c.impressions && t.conversions == c.conversions
    ensures t.cost == c.cost && t.revenue == c.revenue
    ensures c.impressions == 0 ==> t.ctr == 0.0
    ensures c.clicks == 0 ==> t.cpc == 0.0 && t.conversionRate == 0.0
    ensures c.conversions == 0 ==> t.costPerConversion == 0.0
    ensures c.clicks <= c.impressions ==> 0.0 <= t.ctr <= 100.0
    ensures c.conversions <= c.clicks ==> 0.0 <= t.conversionRate <= 100.0
    ensures c.cost > 0.0 ==> t.roi * c.cost == (c.revenue - c.cost) * 100.0
    ensures c.cost <= 0.0 ==> (t.roi == if c.revenue > 0.0 then RoiSentinel else 0.0)
  {
    Totals(c.clicks, c.impressions, c.conversions, c.cost, c.revenue,
           Percent(c.clicks, c.impressions), PerUnit(c.cost, c.clicks),
           Percent(c.conversions, c.clicks), PerUnit(c.cost, c.conversions),
           Roi(c.revenue, c.cost))
  }

  // ---------------------------------------------------------------------
  // The handler

  /** Parses an ISO date into a day ordinal; None for an invalid date. */
  type DateParser = string -> Option<int>

  /** Both query dates are non-empty strings that parse, and the end is not
      before the start. */
  predicate ValidRange(req: MetricsRequest, parse: DateParser) {
    && IsNonEmptyString(req.startDate) && IsNonEmptyString(req.endDate)
    && parse(req.startDate.value.text).Some? && parse(req.endDate.value.text).Some?
    && parse(req.startDate.value.text).value <= parse(req.endDate.value.text).value
  }

  function StartDay(req: MetricsRequest, parse: DateParser): int
    requires ValidRange(req, parse)
  {
    parse(req.startDate.value.text).value
  }

  /** Number of days of the inclusive range. */
  function DayCount(req: MetricsRequest, parse: DateParser): (n: nat)
    requires ValidRange(req, parse)
    ensures n >= 1
  {
    parse(req.endDate.value.text).value - parse(req.startDate.value.text).value + 1
  }

  /** The loop of the route: one row per day of the range, each produced by
      `row` from its offset into the range, with the running totals
      accumulated alongside. */
  method BuildDaily(days: nat, row: nat -> DailyMetric) returns (daily: seq<DailyMetric>, total: Counters)
    ensures |daily| == days
    ensures forall k :: 0 <= k < days ==> daily[k] == row(k)
    ensures total == Sum(daily)
  {
    daily := [];
    total := Counters(0, 0, 0, 0.0, 0.0);
    var i := 0;
    while i < days
      invariant 0 <= i <= days
      invariant |daily| == i
      invariant forall k :: 0 <= k < i ==> daily[k] == row(k)
      invariant total == Sum(daily)
    {
      var d := row(i);
      assert (daily + [d])[..|daily|] == daily;
      daily := daily + [d];
      total := Add(total, d);
      i := i + 1;
    }
  }

  /** The body of a successful reply: the rows of the range and the totals
      derived from their sums. */
  method Report(start: int, days: nat, factor: real, rnd: Randomness) returns (body: MetricsBody)
    requires days >= 1 && 0.0 < factor <= 1.0
    ensures body.Data? && |body.dailyData| == days
    ensures forall i :: 0 <= i < days ==> body.dailyData[i].date == start + i
    ensures forall i :: 0 <= i < days ==> body.dailyData[i] == Day(start + i, days, factor, rnd.day(i))
    ensures body.totals == Derive(Sum(body.dailyData))
    ensures body.totals.conversions <= body.totals.clicks <= body.totals.impressions
    ensures body.totals.cost == 0.0 ==> body.totals.roi == 0.0
  {
    var daily, total := BuildDaily(days, (k: nat) => Day(start + k, days, factor, rnd.day(k)));
    assert forall i :: 0 <= i < days ==> daily[i] == Day(start + i, days, factor, rnd.day(i));
    SumKeepsDayProperties(daily);
    body := Data(Derive(total), daily);
  }

  method Handle(req: MetricsRequest, parse: DateParser, rnd: Randomness) returns (resp: MetricsResponse)
    ensures req.verb != "GET" <==> resp.status == 405
    ensures resp.status == 405 ==>
      resp.allow == ["GET"] && resp.body == Message("Método " + req.verb + " Não Permitido")
    ensures req.verb == "GET" && !(IsNonEmptyString(req.startDate) && IsNonEmptyString(req.endDate)) ==>
      resp == MetricsResponse(400, Message(MissingDatesMessage), [])
    ensures req.verb == "GET" && IsNonEmptyString(req.startDate) && IsNonEmptyString(req.endDate)
            && !ValidRange(req, parse) ==>
      resp == MetricsResponse(400, Message("Datas inválidas: " + req.startDate.value.text + " / "
                                           + req.endDate.value.text), [])
    ensures resp.status == 200 <==> req.verb == "GET" && ValidRange(req, parse)
    ensures resp.status in {200, 400, 405}
    ensures resp.status == 200 ==>
      var days := DayCount(req, parse);
      var start := StartDay(req, parse);
      var factor := CampaignFactor(req.campaignId, rnd.campaign);
      && resp.body.Data?
      && |resp.body.dailyData| == days
      && (forall i :: 0 <= i < days ==> resp.body.dailyData[i].date == start + i)
      && (forall i :: 0 <= i < days ==>
            resp.body.dailyData[i] == Day(start + i, days, factor, rnd.day(i)))
      && resp.body.totals == Derive(Sum(resp.body.dailyData))
      && resp.body.totals.conversions <= resp.body.totals.clicks <= resp.body.totals.impressions
      && (resp.body.totals.cost == 0.0 ==> resp.body.totals.roi == 0.0)
  {
    if req.verb != "GET" {
      return MetricsResponse(405, Message("Método " + req.verb + " Não Permitido"), ["GET"]);
    }
    if !IsNonEmptyString(req.startDate) || !IsNonEmptyString(req.endDate) {
      return MetricsResponse(400, Message(MissingDatesMessage), []);
    }
    var startText := req.startDate.value.text;
    var endText := req.endDate.value.text;
    var start := parse(startText);
    var end := parse(endText);
    if start.None? || end.None? || end.value < start.value {
      return MetricsResponse(400, Message("Datas inválidas: " + startText + " / " + endText), []);
    }
    var days: nat := end.value - start.value + 1;
    var factor := CampaignFactor(req.campaignId, rnd.campaign);

    var body := Report(start.value, days, factor, rnd);
    resp := MetricsResponse(200, body, []);
  }

  /** With the mock's factors a day without cost has no clicks and hence no
      revenue, so the sentinel ROI is never reported by a successful reply. */
  lemma RoiSentinelNeverReported(ds: seq<DailyMetric>)
    requires forall i :: 0 <= i < |ds| ==> WellFormedDay(ds[i])
    ensures Sum(ds).cost <= 0.0 ==> Derive(Sum(ds)).roi == 0.0
  {
    SumKeepsDayProperties(ds);
  }
}
