/**
 * The report routes: the dashboard counters, the per-client case volume and
 * the time-to-close metrics. All of them only read. `now` is the clock in
 * milliseconds; report windows arrive as already parsed instants.
 */
module Reports {
  import opened Common
  import opened Model
  import opened Store
  import opened Query
  import opened AuthMiddleware

  // ---------------------------------------------------------------- dashboard

  /** The `where` every dashboard counter starts from: a client principal's
      own cases, or for a firm principal every case, narrowed to one client
      when the query names one. */
  predicate OnDashboard(user: Principal, clientId: Option<string>, c: Case) {
    && (user.Client? ==> c.clientId == user.clientId)
    && (user.Firm? && Truthy(clientId) ==> c.clientId == clientId.value)
  }

  predicate OpenCase(user: Principal, clientId: Option<string>, c: Case) {
    OnDashboard(user, clientId, c) && c.status != "CLOSED"
  }

  predicate ClosedCase(user: Principal, clientId: Option<string>, c: Case) {
    OnDashboard(user, clientId, c) && c.status == "CLOSED"
  }

  /** Filed, awaiting a hearing, or decided. */
  predicate FiledCase(user: Principal, clientId: Option<string>, c: Case) {
    OnDashboard(user, clientId, c) && (c.status == "FILED" || c.status == "HEARING_SCHEDULED" || c.status == "JUDGMENT")
  }

  /** A hearing within the coming seven days. */
  predicate HearingSoon(user: Principal, clientId: Option<string>, now: int, c: Case) {
    OnDashboard(user, clientId, c) && c.hearingDate.Some? && now <= c.hearingDate.value <= now + 7 * DayMs
  }

  datatype Dashboard = Dashboard(totalCases: nat, openCases: nat, filedCases: nat, closedCases: nat, upcomingHearings: nat)

  /** GET /reports/dashboard. */
  function GetDashboard(t: Tables, user: Principal, clientId: Option<string>, now: int): (d: Dashboard)
    ensures d.totalCases == Count(t.cases, (c: Case) => OnDashboard(user, clientId, c))
    ensures d.openCases == |set k | k in t.cases && OnDashboard(user, clientId, t.cases[k]) && t.cases[k].status != "CLOSED"|
    ensures d.closedCases == |set k | k in t.cases && OnDashboard(user, clientId, t.cases[k]) && t.cases[k].status == "CLOSED"|
    ensures d.filedCases == |set k | k in t.cases && OnDashboard(user, clientId, t.cases[k]) &&
                                     t.cases[k].status in ["FILED", "HEARING_SCHEDULED", "JUDGMENT"]|
    ensures d.upcomingHearings == |set k | k in t.cases && OnDashboard(user, clientId, t.cases[k]) &&
                                           t.cases[k].hearingDate.Some? &&
                                           now <= t.cases[k].hearingDate.value <= now + 7 * DayMs|
    ensures d.openCases + d.closedCases == d.totalCases
    ensures d.filedCases <= d.openCases
    ensures d.upcomingHearings <= d.totalCases
  {
    var d := Dashboard(
      Count(t.cases, (c: Case) => OnDashboard(user, clientId, c)),
      Count(t.cases, (c: Case) => OpenCase(user, clientId, c)),
      Count(t.cases, (c: Case) => FiledCase(user, clientId, c)),
      Count(t.cases, (c: Case) => ClosedCase(user, clientId, c)),
      Count(t.cases, (c: Case) => HearingSoon(user, clientId, now, c)));
    DashboardSets(t.cases, user, clientId, now);
    OpenClosedSplit(t.cases, user, clientId);
    FiledAreOpen(t.cases, user, clientId);
    SubCount(t.cases, (c: Case) => HearingSoon(user, clientId, now, c), (c: Case) => OnDashboard(user, clientId, c));
    d
  }

  /** The rows each counter of the dashboard counts. */
  lemma DashboardSets(cases: map<Id, Case>, user: Principal, clientId: Option<string>, now: int)
    ensures KeysWhere(cases, (c: Case) => OpenCase(user, clientId, c)) ==
            set k | k in cases && OnDashboard(user, clientId, cases[k]) && cases[k].status != "CLOSED"
    ensures KeysWhere(cases, (c: Case) => ClosedCase(user, clientId, c)) ==
            set k | k in cases && OnDashboard(user, clientId, cases[k]) && cases[k].status == "CLOSED"
    ensures KeysWhere(cases, (c: Case) => HearingSoon(user, clientId, now, c)) ==
            set k | k in cases && OnDashboard(user, clientId, cases[k]) && cases[k].hearingDate.Some? &&
                    now <= cases[k].hearingDate.value <= now + 7 * DayMs
    ensures KeysWhere(cases, (c: Case) => FiledCase(user, clientId, c)) ==
            set k | k in cases && OnDashboard(user, clientId, cases[k]) &&
                    cases[k].status in ["FILED", "HEARING_SCHEDULED", "JUDGMENT"]
  {
  }

  /** Every case on the dashboard is either open or closed. */
  lemma OpenClosedSplit(cases: map<Id, Case>, user: Principal, clientId: Option<string>)
    ensures Count(cases, (c: Case) => OpenCase(user, clientId, c)) + Count(cases, (c: Case) => ClosedCase(user, clientId, c)) ==
            Count(cases, (c: Case) => OnDashboard(user, clientId, c))
  {
    var a := KeysWhere(cases, (c: Case) => OpenCase(user, clientId, c));
    var b := KeysWhere(cases, (c: Case) => ClosedCase(user, clientId, c));
    assert a * b == {};
    assert a + b == KeysWhere(cases, (c: Case) => OnDashboard(user, clientId, c));
  }

  /** A filed case is still open: the filed counter never passes the open one. */
  lemma FiledAreOpen(cases: map<Id, Case>, user: Principal, clientId: Option<string>)
    ensures Count(cases, (c: Case) => FiledCase(user, clientId, c)) <= Count(cases, (c: Case) => OpenCase(user, clientId, c))
  {
    SubCount(cases, (c: Case) => FiledCase(user, clientId, c), (c: Case) => OpenCase(user, clientId, c));
  }

  /** A narrower filter counts no more rows. */
  lemma SubCount(cases: map<Id, Case>, p: Case -> bool, q: Case -> bool)
    requires forall c :: p(c) ==> q(c)
    ensures Count(cases, p) <= Count(cases, q)
  {
    var a := KeysWhere(cases, p);
    var b := KeysWhere(cases, q);
    assert a <= b;
    assert b == a + (b - a);
  }

  // ---------------------------------------------------------------- case volume

  /** The `createdAt` window of a report: each bound applies when given. */
  predicate InWindow(start: Option<int>, end: Option<int>, at: int) {
    (start.Some? ==> start.value <= at) && (end.Some? ==> at <= end.value)
  }

  datatype VolumeRow = VolumeRow(clientId: Id, clientName: string, totalCases: nat, openCases: nat, closedCases: nat)

  predicate VolumeCase(clientId: Id, start: Option<int>, end: Option<int>, c: Case) {
    c.clientId == clientId && InWindow(start, end, c.createdAt)
  }

  /** One client's line of the report: its cases created in the window,
      split into open and closed. */
  function VolumeOf(cases: map<Id, Case>, client: MgmtClient, start: Option<int>, end: Option<int>): (r: VolumeRow)
    ensures r.clientId == client.id && r.clientName == client.name
    ensures r.totalCases == Count(cases, (c: Case) => VolumeCase(client.id, start, end, c))
    ensures r.openCases + r.closedCases == r.totalCases
    ensures r.closedCases == Count(cases, (c: Case) => VolumeCase(client.id, start, end, c) && c.status == "CLOSED")
  {
    var all := KeysWhere(cases, (c: Case) => VolumeCase(client.id, start, end, c));
    var open := KeysWhere(cases, (c: Case) => VolumeCase(client.id, start, end, c) && c.status != "CLOSED");
    var closed := KeysWhere(cases, (c: Case) => VolumeCase(client.id, start, end, c) && c.status == "CLOSED");
    assert open * closed == {};
    assert open + closed == all;
    VolumeRow(client.id, client.name, |all|, |open|, |closed|)
  }

  /** The firm's clients the report covers. */
  predicate ReportedClient(user: Principal, clientId: Option<string>, cl: MgmtClient) {
    user.Firm? && cl.lawFirmId == user.lawFirmId && (Truthy(clientId) ==> cl.id == clientId.value)
  }

  function ClientIdOrder(cl: MgmtClient): Key {
    [Query.Str(cl.id)]
  }

  datatype VolumeQuery = VolumeQuery(startDate: Option<int>, endDate: Option<int>, clientId: Option<string>)

  /** GET /reports/case-volume: one line per client of the caller's firm. */
  method CaseVolume(db: Db, user: Principal, q: VolumeQuery) returns (res: Response<seq<VolumeRow>>)
    ensures !user.Firm? ==> res == Forbidden("Firm user access required")
    ensures user.Firm? ==> res.Ok?
    ensures res.Ok? ==> exists cls ::
      && IsListing(cls, db.tables.clients, (cl: MgmtClient) => ReportedClient(user, q.clientId, cl), ClientIdOrder)
      && |res.body| == |cls|
      && forall i :: 0 <= i < |cls| ==> res.body[i] == VolumeOf(db.tables.cases, cls[i], q.startDate, q.endDate)
  {
    var gate := RequireFirmUser(Some(user));
    if !gate.Ok? {
      return Relay(gate);
    }
    var cls := Select(db.tables.clients, (cl: MgmtClient) => ReportedClient(user, q.clientId, cl), ClientIdOrder);
    var cases := db.tables.cases;
    res := Ok(MapAll(cls, (cl: MgmtClient) => VolumeOf(cases, cl, q.startDate, q.endDate)));
  }

  // ---------------------------------------------------------------- timeline

  /** `Math.floor((to - from) / day)`: whole days, rounded down. */
  function DaysBetween(from: int, to: int): (d: int)
    ensures d * DayMs <= to - from < (d + 1) * DayMs
  {
    (to - from) / DayMs
  }

  /** A case with both a filing and a closing date. */
  predicate Dated(c: Case) {
    c.filedDate.Some? && c.closedDate.Some?
  }

  function DaysToClose(c: Case): int
    requires Dated(c)
  {
    DaysBetween(c.filedDate.value, c.closedDate.value)
  }

  /** The days to close of the dated cases, in order. */
  function CloseDays(rows: seq<Case>): (r: seq<int>)
    ensures |r| <= |rows|
    ensures forall c :: c in rows && Dated(c) ==> DaysToClose(c) in r
    ensures forall d :: d in r ==> exists c :: c in rows && Dated(c) && d == DaysToClose(c)
  {
    if rows == [] then []
    else
      var rest := CloseDays(rows[1..]);
      assert forall c :: c in rows ==> c == rows[0] || c in rows[1..];
      if Dated(rows[0]) then [DaysToClose(rows[0])] + rest else rest
  }

  function MinOf(s: seq<int>): (r: int)
    requires s != []
    ensures r in s && forall x :: x in s ==> r <= x
  {
    if |s| == 1 then s[0]
    else
      var m := MinOf(s[1..]);
      assert forall x :: x in s ==> x == s[0] || x in s[1..];
      Min(s[0], m)
  }

  function MaxOf(s: seq<int>): (r: int)
    requires s != []
    ensures r in s && forall x :: x in s ==> x <= r
  {
    if |s| == 1 then s[0]
    else
      var m := MaxOf(s[1..]);
      assert forall x :: x in s ==> x == s[0] || x in s[1..];
      Max(s[0], m)
  }

  /** Whole days from filing to judgment, for the dated cases that have a
      judgment date, in order. */
  function JudgmentDays(rows: seq<Case>): (r: seq<int>)
    ensures |r| <= |CloseDays(rows)|
    ensures forall c :: c in rows && Dated(c) && c.judgmentDate.Some? ==>
      DaysBetween(c.filedDate.value, c.judgmentDate.value) in r
  {
    if rows == [] then []
    else
      var rest := JudgmentDays(rows[1..]);
      assert forall c :: c in rows ==> c == rows[0] || c in rows[1..];
      if Dated(rows[0]) && rows[0].judgmentDate.Some? then
        [DaysBetween(rows[0].filedDate.value, rows[0].judgmentDate.value)] + rest
      else rest
  }

  /** Conversely, every figure comes from a dated case with a judgment. */
  lemma {:induction false} JudgmentDaysFromJudgments(rows: seq<Case>)
    ensures forall d :: d in JudgmentDays(rows) ==>
      exists c :: c in rows && Dated(c) && c.judgmentDate.Some? && d == DaysBetween(c.filedDate.value, c.judgmentDate.value)
  {
    if rows != [] {
      JudgmentDaysFromJudgments(rows[1..]);
      forall d | d in JudgmentDays(rows)
        ensures exists c :: c in rows && Dated(c) && c.judgmentDate.Some? && d == DaysBetween(c.filedDate.value, c.judgmentDate.value)
      {
        if d in JudgmentDays(rows[1..]) {
          var c :| c in rows[1..] && Dated(c) && c.judgmentDate.Some? && d == DaysBetween(c.filedDate.value, c.judgmentDate.value);
          assert c in rows;
        } else {
          assert rows[0] in rows;
        }
      }
    }
  }

  function Sum(s: seq<int>): int {
    if s == [] then 0 else s[0] + Sum(s[1..])
  }

  /** An average as JavaScript computes it before rounding: the literal 0, or
      a sum divided by a count, which is NaN when the count is 0. */
  datatype Average = Zero | Quotient(sum: int, count: nat)

  predicate IsNaN(a: Average) {
    a.Quotient? && a.count == 0
  }

  /** The mean of a list of day counts, 0 for none. */
  function MeanOf(s: seq<int>): (a: Average)
    ensures !IsNaN(a)
    ensures s != [] ==> a.Quotient? && a.count == |s| && |s| * MinOf(s) <= a.sum <= |s| * MaxOf(s)
  {
    if s == [] then Zero
    else
      SumWithin(s, MinOf(s), MaxOf(s));
      Quotient(Sum(s), |s|)
  }

  /** A sum of values between two bounds lies between the bounds times the
      number of values. */
  lemma {:induction false} SumWithin(s: seq<int>, lo: int, hi: int)
    requires forall x :: x in s ==> lo <= x <= hi
    ensures |s| * lo <= Sum(s) <= |s| * hi
  {
    if s != [] {
      assert forall x :: x in s[1..] ==> x in s;
      SumWithin(s[1..], lo, hi);
      assert s[0] in s && Sum(s) == s[0] + Sum(s[1..]);
      MulSucc(|s| - 1, lo);
      MulSucc(|s| - 1, hi);
    }
  }

  lemma MulSucc(n: int, x: int)
    ensures (n + 1) * x == n * x + x
  {
  }

  /** avgDaysToJudgment as written: with dated cases present, the judgment
      days are summed and divided by the number of cases that have one,
      even when that number is 0. */
  function JudgmentMeanAsWritten(rows: seq<Case>): (a: Average)
    ensures CloseDays(rows) == [] ==> a == Zero
    ensures CloseDays(rows) != [] ==> a == Quotient(Sum(JudgmentDays(rows)), |JudgmentDays(rows)|)
  {
    if CloseDays(rows) == [] then Zero else Quotient(Sum(JudgmentDays(rows)), |JudgmentDays(rows)|)
  }

  /** One closed case with a filing and a closing date but no judgment date
      makes the average days to judgment NaN, which reaches the client as
      null. */
  lemma JudgmentMeanNaN(c: Case)
    requires Dated(c) && c.judgmentDate.None?
    ensures IsNaN(JudgmentMeanAsWritten([c]))
  {
    assert CloseDays([c]) != [] by {
      assert c in [c];
    }
    assert JudgmentDays([c]) == [] by {
      assert JudgmentDays([c][1..]) == [];
    }
  }

  /** The average days to judgment over the cases that have a judgment,
      0 when none has. */
  function JudgmentMean(rows: seq<Case>): (a: Average)
    ensures !IsNaN(a)
    ensures JudgmentDays(rows) != [] ==> a == JudgmentMeanAsWritten(rows)
  {
    MeanOf(JudgmentDays(rows))
  }

  datatype Timeline = Timeline(totalCases: nat, avgDaysToJudgment: Average, avgDaysToClose: Average,
                               minDaysToClose: int, maxDaysToClose: int)

  /** The metrics of the closed cases fetched, as written: all of them
      counted, the averages and extremes taken over those with both dates,
      0 when there are none; the average days to judgment is NaN exactly
      when there are such cases and none of them has a judgment date. */
  function Metrics(rows: seq<Case>): (m: Timeline)
    ensures m.totalCases == |rows|
    ensures IsNaN(m.avgDaysToJudgment) <==> CloseDays(rows) != [] && JudgmentDays(rows) == []
    ensures JudgmentDays(rows) != [] ==> m.avgDaysToJudgment == JudgmentMean(rows)
    ensures !IsNaN(m.avgDaysToClose)
    ensures CloseDays(rows) == [] ==> m.avgDaysToJudgment == Zero && m.avgDaysToClose == Zero && m.minDaysToClose == 0 && m.maxDaysToClose == 0
    ensures CloseDays(rows) != [] ==>
      && m.minDaysToClose in CloseDays(rows) && m.maxDaysToClose in CloseDays(rows)
      && (forall c :: c in rows && Dated(c) ==> m.minDaysToClose <= DaysToClose(c) <= m.maxDaysToClose)
      && m.avgDaysToClose == Quotient(Sum(CloseDays(rows)), |CloseDays(rows)|)
      && m.avgDaysToClose.count * m.minDaysToClose <= m.avgDaysToClose.sum <= m.avgDaysToClose.count * m.maxDaysToClose
  {
    var ds := CloseDays(rows);
    var mean := MeanOf(ds);
    if ds == [] then Timeline(|rows|, JudgmentMeanAsWritten(rows), mean, 0, 0)
    else Timeline(|rows|, JudgmentMeanAsWritten(rows), mean, MinOf(ds), MaxOf(ds))
  }

  /** The metrics as evidently intended: the same figures, with an average
      days to judgment that is never NaN. They differ from the written ones
      only where the written average is NaN. */
  function MetricsIntended(rows: seq<Case>): (m: Timeline)
    ensures !IsNaN(m.avgDaysToJudgment) && !IsNaN(m.avgDaysToClose)
    ensures m.avgDaysToJudgment == JudgmentMean(rows)
    ensures !IsNaN(Metrics(rows).avgDaysToJudgment) ==> m == Metrics(rows)
    ensures m.(avgDaysToJudgment := Zero) == Metrics(rows).(avgDaysToJudgment := Zero)
  {
    Metrics(rows).(avgDaysToJudgment := JudgmentMean(rows))
  }

  /** The case set of the timeline: closed cases of the caller's firm
      closed within the window. */
  predicate TimelineCase(clients: map<Id, MgmtClient>, lawFirmId: Id, start: Option<int>, end: Option<int>, c: Case) {
    && c.status == "CLOSED"
    && (start.Some? || end.Some? ==> c.closedDate.Some? && InWindow(start, end, c.closedDate.value))
    && c.clientId in clients && clients[c.clientId].lawFirmId == lawFirmId
  }

  function CaseIdOrder(c: Case): Key {
    [Query.Str(c.id)]
  }

  /** GET /reports/timeline-metrics. */
  method TimelineMetrics(db: Db, user: Principal, start: Option<int>, end: Option<int>) returns (res: Response<Timeline>)
    ensures !user.Firm? ==> res == Forbidden("Firm user access required")
    ensures user.Firm? ==> res.Ok?
    ensures res.Ok? ==> var clients := db.tables.clients; exists rows ::
      && IsListing(rows, db.tables.cases, (c: Case) => TimelineCase(clients, user.lawFirmId, start, end, c), CaseIdOrder)
      && res.body == Metrics(rows)
  {
    var gate := RequireFirmUser(Some(user));
    if !gate.Ok? {
      return Relay(gate);
    }
    var clients := db.tables.clients;
    var rows := Select(db.tables.cases, (c: Case) => TimelineCase(clients, user.lawFirmId, start, end, c), CaseIdOrder);
    res := Ok(Metrics(rows));
  }
}
