/** The second shell's report tables (`services/supabase.ts`): the stored
    shapes, an in-memory table and the equality filters its queries use.
    The key and creation time the backend adds are not part of the model. */
module Shell2 {
  import opened Wrappers
  import opened Seqs
  import opened Accounts
  import opened ReportTable

  /** A stored report of one of the four tables; every variant has an owner and a month. */
  datatype Report =
    | SocialMediaReport(userId: UserId, month: string, followerCount: int, postCount: int,
                        mostEngagementLink: string, leastEngagementLink: string)
    | MediaReport(userId: UserId, month: string, status: MediaStatus, newsTopic: string,
                  accessLink: string, newsSources: seq<string>)
      /** Bounce rate and session duration in hundredths. */
    | WebsiteAnalytics(userId: UserId, month: string, visitorCount: int, pageViews: int,
                       bounceRate: int, avgSessionDuration: int, conversions: int, topPages: seq<string>)
    | RpaReport(userId: UserId, month: string, incomingMailCount: int, distributedMailCount: int,
                topDistributionUnits: seq<string>)

  function TableOf(r: Report): Kind
  {
    match r
    case SocialMediaReport(_, _, _, _, _, _) => SocialMediaKind
    case MediaReport(_, _, _, _, _, _) => MediaKind
    case WebsiteAnalytics(_, _, _, _, _, _, _, _) => WebsiteAnalyticsKind
    case RpaReport(_, _, _, _, _) => RpaKind
  }

  /** A `select('*')` with the `eq` constraints added so far on `month` and `user_id`. */
  datatype Query = Query(monthEq: Option<string>, userEq: Option<UserId>)

  predicate Satisfies(q: Query, r: Report)
  {
    (q.monthEq.None? || r.month == q.monthEq.value) && (q.userEq.None? || r.userId == q.userEq.value)
  }

  /** The rows a query returns, in table order. */
  function Where(q: Query, rows: seq<Report>): (r: seq<Report>)
    ensures forall x :: x in r <==> x in rows && Satisfies(q, x)
    ensures SubsequenceOf(r, rows)
    ensures q == Query(None, None) ==> r == rows
  {
    FilterSubsequence((x: Report) => Satisfies(q, x), rows);
    Filter((x: Report) => Satisfies(q, x), rows)
  }

  /** One backend table of the second shell. */
  class Table {
    const kind: Kind
    var rows: seq<Report>

    ghost predicate Valid()
      reads this
    {
      forall i :: 0 <= i < |rows| ==> TableOf(rows[i]) == kind
    }

    constructor (kind: Kind)
      ensures Valid()
      ensures this.kind == kind && rows == []
    {
      this.kind := kind;
      rows := [];
    }

    /** `insert(row)`: appended on success, nothing on an error. */
    method Insert(row: Report, fails: bool) returns (ok: bool)
      requires Valid() && TableOf(row) == kind
      modifies this
      ensures Valid()
      ensures ok == !fails
      ensures rows == if ok then old(rows) + [row] else old(rows)
    {
      ok := !fails;
      if ok {
        rows := rows + [row];
      }
    }

    /** Runs a query; `None` is the `data: null` of an error. */
    method Select(q: Query, fails: bool) returns (res: Option<seq<Report>>)
      ensures res == if fails then None else Some(Where(q, rows))
    {
      res := if fails then None else Some(Where(q, rows));
    }
  }
}
