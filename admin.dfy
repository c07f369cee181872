/** The second shell's administrator panel: the four report lists under the
    month and user filters, the CSV export of the social-media reports, and
    the role buttons of the user list. */
module Admin {
  import opened Wrappers
  import opened Seqs
  import opened Text
  import opened Accounts
  import opened ReportTable
  import opened Shell2

  /** The query both filters produce: an `eq` on `month` when the month filter
      is non-empty and an `eq` on `user_id` when the user filter is non-empty. */
  function QueryFor(month: string, userId: UserId): (q: Query)
    ensures q.monthEq.Some? <==> month != ""
    ensures q.userEq.Some? <==> userId != ""
    ensures q.monthEq.Some? ==> q.monthEq.value == month
    ensures q.userEq.Some? ==> q.userEq.value == userId
  {
    Query(if month != "" then Some(month) else None, if userId != "" then Some(userId) else None)
  }

  /** The rows of one table the panel lists: those passing every filter that is set. */
  function Matching(month: string, userId: UserId, rows: seq<Report>): (r: seq<Report>)
    ensures forall x :: x in r <==>
      x in rows && (month == "" || x.month == month) && (userId == "" || x.userId == userId)
    ensures SubsequenceOf(r, rows)
    ensures month == "" && userId == "" ==> r == rows
  {
    Where(QueryFor(month, userId), rows)
  }

  /** The header line of the export. */
  const HeaderFields: seq<string> := ["Ay", "Takipçi", "Gönderi", "En Çok Etkileşim", "En Az Etkileşim"]

  /** The five columns of one social-media report, numbers in decimal. */
  function CsvFields(r: Report): (f: seq<string>)
    requires r.SocialMediaReport?
    ensures |f| == |HeaderFields|
  {
    [r.month, IntToString(r.followerCount), IntToString(r.postCount), r.mostEngagementLink, r.leastEngagementLink]
  }

  /** One line of the export: the columns joined by commas, without quoting. */
  function CsvLine(r: Report): string
    requires r.SocialMediaReport?
  {
    Join(CsvFields(r), ",")
  }

  /** The export: the header, then one line per report in list order, joined by newlines. */
  function Csv(reports: seq<Report>): string
    requires forall i :: 0 <= i < |reports| ==> reports[i].SocialMediaReport?
  {
    Join([Join(HeaderFields, ",")] + CsvLines(reports), "\n")
  }

  function CsvLines(reports: seq<Report>): (lines: seq<string>)
    requires forall i :: 0 <= i < |reports| ==> reports[i].SocialMediaReport?
    ensures |lines| == |reports|
    ensures forall i :: 0 <= i < |reports| ==> lines[i] == CsvLine(reports[i])
  {
    seq(|reports|, i requires 0 <= i < |reports| => CsvLine(reports[i]))
  }

  /** A decimal number holds neither a comma nor a newline. */
  lemma NumberHasNoSeparator(n: int)
    ensures ',' !in IntToString(n) && '\n' !in IntToString(n)
  {
    var s := IntToString(n);
    assert forall i :: 0 <= i < |s| ==> s[i] != ',' && s[i] != '\n';
  }

  /** When no text column holds a comma, a line splits back into its five columns. */
  lemma CsvLineColumns(r: Report)
    requires r.SocialMediaReport?
    requires ',' !in r.month && ',' !in r.mostEngagementLink && ',' !in r.leastEngagementLink
    ensures Split(CsvLine(r), ',') == CsvFields(r)
  {
    NumberHasNoSeparator(r.followerCount);
    NumberHasNoSeparator(r.postCount);
    SplitJoin(CsvFields(r), ',');
  }

  /** A line holds no newline when its text columns hold none. */
  lemma CsvLineIsOneLine(r: Report)
    requires r.SocialMediaReport?
    requires '\n' !in r.month && '\n' !in r.mostEngagementLink && '\n' !in r.leastEngagementLink
    ensures '\n' !in CsvLine(r)
  {
    NumberHasNoSeparator(r.followerCount);
    NumberHasNoSeparator(r.postCount);
    JoinAvoids(CsvFields(r), ",", '\n');
  }

  /** When no text column holds a newline, the export has the header line and then
      exactly one line per report, in order. */
  lemma CsvSplitsIntoLines(reports: seq<Report>)
    requires forall i :: 0 <= i < |reports| ==> reports[i].SocialMediaReport?
    requires forall i :: 0 <= i < |reports| ==>
      '\n' !in reports[i].month && '\n' !in reports[i].mostEngagementLink && '\n' !in reports[i].leastEngagementLink
    ensures Split(Csv(reports), '\n') == [Join(HeaderFields, ",")] + CsvLines(reports)
    ensures |Split(Csv(reports), '\n')| == |reports| + 1
  {
    var lines := [Join(HeaderFields, ",")] + CsvLines(reports);
    HeaderIsOneLine();
    forall i | 0 <= i < |lines| ensures '\n' !in lines[i] {
      if i > 0 {
        assert lines[i] == CsvLine(reports[i - 1]);
        CsvLineIsOneLine(reports[i - 1]);
      }
    }
    SplitJoin(lines, '\n');
  }

  lemma HeaderIsOneLine()
    ensures '\n' !in Join(HeaderFields, ",")
  {
    var h := HeaderFields;
    forall i | 0 <= i < |h| ensures '\n' !in h[i] {
      var s := h[i];
      assert forall k :: 0 <= k < |s| ==> s[k] != '\n';
    }
    JoinAvoids(h, ",", '\n');
  }

  /** The outcome the panel reports with `alert`. */
  datatype Notice = RoleUpdated | UpdateFailed

  /** The role each row's button switches to: every row, the caller's own included, has one. */
  function RoleButtons(users: seq<Profile>): (b: seq<(UserId, Role)>)
    ensures |b| == |users|
    ensures forall i :: 0 <= i < |users| ==> b[i].0 == users[i].id && b[i].1 != users[i].role
  {
    Map((u: Profile) => (u.id, ToggledRole(u.role)), users)
  }

  /** Awaits one of the panel's queries; `data || []` lists a failed one as empty. */
  method Load(table: Table, q: Query, fails: bool) returns (xs: seq<Report>)
    ensures xs == if fails then [] else Where(q, table.rows)
  {
    var data := table.Select(q, fails);
    xs := if data.Some? then data.value else [];
  }

  class AdminPage {
    const socialTable: Table
    const mediaTable: Table
    const analyticsTable: Table
    const rpaTable: Table
    const profiles: ProfileTable

    var social: seq<Report>
    var media: seq<Report>
    var analytics: seq<Report>
    var rpa: seq<Report>
    var users: seq<Profile>
    var filterMonth: string
    var filterUser: UserId

    constructor (socialTable: Table, mediaTable: Table,
                 analyticsTable: Table, rpaTable: Table, profiles: ProfileTable)
      ensures this.socialTable == socialTable && this.mediaTable == mediaTable
      ensures this.analyticsTable == analyticsTable && this.rpaTable == rpaTable && this.profiles == profiles
      ensures social == [] && media == [] && analytics == [] && rpa == [] && users == []
      ensures filterMonth == "" && filterUser == ""
    {
      this.socialTable := socialTable;
      this.mediaTable := mediaTable;
      this.analyticsTable := analyticsTable;
      this.rpaTable := rpaTable;
      this.profiles := profiles;
      social, media, analytics, rpa, users := [], [], [], [], [];
      filterMonth, filterUser := "", "";
    }

    /** The start of `fetchReports`: one `select('*')` per table, each narrowed
        by the same `eq` constraints. */
    method BuildQueries() returns (socialQuery: Query, mediaQuery: Query, analyticsQuery: Query, rpaQuery: Query)
      ensures socialQuery == QueryFor(filterMonth, filterUser) && mediaQuery == QueryFor(filterMonth, filterUser)
      ensures analyticsQuery == QueryFor(filterMonth, filterUser) && rpaQuery == QueryFor(filterMonth, filterUser)
    {
      socialQuery := Query(None, None);
      mediaQuery := Query(None, None);
      analyticsQuery := Query(None, None);
      rpaQuery := Query(None, None);
      if filterMonth != "" {
        socialQuery := socialQuery.(monthEq := Some(filterMonth));
        mediaQuery := mediaQuery.(monthEq := Some(filterMonth));
        analyticsQuery := analyticsQuery.(monthEq := Some(filterMonth));
        rpaQuery := rpaQuery.(monthEq := Some(filterMonth));
      }
      if filterUser != "" {
        socialQuery := socialQuery.(userEq := Some(filterUser));
        mediaQuery := mediaQuery.(userEq := Some(filterUser));
        analyticsQuery := analyticsQuery.(userEq := Some(filterUser));
        rpaQuery := rpaQuery.(userEq := Some(filterUser));
      }
    }

    /** `fetchReports`: the same filters on all four tables; a table whose query
        returns no data is listed empty. */
    method FetchReports(failed: set<Kind>)
      modifies this
      ensures social == if SocialMediaKind in failed then []
                        else Matching(filterMonth, filterUser, socialTable.rows)
      ensures media == if MediaKind in failed then []
                       else Matching(filterMonth, filterUser, mediaTable.rows)
      ensures analytics == if WebsiteAnalyticsKind in failed then []
                           else Matching(filterMonth, filterUser, analyticsTable.rows)
      ensures rpa == if RpaKind in failed then []
                     else Matching(filterMonth, filterUser, rpaTable.rows)
      ensures users == old(users) && filterMonth == old(filterMonth) && filterUser == old(filterUser)
    {
      var socialQuery, mediaQuery, analyticsQuery, rpaQuery := BuildQueries();
      social := Load(socialTable, socialQuery, SocialMediaKind in failed);
      media := Load(mediaTable, mediaQuery, MediaKind in failed);
      analytics := Load(analyticsTable, analyticsQuery, WebsiteAnalyticsKind in failed);
      rpa := Load(rpaTable, rpaQuery, RpaKind in failed);
    }

    /** `fetchUsers`: the profile list is replaced only when data arrives. */
    method FetchUsers(fails: bool)
      modifies this
      ensures users == if fails then old(users) else profiles.rows
      ensures social == old(social) && media == old(media) && analytics == old(analytics) && rpa == old(rpa)
      ensures filterMonth == old(filterMonth) && filterUser == old(filterUser)
    {
      var data := profiles.SelectAll(fails);
      if data.Some? {
        users := data.value;
      }
    }

    /** `updateUserRole`: only the role of the rows with that id changes; on
        success the user list is re-read. There is no confirmation and no check
        against changing one's own role. */
    method UpdateUserRole(userId: UserId, newRole: Role, updateFails: bool, fetchFails: bool)
      returns (notice: Notice)
      modifies this, profiles
      ensures notice == if updateFails then UpdateFailed else RoleUpdated
      ensures |profiles.rows| == |old(profiles.rows)|
      ensures forall i :: 0 <= i < |profiles.rows| ==>
        profiles.rows[i] == if !updateFails && old(profiles.rows)[i].id == userId
                            then old(profiles.rows)[i].(role := newRole)
                            else old(profiles.rows)[i]
      ensures users == if !updateFails && !fetchFails then profiles.rows else old(users)
      ensures social == old(social) && media == old(media) && analytics == old(analytics) && rpa == old(rpa)
    {
      var ok := profiles.SetRole(userId, newRole, updateFails);
      if ok {
        FetchUsers(fetchFails);
        notice := RoleUpdated;
      } else {
        notice := UpdateFailed;
      }
    }
  }
}
