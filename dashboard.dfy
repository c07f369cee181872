/** The first shell's dashboard: report counts under the same role scoping as
    the report pages, a profile count for administrators, and the quick-action
    tiles that display them. */
module Dashboard {
  import opened Wrappers
  import opened Accounts
  import opened ReportTable

  /** The dashboard's counters; `totalUsers` is only ever set for an administrator. */
  datatype Stats = Stats(socialMediaReports: nat, mediaReports: nat, websiteAnalytics: nat,
                         rpaReports: nat, totalUsers: Option<nat>)

  /** The counting queries `fetchStats` issues. */
  datatype CountQuery = ReportCount(kind: Kind) | ProfileCount

  /** `count || 0`: a missing count reads as zero. */
  function CountOrZero(c: Option<nat>): (n: nat)
    ensures c.None? ==> n == 0
    ensures c.Some? ==> n == c.value
  {
    if c.Some? then c.value else 0
  }

  /** The owner filter of the counts: none for an administrator, the caller's id otherwise.
      This is the evident intent of the `conditional('user_id', …)` call. */
  function CountOwner(p: Profile): (owner: Option<UserId>)
    ensures owner.None? <==> p.role == Admin
    ensures owner.Some? ==> owner.value == p.id
  {
    if p.role == Admin then None else Some(p.id)
  }

  /** The number a tile shows for one report kind: what the report page lists for the caller,
      or zero when that count failed. */
  function ShownCount(rows: seq<Row>, p: Profile, failed: bool): (n: nat)
    ensures failed ==> n == 0
    ensures !failed ==> n == |Listing(rows, Some(p))|
  {
    OwnedCountIsListingLength(rows, p);
    if failed then 0 else OwnedCount(rows, CountOwner(p))
  }

  /** A quick-action tile: its route and the counter it displays. */
  datatype QuickAction = QuickAction(href: string, count: nat)

  class DashboardPage {
    const profile: Option<Profile>
    const social: ReportStore
    const media: ReportStore
    const web: ReportStore
    const rpa: ReportStore
    const profiles: ProfileTable
    var stats: Stats
    var loading: bool

    constructor (profile: Option<Profile>, social: ReportStore, media: ReportStore, web: ReportStore,
                 rpa: ReportStore, profiles: ProfileTable)
      ensures this.profile == profile && this.social == social && this.media == media
      ensures this.web == web && this.rpa == rpa && this.profiles == profiles
      ensures stats == Stats(0, 0, 0, 0, None) && loading
    {
      this.profile := profile;
      this.social := social;
      this.media := media;
      this.web := web;
      this.rpa := rpa;
      this.profiles := profiles;
      stats := Stats(0, 0, 0, 0, None);
      loading := true;
    }

    /** `fetchStats`. Without a profile nothing is queried and nothing changes.
        Otherwise each tile gets the number of rows the corresponding page lists
        for the caller (zero for a failed count), administrators also get the
        number of profiles, an exception keeps the old counters, and loading ends. */
    method FetchStats(failed: set<CountQuery>, throws: bool)
      modifies this
      ensures profile.None? ==> stats == old(stats) && loading == old(loading)
      ensures profile.Some? ==> !loading
      ensures profile.Some? && throws ==> stats == old(stats)
      ensures profile.Some? && !throws ==>
        var p := profile.value;
        stats.socialMediaReports == ShownCount(social.rows, p, ReportCount(SocialMediaKind) in failed) &&
        stats.mediaReports == ShownCount(media.rows, p, ReportCount(MediaKind) in failed) &&
        stats.websiteAnalytics == ShownCount(web.rows, p, ReportCount(WebsiteAnalyticsKind) in failed) &&
        stats.rpaReports == ShownCount(rpa.rows, p, ReportCount(RpaKind) in failed) &&
        (stats.totalUsers.Some? <==> p.role == Admin) &&
        (p.role == Admin ==> stats.totalUsers.value == if ProfileCount in failed then 0 else |profiles.rows|)
    {
      if profile.None? {
        return;
      }
      var p := profile.value;
      var userId := CountOwner(p);
      var c0 := social.Count(userId, ReportCount(SocialMediaKind) in failed);
      var c1 := media.Count(userId, ReportCount(MediaKind) in failed);
      var c2 := web.Count(userId, ReportCount(WebsiteAnalyticsKind) in failed);
      var c3 := rpa.Count(userId, ReportCount(RpaKind) in failed);
      var c4: Option<nat> := None;
      if p.role == Admin {
        c4 := profiles.CountAll(ProfileCount in failed);
      }
      if !throws {
        stats := Stats(CountOrZero(c0), CountOrZero(c1), CountOrZero(c2), CountOrZero(c3),
                       if p.role == Admin then Some(CountOrZero(c4)) else None);
      }
      loading := false;
    }

    /** `quickActions`: the four report tiles, and a fifth user-management tile
        only for an administrator. */
    method QuickActions() returns (actions: seq<QuickAction>)
      ensures |actions| == if IsAdmin(profile) then 5 else 4
      ensures actions[0] == QuickAction("/social-media", stats.socialMediaReports)
      ensures actions[1] == QuickAction("/media-reports", stats.mediaReports)
      ensures actions[2] == QuickAction("/website-analytics", stats.websiteAnalytics)
      ensures actions[3] == QuickAction("/rpa-reports", stats.rpaReports)
      ensures IsAdmin(profile) ==> actions[4] == QuickAction("/admin/users", CountOrZero(stats.totalUsers))
    {
      actions := [
        QuickAction("/social-media", stats.socialMediaReports),
        QuickAction("/media-reports", stats.mediaReports),
        QuickAction("/website-analytics", stats.websiteAnalytics),
        QuickAction("/rpa-reports", stats.rpaReports)
      ];
      if IsAdmin(profile) {
        actions := actions + [QuickAction("/admin/users", CountOrZero(stats.totalUsers))];
      }
    }
  }
}
