/** The four entry forms of the second shell (the `...Form.tsx` components under `components/Reports`).
    Each form keeps its inputs in one `formData` record; submitting inserts one
    row for the signed-in user into its table, with the list inputs stripped of
    blank entries, then clears the inputs and calls the parent's `onSuccess`.
    The browser's `required`/`min`/`max` checks come first: a form that fails
    them never reaches the handler. */
module ReportForms {
  import opened Wrappers
  import opened Seqs
  import opened Text
  import opened Accounts
  import opened ReportTable
  import opened Shell2

  // ---------------------------------------------------------------- media

  /** `formData` of the press-report form. */
  datatype MediaFields = MediaFields(month: string, status: MediaStatus, newsTopic: string,
                                     accessLink: string, newsSources: seq<string>)

  /** The browser's checks: month, topic and link are `required`. */
  predicate MediaReady(f: MediaFields)
  {
    f.month != "" && f.newsTopic != "" && f.accessLink != ""
  }

  /** The initial and post-submit inputs: nothing typed, status "olumlu", one empty source. */
  function MediaDefaults(): (f: MediaFields)
    ensures !MediaReady(f)
    ensures f.status == Olumlu && f.newsSources == [""]
  {
    MediaFields("", Olumlu, "", "", [""])
  }

  /** The row `handleSubmit` inserts for `user`. */
  function MediaRow(user: UserId, f: MediaFields): (r: Report)
    ensures TableOf(r) == MediaKind && r.userId == user && r.month == f.month
    ensures r.MediaReport? && r.status == f.status && r.newsTopic == f.newsTopic && r.accessLink == f.accessLink
    ensures r.newsSources == StripBlank(f.newsSources)
    ensures forall s :: s in r.newsSources <==> s in f.newsSources && !IsBlank(s)
    ensures SubsequenceOf(r.newsSources, f.newsSources)
  {
    MediaReport(user, f.month, f.status, f.newsTopic, f.accessLink, StripBlank(f.newsSources))
  }

  class MediaFormState {
    const table: Table
    var formData: MediaFields
    var loading: bool

    /** There is always at least one source input: the remove button is only
        shown while there are two or more. */
    ghost predicate Valid()
      reads this, table
    {
      table.Valid() && table.kind == MediaKind && |formData.newsSources| >= 1 && !loading
    }

    constructor (table: Table)
      requires table.Valid() && table.kind == MediaKind
      ensures Valid()
      ensures this.table == table && formData == MediaDefaults()
    {
      this.table := table;
      formData := MediaDefaults();
      loading := false;
    }

    /** The `onChange` handlers of the month, status, topic and link inputs. */
    method SetFields(month: string, status: MediaStatus, newsTopic: string, accessLink: string)
      requires Valid()
      modifies this
      ensures Valid()
      ensures formData == old(formData).(month := month, status := status, newsTopic := newsTopic, accessLink := accessLink)
    {
      formData := formData.(month := month, status := status, newsTopic := newsTopic, accessLink := accessLink);
    }

    /** `addNewsSource`: one more empty source input. */
    method AddNewsSource()
      requires Valid()
      modifies this
      ensures Valid()
      ensures formData == old(formData).(newsSources := Append(old(formData.newsSources), ""))
    {
      formData := formData.(newsSources := Append(formData.newsSources, ""));
    }

    /** `removeNewsSource(index)`, reachable only while two or more inputs are shown. */
    method RemoveNewsSource(index: int)
      requires Valid() && |formData.newsSources| > 1
      modifies this
      ensures Valid()
      ensures formData == old(formData).(newsSources := RemoveAt(old(formData.newsSources), index))
    {
      formData := formData.(newsSources := RemoveAt(formData.newsSources, index));
    }

    /** `updateNewsSource(index, value)` from the input at `index`. */
    method UpdateNewsSource(index: int, value: string)
      requires Valid() && 0 <= index < |formData.newsSources|
      modifies this
      ensures Valid()
      ensures formData == old(formData).(newsSources := ReplaceAt(old(formData.newsSources), index, value))
    {
      formData := formData.(newsSources := ReplaceAt(formData.newsSources, index, value));
    }

    /** Pressing "Kaydet": `authUser` is what `auth.getUser()` returns and
        `insertFails` whether the insert reports an error. */
    method Submit(authUser: Option<UserId>, insertFails: bool) returns (calledOnSuccess: bool, alerted: bool)
      requires Valid()
      modifies this, table
      ensures Valid()
      ensures calledOnSuccess <==> MediaReady(old(formData)) && authUser.Some? && !insertFails
      ensures alerted <==> MediaReady(old(formData)) && !calledOnSuccess
      ensures table.rows == if calledOnSuccess then old(table.rows) + [MediaRow(authUser.value, old(formData))]
                            else old(table.rows)
      ensures formData == if calledOnSuccess then MediaDefaults() else old(formData)
    {
      calledOnSuccess, alerted := false, false;
      if !MediaReady(formData) {
        return;
      }
      loading := true;
      if authUser.None? {
        alerted := true;
      } else {
        var ok := table.Insert(MediaRow(authUser.value, formData), insertFails);
        if ok {
          formData := MediaDefaults();
          calledOnSuccess := true;
        } else {
          alerted := true;
        }
      }
      loading := false;
    }
  }

  // ---------------------------------------------------------------- website analytics

  /** `formData` of the analytics form; bounce rate and session duration in hundredths. */
  datatype AnalyticsFields = AnalyticsFields(month: string, visitorCount: NumberInput, pageViews: NumberInput,
                                             bounceRate: NumberInput, avgSessionDuration: NumberInput,
                                             conversions: NumberInput, topPages: seq<string>)

  /** Every input but the page addresses is `required`; the bounce rate lies in 0..100. */
  predicate AnalyticsReady(f: AnalyticsFields)
  {
    f.month != "" && f.visitorCount.Some? && f.pageViews.Some? && f.avgSessionDuration.Some? &&
    f.conversions.Some? && f.bounceRate.Some? && 0 <= f.bounceRate.value <= 10000
  }

  function AnalyticsDefaults(): (f: AnalyticsFields)
    ensures !AnalyticsReady(f)
    ensures f.topPages == ["", "", ""]
  {
    AnalyticsFields("", None, None, None, None, None, ["", "", ""])
  }

  /** The row inserted for `user`; the accepted bounce rate is a percentage. */
  function AnalyticsRow(user: UserId, f: AnalyticsFields): (r: Report)
    requires AnalyticsReady(f)
    ensures TableOf(r) == WebsiteAnalyticsKind && r.userId == user && r.month == f.month
    ensures r.WebsiteAnalytics? && r.bounceRate == f.bounceRate.value && 0 <= r.bounceRate <= 10000
    ensures r.visitorCount == f.visitorCount.value && r.pageViews == f.pageViews.value &&
            r.avgSessionDuration == f.avgSessionDuration.value && r.conversions == f.conversions.value
    ensures r.topPages == StripBlank(f.topPages)
    ensures |f.topPages| == 3 ==> |r.topPages| <= 3
    ensures forall s :: s in r.topPages <==> s in f.topPages && !IsBlank(s)
  {
    var pages := StripBlank(f.topPages);
    WebsiteAnalytics(user, f.month, f.visitorCount.value, f.pageViews.value, f.bounceRate.value,
                     f.avgSessionDuration.value, f.conversions.value, pages)
  }

  class AnalyticsFormState {
    const table: Table
    var formData: AnalyticsFields
    var loading: bool

    /** The form always shows exactly three page inputs. */
    ghost predicate Valid()
      reads this, table
    {
      table.Valid() && table.kind == WebsiteAnalyticsKind && |formData.topPages| == 3 && !loading
    }

    constructor (table: Table)
      requires table.Valid() && table.kind == WebsiteAnalyticsKind
      ensures Valid()
      ensures this.table == table && formData == AnalyticsDefaults()
    {
      this.table := table;
      formData := AnalyticsDefaults();
      loading := false;
    }

    /** The `onChange` handlers of the month and number inputs. */
    method SetFields(month: string, visitorCount: NumberInput, pageViews: NumberInput, bounceRate: NumberInput,
                     avgSessionDuration: NumberInput, conversions: NumberInput)
      requires Valid()
      modifies this
      ensures Valid()
      ensures formData == AnalyticsFields(month, visitorCount, pageViews, bounceRate, avgSessionDuration,
                                          conversions, old(formData.topPages))
    {
      formData := AnalyticsFields(month, visitorCount, pageViews, bounceRate, avgSessionDuration,
                                  conversions, formData.topPages);
    }

    /** `updateTopPage(index, value)` from one of the three inputs. */
    method UpdateTopPage(index: int, value: string)
      requires Valid() && 0 <= index < 3
      modifies this
      ensures Valid()
      ensures formData == old(formData).(topPages := ReplaceAt(old(formData.topPages), index, value))
    {
      formData := formData.(topPages := ReplaceAt(formData.topPages, index, value));
    }

    method Submit(authUser: Option<UserId>, insertFails: bool) returns (calledOnSuccess: bool, alerted: bool)
      requires Valid()
      modifies this, table
      ensures Valid()
      ensures calledOnSuccess <==> AnalyticsReady(old(formData)) && authUser.Some? && !insertFails
      ensures alerted <==> AnalyticsReady(old(formData)) && !calledOnSuccess
      ensures table.rows == if calledOnSuccess then old(table.rows) + [AnalyticsRow(authUser.value, old(formData))]
                            else old(table.rows)
      ensures formData == if calledOnSuccess then AnalyticsDefaults() else old(formData)
    {
      calledOnSuccess, alerted := false, false;
      if !AnalyticsReady(formData) {
        return;
      }
      loading := true;
      if authUser.None? {
        alerted := true;
      } else {
        var ok := table.Insert(AnalyticsRow(authUser.value, formData), insertFails);
        if ok {
          formData := AnalyticsDefaults();
          calledOnSuccess := true;
        } else {
          alerted := true;
        }
      }
      loading := false;
    }
  }

  // ---------------------------------------------------------------- RPA

  /** `formData` of the RPA form. */
  datatype RpaFields = RpaFields(month: string, incomingMailCount: NumberInput,
                                 distributedMailCount: NumberInput, topDistributionUnits: seq<string>)

  /** Month and both counts are `required`; the units are optional. */
  predicate RpaReady(f: RpaFields)
  {
    f.month != "" && f.incomingMailCount.Some? && f.distributedMailCount.Some?
  }

  function RpaDefaults(): (f: RpaFields)
    ensures !RpaReady(f)
    ensures f.topDistributionUnits == ["", "", ""]
  {
    RpaFields("", None, None, ["", "", ""])
  }

  function RpaRow(user: UserId, f: RpaFields): (r: Report)
    requires RpaReady(f)
    ensures TableOf(r) == RpaKind && r.userId == user && r.month == f.month
    ensures r.RpaReport? && r.incomingMailCount == f.incomingMailCount.value &&
            r.distributedMailCount == f.distributedMailCount.value
    ensures r.topDistributionUnits == StripBlank(f.topDistributionUnits)
    ensures |f.topDistributionUnits| == 3 ==> |r.topDistributionUnits| <= 3
    ensures forall s :: s in r.topDistributionUnits <==> s in f.topDistributionUnits && !IsBlank(s)
  {
    var units := StripBlank(f.topDistributionUnits);
    RpaReport(user, f.month, f.incomingMailCount.value, f.distributedMailCount.value, units)
  }

  class RpaFormState {
    const table: Table
    var formData: RpaFields
    var loading: bool

    /** The form always shows exactly three unit inputs. */
    ghost predicate Valid()
      reads this, table
    {
      table.Valid() && table.kind == RpaKind && |formData.topDistributionUnits| == 3 && !loading
    }

    constructor (table: Table)
      requires table.Valid() && table.kind == RpaKind
      ensures Valid()
      ensures this.table == table && formData == RpaDefaults()
    {
      this.table := table;
      formData := RpaDefaults();
      loading := false;
    }

    /** The `onChange` handlers of the month and the two count inputs. */
    method SetFields(month: string, incomingMailCount: NumberInput, distributedMailCount: NumberInput)
      requires Valid()
      modifies this
      ensures Valid()
      ensures formData == old(formData).(month := month, incomingMailCount := incomingMailCount,
                                         distributedMailCount := distributedMailCount)
    {
      formData := formData.(month := month, incomingMailCount := incomingMailCount,
                            distributedMailCount := distributedMailCount);
    }

    /** `updateUnit(index, value)` from one of the three inputs. */
    method UpdateUnit(index: int, value: string)
      requires Valid() && 0 <= index < 3
      modifies this
      ensures Valid()
      ensures formData == old(formData).(topDistributionUnits := ReplaceAt(old(formData.topDistributionUnits), index, value))
    {
      formData := formData.(topDistributionUnits := ReplaceAt(formData.topDistributionUnits, index, value));
    }

    method Submit(authUser: Option<UserId>, insertFails: bool) returns (calledOnSuccess: bool, alerted: bool)
      requires Valid()
      modifies this, table
      ensures Valid()
      ensures calledOnSuccess <==> RpaReady(old(formData)) && authUser.Some? && !insertFails
      ensures alerted <==> RpaReady(old(formData)) && !calledOnSuccess
      ensures table.rows == if calledOnSuccess then old(table.rows) + [RpaRow(authUser.value, old(formData))]
                            else old(table.rows)
      ensures formData == if calledOnSuccess then RpaDefaults() else old(formData)
    {
      calledOnSuccess, alerted := false, false;
      if !RpaReady(formData) {
        return;
      }
      loading := true;
      if authUser.None? {
        alerted := true;
      } else {
        var ok := table.Insert(RpaRow(authUser.value, formData), insertFails);
        if ok {
          formData := RpaDefaults();
          calledOnSuccess := true;
        } else {
          alerted := true;
        }
      }
      loading := false;
    }
  }

  // ---------------------------------------------------------------- social media

  /** `formData` of the social-media form. */
  datatype SocialFields = SocialFields(month: string, followerCount: NumberInput, postCount: NumberInput,
                                       mostEngagementLink: string, leastEngagementLink: string)

  /** All five inputs are `required`. */
  predicate SocialReady(f: SocialFields)
  {
    f.month != "" && f.followerCount.Some? && f.postCount.Some? &&
    f.mostEngagementLink != "" && f.leastEngagementLink != ""
  }

  function SocialDefaults(): (f: SocialFields)
    ensures !SocialReady(f)
  {
    SocialFields("", None, None, "", "")
  }

  function SocialRow(user: UserId, f: SocialFields): (r: Report)
    requires SocialReady(f)
    ensures TableOf(r) == SocialMediaKind && r.userId == user && r.month == f.month
    ensures r.SocialMediaReport? && r.followerCount == f.followerCount.value && r.postCount == f.postCount.value
    ensures r.mostEngagementLink == f.mostEngagementLink && r.leastEngagementLink == f.leastEngagementLink
  {
    SocialMediaReport(user, f.month, f.followerCount.value, f.postCount.value,
                      f.mostEngagementLink, f.leastEngagementLink)
  }

  class SocialFormState {
    const table: Table
    var formData: SocialFields
    var loading: bool

    ghost predicate Valid()
      reads this, table
    {
      table.Valid() && table.kind == SocialMediaKind && !loading
    }

    constructor (table: Table)
      requires table.Valid() && table.kind == SocialMediaKind
      ensures Valid()
      ensures this.table == table && formData == SocialDefaults()
    {
      this.table := table;
      formData := SocialDefaults();
      loading := false;
    }

    /** The `onChange` handlers of the five inputs. */
    method SetFields(f: SocialFields)
      requires Valid()
      modifies this
      ensures Valid()
      ensures formData == f
    {
      formData := f;
    }

    method Submit(authUser: Option<UserId>, insertFails: bool) returns (calledOnSuccess: bool, alerted: bool)
      requires Valid()
      modifies this, table
      ensures Valid()
      ensures calledOnSuccess <==> SocialReady(old(formData)) && authUser.Some? && !insertFails
      ensures alerted <==> SocialReady(old(formData)) && !calledOnSuccess
      ensures table.rows == if calledOnSuccess then old(table.rows) + [SocialRow(authUser.value, old(formData))]
                            else old(table.rows)
      ensures formData == if calledOnSuccess then SocialDefaults() else old(formData)
    {
      calledOnSuccess, alerted := false, false;
      if !SocialReady(formData) {
        return;
      }
      loading := true;
      if authUser.None? {
        alerted := true;
      } else {
        var ok := table.Insert(SocialRow(authUser.value, formData), insertFails);
        if ok {
          formData := SocialDefaults();
          calledOnSuccess := true;
        } else {
          alerted := true;
        }
      }
      loading := false;
    }
  }
}
