/** One report page of the first shell (social media, press, web analytics,
    RPA): the list it shows, the form it opens for a new or an edited report,
    and the handlers behind its buttons. The four pages differ only in their
    table, their payload and the list field of their form. */
module ReportPage {
  import opened Wrappers
  import opened Seqs
  import opened Text
  import opened Accounts
  import opened ReportTable

  class Page {
    const kind: Kind
    /** The signed-in user's profile, `None` while it is not loaded. */
    const profile: Option<Profile>
    const store: ReportStore

    var reports: seq<Row>
    var loading: bool
    var saving: bool
    var editingId: Option<RowId>
    var showForm: bool
    /** The values the form's `reset()` returns to: the report last loaded with
        `reset(values)`, or `None` for the form's defaults. */
    var form: Option<Payload>
    /** The inputs of the form's list field. */
    var formList: seq<string>

    /** Only rows that passed the form's rules ever reach the table, the shown
        list holds rows of this page's kind, an open edit has an open form, and
        the list inputs have the shape the page draws. */
    ghost predicate Valid()
      reads this, store
    {
      store.Valid() && store.kind == kind &&
      AcceptedRows(store.rows, kind) && AcceptedRows(reports, kind) &&
      (editingId.Some? ==> showForm) &&
      (form.Some? ==> KindOf(form.value) == kind) &&
      ListShape(kind, formList)
    }

    /** The submit handler runs (validation passed) and gets past its profile check. */
    predicate Submits(data: Payload)
    {
      FormAccepts(data) && profile.Some?
    }

    constructor (kind: Kind, profile: Option<Profile>, store: ReportStore)
      requires store.Valid() && store.kind == kind && AcceptedRows(store.rows, kind)
      ensures Valid()
      ensures this.kind == kind && this.profile == profile && this.store == store
      ensures reports == [] && loading && !saving && editingId == None && !showForm
      ensures form == None && formList == InitialList(kind)
    {
      this.kind := kind;
      this.profile := profile;
      this.store := store;
      reports := [];
      loading := true;
      saving := false;
      editingId := None;
      showForm := false;
      form := None;
      formList := InitialList(kind);
    }

    /** `fetchReports`: on success the visible rows, newest first; on an error
        the list stays; either way loading ends. */
    method FetchReports(fails: bool)
      requires Valid()
      modifies this
      ensures Valid()
      ensures reports == if fails then old(reports) else Listing(store.rows, profile)
      ensures !loading
      ensures saving == old(saving) && editingId == old(editingId) && showForm == old(showForm)
      ensures form == old(form) && formList == old(formList)
    {
      var res := store.Select(profile, fails);
      if res.Some? {
        ListingKeepsAccepted(store.rows, profile, kind);
        reports := res.value;
      }
      loading := false;
    }

    /** `handleCancel`: the form closes and the edit ends. Three pages reset the
        form to explicit defaults; the social-media page calls `reset()` without
        values, which goes back to the values of the last `reset(report)`, so
        there the last edited report stays loaded. */
    method HandleCancel()
      requires Valid()
      modifies this
      ensures Valid()
      ensures !showForm && editingId == None && formList == InitialList(kind)
      ensures form == if kind == SocialMediaKind then old(form) else None
      ensures reports == old(reports) && loading == old(loading) && saving == old(saving)
    {
      showForm := false;
      editingId := None;
      if kind != SocialMediaKind {
        form := None;
      }
      formList := InitialList(kind);
    }

    /** `onSubmit`: with a profile, writes the saved payload under the caller's
        id, as an update of the edited row or as a new row; after a successful
        write the list is re-read and the form closed, after a failed one the
        form stays as it was. The submitted list field is the form's list inputs. */
    method OnSubmit(data: Payload, now: int, writeFails: bool, fetchFails: bool)
      requires Valid() && KindOf(data) == kind
      requires !data.SocialMedia? ==> ListField(data) == formList
      modifies this, store
      ensures Valid()
      ensures !Submits(data) ==>
        store.rows == old(store.rows) && reports == old(reports) && loading == old(loading) &&
        saving == old(saving) && editingId == old(editingId) && showForm == old(showForm) &&
        form == old(form) && formList == old(formList)
      ensures Submits(data) ==> !saving
      ensures Submits(data) && old(editingId).None? ==>
        store.rows == if writeFails then old(store.rows)
                      else old(store.rows) + [Row(old(store.nextId), profile.value.id, now, SavedData(data))]
      ensures Submits(data) && old(editingId).Some? ==>
        store.rows == if writeFails then old(store.rows)
                      else UpdatedRows(old(store.rows), old(editingId).value, profile.value.id, SavedData(data))
      ensures Submits(data) && writeFails ==>
        reports == old(reports) && loading == old(loading) && editingId == old(editingId) &&
        showForm == old(showForm) && form == old(form) && formList == old(formList)
      ensures Submits(data) && !writeFails ==>
        reports == (if fetchFails then old(reports) else Listing(store.rows, profile)) && !loading &&
        !showForm && editingId == None && formList == InitialList(kind) &&
        form == (if kind == SocialMediaKind then old(form) else None)
    {
      if !FormAccepts(data) || profile.None? {
        return;
      }
      saving := true;
      var saved := SavedData(data);
      var ok;
      if editingId.Some? {
        UpdateKeepsAccepted(store.rows, editingId.value, profile.value.id, saved, kind);
        ok := store.Update(editingId.value, profile.value.id, saved, writeFails);
      } else {
        AppendKeepsAccepted(store.rows, Row(store.nextId, profile.value.id, now, saved), kind);
        ok := store.Insert(profile.value.id, saved, now, writeFails);
      }
      if ok {
        FetchReports(fetchFails);
        HandleCancel();
      }
      saving := false;
    }

    /** `handleEdit`: opens the form on a listed report, with its list field in
        the shape the page draws. Submitting the loaded values unchanged writes
        the report's fields back as they are stored, when its list was saved
        by the form (no blank entries, at most three where three inputs are drawn). */
    method HandleEdit(report: Row)
      requires Valid() && report in reports
      modifies this
      ensures Valid()
      ensures editingId == Some(report.id) && showForm
      ensures form == Some(report.data) && formList == EditList(report.data)
      ensures SavedShape(report.data) ==> SavedData(WithListField(report.data, formList)) == report.data
      ensures reports == old(reports) && loading == old(loading) && saving == old(saving)
    {
      EditResubmits(report.data);
      ListShapes(report.data);
      editingId := Some(report.id);
      form := Some(report.data);
      formList := EditList(report.data);
      showForm := true;
    }

    /** `handleDelete`: after the confirmation, deletes the row with that key
        and re-reads the list; a refusal or an error changes nothing. */
    method HandleDelete(id: RowId, confirmed: bool, deleteFails: bool, fetchFails: bool)
      requires Valid()
      modifies this, store
      ensures Valid()
      ensures !confirmed || deleteFails ==>
        store.rows == old(store.rows) && reports == old(reports) && loading == old(loading)
      ensures confirmed && !deleteFails ==>
        store.rows == WithoutId(old(store.rows), id) &&
        reports == (if fetchFails then old(reports) else Listing(store.rows, profile)) && !loading
      ensures saving == old(saving) && editingId == old(editingId) && showForm == old(showForm)
      ensures form == old(form) && formList == old(formList)
    {
      if !confirmed {
        return;
      }
      var ok := store.Delete(id, deleteFails);
      if ok {
        FetchReports(fetchFails);
      }
    }

    /** The "new report" button only opens the form; an edit still in progress stays in progress. */
    method OpenForm()
      requires Valid()
      modifies this
      ensures Valid()
      ensures showForm
      ensures editingId == old(editingId) && form == old(form) && formList == old(formList)
      ensures reports == old(reports) && loading == old(loading) && saving == old(saving)
    {
      showForm := true;
    }

    /** `append('')` on the press page: one more, empty, source input. */
    method AppendSource()
      requires Valid() && kind == MediaKind
      modifies this
      ensures Valid()
      ensures formList == old(formList) + [""]
      ensures editingId == old(editingId) && showForm == old(showForm) && form == old(form)
      ensures reports == old(reports) && loading == old(loading) && saving == old(saving)
    {
      formList := formList + [""];
    }

    /** Typing into list input `index` (`register` on `news_sources.${index}`,
        `popular_pages.${index}`, `top_departments.${index}`). */
    method UpdateListEntry(index: int, v: string)
      requires Valid() && 0 <= index < |formList|
      modifies this
      ensures Valid()
      ensures formList == ReplaceAt(old(formList), index, v)
      ensures editingId == old(editingId) && showForm == old(showForm) && form == old(form)
      ensures reports == old(reports) && loading == old(loading) && saving == old(saving)
    {
      formList := ReplaceAt(formList, index, v);
    }

    /** `remove(index)` on the press page: the button is drawn only while there
        is more than one source input, so the last input is never removed. */
    method RemoveSource(index: int)
      requires Valid() && kind == MediaKind && |formList| > 1
      modifies this
      ensures Valid()
      ensures formList == RemoveAt(old(formList), index)
      ensures |formList| >= 1
      ensures editingId == old(editingId) && showForm == old(showForm) && form == old(form)
      ensures reports == old(reports) && loading == old(loading) && saving == old(saving)
    {
      formList := RemoveAt(formList, index);
    }
  }
}
