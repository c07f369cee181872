/** The four report tables of the first shell (`social_media_reports`,
    `media_reports`, `website_analytics`, `rpa_reports`): their rows, who may
    see which row, the rules each page's form applies, and the table itself. */
module ReportTable {
  import opened Wrappers
  import opened Seqs
  import opened Text
  import opened Accounts

  type RowId = nat

  datatype MediaStatus = Olumlu | Olumsuz | Kritik

  datatype Kind = SocialMediaKind | MediaKind | WebsiteAnalyticsKind | RpaKind

  /** The fields a page's form edits, one variant per table. The status select
      offers an empty choice (`None`); rates and durations are in hundredths. */
  datatype Payload =
    | SocialMedia(monthYear: string, followerCount: NumberInput, postCount: NumberInput,
                  highestEngagementLink: string, lowestEngagementLink: string)
    | Media(monthYear: string, status: Option<MediaStatus>, newsSubject: string,
            accessLink: string, newsSources: seq<string>)
    | WebsiteAnalytic(monthYear: string, visitorCount: NumberInput, pageViews: NumberInput,
                      bounceRate: NumberInput, avgSessionDuration: NumberInput,
                      conversionCount: NumberInput, popularPages: seq<string>)
    | Rpa(monthYear: string, incomingMailCount: NumberInput, distributedMailCount: NumberInput,
          topDepartments: seq<string>)

  /** A stored report: its key, its owner, its creation time and its fields. */
  datatype Row = Row(id: RowId, userId: UserId, createdAt: int, data: Payload)

  function KindOf(p: Payload): Kind
  {
    match p
    case SocialMedia(_, _, _, _, _) => SocialMediaKind
    case Media(_, _, _, _, _) => MediaKind
    case WebsiteAnalytic(_, _, _, _, _, _, _) => WebsiteAnalyticsKind
    case Rpa(_, _, _, _) => RpaKind
  }

  /** The list-valued field of a payload (news sources, popular pages, top
      departments); social-media reports have none. */
  function ListField(p: Payload): seq<string>
  {
    match p
    case SocialMedia(_, _, _, _, _) => []
    case Media(_, _, _, _, xs) => xs
    case WebsiteAnalytic(_, _, _, _, _, _, xs) => xs
    case Rpa(_, _, _, xs) => xs
  }

  /** The payload with its list field replaced by `xs`, every other field kept. */
  function WithListField(p: Payload, xs: seq<string>): (r: Payload)
    ensures KindOf(r) == KindOf(p)
    ensures !p.SocialMedia? ==> ListField(r) == xs
    ensures p.SocialMedia? ==> r == p
  {
    match p
    case SocialMedia(_, _, _, _, _) => p
    case Media(_, _, _, _, _) => p.(newsSources := xs)
    case WebsiteAnalytic(_, _, _, _, _, _, _) => p.(popularPages := xs)
    case Rpa(_, _, _, _) => p.(topDepartments := xs)
  }

  /** `required` on a text input or select: the empty value is refused. */
  predicate Filled(s: string)
  {
    s != ""
  }

  /** The validation rules of each page's form; `handleSubmit` calls the submit
      handler only for values that pass them. The list entries and the links
      are never validated. */
  predicate FormAccepts(p: Payload)
  {
    match p
    case SocialMedia(month, followers, posts, _, _) =>
      Filled(month) && NonNegativeInput(followers) && NonNegativeInput(posts)
    case Media(month, status, subject, _, _) =>
      Filled(month) && status.Some? && Filled(subject)
    case WebsiteAnalytic(month, visitors, views, bounce, avg, conversions, _) =>
      Filled(month) && NonNegativeInput(visitors) && NonNegativeInput(views) &&
      NonNegativeInput(bounce) && bounce.value <= 10000 &&
      NonNegativeInput(avg) && NonNegativeInput(conversions)
    case Rpa(month, incoming, distributed, _) =>
      Filled(month) && NonNegativeInput(incoming) && NonNegativeInput(distributed)
  }

  /** The payload `onSubmit` writes: the list field without blank entries and
      every other field as entered. */
  function SavedData(p: Payload): (r: Payload)
    ensures KindOf(r) == KindOf(p)
    ensures ListField(r) == StripBlank(ListField(p))
    ensures WithListField(r, ListField(p)) == p
    ensures FormAccepts(r) <==> FormAccepts(p)
    ensures forall s :: s in ListField(r) ==> s in ListField(p) && !IsBlank(s)
  {
    if p.SocialMedia? then
      assert StripBlank([]) == [];
      p
    else
      WithListField(p, StripBlank(ListField(p)))
  }

  /** The list `handleEdit` loads into the form for a stored payload: the
      media page shows at least one source input, the other two list pages
      exactly three inputs. */
  function EditList(p: Payload): (r: seq<string>)
    ensures p.SocialMedia? ==> r == []
    ensures p.Media? ==> |r| >= 1 && (p.newsSources != [] ==> r == p.newsSources) && (p.newsSources == [] ==> r == [""])
    ensures (p.WebsiteAnalytic? || p.Rpa?) ==>
      (|r| == 3 && forall i :: 0 <= i < 3 ==> r[i] == if i < |ListField(p)| then ListField(p)[i] else "")
  {
    match p
    case SocialMedia(_, _, _, _, _) => []
    case Media(_, _, _, _, xs) => if |xs| > 0 then xs else [""]
    case WebsiteAnalytic(_, _, _, _, _, _, xs) => PadOrTruncate3(xs)
    case Rpa(_, _, _, xs) => PadOrTruncate3(xs)
  }

  /** The list a fresh or reset form starts from. */
  function InitialList(k: Kind): (r: seq<string>)
    ensures k == SocialMediaKind ==> r == []
    ensures k == MediaKind ==> r == [""]
    ensures (k == WebsiteAnalyticsKind || k == RpaKind) ==> r == ["", "", ""]
    ensures forall i :: 0 <= i < |r| ==> IsBlank(r[i])
  {
    assert IsBlank("");
    match k
    case SocialMediaKind => []
    case MediaKind => [""]
    case WebsiteAnalyticsKind => ["", "", ""]
    case RpaKind => ["", "", ""]
  }

  /** The number of list inputs each page's form shows: none, at least one, or exactly three. */
  predicate ListShape(k: Kind, xs: seq<string>)
  {
    match k
    case SocialMediaKind => xs == []
    case MediaKind => |xs| >= 1
    case WebsiteAnalyticsKind => |xs| == 3
    case RpaKind => |xs| == 3
  }

  /** Both the initial list and the list loaded for editing have the shape the form expects. */
  lemma ListShapes(p: Payload)
    ensures ListShape(KindOf(p), EditList(p))
    ensures ListShape(KindOf(p), InitialList(KindOf(p)))
  {
  }

  /** A list as the form saves it: no blank entries and, where the form draws
      three inputs, at most three. */
  predicate SavedShape(p: Payload)
  {
    (forall i :: 0 <= i < |ListField(p)| ==> !IsBlank(ListField(p)[i])) &&
    ((p.WebsiteAnalytic? || p.Rpa?) ==> |ListField(p)| <= 3)
  }

  /** Saving a stored payload unchanged from the edit form gives it back: a
      saved list has no blank entries and, except on the media page, at most
      three of them. */
  lemma EditThenSave(p: Payload)
    requires SavedShape(p)
    ensures SavedData(WithListField(p, EditList(p))) == p
  {
    if p.Media? {
      assert ListField(p) == p.newsSources;
      SourcesEditThenSave(p.newsSources);
    } else if !p.SocialMedia? {
      PadThenStrip(ListField(p));
    }
  }

  /** The same round trip for any stored payload, as the edit handler uses it. */
  lemma EditResubmits(p: Payload)
    ensures SavedShape(p) ==> SavedData(WithListField(p, EditList(p))) == p
  {
    if SavedShape(p) {
      EditThenSave(p);
    }
  }

  /** The media case: an empty source list is edited as one empty input, and saved empty again. */
  lemma SourcesEditThenSave(xs: seq<string>)
    requires forall i :: 0 <= i < |xs| ==> !IsBlank(xs[i])
    ensures StripBlank(if |xs| > 0 then xs else [""]) == xs
  {
    if xs == [] {
      assert IsBlank("");
      FilterRejectsAll(NotBlank, [""]);
    } else {
      StripBlankIdempotent(xs);
    }
  }

  /** The cell of the RPA table for the top departments: the first three, each
      after its rank, or a dash when there are none. */
  function DepartmentsCell(depts: seq<string>): (r: seq<string>)
    ensures depts == [] ==> r == ["-"]
    ensures depts != [] ==> |r| == (if |depts| < 3 then |depts| else 3)
    ensures depts != [] ==> forall i :: 0 <= i < |r| ==>
      r[i] == IntToString(i + 1) + ". " + depts[i]
  {
    if depts == [] then ["-"]
    else
      var shown := if |depts| < 3 then depts else depts[..3];
      seq(|shown|, i requires 0 <= i < |shown| => IntToString(i + 1) + ". " + shown[i])
  }

  /** A report page lists a row exactly when its profile is loaded and is either
      an administrator or the row's owner; without a profile the owner filter
      compares against `undefined` and matches nothing. */
  predicate VisibleTo(caller: Option<Profile>, r: Row)
  {
    caller.Some? && (caller.value.role == Admin || r.userId == caller.value.id)
  }

  function RowCreatedAt(r: Row): int
  {
    r.createdAt
  }

  /** What a page's fetch shows: the visible rows, newest first. */
  function Listing(rows: seq<Row>, caller: Option<Profile>): (r: seq<Row>)
    ensures SortedDesc(r, RowCreatedAt)
    ensures forall x :: x in r <==> x in rows && VisibleTo(caller, x)
    ensures forall x :: multiset(r)[x] == if VisibleTo(caller, x) then multiset(rows)[x] else 0
    ensures IsAdmin(caller) ==> multiset(r) == multiset(rows)
    ensures caller.None? ==> r == []
  {
    var visible := Filter((x: Row) => VisibleTo(caller, x), rows);
    FilterMultiset((x: Row) => VisibleTo(caller, x), rows);
    var r := SortDesc(visible, RowCreatedAt);
    assert forall x :: x in r <==> x in visible by {
      forall x ensures x in r <==> x in visible {
        assert x in r <==> multiset(r)[x] > 0;
        assert x in visible <==> multiset(visible)[x] > 0;
      }
    }
    if caller.None? then
      assert |multiset(visible)| == 0 by {
        assert forall x :: multiset(visible)[x] == 0;
        assert multiset(visible) == multiset{};
      }
      r
    else
      r
  }

  /** Rows of one kind that all pass that kind's form rules. */
  ghost predicate AcceptedRows(rows: seq<Row>, k: Kind)
  {
    forall i :: 0 <= i < |rows| ==> KindOf(rows[i].data) == k && FormAccepts(rows[i].data)
  }

  /** A listing holds only rows of the table, so it keeps the property. */
  lemma ListingKeepsAccepted(rows: seq<Row>, caller: Option<Profile>, k: Kind)
    requires AcceptedRows(rows, k)
    ensures AcceptedRows(Listing(rows, caller), k)
  {
    var r := Listing(rows, caller);
    forall i | 0 <= i < |r| ensures KindOf(r[i].data) == k && FormAccepts(r[i].data) {
      assert r[i] in rows;
    }
  }

  /** `update(data).eq('id', id)` on a sequence of rows: the rows with that key take
      the new owner and fields; keys, creation times and all other rows stay. */
  function UpdatedRows(rows: seq<Row>, id: RowId, owner: UserId, data: Payload): (r: seq<Row>)
    ensures |r| == |rows|
    ensures forall i :: 0 <= i < |rows| ==>
      r[i] == if rows[i].id == id then rows[i].(userId := owner, data := data) else rows[i]
  {
    seq(|rows|, i requires 0 <= i < |rows| => if rows[i].id == id then rows[i].(userId := owner, data := data) else rows[i])
  }

  /** Appending an accepted row keeps the rows accepted. */
  lemma AppendKeepsAccepted(rows: seq<Row>, r: Row, k: Kind)
    requires AcceptedRows(rows, k) && KindOf(r.data) == k && FormAccepts(r.data)
    ensures AcceptedRows(rows + [r], k)
  {
  }

  /** Updating with an accepted payload keeps the rows accepted, and the keys. */
  lemma UpdateKeepsAccepted(rows: seq<Row>, id: RowId, owner: UserId, data: Payload, k: Kind)
    requires AcceptedRows(rows, k) && KindOf(data) == k && FormAccepts(data)
    ensures AcceptedRows(UpdatedRows(rows, id, owner, data), k)
  {
  }

  /** A staff member sees exactly their own rows. */
  lemma ListingOwnRows(rows: seq<Row>, p: Profile, x: Row)
    requires p.role == Personel
    ensures x in Listing(rows, Some(p)) <==> x in rows && x.userId == p.id
  {
  }

  /** Rows with pairwise distinct keys. */
  ghost predicate UniqueIds(rows: seq<Row>)
  {
    forall i, j :: 0 <= i < j < |rows| ==> rows[i].id != rows[j].id
  }

  /** Filtering keeps keys distinct. */
  lemma {:induction false} FilterKeepsUniqueIds(keep: Row -> bool, rows: seq<Row>)
    ensures UniqueIds(rows) ==> UniqueIds(Filter(keep, rows))
  {
    if rows != [] && UniqueIds(rows) {
      var tail := rows[1..];
      assert UniqueIds(tail) by {
        forall i, j | 0 <= i < j < |tail| ensures tail[i].id != tail[j].id {
          assert tail[i] == rows[i + 1] && tail[j] == rows[j + 1];
        }
      }
      FilterKeepsUniqueIds(keep, tail);
      var rest := Filter(keep, tail);
      if keep(rows[0]) {
        var r := [rows[0]] + rest;
        forall i, j | 0 <= i < j < |r| ensures r[i].id != r[j].id {
          if i == 0 {
            assert r[j] in tail;
            var k :| 0 <= k < |tail| && tail[k] == r[j];
            assert tail[k] == rows[k + 1];
          } else {
            assert r[i] == rest[i - 1] && r[j] == rest[j - 1];
          }
        }
      }
    }
  }

  /** `delete().eq('id', id)`: every row except the one with that key, in order. */
  function WithoutId(rows: seq<Row>, id: RowId): (r: seq<Row>)
    ensures forall x :: x in r <==> x in rows && x.id != id
    ensures SubsequenceOf(r, rows)
    ensures UniqueIds(rows) ==> UniqueIds(r)
  {
    var keep := (x: Row) => x.id != id;
    FilterKeepsUniqueIds(keep, rows);
    FilterSubsequence(keep, rows);
    Filter(keep, rows)
  }

  /** Deleting a key that is present removes exactly that row and keeps the rest in order. */
  lemma DeleteRemovesOne(rows: seq<Row>, id: RowId, k: nat)
    requires UniqueIds(rows)
    requires k < |rows| && rows[k].id == id
    ensures WithoutId(rows, id) == rows[..k] + rows[k + 1..]
  {
    var keep := (x: Row) => x.id != id;
    var a, b := rows[..k], rows[k + 1..];
    assert rows == (a + [rows[k]]) + b;
    KeepsAllOtherKeys(keep, rows, id, k, 0, k);
    KeepsAllOtherKeys(keep, rows, id, k, k + 1, |rows|);
    assert Filter(keep, a) == a;
    assert Filter(keep, b) == b;
    FilterRejectsAll(keep, [rows[k]]);
    FilterConcat(keep, a, [rows[k]]);
    FilterConcat(keep, a + [rows[k]], b);
    assert a + [] == a;
  }

  /** With distinct keys, a slice that avoids index `k` holds no row with key `id`. */
  lemma KeepsAllOtherKeys(keep: Row -> bool, rows: seq<Row>, id: RowId, k: nat, lo: nat, hi: nat)
    requires forall x :: keep(x) <==> x.id != id
    requires UniqueIds(rows)
    requires lo <= hi <= |rows|
    requires k < |rows| && rows[k].id == id && !(lo <= k < hi)
    ensures forall i :: 0 <= i < hi - lo ==> keep(rows[lo..hi][i])
  {
    forall i | 0 <= i < hi - lo ensures keep(rows[lo..hi][i]) {
      assert rows[lo..hi][i] == rows[lo + i];
    }
  }

  /** The number of rows owned by `owner`, or all of them with no owner filter. */
  function OwnedCount(rows: seq<Row>, owner: Option<UserId>): (n: nat)
    ensures n <= |rows|
    ensures owner.None? ==> n == |rows|
  {
    |Filter((x: Row) => owner.None? || x.userId == owner.value, rows)|
  }

  /** The count a caller's filter gives equals the number of rows the caller's page lists. */
  lemma OwnedCountIsListingLength(rows: seq<Row>, p: Profile)
    ensures OwnedCount(rows, if p.role == Admin then None else Some(p.id)) == |Listing(rows, Some(p))|
  {
    var owner := if p.role == Admin then None else Some(p.id);
    var f := Filter((x: Row) => owner.None? || x.userId == owner.value, rows);
    var g := Filter((x: Row) => VisibleTo(Some(p), x), rows);
    SameFilterLength((x: Row) => owner.None? || x.userId == owner.value, (x: Row) => VisibleTo(Some(p), x), rows);
    assert |Listing(rows, Some(p))| == |g|;
  }

  /** One backend table of reports of a single kind. */
  class ReportStore {
    const kind: Kind
    var rows: seq<Row>
    var nextId: RowId

    /** Every row is of the table's kind, keys are distinct and below the next key to hand out. */
    ghost predicate Valid()
      reads this
    {
      UniqueIds(rows) &&
      (forall i :: 0 <= i < |rows| ==> rows[i].id < nextId) &&
      (forall i :: 0 <= i < |rows| ==> KindOf(rows[i].data) == kind)
    }

    constructor (kind: Kind)
      ensures Valid()
      ensures this.kind == kind && rows == [] && nextId == 0
    {
      this.kind := kind;
      rows := [];
      nextId := 0;
    }

    /** The page's query: all rows for an administrator, the caller's otherwise, newest first. */
    method Select(caller: Option<Profile>, fails: bool) returns (res: Option<seq<Row>>)
      ensures fails ==> res == None
      ensures !fails ==> res == Some(Listing(rows, caller))
    {
      if fails {
        res := None;
      } else {
        res := Some(Listing(rows, caller));
      }
    }

    /** `insert([data])`: a new row with a fresh key, the owner given and the current time. */
    method Insert(owner: UserId, data: Payload, now: int, fails: bool) returns (ok: bool)
      requires Valid() && KindOf(data) == kind
      modifies this
      ensures Valid()
      ensures ok == !fails
      ensures ok ==> rows == old(rows) + [Row(old(nextId), owner, now, data)]
      ensures !ok ==> rows == old(rows) && nextId == old(nextId)
    {
      ok := !fails;
      if ok {
        rows := rows + [Row(nextId, owner, now, data)];
        nextId := nextId + 1;
      }
    }

    /** `update(data).eq('id', id)`: the row with that key takes the new owner
        and fields; its key and creation time stay. */
    method Update(id: RowId, owner: UserId, data: Payload, fails: bool) returns (ok: bool)
      requires Valid() && KindOf(data) == kind
      modifies this
      ensures Valid()
      ensures ok == !fails
      ensures rows == if ok then UpdatedRows(old(rows), id, owner, data) else old(rows)
      ensures nextId == old(nextId)
    {
      ok := !fails;
      if ok {
        rows := UpdatedRows(rows, id, owner, data);
      }
    }

    /** `delete().eq('id', id)`. */
    method Delete(id: RowId, fails: bool) returns (ok: bool)
      requires Valid()
      modifies this
      ensures Valid()
      ensures ok == !fails
      ensures rows == if ok then WithoutId(old(rows), id) else old(rows)
      ensures nextId == old(nextId)
    {
      ok := !fails;
      if ok {
        rows := WithoutId(rows, id);
      }
    }

    /** `select('id', { count: 'exact' })`, with the owner filter when one is given. */
    method Count(owner: Option<UserId>, fails: bool) returns (c: Option<nat>)
      ensures c == if fails then None else Some(OwnedCount(rows, owner))
    {
      c := if fails then None else Some(OwnedCount(rows, owner));
    }
  }
}
