/** The press-report chart (`components/Charts/MediaChart.tsx`): the tally of
    reports by status, the pie slices built from it, and the list of the
    latest five reports. */
module MediaChart {
  import opened Seqs
  import opened ReportTable
  import opened Shell2

  /** One `[status, count]` pair of `Object.entries(statusCount)`. */
  type Entry = (MediaStatus, nat)

  /** The prop type is `MediaReport[]`. */
  predicate AllMedia(data: seq<Report>)
  {
    forall i :: 0 <= i < |data| ==> data[i].MediaReport?
  }

  function StatusesOf(data: seq<Report>): (r: seq<MediaStatus>)
    requires AllMedia(data)
    ensures |r| == |data| && forall i :: 0 <= i < |data| ==> r[i] == data[i].status
  {
    seq(|data|, i requires 0 <= i < |data| => data[i].status)
  }

  function Keys(t: seq<Entry>): (r: seq<MediaStatus>)
    ensures |r| == |t| && forall i :: 0 <= i < |t| ==> r[i] == t[i].0
  {
    if t == [] then [] else [t[0].0] + Keys(t[1..])
  }

  /** `statusCount[s]`, with `|| 0` for a status not yet seen. */
  function Lookup(t: seq<Entry>, s: MediaStatus): nat
  {
    if t == [] then 0 else if t[0].0 == s then t[0].1 else Lookup(t[1..], s)
  }

  function Sum(t: seq<Entry>): nat
  {
    if t == [] then 0 else t[0].1 + Sum(t[1..])
  }

  /** One step of the reduce: `acc[s] = (acc[s] || 0) + 1`. An existing key keeps
      its place; a new key goes last, as an object keeps its string keys in
      insertion order. */
  function Bump(t: seq<Entry>, s: MediaStatus): seq<Entry>
  {
    if t == [] then [(s, 1)]
    else if t[0].0 == s then [(s, t[0].1 + 1)] + t[1..]
    else [t[0]] + Bump(t[1..], s)
  }

  /** The reduce, as a left fold over the statuses. */
  function Tally(xs: seq<MediaStatus>): seq<Entry>
  {
    if xs == [] then [] else Bump(Tally(xs[..|xs| - 1]), xs[|xs| - 1])
  }

  /** The index of the first `s` in `xs`, or `|xs|` when none. */
  function FirstIndex(xs: seq<MediaStatus>, s: MediaStatus): (k: nat)
    ensures k <= |xs|
    ensures k < |xs| <==> s in xs
    ensures k < |xs| ==> xs[k] == s
    ensures s !in xs[..k]
  {
    if xs == [] then 0
    else if xs[0] == s then 0
    else
      var k := FirstIndex(xs[1..], s);
      assert xs[..1 + k] == [xs[0]] + xs[1..][..k];
      1 + k
  }

  predicate Distinct(k: seq<MediaStatus>)
  {
    forall i, j :: 0 <= i < j < |k| ==> k[i] != k[j]
  }

  predicate Positive(t: seq<Entry>)
  {
    forall i :: 0 <= i < |t| ==> t[i].1 >= 1
  }

  /** Bumping `s` adds one to its count and leaves every other count alone. */
  lemma {:induction false} BumpLookup(t: seq<Entry>, s: MediaStatus, x: MediaStatus)
    ensures Lookup(Bump(t, s), x) == Lookup(t, x) + if x == s then 1 else 0
  {
    if t != [] && t[0].0 != s {
      BumpLookup(t[1..], s, x);
      assert Bump(t, s)[1..] == Bump(t[1..], s);
    }
  }

  lemma {:induction false} BumpSum(t: seq<Entry>, s: MediaStatus)
    ensures Sum(Bump(t, s)) == Sum(t) + 1
  {
    if t != [] && t[0].0 != s {
      BumpSum(t[1..], s);
      assert Bump(t, s)[1..] == Bump(t[1..], s);
    } else if t != [] {
      assert Bump(t, s)[1..] == t[1..];
    }
  }

  lemma {:induction false} BumpKeys(t: seq<Entry>, s: MediaStatus)
    ensures Keys(Bump(t, s)) == if s in Keys(t) then Keys(t) else Keys(t) + [s]
  {
    if t == [] {
    } else if t[0].0 == s {
      assert Bump(t, s)[1..] == t[1..];
    } else {
      BumpKeys(t[1..], s);
      assert Bump(t, s)[1..] == Bump(t[1..], s);
      assert s in Keys(t) <==> s in Keys(t[1..]);
      assert Keys(Bump(t, s)) == [t[0].0] + Keys(Bump(t[1..], s));
      if s !in Keys(t[1..]) {
        assert [t[0].0] + (Keys(t[1..]) + [s]) == Keys(t) + [s];
      }
    }
  }

  lemma {:induction false} BumpPositive(t: seq<Entry>, s: MediaStatus)
    requires Positive(t)
    ensures Positive(Bump(t, s))
  {
    if t != [] && t[0].0 != s {
      BumpPositive(t[1..], s);
      assert Bump(t, s) == [t[0]] + Bump(t[1..], s);
    }
  }

  /** The first occurrence of a status already in `xs` does not move when more follow. */
  lemma {:induction false} FirstIndexExtend(xs: seq<MediaStatus>, s: MediaStatus, x: MediaStatus)
    requires x in xs
    ensures FirstIndex(xs + [s], x) == FirstIndex(xs, x)
  {
    if xs[0] != x {
      assert (xs + [s])[1..] == xs[1..] + [s];
      FirstIndexExtend(xs[1..], s, x);
    }
  }

  /** A status seen for the first time first occurs at the end. */
  lemma {:induction false} FirstIndexNew(xs: seq<MediaStatus>, s: MediaStatus)
    requires s !in xs
    ensures FirstIndex(xs + [s], s) == |xs|
  {
    if xs != [] {
      assert (xs + [s])[1..] == xs[1..] + [s];
      FirstIndexNew(xs[1..], s);
    }
  }

  /** The statuses of `k` appear in `xs` in the order of `k`. */
  predicate FirstOrder(xs: seq<MediaStatus>, k: seq<MediaStatus>)
  {
    forall i, j :: 0 <= i < j < |k| ==> FirstIndex(xs, k[i]) < FirstIndex(xs, k[j])
  }

  /** Keys ordered by first occurrence stay ordered as the input grows; a new
      status placed last keeps them ordered. */
  lemma OrderExtends(p: seq<MediaStatus>, s: MediaStatus, k: seq<MediaStatus>)
    requires FirstOrder(p, k)
    requires forall x :: x in k <==> x in p
    ensures FirstOrder(p + [s], if s in k then k else k + [s])
  {
    forall x | x in k ensures FirstIndex(p + [s], x) == FirstIndex(p, x) < |p| {
      FirstIndexExtend(p, s, x);
    }
    if s !in k {
      var k' := k + [s];
      FirstIndexNew(p, s);
      forall i, j | 0 <= i < j < |k'| ensures FirstIndex(p + [s], k'[i]) < FirstIndex(p + [s], k'[j]) {
        assert k'[i] in k;
        if j < |k| {
          assert k'[j] in k;
        }
      }
    }
  }

  /** Statuses in strictly increasing first-occurrence order are distinct. */
  lemma OrderedDistinct(xs: seq<MediaStatus>, k: seq<MediaStatus>)
    requires FirstOrder(xs, k)
    ensures Distinct(k)
  {
  }

  /** `statusCount[s]` equals the number of items whose status is `s`. */
  lemma {:induction false} TallyCounts(xs: seq<MediaStatus>, x: MediaStatus)
    ensures Lookup(Tally(xs), x) == multiset(xs)[x]
  {
    if xs != [] {
      var p := xs[..|xs| - 1];
      TallyCounts(p, x);
      BumpLookup(Tally(p), xs[|xs| - 1], x);
      assert xs == p + [xs[|xs| - 1]];
    }
  }

  /** The counts add up to `data.length`. */
  lemma {:induction false} TallySum(xs: seq<MediaStatus>)
    ensures Sum(Tally(xs)) == |xs|
  {
    if xs != [] {
      TallySum(xs[..|xs| - 1]);
      BumpSum(Tally(xs[..|xs| - 1]), xs[|xs| - 1]);
    }
  }

  /** One entry per status present, and none other. */
  lemma {:induction false} TallyKeysPresent(xs: seq<MediaStatus>)
    ensures forall x :: x in Keys(Tally(xs)) <==> x in xs
  {
    if xs != [] {
      var p, s := xs[..|xs| - 1], xs[|xs| - 1];
      TallyKeysPresent(p);
      BumpKeys(Tally(p), s);
      assert xs == p + [s];
    }
  }

  /** No entry has a zero count. */
  lemma {:induction false} TallyPositive(xs: seq<MediaStatus>)
    ensures Positive(Tally(xs))
  {
    if xs != [] {
      TallyPositive(xs[..|xs| - 1]);
      BumpPositive(Tally(xs[..|xs| - 1]), xs[|xs| - 1]);
    }
  }

  /** The entries come in the order in which their statuses first occur, so no status has two. */
  lemma {:induction false} TallyOrder(xs: seq<MediaStatus>)
    ensures FirstOrder(xs, Keys(Tally(xs)))
    ensures Distinct(Keys(Tally(xs)))
  {
    if xs != [] {
      var p, s := xs[..|xs| - 1], xs[|xs| - 1];
      TallyOrder(p);
      TallyKeysPresent(p);
      BumpKeys(Tally(p), s);
      OrderExtends(p, s, Keys(Tally(p)));
      assert xs == p + [s];
    }
    OrderedDistinct(xs, Keys(Tally(xs)));
  }

  /** The `statusCount` reduce as the component runs it, over the reports in order. */
  method StatusCount(data: seq<Report>) returns (statusCount: seq<Entry>)
    requires AllMedia(data)
    ensures statusCount == Tally(StatusesOf(data))
  {
    statusCount := [];
    var i := 0;
    while i < |data|
      invariant 0 <= i <= |data|
      invariant statusCount == Tally(StatusesOf(data[..i]))
    {
      assert StatusesOf(data[..i + 1])[..i] == StatusesOf(data[..i]);
      statusCount := Bump(statusCount, data[i].status);
      i := i + 1;
    }
    assert data[..i] == data;
  }

  /** The stored spelling of a status. */
  function StatusText(s: MediaStatus): string
  {
    match s
    case Olumlu => "olumlu"
    case Olumsuz => "olumsuz"
    case Kritik => "kritik"
  }

  /** The slice name: "olumlu" and "olumsuz" by name, anything else "Kritik". */
  function Label(status: string): (name: string)
    ensures name in {"Olumlu", "Olumsuz", "Kritik"}
    ensures status == "olumlu" ==> name == "Olumlu"
    ensures status == "olumsuz" ==> name == "Olumsuz"
    ensures status != "olumlu" && status != "olumsuz" ==> name == "Kritik"
  {
    if status == "olumlu" then "Olumlu" else if status == "olumsuz" then "Olumsuz" else "Kritik"
  }

  function Color(status: string): string
  {
    if status == "olumlu" then "#22c55e" else if status == "olumsuz" then "#f59e0b" else "#ef4444"
  }

  /** Each status gets its own slice name and colour. */
  lemma LabelsDistinguish(a: MediaStatus, b: MediaStatus)
    ensures Label(StatusText(a)) == Label(StatusText(b)) <==> a == b
    ensures Color(StatusText(a)) == Color(StatusText(b)) <==> a == b
  {
  }

  /** One pie slice. */
  datatype Slice = Slice(name: string, value: nat, color: string)

  function SliceOf(e: Entry): Slice
  {
    Slice(Label(StatusText(e.0)), e.1, Color(StatusText(e.0)))
  }

  /** `chartData`: one slice per tally entry, in the same order. */
  function ChartData(statusCount: seq<Entry>): (r: seq<Slice>)
    ensures |r| == |statusCount|
    ensures forall i :: 0 <= i < |r| ==> r[i].value == statusCount[i].1 &&
                                         r[i].name == Label(StatusText(statusCount[i].0))
  {
    Map(SliceOf, statusCount)
  }

  /** The chart of a list of reports: the slices are named apart, none is
      empty, a status has a slice exactly when some report has it, and the
      slice of a status carries the number of reports with that status. */
  lemma ChartOfReports(data: seq<Report>)
    requires AllMedia(data)
    ensures var r := ChartData(Tally(StatusesOf(data)));
            (forall i, j :: 0 <= i < j < |r| ==> r[i].name != r[j].name) &&
            (forall i :: 0 <= i < |r| ==> r[i].value >= 1) &&
            (forall s :: (exists i :: 0 <= i < |r| && r[i].name == Label(StatusText(s))) <==> s in StatusesOf(data)) &&
            (forall s, i :: 0 <= i < |r| && r[i].name == Label(StatusText(s)) ==> r[i].value == multiset(StatusesOf(data))[s])
  {
    var xs := StatusesOf(data);
    var t := Tally(xs);
    TallyKeysPresent(xs);
    TallyPositive(xs);
    TallyOrder(xs);
    forall i, j | 0 <= i < j < |t| ensures t[i].0 != t[j].0 {
      assert Keys(t)[i] != Keys(t)[j];
    }
    forall s, i | 0 <= i < |t| && t[i].0 == s ensures t[i].1 == multiset(xs)[s] {
      TallyCounts(xs, s);
      LookupDistinct(t, i);
    }
    forall s | s in xs ensures exists i :: 0 <= i < |t| && t[i].0 == s {
      assert s in Keys(t);
    }
    forall s, i | 0 <= i < |t| && t[i].0 == s ensures s in xs {
      assert Keys(t)[i] == s;
    }
    forall a: MediaStatus, b: MediaStatus ensures Label(StatusText(a)) == Label(StatusText(b)) <==> a == b {
      LabelsDistinguish(a, b);
    }
  }

  /** With distinct keys, `Lookup` finds the count stored at a key's position. */
  lemma {:induction false} LookupDistinct(t: seq<Entry>, i: int)
    requires 0 <= i < |t|
    requires Distinct(Keys(t))
    ensures Lookup(t, t[i].0) == t[i].1
  {
    if i > 0 {
      assert Keys(t)[0] != Keys(t)[i];
      assert Keys(t[1..]) == Keys(t)[1..];
      LookupDistinct(t[1..], i - 1);
    }
  }

  /** `data.slice(0, 5)`: the latest reports as passed in, at most five. */
  function Recent(data: seq<Report>): (r: seq<Report>)
    ensures |r| == if |data| < 5 then |data| else 5
    ensures forall i :: 0 <= i < |r| ==> r[i] == data[i]
    ensures |data| <= 5 ==> r == data
  {
    if |data| <= 5 then data else data[..5]
  }
}
