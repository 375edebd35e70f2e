/**
 * The milk ledger's arithmetic (project/src/stores/animalStore.ts, the
 * `milkProductionSummary` getter and `archiveLastYearData`): what one entry
 * contributes, how entries group by farm, by month and by year, the sorted
 * month buckets, and the two loops that build a summary and a yearly archive.
 *
 * A month key "YYYY-MM" is the pair (year, month) and keys compare
 * lexicographically, which is how `localeCompare` orders zero-padded
 * four-digit-year keys.
 */
module MilkLedger {
  import opened Options
  import opened Seqs
  import opened FarmTypes

  // ---------------------------------------------------------------------
  // What one entry contributes

  function ExpenseAmount(e: MilkExpense): int {
    e.amount
  }

  /** `prod.expenses.reduce((sum, exp) => sum + exp.amount, 0)`. */
  function ExpenseTotal(es: seq<MilkExpense>): int {
    SumBy(es, ExpenseAmount)
  }

  /** income = liters × pricePerLiter; expenses = the sum of the expense amounts; balance = income − expenses. */
  function Contribution(p: MilkProduction): Tally {
    var income := p.liters * p.pricePerLiter;
    var expenses := ExpenseTotal(p.expenses);
    Tally(p.liters, income, expenses, income - expenses)
  }

  /** The figures of a list of entries, added up entry by entry. */
  function Sum(ps: seq<MilkProduction>): Tally
    decreases ps
  {
    if ps == [] then Zero else Sum(ps[..|ps| - 1]).Plus(Contribution(ps[|ps| - 1]))
  }

  /** Added-up figures keep the balance equal to the income less the expenses. */
  lemma {:induction false} SumBalanced(ps: seq<MilkProduction>)
    ensures Sum(ps).Balanced()
    decreases ps
  {
    if ps != [] {
      SumBalanced(ps[..|ps| - 1]);
    }
  }

  // ---------------------------------------------------------------------
  // Grouping entries by a key: farm, "YYYY-MM" month or calendar year

  function FarmOf(p: MilkProduction): string {
    p.farm
  }

  /** `prod.date.substring(0, 7)`: the entry's "YYYY-MM". */
  function MonthOf(p: MilkProduction): MonthKey {
    MonthKey(p.date.year, p.date.month)
  }

  /** The calendar year of the entry; an entry lies within a year's interval exactly when this is that year. */
  function YearOf(p: MilkProduction): int {
    p.date.year
  }

  /** The entries whose key is `k`, in their original order. */
  function Select<K(==)>(ps: seq<MilkProduction>, key: MilkProduction -> K, k: K): seq<MilkProduction>
    decreases ps
  {
    if ps == [] then []
    else
      var last := ps[|ps| - 1];
      Select(ps[..|ps| - 1], key, k) + (if key(last) == k then [last] else [])
  }

  /** An entry is selected exactly when it is among the entries and has the key. */
  lemma {:induction false} SelectMembers<K>(ps: seq<MilkProduction>, key: MilkProduction -> K, k: K)
    ensures forall p :: p in Select(ps, key, k) <==> p in ps && key(p) == k
    decreases ps
  {
    if ps != [] {
      var init, last := ps[..|ps| - 1], ps[|ps| - 1];
      assert ps == init + [last];
      SelectMembers(init, key, k);
    }
  }

  /** The keys that occur among the entries. */
  function KeysOf<K(==)>(ps: seq<MilkProduction>, key: MilkProduction -> K): set<K>
    decreases ps
  {
    if ps == [] then {} else KeysOf(ps[..|ps| - 1], key) + {key(ps[|ps| - 1])}
  }

  /** A key occurs exactly when some entry has it. */
  lemma {:induction false} KeysOfMembers<K>(ps: seq<MilkProduction>, key: MilkProduction -> K)
    ensures forall p :: p in ps ==> key(p) in KeysOf(ps, key)
    ensures forall k :: k in KeysOf(ps, key) ==> exists p :: p in ps && key(p) == k
    decreases ps
  {
    if ps != [] {
      var init, last := ps[..|ps| - 1], ps[|ps| - 1];
      assert ps == init + [last];
      KeysOfMembers(init, key);
    }
  }

  /** The entries dated in year `y`. */
  function InYear(ps: seq<MilkProduction>, y: int): (r: seq<MilkProduction>)
    ensures forall p :: p in r <==> p in ps && p.date.year == y
  {
    SelectMembers(ps, YearOf, y);
    Select(ps, YearOf, y)
  }

  /** `some` entry lies outside the year `y`. */
  predicate NeedsArchiving(ps: seq<MilkProduction>, y: int) {
    exists p :: p in ps && p.date.year != y
  }

  lemma SumSnoc(ps: seq<MilkProduction>, p: MilkProduction)
    ensures Sum(ps + [p]) == Sum(ps).Plus(Contribution(p))
  {
    assert (ps + [p])[..|ps|] == ps;
  }

  lemma SelectSnoc<K>(ps: seq<MilkProduction>, p: MilkProduction, key: MilkProduction -> K, k: K)
    ensures Select(ps + [p], key, k) == Select(ps, key, k) + (if key(p) == k then [p] else [])
  {
    assert (ps + [p])[..|ps|] == ps;
  }

  lemma KeysSnoc<K>(ps: seq<MilkProduction>, p: MilkProduction, key: MilkProduction -> K)
    ensures KeysOf(ps + [p], key) == KeysOf(ps, key) + {key(p)}
  {
  }

  /** Selecting by a key that occurs nowhere selects nothing. */
  lemma SelectAbsent<K>(ps: seq<MilkProduction>, key: MilkProduction -> K, k: K)
    requires k !in KeysOf(ps, key)
    ensures Select(ps, key, k) == []
  {
  }

  /** Selecting the same key twice selects nothing more: the year filter is idempotent. */
  lemma {:induction false} SelectIdempotent<K>(ps: seq<MilkProduction>, key: MilkProduction -> K, k: K)
    ensures Select(Select(ps, key, k), key, k) == Select(ps, key, k)
    decreases ps
  {
    if ps != [] {
      var init, last := ps[..|ps| - 1], ps[|ps| - 1];
      SelectIdempotent(init, key, k);
      if key(last) == k {
        assert Select(ps, key, k) == Select(init, key, k) + [last];
        SelectSnoc(Select(init, key, k), last, key, k);
      } else {
        assert Select(ps, key, k) == Select(init, key, k);
      }
    }
  }

  /** `m` holds, for every key occurring in `ps` and no other, the figures of the entries with that key. */
  ghost predicate Grouped<K>(m: map<K, Tally>, ps: seq<MilkProduction>, key: MilkProduction -> K) {
    && m.Keys == KeysOf(ps, key)
    && forall k {:trigger m[k]} :: k in m ==> m[k] == Sum(Select(ps, key, k))
  }

  /** The bucket for `k`, or an all-zero bucket when there is none yet (`map.get(k) || { …0 }`). */
  function BucketOrZero<K(==)>(m: map<K, Tally>, k: K): Tally {
    if k in m then m[k] else Zero
  }

  /** Adding one entry's figures to its bucket keeps a grouping exact. */
  lemma GroupStep<K>(m: map<K, Tally>, ps: seq<MilkProduction>, p: MilkProduction, key: MilkProduction -> K)
    requires Grouped(m, ps, key)
    ensures Grouped(m[key(p) := BucketOrZero(m, key(p)).Plus(Contribution(p))], ps + [p], key)
  {
    var m' := m[key(p) := BucketOrZero(m, key(p)).Plus(Contribution(p))];
    KeysSnoc(ps, p, key);
    forall k | k in m'
      ensures m'[k] == Sum(Select(ps + [p], key, k))
    {
      SelectSnoc(ps, p, key, k);
      if k == key(p) {
        if k !in m {
          SelectAbsent(ps, key, k);
        }
        SumSnoc(Select(ps, key, k), p);
      } else {
        assert Select(ps, key, k) + [] == Select(ps, key, k);
      }
    }
  }

  /** The buckets built entry by entry, each entry's figures going into the bucket of its key. */
  function GroupMap<K(==)>(ps: seq<MilkProduction>, key: MilkProduction -> K): map<K, Tally>
    decreases ps
  {
    if ps == [] then map[]
    else
      var m := GroupMap(ps[..|ps| - 1], key);
      var p := ps[|ps| - 1];
      m[key(p) := BucketOrZero(m, key(p)).Plus(Contribution(p))]
  }

  lemma GroupMapSnoc<K>(ps: seq<MilkProduction>, p: MilkProduction, key: MilkProduction -> K)
    ensures GroupMap(ps + [p], key)
         == GroupMap(ps, key)[key(p) := BucketOrZero(GroupMap(ps, key), key(p)).Plus(Contribution(p))]
  {
    assert (ps + [p])[..|ps|] == ps;
  }

  /** Building the buckets entry by entry groups the entries exactly. */
  lemma {:induction false} GroupMapIsGrouped<K>(ps: seq<MilkProduction>, key: MilkProduction -> K)
    ensures Grouped(GroupMap(ps, key), ps, key)
    decreases ps
  {
    if ps == [] {
      assert KeysOf(ps, key) == {};
    } else {
      var init, last := ps[..|ps| - 1], ps[|ps| - 1];
      assert ps == init + [last];
      GroupMapIsGrouped(init, key);
      GroupStep(GroupMap(init, key), init, last, key);
    }
  }

  // ---------------------------------------------------------------------
  // Conservation: the groups add up to the whole

  predicate Distinct<K(==)>(ks: seq<K>) {
    forall i, j :: 0 <= i < j < |ks| ==> ks[i] != ks[j]
  }

  /** The figures of the groups named by `ks`, added up. */
  function SumGroups<K(==)>(ps: seq<MilkProduction>, key: MilkProduction -> K, ks: seq<K>): Tally
    decreases ks
  {
    if ks == [] then Zero else Sum(Select(ps, key, ks[0])).Plus(SumGroups(ps, key, ks[1..]))
  }

  lemma {:induction false} SumGroupsOfNothing<K>(key: MilkProduction -> K, ks: seq<K>)
    ensures SumGroups([], key, ks) == Zero
    decreases ks
  {
    if ks != [] {
      SumGroupsOfNothing(key, ks[1..]);
    }
  }

  lemma {:induction false} SumGroupsSnoc<K>(ps: seq<MilkProduction>, p: MilkProduction, key: MilkProduction -> K, ks: seq<K>)
    requires Distinct(ks)
    ensures SumGroups(ps + [p], key, ks)
         == if key(p) in ks then SumGroups(ps, key, ks).Plus(Contribution(p)) else SumGroups(ps, key, ks)
    decreases ks
  {
    if ks != [] {
      var k0, rest := ks[0], ks[1..];
      assert Distinct(rest);
      assert key(p) in ks <==> key(p) == k0 || key(p) in rest by {
        assert ks == [k0] + rest;
      }
      var c := Contribution(p);
      var a := Sum(Select(ps, key, k0));
      var b := SumGroups(ps, key, rest);
      SumGroupsSnoc(ps, p, key, rest);
      SelectSnoc(ps, p, key, k0);
      if key(p) == k0 {
        assert key(p) !in rest by {
          forall j | 0 <= j < |rest| ensures rest[j] != k0 {
            assert rest[j] == ks[j + 1];
          }
        }
        SumSnoc(Select(ps, key, k0), p);
        assert SumGroups(ps + [p], key, ks) == a.Plus(c).Plus(b);
        Regroup(a, b, c);
      } else {
        assert Select(ps + [p], key, k0) == Select(ps, key, k0) + [];
        assert Select(ps, key, k0) + [] == Select(ps, key, k0);
        var b' := SumGroups(ps + [p], key, rest);
        assert SumGroups(ps + [p], key, ks) == a.Plus(b');
        if key(p) in rest {
          assert b' == b.Plus(c);
          Associate(a, b, c);
        }
      }
    }
  }

  lemma Regroup(a: Tally, b: Tally, c: Tally)
    ensures a.Plus(c).Plus(b) == a.Plus(b).Plus(c)
  {
  }

  lemma Associate(a: Tally, b: Tally, c: Tally)
    ensures a.Plus(b.Plus(c)) == a.Plus(b).Plus(c)
  {
  }

  /**
   * Conservation law: when `ks` names every key that occurs, each once, the
   * groups' figures add up to the figures of all the entries.
   */
  lemma {:induction false} GroupsConserve<K>(ps: seq<MilkProduction>, key: MilkProduction -> K, ks: seq<K>)
    requires Distinct(ks)
    requires forall p :: p in ps ==> key(p) in ks
    ensures SumGroups(ps, key, ks) == Sum(ps)
    decreases ps
  {
    if ps == [] {
      SumGroupsOfNothing(key, ks);
    } else {
      var init, last := ps[..|ps| - 1], ps[|ps| - 1];
      assert ps == init + [last];
      assert last in ps;
      GroupsConserve(init, key, ks);
      SumGroupsSnoc(init, last, key, ks);
    }
  }


  /** The figures of the buckets `m` holds for the keys `ks`, added up. */
  function SumMap<K(==)>(m: map<K, Tally>, ks: seq<K>): Tally
    requires forall k :: k in ks ==> k in m
    decreases ks
  {
    if ks == [] then Zero else m[ks[0]].Plus(SumMap(m, ks[1..]))
  }

  /** Adding up the buckets of an exact grouping is adding up the groups. */
  lemma {:induction false} SumMapOfGrouped<K>(m: map<K, Tally>, ps: seq<MilkProduction>, key: MilkProduction -> K, ks: seq<K>)
    requires Grouped(m, ps, key)
    requires forall k :: k in ks ==> k in m
    ensures SumMap(m, ks) == SumGroups(ps, key, ks)
    decreases ks
  {
    if ks != [] {
      assert ks[0] in ks;
      SumMapOfGrouped(m, ps, key, ks[1..]);
    }
  }

  /**
   * Conservation law for the farm buckets of a summary: taken once each, in
   * any order, the buckets add up to the overall figures.
   */
  lemma FarmBucketsConserve(s: MilkProductionSummary, ps: seq<MilkProduction>, farms: seq<string>)
    requires IsSummaryOf(s, ps)
    requires Distinct(farms) && forall f :: f in farms <==> f in s.byFarm
    ensures SumMap(s.byFarm, farms) == s.totals
  {
    SumMapOfGrouped(s.byFarm, ps, FarmOf, farms);
    KeysOfMembers(ps, FarmOf);
    GroupsConserve(ps, FarmOf, farms);
  }

  // ---------------------------------------------------------------------
  // Month buckets in key order

  /** `a.date.localeCompare(b.date) < 0` for zero-padded "YYYY-MM" keys. */
  predicate Before(a: MonthKey, b: MonthKey) {
    a.year < b.year || (a.year == b.year && a.month < b.month)
  }

  /** Strictly ascending by month key (so no key appears twice). */
  predicate Ascending(ms: seq<MonthlyMilkData>) {
    forall i, j :: 0 <= i < j < |ms| ==> Before(ms[i].date, ms[j].date)
  }

  function BucketKeys(ms: seq<MonthlyMilkData>): set<MonthKey> {
    set b | b in ms :: b.date
  }

  /** The month keys of the buckets, in order. */
  function Dates(ms: seq<MonthlyMilkData>): (ks: seq<MonthKey>)
    ensures |ks| == |ms| && forall i :: 0 <= i < |ms| ==> ks[i] == ms[i].date
  {
    if ms == [] then [] else [ms[0].date] + Dates(ms[1..])
  }

  /** The month buckets of `ps`: one per month that occurs, ascending, each holding that month's figures. */
  ghost predicate MonthBucketsOf(ms: seq<MonthlyMilkData>, ps: seq<MilkProduction>) {
    && Ascending(ms)
    && BucketKeys(ms) == KeysOf(ps, MonthOf)
    && forall b {:trigger b.totals} :: b in ms ==> b.totals == Sum(Select(ps, MonthOf, b.date))
  }

  /** Inserts a bucket for a new month into an ascending list, keeping it ascending. */
  function InsertBucket(ms: seq<MonthlyMilkData>, b: MonthlyMilkData): (r: seq<MonthlyMilkData>)
    requires Ascending(ms) && b.date !in BucketKeys(ms)
    ensures Ascending(r)
    ensures |r| == |ms| + 1
    ensures forall x :: x in r <==> x in ms || x == b
    ensures BucketKeys(r) == BucketKeys(ms) + {b.date}
  {
    if ms == [] then [b]
    else if Before(b.date, ms[0].date) then [b] + ms
    else
      assert ms[0] in ms;
      var tail := InsertBucket(ms[1..], b);
      assert forall x :: x in ms[1..] ==> Before(ms[0].date, x.date) by {
        forall x | x in ms[1..] ensures Before(ms[0].date, x.date) {
          var j :| 0 <= j < |ms[1..]| && ms[1..][j] == x;
          assert ms[j + 1] == x;
        }
      }
      assert forall j :: 0 <= j < |tail| ==> Before(ms[0].date, tail[j].date) by {
        forall j | 0 <= j < |tail| ensures Before(ms[0].date, tail[j].date) {
          assert tail[j] in tail;
        }
      }
      assert ms == [ms[0]] + ms[1..];
      [ms[0]] + tail
  }

  /**
   * Emits the buckets of a month map sorted by key
   * (`Array.from(map.values()).sort((a, b) => a.date.localeCompare(b.date))`):
   * one bucket per key, ascending, each carrying the map's figures for its key.
   */
  method SortMonthBuckets(m: map<MonthKey, Tally>) returns (r: seq<MonthlyMilkData>)
    ensures Ascending(r)
    ensures BucketKeys(r) == m.Keys
    ensures forall b :: b in r ==> b.date in m && b.totals == m[b.date]
  {
    r := [];
    var rest := m.Keys;
    while rest != {}
      invariant rest <= m.Keys
      invariant Ascending(r)
      invariant BucketKeys(r) == m.Keys - rest
      invariant forall b :: b in r ==> b.date in m && b.totals == m[b.date]
      decreases |rest|
    {
      var k :| k in rest;
      r := InsertBucket(r, MonthlyMilkData(k, m[k]));
      rest := rest - {k};
    }
  }

  /** In an ascending list the first bucket has the least key. */
  lemma FirstIsLeast(ms: seq<MonthlyMilkData>, k: MonthKey)
    requires Ascending(ms) && ms != [] && k in BucketKeys(ms) && k != ms[0].date
    ensures Before(ms[0].date, k)
  {
    var x :| x in ms && x.date == k;
    var j :| 0 <= j < |ms| && ms[j] == x;
  }

  lemma DropFirstKeys(ms: seq<MonthlyMilkData>)
    requires Ascending(ms) && ms != []
    ensures BucketKeys(ms[1..]) == BucketKeys(ms) - {ms[0].date}
  {
    assert ms == [ms[0]] + ms[1..];
    forall x | x in ms[1..] ensures x.date != ms[0].date {
      var j :| 0 <= j < |ms[1..]| && ms[1..][j] == x;
      assert ms[j + 1] == x;
    }
  }

  lemma NoKeysNoBuckets(ms: seq<MonthlyMilkData>)
    ensures BucketKeys(ms) == {} <==> ms == []
  {
    if ms != [] {
      assert ms[0].date in BucketKeys(ms);
    }
  }

  /** Two ascending bucket lists over the same months that agree month by month are the same list. */
  lemma {:induction false} AscendingBucketsUnique(a: seq<MonthlyMilkData>, b: seq<MonthlyMilkData>)
    requires Ascending(a) && Ascending(b) && BucketKeys(a) == BucketKeys(b)
    requires forall x, y :: x in a && y in b && x.date == y.date ==> x == y
    ensures a == b
    decreases |a|
  {
    NoKeysNoBuckets(a);
    NoKeysNoBuckets(b);
    if a != [] && b != [] {
      assert a[0].date in BucketKeys(b) by { assert a[0] in a; }
      assert b[0].date in BucketKeys(a) by { assert b[0] in b; }
      if a[0].date != b[0].date {
        FirstIsLeast(a, b[0].date);
        FirstIsLeast(b, a[0].date);
        assert false;
      }
      assert a[0] in a && b[0] in b;
      DropFirstKeys(a);
      DropFirstKeys(b);
      AscendingBucketsUnique(a[1..], b[1..]);
      assert a == [a[0]] + a[1..] && b == [b[0]] + b[1..];
    }
  }

  /**
   * There is one list of month buckets for a list of entries: the emitted
   * month list does not depend on the order in which months were first met.
   */
  lemma MonthBucketsUnique(a: seq<MonthlyMilkData>, b: seq<MonthlyMilkData>, ps: seq<MilkProduction>)
    requires MonthBucketsOf(a, ps) && MonthBucketsOf(b, ps)
    ensures a == b
  {
    AscendingBucketsUnique(a, b);
  }

  /** The month buckets' figures, added up. */
  function SumBuckets(ms: seq<MonthlyMilkData>): Tally {
    if ms == [] then Zero else ms[0].totals.Plus(SumBuckets(ms[1..]))
  }

  lemma DatesDistinct(ms: seq<MonthlyMilkData>)
    requires Ascending(ms)
    ensures Distinct(Dates(ms))
  {
    var ks := Dates(ms);
    forall i, j | 0 <= i < j < |ks| ensures ks[i] != ks[j] {
      assert Before(ms[i].date, ms[j].date);
    }
  }

  lemma {:induction false} BucketsAreGroups(ms: seq<MonthlyMilkData>, ps: seq<MilkProduction>)
    requires forall b :: b in ms ==> b.totals == Sum(Select(ps, MonthOf, b.date))
    ensures SumBuckets(ms) == SumGroups(ps, MonthOf, Dates(ms))
    decreases ms
  {
    if ms != [] {
      assert ms[0] in ms;
      BucketsAreGroups(ms[1..], ps);
      assert Dates(ms)[0] == ms[0].date && Dates(ms)[1..] == Dates(ms[1..]);
    }
  }

  /** Every entry's month is among the keys of its month buckets. */
  lemma MonthsCovered(ms: seq<MonthlyMilkData>, ps: seq<MilkProduction>)
    requires BucketKeys(ms) == KeysOf(ps, MonthOf)
    ensures forall p :: p in ps ==> MonthOf(p) in Dates(ms)
  {
    KeysOfMembers(ps, MonthOf);
    forall p | p in ps ensures MonthOf(p) in Dates(ms) {
      var x :| x in ms && x.date == MonthOf(p);
      var j :| 0 <= j < |ms| && ms[j] == x;
      assert Dates(ms)[j] == MonthOf(p);
    }
  }

  /** Conservation: the month buckets of a list of entries add up to its overall figures. */
  lemma MonthBucketsConserve(ms: seq<MonthlyMilkData>, ps: seq<MilkProduction>)
    requires MonthBucketsOf(ms, ps)
    ensures SumBuckets(ms) == Sum(ps)
  {
    BucketsAreGroups(ms, ps);
    DatesDistinct(ms);
    MonthsCovered(ms, ps);
    GroupsConserve(ps, MonthOf, Dates(ms));
  }

  // ---------------------------------------------------------------------
  // The summary and the yearly archive

  /** `s` is the summary of exactly the entries `ps`. */
  ghost predicate IsSummaryOf(s: MilkProductionSummary, ps: seq<MilkProduction>) {
    && s.totals == Sum(ps)
    && Grouped(s.byFarm, ps, FarmOf)
    && MonthBucketsOf(s.monthlyData, ps)
  }

  /** `a` is the archive record of the entries of `ps` dated in year `y`. */
  ghost predicate IsArchiveOf(a: YearlyArchive, ps: seq<MilkProduction>, y: int) {
    && a.year == y
    && a.totals == Sum(InYear(ps, y))
    && MonthBucketsOf(a.monthlyData, InYear(ps, y))
  }

  /** Month buckets built entry by entry and then emitted in key order are the month buckets of the entries. */
  lemma SortedFoldIsMonthBuckets(ps: seq<MilkProduction>, monthlyDataMap: map<MonthKey, Tally>,
                                 monthlyData: seq<MonthlyMilkData>)
    requires monthlyDataMap == GroupMap(ps, MonthOf)
    requires Ascending(monthlyData) && BucketKeys(monthlyData) == monthlyDataMap.Keys
    requires forall b :: b in monthlyData ==> b.date in monthlyDataMap && b.totals == monthlyDataMap[b.date]
    ensures MonthBucketsOf(monthlyData, ps)
  {
    GroupMapIsGrouped(ps, MonthOf);
  }

  /**
   * The overall figures, the farm buckets built entry by entry and the month
   * buckets built entry by entry and then emitted in key order make up the
   * summary of the entries.
   */
  lemma SummaryOfFolds(ps: seq<MilkProduction>, totals: Tally, farmData: map<string, Tally>,
                       monthlyDataMap: map<MonthKey, Tally>, monthlyData: seq<MonthlyMilkData>)
    requires totals == Sum(ps)
    requires farmData == GroupMap(ps, FarmOf) && monthlyDataMap == GroupMap(ps, MonthOf)
    requires Ascending(monthlyData) && BucketKeys(monthlyData) == monthlyDataMap.Keys
    requires forall b :: b in monthlyData ==> b.date in monthlyDataMap && b.totals == monthlyDataMap[b.date]
    ensures IsSummaryOf(MilkProductionSummary(totals, farmData, monthlyData), ps)
  {
    GroupMapIsGrouped(ps, FarmOf);
    SortedFoldIsMonthBuckets(ps, monthlyDataMap, monthlyData);
  }

  /** One turn of the summary loop keeps its figures those of the entries seen so far. */
  lemma AccumulateStep(ps: seq<MilkProduction>, p: MilkProduction,
                       totals: Tally, farmData: map<string, Tally>, monthlyDataMap: map<MonthKey, Tally>)
    requires totals == Sum(ps)
    requires farmData == GroupMap(ps, FarmOf) && monthlyDataMap == GroupMap(ps, MonthOf)
    ensures totals.Plus(Contribution(p)) == Sum(ps + [p])
    ensures farmData[p.farm := BucketOrZero(farmData, p.farm).Plus(Contribution(p))] == GroupMap(ps + [p], FarmOf)
    ensures monthlyDataMap[MonthOf(p) := BucketOrZero(monthlyDataMap, MonthOf(p)).Plus(Contribution(p))]
         == GroupMap(ps + [p], MonthOf)
  {
    SumSnoc(ps, p);
    GroupMapSnoc(ps, p, FarmOf);
    GroupMapSnoc(ps, p, MonthOf);
  }

  /**
   * The loop of `milkProductionSummary`: each entry's income, expenses and
   * balance go into the overall figures, into its farm's bucket (created at
   * zero when the farm is first met) and into its month's bucket.
   */
  method AccumulateEntries(entries: seq<MilkProduction>)
    returns (totals: Tally, farmData: map<string, Tally>, monthlyDataMap: map<MonthKey, Tally>)
    ensures totals == Sum(entries)
    ensures farmData == GroupMap(entries, FarmOf)
    ensures monthlyDataMap == GroupMap(entries, MonthOf)
  {
    totals := Zero;
    farmData := map[];
    monthlyDataMap := map[];
    var i := 0;
    while i < |entries|
      invariant 0 <= i <= |entries|
      invariant totals == Sum(entries[..i])
      invariant farmData == GroupMap(entries[..i], FarmOf)
      invariant monthlyDataMap == GroupMap(entries[..i], MonthOf)
    {
      var prod := entries[i];
      var income := prod.liters * prod.pricePerLiter;
      var expenses := ExpenseTotal(prod.expenses);
      var balance := income - expenses;
      var entry := Tally(prod.liters, income, expenses, balance);
      var monthKey := MonthKey(prod.date.year, prod.date.month);

      assert entry == Contribution(prod) && monthKey == MonthOf(prod);
      AccumulateStep(entries[..i], prod, totals, farmData, monthlyDataMap);
      assert entries[..i + 1] == entries[..i] + [prod];

      totals := totals.Plus(entry);
      farmData := farmData[prod.farm := BucketOrZero(farmData, prod.farm).Plus(entry)];
      monthlyDataMap := monthlyDataMap[monthKey := BucketOrZero(monthlyDataMap, monthKey).Plus(entry)];
      i := i + 1;
    }
    assert entries[..i] == entries;
  }

  /**
   * `milkProductionSummary` over a list of entries: the accumulated figures,
   * with the month buckets emitted in key order.
   */
  method SummarizeEntries(entries: seq<MilkProduction>) returns (s: MilkProductionSummary)
    ensures IsSummaryOf(s, entries)
  {
    var totals, farmData, monthlyDataMap := AccumulateEntries(entries);
    var monthlyData := SortMonthBuckets(monthlyDataMap);
    SummaryOfFolds(entries, totals, farmData, monthlyDataMap, monthlyData);
    s := MilkProductionSummary(totals, farmData, monthlyData);
  }

  /** Every bucket built entry by entry balances. */
  lemma {:induction false} GroupMapBalanced<K>(ps: seq<MilkProduction>, key: MilkProduction -> K)
    ensures forall k :: k in GroupMap(ps, key) ==> GroupMap(ps, key)[k].Balanced()
    decreases ps
  {
    if ps != [] {
      GroupMapBalanced(ps[..|ps| - 1], key);
    }
  }

  /**
   * One turn of the archive loop's month bookkeeping: liters, income and
   * expenses are added to the month's bucket and its balance is recomputed
   * from them, which is the same as adding the entry's figures.
   */
  lemma ArchiveMonthStep(ps: seq<MilkProduction>, p: MilkProduction, m: map<MonthKey, Tally>)
    requires m == GroupMap(ps, MonthOf)
    ensures var md := BucketOrZero(m, MonthOf(p));
            var c := Contribution(p);
            m[MonthOf(p) := Tally(md.liters + c.liters, md.income + c.income, md.expenses + c.expenses,
                                  (md.income + c.income) - (md.expenses + c.expenses))]
            == GroupMap(ps + [p], MonthOf)
  {
    GroupMapBalanced(ps, MonthOf);
    GroupMapSnoc(ps, p, MonthOf);
  }

  /**
   * The loop of `archiveLastYearData` over the entries of the year being
   * closed: liters, income and expenses are added up, each month's bucket
   * gets the entry's figures with its balance recomputed, the year's balance
   * is set once at the end, and the month buckets are emitted in key order.
   */
  method BuildYearlyArchive(entries: seq<MilkProduction>, year: int) returns (a: YearlyArchive)
    ensures a.year == year
    ensures a.totals == Sum(entries)
    ensures MonthBucketsOf(a.monthlyData, entries)
  {
    var totalLiters, totalIncome, totalExpenses := 0, 0, 0;
    var monthlyDataMap: map<MonthKey, Tally> := map[];
    var i := 0;
    while i < |entries|
      invariant 0 <= i <= |entries|
      invariant totalLiters == Sum(entries[..i]).liters
      invariant totalIncome == Sum(entries[..i]).income
      invariant totalExpenses == Sum(entries[..i]).expenses
      invariant monthlyDataMap == GroupMap(entries[..i], MonthOf)
    {
      var prod := entries[i];
      var income := prod.liters * prod.pricePerLiter;
      var expenses := ExpenseTotal(prod.expenses);
      var monthKey := MonthKey(prod.date.year, prod.date.month);
      assert income == Contribution(prod).income && expenses == Contribution(prod).expenses;
      assert monthKey == MonthOf(prod);
      SumSnoc(entries[..i], prod);
      ArchiveMonthStep(entries[..i], prod, monthlyDataMap);
      assert entries[..i + 1] == entries[..i] + [prod];

      totalLiters := totalLiters + prod.liters;
      totalIncome := totalIncome + income;
      totalExpenses := totalExpenses + expenses;

      var monthData := BucketOrZero(monthlyDataMap, monthKey);
      var liters := monthData.liters + prod.liters;
      var monthIncome := monthData.income + income;
      var monthExpenses := monthData.expenses + expenses;
      monthlyDataMap := monthlyDataMap[monthKey := Tally(liters, monthIncome, monthExpenses, monthIncome - monthExpenses)];
      i := i + 1;
    }
    assert entries[..i] == entries;
    SumBalanced(entries);
    var monthlyData := SortMonthBuckets(monthlyDataMap);
    SortedFoldIsMonthBuckets(entries, monthlyDataMap, monthlyData);
    a := YearlyArchive(year, Tally(totalLiters, totalIncome, totalExpenses, totalIncome - totalExpenses), monthlyData);
  }

  /**
   * `getHistoricalMonthlyData(year, month)`: the first archived year with
   * that number, then its bucket for the month, if any.
   */
  function HistoricalMonthlyData(history: seq<YearlyArchive>, year: int, month: int): (r: Option<MonthlyMilkData>)
    ensures r.Some? ==> r.value.date == MonthKey(year, month)
    ensures r.Some? ==> exists a :: a in history && a.year == year && r.value in a.monthlyData
    ensures (forall a :: a in history ==> a.year != year) ==> r.None?
  {
    match Find(history, (a: YearlyArchive) => a.year == year)
    case None => None
    case Some(yearData) => Find(yearData.monthlyData, (m: MonthlyMilkData) => m.date == MonthKey(year, month))
  }

  /**
   * Looking up a month of an archived year gives that month's figures from
   * the archived entries, and nothing for a month with no entries.
   */
  lemma HistoricalLookup(history: seq<YearlyArchive>, i: int, ps: seq<MilkProduction>, year: int, month: int)
    requires 0 <= i < |history| && IsArchiveOf(history[i], ps, year)
    requires forall j :: 0 <= j < i ==> history[j].year != year
    ensures var r := HistoricalMonthlyData(history, year, month);
            var k := MonthKey(year, month);
            && (r.Some? <==> k in KeysOf(InYear(ps, year), MonthOf))
            && (r.Some? ==> r.value.totals == Sum(Select(InYear(ps, year), MonthOf, k)))
  {
    var f := (a: YearlyArchive) => a.year == year;
    var found := Find(history, f);
    assert found == Some(history[i]) by {
      var w :| 0 <= w < |history| && history[w] == found.value && f(found.value)
                 && forall j :: 0 <= j < w ==> !f(history[j]);
      assert f(history[i]);
      assert w <= i && w >= i;
    }
    var ms := history[i].monthlyData;
    var k := MonthKey(year, month);
    var r := Find(ms, (m: MonthlyMilkData) => m.date == k);
    assert r.Some? <==> k in BucketKeys(ms);
  }
}
