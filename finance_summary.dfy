/** `calculateSummary` of src/hooks/useFinanceData.ts: totals by kind, the
    balance, and per-category buckets, derived from the transaction list. */
module FinanceSummary {
  import opened FinanceTypes
  import opened Sequences

  /** The test of `.filter(t => t.type === kind)`. */
  function IsKind(k: Kind): Transaction -> bool {
    (t: Transaction) => t.kind == k
  }

  /** The test that selects one category's transactions. */
  function InCategory(c: string): Transaction -> bool {
    (t: Transaction) => t.categoryId == c
  }

  /** The transactions of kind `k`, in order. */
  function OfKind(ts: seq<Transaction>, k: Kind): (r: seq<Transaction>)
    ensures forall i :: 0 <= i < |r| ==> r[i].kind == k
  {
    Filter(ts, IsKind(k))
  }

  /** No amount in `ts` is negative. */
  ghost predicate NonNegativeAmounts(ts: seq<Transaction>) {
    forall i :: 0 <= i < |ts| ==> ts[i].amount >= 0
  }

  /** `.reduce((sum, t) => sum + t.amount, 0)`: a left fold over the amounts.
      Over non-negative amounts the sum is non-negative and bounds every
      single amount. */
  function Total(ts: seq<Transaction>): (r: int)
    ensures NonNegativeAmounts(ts) ==> r >= 0
    ensures NonNegativeAmounts(ts) ==> forall i :: 0 <= i < |ts| ==> ts[i].amount <= r
  {
    if ts == [] then 0 else Total(ts[..|ts| - 1]) + ts[|ts| - 1].amount
  }

  /** `bucket[t.categoryId] = (bucket[t.categoryId] || 0) + t.amount`. */
  function AddTo(bucket: map<string, int>, t: Transaction): (r: map<string, int>)
    ensures r.Keys == bucket.Keys + {t.categoryId}
    ensures r[t.categoryId] == (if t.categoryId in bucket then bucket[t.categoryId] else 0) + t.amount
    ensures forall c :: c in bucket && c != t.categoryId ==> r[c] == bucket[c]
  {
    bucket[t.categoryId := (if t.categoryId in bucket then bucket[t.categoryId] else 0) + t.amount]
  }

  /** The buckets of kind `k` after the `forEach` has visited every element of
      `ts` in order. Each transaction opens at most one bucket. */
  function ByCategory(ts: seq<Transaction>, k: Kind): (r: map<string, int>)
  {
    if ts == [] then map[]
    else
      var before := ByCategory(ts[..|ts| - 1], k);
      var t := ts[|ts| - 1];
      if t.kind == k then AddTo(before, t) else before
  }

  /** The summary the store holds once `calculateSummary` has run on `ts`:
      the balance is income minus expense, and there are no more buckets than
      transactions. */
  function SummaryOf(ts: seq<Transaction>): (r: Summary)
    ensures r.balance == r.totalIncome - r.totalExpense
    ensures |r.incomeByCategory| + |r.expenseByCategory| <= |ts|
  {
    KindsPartition(ts);
    BucketCount(ts, Income);
    BucketCount(ts, Expense);
    var income := Total(OfKind(ts, Income));
    var expense := Total(OfKind(ts, Expense));
    Summary(income, expense, income - expense, ByCategory(ts, Income), ByCategory(ts, Expense))
  }

  /** The summary the store starts with, before any calculation: the one an
      empty transaction list yields. */
  function InitialSummary(): (s: Summary)
    ensures s == SummaryOf([])
  {
    Summary(0, 0, 0, map[], map[])
  }

  /** The `forEach` of `calculateSummary`: one pass over `ts` that accumulates
      each transaction into the bucket map of its kind. */
  method BucketPass(ts: seq<Transaction>) returns (incomeByCategory: map<string, int>, expenseByCategory: map<string, int>)
    ensures incomeByCategory == ByCategory(ts, Income)
    ensures expenseByCategory == ByCategory(ts, Expense)
  {
    incomeByCategory := map[];
    expenseByCategory := map[];
    var i := 0;
    while i < |ts|
      invariant 0 <= i <= |ts|
      invariant incomeByCategory == ByCategory(ts[..i], Income)
      invariant expenseByCategory == ByCategory(ts[..i], Expense)
    {
      var t := ts[i];
      ByCategoryStep(ts, i, Income);
      ByCategoryStep(ts, i, Expense);
      if t.kind == Income {
        incomeByCategory := AddTo(incomeByCategory, t);
      } else {
        expenseByCategory := AddTo(expenseByCategory, t);
      }
      i := i + 1;
    }
    assert ts[..|ts|] == ts;
  }

  /** `calculateSummary`: the two filtered sums, then the bucket pass. */
  method CalculateSummary(ts: seq<Transaction>) returns (s: Summary)
    ensures s == SummaryOf(ts)
    ensures s.balance == s.totalIncome - s.totalExpense
  {
    var totalIncome := Total(OfKind(ts, Income));
    var totalExpense := Total(OfKind(ts, Expense));
    var incomeByCategory, expenseByCategory := BucketPass(ts);
    s := Summary(totalIncome, totalExpense, totalIncome - totalExpense, incomeByCategory, expenseByCategory);
  }

  /** One more step of the pass: the buckets after `i + 1` elements. */
  lemma ByCategoryStep(ts: seq<Transaction>, i: nat, k: Kind)
    requires i < |ts|
    ensures ByCategory(ts[..i + 1], k)
         == if ts[i].kind == k then AddTo(ByCategory(ts[..i], k), ts[i]) else ByCategory(ts[..i], k)
  {
    assert ts[..i + 1][..i] == ts[..i];
  }

  /** Every transaction is of exactly one kind, so the two kind filters split
      the list. */
  lemma {:induction false} KindsPartition(ts: seq<Transaction>)
    ensures |OfKind(ts, Income)| + |OfKind(ts, Expense)| == |ts|
  {
    if ts != [] {
      KindsPartition(ts[1..]);
    }
  }

  /** A kind has no more buckets than it has transactions. */
  lemma {:induction false} BucketCount(ts: seq<Transaction>, k: Kind)
    ensures |ByCategory(ts, k)| <= |OfKind(ts, k)|
    decreases |ts|
  {
    if ts != [] {
      var front := ts[..|ts| - 1];
      var t := ts[|ts| - 1];
      assert ts == front + [t];
      BucketCount(front, k);
      OfKindSnoc(front, t, k);
    }
  }

  // ---------------------------------------------------------------------------
  // Sums

  /** Summing is additive over concatenation. */
  lemma {:induction false} TotalAppend(a: seq<Transaction>, b: seq<Transaction>)
    ensures Total(a + b) == Total(a) + Total(b)
    decreases |b|
  {
    if b == [] {
      assert a + b == a;
    } else {
      var b' := b[..|b| - 1];
      assert (a + b)[..|a + b| - 1] == a + b';
      TotalAppend(a, b');
    }
  }

  /** The sum of every value of a map. */
  ghost function MapSum(m: map<string, int>): int
    decreases |m|
  {
    if m == map[] then 0
    else
      var k :| k in m;
      assert |m - {k}| < |m| by {
        assert m.Keys - {k} < m.Keys;
      }
      m[k] + MapSum(m - {k})
  }

  /** A map's sum is any one entry plus the sum of the rest. */
  lemma {:induction false} MapSumWithout(m: map<string, int>, k: string)
    requires k in m
    ensures MapSum(m) == m[k] + MapSum(m - {k})
    decreases |m|
  {
    var j :| j in m && MapSum(m) == m[j] + MapSum(m - {j});
    if j != k {
      assert |m - {j}| < |m| by {
        assert (m - {j}).Keys < m.Keys;
      }
      assert |m - {k}| < |m| by {
        assert (m - {k}).Keys < m.Keys;
      }
      MapSumWithout(m - {j}, k);
      MapSumWithout(m - {k}, j);
      assert m - {j} - {k} == m - {k} - {j};
    }
  }

  /** Adding into one bucket raises the sum by exactly the amount added. */
  lemma AddToSum(bucket: map<string, int>, t: Transaction)
    ensures MapSum(AddTo(bucket, t)) == MapSum(bucket) + t.amount
  {
    var c := t.categoryId;
    var r := AddTo(bucket, t);
    MapSumWithout(r, c);
    if c in bucket {
      MapSumWithout(bucket, c);
      assert r - {c} == bucket - {c};
    } else {
      assert r - {c} == bucket;
    }
  }

  /** Splitting off the last element: the kind filter of a longer prefix. */
  lemma OfKindSnoc(ts: seq<Transaction>, t: Transaction, k: Kind)
    ensures OfKind(ts + [t], k) == OfKind(ts, k) + (if t.kind == k then [t] else [])
  {
    FilterAppend(ts, [t], IsKind(k));
    assert Filter([t], IsKind(k)) == (if t.kind == k then [t] else []) + Filter([], IsKind(k));
  }

  // ---------------------------------------------------------------------------
  // Properties of the summary

  /** The values of the per-category buckets of a kind add up to that kind's
      total. */
  lemma {:induction false} BucketsSumToTotal(ts: seq<Transaction>, k: Kind)
    ensures MapSum(ByCategory(ts, k)) == Total(OfKind(ts, k))
    decreases |ts|
  {
    if ts != [] {
      var front := ts[..|ts| - 1];
      var t := ts[|ts| - 1];
      assert ts == front + [t];
      BucketsSumToTotal(front, k);
      OfKindSnoc(front, t, k);
      if t.kind == k {
        AddToSum(ByCategory(front, k), t);
        TotalAppend(OfKind(front, k), [t]);
        assert Total([t]) == t.amount by {
          assert [t][..0] == [];
        }
      } else {
        assert OfKind(ts, k) == OfKind(front, k);
      }
    }
  }

  /** A bucket exists exactly for the categories some transaction of that kind
      refers to. */
  lemma {:induction false} BucketKeys(ts: seq<Transaction>, k: Kind, c: string)
    ensures c in ByCategory(ts, k) <==> exists i :: 0 <= i < |ts| && ts[i].kind == k && ts[i].categoryId == c
    decreases |ts|
  {
    if ts != [] {
      var front := ts[..|ts| - 1];
      BucketKeys(front, k, c);
      assert forall i :: 0 <= i < |front| ==> front[i] == ts[i];
      if c in ByCategory(front, k) {
        var i :| 0 <= i < |front| && front[i].kind == k && front[i].categoryId == c;
        assert ts[i] == front[i];
      }
    }
  }

  /** Each bucket holds the sum of the amounts of that category's transactions
      of that kind. */
  lemma {:induction false} BucketValue(ts: seq<Transaction>, k: Kind, c: string)
    requires c in ByCategory(ts, k)
    ensures ByCategory(ts, k)[c] == Total(Filter(OfKind(ts, k), InCategory(c)))
    decreases |ts|
  {
    var front := ts[..|ts| - 1];
    var t := ts[|ts| - 1];
    assert ts == front + [t];
    var before := ByCategory(front, k);
    OfKindSnoc(front, t, k);
    var add := if t.kind == k then [t] else [];
    FilterAppend(OfKind(front, k), add, InCategory(c));
    var picked := Filter(add, InCategory(c));
    assert picked == if t.kind == k && t.categoryId == c then [t] else [] by {
      if t.kind == k {
        assert Filter(add, InCategory(c)) == (if t.categoryId == c then [t] else []) + Filter([], InCategory(c));
      }
    }
    TotalAppend(Filter(OfKind(front, k), InCategory(c)), picked);
    assert Total([t]) == t.amount by {
      assert [t][..0] == [];
    }
    if c in before {
      BucketValue(front, k, c);
    } else {
      BucketKeys(front, k, c);
      EmptyWhenAbsent(front, k, c);
    }
  }

  /** With no transaction of kind `k` in category `c`, that category's total is 0. */
  lemma {:induction false} EmptyWhenAbsent(ts: seq<Transaction>, k: Kind, c: string)
    requires forall i :: 0 <= i < |ts| ==> !(ts[i].kind == k && ts[i].categoryId == c)
    ensures Total(Filter(OfKind(ts, k), InCategory(c))) == 0
  {
    var sel := Filter(OfKind(ts, k), InCategory(c));
    if sel != [] {
      var x := sel[0];
      FilterMembers(OfKind(ts, k), InCategory(c), x);
      FilterMembers(ts, IsKind(k), x);
      assert false;
    }
  }

  /** Adding a transaction at the front raises the total of its kind by its
      amount and leaves the other kind's total alone. */
  lemma SummaryOfPrepend(t: Transaction, ts: seq<Transaction>)
    ensures SummaryOf([t] + ts).totalIncome
         == SummaryOf(ts).totalIncome + (if t.kind == Income then t.amount else 0)
    ensures SummaryOf([t] + ts).totalExpense
         == SummaryOf(ts).totalExpense + (if t.kind == Expense then t.amount else 0)
  {
    forall k | k in {Income, Expense}
      ensures Total(OfKind([t] + ts, k)) == Total(OfKind(ts, k)) + (if t.kind == k then t.amount else 0)
    {
      FilterAppend([t], ts, IsKind(k));
      assert Filter([t], IsKind(k)) == (if t.kind == k then [t] else []) + Filter([], IsKind(k));
      TotalAppend(if t.kind == k then [t] else [], OfKind(ts, k));
      assert Total([t]) == t.amount by {
        assert [t][..0] == [];
      }
    }
  }

  /** Two income transactions in category "a" and one expense in "b":
      income 160, expense 40, balance 120, one bucket per kind. */
  lemma SummaryScenario()
    ensures SummaryOf([
      Transaction("1", "a", 100, "", "2024-01-01", Income),
      Transaction("2", "b", 40, "", "2024-01-02", Expense),
      Transaction("3", "a", 60, "", "2024-01-03", Income)])
      == Summary(160, 40, 120, map["a" := 160], map["b" := 40])
  {
    var t1 := Transaction("1", "a", 100, "", "2024-01-01", Income);
    var t2 := Transaction("2", "b", 40, "", "2024-01-02", Expense);
    var t3 := Transaction("3", "a", 60, "", "2024-01-03", Income);
    var ts := [t1, t2, t3];
    assert ts[1..] == [t2, t3] && ts[1..][1..] == [t3] && [t3][1..] == [];
    assert IsKind(Income)(t1) && !IsKind(Income)(t2) && IsKind(Income)(t3);
    assert Filter([t3], IsKind(Income)) == [t3];
    assert Filter([t2, t3], IsKind(Income)) == [t3];
    assert OfKind(ts, Income) == [t1, t3];
    assert Filter([t3], IsKind(Expense)) == [];
    assert Filter([t2, t3], IsKind(Expense)) == [t2];
    assert OfKind(ts, Expense) == [t2];
    assert [t1, t3][..1] == [t1] && [t1][..0] == [] && [t2][..0] == [];
    assert Total([t1]) == 100;
    assert Total([t1, t3]) == 160;
    assert Total([t2]) == 40;
    assert ts[..2] == [t1, t2] && ts[..2][..1] == [t1] && [t1][..0] == [];
    assert ByCategory([t1], Income) == map["a" := 100];
    assert ByCategory([t1, t2], Income) == map["a" := 100];
    assert ByCategory(ts, Income) == map["a" := 160];
    assert ByCategory([t1], Expense) == map[];
    assert ByCategory([t1, t2], Expense) == map["b" := 40];
    assert ByCategory(ts, Expense) == map["b" := 40];
  }
}
