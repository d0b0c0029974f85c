/** The finance store of src/hooks/useFinanceData.ts: two category lists, the
    transaction list and the summary derived from it, replaced wholesale by
    four operations. */
module FinanceData {
  import opened FinanceTypes
  import opened Sequences
  import opened TransactionState
  import opened FinanceSummary
  import MockData

  /** The survivor test of `categories.filter(c => c.id !== id)`. */
  function CategoryIsNot(id: string): Category -> bool {
    (c: Category) => c.id != id
  }

  /** The survivor test of `transactions.filter(t => t.categoryId !== id)`. */
  function CategoryIdIsNot(id: string): Transaction -> bool {
    (t: Transaction) => t.categoryId != id
  }

  /** A category list without the categories carrying `id`. */
  function RemoveCategory(cs: seq<Category>, id: string): (r: seq<Category>)
    ensures forall i :: 0 <= i < |r| ==> r[i].id != id
  {
    Filter(cs, CategoryIsNot(id))
  }

  /** The cascade of a category deletion: every transaction, of either kind,
      that refers to category `id` is dropped. */
  function WithoutCategory(ts: seq<Transaction>, id: string): (r: seq<Transaction>)
    ensures forall i :: 0 <= i < |r| ==> r[i].categoryId != id
  {
    Filter(ts, CategoryIdIsNot(id))
  }

  /** Every category of `cs` is of kind `k`. */
  ghost predicate AllOfKind(cs: seq<Category>, k: Kind) {
    forall i :: 0 <= i < |cs| ==> cs[i].kind == k
  }

  class FinanceStore {
    var incomeCategories: seq<Category>
    var expenseCategories: seq<Category>
    var transactions: seq<Transaction>
    var summary: Summary

    /** The summary is the one derived from the transactions (the effect on
        `transactions` has run), and each category list holds only categories
        of its own kind. */
    ghost predicate Valid()
      reads this
    {
      && summary == SummaryOf(transactions)
      && AllOfKind(incomeCategories, Income)
      && AllOfKind(expenseCategories, Expense)
    }

    /** The initial state: the given lists (NewSeededStore passes the seed
        lists of MockData) and the summary that the mount-time effect computes
        from the initial transactions. */
    constructor (initialIncome: seq<Category>, initialExpense: seq<Category>, initialTransactions: seq<Transaction>)
      requires AllOfKind(initialIncome, Income) && AllOfKind(initialExpense, Expense)
      ensures incomeCategories == initialIncome
      ensures expenseCategories == initialExpense
      ensures transactions == initialTransactions
      ensures Valid()
    {
      incomeCategories := initialIncome;
      expenseCategories := initialExpense;
      transactions := initialTransactions;
      summary := InitialSummary();
      new;
      summary := CalculateSummary(transactions);
    }

    /** Recomputes the summary from the current transactions. */
    method RecalculateSummary()
      modifies this
      ensures summary == SummaryOf(transactions)
      ensures transactions == old(transactions)
      ensures incomeCategories == old(incomeCategories) && expenseCategories == old(expenseCategories)
    {
      summary := CalculateSummary(transactions);
    }

    /** `addTransaction`: the draft, completed with a fresh id, goes to the
        front of the list. */
    method AddTransaction(draft: TransactionDraft, freshId: string)
      requires Valid()
      modifies this
      ensures Valid()
      ensures transactions == [TransactionWithId(draft, freshId)] + old(transactions)
      ensures incomeCategories == old(incomeCategories) && expenseCategories == old(expenseCategories)
      ensures old(UniqueIds(transactions)) && old(Absent(transactions, freshId)) ==> UniqueIds(transactions)
    {
      var newTransaction := TransactionWithId(draft, freshId);
      transactions := [newTransaction] + transactions;
      RecalculateSummary();
    }

    /** `deleteTransaction`: every transaction carrying `id` goes. */
    method DeleteTransaction(id: string)
      requires Valid()
      modifies this
      ensures Valid()
      ensures transactions == RemoveTransactionById(old(transactions), id)
      ensures incomeCategories == old(incomeCategories) && expenseCategories == old(expenseCategories)
      ensures old(UniqueIds(transactions)) ==> UniqueIds(transactions)
    {
      if UniqueIds(transactions) {
        RemoveKeepsIdsUnique(transactions, id);
      }
      transactions := RemoveTransactionById(transactions, id);
      RecalculateSummary();
    }

    /** `addCategory`: the draft, completed with a fresh id, goes to the end of
        the list of its kind; nothing else changes. */
    method AddCategory(draft: CategoryDraft, freshId: string)
      requires Valid()
      modifies this
      ensures Valid()
      ensures var c := CategoryWithId(draft, freshId);
        if draft.kind == Income then
          incomeCategories == old(incomeCategories) + [c] && expenseCategories == old(expenseCategories)
        else
          expenseCategories == old(expenseCategories) + [c] && incomeCategories == old(incomeCategories)
      ensures transactions == old(transactions) && summary == old(summary)
    {
      var newCategory := CategoryWithId(draft, freshId);
      if draft.kind == Income {
        incomeCategories := incomeCategories + [newCategory];
      } else {
        expenseCategories := expenseCategories + [newCategory];
      }
    }

    /** `deleteCategory`: the category goes from the list of the given kind,
        and every transaction referring to its id goes with it. */
    method DeleteCategory(id: string, kind: Kind)
      requires Valid()
      modifies this
      ensures Valid()
      ensures if kind == Income then
          incomeCategories == RemoveCategory(old(incomeCategories), id) && expenseCategories == old(expenseCategories)
        else
          expenseCategories == RemoveCategory(old(expenseCategories), id) && incomeCategories == old(incomeCategories)
      ensures transactions == WithoutCategory(old(transactions), id)
      ensures old(UniqueIds(transactions)) ==> UniqueIds(transactions)
    {
      if UniqueIds(transactions) {
        CascadeKeepsIdsUnique(transactions, id);
      }
      if kind == Income {
        RemoveCategoryKeepsKind(incomeCategories, id, Income);
        incomeCategories := RemoveCategory(incomeCategories, id);
      } else {
        RemoveCategoryKeepsKind(expenseCategories, id, Expense);
        expenseCategories := RemoveCategory(expenseCategories, id);
      }
      transactions := WithoutCategory(transactions, id);
      RecalculateSummary();
    }
  }

  // ---------------------------------------------------------------------------
  // Properties of the store operations

  /** Removing a category keeps exactly the other categories, so a list of one
      kind stays of that kind. */
  lemma RemoveCategoryKeepsKind(cs: seq<Category>, id: string, k: Kind)
    requires AllOfKind(cs, k)
    ensures AllOfKind(RemoveCategory(cs, id), k)
    ensures forall c :: c in RemoveCategory(cs, id) <==> c in cs && c.id != id
  {
    forall c ensures c in RemoveCategory(cs, id) <==> c in cs && c.id != id {
      FilterMembers(cs, CategoryIsNot(id), c);
    }
  }

  /** The cascade keeps exactly the transactions that do not refer to the
      category. */
  lemma CascadeKeepsOthers(ts: seq<Transaction>, id: string, t: Transaction)
    ensures t in WithoutCategory(ts, id) <==> t in ts && t.categoryId != id
  {
    FilterMembers(ts, CategoryIdIsNot(id), t);
  }

  /** The cascade keeps ids unique. */
  lemma CascadeKeepsIdsUnique(ts: seq<Transaction>, id: string)
    requires UniqueIds(ts)
    ensures UniqueIds(WithoutCategory(ts, id))
  {
    var r := WithoutCategory(ts, id);
    var idx := KeptPositions(ts, CategoryIdIsNot(id), 0);
    FilterIsStable(ts, CategoryIdIsNot(id));
    forall i, j | 0 <= i < j < |r| ensures r[i].id != r[j].id {
      assert idx[i] < idx[j];
    }
  }

  /** Relative order survives the cascade: dropping from a concatenation is
      concatenating the drops. */
  lemma CascadeDistributes(a: seq<Transaction>, b: seq<Transaction>, id: string)
    ensures WithoutCategory(a + b, id) == WithoutCategory(a, id) + WithoutCategory(b, id)
  {
    FilterAppend(a, b, CategoryIdIsNot(id));
  }

  /** After the cascade the summary has no bucket for the deleted category, of
      either kind. */
  lemma CascadeDropsBuckets(ts: seq<Transaction>, id: string)
    ensures id !in SummaryOf(WithoutCategory(ts, id)).incomeByCategory
    ensures id !in SummaryOf(WithoutCategory(ts, id)).expenseByCategory
  {
    BucketKeys(WithoutCategory(ts, id), Income, id);
    BucketKeys(WithoutCategory(ts, id), Expense, id);
  }

  /** The cascade leaves the bucket of every other category as it was. */
  lemma CascadeKeepsOtherBuckets(ts: seq<Transaction>, id: string, c: string, k: Kind)
    requires c != id
    ensures c in ByCategory(WithoutCategory(ts, id), k) <==> c in ByCategory(ts, k)
    ensures c in ByCategory(ts, k) ==> ByCategory(WithoutCategory(ts, id), k)[c] == ByCategory(ts, k)[c]
  {
    var w := WithoutCategory(ts, id);
    BucketKeys(w, k, c);
    BucketKeys(ts, k, c);
    if c in ByCategory(ts, k) {
      var i :| 0 <= i < |ts| && ts[i].kind == k && ts[i].categoryId == c;
      CascadeKeepsOthers(ts, id, ts[i]);
      var j :| 0 <= j < |w| && w[j] == ts[i];
      assert c in ByCategory(w, k);
      BucketValue(w, k, c);
      BucketValue(ts, k, c);
      FilterCommute(ts, CategoryIdIsNot(id), IsKind(k));
      FilterNarrower(OfKind(ts, k), CategoryIdIsNot(id), InCategory(c));
    } else if c in ByCategory(w, k) {
      var j :| 0 <= j < |w| && w[j].kind == k && w[j].categoryId == c;
      CascadeKeepsOthers(ts, id, w[j]);
      assert false;
    }
  }

  /** Adding a transaction raises the total of its kind by its amount and
      keeps the balance equal to income minus expense. */
  lemma AddTransactionSummary(draft: TransactionDraft, freshId: string, ts: seq<Transaction>)
    ensures var s := SummaryOf([TransactionWithId(draft, freshId)] + ts);
      && s.totalIncome == SummaryOf(ts).totalIncome + (if draft.kind == Income then draft.amount else 0)
      && s.totalExpense == SummaryOf(ts).totalExpense + (if draft.kind == Expense then draft.amount else 0)
      && s.balance == s.totalIncome - s.totalExpense
  {
    SummaryOfPrepend(TransactionWithId(draft, freshId), ts);
  }

  /** `useFinanceData()`: a store seeded with the lists of MockData, its
      summary computed from the seed transactions. */
  method NewSeededStore() returns (store: FinanceStore)
    ensures fresh(store) && store.Valid()
    ensures store.incomeCategories == MockData.IncomeCategories()
    ensures store.expenseCategories == MockData.ExpenseCategories()
    ensures store.transactions == MockData.Transactions()
  {
    store := new FinanceStore(MockData.IncomeCategories(), MockData.ExpenseCategories(), MockData.Transactions());
  }
}
