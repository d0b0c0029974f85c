# Finance tracker state logic, in Dafny

This project models the client-side state logic of a small-business finance
tracker for a driving school. The tracker records income and expense
transactions in Armenian drams. It has two pieces:

- **The transaction-sequence reducer** (`src/utils/transactionState.ts`).
  It has four pure operations on an ordered list of transactions: append at
  the end, replace by id, shallow-merge a partial record by id, and remove
  by id. Replace-by-id is how a temporary id is promoted to a permanent one.
- **The finance store** (`src/hooks/useFinanceData.ts`). It holds an income
  category list, an expense category list, the transaction list and a
  derived summary. The summary has total income, total expense, balance and
  per-category buckets. The store's operations add a transaction at the
  front, delete a transaction, add a category to the list of its kind, and
  delete a category. Deleting a category also drops every transaction that
  refers to it.

Files and modules:

- `sequences.dfy` (`Sequences`): an order-preserving `Filter`. Every
  `.filter(...)` of the source is an instance of it. It comes with lemmas on
  membership, stability (the kept positions strictly increase), distribution
  over concatenation and idempotence.
- `finance_types.dfy` (`FinanceTypes`): the records of `src/types/finance.ts`.
  The source's `type` field is called `kind` here. The partial record is a
  `TransactionPatch` with one `Option` per field.
- `transaction_state.dfy` (`TransactionState`): the four reducer functions,
  their properties, and the create → confirm → update → delete scenario of
  `tests/transactionSequence.test.ts`.
- `finance_summary.dfy` (`FinanceSummary`): `calculateSummary`.
  - The two totals are filter-then-sum (`Total(OfKind(...))`).
  - The `forEach` is the `while` loop of `BucketPass`, which fills the two
    bucket maps. `CalculateSummary` is proved equal to the recursive
    specification `SummaryOf`.
  - Lemmas prove that the buckets sum to the totals, that a bucket exists
    exactly for the categories in use, and that each bucket holds that
    category's sum.
- `finance_data.dfy` (`FinanceData`): the store.
  - It is a class `FinanceStore` with the four state slots as fields. Its
    methods reassign the fields, as the hook's setters do.
  - `Valid()` is the store invariant. The summary equals `SummaryOf` of the
    transactions, and each category list holds only categories of its own
    kind.
  - Lemmas cover the cascade of a category deletion and the effect of
    adding a transaction on the totals.
- `mock_data.dfy` (`MockData`): the seed lists of `src/data/mockData.ts`,
  from which `FinanceData.NewSeededStore` builds the initial store.

Behaviour of the code worth noting:

- A merge patch that supplies an `id` does overwrite the id. The object
  spread in `transactionState.ts:20` does this. So a patch carrying an id
  that another element already has creates a duplicate id
  (`MergeCanDuplicateIds`); merge keeps ids unique only when the patch's id
  is absent, the same, or new to the list (`MergeKeepsIdsUnique`).
- Amounts are numbers that are summed directly. No string amount is parsed.
- The store puts new transactions at the front (`useFinanceData.ts:55`). The
  reducer's append puts them at the end.
- The category cascade drops matching transactions of both kinds, whatever
  the kind of the deleted category (`useFinanceData.ts:82`).

## Model

| member | source | states |
|---|---|---|
| `Sequences.Filter` | src/utils/transactionState.ts:24 | The result is no longer than the input, and every survivor satisfies the test. |
| `Sequences.FilterMembers` | src/utils/transactionState.ts:24 | An element survives exactly when it occurs in the input and satisfies the test. |
| `Sequences.FilterIsStable` | src/utils/transactionState.ts:24 | The j-th survivor is the input element at the j-th kept position. Kept positions strictly increase, and every element satisfying the test has its position kept. In short, relative order is preserved. |
| `Sequences.FilterAppend` | src/utils/transactionState.ts:24 | Filtering a concatenation is concatenating the filtered parts. |
| `Sequences.FilterIdempotent` | src/utils/transactionState.ts:24 | Filtering twice with the same test equals filtering once. |
| `Sequences.FilterCommute` | src/hooks/useFinanceData.ts:82 | Two filters may be applied in either order: the cascade filter of line 82 commutes with the kind filter of lines 23 and 27. |
| `Sequences.FilterNarrower` | src/hooks/useFinanceData.ts:82 | A filter followed by a stricter one equals the stricter one alone: selecting one other category after the cascade of line 82 is selecting it directly. |
| `FinanceTypes.TransactionWithId` | src/hooks/useFinanceData.ts:51-54 | The new record carries the given id and every field of the draft unchanged. |
| `FinanceTypes.CategoryWithId` | src/hooks/useFinanceData.ts:63-66 | The new category carries the given id and every field of the draft unchanged. |
| `TransactionState.AppendTransaction` | src/utils/transactionState.ts:3-5 | The length grows by one, the prefix before it is exactly the input, and the last element is the appended record. |
| `TransactionState.ReplaceTransactionById` | src/utils/transactionState.ts:7-13 | The length is preserved. Each position whose id matches holds the replacement, and every other position is unchanged. |
| `TransactionState.MergeTransactionById` | src/utils/transactionState.ts:15-21 | The length is preserved. Each matching position holds the original merged with the patch, and every other position is unchanged. |
| `TransactionState.Merge` | src/utils/transactionState.ts:20 | A merged record takes every field the patch supplies, the id included, and keeps every field the patch omits. |
| `TransactionState.MergeLaws` | src/utils/transactionState.ts:20 | Merging the empty patch is the identity. Merging the same patch twice equals merging it once. |
| `TransactionState.MergeFullPatchIsReplace` | src/utils/transactionState.ts:12-20 | Merging a patch that supplies every field of u equals replacing by u. |
| `TransactionState.RemoveTransactionById` | src/utils/transactionState.ts:23-25 | No element of the result carries the removed id. |
| `TransactionState.AbsentIdIsNoOp` | src/utils/transactionState.ts:12-24 | If no element carries the id, replace, merge and remove all return the sequence unchanged. |
| `TransactionState.ReplacePromotes` | src/utils/transactionState.ts:12 | Replacing a present id puts the replacement in the sequence. If the replacement's id differs, no element keeps the old id. |
| `TransactionState.ReplaceKeepsIdsUnique` | src/utils/transactionState.ts:12 | Suppose ids are unique and the replacement's id is either the old id or new to the sequence. Then ids stay unique. |
| `TransactionState.MergeKeepsIdsUnique` | src/utils/transactionState.ts:20 | Suppose ids are unique and the patch has no id, repeats the merged id, or brings an id new to the sequence. Then ids stay unique. |
| `TransactionState.MergeCanDuplicateIds` | src/utils/transactionState.ts:20 | Merging the patch {id: "b"} into record "a" of [a, b] yields two records with id "b": a patch id already in use breaks uniqueness. |
| `TransactionState.RemoveKeepsOthers` | src/utils/transactionState.ts:24 | A record is in the result exactly when it is in the input and does not carry the id. |
| `TransactionState.RemoveLength` | src/utils/transactionState.ts:24 | The result is shorter than the input by the number of elements carrying the id. |
| `TransactionState.RemoveDistributes` | src/utils/transactionState.ts:24 | Removing from a concatenation is concatenating the removals, so order is preserved. |
| `TransactionState.RemoveIdempotent` | src/utils/transactionState.ts:24 | Removing the same id twice equals removing it once. |
| `TransactionState.RemoveKeepsIdsUnique` | src/utils/transactionState.ts:24 | Removal keeps ids unique. |
| `TransactionState.AppendKeepsIdsUnique` | src/utils/transactionState.ts:3-5 | Appending a record whose id is new keeps ids unique. |
| `TransactionState.LifecycleScenario` | tests/transactionSequence.test.ts:19-32 | Start from [] and run append temp-1, replace with txn-1, merge {amount 150, description "Updated"}, remove txn-1. The lengths are 1, 1, 1, 0, the id becomes txn-1, and amount and description are updated. |
| `FinanceSummary.OfKind` | src/hooks/useFinanceData.ts:22-28 | Every selected transaction has the requested kind. |
| `FinanceSummary.Total` | src/hooks/useFinanceData.ts:24 | Over non-negative amounts the sum is non-negative and at least every single amount. |
| `FinanceSummary.AddTo` | src/hooks/useFinanceData.ts:35-37 | Accumulating a transaction adds exactly its category to the bucket keys; that bucket becomes its old value (0 when absent) plus the amount, and every other bucket keeps its value. |
| `FinanceSummary.SummaryOf` | src/hooks/useFinanceData.ts:41-47 | The balance is income minus expense, and the two bucket maps together have no more entries than there are transactions. |
| `FinanceSummary.InitialSummary` | src/hooks/useFinanceData.ts:9-15 | The initial summary is exactly the summary of an empty transaction list. |
| `FinanceSummary.BucketPass` | src/hooks/useFinanceData.ts:33-39 | The in-order pass leaves each kind's bucket map equal to `ByCategory` of the whole list for that kind. |
| `FinanceSummary.CalculateSummary` | src/hooks/useFinanceData.ts:21-48 | The summary equals `SummaryOf`: income and expense are the sums of their kinds, balance = income − expense, and the buckets come from the in-order pass. |
| `FinanceSummary.KindsPartition` | src/hooks/useFinanceData.ts:22-27 | The income filter and the expense filter together keep exactly as many transactions as the list has. |
| `FinanceSummary.BucketCount` | src/hooks/useFinanceData.ts:33-39 | A kind has no more buckets than transactions of that kind. |
| `FinanceSummary.TotalAppend` | src/hooks/useFinanceData.ts:22-28 | The sum of amounts is additive over concatenation. |
| `FinanceSummary.AddToSum` | src/hooks/useFinanceData.ts:35-37 | Accumulating a transaction raises the sum of all buckets by exactly its amount. |
| `FinanceSummary.BucketsSumToTotal` | src/hooks/useFinanceData.ts:22-39 | The values of each kind's buckets sum to that kind's total. |
| `FinanceSummary.BucketKeys` | src/hooks/useFinanceData.ts:33-39 | A category has a bucket of a kind exactly when some transaction of that kind refers to it. |
| `FinanceSummary.BucketValue` | src/hooks/useFinanceData.ts:30-39 | Each bucket holds the sum of the amounts of that category's transactions of that kind. |
| `FinanceSummary.SummaryOfPrepend` | src/hooks/useFinanceData.ts:21-28 | Putting a transaction at the front raises the total of its kind by its amount and leaves the other total alone. |
| `FinanceSummary.SummaryScenario` | src/hooks/useFinanceData.ts:21-48 | Income 100 and 60 in "a" plus expense 40 in "b" give income 160, expense 40, balance 120, {a: 160} and {b: 40}. |
| `FinanceData.RemoveCategory` | src/hooks/useFinanceData.ts:77-79 | No remaining category carries the deleted id. |
| `FinanceData.WithoutCategory` | src/hooks/useFinanceData.ts:82 | No remaining transaction, of either kind, refers to the deleted category. |
| `FinanceData.FinanceStore.constructor` | src/hooks/useFinanceData.ts:6-19 | The store starts with the given lists, and its summary is the one computed from the initial transactions. |
| `FinanceData.FinanceStore.RecalculateSummary` | src/hooks/useFinanceData.ts:17-19 | The summary becomes `SummaryOf` of the transactions, and nothing else changes. |
| `FinanceData.FinanceStore.AddTransaction` | src/hooks/useFinanceData.ts:50-56 | The new record with the fresh id comes first, followed by the old list unchanged. Both category lists are unchanged and the invariant holds. Ids stay unique when the fresh id is new. |
| `FinanceData.FinanceStore.DeleteTransaction` | src/hooks/useFinanceData.ts:58-60 | The transactions become the old list without the id. Both category lists are unchanged, the summary is recomputed and ids stay unique. |
| `FinanceData.FinanceStore.AddCategory` | src/hooks/useFinanceData.ts:62-73 | The new category goes at the end of the list of its kind. The other list, the transactions and the summary are unchanged. |
| `FinanceData.FinanceStore.DeleteCategory` | src/hooks/useFinanceData.ts:75-83 | The id is removed from the list of the given kind and the other list is unchanged. Transactions referring to the id are dropped, the summary is recomputed, and ids stay unique. |
| `FinanceData.RemoveCategoryKeepsKind` | src/hooks/useFinanceData.ts:76-80 | Exactly the other categories remain, so a list of one kind stays of that kind. |
| `FinanceData.CascadeKeepsOthers` | src/hooks/useFinanceData.ts:82 | A transaction survives the cascade exactly when it is in the list and refers to another category. |
| `FinanceData.CascadeKeepsIdsUnique` | src/hooks/useFinanceData.ts:82 | The cascade keeps ids unique. |
| `FinanceData.CascadeDistributes` | src/hooks/useFinanceData.ts:82 | The cascade works element by element, so the survivors keep their order. |
| `FinanceData.CascadeDropsBuckets` | src/hooks/useFinanceData.ts:75-83 | After the cascade, neither kind's buckets contain the deleted category. |
| `FinanceData.CascadeKeepsOtherBuckets` | src/hooks/useFinanceData.ts:75-83 | After the cascade, every other category keeps its bucket, with the same value. |
| `FinanceData.AddTransactionSummary` | src/hooks/useFinanceData.ts:50-56 | After an add, the total of the new record's kind grows by its amount and the balance is still income − expense. |
| `FinanceData.NewSeededStore` | src/hooks/useFinanceData.ts:5-8 | A fresh store holds the three seed lists, and its summary is the one derived from the seed transactions. |
| `MockData.IncomeCategories` | src/data/mockData.ts:3-9 | Five categories, all of kind income. |
| `MockData.ExpenseCategories` | src/data/mockData.ts:11-20 | Eight categories, all of kind expense. |
| `MockData.Transactions` | src/data/mockData.ts:22-42 | Sixteen transactions: the first eight income, the last eight expense, every amount positive. |
| `MockData.SeedCategoriesExist` | src/data/mockData.ts:22-42 | Every seed transaction refers to the id of a seed category of its own kind. |

## Left out

- React rendering, pages and components, currency formatting, analytics
  charts and CSV export are not modelled. They are presentation and I/O.
- `Date.now()` id generation is a caller-supplied `freshId`. No precondition
  asks for freshness, because the source checks none. Two adds in the same
  millisecond would collide. Unique ids are promised only when the caller's
  id is new.
- Each store method recomputes the summary as its last step whenever it
  changes the transactions. The source defers this to a React effect, so
  for one render the source's summary lags behind its transactions.
- FinanceData.FinanceStore.constructor: takes the initial lists as
  parameters instead of reading the seed constants directly, and requires
  them to be well-kinded. `NewSeededStore` passes the `MockData` seed, whose
  functions promise the kinds the constructor requires. The seed's concrete
  totals and the distinctness of its ids are not computed in the model.
- Every page (`Income.tsx`, `Expense.tsx`, `Dashboard.tsx`, `Analytics.tsx`)
  calls `useFinanceData()` on its own, so each page holds its own store,
  seeded afresh, and changes made on one page are not seen by another. One
  `FinanceStore` stands for one such hook instance; pages are not modelled.
- `Dashboard.tsx` sorts the hook's own `transactions` array in place by
  date, newest first (`src/pages/Dashboard.tsx:13-15`). In the Dashboard's
  store the list is therefore in date order. The model's "order preserved"
  promises (`FilterIsStable`, `RemoveDistributes`, `CascadeDistributes`)
  are about whatever order the list has when the operation runs, not
  necessarily insertion order.
- JavaScript number arithmetic (floating point, `NaN`) is not modelled.
  Amounts are unbounded integers.
- A patch field present with the value `undefined` is not modelled. In the
  source it would overwrite the field with `undefined`.
- A transaction whose type is neither income nor expense cannot occur in
  the model, because `Kind` has two values. In the source it would count
  toward the expense buckets but not toward the expense total.
- Plain-object prototype keys are not modelled. In the source, a category
  id such as `"constructor"` would read an inherited property from the
  bucket object.
- The types file names the category field `category_id`, while the store
  and seed data use `categoryId`. The model has a single `categoryId`.
