/** The records of src/types/finance.ts. */
module FinanceTypes {

  datatype Option<T> = None | Some(value: T) {
    /** The carried value, or `default` when the field is absent. */
    function GetOr(default: T): T {
      match this
      case Some(v) => v
      case None => default
    }
  }

  /** The `'income' | 'expense'` discriminator (the `type` field of the source). */
  datatype Kind = Income | Expense

  /** One income or expense entry. Amounts are whole Armenian drams. */
  datatype Transaction = Transaction(
    id: string,
    categoryId: string,
    amount: int,
    description: string,
    date: string,
    kind: Kind)

  /** A transaction as a form submits it: every field but the id. */
  datatype TransactionDraft = TransactionDraft(
    categoryId: string,
    amount: int,
    description: string,
    date: string,
    kind: Kind)

  /** `Partial<Transaction>`: each field is either supplied or omitted. */
  datatype TransactionPatch = TransactionPatch(
    id: Option<string>,
    categoryId: Option<string>,
    amount: Option<int>,
    description: Option<string>,
    date: Option<string>,
    kind: Option<Kind>)

  datatype Category = Category(
    id: string,
    name: string,
    kind: Kind,
    icon: Option<string>,
    color: Option<string>)

  /** A category as a form submits it: every field but the id. */
  datatype CategoryDraft = CategoryDraft(
    name: string,
    kind: Kind,
    icon: Option<string>,
    color: Option<string>)

  /** Totals shown on the dashboard, with per-category buckets keyed by category id. */
  datatype Summary = Summary(
    totalIncome: int,
    totalExpense: int,
    balance: int,
    incomeByCategory: map<string, int>,
    expenseByCategory: map<string, int>)

  /** `{...draft, id}`: the draft completed with an identifier. */
  function TransactionWithId(draft: TransactionDraft, id: string): (t: Transaction)
    ensures t.id == id
    ensures TransactionDraft(t.categoryId, t.amount, t.description, t.date, t.kind) == draft
  {
    Transaction(id, draft.categoryId, draft.amount, draft.description, draft.date, draft.kind)
  }

  /** `{...draft, id}` for categories. */
  function CategoryWithId(draft: CategoryDraft, id: string): (c: Category)
    ensures c.id == id
    ensures CategoryDraft(c.name, c.kind, c.icon, c.color) == draft
  {
    Category(id, draft.name, draft.kind, draft.icon, draft.color)
  }

  /** No element of `ts` carries `id`. */
  ghost predicate Absent(ts: seq<Transaction>, id: string) {
    forall i :: 0 <= i < |ts| ==> ts[i].id != id
  }

  /** No two positions of `ts` carry the same id. */
  ghost predicate UniqueIds(ts: seq<Transaction>) {
    forall i, j :: 0 <= i < j < |ts| ==> ts[i].id != ts[j].id
  }
}
