/** The seed data of src/data/mockData.ts, with which the store starts. */
module MockData {
  import opened FinanceTypes

  /** The ids of a category list, in order. */
  function Ids(cs: seq<Category>): seq<string> {
    if cs == [] then [] else [cs[0].id] + Ids(cs[1..])
  }

  /** The five income categories, all of kind income. */
  function IncomeCategories(): (cs: seq<Category>)
    ensures |cs| == 5
    ensures forall i :: 0 <= i < |cs| ==> cs[i].kind == Income
  {
    [
      Category("theory", "Տեսություն", Income, Some("📚"), None),
      Category("theory-online", "Տեսություն օնլայն", Income, Some("💻"), None),
      Category("driving", "Վարում", Income, Some("🚗"), None),
      Category("exam", "Քննություն", Income, Some("📝"), None),
      Category("additional", "Լրացուցիչ ծառայություններ", Income, Some("⭐"), None)
    ]
  }

  /** The eight expense categories, all of kind expense. */
  function ExpenseCategories(): (cs: seq<Category>)
    ensures |cs| == 8
    ensures forall i :: 0 <= i < |cs| ==> cs[i].kind == Expense
  {
    [
      Category("rent", "Վարձակալություն", Expense, Some("🏢"), None),
      Category("salaries", "Աշխատավարձ", Expense, Some("💰"), None),
      Category("fuel", "Վառելիք", Expense, Some("⛽"), None),
      Category("maintenance", "Մեքենաների սպասարկում", Expense, Some("🔧"), None),
      Category("utilities", "Կոմունալ ծառայություններ", Expense, Some("💡"), None),
      Category("marketing", "Մարքեթինգ", Expense, Some("📢"), None),
      Category("insurance", "Ապահովագրություն", Expense, Some("🛡️"), None),
      Category("other", "Այլ ծախսեր", Expense, Some("📋"), None)
    ]
  }

  /** Sixteen transactions: the first eight are income, the last eight
      expense, every amount is positive. */
  function Transactions(): (ts: seq<Transaction>)
    ensures |ts| == 16
    ensures forall i :: 0 <= i < |ts| ==> ts[i].kind == (if i < 8 then Income else Expense)
    ensures forall i :: 0 <= i < |ts| ==> ts[i].amount > 0
  {
    [
      Transaction("1", "theory", 45000, "Տեսական դասընթաց - Անուն Ազգանուն", "2025-01-15", Income),
      Transaction("2", "theory-online", 35000, "Օնլայն տեսություն - Անուն Ազգանուն", "2025-01-14", Income),
      Transaction("3", "driving", 120000, "Վարման դասեր - Անուն Ազգանուն", "2025-01-13", Income),
      Transaction("4", "exam", 15000, "Քննական վճար", "2025-01-12", Income),
      Transaction("5", "theory", 45000, "Տեսական դասընթաց - Անուն Ազգանուն", "2025-01-11", Income),
      Transaction("6", "driving", 120000, "Վարման դասեր - Անուն Ազգանուն", "2025-01-10", Income),
      Transaction("7", "additional", 25000, "Լրացուցիչ ծառայություններ", "2025-01-09", Income),
      Transaction("8", "theory-online", 35000, "Օնլայն տեսություն - Անուն Ազգանուն", "2025-01-08", Income),
      Transaction("9", "rent", 300000, "Սրահի վարձակալություն", "2025-01-05", Expense),
      Transaction("10", "salaries", 850000, "Աշխատավարձեր - Հունվար", "2025-01-05", Expense),
      Transaction("11", "fuel", 125000, "Վառելիք - Հունվար", "2025-01-06", Expense),
      Transaction("12", "maintenance", 75000, "Մեքենաների սպասարկում", "2025-01-07", Expense),
      Transaction("13", "utilities", 45000, "Կոմունալ վճարներ", "2025-01-08", Expense),
      Transaction("14", "marketing", 50000, "Սոցիալական ցանցերում գովազդ", "2025-01-09", Expense),
      Transaction("15", "insurance", 180000, "Մեքենաների ապահովագրություն", "2025-01-10", Expense),
      Transaction("16", "other", 30000, "Գրասենյակային պիտույքներ", "2025-01-11", Expense)
    ]
  }

  /** Every seed transaction refers to a seed category of its own kind. */
  lemma SeedCategoriesExist()
    ensures forall i :: 0 <= i < |Transactions()| ==>
      Transactions()[i].categoryId in Ids(if Transactions()[i].kind == Income then IncomeCategories() else ExpenseCategories())
  {
  }
}
