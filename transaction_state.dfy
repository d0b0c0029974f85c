/** The transaction-sequence reducer of src/utils/transactionState.ts: four
    total, side-effect-free transformations of an ordered list of
    transactions, and what they guarantee. */
module TransactionState {
  import opened FinanceTypes
  import opened Sequences

  /** `[...transactions, transaction]`. */
  function AppendTransaction(ts: seq<Transaction>, t: Transaction): (r: seq<Transaction>)
    ensures |r| == |ts| + 1
    ensures r[..|ts|] == ts && r[|ts|] == t
  {
    ts + [t]
  }

  /** `transactions.map(t => t.id === id ? replacement : t)`. */
  function ReplaceTransactionById(ts: seq<Transaction>, id: string, replacement: Transaction): (r: seq<Transaction>)
    ensures |r| == |ts|
    ensures forall i :: 0 <= i < |ts| ==> r[i] == (if ts[i].id == id then replacement else ts[i])
  {
    if ts == [] then []
    else [if ts[0].id == id then replacement else ts[0]] + ReplaceTransactionById(ts[1..], id, replacement)
  }

  /** `{...t, ...patch}`: every field the patch supplies wins, every other field
      is kept. The id is an ordinary field here, so a patch may rename. */
  function Merge(t: Transaction, patch: TransactionPatch): (m: Transaction)
    ensures if patch.id.Some? then m.id == patch.id.value else m.id == t.id
    ensures if patch.categoryId.Some? then m.categoryId == patch.categoryId.value else m.categoryId == t.categoryId
    ensures if patch.amount.Some? then m.amount == patch.amount.value else m.amount == t.amount
    ensures if patch.description.Some? then m.description == patch.description.value else m.description == t.description
    ensures if patch.date.Some? then m.date == patch.date.value else m.date == t.date
    ensures if patch.kind.Some? then m.kind == patch.kind.value else m.kind == t.kind
  {
    Transaction(
      patch.id.GetOr(t.id),
      patch.categoryId.GetOr(t.categoryId),
      patch.amount.GetOr(t.amount),
      patch.description.GetOr(t.description),
      patch.date.GetOr(t.date),
      patch.kind.GetOr(t.kind))
  }

  /** `transactions.map(t => t.id === id ? {...t, ...patch} : t)`. */
  function MergeTransactionById(ts: seq<Transaction>, id: string, patch: TransactionPatch): (r: seq<Transaction>)
    ensures |r| == |ts|
    ensures forall i :: 0 <= i < |ts| ==> r[i] == (if ts[i].id == id then Merge(ts[i], patch) else ts[i])
  {
    if ts == [] then []
    else [if ts[0].id == id then Merge(ts[0], patch) else ts[0]] + MergeTransactionById(ts[1..], id, patch)
  }

  /** The survivor test of `removeTransactionById`. */
  function IdIsNot(id: string): Transaction -> bool {
    (t: Transaction) => t.id != id
  }

  /** `transactions.filter(t => t.id !== id)`. */
  function RemoveTransactionById(ts: seq<Transaction>, id: string): (r: seq<Transaction>)
    ensures forall i :: 0 <= i < |r| ==> r[i].id != id
  {
    Filter(ts, IdIsNot(id))
  }

  /** How many elements of `ts` carry `id`. */
  function Occurrences(ts: seq<Transaction>, id: string): nat {
    if ts == [] then 0
    else (if ts[0].id == id then 1 else 0) + Occurrences(ts[1..], id)
  }

  // ---------------------------------------------------------------------------
  // Merge

  /** The patch that supplies every field of `u`. */
  function FullPatch(u: Transaction): TransactionPatch {
    TransactionPatch(Some(u.id), Some(u.categoryId), Some(u.amount), Some(u.description), Some(u.date), Some(u.kind))
  }

  const EmptyPatch := TransactionPatch(None, None, None, None, None, None)

  /** Merging the empty patch changes nothing, and merging the same patch
      twice is merging it once. */
  lemma MergeLaws(t: Transaction, patch: TransactionPatch)
    ensures Merge(t, EmptyPatch) == t
    ensures Merge(Merge(t, patch), patch) == Merge(t, patch)
  {
  }

  /** Merging a patch that supplies every field of `u` is replacing by `u`. */
  lemma {:induction false} MergeFullPatchIsReplace(ts: seq<Transaction>, id: string, u: Transaction)
    ensures MergeTransactionById(ts, id, FullPatch(u)) == ReplaceTransactionById(ts, id, u)
  {
    var m := MergeTransactionById(ts, id, FullPatch(u));
    var r := ReplaceTransactionById(ts, id, u);
    forall i | 0 <= i < |ts| ensures m[i] == r[i] {
      assert Merge(ts[i], FullPatch(u)) == u;
    }
  }

  // ---------------------------------------------------------------------------
  // Absent ids

  /** Replacing, merging or removing an id that no element carries returns the
      sequence unchanged. */
  lemma {:induction false} AbsentIdIsNoOp(ts: seq<Transaction>, id: string, replacement: Transaction, patch: TransactionPatch)
    requires Absent(ts, id)
    ensures ReplaceTransactionById(ts, id, replacement) == ts
    ensures MergeTransactionById(ts, id, patch) == ts
    ensures RemoveTransactionById(ts, id) == ts
  {
    var r := ReplaceTransactionById(ts, id, replacement);
    var m := MergeTransactionById(ts, id, patch);
    assert forall i :: 0 <= i < |ts| ==> r[i] == ts[i] && m[i] == ts[i];
    forall t | t in ts ensures IdIsNot(id)(t) {
      var i :| 0 <= i < |ts| && ts[i] == t;
    }
    FilterKeepsAll(ts, IdIsNot(id));
  }

  // ---------------------------------------------------------------------------
  // Replace

  /** Replacing a present id puts the replacement in the sequence; when the
      replacement carries a different id, the old id disappears altogether
      (the promotion of a temporary id to a permanent one). */
  lemma {:induction false} ReplacePromotes(ts: seq<Transaction>, i: nat, replacement: Transaction)
    requires i < |ts|
    ensures replacement in ReplaceTransactionById(ts, ts[i].id, replacement)
    ensures replacement.id != ts[i].id ==> Absent(ReplaceTransactionById(ts, ts[i].id, replacement), ts[i].id)
  {
    var r := ReplaceTransactionById(ts, ts[i].id, replacement);
    assert r[i] == replacement;
  }

  /** With unique ids, replacing by a record whose id is the old one or is new
      to the sequence keeps the ids unique. */
  lemma {:induction false} ReplaceKeepsIdsUnique(ts: seq<Transaction>, id: string, replacement: Transaction)
    requires UniqueIds(ts)
    requires replacement.id == id || Absent(ts, replacement.id)
    ensures UniqueIds(ReplaceTransactionById(ts, id, replacement))
  {
    var r := ReplaceTransactionById(ts, id, replacement);
    forall i, j | 0 <= i < j < |r| ensures r[i].id != r[j].id {
      if ts[i].id == id && ts[j].id == id {
        assert false;
      }
    }
  }

  // ---------------------------------------------------------------------------
  // Merge and unique ids

  /** With unique ids, merging a patch that leaves the id alone, repeats it, or
      brings an id new to the sequence keeps the ids unique. */
  lemma {:induction false} MergeKeepsIdsUnique(ts: seq<Transaction>, id: string, patch: TransactionPatch)
    requires UniqueIds(ts)
    requires patch.id.None? || patch.id.value == id || Absent(ts, patch.id.value)
    ensures UniqueIds(MergeTransactionById(ts, id, patch))
  {
    var m := MergeTransactionById(ts, id, patch);
    forall i, j | 0 <= i < j < |m| ensures m[i].id != m[j].id {
      if ts[i].id == id && ts[j].id == id {
        assert false;
      }
    }
  }

  /** A patch whose id another element already carries duplicates that id:
      renaming "a" to "b" in [a, b] leaves two records with id "b". */
  lemma MergeCanDuplicateIds()
    ensures var a := Transaction("a", "c", 1, "", "2024-01-01", Income);
      var b := Transaction("b", "c", 2, "", "2024-01-02", Income);
      var m := MergeTransactionById([a, b], "a", EmptyPatch.(id := Some("b")));
      && UniqueIds([a, b])
      && |m| == 2 && m[0].id == "b" && m[1].id == "b"
      && !UniqueIds(m)
  {
    var a := Transaction("a", "c", 1, "", "2024-01-01", Income);
    var b := Transaction("b", "c", 2, "", "2024-01-02", Income);
    var m := MergeTransactionById([a, b], "a", EmptyPatch.(id := Some("b")));
    assert m[0].id == m[1].id;
  }

  // ---------------------------------------------------------------------------
  // Remove

  /** Removing keeps exactly the elements that do not carry `id`. */
  lemma RemoveKeepsOthers(ts: seq<Transaction>, id: string, t: Transaction)
    ensures t in RemoveTransactionById(ts, id) <==> t in ts && t.id != id
  {
    FilterMembers(ts, IdIsNot(id), t);
  }

  /** Removal shortens the sequence by the number of elements carrying `id`. */
  lemma {:induction false} RemoveLength(ts: seq<Transaction>, id: string)
    ensures |RemoveTransactionById(ts, id)| == |ts| - Occurrences(ts, id)
  {
    if ts != [] {
      RemoveLength(ts[1..], id);
      assert RemoveTransactionById(ts, id)
        == (if ts[0].id != id then [ts[0]] else []) + RemoveTransactionById(ts[1..], id);
    }
  }

  /** Removal works element by element and keeps relative order: removing from
      a concatenation is concatenating the removals. */
  lemma RemoveDistributes(a: seq<Transaction>, b: seq<Transaction>, id: string)
    ensures RemoveTransactionById(a + b, id) == RemoveTransactionById(a, id) + RemoveTransactionById(b, id)
  {
    FilterAppend(a, b, IdIsNot(id));
  }

  /** Removing the same id twice is removing it once. */
  lemma RemoveIdempotent(ts: seq<Transaction>, id: string)
    ensures RemoveTransactionById(RemoveTransactionById(ts, id), id) == RemoveTransactionById(ts, id)
  {
    FilterIdempotent(ts, IdIsNot(id));
  }

  /** Removal keeps ids unique. */
  lemma RemoveKeepsIdsUnique(ts: seq<Transaction>, id: string)
    requires UniqueIds(ts)
    ensures UniqueIds(RemoveTransactionById(ts, id))
  {
    var r := RemoveTransactionById(ts, id);
    var idx := KeptPositions(ts, IdIsNot(id), 0);
    FilterIsStable(ts, IdIsNot(id));
    forall i, j | 0 <= i < j < |r| ensures r[i].id != r[j].id {
      assert idx[i] < idx[j];
    }
  }

  /** Appending a record whose id is new keeps ids unique. */
  lemma AppendKeepsIdsUnique(ts: seq<Transaction>, t: Transaction)
    requires UniqueIds(ts) && Absent(ts, t.id)
    ensures UniqueIds(AppendTransaction(ts, t))
  {
  }

  // ---------------------------------------------------------------------------
  // The create, confirm, update, delete lifecycle

  /** Starting from no transactions: append a record under a temporary id,
      replace it by the confirmed record under its permanent id, merge an
      amount and description update, then remove it. */
  lemma LifecycleScenario()
    ensures var base := Transaction("temp-1", "cat-1", 100, "Initial", "2024-01-01", Income);
      var added := AppendTransaction([], base);
      var saved := base.(id := "txn-1");
      var persisted := ReplaceTransactionById(added, base.id, saved);
      var patch := EmptyPatch.(amount := Some(150), description := Some("Updated"));
      var patched := MergeTransactionById(persisted, "txn-1", patch);
      var removed := RemoveTransactionById(patched, "txn-1");
      && |added| == 1 && added[0].id == "temp-1"
      && |persisted| == 1 && persisted[0].id == "txn-1"
      && |patched| == 1 && patched[0].amount == 150 && patched[0].description == "Updated"
      && patched[0] == saved.(amount := 150, description := "Updated")
      && removed == []
  {
    var base := Transaction("temp-1", "cat-1", 100, "Initial", "2024-01-01", Income);
    var added := AppendTransaction([], base);
    var saved := base.(id := "txn-1");
    var persisted := ReplaceTransactionById(added, base.id, saved);
    assert persisted == [saved];
    var patch := EmptyPatch.(amount := Some(150), description := Some("Updated"));
    var patched := MergeTransactionById(persisted, "txn-1", patch);
    assert patched == [saved.(amount := 150, description := "Updated")];
    RemoveLength(patched, "txn-1");
  }
}
