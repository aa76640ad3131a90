/** apps/web/app/deals/page.tsx: the kanban board's two pieces of state, the
    deals list and the per-stage buckets, with the fetch that fills them and the
    optimistic stage change shared by `handleDragEnd` and
    `updateDealStageViaButton`, including its rollback. */
module Kanban {
  import opened Wrappers
  import opened Seqs

  /** A deal as the page holds it; only `id` and `stage` matter here. */
  datatype Card = Card(id: string, stage: string, title: string)

  function CardId(c: Card): string { c.id }

  /** The column ids of `STAGES`, in display order. */
  const StageIds: seq<string> := ["PROSPECTING", "PROPOSAL", "NEGOTIATION", "WON", "LOST"]

  /** The grouping in `fetchDeals`: one bucket per column, holding the fetched
      deals with that stage in fetch order. A deal whose stage names no column
      is in no bucket. */
  function Group(items: seq<Card>): (r: map<string, seq<Card>>)
    ensures forall k :: k in r <==> k in StageIds
    ensures forall k, c :: k in r ==> multiset(r[k])[c] == if c.stage == k then multiset(items)[c] else 0
    ensures forall k :: k in r ==> SubsequenceOf(r[k], items)
  {
    forall k, c | k in StageIds ensures multiset(Filter(items, (d: Card) => d.stage == k))[c]
                                        == if c.stage == k then multiset(items)[c] else 0 {
      FilterCount(items, (d: Card) => d.stage == k, c);
    }
    forall k | k in StageIds ensures SubsequenceOf(Filter(items, (d: Card) => d.stage == k), items) {
      FilterIsSubsequence(items, (d: Card) => d.stage == k);
    }
    map k | k in StageIds :: Filter(items, (d: Card) => d.stage == k)
  }

  /** The buckets show exactly the deals of the list, each in the column of its
      stage, each as often as it occurs in the list (order aside). */
  ghost predicate Agrees(deals: seq<Card>, buckets: map<string, seq<Card>>)
  {
    && (forall k :: k in buckets <==> k in StageIds)
    && (forall k, c :: k in buckets ==> CountAgrees(deals, buckets, k, c))
  }

  /** Column `k` holds card `c` as often as the list does if `c` has stage `k`, else never. */
  ghost predicate CountAgrees(deals: seq<Card>, buckets: map<string, seq<Card>>, k: string, c: Card)
    requires k in buckets
  {
    multiset(buckets[k])[c] == if c.stage == k then multiset(deals)[c] else 0
  }

  /** `deals.map(d => d.id === dealId ? updatedDeal : d)`. */
  function ReplaceById(deals: seq<Card>, id: string, updated: Card): (r: seq<Card>)
    ensures |r| == |deals|
    ensures forall i :: 0 <= i < |r| ==> r[i] == if deals[i].id == id then updated else deals[i]
  {
    seq(|deals|, i requires 0 <= i < |deals| => if deals[i].id == id then updated else deals[i])
  }

  /** The optimistic buckets: every entry with the deal's id leaves its old
      column and the updated deal is appended to the new one. */
  function Optimistic(buckets: map<string, seq<Card>>, deal: Card, newStage: string): (r: map<string, seq<Card>>)
    requires deal.stage in buckets && newStage in buckets && deal.stage != newStage
    ensures r.Keys == buckets.Keys
    ensures r[deal.stage] == Filter(buckets[deal.stage], (c: Card) => c.id != deal.id)
    ensures r[newStage] == buckets[newStage] + [deal.(stage := newStage)]
    ensures forall k :: k in buckets && k != deal.stage && k != newStage ==> r[k] == buckets[k]
  {
    var next := buckets[deal.stage := Filter(buckets[deal.stage], (c: Card) => c.id != deal.id)];
    next[newStage := next[newStage] + [deal.(stage := newStage)]]
  }

  /** The rollback step of both handlers: every entry with the deal's id
      leaves the new column and the deal is appended to its old one. The
      handlers apply it to the buckets as they were before the move (the
      snapshot), where the old column still holds the deal; applied to the
      buckets the move produced, it undoes the move. */
  function Rollback(buckets: map<string, seq<Card>>, deal: Card, newStage: string): (r: map<string, seq<Card>>)
    requires deal.stage in buckets && newStage in buckets && deal.stage != newStage
    ensures r.Keys == buckets.Keys
    ensures r[newStage] == Filter(buckets[newStage], (c: Card) => c.id != deal.id)
    ensures r[deal.stage] == buckets[deal.stage] + [deal]
    ensures forall k :: k in buckets && k != deal.stage && k != newStage ==> r[k] == buckets[k]
  {
    var rolled := buckets[newStage := Filter(buckets[newStage], (c: Card) => c.id != deal.id)];
    rolled[deal.stage := rolled[deal.stage] + [deal]]
  }

  // Counting facts about lists with unique ids.

  /** In a list with unique ids, the only element with the id of `deals[k]` is `deals[k]`, once. */
  lemma UniqueCount(deals: seq<Card>, k: nat, c: Card)
    requires UniqueIds(deals, CardId) && k < |deals| && c.id == deals[k].id
    ensures multiset(deals)[c] == if c == deals[k] then 1 else 0
  {
    assert deals == deals[..k] + [deals[k]] + deals[k + 1..];
    forall j | 0 <= j < |deals| && j != k ensures deals[j] != c {
      assert CardId(deals[j]) != CardId(deals[k]);
    }
    assert c !in deals[..k];
    assert c !in deals[k + 1..];
  }

  /** With unique ids, replacing by id replaces exactly the element at `k`. */
  lemma ReplaceIsUpdate(deals: seq<Card>, k: nat, updated: Card)
    requires UniqueIds(deals, CardId) && k < |deals|
    ensures ReplaceById(deals, deals[k].id, updated) == deals[k := updated]
  {
    var r := ReplaceById(deals, deals[k].id, updated);
    forall i | 0 <= i < |deals| ensures r[i] == deals[k := updated][i] {
      if i != k {
        assert CardId(deals[i]) != CardId(deals[k]);
      }
    }
  }

  lemma UpdateCount(deals: seq<Card>, k: nat, updated: Card, c: Card)
    requires k < |deals|
    ensures multiset(deals[k := updated])[c]
      == multiset(deals)[c] - (if c == deals[k] then 1 else 0) + (if c == updated then 1 else 0)
  {
    var d := deals[k := updated];
    assert deals == deals[..k] + [deals[k]] + deals[k + 1..];
    assert d == deals[..k] + [updated] + deals[k + 1..];
  }

  /** Replacing by id keeps ids unique. */
  lemma ReplaceKeepsUnique(deals: seq<Card>, id: string, updated: Card)
    requires UniqueIds(deals, CardId) && updated.id == id
    ensures UniqueIds(ReplaceById(deals, id, updated), CardId)
  {
  }

  /** The optimistic move keeps the buckets in agreement with the list. */
  lemma {:induction false} OptimisticAgrees(deals: seq<Card>, buckets: map<string, seq<Card>>, k: nat, newStage: string)
    requires Agrees(deals, buckets) && UniqueIds(deals, CardId) && k < |deals|
    requires deals[k].stage in buckets && newStage in buckets && deals[k].stage != newStage
    ensures Agrees(deals[k := deals[k].(stage := newStage)], Optimistic(buckets, deals[k], newStage))
  {
    var next := Optimistic(buckets, deals[k], newStage);
    var after := deals[k := deals[k].(stage := newStage)];
    forall s, c: Card | s in next ensures CountAgrees(after, next, s, c) {
      assert CountAgrees(deals, buckets, s, c);
      assert CountAgrees(deals, buckets, deals[k].stage, c);
      assert CountAgrees(deals, buckets, newStage, c);
      OptimisticCountAt(deals, buckets, k, newStage, s, c);
    }
  }

  lemma OptimisticCountAt(deals: seq<Card>, buckets: map<string, seq<Card>>, k: nat, newStage: string, s: string, c: Card)
    requires UniqueIds(deals, CardId) && k < |deals|
    requires deals[k].stage in buckets && newStage in buckets && deals[k].stage != newStage && s in buckets
    requires multiset(buckets[s])[c] == if c.stage == s then multiset(deals)[c] else 0
    requires multiset(buckets[deals[k].stage])[c] == if c.stage == deals[k].stage then multiset(deals)[c] else 0
    requires multiset(buckets[newStage])[c] == if c.stage == newStage then multiset(deals)[c] else 0
    ensures multiset(Optimistic(buckets, deals[k], newStage)[s])[c]
      == if c.stage == s then multiset(deals[k := deals[k].(stage := newStage)])[c] else 0
  {
    var d := deals[k];
    var u := d.(stage := newStage);
    var next := Optimistic(buckets, d, newStage);
    UpdateCount(deals, k, u, c);
    if c.id == d.id {
      UniqueCount(deals, k, c);
    }
    if s == d.stage {
      FilterCount(buckets[s], (x: Card) => x.id != d.id, c);
    } else if s == newStage {
      assert multiset(next[s]) == multiset(buckets[s]) + multiset{u};
    }
  }

  /** The rollback as written leaves the deal twice in its old column, so the
      buckets no longer agree with the restored list. */
  lemma {:induction false} RollbackDuplicates(deals: seq<Card>, buckets: map<string, seq<Card>>, k: nat, newStage: string)
    requires Agrees(deals, buckets) && UniqueIds(deals, CardId) && k < |deals|
    requires deals[k].stage in buckets && newStage in buckets && deals[k].stage != newStage
    ensures multiset(Rollback(buckets, deals[k], newStage)[deals[k].stage])[deals[k]] == 2
    ensures !Agrees(deals, Rollback(buckets, deals[k], newStage))
  {
    var d := deals[k];
    UniqueCount(deals, k, d);
    assert CountAgrees(deals, buckets, d.stage, d);
    var rolled := Rollback(buckets, d, newStage);
    assert multiset(rolled[d.stage]) == multiset(buckets[d.stage]) + multiset{d};
    assert !CountAgrees(deals, rolled, d.stage, d);
  }

  /** The corrected rollback, applied after the optimistic move, brings the
      buckets back into agreement with the restored list: the deal is in its
      old column exactly once again. */
  lemma {:induction false} RollbackRestores(deals: seq<Card>, buckets: map<string, seq<Card>>, k: nat, newStage: string)
    requires Agrees(deals, buckets) && UniqueIds(deals, CardId) && k < |deals|
    requires deals[k].stage in buckets && newStage in buckets && deals[k].stage != newStage
    ensures Agrees(deals, Rollback(Optimistic(buckets, deals[k], newStage), deals[k], newStage))
    ensures multiset(Rollback(Optimistic(buckets, deals[k], newStage), deals[k], newStage)[deals[k].stage])[deals[k]] == 1
  {
    var rolled := Rollback(Optimistic(buckets, deals[k], newStage), deals[k], newStage);
    forall s, c: Card | s in rolled ensures CountAgrees(deals, rolled, s, c) {
      assert CountAgrees(deals, buckets, s, c);
      assert CountAgrees(deals, buckets, deals[k].stage, c);
      assert CountAgrees(deals, buckets, newStage, c);
      RollbackCountAt(deals, buckets, k, newStage, s, c);
    }
    assert CountAgrees(deals, rolled, deals[k].stage, deals[k]);
    UniqueCount(deals, k, deals[k]);
  }

  lemma RollbackCountAt(deals: seq<Card>, buckets: map<string, seq<Card>>, k: nat, newStage: string, s: string, c: Card)
    requires UniqueIds(deals, CardId) && k < |deals|
    requires deals[k].stage in buckets && newStage in buckets && deals[k].stage != newStage && s in buckets
    requires multiset(buckets[s])[c] == if c.stage == s then multiset(deals)[c] else 0
    requires multiset(buckets[deals[k].stage])[c] == if c.stage == deals[k].stage then multiset(deals)[c] else 0
    requires multiset(buckets[newStage])[c] == if c.stage == newStage then multiset(deals)[c] else 0
    ensures multiset(Rollback(Optimistic(buckets, deals[k], newStage), deals[k], newStage)[s])[c]
      == if c.stage == s then multiset(deals)[c] else 0
  {
    var d := deals[k];
    var u := d.(stage := newStage);
    var next := Optimistic(buckets, d, newStage);
    var rolled := Rollback(next, d, newStage);
    if c.id == d.id {
      UniqueCount(deals, k, c);
    }
    if s == d.stage {
      FilterCount(buckets[s], (x: Card) => x.id != d.id, c);
      assert multiset(rolled[s]) == multiset(next[s]) + multiset{d};
    } else if s == newStage {
      FilterCount(next[s], (x: Card) => x.id != d.id, c);
      assert multiset(next[s]) == multiset(buckets[s]) + multiset{u};
    }
  }

  /** A drop whose target is not a column (another card, say) updates the list
      but not the buckets: the moved deal then shows in no column that agrees
      with its recorded stage. */
  lemma {:induction false} CardDropDisagrees(deals: seq<Card>, buckets: map<string, seq<Card>>, k: nat, target: string)
    requires Agrees(deals, buckets) && UniqueIds(deals, CardId) && k < |deals|
    requires deals[k].stage in buckets && target !in buckets
    ensures !Agrees(ReplaceById(deals, deals[k].id, deals[k].(stage := target)), buckets)
  {
    var d := deals[k];
    var u := d.(stage := target);
    ReplaceIsUpdate(deals, k, u);
    UniqueCount(deals, k, d);
    UpdateCount(deals, k, u, d);
    assert CountAgrees(deals, buckets, d.stage, d);
    assert !CountAgrees(deals[k := u], buckets, d.stage, d);
  }

  /** What a stage change came to. `Crashed` is the `TypeError` thrown when a
      stage is not a key of the buckets: no request is sent. */
  datatype MoveOutcome = Unchanged | Patched | RolledBack | Crashed

  /** `deals.find(d => d.id === dealId)`. */
  function FindCard(deals: seq<Card>, id: string): (r: Option<Card>)
    ensures r.Some? <==> exists i :: 0 <= i < |deals| && deals[i].id == id
    ensures r.Some? ==> r.value.id == id && r.value in deals
  {
    match IndexOf(deals, CardId, id)
    case None => None
    case Some(k) => Some(deals[k])
  }

  /** The page state. */
  class Board {
    var deals: seq<Card>
    var dealsByStage: map<string, seq<Card>>

    /** Ids are unique and the buckets have exactly the column keys. */
    ghost predicate Valid()
      reads this
    {
      && UniqueIds(deals, CardId)
      && forall k :: k in dealsByStage <==> k in StageIds
    }

    /** The state before the first fetch: no deals and five empty columns.
        The page itself starts from an empty record (page.tsx:33); the
        columns render it as five empty ones and no move can find a deal
        before a fetch, so the two starting points behave alike. */
    constructor ()
      ensures Valid() && Agrees(deals, dealsByStage)
      ensures deals == []
    {
      deals := [];
      dealsByStage := Group([]);
    }

    /** `fetchDeals`: `fetched` is the page of deals the API returned, or `None`
        when the request failed (the state is then left as it was). */
    method Load(fetched: Option<seq<Card>>)
      requires Valid()
      requires fetched.Some? ==> UniqueIds(fetched.value, CardId)
      modifies this
      ensures Valid()
      ensures fetched.None? ==> deals == old(deals) && dealsByStage == old(dealsByStage)
      ensures fetched.Some? ==> deals == fetched.value && dealsByStage == Group(fetched.value)
      ensures fetched.Some? ==> Agrees(deals, dealsByStage)
    {
      if fetched.Some? {
        deals := fetched.value;
        dealsByStage := Group(fetched.value);
      }
    }

    /** The body shared by `updateDealStageViaButton` and `handleDragEnd` once
        it has a target, as written. `patchOk` is whether the PATCH succeeds. */
    method Move(dealId: string, newStage: string, patchOk: bool) returns (o: MoveOutcome)
      requires Valid()
      modifies this
      ensures Valid()
      ensures o == Unchanged <==>
        FindCard(old(deals), dealId).None? || FindCard(old(deals), dealId).value.stage == newStage
      ensures o == Unchanged ==> deals == old(deals) && dealsByStage == old(dealsByStage)
      ensures o != Unchanged ==>
        var d := FindCard(old(deals), dealId).value;
        && d.stage != newStage
        && (o == Crashed <==> d.stage !in old(dealsByStage) || newStage !in old(dealsByStage))
        && (o == Crashed ==>
              deals == ReplaceById(old(deals), dealId, d.(stage := newStage)) && dealsByStage == old(dealsByStage))
        && (o == Patched <==> o != Crashed && patchOk)
        && (o == Patched ==>
              && deals == ReplaceById(old(deals), dealId, d.(stage := newStage))
              && dealsByStage == Optimistic(old(dealsByStage), d, newStage))
        && (o == RolledBack ==>
              deals == old(deals) && dealsByStage == Rollback(old(dealsByStage), d, newStage))
    {
      var deal := FindCard(deals, dealId);
      if deal.None? || deal.value.stage == newStage {
        return Unchanged;
      }
      var d := deal.value;
      var oldStage := d.stage;
      var snapshotDeals, snapshotBuckets := deals, dealsByStage;
      var updated := d.(stage := newStage);
      ReplaceKeepsUnique(deals, dealId, updated);
      deals := ReplaceById(deals, dealId, updated);
      if oldStage !in snapshotBuckets || newStage !in snapshotBuckets {
        return Crashed;
      }
      var next := snapshotBuckets[oldStage := Filter(snapshotBuckets[oldStage], (c: Card) => c.id != dealId)];
      next := next[newStage := next[newStage] + [updated]];
      dealsByStage := next;
      if patchOk {
        return Patched;
      }
      deals := snapshotDeals;
      var rolled := snapshotBuckets[newStage := Filter(snapshotBuckets[newStage], (c: Card) => c.id != dealId)];
      rolled := rolled[oldStage := rolled[oldStage] + [d]];
      dealsByStage := rolled;
      return RolledBack;
    }

    /** `handleDragEnd`: nothing happens without a drop target; otherwise the
        target's id is taken as the new stage, unchecked. */
    method DragEnd(dealId: string, over: Option<string>, patchOk: bool) returns (o: MoveOutcome)
      requires Valid()
      modifies this
      ensures Valid()
      ensures over.None? ==> o == Unchanged && deals == old(deals) && dealsByStage == old(dealsByStage)
      ensures over.Some? ==> (o == Unchanged <==>
        FindCard(old(deals), dealId).None? || FindCard(old(deals), dealId).value.stage == over.value)
      ensures over.Some? && over.value !in StageIds && o != Unchanged ==>
        && o == Crashed
        && deals == ReplaceById(old(deals), dealId, FindCard(old(deals), dealId).value.(stage := over.value))
        && dealsByStage == old(dealsByStage)
      // A drop onto a column is the stage change of `Move`.
      ensures over.Some? && over.value in StageIds && o != Unchanged ==>
        var d := FindCard(old(deals), dealId).value;
        && (o == Crashed <==> d.stage !in StageIds)
        && (o == Crashed ==>
              deals == ReplaceById(old(deals), dealId, d.(stage := over.value)) && dealsByStage == old(dealsByStage))
        && (o == Patched <==> d.stage in StageIds && patchOk)
        && (o == Patched ==>
              && deals == ReplaceById(old(deals), dealId, d.(stage := over.value))
              && dealsByStage == Optimistic(old(dealsByStage), d, over.value))
        && (o == RolledBack ==>
              deals == old(deals) && dealsByStage == Rollback(old(dealsByStage), d, over.value))
    {
      if over.None? {
        return Unchanged;
      }
      o := Move(dealId, over.value, patchOk);
    }

    /** The stage change as evidently intended: a target that is not a column
        is ignored, and a failed PATCH undoes the optimistic move on the current
        buckets. The buckets keep agreeing with the list throughout. */
    method MoveCorrected(dealId: string, newStage: string, patchOk: bool) returns (o: MoveOutcome)
      requires Valid() && Agrees(deals, dealsByStage)
      modifies this
      ensures Valid() && Agrees(deals, dealsByStage)
      ensures o != Crashed
      ensures o == Unchanged ==> deals == old(deals) && dealsByStage == old(dealsByStage)
      ensures o == RolledBack ==> deals == old(deals)
      ensures o == Patched <==>
        && patchOk && newStage in old(dealsByStage)
        && FindCard(old(deals), dealId).Some? && FindCard(old(deals), dealId).value.stage != newStage
        && FindCard(old(deals), dealId).value.stage in old(dealsByStage)
      ensures o == Patched ==>
        var d := FindCard(old(deals), dealId).value;
        deals == ReplaceById(old(deals), dealId, d.(stage := newStage))
    {
      var k := IndexOf(deals, CardId, dealId);
      if k.None? || deals[k.value].stage == newStage
         || deals[k.value].stage !in dealsByStage || newStage !in dealsByStage {
        return Unchanged;
      }
      var i := k.value;
      var d := deals[i];
      var snapshotDeals := deals;
      var updated := d.(stage := newStage);
      OptimisticAgrees(deals, dealsByStage, i, newStage);
      RollbackRestores(deals, dealsByStage, i, newStage);
      ReplaceIsUpdate(deals, i, updated);
      ReplaceKeepsUnique(deals, dealId, updated);
      var snapshotBuckets := dealsByStage;
      deals := ReplaceById(deals, dealId, updated);
      dealsByStage := Optimistic(dealsByStage, d, newStage);
      if patchOk {
        return Patched;
      }
      deals := snapshotDeals;
      dealsByStage := Rollback(dealsByStage, d, newStage);
      return RolledBack;
    }
  }
}
