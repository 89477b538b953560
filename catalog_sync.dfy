/** The catalog synchronisation dialog (src/components/CatalogSyncModal.tsx):
    the administrator picks perfumes by id, the dialog visits the picked ones
    in catalog order and gives each an outcome, and confirming hands the
    updated perfumes to the store.

    The source draws each outcome with `Math.random` on timer ticks; here the
    outcome of the `k`-th visited perfume is the input `draws(k)`, and the
    ticks are the iterations of one loop. */
module CatalogSync {
  import opened Wrappers
  import opened Catalog
  import opened Seqs
  import Store

  datatype Step = Selection | Syncing | Summary

  datatype Status = Updated | Unchanged | Error

  /** One line of the change list: which field, its old and its new value. */
  datatype Change = Change(key: string, oldValue: int, newValue: int)

  datatype SyncResult = SyncResult(perfume: Perfume, status: Status, changes: seq<Change>, error: Option<string>)

  /** What the random draws decide for one perfume: an update to a new
      price with a stock delta, no change, or an error. */
  datatype Draw = UpdateDraw(newPrice: int, stockDelta: int) | UnchangedDraw | ErrorDraw

  const SkuNotFoundMsg: string := "SKU no encontrado en origen."
  const CompletedMsg: string := "¡Sincronización completada!"

  function Max(a: int, b: int): int {
    if a >= b then a else b
  }

  /** The result for one perfume (src/components/CatalogSyncModal.tsx:70-83). */
  function Outcome(p: Perfume, d: Draw): SyncResult {
    match d
    case UpdateDraw(newPrice, delta) =>
      var newStock := Max(0, p.stock + delta);
      SyncResult(p.(price := newPrice, stock := newStock), Updated,
                 [Change("precio", p.price, newPrice), Change("stock", p.stock, newStock)], None)
    case UnchangedDraw => SyncResult(p, Unchanged, [], None)
    case ErrorDraw => SyncResult(p, Error, [], Some(SkuNotFoundMsg))
  }

  /** An update changes the price and the stock and nothing else, never
      leaves a negative stock and lists both changes with their old and new
      values; the other two outcomes carry the perfume untouched. */
  lemma OutcomeMeaning(p: Perfume, d: Draw)
    ensures var r := Outcome(p, d);
      (r.status == Updated <==> d.UpdateDraw?)
      && r.perfume.id == p.id
      && (r.status == Updated ==>
            r.perfume == p.(price := r.perfume.price, stock := r.perfume.stock)
            && r.perfume.stock >= 0
            && r.perfume.stock >= p.stock + d.stockDelta
            && r.changes == [Change("precio", p.price, r.perfume.price), Change("stock", p.stock, r.perfume.stock)])
      && (r.status != Updated ==> r.perfume == p && r.changes == [])
      && (r.status == Error <==> r.error.Some?)
  {
  }

  /** The results of visiting `ps` in order, the `k`-th with draw `draws(k)`. */
  function SyncAll(ps: seq<Perfume>, draws: nat -> Draw): (r: seq<SyncResult>)
    ensures |r| == |ps| && forall k :: 0 <= k < |ps| ==> r[k] == Outcome(ps[k], draws(k))
  {
    seq(|ps|, k requires 0 <= k < |ps| => Outcome(ps[k], draws(k)))
  }

  /** `perfumes.filter(p => selectedPerfumeIds.has(p.id))`. */
  function Selected(perfumes: seq<Perfume>, ids: set<int>): seq<Perfume> {
    Filter(perfumes, (p: Perfume) => p.id in ids)
  }

  predicate IsUpdated(r: SyncResult) {
    r.status == Updated
  }

  function PerfumesOf(rs: seq<SyncResult>): (r: seq<Perfume>)
    ensures |r| == |rs| && forall k :: 0 <= k < |rs| ==> r[k] == rs[k].perfume
  {
    seq(|rs|, k requires 0 <= k < |rs| => rs[k].perfume)
  }

  /** handleConfirmChanges's list (src/components/CatalogSyncModal.tsx:99):
      the perfumes of the updated results, in result order. */
  function UpdatedPerfumes(rs: seq<SyncResult>): seq<Perfume> {
    PerfumesOf(Filter(rs, IsUpdated))
  }

  /** A perfume is handed on exactly when an updated result carries it. */
  lemma UpdatedPerfumesMembers(rs: seq<SyncResult>)
    ensures forall p :: p in UpdatedPerfumes(rs) <==>
      exists k :: 0 <= k < |rs| && rs[k].status == Updated && rs[k].perfume == p
  {
    FilterMembers(rs, IsUpdated);
    var u := Filter(rs, IsUpdated);
    forall p | p in UpdatedPerfumes(rs)
      ensures exists k :: 0 <= k < |rs| && rs[k].status == Updated && rs[k].perfume == p
    {
      var j :| 0 <= j < |u| && u[j].perfume == p;
      assert u[j] in rs;
    }
    forall p | exists k :: 0 <= k < |rs| && rs[k].status == Updated && rs[k].perfume == p
      ensures p in UpdatedPerfumes(rs)
    {
      var k :| 0 <= k < |rs| && rs[k].status == Updated && rs[k].perfume == p;
      assert rs[k] in u;
      var j :| 0 <= j < |u| && u[j] == rs[k];
      assert UpdatedPerfumes(rs)[j] == p;
    }
  }

  /** The selection keeps the catalog's order and each selected perfume as
      often as the catalog holds it. */
  lemma SelectedInOrder(perfumes: seq<Perfume>, ids: set<int>)
    ensures Subseq(Selected(perfumes, ids), perfumes)
    ensures forall p :: multiset(Selected(perfumes, ids))[p] == if p.id in ids then multiset(perfumes)[p] else 0
  {
    FilterSubseq(perfumes, (p: Perfume) => p.id in ids);
    FilterCount(perfumes, (p: Perfume) => p.id in ids);
  }

  /** The perfumes of an order-keeping selection of results are an
      order-keeping selection of the results' perfumes. */
  lemma {:induction false} PerfumesOfSubseq(u: seq<SyncResult>, rs: seq<SyncResult>)
    requires Subseq(u, rs)
    ensures Subseq(PerfumesOf(u), PerfumesOf(rs))
    decreases |rs|
  {
    if |u| > 0 {
      assert PerfumesOf(rs)[1..] == PerfumesOf(rs[1..]);
      if u[0] == rs[0] && Subseq(u[1..], rs[1..]) {
        PerfumesOfSubseq(u[1..], rs[1..]);
        assert PerfumesOf(u)[1..] == PerfumesOf(u[1..]);
      } else {
        PerfumesOfSubseq(u, rs[1..]);
      }
    }
  }

  /** The perfumes handed on come in the order of the results. */
  lemma UpdatedInResultOrder(rs: seq<SyncResult>)
    ensures Subseq(UpdatedPerfumes(rs), PerfumesOf(rs))
  {
    FilterSubseq(rs, IsUpdated);
    PerfumesOfSubseq(Filter(rs, IsUpdated), rs);
  }

  /** Every result of a sync belongs to a perfume of the catalog, by id. */
  lemma SyncIdsFromCatalog(perfumes: seq<Perfume>, ids: set<int>, draws: nat -> Draw)
    ensures Ids(UpdatedPerfumes(SyncAll(Selected(perfumes, ids), draws))) <= Ids(perfumes) * ids
  {
    var sel := Selected(perfumes, ids);
    var rs := SyncAll(sel, draws);
    FilterMembers(perfumes, (p: Perfume) => p.id in ids);
    UpdatedPerfumesMembers(rs);
    forall id | id in Ids(UpdatedPerfumes(rs)) ensures id in Ids(perfumes) * ids {
      var u := UpdatedPerfumes(rs);
      var i :| 0 <= i < |u| && u[i].id == id;
      assert u[i] in u;
      var k :| 0 <= k < |rs| && rs[k].status == Updated && rs[k].perfume == u[i];
      OutcomeMeaning(sel[k], draws(k));
      assert sel[k] in perfumes;
    }
  }

  /** So confirming a sync keeps the store's set of ids as it was: the sync
      replaces perfumes, it never adds one. */
  lemma ConfirmKeepsIds(perfumes: seq<Perfume>, ids: set<int>, draws: nat -> Draw)
    ensures var updated := UpdatedPerfumes(SyncAll(Selected(perfumes, ids), draws));
      Ids(Store.ApplySync(perfumes, updated)) == Ids(perfumes)
  {
    SyncIdsFromCatalog(perfumes, ids, draws);
    Store.ApplySyncIds(perfumes, UpdatedPerfumes(SyncAll(Selected(perfumes, ids), draws)));
  }

  /** `if has then delete else add` on a copy of the set. */
  function ToggleId(s: set<int>, id: int): set<int> {
    if id in s then s - {id} else s + {id}
  }

  /** Toggling flips the one id and no other, and twice is no change. */
  lemma ToggleIdMeaning(s: set<int>, id: int)
    ensures id in ToggleId(s, id) <==> id !in s
    ensures forall x :: x != id ==> (x in ToggleId(s, id) <==> x in s)
    ensures ToggleId(ToggleId(s, id), id) == s
  {
  }

  /** The dialog's state. `processed` counts the visited perfumes; the
      progress percentage drawn from it is not modelled. */
  class SyncSession {
    var step: Step
    var selected: set<int>
    var processed: nat
    var message: string
    var results: seq<SyncResult>

    constructor ()
      ensures step == Selection && selected == {} && processed == 0 && message == "" && results == []
    {
      step := Selection;
      selected := {};
      processed := 0;
      message := "";
      results := [];
    }

    /** The effect that runs when the dialog opens
        (src/components/CatalogSyncModal.tsx:28-36). */
    method Open(perfumes: seq<Perfume>)
      modifies this
      ensures step == Selection && selected == Ids(perfumes)
      ensures processed == 0 && results == [] && message == ""
    {
      step := Selection;
      selected := Ids(perfumes);
      processed := 0;
      results := [];
      message := "";
    }

    /** handleToggleSelect (src/components/CatalogSyncModal.tsx:38-48). */
    method HandleToggleSelect(id: int)
      modifies this`selected
      ensures selected == ToggleId(old(selected), id)
    {
      var newSet := selected;
      if id in newSet {
        newSet := newSet - {id};
      } else {
        newSet := newSet + {id};
      }
      selected := newSet;
    }

    /** handleSelectAll (src/components/CatalogSyncModal.tsx:50). */
    method HandleSelectAll(perfumes: seq<Perfume>)
      modifies this`selected
      ensures selected == Ids(perfumes)
    {
      selected := Ids(perfumes);
    }

    /** handleDeselectAll (src/components/CatalogSyncModal.tsx:51). */
    method HandleDeselectAll()
      modifies this`selected
      ensures selected == {}
    {
      selected := {};
    }

    /** handleStartSync (src/components/CatalogSyncModal.tsx:53-96): the
        selected perfumes, in catalog order, each visited once. With none
        selected the dialog goes straight to the summary and keeps its old
        results. */
    method HandleStartSync(perfumes: seq<Perfume>, draws: nat -> Draw)
      modifies this
      ensures step == Summary && selected == old(selected)
      ensures var sel := Selected(perfumes, old(selected));
        if |sel| == 0 then results == old(results) && message == old(message) && processed == old(processed)
        else results == SyncAll(sel, draws) && processed == |sel| && message == CompletedMsg
    {
      step := Syncing;
      var selectedPerfumes := Selected(perfumes, selected);
      var total := |selectedPerfumes|;
      var count := 0;
      var acc: seq<SyncResult> := [];
      if total == 0 {
        step := Summary;
        return;
      }
      while count < total
        invariant 0 <= count <= total
        invariant acc == SyncAll(selectedPerfumes[..count], draws)
        invariant count > 0 ==> processed == count
        invariant selected == old(selected)
      {
        var perfume := selectedPerfumes[count];
        message := "Sincronizando " + perfume.name + "...";
        acc := acc + [Outcome(perfume, draws(count))];
        count := count + 1;
        processed := count;
      }
      assert selectedPerfumes[..count] == selectedPerfumes;
      message := CompletedMsg;
      results := acc;
      step := Summary;
    }

    /** handleConfirmChanges (src/components/CatalogSyncModal.tsx:98-102):
        what is handed to the store. */
    method HandleConfirmChanges() returns (updated: seq<Perfume>)
      ensures updated == UpdatedPerfumes(results)
    {
      var kept := Filter(results, IsUpdated);
      updated := PerfumesOf(kept);
    }
  }
}
