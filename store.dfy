/** The application state of src/App.tsx: the catalog (`allPerfumes`), the
    cart, the current view and the admin flag, and the handlers that update
    them. Each handler computes the new value with a pure function below;
    the class `Store` holds the state and has one method per handler. */
module Store {
  import opened Wrappers
  import opened Catalog
  import opened Seqs

  datatype View = HomeView | CartView | CheckoutView | ThankYouView | AdminView

  function Min(a: int, b: int): int {
    if a <= b then a else b
  }

  function Quantity(item: CartItem): int {
    item.quantity
  }

  /** Some line of the cart holds the perfume with this id. */
  predicate InCart(cart: seq<CartItem>, id: int) {
    exists i :: 0 <= i < |cart| && ItemId(cart[i]) == id
  }

  /** The position of the first line for `id`, or `|cart|` when there is none. */
  function FindIndex(cart: seq<CartItem>, id: int): (k: nat)
    ensures k <= |cart|
    ensures forall j :: 0 <= j < k ==> ItemId(cart[j]) != id
    ensures k < |cart| ==> ItemId(cart[k]) == id
  {
    if |cart| == 0 || ItemId(cart[0]) == id then 0
    else
      var k := FindIndex(cart[1..], id);
      assert forall j :: 1 <= j < k + 1 ==> cart[j] == cart[1..][j - 1];
      k + 1
  }

  /** `cart.find(item => item.perfume.id === id)`: the first line for `id`. */
  function FindItem(cart: seq<CartItem>, id: int): (r: Option<CartItem>)
    ensures r.None? <==> !InCart(cart, id)
    ensures r.Some? ==> FindIndex(cart, id) < |cart| && r.value == cart[FindIndex(cart, id)]
  {
    var k := FindIndex(cart, id);
    if k < |cart| then Some(cart[k]) else None
  }

  /** `cart.map(item => item.perfume.id === id ? { ...item, quantity: f(item.quantity) } : item)`:
      the lines for `id` get a new quantity, every other line stays as it was. */
  function MapQuantity(cart: seq<CartItem>, id: int, f: int -> int): (r: seq<CartItem>)
    ensures |r| == |cart|
    ensures forall i :: 0 <= i < |cart| ==>
      r[i] == if ItemId(cart[i]) == id then cart[i].(quantity := f(cart[i].quantity)) else cart[i]
  {
    if |cart| == 0 then []
    else
      var head := if ItemId(cart[0]) == id then cart[0].(quantity := f(cart[0].quantity)) else cart[0];
      [head] + MapQuantity(cart[1..], id, f)
  }

  /** handleAddToCart (src/App.tsx:118-129). A perfume already in the cart
      raises that line's quantity by one, capped at the stock of the perfume
      being added, and leaves every other line and the order alone; a new one
      is appended as one unit, whatever its stock. */
  function AddToCart(cart: seq<CartItem>, p: Perfume): (r: seq<CartItem>)
    ensures InCart(cart, p.id) ==> |r| == |cart| && forall i :: 0 <= i < |cart| ==>
      r[i] == if ItemId(cart[i]) == p.id then cart[i].(quantity := Min(cart[i].quantity + 1, p.stock)) else cart[i]
    ensures !InCart(cart, p.id) ==> r == cart + [CartItem(p, 1)]
  {
    if InCart(cart, p.id) then MapQuantity(cart, p.id, q => Min(q + 1, p.stock))
    else cart + [CartItem(p, 1)]
  }

  /** handleRemoveFromCart (src/App.tsx:149-151): the lines with other ids,
      in their order. */
  function RemoveFromCart(cart: seq<CartItem>, id: int): (r: seq<CartItem>)
    ensures forall i :: 0 <= i < |r| ==> ItemId(r[i]) != id
    ensures forall x :: x in r <==> x in cart && ItemId(x) != id
    ensures !InCart(cart, id) ==> r == cart
    ensures Subseq(r, cart)
    ensures forall x :: multiset(r)[x] == if ItemId(x) != id then multiset(cart)[x] else 0
  {
    var keep := (item: CartItem) => ItemId(item) != id;
    FilterMembers(cart, keep);
    FilterSubseq(cart, keep);
    FilterCount(cart, keep);
    assert !InCart(cart, id) ==> Filter(cart, keep) == cart by {
      if !InCart(cart, id) { FilterAll(cart, keep); }
    }
    Filter(cart, keep)
  }

  /** handleUpdateQuantity (src/App.tsx:133-147). An id that is not in the
      cart changes nothing; a quantity of zero or less removes the line; a
      larger quantity is set, capped at the stock of the first line's perfume. */
  function UpdateQuantity(cart: seq<CartItem>, id: int, q: int): (r: seq<CartItem>)
    ensures !InCart(cart, id) ==> r == cart
    ensures InCart(cart, id) && q <= 0 ==> r == RemoveFromCart(cart, id)
    ensures InCart(cart, id) && q > 0 ==>
      var stock := FindItem(cart, id).value.perfume.stock;
      |r| == |cart| && forall i :: 0 <= i < |cart| ==>
        r[i] == if ItemId(cart[i]) == id then cart[i].(quantity := if q > stock then stock else q) else cart[i]
  {
    match FindItem(cart, id)
    case None => cart
    case Some(item) =>
      if q <= 0 then RemoveFromCart(cart, id)
      else if q > item.perfume.stock then MapQuantity(cart, id, _ => item.perfume.stock)
      else MapQuantity(cart, id, _ => q)
  }

  /** cartItemCount (src/App.tsx:214): the sum of the quantities. */
  function CartItemCount(cart: seq<CartItem>): int {
    Sum(cart, Quantity)
  }

  /** Every perfume has at most one line in the cart. */
  ghost predicate DistinctIds(cart: seq<CartItem>) {
    DistinctBy(cart, ItemId)
  }

  lemma {:induction false} FilterKeepsDistinct(cart: seq<CartItem>, p: CartItem -> bool)
    requires DistinctIds(cart)
    ensures DistinctIds(Filter(cart, p))
  {
    if |cart| > 0 {
      FilterKeepsDistinct(cart[1..], p);
      var rest := Filter(cart[1..], p);
      FilterMembers(cart[1..], p);
      if p(cart[0]) {
        var r := [cart[0]] + rest;
        forall i, j | 0 <= i < j < |r|
          ensures ItemId(r[i]) != ItemId(r[j])
        {
          if i == 0 {
            assert r[j] in cart[1..];
            var k :| 0 <= k < |cart[1..]| && cart[1..][k] == r[j];
            assert cart[k + 1] == r[j];
          } else {
            assert r[i] == rest[i - 1] && r[j] == rest[j - 1];
          }
        }
      }
    }
  }

  /** The cart never holds two lines for one perfume: adding, updating and
      removing all keep it that way. */
  lemma AddToCartKeepsDistinct(cart: seq<CartItem>, p: Perfume)
    requires DistinctIds(cart)
    ensures DistinctIds(AddToCart(cart, p))
  {
    var r := AddToCart(cart, p);
    if InCart(cart, p.id) {
      assert forall i :: 0 <= i < |cart| ==> ItemId(r[i]) == ItemId(cart[i]);
    } else {
      forall i, j | 0 <= i < j < |r|
        ensures ItemId(r[i]) != ItemId(r[j])
      {
        if j == |cart| {
          assert r[i] == cart[i];
        } else {
          assert r[i] == cart[i] && r[j] == cart[j];
        }
      }
    }
  }

  lemma UpdateQuantityKeepsDistinct(cart: seq<CartItem>, id: int, q: int)
    requires DistinctIds(cart)
    ensures DistinctIds(UpdateQuantity(cart, id, q))
  {
    var r := UpdateQuantity(cart, id, q);
    if InCart(cart, id) && q <= 0 {
      FilterKeepsDistinct(cart, (item: CartItem) => ItemId(item) != id);
    } else if InCart(cart, id) {
      assert forall i :: 0 <= i < |cart| ==> ItemId(r[i]) == ItemId(cart[i]);
    }
  }

  lemma RemoveKeepsDistinct(cart: seq<CartItem>, id: int)
    requires DistinctIds(cart)
    ensures DistinctIds(RemoveFromCart(cart, id))
  {
    FilterKeepsDistinct(cart, (item: CartItem) => ItemId(item) != id);
  }

  /** With one line per perfume, an update with a positive quantity sets
      that line to the requested quantity, or to its stock when more is asked. */
  lemma UpdateQuantityAt(cart: seq<CartItem>, id: int, q: int, k: nat)
    requires DistinctIds(cart)
    requires k < |cart| && ItemId(cart[k]) == id && q > 0
    ensures UpdateQuantity(cart, id, q)[k].quantity == Min(q, cart[k].perfume.stock)
    ensures |UpdateQuantity(cart, id, q)| == |cart|
  {
    assert InCart(cart, id);
    assert FindIndex(cart, id) == k;
  }

  /** Without a line for `id`, mapping over it changes nothing. */
  lemma MapAbsent(cart: seq<CartItem>, id: int, f: int -> int)
    requires forall i :: 0 <= i < |cart| ==> ItemId(cart[i]) != id
    ensures MapQuantity(cart, id, f) == cart
  {
  }

  /** The tail of a cart with one line per perfume has one line per perfume
      and none for the perfume of the head. */
  lemma DistinctTail(cart: seq<CartItem>)
    requires DistinctIds(cart) && |cart| > 0
    ensures DistinctIds(cart[1..])
    ensures forall i :: 0 <= i < |cart[1..]| ==> ItemId(cart[1..][i]) != ItemId(cart[0])
  {
    assert forall i :: 0 <= i < |cart[1..]| ==> cart[1..][i] == cart[i + 1];
  }

  /** Summing the quantities after one line's quantity changed. */
  lemma {:induction false} CountAfterMap(cart: seq<CartItem>, id: int, f: int -> int, k: nat)
    requires DistinctIds(cart)
    requires k < |cart| && ItemId(cart[k]) == id
    ensures CartItemCount(MapQuantity(cart, id, f)) == CartItemCount(cart) - cart[k].quantity + f(cart[k].quantity)
  {
    var tail := MapQuantity(cart[1..], id, f);
    var h := if ItemId(cart[0]) == id then cart[0].(quantity := f(cart[0].quantity)) else cart[0];
    assert MapQuantity(cart, id, f) == [h] + tail;
    SumCons(h, tail, Quantity);
    SumCons(cart[0], cart[1..], Quantity);
    assert cart == [cart[0]] + cart[1..];
    DistinctTail(cart);
    if k == 0 {
      MapAbsent(cart[1..], id, f);
    } else {
      assert cart[1..][k - 1] == cart[k];
      CountAfterMap(cart[1..], id, f, k - 1);
    }
  }

  /** Adding a new perfume raises the item count by exactly one; adding one
      already in the cart raises it by one unless that line is at its stock. */
  lemma AddToCartCount(cart: seq<CartItem>, p: Perfume)
    requires DistinctIds(cart)
    ensures !InCart(cart, p.id) ==> CartItemCount(AddToCart(cart, p)) == CartItemCount(cart) + 1
    ensures forall k :: 0 <= k < |cart| && ItemId(cart[k]) == p.id ==>
      CartItemCount(AddToCart(cart, p)) == CartItemCount(cart) - cart[k].quantity + Min(cart[k].quantity + 1, p.stock)
  {
    if !InCart(cart, p.id) {
      SumAppend(cart, [CartItem(p, 1)], Quantity);
      assert Sum([CartItem(p, 1)], Quantity) == 1 by {
        assert [CartItem(p, 1)][..0] == [];
      }
    }
    forall k | 0 <= k < |cart| && ItemId(cart[k]) == p.id
      ensures CartItemCount(AddToCart(cart, p)) == CartItemCount(cart) - cart[k].quantity + Min(cart[k].quantity + 1, p.stock)
    {
      CountAfterMap(cart, p.id, q => Min(q + 1, p.stock), k);
    }
  }

  // ---- the catalog -------------------------------------------------------

  /** handleUpdatePerfume (src/App.tsx:183-186): every entry with the edited
      perfume's id is replaced by it; the catalog keeps its length and order. */
  function ReplacePerfume(catalog: seq<Perfume>, updated: Perfume): (r: seq<Perfume>)
    ensures |r| == |catalog|
    ensures forall i :: 0 <= i < |catalog| ==> r[i] == if catalog[i].id == updated.id then updated else catalog[i]
  {
    if |catalog| == 0 then []
    else [if catalog[0].id == updated.id then updated else catalog[0]] + ReplacePerfume(catalog[1..], updated)
  }

  /** An edit never adds or drops an id. */
  lemma ReplaceKeepsIds(catalog: seq<Perfume>, updated: Perfume)
    ensures Ids(ReplacePerfume(catalog, updated)) == Ids(catalog)
  {
    var r := ReplacePerfume(catalog, updated);
    assert forall i :: 0 <= i < |catalog| ==> r[i].id == catalog[i].id;
    forall id | id in Ids(r) ensures id in Ids(catalog) {
      var i :| 0 <= i < |r| && r[i].id == id;
    }
  }

  /** handleAddNewPerfume (src/App.tsx:188-192): the new product, stamped
      with the clock value `now` as its id, goes in front. */
  function AddNewPerfume(catalog: seq<Perfume>, p: Perfume, now: int): (r: seq<Perfume>)
    ensures |r| == |catalog| + 1 && r[0] == p.(id := now) && r[1..] == catalog
  {
    [p.(id := now)] + catalog
  }

  /** The new product adds its id to the catalog's; when the clock value is
      not yet an id, the new product is the only one carrying it. */
  lemma AddNewPerfumeIds(catalog: seq<Perfume>, p: Perfume, now: int)
    ensures Ids(AddNewPerfume(catalog, p, now)) == Ids(catalog) + {now}
    ensures now !in Ids(catalog) ==>
      forall i :: 1 <= i < |AddNewPerfume(catalog, p, now)| ==> AddNewPerfume(catalog, p, now)[i].id != now
  {
    IdsAppend([p.(id := now)], catalog);
    assert Ids([p.(id := now)]) == {now} by {
      assert [p.(id := now)][0].id == now;
    }
    var r := AddNewPerfume(catalog, p, now);
    assert forall i :: 1 <= i < |r| ==> r[i] == catalog[i - 1];
  }

  /** handleImportPerfumes (src/App.tsx:194-198): the imported products go
      in front, in their order. */
  function ImportPerfumes(catalog: seq<Perfume>, imported: seq<Perfume>): (r: seq<Perfume>)
    ensures |r| == |imported| + |catalog| && r[..|imported|] == imported && r[|imported|..] == catalog
  {
    imported + catalog
  }

  /** `p => !ids.has(p.id)`. */
  function Outside(ids: set<int>): Perfume -> bool {
    (p: Perfume) => p.id !in ids
  }

  /** handleApplySyncChanges (src/App.tsx:200-207): the updated perfumes,
      then the old catalog without their ids, in its order. */
  function ApplySync(catalog: seq<Perfume>, updated: seq<Perfume>): (r: seq<Perfume>)
    ensures |updated| <= |r| && r[..|updated|] == updated
    ensures forall p :: p in r[|updated|..] <==> p in catalog && p.id !in Ids(updated)
    ensures Subseq(r[|updated|..], catalog)
    ensures forall p :: multiset(r[|updated|..])[p] == if p.id !in Ids(updated) then multiset(catalog)[p] else 0
  {
    var kept := Filter(catalog, Outside(Ids(updated)));
    FilterMembers(catalog, Outside(Ids(updated)));
    FilterSubseq(catalog, Outside(Ids(updated)));
    FilterCount(catalog, Outside(Ids(updated)));
    assert (updated + kept)[|updated|..] == kept;
    updated + kept
  }

  /** Applying a sync keeps every id the catalog had and adds those of the
      updated perfumes; so when they all come from the catalog, as the sync
      dialog's do, the set of ids is unchanged. */
  lemma ApplySyncIds(catalog: seq<Perfume>, updated: seq<Perfume>)
    ensures Ids(ApplySync(catalog, updated)) == Ids(catalog) + Ids(updated)
    ensures Ids(updated) <= Ids(catalog) ==> Ids(ApplySync(catalog, updated)) == Ids(catalog)
  {
    IdsAppend(updated, Filter(catalog, Outside(Ids(updated))));
    IdsOutside(catalog, Ids(updated));
  }

  /** Dropping the perfumes whose ids are in `ids` drops exactly those ids. */
  lemma {:induction false} IdsOutside(s: seq<Perfume>, ids: set<int>)
    ensures Ids(Filter(s, Outside(ids))) == Ids(s) - ids
  {
    if |s| > 0 {
      IdsOutside(s[1..], ids);
      assert s == [s[0]] + s[1..];
      IdsAppend([s[0]], s[1..]);
      IdsAppend([s[0]], Filter(s[1..], Outside(ids)));
    }
  }

  /** handleLogin (src/App.tsx:166-175): only user `admin` with password `1234`. */
  predicate LoginAccepted(user: string, pass: string) {
    user == "admin" && pass == "1234"
  }

  /** The perfumes in stock that handleQuizSubmit offers to the recommender
      (src/App.tsx:103). */
  function QuizCandidates(catalog: seq<Perfume>): (r: seq<Perfume>)
    ensures forall i :: 0 <= i < |r| ==> r[i].stock > 0
    ensures forall p :: p in r <==> p in catalog && p.stock > 0
    ensures Subseq(r, catalog)
    ensures forall p :: multiset(r)[p] == if p.stock > 0 then multiset(catalog)[p] else 0
  {
    FilterMembers(catalog, (p: Perfume) => p.stock > 0);
    FilterSubseq(catalog, (p: Perfume) => p.stock > 0);
    FilterCount(catalog, (p: Perfume) => p.stock > 0);
    Filter(catalog, (p: Perfume) => p.stock > 0)
  }

  /** The catalog perfumes whose names the recommender returned, in catalog
      order (src/App.tsx:104). */
  function QuizMatches(catalog: seq<Perfume>, names: seq<string>): (r: seq<Perfume>)
    ensures forall i :: 0 <= i < |r| ==> r[i].name in names
    ensures forall p :: p in r <==> p in catalog && p.name in names
    ensures Subseq(r, catalog)
    ensures forall p :: multiset(r)[p] == if p.name in names then multiset(catalog)[p] else 0
  {
    FilterMembers(catalog, (p: Perfume) => p.name in names);
    FilterSubseq(catalog, (p: Perfume) => p.name in names);
    FilterCount(catalog, (p: Perfume) => p.name in names);
    Filter(catalog, (p: Perfume) => p.name in names)
  }

  /** What the recommender service answered: a list of perfume names, or a
      failure with its message. */
  datatype QuizAnswer = Names(names: seq<string>) | Failed(message: string)

  class Store {
    var catalog: seq<Perfume>
    var cart: seq<CartItem>
    var view: View
    var isAdmin: bool
    var loginOpen: bool
    var importOpen: bool
    var latestOrder: Option<Order>
    var logoUrl: string
    var quizResults: Option<seq<Perfume>>
    var quizError: Option<string>

    /** The object invariant: one cart line per perfume. */
    ghost predicate Valid()
      reads this
    {
      DistinctIds(cart)
    }

    /** The state App starts in (src/App.tsx:33-56). */
    constructor (initialCatalog: seq<Perfume>, initialLogo: string)
      ensures Valid()
      ensures catalog == initialCatalog && cart == [] && view == HomeView && !isAdmin
      ensures !loginOpen && !importOpen && latestOrder == None && logoUrl == initialLogo
      ensures quizResults == None && quizError == None
    {
      catalog := initialCatalog;
      cart := [];
      view := HomeView;
      isAdmin := false;
      loginOpen := false;
      importOpen := false;
      latestOrder := None;
      logoUrl := initialLogo;
      quizResults := None;
      quizError := None;
    }

    method HandleAddToCart(p: Perfume)
      requires Valid()
      modifies this`cart
      ensures Valid()
      ensures cart == AddToCart(old(cart), p)
      ensures !InCart(old(cart), p.id) ==> ItemCount() == old(ItemCount()) + 1
    {
      AddToCartKeepsDistinct(cart, p);
      AddToCartCount(cart, p);
      cart := AddToCart(cart, p);
    }

    method HandleUpdateQuantity(id: int, q: int)
      requires Valid()
      modifies this`cart
      ensures Valid()
      ensures cart == UpdateQuantity(old(cart), id, q)
    {
      UpdateQuantityKeepsDistinct(cart, id, q);
      cart := UpdateQuantity(cart, id, q);
    }

    method HandleRemoveFromCart(id: int)
      requires Valid()
      modifies this`cart
      ensures Valid()
      ensures cart == RemoveFromCart(old(cart), id)
    {
      RemoveKeepsDistinct(cart, id);
      cart := RemoveFromCart(cart, id);
    }

    /** handlePlaceOrder (src/App.tsx:153-164): the order is kept for the
        thank-you page, and the cart is emptied and the view switched whether
        or not the confirmation e-mail went out; `emailSent` only chooses the
        toast, which is not modelled. */
    method HandlePlaceOrder(order: Order, emailSent: bool)
      requires Valid()
      modifies this`latestOrder, this`cart, this`view
      ensures Valid()
      ensures latestOrder == Some(order) && cart == [] && view == ThankYouView
    {
      latestOrder := Some(order);
      cart := [];
      view := ThankYouView;
    }

    /** handleLogin: on success the admin mode is on, the login dialog closed
        and the admin view shown; otherwise nothing changes. */
    method HandleLogin(user: string, pass: string) returns (ok: bool)
      requires Valid()
      modifies this`isAdmin, this`loginOpen, this`view
      ensures Valid()
      ensures ok <==> LoginAccepted(user, pass)
      ensures ok ==> isAdmin && !loginOpen && view == AdminView
      ensures !ok ==> isAdmin == old(isAdmin) && loginOpen == old(loginOpen) && view == old(view)
    {
      ok := LoginAccepted(user, pass);
      if ok {
        isAdmin := true;
        loginOpen := false;
        view := AdminView;
      }
    }

    /** handleLogout (src/App.tsx:177-181). */
    method HandleLogout()
      requires Valid()
      modifies this`isAdmin, this`view
      ensures Valid()
      ensures !isAdmin && view == HomeView
    {
      isAdmin := false;
      view := HomeView;
    }

    method HandleUpdatePerfume(updated: Perfume)
      requires Valid()
      modifies this`catalog
      ensures Valid()
      ensures catalog == ReplacePerfume(old(catalog), updated)
    {
      catalog := ReplacePerfume(catalog, updated);
    }

    method HandleAddNewPerfume(p: Perfume, now: int)
      requires Valid()
      modifies this`catalog
      ensures Valid()
      ensures catalog == AddNewPerfume(old(catalog), p, now)
    {
      catalog := AddNewPerfume(catalog, p, now);
    }

    /** handleImportPerfumes also closes the import dialog. */
    method HandleImportPerfumes(imported: seq<Perfume>)
      requires Valid()
      modifies this`catalog, this`importOpen
      ensures Valid()
      ensures catalog == ImportPerfumes(old(catalog), imported) && !importOpen
    {
      catalog := ImportPerfumes(catalog, imported);
      importOpen := false;
    }

    method HandleApplySyncChanges(updated: seq<Perfume>)
      requires Valid()
      modifies this`catalog
      ensures Valid()
      ensures catalog == ApplySync(old(catalog), updated)
    {
      catalog := ApplySync(catalog, updated);
    }

    /** handleUpdateLogo (src/App.tsx:209-212). */
    method HandleUpdateLogo(url: string)
      requires Valid()
      modifies this`logoUrl
      ensures Valid()
      ensures logoUrl == url
    {
      logoUrl := url;
    }

    /** handleQuizSubmit (src/App.tsx:98-111), with the recommender's answer
        for `QuizCandidates(catalog)` given as `answer`. */
    method HandleQuizSubmit(answer: QuizAnswer)
      requires Valid()
      modifies this`quizResults, this`quizError
      ensures Valid()
      ensures answer.Names? ==> quizResults == Some(QuizMatches(catalog, answer.names)) && quizError == None
      ensures answer.Failed? ==> quizResults == None && quizError == Some(answer.message)
    {
      quizError := None;
      quizResults := None;
      match answer
      case Names(names) =>
        quizResults := Some(QuizMatches(catalog, names));
      case Failed(message) =>
        quizError := Some(message);
    }

    /** cartItemCount as the header shows it. */
    function ItemCount(): int
      reads this
    {
      CartItemCount(cart)
    }
  }

  /** Opening the login dialog and logging in: the right credentials switch
      to the admin view, the wrong ones leave the shopper where they were. */
  method LoginScenario(catalog: seq<Perfume>, logo: string)
  {
    var app := new Store(catalog, logo);
    var ok := app.HandleLogin("admin", "1234");
    assert ok && app.isAdmin && app.view == AdminView;
    app.HandleLogout();
    ok := app.HandleLogin("admin", "12345");
    assert !ok && !app.isAdmin && app.view == HomeView;
  }
}
