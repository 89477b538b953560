/** The records every part of the storefront passes around (src/types.ts).
    Prices, stock and ids are JavaScript numbers that hold whole Colombian
    pesos, counts and millisecond timestamps, so they are integers here;
    a rating is fractional and is a real. Optional members are `Option`s. */
module Catalog {
  import opened Wrappers

  datatype Gender = Hombre | Mujer | Unisex

  datatype Family = Floral | Oriental | Amaderado | Citrico | Aromatico

  /** The text of each family, as the source spells it. */
  function FamilyName(f: Family): string {
    match f
    case Floral => "Floral"
    case Oriental => "Oriental"
    case Amaderado => "Amaderado"
    case Citrico => "Cítrico"
    case Aromatico => "Aromático"
  }

  function GenderName(g: Gender): string {
    match g
    case Hombre => "Hombre"
    case Mujer => "Mujer"
    case Unisex => "Unisex"
  }

  /** The five families in the order the catalog and the importer list them. */
  const Families: seq<Family> := [Floral, Oriental, Amaderado, Citrico, Aromatico]

  datatype Details = Details(
    description: string,
    olfactoryNotes: string,
    concept: string,
    applicationPoint: string)

  datatype Perfume = Perfume(
    id: int,
    name: string,
    brand: string,
    volume: string,
    price: int,
    originalPrice: Option<int>,
    stock: int,
    imageUrl: string,
    images: Option<seq<string>>,
    gender: Gender,
    olfactoryFamily: Family,
    details: Option<Details>,
    officialUrl: Option<string>,
    sales: Option<int>,
    rating: Option<real>,
    reviewCount: Option<int>,
    sku: Option<string>)

  datatype CartItem = CartItem(perfume: Perfume, quantity: int)

  datatype Customer = Customer(
    name: string,
    address: string,
    addressDetails: string,
    city: string,
    whatsapp: string,
    email: string)

  datatype PaymentMethod = Cod | Card

  datatype Order = Order(
    customer: Customer,
    items: seq<CartItem>,
    subtotal: int,
    shipping: int,
    total: int,
    paymentMethod: PaymentMethod,
    orderNumber: string)

  /** `p.sales || 0`: a missing count of sales is read as zero. */
  function SalesOf(p: Perfume): int {
    p.sales.GetOr(0)
  }

  /** `p.rating || 0`. */
  function RatingOf(p: Perfume): real {
    p.rating.GetOr(0.0)
  }

  function IdOf(p: Perfume): int {
    p.id
  }

  function ItemId(item: CartItem): int {
    item.perfume.id
  }

  /** The set of ids in a list of perfumes (`new Set(ps.map(p => p.id))`). */
  function Ids(ps: seq<Perfume>): (r: set<int>)
    ensures forall i :: 0 <= i < |ps| ==> ps[i].id in r
    ensures forall id :: id in r ==> exists i :: 0 <= i < |ps| && ps[i].id == id
  {
    set i | 0 <= i < |ps| :: ps[i].id
  }

  /** The ids of a concatenation are those of its parts. */
  lemma IdsAppend(a: seq<Perfume>, b: seq<Perfume>)
    ensures Ids(a + b) == Ids(a) + Ids(b)
  {
    var ab := a + b;
    forall id | id in Ids(ab) ensures id in Ids(a) + Ids(b) {
      var i :| 0 <= i < |ab| && ab[i].id == id;
      if i < |a| { assert ab[i] == a[i]; } else { assert ab[i] == b[i - |a|]; }
    }
    forall id | id in Ids(b) ensures id in Ids(ab) {
      var i :| 0 <= i < |b| && b[i].id == id;
      assert ab[i + |a|] == b[i];
    }
    forall id | id in Ids(a) ensures id in Ids(ab) {
      var i :| 0 <= i < |a| && a[i].id == id;
      assert ab[i] == a[i];
    }
  }
}
