/** The supplier's product catalog as a list, and the list transforms the
    supplier dashboard's handlers apply to it: append, delete by id, flip
    the stock flag by id, and the in-stock / out-of-stock counts. */
module SupplierCatalog {
  import opened Wrappers
  import Sequences

  datatype Product = Product(
    id: string,
    name: string,
    hindiName: string,
    price: real,
    unit: string,
    description: string,
    category: string,
    inStock: bool,
    expiryDate: Option<string>,
    manufacturingDate: Option<string>)

  /** The add-product form (`newProduct`); the price is still the typed text. */
  datatype Draft = Draft(
    name: string,
    hindiName: string,
    price: string,
    unit: string,
    description: string,
    category: string,
    expiryDate: string,
    manufacturingDate: string)

  /** The form's initial value, to which it is reset after an add. */
  const EmptyDraft: Draft := Draft("", "", "", "per kg", "", "vegetables", "", "")

  /** No two entries share an id. */
  predicate UniqueIds(ps: seq<Product>) {
    forall i, j :: 0 <= i < j < |ps| ==> ps[i].id != ps[j].id
  }

  /** No entry has id `id`. */
  predicate FreshId(ps: seq<Product>, id: string) {
    forall p :: p in ps ==> p.id != id
  }

  /** The add handler refuses a draft whose name or price text is empty. */
  predicate Rejects(d: Draft) {
    d.name == "" || d.price == ""
  }

  /** The record the add handler builds: `price` is what `parseFloat` read
      from the draft's price text, and every new product starts in stock. */
  function FromDraft(d: Draft, id: string, price: real): Product {
    Product(id, d.name, d.hindiName, price, d.unit, d.description, d.category,
            true, Some(d.expiryDate), Some(d.manufacturingDate))
  }

  /** The test `p => p.id !== id`. */
  function OtherThan(id: string): Product -> bool {
    (p: Product) => p.id != id
  }

  /** `products.filter(p => p.id !== id)`. */
  function WithoutId(ps: seq<Product>, id: string): seq<Product> {
    Sequences.Filter(ps, OtherThan(id))
  }

  /** One step of the toggle: flip the stock flag of a product with id `id`. */
  function Flip(p: Product, id: string): Product {
    if p.id == id then p.(inStock := !p.inStock) else p
  }

  /** `products.map(p => p.id === id ? { ...p, inStock: !p.inStock } : p)`. */
  function ToggleStock(ps: seq<Product>, id: string): seq<Product> {
    if ps == [] then [] else [Flip(ps[0], id)] + ToggleStock(ps[1..], id)
  }

  predicate IsInStock(p: Product) {
    p.inStock
  }

  predicate IsOutOfStock(p: Product) {
    !p.inStock
  }

  /** `products.filter(p => p.inStock)`. */
  function InStock(ps: seq<Product>): seq<Product> {
    Sequences.Filter(ps, IsInStock)
  }

  /** `products.filter(p => !p.inStock)`. */
  function OutOfStock(ps: seq<Product>): seq<Product> {
    Sequences.Filter(ps, IsOutOfStock)
  }

  /** Delete keeps the other entries in their order, each as often as it is
      listed, removes every entry with the id and only those, and is a no-op
      when the id is absent. */
  lemma WithoutIdSpec(ps: seq<Product>, id: string)
    ensures FreshId(WithoutId(ps, id), id)
    ensures forall p :: p in WithoutId(ps, id) <==> p in ps && p.id != id
    ensures forall p :: multiset(WithoutId(ps, id))[p] == if p.id != id then multiset(ps)[p] else 0
    ensures Sequences.SubsequenceOf(WithoutId(ps, id), ps)
    ensures FreshId(ps, id) ==> WithoutId(ps, id) == ps
  {
    Sequences.FilterIsSubsequence(ps, OtherThan(id));
    forall p ensures p in WithoutId(ps, id) <==> p in ps && p.id != id {
      Sequences.FilterMembership(ps, OtherThan(id), p);
    }
    Sequences.FilterCounts(ps, OtherThan(id));
  }

  /** Deleting the same id twice is deleting it once. */
  lemma WithoutIdIdempotent(ps: seq<Product>, id: string)
    ensures WithoutId(WithoutId(ps, id), id) == WithoutId(ps, id)
  {
    WithoutIdSpec(ps, id);
    WithoutIdSpec(WithoutId(ps, id), id);
  }

  /** The tail of a list with unique ids has unique ids, none of them the head's. */
  lemma UniqueTail(ps: seq<Product>)
    requires ps != [] && UniqueIds(ps)
    ensures UniqueIds(ps[1..]) && FreshId(ps[1..], ps[0].id)
  {
    forall i, j | 0 <= i < j < |ps| - 1 ensures ps[1..][i].id != ps[1..][j].id {
      assert ps[1..][i] == ps[i + 1] && ps[1..][j] == ps[j + 1];
    }
    forall q | q in ps[1..] ensures q.id != ps[0].id {
      var k :| 0 <= k < |ps| - 1 && ps[1..][k] == q;
      assert ps[k + 1] == q;
    }
  }

  /** Putting a product with a fresh id in front keeps the ids unique. */
  lemma ConsUnique(p: Product, ps: seq<Product>)
    requires UniqueIds(ps) && FreshId(ps, p.id)
    ensures UniqueIds([p] + ps)
  {
    forall i, j | 0 <= i < j < |ps| + 1 ensures ([p] + ps)[i].id != ([p] + ps)[j].id {
      if i == 0 {
        assert ([p] + ps)[j] == ps[j - 1] && ps[j - 1] in ps;
      } else {
        assert ([p] + ps)[i] == ps[i - 1] && ([p] + ps)[j] == ps[j - 1];
      }
    }
  }

  /** Deleting keeps the ids unique. */
  lemma {:induction false} WithoutIdKeepsUnique(ps: seq<Product>, id: string)
    requires UniqueIds(ps)
    ensures UniqueIds(WithoutId(ps, id))
  {
    if ps != [] {
      UniqueTail(ps);
      WithoutIdKeepsUnique(ps[1..], id);
      if ps[0].id != id {
        var tail := WithoutId(ps[1..], id);
        assert WithoutId(ps, id) == [ps[0]] + tail;
        ConsUnique(ps[0], tail);
      }
    }
  }

  /** Toggling keeps the length, the order and every id and field except the
      stock flag, which it flips exactly on the entries whose id is `id`. */
  lemma {:induction false} ToggleStockSpec(ps: seq<Product>, id: string)
    ensures |ToggleStock(ps, id)| == |ps|
    ensures forall i :: 0 <= i < |ps| ==>
      && ToggleStock(ps, id)[i].(inStock := ps[i].inStock) == ps[i]
      && ToggleStock(ps, id)[i].inStock == (if ps[i].id == id then !ps[i].inStock else ps[i].inStock)
  {
    if ps != [] {
      ToggleStockSpec(ps[1..], id);
      var r := ToggleStock(ps, id);
      forall i | 1 <= i < |ps| ensures r[i] == ToggleStock(ps[1..], id)[i - 1] && ps[i] == ps[1..][i - 1] {
      }
    }
  }

  /** Toggling the same id twice gives back the original list. */
  lemma {:induction false} ToggleStockTwice(ps: seq<Product>, id: string)
    ensures ToggleStock(ToggleStock(ps, id), id) == ps
  {
    if ps != [] {
      ToggleStockTwice(ps[1..], id);
    }
  }

  /** Toggling changes no id, so it keeps them unique; with the id absent it
      changes nothing at all. */
  lemma ToggleStockKeepsIds(ps: seq<Product>, id: string)
    ensures UniqueIds(ps) ==> UniqueIds(ToggleStock(ps, id))
    ensures FreshId(ps, id) ==> ToggleStock(ps, id) == ps
  {
    ToggleStockSpec(ps, id);
    var r := ToggleStock(ps, id);
    forall i | 0 <= i < |ps| ensures r[i].id == ps[i].id {
      assert r[i].(inStock := ps[i].inStock).id == r[i].id;
    }
    if FreshId(ps, id) {
      forall i | 0 <= i < |ps| ensures r[i] == ps[i] {
        assert ps[i] in ps;
      }
    }
  }

  /** Appending a product whose id is fresh keeps the ids unique. */
  lemma AppendFreshKeepsUnique(ps: seq<Product>, p: Product)
    requires UniqueIds(ps) && FreshId(ps, p.id)
    ensures UniqueIds(ps + [p])
  {
    forall i, j | 0 <= i < j < |ps| + 1 ensures (ps + [p])[i].id != (ps + [p])[j].id {
      if j == |ps| {
        assert ps[i] in ps;
      }
    }
  }

  /** In-stock count plus out-of-stock count is the total count. */
  lemma CountsAddUp(ps: seq<Product>)
    ensures |InStock(ps)| + |OutOfStock(ps)| == |ps|
  {
    Sequences.FilterPartition(ps, IsInStock, IsOutOfStock);
  }

  /** A successful add raises the in-stock count by one and leaves the
      out-of-stock count as it was. */
  lemma AddCounts(ps: seq<Product>, d: Draft, id: string, price: real)
    ensures |InStock(ps + [FromDraft(d, id, price)])| == |InStock(ps)| + 1
    ensures |OutOfStock(ps + [FromDraft(d, id, price)])| == |OutOfStock(ps)|
  {
    var p := FromDraft(d, id, price);
    Sequences.FilterAppend(ps, [p], IsInStock);
    Sequences.FilterAppend(ps, [p], IsOutOfStock);
    assert [p][1..] == [];
  }
}
