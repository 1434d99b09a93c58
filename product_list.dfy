/**
 * The product records the fridge screen keeps, and the two list updates its
 * handlers apply: the storage-place map of an image click and the filter of a
 * confirmed deletion. Both select products by their backend identifier `_id`.
 */
module ProductList {
  import opened Options

  /**
   * A product as the backend sends it: its `_id`, name, expiry date (an
   * opaque date string) and storage place (absent when undefined).
   */
  datatype Product = Product(id: string, name: string, dlc: string, storagePlace: Option<string>)

  /** No two products share an identifier. */
  predicate UniqueIds(products: seq<Product>)
  {
    forall i, j :: 0 <= i < j < |products| ==> products[i].id != products[j].id
  }

  /** `sub` keeps some of the elements of `s`, in their order in `s`. */
  predicate IsSubsequence<T(==)>(sub: seq<T>, s: seq<T>)
  {
    if sub == [] then true
    else if s == [] then false
    else if sub[0] == s[0] then IsSubsequence(sub[1..], s[1..])
    else IsSubsequence(sub, s[1..])
  }

  /** Every product with identifier `id` gets storage place `place`; the rest are kept. */
  function Relocate(products: seq<Product>, id: string, place: Option<string>): (r: seq<Product>)
    ensures |r| == |products|
  {
    if products == [] then []
    else
      var head := if products[0].id == id then products[0].(storagePlace := place) else products[0];
      [head] + Relocate(products[1..], id, place)
  }

  /** The products whose identifier is not `id`. */
  function WithoutId(products: seq<Product>, id: string): (r: seq<Product>)
    ensures |r| <= |products|
    ensures forall p :: p in r <==> p in products && p.id != id
  {
    if products == [] then []
    else if products[0].id == id then WithoutId(products[1..], id)
    else [products[0]] + WithoutId(products[1..], id)
  }

  /**
   * Position by position, a relocation changes only the storage place of the
   * products with the given identifier, and every other field stays.
   */
  lemma {:induction false} RelocateAt(products: seq<Product>, id: string, place: Option<string>, k: nat)
    requires k < |products|
    ensures Relocate(products, id, place)[k]
         == if products[k].id == id then products[k].(storagePlace := place) else products[k]
  {
    if k > 0 {
      RelocateAt(products[1..], id, place, k - 1);
    }
  }

  /** Relocating to the place the matching products already have changes nothing. */
  lemma {:induction false} RelocateSamePlace(products: seq<Product>, id: string, place: Option<string>)
    requires forall p :: p in products && p.id == id ==> p.storagePlace == place
    ensures Relocate(products, id, place) == products
  {
    if products != [] {
      RelocateSamePlace(products[1..], id, place);
    }
  }

  /** Of two relocations of the same identifier, the last one wins. */
  lemma {:induction false} RelocateLastWins(products: seq<Product>, id: string, first: Option<string>, second: Option<string>)
    ensures Relocate(Relocate(products, id, first), id, second) == Relocate(products, id, second)
  {
    if products != [] {
      RelocateLastWins(products[1..], id, first, second);
      assert Relocate(products, id, first)[1..] == Relocate(products[1..], id, first);
    }
  }

  /** Deletion keeps the surviving products in their original order. */
  lemma {:induction false} WithoutIdIsSubsequence(products: seq<Product>, id: string)
    ensures IsSubsequence(WithoutId(products, id), products)
  {
    if products != [] {
      WithoutIdIsSubsequence(products[1..], id);
      if products[0].id != id {
        assert WithoutId(products, id)[1..] == WithoutId(products[1..], id);
      }
    }
  }

  /** Deletion works piecewise: it distributes over concatenation. */
  lemma {:induction false} WithoutIdConcat(front: seq<Product>, back: seq<Product>, id: string)
    ensures WithoutId(front + back, id) == WithoutId(front, id) + WithoutId(back, id)
  {
    if front != [] {
      WithoutIdConcat(front[1..], back, id);
      assert (front + back)[1..] == front[1..] + back;
    } else {
      assert front + back == back;
    }
  }

  /** The list shrinks exactly when some product had the identifier. */
  lemma {:induction false} WithoutIdShrinksIff(products: seq<Product>, id: string)
    ensures |WithoutId(products, id)| < |products| <==> exists k :: 0 <= k < |products| && products[k].id == id
  {
    if products != [] {
      WithoutIdShrinksIff(products[1..], id);
      if exists k :: 0 <= k < |products| - 1 && products[1..][k].id == id {
        var k :| 0 <= k < |products| - 1 && products[1..][k].id == id;
        assert products[k + 1].id == id;
      }
      if exists k :: 0 <= k < |products| && products[k].id == id {
        var k :| 0 <= k < |products| && products[k].id == id;
        if k > 0 {
          assert products[1..][k - 1].id == id;
        }
      }
    }
  }

  /** Deleting the same identifier twice is deleting it once. */
  lemma {:induction false} WithoutIdIdempotent(products: seq<Product>, id: string)
    ensures WithoutId(WithoutId(products, id), id) == WithoutId(products, id)
  {
    if products != [] {
      WithoutIdIdempotent(products[1..], id);
      if products[0].id != id {
        assert WithoutId(products, id)[1..] == WithoutId(products[1..], id);
      }
    }
  }

  /**
   * A relocation followed by a deletion: deleting the relocated product
   * undoes nothing but the relocation, and a relocation of another
   * product commutes with the deletion.
   */
  lemma {:induction false} WithoutIdAfterRelocate(products: seq<Product>, moved: string, place: Option<string>, deleted: string)
    ensures WithoutId(Relocate(products, moved, place), deleted)
         == if moved == deleted then WithoutId(products, deleted)
            else Relocate(WithoutId(products, deleted), moved, place)
  {
    if products != [] {
      WithoutIdAfterRelocate(products[1..], moved, place, deleted);
      assert Relocate(products, moved, place)[1..] == Relocate(products[1..], moved, place);
      if moved != deleted && products[0].id != deleted {
        assert WithoutId(products, deleted)[1..] == WithoutId(products[1..], deleted);
      }
    }
  }

  /**
   * A deletion followed by a relocation of the deleted identifier: the
   * relocation finds nothing to change.
   */
  lemma RelocateAfterWithoutId(products: seq<Product>, deleted: string, place: Option<string>)
    ensures Relocate(WithoutId(products, deleted), deleted, place) == WithoutId(products, deleted)
  {
    RelocateSamePlace(WithoutId(products, deleted), deleted, place);
  }
}
