/**
 * The state of the fridge screen and the handlers that change it. Each
 * handler runs to completion on its own; the outcome of the backend request
 * it awaits is a parameter.
 */
module Fridge {
  import opened Options
  import opened Dlc
  import opened StoragePlace
  import opened ProductList

  /** The outcome of the product list request. */
  datatype FetchReply =
    | FetchAnswer(result: bool, data: seq<Product>)  // a decoded JSON reply
    | FetchFailure                                   // a network or decoding error

  /** The outcome of a storage-place update or of a deletion request. */
  datatype MutationReply =
    | MutationAnswer(result: bool)  // a decoded JSON reply
    | MutationFailure               // a network or decoding error

  /** The backend confirmed the mutation. */
  predicate Confirmed(reply: MutationReply)
  {
    reply.MutationAnswer? && reply.result
  }

  /**
   * The list after a click on the image of the row at index `k`, the row
   * being the product rendered from `products`.
   */
  function ClickRow(products: seq<Product>, k: nat): (r: seq<Product>)
    requires k < |products|
    ensures |r| == |products|
    ensures r[k] == products[k].(storagePlace := NextPlace(products[k].storagePlace))
  {
    RelocateAt(products, products[k].id, NextPlace(products[k].storagePlace), k);
    Relocate(products, products[k].id, NextPlace(products[k].storagePlace))
  }

  /** Three clicks on the same row bring a list with distinct identifiers back to itself. */
  lemma ThreeClicksRestoreList(products: seq<Product>, k: nat)
    requires k < |products|
    requires UniqueIds(products)
    requires IsKnownPlace(products[k].storagePlace)
    ensures ClickRow(ClickRow(ClickRow(products, k), k), k) == products
  {
    var id, place := products[k].id, products[k].storagePlace;
    var once := ClickRow(products, k);
    var twice := ClickRow(once, k);
    RelocateLastWins(products, id, NextPlace(place), NextPlace(NextPlace(place)));
    RelocateLastWins(products, id, NextPlace(NextPlace(place)), NextPlace(NextPlace(NextPlace(place))));
    ThreeStepsReturn(place);
    forall p | p in products && p.id == id
      ensures p.storagePlace == place
    {
      var j :| 0 <= j < |products| && products[j] == p;
      assert j == k;
    }
    RelocateSamePlace(products, id, place);
  }

  class FridgeScreen {
    /** The products shown; `None` until the first successful fetch. */
    var productsInfo: Option<seq<Product>>
    /** Flipped after each deletion; the list is fetched again whenever it changes. */
    var refresh: bool
    var shortDlcModalVisible: bool
    var longDlcModalVisible: bool

    /** The screen starts with no product list, and with both modals hidden. */
    constructor ()
      ensures productsInfo == None && !refresh
      ensures !shortDlcModalVisible && !longDlcModalVisible
    {
      productsInfo := None;
      refresh := false;
      shortDlcModalVisible := false;
      longDlcModalVisible := false;
    }

    /**
     * A successful reply replaces the whole list with the products it carries;
     * any other outcome leaves the list as it was.
     */
    method FetchProducts(reply: FetchReply)
      modifies this`productsInfo
      ensures reply.FetchAnswer? && reply.result ==> productsInfo == Some(reply.data)
      ensures !(reply.FetchAnswer? && reply.result) ==> productsInfo == old(productsInfo)
    {
      match reply
      case FetchAnswer(result, data) =>
        if result {
          productsInfo := Some(data);
        }
      case FetchFailure =>
    }

    /**
     * A click on a product's image: every product sharing its identifier gets
     * the next storage place, whatever the backend answered to the update.
     */
    method HandleImageClick(clicked: Product, putReply: MutationReply)
      requires productsInfo.Some?
      modifies this`productsInfo
      ensures productsInfo == Some(Relocate(old(productsInfo).value, clicked.id, NextPlace(clicked.storagePlace)))
      ensures |productsInfo.value| == |old(productsInfo).value|
      ensures forall k :: 0 <= k < |productsInfo.value| ==>
        productsInfo.value[k] == if old(productsInfo).value[k].id == clicked.id
                                 then old(productsInfo).value[k].(storagePlace := NextPlace(clicked.storagePlace))
                                 else old(productsInfo).value[k]
    {
      var newStoragePlace := NextPlace(clicked.storagePlace);
      var before := productsInfo.value;
      productsInfo := Some(Relocate(before, clicked.id, newStoragePlace));
      forall k | 0 <= k < |before|
        ensures productsInfo.value[k] == if before[k].id == clicked.id
                                         then before[k].(storagePlace := newStoragePlace)
                                         else before[k]
      {
        RelocateAt(before, clicked.id, newStoragePlace, k);
      }
    }

    /** A press on an expiry date opens exactly one modal, chosen by the days left. */
    method HandleDlcPress(daysRemaining: int)
      modifies this`shortDlcModalVisible, this`longDlcModalVisible
      ensures DlcModalOf(daysRemaining) == ShortDlcModal ==>
        shortDlcModalVisible && longDlcModalVisible == old(longDlcModalVisible)
      ensures DlcModalOf(daysRemaining) == LongDlcModal ==>
        longDlcModalVisible && shortDlcModalVisible == old(shortDlcModalVisible)
      ensures shortDlcModalVisible == (old(shortDlcModalVisible) || DlcColorOf(daysRemaining) != Green)
    {
      if daysRemaining <= 4 {
        shortDlcModalVisible := true;
      } else {
        longDlcModalVisible := true;
      }
    }

    /** Closing the short modal, by its button or by the back gesture. */
    method CloseShortDlcModal()
      modifies this`shortDlcModalVisible
      ensures !shortDlcModalVisible
    {
      shortDlcModalVisible := false;
    }

    /** Closing the long modal, by its button or by the back gesture. */
    method CloseLongDlcModal()
      modifies this`longDlcModalVisible
      ensures !longDlcModalVisible
    {
      longDlcModalVisible := false;
    }

    /**
     * A deletion: once the backend confirms it, the products sharing the
     * deleted identifier leave the list and `refresh` flips; otherwise nothing
     * changes.
     */
    method HandleProductDelete(deleted: Product, reply: MutationReply)
      requires Confirmed(reply) ==> productsInfo.Some?
      modifies this`productsInfo, this`refresh
      ensures Confirmed(reply) ==>
        productsInfo == Some(WithoutId(old(productsInfo).value, deleted.id)) && refresh == !old(refresh)
      ensures Confirmed(reply) ==> forall p :: p in productsInfo.value ==> p.id != deleted.id
      ensures Confirmed(reply) ==> IsSubsequence(productsInfo.value, old(productsInfo).value)
      ensures !Confirmed(reply) ==> productsInfo == old(productsInfo) && refresh == old(refresh)
    {
      if Confirmed(reply) {
        var before := productsInfo.value;
        productsInfo := Some(WithoutId(before, deleted.id));
        WithoutIdIsSubsequence(before, deleted.id);
        refresh := !refresh;
      }
    }
  }
}
