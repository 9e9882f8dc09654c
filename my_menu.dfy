/**
 * The owner's "My Menu Items" page: the list of the owner's items, filled by the
 * initial fetch and shortened by a confirmed, successful delete. The confirm
 * dialog's answer and each request's outcome are inputs.
 */
module MyMenu {

  import opened Wrappers
  import opened Js
  import Seqs

  datatype Item = Item(id: string, itemName: string)

  /** The JSON body of `GET /api/menus/me`. */
  datatype ItemsReply = ItemsReply(success: bool, items: seq<Item>)

  /** The JSON body of `DELETE /api/menus/:id`. */
  datatype DeleteReply = DeleteReply(success: bool)

  /** A `GET /api/menus/me` request with its bearer header. */
  datatype ItemsRequest = ItemsRequest(authorization: string)

  /** A `DELETE /api/menus/:id` request with its bearer header. */
  datatype DeleteRequest = DeleteRequest(id: string, authorization: string)

  function IdIsNot(id: string): Item -> bool {
    (item: Item) => item.id != id
  }

  function IdIs(id: string): Item -> bool {
    (item: Item) => item.id == id
  }

  /** `items.filter((item) => item._id !== id)`. */
  function WithoutId(items: seq<Item>, id: string): (r: seq<Item>)
    ensures forall item :: item in r <==> item in items && item.id != id
    ensures |r| == |items| - Seqs.Count(items, IdIs(id))
  {
    Seqs.FilterLength(items, IdIsNot(id), IdIs(id));
    Seqs.Filter(items, IdIsNot(id))
  }

  /** Deleting keeps the other items in their original order: it distributes over concatenation. */
  lemma WithoutIdAppend(a: seq<Item>, b: seq<Item>, id: string)
    ensures WithoutId(a + b, id) == WithoutId(a, id) + WithoutId(b, id)
  {
    Seqs.FilterAppend(a, b, IdIsNot(id));
  }

  /** Deleting an id that no item carries leaves the list as it was. */
  lemma WithoutAbsentId(items: seq<Item>, id: string)
    requires forall item :: item in items ==> item.id != id
    ensures WithoutId(items, id) == items
  {
    Seqs.FilterAll(items, IdIsNot(id));
  }

  /** Deleting an item from the middle of the list gives back the items around it, in order. */
  lemma DeleteFromMiddle(before: seq<Item>, item: Item, after: seq<Item>)
    requires forall x :: x in before ==> x.id != item.id
    requires forall x :: x in after ==> x.id != item.id
    ensures WithoutId(before + [item] + after, item.id) == before + after
  {
    var id := item.id;
    assert WithoutId(before + [item], id) == before by {
      WithoutIdAppend(before, [item], id);
      WithoutAbsentId(before, id);
      Seqs.FilterSingle(item, IdIsNot(id));
    }
    assert WithoutId(after, id) == after by {
      WithoutAbsentId(after, id);
    }
    WithoutIdAppend(before + [item], after, id);
  }

  class MyMenuPage {
    /** The token read from the auth store. */
    const token: Nullable
    var items: seq<Item>

    constructor (token: Nullable)
      ensures items == [] && this.token == token
    {
      this.token := token;
      items := [];
    }

    /** `fetchMyItems`: the request with the bearer header, then the list replaced by the reply's items on `success` and kept otherwise. */
    method FetchMyItems(net: Completion<ItemsReply>) returns (request: ItemsRequest)
      modifies this
      ensures request == ItemsRequest(Bearer(token))
      ensures net.Normal? && net.value.success ==> items == net.value.items
      ensures !(net.Normal? && net.value.success) ==> items == old(items)
    {
      request := ItemsRequest(Bearer(token));
      match net
      case Normal(result) =>
        if result.success {
          items := result.items;
        }
      case Threw(_) =>
    }

    /**
     * `handleDelete(id)`: nothing at all unless the owner confirms; then the request,
     * and the item removed from the list only if the reply reports `success`.
     */
    method HandleDelete(id: string, confirmed: bool, net: Completion<DeleteReply>) returns (request: Option<DeleteRequest>)
      modifies this
      ensures !confirmed ==> request.None? && items == old(items)
      ensures confirmed ==> request == Some(DeleteRequest(id, Bearer(token)))
      ensures confirmed && net.Normal? && net.value.success ==> items == WithoutId(old(items), id)
      ensures !(confirmed && net.Normal? && net.value.success) ==> items == old(items)
    {
      if !confirmed {
        return None;
      }
      request := Some(DeleteRequest(id, Bearer(token)));
      match net
      case Normal(result) =>
        if result.success {
          items := WithoutId(items, id);
        }
      case Threw(_) =>
    }
  }
}
