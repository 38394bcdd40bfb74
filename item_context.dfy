/** The item store: the cached product list of the selected supermarket and the operations
    that fetch, create, update and delete items. */
module ItemContext {
  import opened Maybe
  import opened Http
  import opened Items
  import opened LoginContext

  /** The guard of `createItem`, `updateItem` and `deleteItem`: a user and the flag. */
  predicate SignedIn(scope: Scope) {
    scope.user.Some? && scope.isAuthenticated
  }

  /** The guard of `fetchItemsBySupermarket`, and the mount effect's condition to fetch:
      a user, the flag and a non-empty supermarket id. */
  predicate CanFetch(scope: Scope) {
    SignedIn(scope) && Truthy(scope.supermarketId)
  }

  /** What a supermarket fetch leaves in `items` (and returns): the reply's list on success,
      an empty list when the guard fails or the request fails. */
  function FetchedItems(scope: Scope, reply: Reply<seq<Item>>): (r: seq<Item>)
    ensures !CanFetch(scope) || !reply.Ok? ==> r == []
    ensures CanFetch(scope) && reply.Ok? ==> r == reply.data
  {
    if CanFetch(scope) && reply.Ok? then reply.data else []
  }

  class ItemProvider {
    var items: seq<Item>
    var loading: bool
    /** The requests sent so far, oldest first. */
    var sent: seq<Request>

    constructor ()
      ensures items == [] && !loading && sent == []
    {
      items := [];
      loading := false;
      sent := [];
    }

    /** `clearItems()` */
    method ClearItems()
      modifies this
      ensures items == [] && !loading && sent == old(sent)
    {
      items := [];
      loading := false;
    }

    /** `fetchItemsBySupermarket()`: with the guard failing nothing is sent and the list is
        cleared; otherwise `items` becomes the reply's list (an empty reply clears it) and a
        failed request clears it. The result is the new list, and `loading` ends false. */
    method FetchItemsBySupermarket(scope: Scope, reply: Reply<seq<Item>>) returns (result: seq<Item>)
      modifies this
      ensures items == FetchedItems(scope, reply) && result == items && !loading
      ensures !CanFetch(scope) ==> sent == old(sent)
      ensures CanFetch(scope) ==> sent == old(sent) + [GetSupermarketItems(scope.supermarketId.value)]
    {
      if !CanFetch(scope) {
        ClearItems();
        return [];
      }
      loading := true;
      sent := sent + [GetSupermarketItems(scope.supermarketId.value)];
      if reply.Ok? {
        if |reply.data| == 0 {
          ClearItems();
        } else {
          items := reply.data;
        }
        result := reply.data;
      } else {
        ClearItems();
        result := [];
      }
      loading := false;
    }

    /** `fetchItemById(id)`: the reply's item, or `None` (`null`) on failure; the list is
        left alone. No guard: it sends whether or not anyone is signed in. */
    method FetchItemById(id: string, reply: Reply<Item>) returns (result: Option<Item>)
      modifies this
      ensures items == old(items) && loading == old(loading)
      ensures sent == old(sent) + [GetItem(id)]
      ensures result == if reply.Ok? then Some(reply.data) else None
    {
      sent := sent + [GetItem(id)];
      result := if reply.Ok? then Some(reply.data) else None;
    }

    /** `fetchItemsByCategory(categoryId)`: the reply's list, or `[]` on failure; the cached
        list is left alone. */
    method FetchItemsByCategory(categoryId: string, reply: Reply<seq<Item>>) returns (result: seq<Item>)
      modifies this
      ensures items == old(items) && loading == old(loading)
      ensures sent == old(sent) + [GetCategoryItems(categoryId)]
      ensures result == if reply.Ok? then reply.data else []
    {
      sent := sent + [GetCategoryItems(categoryId)];
      result := if reply.Ok? then reply.data else [];
    }

    /** `createItem(item, image)`: signed out, nothing happens. Otherwise the item's defined
        properties and then the image (under `imageUrl`) are posted; on success the list is
        refetched (`refresh` is that fetch's reply), on failure nothing else changes. */
    method CreateItem(scope: Scope, item: Patch, image: Option<File>, reply: Reply<()>, refresh: Reply<seq<Item>>)
      requires IsPartialItem(item)
      modifies this
      ensures !SignedIn(scope) ==> items == old(items) && loading == old(loading) && sent == old(sent)
      ensures SignedIn(scope) ==>
        var post := PostItem(scope.supermarketId, FieldEntries(item) + ImageEntry(image));
        if reply.Ok? then
          items == FetchedItems(scope, refresh) && !loading
          && sent == old(sent) + [post] + (if CanFetch(scope) then [GetSupermarketItems(scope.supermarketId.value)] else [])
        else
          items == old(items) && loading == old(loading) && sent == old(sent) + [post]
    {
      if !SignedIn(scope) {
        return;
      }
      var form := new FormData();
      AppendItemFields(form, item);
      if image.Some? {
        form.Append("imageUrl", Blob(image.value));
      }
      assert form.entries == FieldEntries(item) + ImageEntry(image);
      sent := sent + [PostItem(scope.supermarketId, form.entries)];
      if reply.Ok? {
        var _ := FetchItemsBySupermarket(scope, refresh);
      }
    }

    /** `updateItem(id, updatedItem, image)`: signed out, nothing happens. Otherwise the
        form is sent and, on success, every item with that id becomes the item with the
        reply's properties spread over it; the others, and the order, stay. */
    method UpdateItem(scope: Scope, id: string, item: Patch, image: Option<File>, reply: Reply<Patch>)
      requires IsPartialItem(item)
      requires reply.Ok? ==> IsReplyPatch(reply.data)
      modifies this
      ensures loading == old(loading)
      ensures !SignedIn(scope) ==> items == old(items) && sent == old(sent)
      ensures SignedIn(scope) ==>
        sent == old(sent) + [PatchItem(id, FieldEntries(item) + ImageEntry(image))]
        && items == if reply.Ok? then ReplaceById(old(items), id, reply.data) else old(items)
    {
      if !SignedIn(scope) {
        return;
      }
      var form := new FormData();
      AppendItemFields(form, item);
      if image.Some? {
        form.Append("imageUrl", Blob(image.value));
      }
      assert form.entries == FieldEntries(item) + ImageEntry(image);
      sent := sent + [PatchItem(id, form.entries)];
      if reply.Ok? {
        items := ReplaceById(items, id, reply.data);
      }
    }

    /** `deleteItem(id)`: signed out, nothing happens. Otherwise the delete is sent and, on
        success, exactly the items with another id remain, in order; a failure is swallowed
        and leaves the list as it was. */
    method DeleteItem(scope: Scope, id: string, reply: Reply<()>)
      modifies this
      ensures loading == old(loading)
      ensures !SignedIn(scope) ==> items == old(items) && sent == old(sent)
      ensures SignedIn(scope) ==>
        sent == old(sent) + [Request.DeleteItem(id)]
        && items == if reply.Ok? then RemoveById(old(items), id) else old(items)
    {
      if !SignedIn(scope) {
        return;
      }
      sent := sent + [Request.DeleteItem(id)];
      if reply.Ok? {
        items := RemoveById(items, id);
      }
    }

    /** The effect on `[isAuthenticated, supermarketId, user]`: clear when any of the three
        is falsy, fetch otherwise. */
    method OnSessionChange(scope: Scope, reply: Reply<seq<Item>>)
      modifies this
      ensures items == FetchedItems(scope, reply) && !loading
      ensures !CanFetch(scope) ==> items == [] && sent == old(sent)
      ensures CanFetch(scope) ==> sent == old(sent) + [GetSupermarketItems(scope.supermarketId.value)]
    {
      if !scope.isAuthenticated || !Truthy(scope.supermarketId) || scope.user.None? {
        ClearItems();
      } else {
        var _ := FetchItemsBySupermarket(scope, reply);
      }
    }
  }

  /** The `imageUrl` entry appended when an image is given. */
  function ImageEntry(image: Option<File>): (es: seq<Entry>)
    ensures image.None? <==> es == []
    ensures image.Some? ==> es == [Entry("imageUrl", Blob(image.value))]
  {
    if image.Some? then [Entry("imageUrl", Blob(image.value))] else []
  }

  /** The `Object.keys(item).forEach` loop of `createItem` and `updateItem`. */
  method AppendItemFields(form: FormData, item: Patch)
    requires forall i :: 0 <= i < |item| ==> Conforms(item[i].0, item[i].1)
    modifies form
    ensures form.entries == old(form.entries) + FieldEntries(item)
  {
    var i := 0;
    while i < |item|
      invariant 0 <= i <= |item|
      invariant form.entries + FieldEntries(item[i..]) == old(form.entries) + FieldEntries(item)
    {
      var (key, value) := item[i];
      assert FieldEntries(item[i..]) ==
        (if value.Undefined? then [] else [Entry(KeyName(key), EncodeField(key, value).value)])
        + FieldEntries(item[i + 1..]);
      if !value.Undefined? {
        if key == PromotionEndKey && value.DateValue? {
          form.Append(KeyName(key), TextValue(Plain(Dates.ToIsoString(value.date))));
        } else if key == QuantityOffersKey {
          form.Append(KeyName(key), TextValue(OffersJson(value.offers)));
        } else if value.Num? {
          form.Append(KeyName(key), TextValue([Numeral(value.x)]));
        } else {
          form.Append(KeyName(key), TextValue(Plain(value.s)));
        }
      }
      i := i + 1;
    }
  }
}
