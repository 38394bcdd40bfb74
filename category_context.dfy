/** The category store: the cached category list of the selected supermarket, its last error
    message, and the operations that create, update and delete categories. */
module CategoryContext {
  import opened Maybe
  import opened Http
  import opened LoginContext

  datatype Category = Category(
    id: string,
    name: string,
    image: Option<string>,
    userId: string,
    supermarketId: string,
    parentCategory: Option<string>,
    subcategories: Option<seq<string>>
  )

  const FetchFailedMessage := "Failed to fetch categories. Please try again later."
  const NotAuthenticatedMessage := "User is not authenticated"
  const UpdateFailedMessage := "Failed to update category. Please try again."
  const ForbiddenMessage := "You do not have permission to delete this category."
  const DeleteFailedMessage := "Failed to delete category. Please try again."
  const UnexpectedMessage := "An unexpected error occurred. Please try again."

  /** The guard of `fetchCategories`: the flag and a non-empty supermarket id (the user is
      not looked at). */
  predicate CanFetch(scope: Scope) {
    scope.isAuthenticated && Truthy(scope.supermarketId)
  }

  /** The list after a `fetchCategories` call that found `cats`: the reply's list when the
      call went ahead and succeeded, `cats` otherwise. */
  function Fetched(scope: Scope, reply: Reply<seq<Category>>, cats: seq<Category>): seq<Category> {
    if CanFetch(scope) && reply.Ok? then reply.data else cats
  }

  /** The error after a `fetchCategories` call that found `err`: untouched when the guard
      stops it, cleared on success, the fetch message on failure. */
  function FetchError(scope: Scope, reply: Reply<seq<Category>>, err: Option<string>): Option<string> {
    if !CanFetch(scope) then err else if reply.Ok? then None else Some(FetchFailedMessage)
  }

  /** The requests a `fetchCategories` call sends. */
  function FetchRequests(scope: Scope): seq<Request> {
    if CanFetch(scope) then [GetCategories(scope.supermarketId.value)] else []
  }

  /** The message `deleteCategory` records for a failed delete: permission for a 403, the
      generic message for any other axios error, the unexpected-error message otherwise. */
  function DeleteErrorMessage(failure: Reply<()>): (m: string)
    requires !failure.Ok?
    ensures m == ForbiddenMessage <==> failure == HttpError(403)
    ensures m == DeleteFailedMessage <==> failure.IsAxiosError() && failure != HttpError(403)
    ensures m == UnexpectedMessage <==> failure.OtherError?
  {
    if failure.IsAxiosError() then
      if failure.HttpError? && failure.status == 403 then ForbiddenMessage else DeleteFailedMessage
    else UnexpectedMessage
  }

  /** The `parentCategory` entry `createCategory` adds when the id is truthy. */
  function ParentEntry(parentCategoryId: Option<string>): (es: seq<Entry>)
    ensures es != [] <==> Truthy(parentCategoryId)
    ensures es != [] ==> es == [Entry("parentCategory", TextValue(Plain(parentCategoryId.value)))]
  {
    if Truthy(parentCategoryId) then [Entry("parentCategory", TextValue(Plain(parentCategoryId.value)))] else []
  }

  /** The `supermarketId` entry `createCategory` adds when the user has one. */
  function SupermarketEntry(user: Option<User>): (es: seq<Entry>)
    ensures es != [] <==> user.Some? && Truthy(user.value.supermarketId)
    ensures es != [] ==> es == [Entry("supermarketId", TextValue(Plain(user.value.supermarketId.value)))]
  {
    if user.Some? && Truthy(user.value.supermarketId) then
      [Entry("supermarketId", TextValue(Plain(user.value.supermarketId.value)))]
    else []
  }

  class CategoryProvider {
    var categories: seq<Category>
    var loading: bool
    var error: Option<string>
    /** The requests sent so far, oldest first. */
    var sent: seq<Request>

    constructor ()
      ensures categories == [] && !loading && error.None? && sent == []
    {
      categories := [];
      loading := false;
      error := None;
      sent := [];
    }

    /** `fetchCategories()`: with the guard failing nothing at all changes. Otherwise the
        error is cleared, and then a success makes the list exactly the reply's while a
        failure keeps the old list and records the fetch message; `loading` ends false. */
    method FetchCategories(scope: Scope, reply: Reply<seq<Category>>)
      modifies this
      ensures categories == Fetched(scope, reply, old(categories))
      ensures error == FetchError(scope, reply, old(error))
      ensures sent == old(sent) + FetchRequests(scope)
      ensures loading == if CanFetch(scope) then false else old(loading)
    {
      if !scope.isAuthenticated || !Truthy(scope.supermarketId) {
        return;
      }
      loading := true;
      error := None;
      sent := sent + [GetCategories(scope.supermarketId.value)];
      if reply.Ok? {
        categories := reply.data;
      } else {
        error := Some(FetchFailedMessage);
      }
      loading := false;
    }

    /** `clearCategory()` */
    method ClearCategory()
      modifies this
      ensures categories == [] && !loading && error == old(error) && sent == old(sent)
    {
      categories := [];
      loading := false;
    }

    /** The effect on `[isAuthenticated, supermarketId]`: it clears only when the flag, the
        supermarket id and the user are all falsy, and calls `fetchCategories` in every
        other case (whose own guard may then do nothing). */
    method OnScopeChange(scope: Scope, reply: Reply<seq<Category>>)
      modifies this
      ensures !scope.isAuthenticated && !Truthy(scope.supermarketId) && scope.user.None? ==>
        categories == [] && !loading && error == old(error) && sent == old(sent)
      ensures scope.isAuthenticated || Truthy(scope.supermarketId) || scope.user.Some? ==>
        categories == Fetched(scope, reply, old(categories))
        && error == FetchError(scope, reply, old(error))
        && sent == old(sent) + FetchRequests(scope)
        && loading == (if CanFetch(scope) then false else old(loading))
    {
      if !scope.isAuthenticated && !Truthy(scope.supermarketId) && scope.user.None? {
        ClearCategory();
      } else {
        FetchCategories(scope, reply);
      }
    }

    /** `createCategory(formData, parentCategoryId)`: appends `parentCategory` when the id is
        truthy and the user's `supermarketId` when there is one, posts the form, and reports
        (rethrows) a failure. It never touches the list, the error or `loading`. */
    method CreateCategory(scope: Scope, form: FormData, parentCategoryId: Option<string>, reply: Reply<()>)
      returns (thrown: bool)
      modifies this, form
      ensures form.entries == old(form.entries) + ParentEntry(parentCategoryId) + SupermarketEntry(scope.user)
      ensures sent == old(sent) + [PostCategory(UserPathId(scope.user), form.entries)]
      ensures categories == old(categories) && loading == old(loading) && error == old(error)
      ensures thrown <==> !reply.Ok?
    {
      if Truthy(parentCategoryId) {
        form.Append("parentCategory", TextValue(Plain(parentCategoryId.value)));
      }
      if scope.user.Some? && Truthy(scope.user.value.supermarketId) {
        form.Append("supermarketId", TextValue(Plain(scope.user.value.supermarketId.value)));
      }
      sent := sent + [PostCategory(UserPathId(scope.user), form.entries)];
      thrown := !reply.Ok?;
    }

    /** `updateCategory(id, formData)`: signed out it records the authentication message
        and sends nothing. Otherwise it sends the form; success refreshes the list through
        `fetchCategories` (`refresh` is that reply), failure keeps the list and records the
        update message. It never throws, and `loading` ends false. */
    method UpdateCategory(scope: Scope, id: string, form: FormData, reply: Reply<()>, refresh: Reply<seq<Category>>)
      modifies this
      ensures !scope.isAuthenticated ==>
        error == Some(NotAuthenticatedMessage) && categories == old(categories)
        && loading == old(loading) && sent == old(sent)
      ensures scope.isAuthenticated && reply.Ok? ==>
        categories == Fetched(scope, refresh, old(categories))
        && error == FetchError(scope, refresh, old(error))
        && sent == old(sent) + [PatchCategory(id, form.entries)] + FetchRequests(scope) && !loading
      ensures scope.isAuthenticated && !reply.Ok? ==>
        categories == old(categories) && error == Some(UpdateFailedMessage)
        && sent == old(sent) + [PatchCategory(id, form.entries)] && !loading
    {
      if !scope.isAuthenticated {
        error := Some(NotAuthenticatedMessage);
        return;
      }
      loading := true;
      sent := sent + [PatchCategory(id, form.entries)];
      if reply.Ok? {
        FetchCategories(scope, refresh);
      } else {
        error := Some(UpdateFailedMessage);
      }
      loading := false;
    }

    /** `deleteCategory(id)`: without the flag and a user it records the authentication
        message and sends nothing. Otherwise it sends the delete; success refreshes the list
        through `fetchCategories`, failure keeps the list and records the message
        `DeleteErrorMessage` picks. It never throws, and `loading` ends false. */
    method DeleteCategory(scope: Scope, id: string, reply: Reply<()>, refresh: Reply<seq<Category>>)
      modifies this
      ensures !scope.isAuthenticated || scope.user.None? ==>
        error == Some(NotAuthenticatedMessage) && categories == old(categories)
        && loading == old(loading) && sent == old(sent)
      ensures scope.isAuthenticated && scope.user.Some? && reply.Ok? ==>
        categories == Fetched(scope, refresh, old(categories))
        && error == FetchError(scope, refresh, old(error))
        && sent == old(sent) + [Request.DeleteCategory(id)] + FetchRequests(scope) && !loading
      ensures scope.isAuthenticated && scope.user.Some? && !reply.Ok? ==>
        categories == old(categories) && error == Some(DeleteErrorMessage(reply))
        && sent == old(sent) + [Request.DeleteCategory(id)] && !loading
    {
      if !scope.isAuthenticated || scope.user.None? {
        error := Some(NotAuthenticatedMessage);
        return;
      }
      loading := true;
      sent := sent + [Request.DeleteCategory(id)];
      if reply.Ok? {
        FetchCategories(scope, refresh);
      } else {
        error := Some(DeleteErrorMessage(reply));
      }
      loading := false;
    }
  }
}
