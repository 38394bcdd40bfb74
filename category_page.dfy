/** The categories screen: the root categories offered as parents, the search filter, and the
    save and delete handlers on top of the category store. */
module CategoryPage {
  import opened Maybe
  import opened Seqs
  import opened Text
  import opened Http
  import opened LoginContext
  import opened CategoryContext

  const SaveFailedMessage := "Failed to save category. Please try again."

  predicate IsRoot(c: Category) {
    !Truthy(c.parentCategory)
  }

  /** `categories.filter(cat => !cat.parentCategory)` */
  function RootCategories(categories: seq<Category>): (r: seq<Category>)
    ensures IsSubsequence(r, categories)
    ensures forall c :: c in r <==> c in categories && !Truthy(c.parentCategory)
    ensures forall c :: multiset(r)[c] == if IsRoot(c) then multiset(categories)[c] else 0
  {
    Filter(categories, IsRoot)
  }

  predicate NameMatches(c: Category, term: string) {
    IncludesIgnoringCase(c.name, term)
  }

  /** `categories.filter(c => c.name.toLowerCase().includes(searchTerm.toLowerCase()))` */
  function FilteredCategories(categories: seq<Category>, term: string): (r: seq<Category>)
    ensures IsSubsequence(r, categories)
    ensures forall c :: c in r <==> c in categories && IncludesIgnoringCase(c.name, term)
    ensures forall c :: multiset(r)[c] == if NameMatches(c, term) then multiset(categories)[c] else 0
  {
    Filter(categories, (c: Category) => NameMatches(c, term))
  }

  /** An empty search shows every category. */
  lemma EmptySearchShowsAll(categories: seq<Category>)
    ensures FilteredCategories(categories, "") == categories
  {
    forall i | 0 <= i < |categories| ensures NameMatches(categories[i], "") {
      EmptyTermMatchesAll(categories[i].name);
    }
    FilterKeepsAll(categories, (c: Category) => NameMatches(c, ""));
  }

  /** `categories.filter(category => category._id !== id)` */
  function WithoutId(categories: seq<Category>, id: string): (r: seq<Category>)
    ensures IsSubsequence(r, categories)
    ensures forall c :: c in r <==> c in categories && c.id != id
    ensures forall c :: multiset(r)[c] == if c.id != id then multiset(categories)[c] else 0
  {
    Filter(categories, (c: Category) => c.id != id)
  }

  /** How many entries carry `key`. */
  function CountKey(es: seq<Entry>, key: string): (n: nat)
    ensures n <= |es|
    ensures n == 0 <==> forall i :: 0 <= i < |es| ==> es[i].key != key
  {
    if es == [] then 0 else (if es[0].key == key then 1 else 0) + CountKey(es[1..], key)
  }

  lemma {:induction false} CountKeyAppend(a: seq<Entry>, b: seq<Entry>, key: string)
    ensures CountKey(a + b, key) == CountKey(a, key) + CountKey(b, key)
  {
    if a != [] {
      assert (a + b)[0] == a[0];
      assert (a + b)[1..] == a[1..] + b;
      CountKeyAppend(a[1..], b, key);
    } else {
      assert a + b == b;
    }
  }

  /** The form `handleSave` builds: `name` first, then one `image` entry when a file was
      chosen, then one `parentCategory` entry when the chosen parent is truthy (an empty
      choice means a root). */
  function SaveEntries(name: string, imageFile: Option<File>, parentCategory: Option<string>): (es: seq<Entry>)
    ensures |es| >= 1 && es[0] == Entry("name", TextValue(Plain(name)))
    ensures CountKey(es, "name") == 1
    ensures CountKey(es, "image") == if imageFile.Some? then 1 else 0
    ensures CountKey(es, "parentCategory") == if Truthy(parentCategory) then 1 else 0
    ensures imageFile.Some? ==> Entry("image", Blob(imageFile.value)) in es
    ensures Truthy(parentCategory) ==> Entry("parentCategory", TextValue(Plain(parentCategory.value))) in es
  {
    var head := [Entry("name", TextValue(Plain(name)))];
    var withImage := if imageFile.Some? then [Entry("image", Blob(imageFile.value))] else [];
    CountKeyAppend(head, withImage, "name");
    CountKeyAppend(head, withImage, "image");
    CountKeyAppend(head, withImage, "parentCategory");
    CountKeyAppend(head + withImage, ParentEntry(parentCategory), "name");
    CountKeyAppend(head + withImage, ParentEntry(parentCategory), "image");
    CountKeyAppend(head + withImage, ParentEntry(parentCategory), "parentCategory");
    head + withImage + ParentEntry(parentCategory)
  }

  /** Creating a category with a parent posts `parentCategory` twice: once from the page's
      form and once from `createCategory`. */
  lemma CreateSendsParentTwice(name: string, imageFile: Option<File>, parent: Option<string>, user: Option<User>)
    requires Truthy(parent)
    ensures CountKey(SaveEntries(name, imageFile, parent) + ParentEntry(parent) + SupermarketEntry(user), "parentCategory") == 2
  {
    var es := SaveEntries(name, imageFile, parent);
    CountKeyAppend(es + ParentEntry(parent), SupermarketEntry(user), "parentCategory");
    CountKeyAppend(es, ParentEntry(parent), "parentCategory");
    assert CountKey(ParentEntry(parent), "parentCategory") == 1;
  }

  /** The `FormData` `handleSave` fills. */
  method SaveForm(name: string, imageFile: Option<File>, parent: Option<string>) returns (form: FormData)
    ensures fresh(form) && form.entries == SaveEntries(name, imageFile, parent)
  {
    form := new FormData();
    form.Append("name", TextValue(Plain(name)));
    if imageFile.Some? {
      form.Append("image", Blob(imageFile.value));
    }
    if Truthy(parent) {
      form.Append("parentCategory", TextValue(Plain(parent.value)));
    }
  }

  class CategoriesPage {
    var isFormOpen: bool
    var editingCategory: Option<Category>
    var loading: bool
    var error: Option<string>
    var searchTerm: string
    var parentCategories: seq<Category>

    constructor ()
      ensures !isFormOpen && editingCategory.None? && !loading && error.None?
      ensures searchTerm == "" && parentCategories == []
    {
      isFormOpen := false;
      editingCategory := None;
      loading := false;
      error := None;
      searchTerm := "";
      parentCategories := [];
    }

    /** The effect on `[categories]`: the parent choices are the root categories. */
    method OnCategoriesChange(categories: seq<Category>)
      modifies this
      ensures parentCategories == RootCategories(categories)
      ensures isFormOpen == old(isFormOpen) && editingCategory == old(editingCategory)
      ensures loading == old(loading) && error == old(error) && searchTerm == old(searchTerm)
    {
      parentCategories := RootCategories(categories);
    }

    /** The mount effect: fetch only with the flag, a user and a supermarket id. */
    method OnMount(store: CategoryProvider, scope: Scope, reply: Reply<seq<Category>>)
      modifies store
      ensures !(scope.isAuthenticated && scope.user.Some? && Truthy(scope.supermarketId)) ==>
        store.categories == old(store.categories) && store.error == old(store.error)
        && store.loading == old(store.loading) && store.sent == old(store.sent)
      ensures scope.isAuthenticated && scope.user.Some? && Truthy(scope.supermarketId) ==>
        store.categories == Fetched(scope, reply, old(store.categories))
        && store.error == FetchError(scope, reply, old(store.error))
        && store.sent == old(store.sent) + [GetCategories(scope.supermarketId.value)] && !store.loading
    {
      if scope.isAuthenticated && scope.user.Some? && Truthy(scope.supermarketId) {
        store.FetchCategories(scope, reply);
      }
    }

    /** `handleCreate()` */
    method HandleCreate()
      modifies this
      ensures editingCategory.None? && isFormOpen
      ensures loading == old(loading) && error == old(error) && parentCategories == old(parentCategories)
      ensures searchTerm == old(searchTerm)
    {
      editingCategory := None;
      isFormOpen := true;
    }

    /** `handleEdit(category)` */
    method HandleEdit(category: Category)
      modifies this
      ensures editingCategory == Some(category) && isFormOpen
      ensures loading == old(loading) && error == old(error) && parentCategories == old(parentCategories)
      ensures searchTerm == old(searchTerm)
    {
      editingCategory := Some(category);
      isFormOpen := true;
    }

    /** `handleSave(category, imageFile)`: builds the form, then updates the category being
        edited or creates a new one, then refetches the list and closes the form. Only a
        failed create reaches the catch branch (`updateCategory` swallows its own errors),
        so an edit closes the form whatever its reply. `reply` answers the update or create,
        `refresh` the update's own refetch, `refetch` the page's. */
    method HandleSave(store: CategoryProvider, scope: Scope, name: string, parent: Option<string>,
                      imageFile: Option<File>, reply: Reply<()>, refresh: Reply<seq<Category>>,
                      refetch: Reply<seq<Category>>)
      modifies this, store
      ensures !loading && searchTerm == old(searchTerm) && parentCategories == old(parentCategories)
      ensures old(editingCategory).None? && !reply.Ok? ==>
        error == Some(SaveFailedMessage) && isFormOpen == old(isFormOpen) && editingCategory.None?
        && store.categories == old(store.categories) && store.error == old(store.error)
        && store.loading == old(store.loading)
        && store.sent == old(store.sent)
           + [PostCategory(UserPathId(scope.user), SaveEntries(name, imageFile, parent) + ParentEntry(parent) + SupermarketEntry(scope.user))]
      ensures old(editingCategory).None? && reply.Ok? ==>
        error.None? && !isFormOpen && editingCategory.None?
        && store.categories == Fetched(scope, refetch, old(store.categories))
        && store.error == FetchError(scope, refetch, old(store.error))
        && store.sent == old(store.sent)
           + [PostCategory(UserPathId(scope.user), SaveEntries(name, imageFile, parent) + ParentEntry(parent) + SupermarketEntry(scope.user))]
           + FetchRequests(scope)
      ensures old(editingCategory).Some? ==>
        var id := old(editingCategory).value.id;
        var updated := scope.isAuthenticated && reply.Ok?;
        error.None? && !isFormOpen && editingCategory.None?
        && store.categories == Fetched(scope, refetch, if updated then Fetched(scope, refresh, old(store.categories)) else old(store.categories))
        && store.error == FetchError(scope, refetch,
             if !scope.isAuthenticated then Some(NotAuthenticatedMessage)
             else if reply.Ok? then FetchError(scope, refresh, old(store.error))
             else Some(UpdateFailedMessage))
        && store.sent == old(store.sent)
           + (if scope.isAuthenticated then [PatchCategory(id, SaveEntries(name, imageFile, parent))] else [])
           + (if updated then FetchRequests(scope) else [])
           + FetchRequests(scope)
    {
      loading := true;
      error := None;
      var form := SaveForm(name, imageFile, parent);
      var thrown := false;
      if editingCategory.Some? {
        store.UpdateCategory(scope, editingCategory.value.id, form, reply, refresh);
      } else {
        thrown := store.CreateCategory(scope, form, parent, reply);
      }
      if thrown {
        error := Some(SaveFailedMessage);
      } else {
        store.FetchCategories(scope, refetch);
        isFormOpen := false;
        editingCategory := None;
      }
      loading := false;
    }

    /** `handleDelete(id)` once `window.confirm` has answered `confirmed`: deletes through
        the store, sets the parent choices to the categories of the render the handler
        belongs to minus the deleted id (children included, not only roots), refetches and
        closes the form. These are the handler's own writes; a refetch that replaces the
        store's list then runs the `[categories]` effect again (`DeleteThenEffect`).
        `deleteCategory` swallows its errors, so the catch branch never runs. `reply`
        answers the delete, `refresh` its own refetch, `refetch` the page's. */
    method HandleDelete(store: CategoryProvider, scope: Scope, id: string, confirmed: bool,
                        reply: Reply<()>, refresh: Reply<seq<Category>>, refetch: Reply<seq<Category>>)
      modifies this, store
      ensures !confirmed ==>
        isFormOpen == old(isFormOpen) && loading == old(loading) && error == old(error)
        && parentCategories == old(parentCategories)
        && store.categories == old(store.categories) && store.error == old(store.error) && store.sent == old(store.sent)
      ensures confirmed ==>
        var signedIn := scope.isAuthenticated && scope.user.Some?;
        var deleted := signedIn && reply.Ok?;
        !loading && error.None? && !isFormOpen
        && parentCategories == WithoutId(old(store.categories), id)
        && store.categories == Fetched(scope, refetch, if deleted then Fetched(scope, refresh, old(store.categories)) else old(store.categories))
        && store.sent == old(store.sent)
           + (if signedIn then [Request.DeleteCategory(id)] else [])
           + (if deleted then FetchRequests(scope) else [])
           + FetchRequests(scope)
        && store.error == FetchError(scope, refetch,
             if !signedIn then Some(NotAuthenticatedMessage)
             else if reply.Ok? then FetchError(scope, refresh, old(store.error))
             else Some(DeleteErrorMessage(reply)))
      ensures editingCategory == old(editingCategory) && searchTerm == old(searchTerm)
    {
      if !confirmed {
        return;
      }
      loading := true;
      error := None;
      var snapshot := store.categories;
      store.DeleteCategory(scope, id, reply, refresh);
      ghost var signedIn := scope.isAuthenticated && scope.user.Some?;
      ghost var deleted := signedIn && reply.Ok?;
      assert store.categories == if deleted then Fetched(scope, refresh, snapshot) else snapshot;
      assert store.sent == old(store.sent) + (if signedIn then [Request.DeleteCategory(id)] else [])
        + (if deleted then FetchRequests(scope) else []);
      assert store.error == if !signedIn then Some(NotAuthenticatedMessage)
        else if reply.Ok? then FetchError(scope, refresh, old(store.error))
        else Some(DeleteErrorMessage(reply));
      parentCategories := WithoutId(snapshot, id);
      store.FetchCategories(scope, refetch);
      isFormOpen := false;
      loading := false;
    }

    /** `handleDelete(id)` followed by the `[categories]` effect that a successful page
        refetch triggers by installing a new array: the parent choices end as the roots of
        the refetched list when that refetch went ahead and succeeded, and as the handler's
        children-included list otherwise. */
    method DeleteThenEffect(store: CategoryProvider, scope: Scope, id: string, confirmed: bool,
                            reply: Reply<()>, refresh: Reply<seq<Category>>, refetch: Reply<seq<Category>>)
      modifies this, store
      ensures !confirmed ==> parentCategories == old(parentCategories) && store.categories == old(store.categories)
      ensures confirmed && CanFetch(scope) && refetch.Ok? ==>
        parentCategories == RootCategories(refetch.data) && store.categories == refetch.data
      ensures confirmed && !(CanFetch(scope) && refetch.Ok?) ==>
        parentCategories == WithoutId(old(store.categories), id)
      ensures confirmed ==> !isFormOpen && !loading && error.None?
    {
      HandleDelete(store, scope, id, confirmed, reply, refresh, refetch);
      if confirmed && CanFetch(scope) && refetch.Ok? {
        OnCategoriesChange(store.categories);
      }
    }
  }

  /** The list `handleDelete` itself writes as parents keeps every other category, child
      categories included. It lasts only while no refetch replaces the store's list
      (`CategoriesPage.DeleteThenEffect`). */
  lemma DeleteKeepsChildren(categories: seq<Category>, id: string, c: Category)
    requires c in categories && c.id != id && Truthy(c.parentCategory)
    ensures c in WithoutId(categories, id) && c !in RootCategories(categories)
  {
  }
}
