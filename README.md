# GodHeranca dashboard front end: a Dafny model of its stores and screens

This project models the supermarket dashboard's client-side core:

- the React context stores for items, categories and the login session;
- the two Redux slices (`auth` and `global`);
- the decision logic of the products, categories, settings, login, sign-up and profile screens.

Every store is a `class`. Its fields are the React state it holds, and each operation is a `method` that updates them in place. Each store also keeps `sent`, a log of the requests it has sent, so that "nothing is sent" can be stated. The server and the network are not modelled. Each operation takes the outcome of its request as a parameter, a `Reply`:

- `Ok(data)`;
- `HttpError(status)`, a non-2xx response;
- `NetworkError`, no response;
- `OtherError`, any other throw, such as a body that does not parse.

An asynchronous operation is one atomic step given its replies. A refresh nested inside an operation gets a reply parameter of its own.

Modules, one per source file plus shared helpers:

| module | models |
|---|---|
| `Maybe` | `Option` and JavaScript truthiness of an optional string |
| `Seqs` | `Array.filter` and `Array.find`, with their order and membership facts |
| `Text` | the `\s` class, `trim`, `split`, `join`, ASCII `toLowerCase` and `includes` |
| `Http` | replies, `FormData` (a class with `append`) and the request log |
| `Dates` | instants as UTC components, their order, and `toISOString` with its inverse |
| `Items` | `Item`, partial items, the object-spread merge and the form encoding of item properties |
| `ItemContext`, `CategoryContext`, `LoginContext` | the three context stores |
| `AuthSlice`, `GlobalSlice` | the Redux slices, each with a reducer function and a store class |
| `ProductsPage`, `CategoryPage`, `SettingsPage`, `PasswordChangeModal`, `LoginPage`, `Signup`, `ProfileClient` | the screens |

## Behaviour as coded

Several behaviours of the code are easy to misread from its comments and names. The model states each one as the code has it:

- `displayPrice` does not clamp. Above 100 percent discount the shown price is negative (`ProductsPage.DiscountIsNotClamped`).
- The category store never removes a deleted category from its list by itself. Only a successful refetch replaces the list.
- The category store's effect clears the list only when the authentication flag, the supermarket id and the user are all falsy. In every other case it calls `fetchCategories`, whose own guard may then do nothing.
- The guard of `fetchCategories` does not look at the user.
- A failed supermarket item fetch clears the cached items. It does not keep the old list.
- `createItem` posts to `item/<supermarketId>` even when no supermarket is selected (`PathId` `None` stands for the text `undefined`).
- `updatePassword` never throws: every failure resolves to `{success: false}`. The settings screen's `passwordUpdateError` branch is therefore unreachable.
- `updateCategory` and `deleteCategory` swallow their errors. The categories screen therefore closes its form after any edit or delete. Its `handleDelete` catch branch never runs.
- The categories screen's `handleDelete` sets the parent choices to every category except the deleted one, children included. The list comes from the render the handler belongs to. This list lasts only while no refetch replaces the store's list. When the handler's own refetch succeeds, it installs a new array, and the `[categories]` effect resets the choices to the roots of the refetched list. The children-included list stays when that refetch fails or its guard skips it (`CategoryPage.CategoriesPage.DeleteThenEffect`).
- The sign-up schema's `required` on the user type never reports: it sits on a `mixed` schema, which accepts the empty string that "Select a type" gives. An unselected type reports only "Invalid user type".
- A category created with a parent carries `parentCategory` twice: once from the screen's form and once from `createCategory`.
- The mount check of the session runs with no user yet. It requests `users/<undefined>` with the cookie's token as bearer. A token that itself contains `=` is cut short at that `=`.
- `updateUser` and `updateProfilePicture` replace the user with the reply's `user` property, which may be missing. `isAuthenticated` stays as it was.

## Model

| member | source | states |
|---|---|---|
| `Seqs.Filter` | app/products/page.tsx:60-62 | the result is an order-preserving subsequence of the input, holds exactly the elements that satisfy the predicate, and keeps each one's multiplicity |
| `Seqs.FilterKeepsAll` | app/products/page.tsx:60-62 | a filter whose predicate holds everywhere returns the list unchanged |
| `Seqs.Find` | app/context/LoginContext.tsx:168 | `None` exactly when no element satisfies the predicate; otherwise the element at the first index that does |
| `Text.Includes` | app/products/page.tsx:61 | `includes` holds exactly when the needle occurs at some index |
| `Text.IncludesTail` | app/products/page.tsx:61 | when the needle does not start the text, it occurs in the text iff it occurs in the text's tail |
| `Text.IncludesEmpty` | app/products/page.tsx:61 | the empty term occurs in every text |
| `Text.ToLower` | app/products/page.tsx:61 | lower-casing keeps the length and maps each character to its ASCII lower case |
| `Text.IncludesIgnoringCase` | app/products/page.tsx:61 | `name.toLowerCase().includes(term.toLowerCase())` (a definition; `IncludesIgnoringCaseIsCaseBlind` and `EmptyTermMatchesAll` state its meaning) |
| `Text.IncludesIgnoringCaseIsCaseBlind` | app/products/page.tsx:61 | names and terms that agree after lower-casing match alike |
| `Text.ToLowerIdempotent` | app/products/page.tsx:61 | lower-casing twice is lower-casing once |
| `Text.EmptyTermMatchesAll` | app/category/page.tsx:124-126 | an empty search term matches every name |
| `Text.Trim` | app/context/LoginContext.tsx:168 | the result has no surrounding whitespace, and it is a slice of the input with only whitespace cut from each end |
| `Text.TrimOfTrimmed` | app/signup/signup.tsx:62 | trimming a trimmed text changes nothing |
| `Text.TrimLeadingSpace` | app/signup/signup.tsx:62 | trimming removes the space that `", "` leaves before a part |
| `Text.Join` | app/profile/ProfileClient.tsx:33 | `join(sep)`: the parts with the separator between consecutive parts (a definition; `JoinSplit` and `SplitJoin` relate it to `split`) |
| `Text.Split` | app/signup/signup.tsx:62 | `split` always returns at least one piece |
| `Text.SplitCount` | app/signup/signup.tsx:62 | the number of pieces is the number of separators plus one |
| `Text.SplitPiecesLackSeparator` | app/signup/signup.tsx:62 | no piece contains the separator |
| `Text.JoinSplit` | app/signup/signup.tsx:62 | joining the pieces with the separator gives back the input |
| `Text.SplitWithoutSeparator` | app/signup/signup.tsx:62 | a text without the separator splits into itself alone |
| `Text.SplitAfterPiece` | app/context/LoginContext.tsx:180 | a separator-free lead is the first piece, followed by the pieces of the rest |
| `Text.SplitJoin` | app/signup/signup.tsx:62 | splitting a join of separator-free parts gives the parts back |
| `Text.TrimAll` | app/signup/signup.tsx:62 | `map(trim)` keeps the length and trims each piece |
| `Text.JoinSpaced` | app/profile/ProfileClient.tsx:33 | a `", "` join is a `","` join of the parts with a space put in front of each later part |
| `Text.SplitTrimUndoesJoin` | app/profile/ProfileClient.tsx:33 | trimmed, comma-free parts joined with `", "`, then split at commas and trimmed, come back unchanged |
| `Maybe.Truthy` | app/context/ItemContext.tsx:47 | JavaScript truthiness of an optional string: present and not empty (a definition used by every guard) |
| `Http.Reply.IsAxiosError` | app/context/CategoryContext.tsx:141 | `axios.isAxiosError` holds for a non-2xx response and for a request without a response, not for other throws (a definition) |
| `Http.FormData.Append` | app/context/ItemContext.tsx:77 | `append` adds one entry at the end and keeps the others |
| `Http.FormData.AppendAll` | app/profile/ProfileClient.tsx:113-115 | a `forEach` of appends adds the pairs at the end, in order |
| `Http.FormData.constructor` | app/context/ItemContext.tsx:68 | `new FormData()` starts with no entries |
| `Dates.DaysInMonth` | app/context/ItemContext.tsx:72-73 | every month has 28 to 31 days |
| `Dates.Le` | app/products/page.tsx:110 | `<=` on instants as the order of their UTC components from the year down to the millisecond (a definition; `LeTotal` states its order facts) |
| `Dates.LexLeTotal` | app/products/page.tsx:110 | any two instants are comparable |
| `Dates.LexLeAntisymmetric` | app/products/page.tsx:110 | two instants each no later than the other are equal |
| `Dates.LeTotal` | app/products/page.tsx:110 | `>=` on instants is total and antisymmetric |
| `Dates.Pow10` | app/context/ItemContext.tsx:73 | ten to the power of a field width, at least one |
| `Dates.Pad` | app/context/ItemContext.tsx:73 | a number below ten to the width, written in exactly that many decimal digits with leading zeros |
| `Dates.Value` | app/context/ItemContext.tsx:73 | the number a digit string denotes is below ten to its length |
| `Dates.ValueOfPad` | app/context/ItemContext.tsx:72-73 | reading a zero-padded field gives back its number |
| `Dates.PadOfValue` | app/context/ItemContext.tsx:72-73 | padding the number read from a digit field gives back the field |
| `Dates.ToIsoString` | app/context/ItemContext.tsx:72-73 | `toISOString` writes 24 characters ending in `Z` |
| `Dates.ParseIso` | app/context/ItemContext.tsx:72-73 | whatever is read back is a valid instant |
| `Dates.ParseWritten` | app/context/ItemContext.tsx:72-73 | an ISO string reads back as the instant that was written |
| `Dates.WrittenParsed` | app/context/ItemContext.tsx:72-73 | an accepted string is exactly the ISO string of the instant read from it |
| `Items.KeyName` | app/context/ItemContext.tsx:10-25 | the fourteen property names of `Item`; the ensures only says each is non-empty, a sanity fact, and `KeyNameInjective` is the fact the form encoding uses |
| `Items.KeyNameInjective` | app/context/ItemContext.tsx:10-25 | different properties have different names |
| `Items.Get` | app/context/ItemContext.tsx:214 | reading a string property gives a string, and `price` reads as the price |
| `Items.GetSet` | app/context/ItemContext.tsx:214 | setting a property changes that property, to the value set, and no other |
| `Items.Set` | app/context/ItemContext.tsx:214 | `{...item, [k]: v}` for one reply value (a definition; `GetSet` states what it changes) |
| `Items.Merge` | app/context/ItemContext.tsx:214 | `{...item, ...patch}` as the patch's pairs set in order (a definition; `GetMerge` states its meaning) |
| `Items.GetMerge` | app/context/ItemContext.tsx:214 | after `{...item, ...patch}` a property holds the patch's last value for it if the patch has it, the item's value otherwise |
| `Items.MergeSnoc` | app/context/ItemContext.tsx:214 | spreading a patch with one more pair is spreading the shorter patch and then setting that pair |
| `Items.ReplaceById` | app/context/ItemContext.tsx:213-215 | the list keeps its length and order; exactly the items with the id get the reply merged over them |
| `Items.RemoveById` | app/context/ItemContext.tsx:242 | an order-preserving subsequence holding exactly the items with another id, with their multiplicities |
| `Items.RemoveAbsentId` | app/context/ItemContext.tsx:242 | removing an id no item has changes nothing |
| `Items.OffersJson` | app/context/ItemContext.tsx:75 | `JSON.stringify` of the offers: the offer list between brackets (a definition; `ParseOffersWritten` is its inverse) |
| `Items.OfferJson` | app/context/ItemContext.tsx:74-75 | each offer is written as five pieces of JSON text |
| `Items.ParseOfferListWritten` | app/context/ItemContext.tsx:74-75 | the comma-separated offers parse back to the offers |
| `Items.ParseOffersWritten` | app/context/ItemContext.tsx:74-75 | `JSON.stringify` of the quantity offers parses back to the same offers |
| `Items.EncodeField` | app/context/ItemContext.tsx:69-80 | a property yields a form entry exactly when it is not `undefined`, and the entry is text |
| `Items.FieldEntries` | app/context/ItemContext.tsx:69-80 | the entries of the `forEach`: one per defined property, in key order (a definition; `FieldEntryMembership` characterises it and `AppendItemFields` is proved against it) |
| `Items.DecodeEncoded` | app/context/ItemContext.tsx:69-80 | every defined property of its declared type reaches the back end intact, a `Date` through its ISO string |
| `Items.FieldEntryMembership` | app/context/ItemContext.tsx:69-80 | the form holds an entry for a property with a value exactly when the partial item defines that property with that encoding |
| `ItemContext.SignedIn` | app/context/ItemContext.tsx:62 | the guard of create, update and delete: a user and the flag (a definition used by those methods' contracts) |
| `ItemContext.CanFetch` | app/context/ItemContext.tsx:123 | the guard of the supermarket fetch: a user, the flag and a truthy supermarket id (a definition) |
| `ItemContext.FetchedItems` | app/context/ItemContext.tsx:122-152 | the list after a fetch: the reply's list on success behind the guard, empty otherwise |
| `ItemContext.ItemProvider.constructor` | app/context/ItemContext.tsx:41-44 | the store starts empty, not loading, with nothing sent |
| `ItemContext.ItemProvider.ClearItems` | app/context/ItemContext.tsx:117-120 | empties the list and ends loading |
| `ItemContext.ItemProvider.FetchItemsBySupermarket` | app/context/ItemContext.tsx:122-152 | with the guard failing, nothing is sent and the list is cleared; otherwise one request is sent and the list becomes the reply's (empty on failure); the result is the list; loading ends false |
| `ItemContext.ItemProvider.FetchItemById` | app/context/ItemContext.tsx:102-115 | sends one request, leaves the list alone, and returns the reply's item or `null` |
| `ItemContext.ItemProvider.FetchItemsByCategory` | app/context/ItemContext.tsx:155-168 | sends one request, leaves the list alone, and returns the reply's list or `[]` |
| `ItemContext.ItemProvider.CreateItem` | app/context/ItemContext.tsx:61-99 | signed out, nothing happens; otherwise it posts the defined properties and then the image, and refetches only on success |
| `ItemContext.ItemProvider.UpdateItem` | app/context/ItemContext.tsx:170-223 | signed out, nothing happens; otherwise it patches with the encoded form and, on success, merges the reply into exactly the items with that id |
| `ItemContext.ItemProvider.DeleteItem` | app/context/ItemContext.tsx:227-246 | signed out, nothing happens; otherwise it sends the delete and, on success, keeps exactly the items with another id; a failure changes nothing |
| `ItemContext.ItemProvider.OnSessionChange` | app/context/ItemContext.tsx:46-52 | clears when the flag, the supermarket or the user is missing, fetches otherwise |
| `ItemContext.ImageEntry` | app/context/ItemContext.tsx:82-84 | an `imageUrl` entry exactly when an image is given |
| `ItemContext.AppendItemFields` | app/context/ItemContext.tsx:69-80 | the loop appends exactly the field entries of the partial item, in key order |
| `CategoryContext.CanFetch` | app/context/CategoryContext.tsx:34 | the guard of `fetchCategories`: the flag and a truthy supermarket id, the user not looked at (a definition) |
| `CategoryContext.Fetched` | app/context/CategoryContext.tsx:33-49 | the list after a `fetchCategories` call: the reply's list when the guard passed and the request succeeded, the old list otherwise (a definition `FetchCategories` is proved against) |
| `CategoryContext.FetchError` | app/context/CategoryContext.tsx:33-49 | the error after that call: untouched when the guard stops it, cleared on success, the fetch message on failure (a definition) |
| `CategoryContext.FetchRequests` | app/context/CategoryContext.tsx:33-49 | the call sends one request behind the guard and none otherwise (a definition) |
| `CategoryContext.DeleteErrorMessage` | app/context/CategoryContext.tsx:140-153 | the permission message exactly for a 403, the generic message for other axios errors, the unexpected-error message otherwise |
| `CategoryContext.ParentEntry` | app/context/CategoryContext.tsx:68-70 | a `parentCategory` entry exactly when the id is truthy |
| `CategoryContext.SupermarketEntry` | app/context/CategoryContext.tsx:73-75 | a `supermarketId` entry exactly when the user has a truthy supermarket id |
| `CategoryContext.CategoryProvider.constructor` | app/context/CategoryContext.tsx:27-29 | empty list, not loading, no error, nothing sent |
| `CategoryContext.CategoryProvider.FetchCategories` | app/context/CategoryContext.tsx:33-49 | with the guard failing nothing changes; otherwise the error is cleared, success replaces the list and failure keeps it with the fetch message; loading ends false |
| `CategoryContext.CategoryProvider.ClearCategory` | app/context/CategoryContext.tsx:51-54 | empties the list and ends loading, and keeps the error |
| `CategoryContext.CategoryProvider.OnScopeChange` | app/context/CategoryContext.tsx:56-63 | clears only when flag, supermarket id and user are all falsy, and fetches in every other case |
| `CategoryContext.CategoryProvider.CreateCategory` | app/context/CategoryContext.tsx:65-94 | appends the parent and supermarket entries to the caller's form, posts it, rethrows a failure, and never touches list, error or loading |
| `CategoryContext.CategoryProvider.UpdateCategory` | app/context/CategoryContext.tsx:96-120 | signed out, it only records the authentication message; otherwise it patches, refetches on success or records the update message; it never throws |
| `CategoryContext.CategoryProvider.DeleteCategory` | app/context/CategoryContext.tsx:122-157 | without flag and user, it only records the authentication message; otherwise it deletes, refetches on success or records the message for the failure; it never throws |
| `LoginContext.UserPathId` | app/context/LoginContext.tsx:106 | the path has an id exactly when there is a user with an id |
| `LoginContext.DerivedSupermarketId` | app/context/LoginContext.tsx:212 | `user?.supermarketId \|\| null` is present exactly when the user's id is truthy, and then equals it |
| `LoginContext.PasswordOutcome` | app/context/LoginContext.tsx:104-132 | success exactly on a 2xx reply, with the message for each kind of outcome |
| `LoginContext.TokenSegment` | app/context/LoginContext.tsx:168 | the first `;`-separated cookie segment whose trimmed text starts with `token=`, untrimmed (a definition: `Seqs.Find` over `Text.Split`, whose contracts describe it) |
| `LoginContext.Bearer` | app/context/LoginContext.tsx:180 | `token.split('=')[1]`, which exists by `TokenSegmentHasValue` (a definition; `BearerOfCookie` states its meaning) |
| `LoginContext.TokenSegmentHasValue` | app/context/LoginContext.tsx:168-180 | a token segment splits at `=` into at least two pieces |
| `LoginContext.BearerOfCookie` | app/context/LoginContext.tsx:180 | the bearer sent is the token value up to its first `=` |
| `LoginContext.LoginProvider.constructor` | app/context/LoginContext.tsx:40-41 | signed out, no user, nothing sent |
| `LoginContext.LoginProvider.SupermarketId` | app/context/LoginContext.tsx:212 | present exactly when the user has a truthy supermarket id |
| `LoginContext.LoginProvider.Login` | app/context/LoginContext.tsx:44-72 | succeeds exactly on a 2xx reply with a truthy token, and then signs in with the body as the user; otherwise it throws and leaves the session as it was |
| `LoginContext.LoginProvider.UpdateUser` | app/context/LoginContext.tsx:75-101 | without a user id nothing is sent; otherwise one patch is sent, success replaces the user with the reply's `user`, failure keeps it; the flag never changes |
| `LoginContext.LoginProvider.UpdatePassword` | app/context/LoginContext.tsx:104-132 | always sends one request, never changes the session, and resolves to the outcome for the reply |
| `LoginContext.LoginProvider.UpdateProfilePicture` | app/context/LoginContext.tsx:135-164 | as `updateUser`, with a form holding only the picture |
| `LoginContext.LoginProvider.MountCheck` | app/context/LoginContext.tsx:167-201 | without a token segment it signs out and sends nothing; otherwise it requests the user with the segment's bearer and signs in exactly on success |
| `AuthSlice.Reduce` | app/state/authSlice.ts:42-56 | `setUser` sets the user and the flag and keeps the token; `clearUser` gives the initial state; `setToken` and `clearToken` change only the token |
| `AuthSlice.Run` | app/state/authSlice.ts:41-57 | the state after dispatching a sequence of actions in order (a definition; `DispatchAll` is proved against it) |
| `AuthSlice.ReduceKeepsConsistent` | app/state/authSlice.ts:42-56 | every reducer keeps `isAuthenticated` equivalent to a user being held |
| `AuthSlice.RunKeepsConsistent` | app/state/authSlice.ts:42-56 | any sequence of actions from a consistent state keeps that equivalence |
| `AuthSlice.ReachableIsConsistent` | app/state/authSlice.ts:32-56 | every state reachable from the initial state is consistent |
| `AuthSlice.ReduceIdempotent` | app/state/authSlice.ts:42-56 | dispatching an action twice is dispatching it once |
| `AuthSlice.ClearUserResets` | app/state/authSlice.ts:32-36 | any sequence ending in `clearUser` leaves the initial state |
| `AuthSlice.AuthStore.constructor` | app/state/authSlice.ts:32-36 | the store starts in the initial state |
| `AuthSlice.AuthStore.SetUser` | app/state/authSlice.ts:42-45 | sets the user and the flag, keeps the token |
| `AuthSlice.AuthStore.ClearUser` | app/state/authSlice.ts:46-50 | clears user, flag and token |
| `AuthSlice.AuthStore.SetToken` | app/state/authSlice.ts:51-53 | changes only the token |
| `AuthSlice.AuthStore.ClearToken` | app/state/authSlice.ts:54-56 | changes only the token, to `null` |
| `AuthSlice.AuthStore.Dispatch` | app/state/authSlice.ts:41-57 | the new state is the reducer's result for the old state |
| `AuthSlice.AuthStore.DispatchAll` | app/state/authSlice.ts:41-57 | dispatching a sequence leaves the state the reducer computes for the whole sequence |
| `GlobalSlice.Reduce` | app/state/index.ts:18-28 | each setter changes only its own flag, to the payload |
| `GlobalSlice.ReduceIdempotent` | app/state/index.ts:18-28 | each setter is idempotent |
| `GlobalSlice.ReduceCommutes` | app/state/index.ts:18-28 | setters of different flags commute |
| `GlobalSlice.GlobalStore.constructor` | app/state/index.ts:9-13 | all three flags start false |
| `GlobalSlice.GlobalStore.SetIsSidebarCollapsed` | app/state/index.ts:19-21 | changes only `isSidebarCollapsed` |
| `GlobalSlice.GlobalStore.SetIsSidebarVisible` | app/state/index.ts:22-24 | changes only `isSidebarVisible` |
| `GlobalSlice.GlobalStore.SetIsDarkMode` | app/state/index.ts:25-27 | changes only `isDarkMode` |
| `ProductsPage.IsPromotionActive` | app/products/page.tsx:109-110 | a promotion end is set and is no earlier than now (a definition) |
| `ProductsPage.HasDiscount` | app/products/page.tsx:112 | `product.discount` is truthy: present and not zero (a definition) |
| `ProductsPage.ShowsStrikeThrough` | app/products/page.tsx:130-137 | the card strikes the list price through exactly when a truthy discount meets a running promotion (a definition; `ExpiredPromotionShowsListPrice` uses it) |
| `ProductsPage.DisplayPrice` | app/products/page.tsx:109-114 | the discounted price while a promotion with a truthy discount runs; the list price without a discount, or without a running promotion |
| `ProductsPage.DisplayPriceBounds` | app/products/page.tsx:111-114 | with a discount from 0 to 100 and a non-negative price, the shown price lies between 0 and the list price, and below it for a real discount |
| `ProductsPage.DiscountIsNotClamped` | app/products/page.tsx:111-114 | above 100 percent the shown price is negative |
| `ProductsPage.ExpiredPromotionShowsListPrice` | app/products/page.tsx:109-137 | an ended promotion shows the list price and no strike-through |
| `ProductsPage.FilteredProducts` | app/products/page.tsx:60-62 | the order-preserving sublist of products whose lower-cased name contains the lower-cased term |
| `ProductsPage.EmptySearchShowsAll` | app/products/page.tsx:60-62 | an empty term keeps every product, in order |
| `CategoryPage.RootCategories` | app/category/page.tsx:44-48 | the order-preserving sublist of categories without a truthy parent |
| `CategoryPage.FilteredCategories` | app/category/page.tsx:124-126 | the order-preserving sublist whose lower-cased name contains the lower-cased term |
| `CategoryPage.EmptySearchShowsAll` | app/category/page.tsx:124-126 | an empty term keeps every category |
| `CategoryPage.WithoutId` | app/category/page.tsx:107 | the order-preserving sublist of categories with another id, each kept as often as in the input |
| `CategoryPage.CountKey` | app/category/page.tsx:64-73 | how many form entries carry a key: at most the number of entries, and zero exactly when none does |
| `CategoryPage.CountKeyAppend` | app/category/page.tsx:64-73 | counting a key over two lists adds the counts |
| `CategoryPage.SaveEntries` | app/category/page.tsx:64-73 | the form starts with the name and holds one `image` entry exactly when a file was chosen, that entry being the file, and one `parentCategory` entry exactly when the parent is truthy, that entry being the parent's id |
| `CategoryPage.CreateSendsParentTwice` | app/category/page.tsx:71-80 | creating with a parent posts `parentCategory` twice |
| `CategoryPage.SaveForm` | app/category/page.tsx:64-73 | the form `handleSave` fills holds the entries above |
| `CategoryPage.CategoriesPage.OnCategoriesChange` | app/category/page.tsx:44-48 | the parent choices become the root categories |
| `CategoryPage.CategoriesPage.OnMount` | app/category/page.tsx:21-40 | fetches only with flag, user and supermarket, and then exactly as `fetchCategories` |
| `CategoryPage.CategoriesPage.constructor` | app/category/page.tsx:13-18 | the form is closed, nothing is being edited, not loading, no error, an empty search and no parent choices |
| `CategoryPage.CategoriesPage.HandleCreate` | app/category/page.tsx:50-53 | opens the form with nothing being edited |
| `CategoryPage.CategoriesPage.HandleEdit` | app/category/page.tsx:55-58 | opens the form on the category |
| `CategoryPage.CategoriesPage.HandleSave` | app/category/page.tsx:60-93 | a failed create sets the save message and keeps the form open; any other save refetches and closes the form; the store's state and requests follow the update or create it made |
| `CategoryPage.CategoriesPage.HandleDelete` | app/category/page.tsx:99-122 | unconfirmed, nothing happens; confirmed, it deletes, sets the parent choices to the earlier list without the id, refetches and closes the form |
| `CategoryPage.CategoriesPage.DeleteThenEffect` | app/category/page.tsx:44-122 | after `handleDelete` and the `[categories]` effect a successful page refetch triggers, the parent choices are the roots of the refetched list; when that refetch is skipped or fails, they stay the handler's list without the id |
| `CategoryPage.DeleteKeepsChildren` | app/category/page.tsx:107-108 | the list the handler itself writes holds a child category with another id although it is not a root; it lasts only until a refetch replaces the store's list |
| `SettingsPage.Negated` | app/settings/page.tsx:32 | `!value` negates a flag and makes a text a flag that is true exactly when the text is empty |
| `SettingsPage.NegatedTwice` | app/settings/page.tsx:30-34 | toggling a flag twice gives it back (a sanity fact that follows from one unfolding) |
| `SettingsPage.Settings.constructor` | app/settings/page.tsx:17-28 | starts from the two mock settings with no status, no error and the modal closed |
| `SettingsPage.Settings.HandleToggleChange` | app/settings/page.tsx:30-34 | only the setting at the index changes, to its negation; the length is kept |
| `SettingsPage.Settings.HandleTextChange` | app/settings/page.tsx:36-40 | only the setting at the index changes, to the text |
| `SettingsPage.Settings.HandleSave` | app/settings/page.tsx:44-79 | a new password under six characters is refused with `passwordTooShort` and nothing sent; otherwise one password request is sent, success gives `saved` and closes the modal, failure gives `incorrectOldPassword` |
| `PasswordChangeModal.Validate` | app/settings/passwordChangeModal.tsx:15-25 | the mismatch message when the passwords differ, the length message when they match but are short, and no error exactly when they match with six or more characters |
| `PasswordChangeModal.MismatchTakesPrecedence` | app/settings/passwordChangeModal.tsx:16-23 | a mismatch is reported even when the password is also short |
| `PasswordChangeModal.Modal.constructor` | app/settings/passwordChangeModal.tsx:10-13 | the three password fields start empty and there is no error |
| `PasswordChangeModal.Modal.HandleSave` | app/settings/passwordChangeModal.tsx:15-25 | `onSave` is called exactly when validation passes, with the entered passwords, and the earlier error is then kept; otherwise the error is set |
| `LoginPage.ValidateEmail` | app/login/login.tsx:20-23 | `/^[^\s@]+@[^\s@]+\.[^\s@]+$/`, read from the first `@` (a definition; `ValidateEmailSound` and `ValidateEmailComplete` tie it to the shape `L@X.Y`) |
| `LoginPage.IsFormValid` | app/login/login.tsx:94 | a well-formed address and a non-empty password (a definition) |
| `LoginPage.SubmitDisabled` | app/login/login.tsx:131 | the button is disabled when the form is not valid or a login is running (a definition; `EnabledSubmitIsWellFormed` and `MalformedDisables` state its meaning) |
| `LoginPage.IndexOf` | app/login/login.tsx:21 | the first index of the character, or `None` exactly when it is absent |
| `LoginPage.ValidateEmailSound` | app/login/login.tsx:20-23 | an accepted address is `L@X.Y` with non-empty runs free of whitespace and `@` |
| `LoginPage.ValidateEmailComplete` | app/login/login.tsx:20-23 | every address of that shape is accepted |
| `LoginPage.AcceptedHasOneAt` | app/login/login.tsx:21 | an accepted address holds exactly one `@` and no whitespace |
| `LoginPage.EnabledSubmitIsWellFormed` | app/login/login.tsx:94-131 | an enabled button means a well-formed address, a non-empty password and no login running |
| `LoginPage.MalformedDisables` | app/login/login.tsx:94-131 | an address without `@`, or with a space, keeps the button disabled |
| `Signup.Required` | app/signup/signup.tsx:24 | `.required()` on a string field: not empty (a definition) |
| `Signup.PasswordAccepted` | app/signup/signup.tsx:26-32 | six or more characters, with an upper-case letter, a lower-case letter, a digit and one of `@$!%*?&#` at some index (a definition; `PasswordAcceptedIffNoErrors` ties it to the tests) |
| `Signup.ConfirmAccepted` | app/signup/signup.tsx:33-35 | the confirmation equals the password and is not empty (a definition) |
| `Signup.UserTypeAccepted` | app/signup/signup.tsx:38-40 | the user type is one of the five listed (a definition) |
| `Signup.FormAccepted` | app/signup/signup.tsx:23-42 | every field's rules hold, the e-mail format aside (a definition; `FormAcceptedIffNoErrors` is its partner) |
| `Signup.Matches` | app/signup/signup.tsx:28-31 | `/[…]/.test(s)` as a left-to-right search for one character of the class (a definition; `MatchesIff` states its meaning) |
| `Signup.MatchesIff` | app/signup/signup.tsx:28-31 | the search finds a character of the class exactly when one occurs at some index |
| `Signup.PasswordErrors` | app/signup/signup.tsx:26-32 | each password message is reported exactly when its test fails: too short, no upper case, no lower case, no digit, no special character, empty |
| `Signup.SchemaErrors` | app/signup/signup.tsx:23-42 | the messages of every failing test of the schema, field by field (a definition) |
| `Signup.PasswordAcceptedIffNoErrors` | app/signup/signup.tsx:26-32 | the password rules hold exactly when none of the password's tests reports a message |
| `Signup.FormAcceptedIffNoErrors` | app/signup/signup.tsx:23-42 | the form is accepted exactly when the schema reports no message |
| `Signup.AcceptedFormHasConfirmedPassword` | app/signup/signup.tsx:26-35 | an accepted form's confirmation is long enough and has a special character, since it equals the password (a sanity fact that follows from unfolding the definitions) |
| `Signup.NoSpecialCharacterRefused` | app/signup/signup.tsx:31 | a password of only letters and digits is refused (a sanity fact that follows from one unfolding) |
| `Signup.SplitAddress` | app/signup/signup.tsx:62 | one part per comma plus one, each trimmed and comma-free |
| `Signup.TrimInside` | app/signup/signup.tsx:62 | trimming a comma-free piece leaves it comma-free and trimmed |
| `Signup.RegistrationPayload` | app/signup/signup.tsx:63 | the payload is the form with only the address replaced by its parts |
| `Signup.PayloadRecoversJoinedAddress` | app/signup/signup.tsx:62-63 | an address joined from trimmed comma-free parts is posted as those parts |
| `Signup.SinglePartAddress` | app/signup/signup.tsx:62 | an address without commas is posted as one trimmed part |
| `ProfileClient.OrEmpty` | app/profile/ProfileClient.tsx:30-36 | `value \|\| ''` gives the value, or `''` when it is missing |
| `ProfileClient.AddressText` | app/profile/ProfileClient.tsx:33 | an array address is joined with `", "`; a single line is kept; a missing address is `''` |
| `ProfileClient.InitForm` | app/profile/ProfileClient.tsx:29-37 | each field is the user's value or `''`, `id` comes from `_id`, and the address is as above |
| `ProfileClient.Field` | app/profile/ProfileClient.tsx:62 | a name has a field exactly when it is a form key |
| `ProfileClient.WithField` | app/profile/ProfileClient.tsx:63-66 | the named field gets the value and every other field stays |
| `ProfileClient.FormEntries` | app/profile/ProfileClient.tsx:112-115 | seven entries with distinct keys, one per form key in declaration order, carrying the current values |
| `ProfileClient.AddressRoundTrip` | app/profile/ProfileClient.tsx:33 | a user's address parts, joined into the form and split as sign-up splits them, come back unchanged |
| `ProfileClient.Profile.constructor` | app/profile/ProfileClient.tsx:11-25 | the form starts with every field empty |
| `ProfileClient.Profile.OnUserChange` | app/profile/ProfileClient.tsx:27-39 | a user refills the whole form; no user leaves it |
| `ProfileClient.Profile.HandleChange` | app/profile/ProfileClient.tsx:59-72 | only the named form key changes and other names change nothing; an address change also sets the suggestion text |
| `ProfileClient.Profile.HandleSuggestionClick` | app/profile/ProfileClient.tsx:74-81 | the address and the suggestion text become the suggestion, and the suggestions empty |
| `ProfileClient.Profile.HandleFileChange` | app/profile/ProfileClient.tsx:83-98 | keeps the chosen file and sends it through `updateProfilePicture`; the error is never set |
| `ProfileClient.Profile.HandleSubmit` | app/profile/ProfileClient.tsx:100-126 | an empty e-mail or user name sets the required message and sends nothing; with a user it sends the seven form entries through `updateUser` and ends editing |

## Left out

- Network I/O, headers, URLs, cookies set by the server, `localStorage` and navigation (`router.push`, `window.location`).
  Replies are parameters. Requests are logged by kind, target and body only.
- Concurrency: updates that are not awaited, races between fetches, and the `isMounted` flags. Each operation is one atomic step.
- The idle-logout timer and the second login request on the login screen. They are driven by timers.
- There is no logout operation: the session store offers none.
- The Mapbox suggestion fetch: it is a third-party service.
- `handleCancel`, the search-term setters and the rendering.
- Yup's e-mail check, left out of `Signup.FormAccepted` and `Signup.SchemaErrors`.
- The order in which Yup reports messages, and react-hook-form showing only one message per field. `Signup.SchemaErrors` is the set of all messages.
- The sign-up registration request and its messages: they depend only on the reply.
- i18n: messages are held as their translation keys.
- JavaScript number formatting: a number appended to a form is kept as a numeral (`Numeral`), not as its decimal text. `toFixed(2)` and `toLocaleDateString` are also left out.
- Floating-point rounding: prices are `real`.
- `toLowerCase` is modelled for ASCII letters only. JavaScript folds all of Unicode.
- Lengths are counted in characters, not UTF-16 code units.
- `toISOString` is modelled for years 0 to 9999 only.
- Instants are modelled as UTC calendar components. A `promotionEnd` that arrives as a string is treated as the instant it denotes. An invalid date (`NaN`) is not modelled.
- Server replies carry only the modelled properties. Extra properties and `null` values are not modelled.
- `ProfileClient.Profile.HandleChange`: does not model inherited `Object.prototype` names, which pass `name in formData` and would add a property.
- `SettingsPage.Settings.HandleToggleChange`: does not model the shallow copy, which also mutates the setting object held by the previous state.
- `LoginContext.TokenSegment` has no contract of its own: it is `Seqs.Find` over `Text.Split`, and `Find`'s contract describes it.
- `CategoryPage.CategoriesPage.DeleteThenEffect`: when `deleteCategory`'s own refresh succeeds, the model runs its `[categories]` effect before the handler writes its parent list. React may instead run that effect after the write, which would leave the roots of that refresh when the page's refetch then fails.
- `ItemContext.ItemProvider.CreateItem` runs its refetch as part of the same step. The source does not await it.
- `AuthSlice.Reduce` takes the session's `User` as the payload type. The slice's own richer `User` interface is not modelled.
- The store in `app/store/store.ts` is not part of this model.
