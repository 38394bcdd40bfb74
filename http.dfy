/** What the dashboard sends to and receives from its back end, as values: the outcome of a
    request, the multipart form it carries, and a log entry per request. */
module Http {
  import opened Maybe

  /** The outcome of one request: a 2xx response with its decoded body, a response with
      another status, a transport failure (no response at all), or an exception that is not
      a request error (a body that fails to decode, a bug in a callback). For `axios` the
      first two failures are "axios errors"; for `fetch` a non-2xx status is not an
      exception at all, and the code tests `response.ok` itself. */
  datatype Reply<T> = Ok(data: T) | HttpError(status: int) | NetworkError | OtherError
  {
    /** `axios.isAxiosError(error)` for the failure this reply stands for. */
    predicate IsAxiosError() {
      HttpError? || NetworkError?
    }
  }

  /** A browser `File` (a `Blob` with a name); its bytes are not looked at. */
  datatype File = File(name: string)

  /** A piece of text: literal characters, or a JavaScript number written out as
      `Number.prototype.toString` does (the exact digits are not modelled). */
  datatype Chunk = Chars(s: string) | Numeral(x: real)

  /** A string made of chunks. */
  type Text = seq<Chunk>

  function Plain(s: string): (t: Text)
    ensures |t| == 1 && t[0] == Chars(s)
  {
    [Chars(s)]
  }

  /** The value of one form field: a string, or a file sent as a blob. */
  datatype FormValue = TextValue(text: Text) | Blob(file: File)

  datatype Entry = Entry(key: string, value: FormValue)

  /** A browser `FormData`: an ordered list of entries that `append` extends. */
  class FormData {
    var entries: seq<Entry>

    constructor ()
      ensures entries == []
    {
      entries := [];
    }

    method Append(key: string, value: FormValue)
      modifies this
      ensures entries == old(entries) + [Entry(key, value)]
    {
      entries := entries + [Entry(key, value)];
    }

    /** `pairs.forEach(([k, v]) => data.append(k, v))`: one `append` per entry, in order. */
    method AppendAll(pairs: seq<Entry>)
      modifies this
      ensures entries == old(entries) + pairs
    {
      var i := 0;
      while i < |pairs|
        invariant 0 <= i <= |pairs|
        invariant entries == old(entries) + pairs[..i]
      {
        Append(pairs[i].key, pairs[i].value);
        assert pairs[..i + 1] == pairs[..i] + [pairs[i]];
        i := i + 1;
      }
      assert pairs[..i] == pairs;
    }
  }

  /** A path segment written from a value that may be `null` or `undefined`: `None` stands
      for the text "undefined" (or "null") that a template literal would produce. */
  type PathId = Option<string>

  /** One request the dashboard sends, with the parts of its URL and body the model follows
      (headers and the base URL are not modelled). */
  datatype Request =
    | GetSupermarketItems(supermarketId: string)
    | GetItem(itemId: string)
    | GetCategoryItems(categoryId: string)
    | PostItem(toSupermarket: PathId, form: seq<Entry>)
    | PatchItem(patchedItem: string, form: seq<Entry>)
    | DeleteItem(deletedItem: string)
    | GetCategories(ofSupermarket: string)
    | PostCategory(byUser: PathId, form: seq<Entry>)
    | PatchCategory(patchedCategory: string, form: seq<Entry>)
    | DeleteCategory(deletedCategory: string)
    | PostLogin(email: string, password: string)
    | PatchUser(patchedUser: string, form: seq<Entry>)
    | PatchPassword(ofUser: PathId, currentPassword: string, newPassword: string)
    | GetUser(userId: PathId, bearer: string)
}
