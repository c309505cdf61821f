/** The API configuration: the base URL and the endpoint paths, fixed strings
    or template strings of a numeric id. Also the shape of an outbound request
    as the rest of the model describes it. */
module ApiConfig {
  import opened Common

  const DefaultBaseUrl := "http://localhost:8000/api"

  /** The configured base URL: the environment value when it is present and non-empty. */
  function BaseUrl(env: Option<string>): (url: string)
    ensures TruthyString(env) ==> url == env.value
    ensures !TruthyString(env) ==> url == DefaultBaseUrl
  {
    if TruthyString(env) then env.value else DefaultBaseUrl
  }

  // auth and dashboard
  const AuthLogin := "/auth/login"
  const AuthLogout := "/auth/logout"
  const AuthMe := "/auth/me"
  const DashboardStats := "/admin/dashboard/stats"

  // books
  const BooksList := "/admin/books"
  const BooksPrefix := "/admin/books/"

  function BookDetail(id: int): string { BooksPrefix + IntToDecimal(id) }
  function BookApprove(id: int): string { BooksPrefix + IntToDecimal(id) + "/approve" }
  function BookReject(id: int): string { BooksPrefix + IntToDecimal(id) + "/reject" }
  function BookUpdate(id: int): string { BooksPrefix + IntToDecimal(id) }
  function BookDelete(id: int): string { BooksPrefix + IntToDecimal(id) }
  function BookRestore(id: int): string { BooksPrefix + IntToDecimal(id) + "/restore" }

  // categories
  const CategoriesList := "/admin/categories"
  const CategoriesCreate := "/admin/categories"

  function CategoryDetail(id: int): string { "/admin/categories/" + IntToDecimal(id) }
  function CategoryUpdate(id: int): string { "/admin/categories/" + IntToDecimal(id) }
  function CategoryDelete(id: int): string { "/admin/categories/" + IntToDecimal(id) }

  // users
  const UsersList := "/admin/users"

  function UserDetail(id: int): string { "/admin/users/" + IntToDecimal(id) }

  /** How the book paths relate: update and delete share the detail path, and
      the action paths extend it by one segment. */
  lemma BookPathsShareDetail(id: int)
    ensures BookUpdate(id) == BookDetail(id) && BookDelete(id) == BookDetail(id)
    ensures BookApprove(id) == BookDetail(id) + "/approve"
    ensures BookReject(id) == BookDetail(id) + "/reject"
    ensures BookRestore(id) == BookDetail(id) + "/restore"
    ensures BookDetail(id) == BooksList + "/" + IntToDecimal(id)
  {
  }

  lemma CategoryPathsShareList(id: int)
    ensures CategoriesCreate == CategoriesList
    ensures CategoryDetail(id) == CategoriesList + "/" + IntToDecimal(id)
    ensures CategoryUpdate(id) == CategoryDetail(id) && CategoryDelete(id) == CategoryDetail(id)
  {
  }

  lemma UserPathExtendsList(id: int)
    ensures UserDetail(id) == UsersList + "/" + IntToDecimal(id)
  {
  }

  /** The fixed endpoints: the three auth paths differ from each other and
      from every admin path, and the admin lists are distinct. */
  lemma FixedEndpointsDistinct()
    ensures AuthLogin != AuthLogout && AuthLogin != AuthMe && AuthLogout != AuthMe
    ensures forall p :: p in {AuthLogin, AuthLogout, AuthMe} ==> p[..6] == "/auth/"
    ensures forall p :: p in {DashboardStats, BooksList, CategoriesList, UsersList} ==> p[..7] == "/admin/"
    ensures BooksList != CategoriesList && BooksList != UsersList && CategoriesList != UsersList
    ensures DashboardStats != BooksList && DashboardStats != CategoriesList && DashboardStats != UsersList
  {
  }

  /** Every path builder sends distinct ids to distinct paths. */
  lemma PathsInjective(a: int, b: int)
    requires a != b
    ensures BookDetail(a) != BookDetail(b)
    ensures BookApprove(a) != BookApprove(b)
    ensures BookReject(a) != BookReject(b)
    ensures BookRestore(a) != BookRestore(b)
    ensures CategoryDetail(a) != CategoryDetail(b)
    ensures UserDetail(a) != UserDetail(b)
  {
    var da, db := IntToDecimal(a), IntToDecimal(b);
    if da == db {
      IntToDecimalInjective(a, b);
    }
    SuffixedDiffer(BooksPrefix, da, db, "");
    SuffixedDiffer(BooksPrefix, da, db, "/approve");
    SuffixedDiffer(BooksPrefix, da, db, "/reject");
    SuffixedDiffer(BooksPrefix, da, db, "/restore");
    SuffixedDiffer("/admin/categories/", da, db, "");
    SuffixedDiffer("/admin/users/", da, db, "");
  }

  lemma SuffixedDiffer(p: string, x: string, y: string, t: string)
    requires x != y
    ensures p + x + t != p + y + t
    ensures t == "" ==> p + x != p + y
  {
    if p + x + t == p + y + t {
      FramedEqual(p, x, y, t);
    }
    if t == "" {
      assert p + x + t == p + x && p + y + t == p + y;
    }
  }

  datatype HttpMethod = Get | Post | Put | Delete

  /** An outbound request: method, path below the base URL, the ordered query
      pairs, and the JSON body's fields (absent for a body-less request). */
  datatype Request = Request(
    httpMethod: HttpMethod,
    path: string,
    query: seq<(string, string)>,
    body: Option<seq<(string, string)>>)
}
