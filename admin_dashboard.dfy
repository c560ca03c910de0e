/** `src/pages/AdminDashboard.jsx`: the three paged tables of the admin page
    (users, datasets, logins) and the delete button of each row. */
module AdminPanel {
  import opened Options
  import opened JsText
  import opened JsArray
  import opened Toasts

  const ItemsPerPage: nat := 10

  /** `paginate(data, page)`: the ten items of the page, pages counted from 1. */
  function Paginate<T>(data: seq<T>, page: int): (r: seq<T>)
    ensures page >= 1 ==> |r| <= ItemsPerPage
    ensures page >= 1 ==>
      var start := if (page - 1) * ItemsPerPage < |data| then (page - 1) * ItemsPerPage else |data|;
      var end := if page * ItemsPerPage < |data| then page * ItemsPerPage else |data|;
      r == data[start..end]
  {
    var start := (page - 1) * ItemsPerPage;
    Slice(data, start, start + ItemsPerPage)
  }

  /** Pages 1 to `k`, one after the other. */
  function PagesUpTo<T>(data: seq<T>, k: nat): seq<T> {
    if k == 0 then [] else PagesUpTo(data, k - 1) + Paginate(data, k)
  }

  /** The first `k` pages are, in order and without overlap, the first `10 k`
      items (all of them once the pages reach past the end). */
  lemma {:induction false} PagesCoverPrefix<T>(data: seq<T>, k: nat)
    ensures PagesUpTo(data, k) == data[..if k * ItemsPerPage < |data| then k * ItemsPerPage else |data|]
  {
    if k > 0 {
      PagesCoverPrefix(data, k - 1);
      var lo := if (k - 1) * ItemsPerPage < |data| then (k - 1) * ItemsPerPage else |data|;
      var hi := if k * ItemsPerPage < |data| then k * ItemsPerPage else |data|;
      assert data[..lo] + data[lo..hi] == data[..hi];
    }
  }

  /** Enough pages show every item. */
  lemma PagesCoverAll<T>(data: seq<T>, k: nat)
    requires k * ItemsPerPage >= |data|
    ensures PagesUpTo(data, k) == data
  {
    PagesCoverPrefix(data, k);
  }

  /** A page that starts past the end is empty. */
  lemma PagePastEndEmpty<T>(data: seq<T>, page: int)
    requires page >= 1 && (page - 1) * ItemsPerPage >= |data|
    ensures Paginate(data, page) == []
  {
  }

  /** The "previous" button: one page back, never before page 1. */
  function PreviousPage(p: int): (r: int)
    ensures r >= 1
    ensures p > 1 ==> r == p - 1
    ensures p <= 1 ==> r == 1
  {
    if p - 1 > 1 then p - 1 else 1
  }

  /** The "next" button: one page on, with no upper bound. */
  function NextPage(p: int): (r: int)
    ensures r == p + 1
  {
    p + 1
  }

  /** Going forward and back returns to the same page. */
  lemma PreviousUndoesNext(p: int)
    requires p >= 1
    ensures PreviousPage(NextPage(p)) == p
  {
  }

  /** The part of the request URL before the id. */
  function DeletePrefix(kind: string): string {
    if kind == "login" then "/admin/login-history/" else "/admin/" + kind + "s/"
  }

  /** The URL `handleDelete(type, id)` requests. */
  function DeleteUrl(kind: string, id: string): (url: string)
    ensures kind == "login" ==> url == "/admin/login-history/" + id
    ensures kind != "login" ==> url == "/admin/" + kind + "s/" + id
  {
    DeletePrefix(kind) + id
  }

  const RowKinds: seq<string> := ["user", "dataset", "login"]

  /** Requests for different rows go to different URLs: the three prefixes
      differ at their eighth character, and the id follows the prefix. */
  lemma DeleteUrlIdentifiesRow(k1: string, id1: string, k2: string, id2: string)
    requires k1 in RowKinds && k2 in RowKinds
    ensures DeleteUrl(k1, id1) == DeleteUrl(k2, id2) <==> k1 == k2 && id1 == id2
  {
    var p1, p2 := DeletePrefix(k1), DeletePrefix(k2);
    StartsWithAppend(p1, id1);
    StartsWithAppend(p2, id2);
    if k1 != k2 {
      assert p1[7] != p2[7];
      assert DeleteUrl(k1, id1)[7] == p1[7];
      assert DeleteUrl(k2, id2)[7] == p2[7];
    }
  }

  /** `s.charAt(0).toUpperCase() + s.slice(1)`, for ASCII letters. */
  function Capitalize(s: string): (r: string)
    ensures |r| == |s| && (s != [] ==> r[1..] == s[1..])
    ensures s != [] && 'a' <= s[0] <= 'z' ==> r[0] as int == s[0] as int - 32
    ensures s != [] && !('a' <= s[0] <= 'z') ==> r[0] == s[0]
  {
    if s == [] then "" else [if 'a' <= s[0] <= 'z' then (s[0] as int - 32) as char else s[0]] + s[1..]
  }

  function DeletedMessage(kind: string): string {
    Capitalize(kind) + " deleted successfully"
  }

  function DeleteFailedMessage(kind: string): string {
    "Failed to delete " + kind
  }

  /** The items whose id is not `id`, in order. */
  function WithoutId<T(==,!new)>(items: seq<T>, idOf: T -> string, id: string): (r: seq<T>)
    ensures IsSubsequence(r, items)
    ensures forall x :: x in r <==> x in items && idOf(x) != id
    ensures forall x :: multiset(r)[x] == if idOf(x) != id then multiset(items)[x] else 0
  {
    FilterCounts(items, (x: T) => idOf(x) != id);
    Filter(items, (x: T) => idOf(x) != id)
  }

  /** A list without the id is left as it is. */
  lemma WithoutAbsentId<T(!new)>(items: seq<T>, idOf: T -> string, id: string)
    requires forall x :: x in items ==> idOf(x) != id
    ensures WithoutId(items, idOf, id) == items
  {
    FilterKeepsAll(items, (x: T) => idOf(x) != id);
  }

  /** Removing an id twice is removing it once. */
  lemma WithoutIdIdempotent<T(!new)>(items: seq<T>, idOf: T -> string, id: string)
    ensures WithoutId(WithoutId(items, idOf, id), idOf, id) == WithoutId(items, idOf, id)
  {
    FilterIdempotent(items, (x: T) => idOf(x) != id);
  }

  datatype Person = Person(name: string, email: string)

  datatype UserRow = UserRow(id: string, name: string, email: string, role: string)
  datatype DatasetRow = DatasetRow(id: string, fileName: string, rowCount: nat, uploadedBy: Option<Person>)
  datatype LoginRow = LoginRow(id: string, user: Option<Person>, ip: string, timestamp: string)

  function UserId(u: UserRow): string { u.id }
  function DatasetId(d: DatasetRow): string { d.id }
  function LoginId(l: LoginRow): string { l.id }

  const DeletedUser := Person("Deleted", "N/A")

  /** `l.user || { name: "Deleted", email: "N/A" }` for every login. */
  function WithDefaultUsers(logins: seq<LoginRow>): (r: seq<LoginRow>)
    ensures |r| == |logins|
    ensures forall i :: 0 <= i < |logins| ==>
      r[i] == if logins[i].user.Some? then logins[i] else logins[i].(user := Some(DeletedUser))
  {
    seq(|logins|, i requires 0 <= i < |logins| =>
      if logins[i].user.Some? then logins[i] else logins[i].(user := Some(DeletedUser)))
  }

  /** After the defaulting every login has a user, and only the missing
      users changed. */
  lemma DefaultUsersComplete(logins: seq<LoginRow>)
    ensures forall l :: l in WithDefaultUsers(logins) ==> l.user.Some?
    ensures forall i :: 0 <= i < |logins| ==>
      WithDefaultUsers(logins)[i].(user := logins[i].user) == logins[i]
    ensures WithDefaultUsers(WithDefaultUsers(logins)) == WithDefaultUsers(logins)
  {
  }

  /** What the three requests of the first render gave. */
  datatype Fetch = FetchFailed | Fetched(users: seq<UserRow>, datasets: seq<DatasetRow>, logins: seq<LoginRow>)

  const LoadFailedMessage := "Failed to load admin data"

  datatype Table = Users | Datasets | Logins

  class Admin {
    var users: seq<UserRow>
    var datasets: seq<DatasetRow>
    var loginHistory: seq<LoginRow>
    var userPage: int
    var datasetPage: int
    var loginPage: int
    var toast: Option<Toast>

    /** Pages start at 1 and every login shown has a user. */
    ghost predicate Valid()
      reads this
    {
      && userPage >= 1 && datasetPage >= 1 && loginPage >= 1
      && forall l :: l in loginHistory ==> l.user.Some?
    }

    function PageOf(table: Table): int
      reads this
    {
      match table
      case Users => userPage
      case Datasets => datasetPage
      case Logins => loginPage
    }

    /** The rows each table shows. */
    function VisibleUsers(): (r: seq<UserRow>)
      reads this
      ensures userPage >= 1 ==> |r| <= ItemsPerPage
    {
      Paginate(users, userPage)
    }

    function VisibleDatasets(): (r: seq<DatasetRow>)
      reads this
      ensures datasetPage >= 1 ==> |r| <= ItemsPerPage
    {
      Paginate(datasets, datasetPage)
    }

    function VisibleLogins(): (r: seq<LoginRow>)
      reads this
      ensures loginPage >= 1 ==> |r| <= ItemsPerPage
    {
      Paginate(loginHistory, loginPage)
    }

    /** The first render and its `fetchData`: every table on page 1, filled
        from the requests, or empty with an error toast when one failed. */
    constructor(fetch: Fetch)
      ensures Valid()
      ensures userPage == 1 && datasetPage == 1 && loginPage == 1
      ensures fetch.FetchFailed? ==>
        users == [] && datasets == [] && loginHistory == [] && toast == Some(Toast(LoadFailedMessage, Error))
      ensures fetch.Fetched? ==>
        users == fetch.users && datasets == fetch.datasets
        && loginHistory == WithDefaultUsers(fetch.logins) && toast == None
    {
      userPage, datasetPage, loginPage := 1, 1, 1;
      match fetch
      case FetchFailed =>
        users, datasets, loginHistory := [], [], [];
        toast := Some(Toast(LoadFailedMessage, Error));
      case Fetched(us, ds, ls) =>
        users, datasets := us, ds;
        loginHistory := WithDefaultUsers(ls);
        DefaultUsersComplete(ls);
        toast := None;
    }

    /** `handleDelete(type, id)`, where `deleted` says whether the request
        succeeded; returns the URL requested. Only the list of the matching
        type loses the rows with that id. */
    method Delete(kind: string, id: string, deleted: bool) returns (url: string)
      requires Valid()
      modifies this
      ensures Valid()
      ensures url == DeleteUrl(kind, id)
      ensures userPage == old(userPage) && datasetPage == old(datasetPage) && loginPage == old(loginPage)
      ensures !deleted ==>
        users == old(users) && datasets == old(datasets) && loginHistory == old(loginHistory)
        && toast == Some(Toast(DeleteFailedMessage(kind), Error))
      ensures deleted ==>
        && users == (if kind == "user" then WithoutId(old(users), UserId, id) else old(users))
        && datasets == (if kind == "dataset" then WithoutId(old(datasets), DatasetId, id) else old(datasets))
        && loginHistory == (if kind == "login" then WithoutId(old(loginHistory), LoginId, id) else old(loginHistory))
        && toast == Some(Toast(DeletedMessage(kind), Success))
    {
      url := DeleteUrl(kind, id);
      if !deleted {
        toast := Some(Toast(DeleteFailedMessage(kind), Error));
        return;
      }
      toast := Some(Toast(DeletedMessage(kind), Success));
      if kind == "user" {
        users := WithoutId(users, UserId, id);
      }
      if kind == "dataset" {
        datasets := WithoutId(datasets, DatasetId, id);
      }
      if kind == "login" {
        loginHistory := WithoutId(loginHistory, LoginId, id);
      }
    }

    /** The "previous" button under a table. */
    method GoToPreviousPage(table: Table)
      requires Valid()
      modifies this
      ensures Valid()
      ensures PageOf(table) == PreviousPage(old(PageOf(table)))
      ensures forall t :: t != table ==> PageOf(t) == old(PageOf(t))
      ensures users == old(users) && datasets == old(datasets) && loginHistory == old(loginHistory)
      ensures toast == old(toast)
    {
      match table
      case Users => userPage := PreviousPage(userPage);
      case Datasets => datasetPage := PreviousPage(datasetPage);
      case Logins => loginPage := PreviousPage(loginPage);
    }

    /** The "next" button under a table. */
    method GoToNextPage(table: Table)
      requires Valid()
      modifies this
      ensures Valid()
      ensures PageOf(table) == NextPage(old(PageOf(table)))
      ensures forall t :: t != table ==> PageOf(t) == old(PageOf(t))
      ensures users == old(users) && datasets == old(datasets) && loginHistory == old(loginHistory)
      ensures toast == old(toast)
    {
      match table
      case Users => userPage := NextPage(userPage);
      case Datasets => datasetPage := NextPage(datasetPage);
      case Logins => loginPage := NextPage(loginPage);
    }
  }
}
