/**
 * POST /api/users: check the credentials, log in, page through the active
 * users 100 at a time until the page number passes the page bound the
 * platform reports, and return each user reduced to id, name, email and state.
 *
 * The platform's user listing is an oracle from the options of one request
 * to the page it answers (or the error it rejects with).
 */
module UserListing {
  import opened Api
  import opened Validation

  /** The user-listing endpoint of the platform: one answer per request. */
  type UsersOracle = UsersQuery -> Outcome<Page>

  /** JavaScript truthiness of a numeric field: present, not null, and not zero. */
  predicate NumTruthy(f: NumField) {
    f.Num? && f.n != 0
  }

  /** `Math.ceil(total / pageSize)` on whole numbers: the fewest pages of `pageSize` that hold `total`. */
  function CeilDiv(total: nat, pageSize: nat): (r: nat)
    requires pageSize > 0
    ensures r * pageSize >= total
    ensures (r - 1) * pageSize < total
  {
    var q := (total + pageSize - 1) / pageSize;
    var m := (total + pageSize - 1) % pageSize;
    assert total + pageSize - 1 == q * pageSize + m;
    assert (q - 1) * pageSize == q * pageSize - pageSize;
    q
  }

  /** The bound update after one page: the reported page count, else the ceiling of total / pageSize, else unchanged. */
  function NextTotalPages(page: Page, totalPages: nat): (r: nat)
    ensures NumTruthy(page.pageCount) ==> r == page.pageCount.n
    ensures page.pageCount.Missing? && NumTruthy(page.pageSize) && NumTruthy(page.total) ==>
      r * page.pageSize.n >= page.total.n && (r - 1) * page.pageSize.n < page.total.n
    ensures !NumTruthy(page.pageCount) && !(page.pageCount.Missing? && NumTruthy(page.pageSize) && NumTruthy(page.total)) ==>
      r == totalPages
    ensures totalPages >= 1 ==> r >= 1
  {
    if NumTruthy(page.pageCount) then page.pageCount.n
    else if page.pageCount.Missing? && NumTruthy(page.pageSize) && NumTruthy(page.total) then
      CeilDiv(page.total.n, page.pageSize.n)
    else totalPages
  }

  /** The answer to the request for page `n`. */
  function PageReply(oracle: UsersOracle, n: nat): Outcome<Page> {
    oracle(ActiveUsersQuery(n))
  }

  /** `totalPages` once pages 1..n have been read, starting from 1; never below 1. */
  function TotalPagesAfter(oracle: UsersOracle, n: nat): (r: nat)
    ensures r >= 1
  {
    if n == 0 then 1
    else
      match PageReply(oracle, n)
      case Succeeded(page) => NextTotalPages(page, TotalPagesAfter(oracle, n - 1))
      case Failed(_) => TotalPagesAfter(oracle, n - 1)
  }

  /** What one page adds to `allUsers`: its entities, or nothing when it has none. */
  function PageEntities(reply: Outcome<Page>): seq<RemoteUser> {
    match reply
    case Succeeded(Page(Some(entities), _, _, _)) => entities
    case _ => []
  }

  /** `allUsers` once pages 1..n have been read: their entities concatenated in page order. */
  function EntitiesUpTo(oracle: UsersOracle, n: nat): seq<RemoteUser> {
    if n == 0 then [] else EntitiesUpTo(oracle, n - 1) + PageEntities(PageReply(oracle, n))
  }

  /** The loop ends after page n: the request is rejected, or `n + 1 > totalPages`. */
  predicate StopsAt(oracle: UsersOracle, n: nat) {
    n >= 1 && (PageReply(oracle, n).Failed? || n + 1 > TotalPagesAfter(oracle, n))
  }

  /**
   * The do-while loop of the users handler. `last` is any page at which the
   * loop would stop; it exists only to show that the loop ends.
   */
  method CollectActiveUsers(oracle: UsersOracle, ghost last: nat) returns (result: Outcome<seq<RemoteUser>>, queries: seq<UsersQuery>)
    requires StopsAt(oracle, last)
    ensures |queries| >= 1
    ensures forall i :: 0 <= i < |queries| ==> queries[i] == ActiveUsersQuery(i + 1)
    ensures StopsAt(oracle, |queries|)
    ensures forall p :: 1 <= p < |queries| ==> !StopsAt(oracle, p)
    ensures result == match PageReply(oracle, |queries|)
                      case Failed(message) => Failed(message)
                      case Succeeded(_) => Succeeded(EntitiesUpTo(oracle, |queries|))
  {
    var allUsers: seq<RemoteUser> := [];
    var pageNumber: nat := 1;
    var totalPages: nat := 1;
    queries := [];
    while true
      invariant 1 <= pageNumber <= last
      invariant |queries| == pageNumber - 1
      invariant forall i :: 0 <= i < |queries| ==> queries[i] == ActiveUsersQuery(i + 1)
      invariant forall p :: 1 <= p < pageNumber ==> !StopsAt(oracle, p)
      invariant allUsers == EntitiesUpTo(oracle, pageNumber - 1)
      invariant totalPages == TotalPagesAfter(oracle, pageNumber - 1)
      decreases last - pageNumber
    {
      var query := ActiveUsersQuery(pageNumber);
      queries := queries + [query];
      var reply := oracle(query);
      match reply {
        case Failed(message) =>
          result := Failed(message);
          return;
        case Succeeded(data) =>
          assert PageReply(oracle, pageNumber) == reply;
          if data.entities.Some? {
            allUsers := allUsers + data.entities.value;
          }
          assert allUsers == EntitiesUpTo(oracle, pageNumber);
          totalPages := NextTotalPages(data, totalPages);
          assert totalPages == TotalPagesAfter(oracle, pageNumber);
          pageNumber := pageNumber + 1;
          if pageNumber > totalPages {
            result := Succeeded(allUsers);
            return;
          }
          assert !StopsAt(oracle, pageNumber - 1);
      }
    }
  }

  /** `allUsers.map(u => ({id: u.id, name: u.name, email: u.email, state: u.state}))` */
  function ProjectUsers(users: seq<RemoteUser>): (r: seq<User>)
    ensures |r| == |users|
    ensures forall i :: 0 <= i < |users| ==>
      r[i] == User(users[i].id, users[i].name, users[i].email, users[i].state)
  {
    if users == [] then []
    else [User(users[0].id, users[0].name, users[0].email, users[0].state)] + ProjectUsers(users[1..])
  }

  /**
   * The whole users handler. `last` is needed only when the credentials are
   * present and the login succeeds, for the loop to end.
   */
  method ListUsers(req: UsersRequest, loginOk: bool, oracle: UsersOracle, ghost last: nat) returns (r: Handled)
    requires CredentialsPresent(req.credentials) && loginOk ==> StopsAt(oracle, last)
    ensures !CredentialsPresent(req.credentials) ==> r == Handled(MissingCredentials, [])
    ensures CredentialsPresent(req.credentials) ==>
      |r.calls| >= 1 && r.calls[0] == Login(req.credentials.value.clientId.value, req.credentials.value.clientSecret.value)
    ensures CredentialsPresent(req.credentials) && !loginOk ==>
      r.response == ServerError(AuthenticationFailed) && |r.calls| == 1
    ensures CredentialsPresent(req.credentials) && loginOk ==>
      && |r.calls| >= 2
      && (forall i :: 1 <= i < |r.calls| ==> r.calls[i] == GetUsers(ActiveUsersQuery(i)))
      && StopsAt(oracle, |r.calls| - 1)
      && (forall p :: 1 <= p < |r.calls| - 1 ==> !StopsAt(oracle, p))
      && r.response == match PageReply(oracle, |r.calls| - 1)
                       case Failed(message) => ServerError(message)
                       case Succeeded(_) => UsersResponse(ProjectUsers(EntitiesUpTo(oracle, |r.calls| - 1)))
  {
    var checked := CheckCredentials(req.credentials);
    if checked.Rejected? {
      return Handled(checked.response, []);
    }
    var login := Login(checked.value.clientId, checked.value.clientSecret);
    if !loginOk {
      return Handled(ServerError(AuthenticationFailed), [login]);
    }
    var result, queries := CollectActiveUsers(oracle, last);
    var calls := [login] + seq(|queries|, i requires 0 <= i < |queries| => GetUsers(queries[i]));
    match result {
      case Failed(message) =>
        r := Handled(ServerError(message), calls);
      case Succeeded(allUsers) =>
        r := Handled(UsersResponse(ProjectUsers(allUsers)), calls);
    }
  }

  /** A page that sets `totalPages` to `k` whatever it was before. */
  predicate FixesBound(page: Page, k: nat) {
    || (NumTruthy(page.pageCount) && page.pageCount.n == k)
    || (page.pageCount.Missing? && NumTruthy(page.pageSize) && NumTruthy(page.total)
        && CeilDiv(page.total.n, page.pageSize.n) == k)
  }

  /** Pages 1..n are served and each fixes the bound to `k`. */
  predicate ReportsBound(oracle: UsersOracle, n: nat, k: nat) {
    forall p :: 1 <= p <= n ==> PageReply(oracle, p).Succeeded? && FixesBound(PageReply(oracle, p).value, k)
  }

  /**
   * When every page reports the same bound k (by page count, or by total and
   * page size), the loop fetches exactly pages 1..k.
   */
  lemma StopsAtReportedBound(oracle: UsersOracle, k: nat)
    requires k >= 1 && ReportsBound(oracle, k, k)
    ensures StopsAt(oracle, k)
    ensures forall p :: 1 <= p < k ==> !StopsAt(oracle, p)
  {
  }

  /** Three served pages that report a page count of 3 yield their entities in page order. */
  lemma ThreePagesListed(oracle: UsersOracle, e1: seq<RemoteUser>, e2: seq<RemoteUser>, e3: seq<RemoteUser>)
    requires PageReply(oracle, 1) == Succeeded(Page(Some(e1), Num(3), Num(100), Num(|e1| + |e2| + |e3|)))
    requires PageReply(oracle, 2) == Succeeded(Page(Some(e2), Num(3), Num(100), Num(|e1| + |e2| + |e3|)))
    requires PageReply(oracle, 3) == Succeeded(Page(Some(e3), Num(3), Num(100), Num(|e1| + |e2| + |e3|)))
    ensures StopsAt(oracle, 3) && !StopsAt(oracle, 1) && !StopsAt(oracle, 2)
    ensures EntitiesUpTo(oracle, 3) == e1 + e2 + e3
  {
  }

  /** Without a page count, a total of 150 at 100 per page gives a bound of 2: two pages are fetched. */
  lemma FallbackFetchesTwoPages(oracle: UsersOracle, e1: seq<RemoteUser>, e2: seq<RemoteUser>)
    requires PageReply(oracle, 1) == Succeeded(Page(Some(e1), Missing, Num(100), Num(150)))
    requires PageReply(oracle, 2) == Succeeded(Page(Some(e2), Missing, Num(100), Num(150)))
    ensures StopsAt(oracle, 2) && !StopsAt(oracle, 1)
    ensures EntitiesUpTo(oracle, 2) == e1 + e2
  {
  }
}
