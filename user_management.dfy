/**
 * src/pages/user-management.js: the admin page's state cells and handlers. The page
 * list, the search, the delete filtering, the list shown, the pagination clamp and the
 * admin-row rule. The service calls are outcomes handed in; each handler runs to its
 * end in one step, so what renders while a request is awaited is not modelled.
 */
module UserManagement {
  import opened Strings

  /** One row of the user list. */
  datatype UserRow = UserRow(id: int, email: string, nickname: string)

  const AdminEmail := "admin@minicarrot.com"

  /** `users.filter(u => u.id !== userId)`. */
  function WithoutUser(us: seq<UserRow>, id: int): seq<UserRow>
    decreases |us|
  {
    if us == [] then []
    else if us[0].id == id then WithoutUser(us[1..], id)
    else [us[0]] + WithoutUser(us[1..], id)
  }

  /** The filtered list holds exactly the rows of another id. */
  lemma {:induction false} WithoutUserMembers(us: seq<UserRow>, id: int)
    ensures forall u :: u in WithoutUser(us, id) <==> u in us && u.id != id
    decreases |us|
  {
    if us != [] {
      WithoutUserMembers(us[1..], id);
      assert us == [us[0]] + us[1..];
    }
  }

  /** Filtering keeps order: it distributes over concatenation. */
  lemma {:induction false} WithoutUserAppend(a: seq<UserRow>, b: seq<UserRow>, id: int)
    ensures WithoutUser(a + b, id) == WithoutUser(a, id) + WithoutUser(b, id)
    decreases |a|
  {
    if a == [] {
      assert a + b == b;
    } else {
      assert (a + b)[0] == a[0];
      assert (a + b)[1..] == a[1..] + b;
      WithoutUserAppend(a[1..], b, id);
    }
  }

  /** A list without the id comes back unchanged. */
  lemma {:induction false} WithoutUserAbsent(us: seq<UserRow>, id: int)
    requires forall k :: 0 <= k < |us| ==> us[k].id != id
    ensures WithoutUser(us, id) == us
    decreases |us|
  {
    if us != [] {
      WithoutUserAbsent(us[1..], id);
      assert us == [us[0]] + us[1..];
    }
  }

  /** `displayUsers`: the search results while searching or when there are any, the page list otherwise. */
  function DisplayUsers(isSearching: bool, searchResults: seq<UserRow>, users: seq<UserRow>): seq<UserRow> {
    if isSearching || |searchResults| > 0 then searchResults else users
  }

  /** The pagination section renders only outside a search and with more than one page. */
  function ShowPagination(isSearching: bool, searchResults: seq<UserRow>, totalPages: int): bool {
    !isSearching && |searchResults| == 0 && totalPages > 1
  }

  /** "Previous": `Math.max(0, currentPage - 1)`. */
  function PreviousPage(currentPage: int): int {
    if currentPage - 1 > 0 then currentPage - 1 else 0
  }

  /** "Next": `Math.min(totalPages - 1, currentPage + 1)`. */
  function NextPage(currentPage: int, totalPages: int): int {
    if totalPages - 1 < currentPage + 1 then totalPages - 1 else currentPage + 1
  }

  /**
   * From a page in range both buttons land in range, moving by at most one; each
   * stays put exactly where the page disables it.
   */
  lemma PagingStaysInRange(currentPage: int, totalPages: int)
    requires 0 <= currentPage < totalPages
    ensures 0 <= PreviousPage(currentPage) < totalPages && 0 <= NextPage(currentPage, totalPages) < totalPages
    ensures PreviousPage(currentPage) >= currentPage - 1 && NextPage(currentPage, totalPages) <= currentPage + 1
    ensures PreviousPage(currentPage) == currentPage <==> currentPage == 0
    ensures NextPage(currentPage, totalPages) == currentPage <==> currentPage >= totalPages - 1
    ensures currentPage >= 1 ==> PreviousPage(currentPage) == currentPage - 1
    ensures currentPage < totalPages - 1 ==> NextPage(currentPage, totalPages) == currentPage + 1
  {
  }

  /** `response.data.totalPages || 1`; 0 is a missing or zero count. */
  function DefaultTotalPages(totalPages: nat): (r: nat)
    ensures r >= 1
    ensures totalPages >= 1 ==> r == totalPages
    ensures totalPages == 0 ==> r == 1
  {
    if totalPages != 0 then totalPages else 1
  }

  /** The admin's own row offers no delete button; it shows the admin badge instead. */
  function ShowsDelete(u: UserRow): bool {
    u.email != AdminEmail
  }

  function ShowsAdminBadge(u: UserRow): bool {
    u.email == AdminEmail
  }

  // ---------------------------------------------------------------- the page state

  /** What a service call settled to: a successful response with its rows, an unsuccessful one, or a throw. */
  datatype ListOutcome = Listed(rows: seq<UserRow>, totalPages: nat) | Unsuccessful | ListThrew(message: string)

  datatype DeleteOutcome = Removed | NotRemoved | RemoveThrew(message: string)

  datatype Page = Page(
    users: seq<UserRow>,
    searchResults: seq<UserRow>,
    isSearching: bool,
    searchKeyword: string,
    currentPage: int,
    totalPages: int,
    loading: bool,
    error: string,
    alerts: seq<string>,
    /** Keywords sent to `searchUsers`. */
    searchCalls: seq<string>,
    /** Ids sent to `deleteUser`. */
    deleteCalls: seq<int>)

  const InitialPage := Page([], [], false, "", 0, 0, true, "", [], [], [])

  const LoadErrorPrefix := "사용자 목록을 불러오는데 실패했습니다: "
  const SearchErrorPrefix := "사용자 검색에 실패했습니다: "
  const DeletedAlert := "사용자가 성공적으로 삭제되었습니다."
  const DeleteErrorPrefix := "사용자 삭제에 실패했습니다: "

  /** `loadUsers()`; `rows` is `data.content || data`. */
  function Loaded(p: Page, outcome: ListOutcome): Page {
    var p1 := match outcome
      case Listed(rows, tp) => p.(users := rows, totalPages := DefaultTotalPages(tp))
      case Unsuccessful => p
      case ListThrew(m) => p.(error := LoadErrorPrefix + m);
    p1.(loading := false)
  }

  /** `handleSearch()`: a blank keyword clears the results without a request; `isSearching` is down again in `finally`. */
  function Searched(p: Page, outcome: ListOutcome): Page {
    if IsBlank(p.searchKeyword) then p.(searchResults := [], isSearching := false)
    else
      var p1 := p.(searchCalls := p.searchCalls + [p.searchKeyword]);
      var p2 := match outcome
        case Listed(rows, _) => p1.(searchResults := rows)
        case Unsuccessful => p1
        case ListThrew(m) => p1.(error := SearchErrorPrefix + m);
      p2.(isSearching := false)
  }

  /** `handleDeleteUser(id, email)` after the confirm. */
  function DeletedUser(p: Page, id: int, confirmed: bool, outcome: DeleteOutcome): Page {
    if !confirmed then p
    else
      var p1 := p.(deleteCalls := p.deleteCalls + [id]);
      match outcome
      case Removed =>
        p1.(alerts := p1.alerts + [DeletedAlert], users := WithoutUser(p.users, id), searchResults := WithoutUser(p.searchResults, id))
      case NotRemoved => p1
      case RemoveThrew(m) => p1.(alerts := p1.alerts + [DeleteErrorPrefix + m])
  }

  function Cleared(p: Page): Page {
    p.(searchKeyword := "", searchResults := [], isSearching := false)
  }

  /** No handler leaves a search flagged as running, and the page number never goes negative. */
  predicate PageInv(p: Page) {
    !p.isSearching && p.currentPage >= 0
  }

  /** A blank keyword sends nothing, empties the results and lowers the flag. */
  lemma BlankSearchSendsNothing(p: Page, outcome: ListOutcome)
    requires IsBlank(p.searchKeyword)
    ensures var p' := Searched(p, outcome);
      && p'.searchCalls == p.searchCalls && p'.searchResults == [] && !p'.isSearching
      && p'.users == p.users && p'.error == p.error
  {
  }

  /** A keyword with something in it is sent once, as typed, and a successful answer replaces the results. */
  lemma SearchSendsKeyword(p: Page, outcome: ListOutcome)
    requires !IsBlank(p.searchKeyword)
    ensures var p' := Searched(p, outcome);
      && p'.searchCalls == p.searchCalls + [p.searchKeyword] && !p'.isSearching
      && (outcome.Listed? ==> p'.searchResults == outcome.rows)
      && (!outcome.Listed? ==> p'.searchResults == p.searchResults)
  {
  }

  /**
   * Because `isSearching` is lowered in `finally`, a search that found nobody shows the
   * whole page list again rather than an empty result.
   */
  lemma EmptySearchShowsAllUsers(p: Page)
    requires !IsBlank(p.searchKeyword)
    ensures var p' := Searched(p, Listed([], 0));
      DisplayUsers(p'.isSearching, p'.searchResults, p'.users) == p.users
  {
  }

  /**
   * A confirmed successful delete drops every row of that id from both lists and keeps
   * the rest in order; declining or a failed delete leave both lists alone.
   */
  lemma DeleteFiltersBothLists(p: Page, id: int, confirmed: bool, outcome: DeleteOutcome)
    ensures var p' := DeletedUser(p, id, confirmed, outcome);
      && (!confirmed ==> p' == p)
      && (confirmed && outcome == Removed ==>
            p'.users == WithoutUser(p.users, id) && p'.searchResults == WithoutUser(p.searchResults, id)
            && (forall u :: u in p'.users <==> u in p.users && u.id != id)
            && (forall u :: u in p'.searchResults <==> u in p.searchResults && u.id != id))
      && (confirmed && outcome != Removed ==> p'.users == p.users && p'.searchResults == p.searchResults)
  {
    WithoutUserMembers(p.users, id);
    WithoutUserMembers(p.searchResults, id);
  }

  /**
   * Every listed row shows exactly one of the delete button and the admin badge (the two
   * tests are each other's negation), so a delete started from a row's button is never
   * the admin's, and every admin row of another id is still listed afterwards, whatever
   * the outcome.
   */
  lemma AdminRowRule(p: Page, u: UserRow, outcome: DeleteOutcome)
    requires u in DisplayUsers(p.isSearching, p.searchResults, p.users) && ShowsDelete(u)
    ensures forall a :: a in p.users && ShowsAdminBadge(a) && a.id != u.id ==> a in DeletedUser(p, u.id, true, outcome).users
  {
    WithoutUserMembers(p.users, u.id);
  }

  /** `clearSearch` puts the keyword, the results and the flag back; the page list shows again. */
  lemma ClearRestoresList(p: Page)
    ensures var p' := Cleared(p);
      && p'.searchKeyword == "" && p'.searchResults == [] && !p'.isSearching
      && DisplayUsers(p'.isSearching, p'.searchResults, p'.users) == p.users
      && ShowPagination(p'.isSearching, p'.searchResults, p'.totalPages) == (p.totalPages > 1)
  {
  }

  /** After a successful load there is always at least one page: the count sent, or 1 when it is missing. */
  lemma LoadSetsPages(p: Page, rows: seq<UserRow>, tp: nat)
    ensures var p' := Loaded(p, Listed(rows, tp));
      && p'.users == rows && p'.totalPages >= 1 && !p'.loading
      && (tp >= 1 ==> p'.totalPages == tp)
      && (tp == 0 ==> p'.totalPages == 1)
  {
  }

  lemma PageInvPreserved(p: Page, outcome: ListOutcome, id: int, confirmed: bool, deleted: DeleteOutcome)
    requires PageInv(p)
    ensures PageInv(Loaded(p, outcome)) && PageInv(Searched(p, outcome))
    ensures PageInv(DeletedUser(p, id, confirmed, deleted)) && PageInv(Cleared(p))
    ensures PageInv(p.(currentPage := PreviousPage(p.currentPage)))
    ensures p.totalPages >= 1 ==> PageInv(p.(currentPage := NextPage(p.currentPage, p.totalPages)))
  {
  }

  class UserManagementPage {
    var users: seq<UserRow>
    var searchResults: seq<UserRow>
    var isSearching: bool
    var searchKeyword: string
    var currentPage: int
    var totalPages: int
    var loading: bool
    var error: string
    var alerts: seq<string>
    var searchCalls: seq<string>
    var deleteCalls: seq<int>

    function Model(): Page
      reads this
    {
      Page(users, searchResults, isSearching, searchKeyword, currentPage, totalPages, loading, error, alerts, searchCalls, deleteCalls)
    }

    constructor ()
      ensures Model() == InitialPage
    {
      users, searchResults, isSearching, searchKeyword := [], [], false, "";
      currentPage, totalPages, loading, error := 0, 0, true, "";
      alerts, searchCalls, deleteCalls := [], [], [];
    }

    method SetSearchKeyword(keyword: string)
      modifies this
      ensures Model() == old(Model()).(searchKeyword := keyword)
    {
      searchKeyword := keyword;
    }

    method LoadUsers(outcome: ListOutcome)
      modifies this
      ensures Model() == Loaded(old(Model()), outcome)
    {
      loading := true;
      match outcome {
        case Listed(rows, tp) =>
          users := rows;
          totalPages := DefaultTotalPages(tp);
        case Unsuccessful =>
        case ListThrew(m) =>
          error := LoadErrorPrefix + m;
      }
      loading := false;
    }

    method HandleSearch(outcome: ListOutcome)
      modifies this
      ensures Model() == Searched(old(Model()), outcome)
    {
      if IsBlank(searchKeyword) {
        searchResults := [];
        isSearching := false;
        return;
      }
      isSearching := true;
      searchCalls := searchCalls + [searchKeyword];
      match outcome {
        case Listed(rows, _) =>
          searchResults := rows;
        case Unsuccessful =>
        case ListThrew(m) =>
          error := SearchErrorPrefix + m;
      }
      isSearching := false;
    }

    method HandleDeleteUser(id: int, confirmed: bool, outcome: DeleteOutcome)
      modifies this
      ensures Model() == DeletedUser(old(Model()), id, confirmed, outcome)
    {
      if !confirmed {
        return;
      }
      deleteCalls := deleteCalls + [id];
      match outcome {
        case Removed =>
          alerts := alerts + [DeletedAlert];
          var remaining := WithoutUser(users, id);
          var remainingResults := WithoutUser(searchResults, id);
          users := remaining;
          searchResults := remainingResults;
        case NotRemoved =>
        case RemoveThrew(m) =>
          alerts := alerts + [DeleteErrorPrefix + m];
      }
    }

    method ClearSearch()
      modifies this
      ensures Model() == Cleared(old(Model()))
    {
      searchKeyword := "";
      searchResults := [];
      isSearching := false;
    }

    /** The "previous" button; the page's effect then reloads the list. */
    method GoToPreviousPage()
      modifies this
      ensures Model() == old(Model()).(currentPage := PreviousPage(old(currentPage)))
    {
      currentPage := PreviousPage(currentPage);
    }

    method GoToNextPage()
      modifies this
      ensures Model() == old(Model()).(currentPage := NextPage(old(currentPage), old(totalPages)))
    {
      currentPage := NextPage(currentPage, totalPages);
    }

    function DisplayedUsers(): (r: seq<UserRow>)
      reads this
      ensures isSearching || |searchResults| > 0 ==> r == searchResults
      ensures !isSearching && |searchResults| == 0 ==> r == users
    {
      DisplayUsers(isSearching, searchResults, users)
    }
  }
}
