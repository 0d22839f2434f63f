/**
 * The users page: search and status filter, the sort order chosen in the
 * toolbar, and the row selection.
 */
module UserSection {
  import opened Options
  import opened Text
  import opened Seqs

  /** A customer; `createdAt` is the sign-up time as a number of milliseconds. */
  datatype User = User(id: string, firstName: string, email: string, mobile: string, status: int, createdAt: int)

  datatype StatusFilter = All | Active | Inactive

  datatype SortBy = Newest | Oldest | ByName | Unsorted

  /** The search: name and e-mail ignore case, the mobile number is matched as typed. */
  predicate MatchesSearch(u: User, search: string) {
    search == ""
    || Contains(ToLower(u.firstName), ToLower(search))
    || Contains(ToLower(u.email), ToLower(search))
    || Contains(u.mobile, search)
  }

  /** Status 1 is active and 0 inactive; other codes only show under "all". */
  predicate MatchesStatus(u: User, f: StatusFilter) {
    match f
    case All => true
    case Active => u.status == 1
    case Inactive => u.status == 0
  }

  /** `filteredUsers`: no users yet gives an empty table. */
  function FilteredUsers(users: Option<seq<User>>, search: string, f: StatusFilter): (r: seq<User>)
    ensures users.None? ==> r == []
    ensures users.Some? ==> |r| <= |users.value|
    ensures forall u :: u in r <==> users.Some? && u in users.value && MatchesSearch(u, search) && MatchesStatus(u, f)
  {
    if users.None? then []
    else
      var keep := u => MatchesSearch(u, search) && MatchesStatus(u, f);
      FilterMembers(users.value, keep);
      Filter(users.value, keep)
  }

  /**
   * The filters keep the users in list order: a list is filtered part by
   * part, and one user stays exactly when both the search and the status
   * filter let them through.
   */
  lemma FilteredUsersKeepsOrder(a: seq<User>, b: seq<User>, u: User, search: string, f: StatusFilter)
    ensures FilteredUsers(Some(a + b), search, f) == FilteredUsers(Some(a), search, f) + FilteredUsers(Some(b), search, f)
    ensures FilteredUsers(Some([u]), search, f) == if MatchesSearch(u, search) && MatchesStatus(u, f) then [u] else []
  {
    FilterConcat(a, b, v => MatchesSearch(v, search) && MatchesStatus(v, f));
    FilterSingle(u, v => MatchesSearch(v, search) && MatchesStatus(v, f));
  }

  /** The empty search hides nobody, and every status code counts as one of "active", "inactive" or neither. */
  lemma EmptySearchFiltersByStatusOnly(users: seq<User>, f: StatusFilter, u: User)
    requires u in users
    ensures u in FilteredUsers(Some(users), "", f) <==> MatchesStatus(u, f)
    ensures u in FilteredUsers(Some(users), "", All)
  {
  }

  /**
   * The sort key of the comparator: newest first by date, oldest first by
   * date, by first name through `collate` (the locale's collation order), or
   * all equal. The comparator returns the difference of these keys.
   */
  function Key(u: User, order: SortBy, collate: string -> int): int {
    match order
    case Newest => -u.createdAt
    case Oldest => u.createdAt
    case ByName => collate(u.firstName)
    case Unsorted => 0
  }

  predicate SortedByKey(s: seq<User>, order: SortBy, collate: string -> int) {
    forall i, j :: 0 <= i < j < |s| ==> Key(s[i], order, collate) <= Key(s[j], order, collate)
  }

  /** Inserts `x` after every element whose key is not larger, which keeps equal keys in their order. */
  function Insert(s: seq<User>, x: User, order: SortBy, collate: string -> int): (r: seq<User>)
    ensures |r| == |s| + 1
  {
    if s == [] || Key(s[|s| - 1], order, collate) <= Key(x, order, collate) then s + [x]
    else Insert(s[..|s| - 1], x, order, collate) + [s[|s| - 1]]
  }

  /** Inserting adds `x` and keeps everyone else. */
  lemma {:induction false} InsertPermutes(s: seq<User>, x: User, order: SortBy, collate: string -> int)
    ensures multiset(Insert(s, x, order, collate)) == multiset(s) + multiset{x}
  {
    if !(s == [] || Key(s[|s| - 1], order, collate) <= Key(x, order, collate)) {
      var init := s[..|s| - 1];
      InsertPermutes(init, x, order, collate);
      assert s == init + [s[|s| - 1]];
    }
  }

  /**
   * `sortedUsers`: a stable sort (the order `Array.prototype.sort` keeps for
   * equal keys) of the filtered users.
   */
  function SortUsers(s: seq<User>, order: SortBy, collate: string -> int): (r: seq<User>)
    ensures |r| == |s|
  {
    if s == [] then []
    else Insert(SortUsers(s[..|s| - 1], order, collate), s[|s| - 1], order, collate)
  }

  /** Inserting under a bound that every key respects keeps every key under it. */
  lemma {:induction false} InsertBounded(s: seq<User>, x: User, order: SortBy, collate: string -> int, b: int)
    requires forall i :: 0 <= i < |s| ==> Key(s[i], order, collate) <= b
    requires Key(x, order, collate) <= b
    ensures forall i :: 0 <= i < |Insert(s, x, order, collate)| ==> Key(Insert(s, x, order, collate)[i], order, collate) <= b
  {
    var r := Insert(s, x, order, collate);
    if s == [] || Key(s[|s| - 1], order, collate) <= Key(x, order, collate) {
      assert r == s + [x];
    } else {
      var init := s[..|s| - 1];
      InsertBounded(init, x, order, collate, b);
      assert r == Insert(init, x, order, collate) + [s[|s| - 1]];
    }
  }

  lemma {:induction false} InsertSorted(s: seq<User>, x: User, order: SortBy, collate: string -> int)
    requires SortedByKey(s, order, collate)
    ensures SortedByKey(Insert(s, x, order, collate), order, collate)
  {
    if s == [] || Key(s[|s| - 1], order, collate) <= Key(x, order, collate) {
      var r := s + [x];
      assert Insert(s, x, order, collate) == r;
      forall i, j | 0 <= i < j < |r| ensures Key(r[i], order, collate) <= Key(r[j], order, collate) {
        if j == |s| && s != [] {
          assert Key(s[i], order, collate) <= Key(s[|s| - 1], order, collate);
        }
      }
    } else {
      var init := s[..|s| - 1];
      var last := s[|s| - 1];
      assert SortedByKey(init, order, collate);
      InsertSorted(init, x, order, collate);
      var r := Insert(init, x, order, collate);
      assert forall i :: 0 <= i < |init| ==> Key(init[i], order, collate) <= Key(last, order, collate);
      InsertBounded(init, x, order, collate, Key(last, order, collate));
      var t := r + [last];
      assert Insert(s, x, order, collate) == t;
      forall i, j | 0 <= i < j < |t| ensures Key(t[i], order, collate) <= Key(t[j], order, collate) {
        if j < |r| {
          assert t[i] == r[i] && t[j] == r[j];
        } else {
          assert t[i] == r[i] && t[j] == last;
          assert Key(r[i], order, collate) <= Key(last, order, collate);
        }
      }
    }
  }

  /** The sorted users are ordered by the chosen key. */
  lemma {:induction false} SortUsersSorted(s: seq<User>, order: SortBy, collate: string -> int)
    ensures SortedByKey(SortUsers(s, order, collate), order, collate)
  {
    if s != [] {
      SortUsersSorted(s[..|s| - 1], order, collate);
      InsertSorted(SortUsers(s[..|s| - 1], order, collate), s[|s| - 1], order, collate);
    }
  }

  /** Sorting drops and duplicates nobody. */
  lemma {:induction false} SortUsersPermutes(s: seq<User>, order: SortBy, collate: string -> int)
    ensures multiset(SortUsers(s, order, collate)) == multiset(s)
  {
    if s != [] {
      var init := s[..|s| - 1];
      SortUsersPermutes(init, order, collate);
      InsertPermutes(SortUsers(init, order, collate), s[|s| - 1], order, collate);
      assert s == init + [s[|s| - 1]];
    }
  }

  lemma InsertAtEnd(s: seq<User>, x: User, order: SortBy, collate: string -> int)
    requires s != [] && Key(s[|s| - 1], order, collate) <= Key(x, order, collate)
    ensures Insert(s, x, order, collate) == s + [x]
  {
  }

  /** The users whose sort key is `k`. */
  function KeyIs(order: SortBy, collate: string -> int, k: int): User -> bool {
    u => Key(u, order, collate) == k
  }

  /**
   * Insertion places `x` after every user with the same key, so among the
   * users sharing a key `x` comes last and the others keep their order.
   */
  lemma {:induction false} InsertKeepsKeyGroups(s: seq<User>, x: User, order: SortBy, collate: string -> int, k: int)
    ensures Filter(Insert(s, x, order, collate), KeyIs(order, collate, k))
      == Filter(s, KeyIs(order, collate, k)) + (if Key(x, order, collate) == k then [x] else [])
  {
    var p := KeyIs(order, collate, k);
    if s == [] || Key(s[|s| - 1], order, collate) <= Key(x, order, collate) {
      assert (s + [x])[..|s|] == s;
    } else {
      var init := s[..|s| - 1];
      var last := s[|s| - 1];
      var r := Insert(init, x, order, collate);
      InsertKeepsKeyGroups(init, x, order, collate, k);
      assert (r + [last])[..|r|] == r;
      assert s == init + [last];
      assert Filter(s, p) == Filter(init, p) + (if p(last) then [last] else []);
    }
  }

  /**
   * The sort is stable: the users that share any one key appear in the
   * result in the order they had in the input.
   */
  lemma {:induction false} SortUsersStable(s: seq<User>, order: SortBy, collate: string -> int, k: int)
    ensures Filter(SortUsers(s, order, collate), KeyIs(order, collate, k)) == Filter(s, KeyIs(order, collate, k))
  {
    if s != [] {
      var init := s[..|s| - 1];
      SortUsersStable(init, order, collate, k);
      InsertKeepsKeyGroups(SortUsers(init, order, collate), s[|s| - 1], order, collate, k);
    }
  }

  /** When every key is the same `k` (the default order, or users created at one instant) the order is kept. */
  lemma {:induction false} EqualKeysKeepOrder(s: seq<User>, order: SortBy, collate: string -> int, k: int)
    requires forall i :: 0 <= i < |s| ==> Key(s[i], order, collate) == k
    ensures SortUsers(s, order, collate) == s
  {
    if s != [] {
      var init := s[..|s| - 1];
      var last := s[|s| - 1];
      forall i | 0 <= i < |init| ensures Key(init[i], order, collate) == k {
        assert init[i] == s[i];
      }
      EqualKeysKeepOrder(init, order, collate, k);
      assert SortUsers(s, order, collate) == Insert(SortUsers(init, order, collate), last, order, collate);
      if init == [] {
        assert Insert(init, last, order, collate) == [last];
      } else {
        assert Key(init[|init| - 1], order, collate) == k == Key(last, order, collate);
        InsertAtEnd(init, last, order, collate);
      }
      assert s == init + [last];
    }
  }

  lemma UnsortedKeepsOrder(s: seq<User>, collate: string -> int)
    ensures SortUsers(s, Unsorted, collate) == s
  {
    EqualKeysKeepOrder(s, Unsorted, collate, 0);
  }

  /** "Newest" puts the most recent sign-up first. */
  lemma NewestFirst(s: seq<User>, collate: string -> int)
    ensures var r := SortUsers(s, Newest, collate);
      forall i, j :: 0 <= i < j < |r| ==> r[i].createdAt >= r[j].createdAt
  {
    SortUsersSorted(s, Newest, collate);
  }

  function Ids(users: seq<User>): (r: seq<string>)
    ensures |r| == |users| && forall k :: 0 <= k < |r| ==> r[k] == users[k].id
  {
    seq(|users|, k requires 0 <= k < |users| => users[k].id)
  }

  /**
   * `handleSelectAll`: a selection as long as the table is cleared, any
   * other is replaced by every row of the table.
   */
  function SelectAll(selected: seq<string>, sorted: seq<User>): (r: seq<string>)
    ensures |selected| == |sorted| ==> r == []
    ensures |selected| != |sorted| ==> r == Ids(sorted)
  {
    if |selected| == |sorted| then [] else Ids(sorted)
  }

  /**
   * The "all selected" test compares lengths only: ids picked before the
   * search changed count as a full selection and are cleared rather than
   * completed.
   */
  lemma SelectAllComparesLengths(stale: string, u: User)
    requires stale != u.id
    ensures SelectAll([stale], [u]) == []
    ensures SelectAll([], [u]) == [u.id]
  {
  }

  /** The toolbar and the selection of the users page. */
  class UsersPage {
    var search: string
    var filterStatus: StatusFilter
    var sortBy: SortBy
    var selectedUsers: seq<string>

    constructor ()
      ensures search == "" && filterStatus == All && sortBy == Newest && selectedUsers == []
    {
      search, filterStatus, sortBy, selectedUsers := "", All, Newest, [];
    }

    method HandleSearch(value: string)
      modifies this`search
      ensures search == value
    {
      search := value;
    }

    method HandleFilterStatus(value: StatusFilter)
      modifies this`filterStatus
      ensures filterStatus == value
    {
      filterStatus := value;
    }

    method HandleSortBy(value: SortBy)
      modifies this`sortBy
      ensures sortBy == value
    {
      sortBy := value;
    }

    /** The rows on screen. */
    function SortedUsers(users: Option<seq<User>>, collate: string -> int): (r: seq<User>)
      reads this
      ensures multiset(r) == multiset(FilteredUsers(users, search, filterStatus))
      ensures SortedByKey(r, sortBy, collate)
    {
      var rows := FilteredUsers(users, search, filterStatus);
      SortUsersPermutes(rows, sortBy, collate);
      SortUsersSorted(rows, sortBy, collate);
      SortUsers(rows, sortBy, collate)
    }

    /** `handleSelectUser`: ticks an unticked row, unticks a ticked one. */
    method HandleSelectUser(userId: string)
      modifies this`selectedUsers
      ensures userId in selectedUsers <==> userId !in old(selectedUsers)
      ensures forall x :: x != userId ==> (x in selectedUsers <==> x in old(selectedUsers))
      ensures NoDup(old(selectedUsers)) ==> NoDup(selectedUsers)
    {
      if NoDup(selectedUsers) {
        ToggleKeepsNoDup(selectedUsers, userId);
      }
      selectedUsers := Toggle(selectedUsers, userId);
    }

    method HandleSelectAll(sorted: seq<User>)
      modifies this`selectedUsers
      ensures selectedUsers == SelectAll(old(selectedUsers), sorted)
    {
      if |selectedUsers| == |sorted| {
        selectedUsers := [];
      } else {
        selectedUsers := Ids(sorted);
      }
    }
  }
}
