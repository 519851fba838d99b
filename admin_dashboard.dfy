/** `AdminDashboard`: the administrator's view of account requests, user
    accounts and a snapshot of the database tables. The backend queries are
    inputs; what is modelled is how their results are merged, filtered,
    counted and labelled. */
module AdminDashboard {
  import opened Common

  /** A row of `account_requests`. */
  datatype AccountRequest = AccountRequest(id: string, email: string, displayName: string, status: string)

  /** A row of `profiles`: `user_id, display_name, created_at`. */
  datatype Profile = Profile(userId: string, displayName: Option<string>, createdAt: string)

  /** A row of `user_roles`: `user_id, role`. */
  datatype RoleRow = RoleRow(userId: string, role: string)

  /** One entry of the accounts table the dashboard shows. */
  datatype UserAccount = UserAccount(id: string, email: string, displayName: string, role: string,
                                     createdAt: string, lastSignInAt: string)

  /** A query's outcome: an error, or data that may be `null`. */
  datatype Fetch<T> = Failed | Fetched(data: Option<T>)

  const UNNAMED: string := "Utilisateur sans nom"
  const PENDING: string := "pending"

  // ---------------------------------------------------------------------------
  // The profile / role merge of `fetchUserAccounts`.

  /** The position `roles.find(r => r.user_id === userId)` stops at. */
  function FirstMatch(roles: seq<RoleRow>, userId: string): (r: Option<nat>)
    ensures r.None? <==> forall k :: 0 <= k < |roles| ==> roles[k].userId != userId
    ensures r.Some? ==>
      && r.value < |roles|
      && roles[r.value].userId == userId
      && forall j :: 0 <= j < r.value ==> roles[j].userId != userId
  {
    if roles == [] then None
    else if roles[0].userId == userId then Some(0)
    else match FirstMatch(roles[1..], userId)
      case None => None
      case Some(k) => Some(k + 1)
  }

  /** `roles?.find(r => r.user_id === userId)` */
  function FindRole(roles: Option<seq<RoleRow>>, userId: string): (r: Option<RoleRow>)
    ensures r.Some? ==> r.value.userId == userId
  {
    match roles
    case None => None
    case Some(rows) =>
      match FirstMatch(rows, userId)
      case None => None
      case Some(k) => Some(rows[k])
  }

  /** `userRole?.role || 'pending'`: a missing row or an empty role reads as pending. */
  function AccountRole(roles: Option<seq<RoleRow>>, userId: string): (r: string)
    ensures r != ""
  {
    match FindRole(roles, userId)
    case Some(row) => if row.role == "" then PENDING else row.role
    case None => PENDING
  }

  /** The role shown is that of the first row for the user; a user with no
      row, or no role table at all, is pending. */
  lemma AccountRoleIsFirstMatch(roles: seq<RoleRow>, userId: string, k: nat)
    requires k < |roles| && roles[k].userId == userId && roles[k].role != ""
    requires forall j :: 0 <= j < k ==> roles[j].userId != userId
    ensures AccountRole(Some(roles), userId) == roles[k].role
  {
    var m := FirstMatch(roles, userId);
    assert m.Some?;
    if m.value < k {
    } else if m.value > k {
    }
  }

  lemma AccountRoleUnmatched(roles: Option<seq<RoleRow>>, userId: string)
    requires roles.Some? ==> forall k :: 0 <= k < |roles.value| ==> roles.value[k].userId != userId
    ensures AccountRole(roles, userId) == PENDING
  {
  }

  /** `profile.display_name || 'Utilisateur sans nom'` */
  function DisplayName(name: Option<string>): (r: string)
    ensures r != ""
    ensures name.Some? && name.value != "" ==> r == name.value
    ensures name.None? || name.value == "" ==> r == UNNAMED
  {
    match name
    case Some(n) => if n == "" then UNNAMED else n
    case None => UNNAMED
  }

  /** The entry built for one profile. The email column shows the user id,
      and the last sign-in shows the creation date. */
  function MergeProfile(profile: Profile, roles: Option<seq<RoleRow>>): (a: UserAccount)
    ensures a.id == a.email == profile.userId
    ensures a.displayName == DisplayName(profile.displayName)
    ensures a.role == AccountRole(roles, profile.userId)
    ensures a.createdAt == a.lastSignInAt == profile.createdAt
  {
    UserAccount(profile.userId, profile.userId, DisplayName(profile.displayName),
                AccountRole(roles, profile.userId), profile.createdAt, profile.createdAt)
  }

  /** `profiles?.map(...) || []`: one entry per profile, in profile order. */
  function MergeAccounts(profiles: Option<seq<Profile>>, roles: Option<seq<RoleRow>>): (r: seq<UserAccount>)
    ensures profiles.None? ==> r == []
    ensures profiles.Some? ==> |r| == |profiles.value|
    ensures profiles.Some? ==> forall k :: 0 <= k < |r| ==>
      && r[k].id == profiles.value[k].userId
      && r[k].role == AccountRole(roles, profiles.value[k].userId)
      && r[k].displayName == DisplayName(profiles.value[k].displayName)
  {
    match profiles
    case None => []
    case Some(ps) => seq(|ps|, k requires 0 <= k < |ps| => MergeProfile(ps[k], roles))
  }

  // ---------------------------------------------------------------------------
  // Filters and counts.

  /** `accountRequests.filter(req => req.status === 'pending')` */
  function PendingRequests(requests: seq<AccountRequest>): (r: seq<AccountRequest>)
    ensures |r| <= |requests|
    ensures forall k :: 0 <= k < |r| ==> r[k].status == PENDING
    ensures forall x :: x in r <==> x in requests && x.status == PENDING
  {
    if requests == [] then []
    else (if requests[0].status == PENDING then [requests[0]] else []) + PendingRequests(requests[1..])
  }

  /** The filter keeps the requests' order: filtering a concatenation filters
      each part. */
  lemma {:induction false} PendingRequestsAppend(a: seq<AccountRequest>, b: seq<AccountRequest>)
    ensures PendingRequests(a + b) == PendingRequests(a) + PendingRequests(b)
  {
    if a == [] {
      assert a + b == b;
    } else {
      assert (a + b)[1..] == a[1..] + b;
      PendingRequestsAppend(a[1..], b);
    }
  }

  /** `userAccounts.filter(u => u.role === 'user').length` */
  function ActiveUserCount(accounts: seq<UserAccount>): (r: nat)
    ensures r <= |accounts|
  {
    if accounts == [] then 0
    else (if accounts[0].role == "user" then 1 else 0) + ActiveUserCount(accounts[1..])
  }

  /** Counting is additive, so an added account raises the count by one
      exactly when its role is `user`: admins and pending users never count. */
  lemma {:induction false} ActiveUserCountAppend(a: seq<UserAccount>, b: seq<UserAccount>)
    ensures ActiveUserCount(a + b) == ActiveUserCount(a) + ActiveUserCount(b)
  {
    if a == [] {
      assert a + b == b;
    } else {
      assert (a + b)[1..] == a[1..] + b;
      ActiveUserCountAppend(a[1..], b);
    }
  }

  lemma ActiveUserCountAdd(accounts: seq<UserAccount>, x: UserAccount)
    ensures ActiveUserCount(accounts + [x]) == ActiveUserCount(accounts) + (if x.role == "user" then 1 else 0)
  {
    ActiveUserCountAppend(accounts, [x]);
  }

  // ---------------------------------------------------------------------------
  // Badges.

  /** The request status badge text. */
  function StatusLabel(status: string): (text: string)
    ensures text == "Approuvé" <==> status == "approved"
    ensures text == "Rejeté" <==> status == "rejected"
    ensures text == "En attente" <==> status != "approved" && status != "rejected"
  {
    if status == "approved" then "Approuvé"
    else if status == "rejected" then "Rejeté"
    else "En attente"
  }

  /** The request status badge style. */
  function StatusVariant(status: string): (variant: string)
    ensures variant == "default" <==> status == "approved"
    ensures variant == "destructive" <==> status == "rejected"
    ensures variant == "secondary" <==> status != "approved" && status != "rejected"
  {
    if status == "approved" then "default"
    else if status == "rejected" then "destructive"
    else "secondary"
  }

  /** Approve and reject buttons appear only for a pending request. */
  function ShowsReviewButtons(status: string): bool
  {
    status == PENDING
  }

  /** The rows of the requests table that offer approve/reject buttons are
      exactly the requests counted on the "pending requests" card. */
  lemma ReviewButtonsOnPendingRequests(requests: seq<AccountRequest>)
    ensures forall r :: r in requests ==> (ShowsReviewButtons(r.status) <==> r in PendingRequests(requests))
  {
  }

  /** A request with buttons is labelled as waiting, but the converse fails:
      any status other than the three known ones is also labelled as waiting
      and gets no buttons. */
  lemma ReviewButtonsAndLabel(status: string)
    ensures ShowsReviewButtons(status) ==> StatusLabel(status) == "En attente"
    ensures StatusLabel("expired") == "En attente" && !ShowsReviewButtons("expired")
  {
  }

  /** The account role badge text. */
  function RoleLabel(role: string): (text: string)
    ensures text == "Admin" <==> role == "admin"
    ensures text == "Utilisateur" <==> role == "user"
    ensures text == "En attente" <==> role != "admin" && role != "user"
  {
    if role == "admin" then "Admin"
    else if role == "user" then "Utilisateur"
    else "En attente"
  }

  /** An account without a role row is shown as waiting. */
  lemma UnmatchedAccountShownWaiting(profile: Profile, roles: Option<seq<RoleRow>>)
    requires roles.Some? ==> forall k :: 0 <= k < |roles.value| ==> roles.value[k].userId != profile.userId
    ensures RoleLabel(MergeProfile(profile, roles).role) == "En attente"
  {
    AccountRoleUnmatched(roles, profile.userId);
  }

  // ---------------------------------------------------------------------------
  // The database snapshot of `fetchDatabaseData`.

  const VALID_TABLES: seq<string> := ["tracks", "presets", "profiles", "user_roles", "account_requests"]

  /** A table row, as column name to displayed value. */
  datatype Row = Row(cells: map<string, string>)

  /** The outcome of one `select('*').limit(100)` query. */
  datatype TableQuery = TableQuery(failed: bool, rows: Option<seq<Row>>)

  /** `!error && tableData`: an empty array still counts as data. */
  predicate Loaded(q: TableQuery)
  {
    !q.failed && q.rows.Some?
  }

  /** A JavaScript object from table names to rows: its keys in insertion
      order, and the entries. */
  datatype Snapshot = Snapshot(keys: seq<string>, tables: map<string, seq<Row>>)

  ghost predicate WellFormed(s: Snapshot)
  {
    && (forall t :: t in s.tables <==> t in s.keys)
    && (forall a, b :: 0 <= a < b < |s.keys| ==> s.keys[a] != s.keys[b])
  }

  /** `data[key] = rows`: a new key goes to the end of the key order. */
  function Put(s: Snapshot, key: string, rows: seq<Row>): (r: Snapshot)
    requires WellFormed(s)
    ensures WellFormed(r)
    ensures r.tables == s.tables[key := rows]
    ensures key in s.tables ==> r.keys == s.keys
    ensures key !in s.tables ==> r.keys == s.keys + [key]
  {
    if key in s.tables then Snapshot(s.keys, s.tables[key := rows])
    else Snapshot(s.keys + [key], s.tables[key := rows])
  }

  /** The tables that made it into the snapshot, in the order they were queried. */
  function SnapshotKeys(tables: seq<string>, results: seq<TableQuery>): (r: seq<string>)
    requires |results| == |tables|
    ensures |r| <= |tables|
    ensures forall t :: t in r ==> t in tables
  {
    if tables == [] then []
    else
      var n := |tables| - 1;
      SnapshotKeys(tables[..n], results[..n]) + (if Loaded(results[n]) then [tables[n]] else [])
  }

  predicate Distinct(names: seq<string>)
  {
    forall a, b :: 0 <= a < b < |names| ==> names[a] != names[b]
  }

  lemma ValidTablesDistinct()
    ensures Distinct(VALID_TABLES)
  {
    forall a, b | 0 <= a < b < |VALID_TABLES|
      ensures VALID_TABLES[a] != VALID_TABLES[b]
    {
      assert VALID_TABLES[a][0] != VALID_TABLES[b][0] || |VALID_TABLES[a]| != |VALID_TABLES[b]|;
    }
  }

  /** The snapshot after querying `tables` in order: a table is put in only
      when its query returned data without error. */
  function Collected(tables: seq<string>, results: seq<TableQuery>): (r: Snapshot)
    requires |results| == |tables|
    ensures WellFormed(r)
    ensures forall t :: t in r.tables ==> t in tables
  {
    if tables == [] then Snapshot([], map[])
    else
      var n := |tables| - 1;
      var before := Collected(tables[..n], results[..n]);
      if Loaded(results[n]) then Put(before, tables[n], results[n].rows.value) else before
  }

  /** With distinct table names, the snapshot holds exactly the loaded tables,
      each with its own rows, keyed in query order. */
  lemma {:induction false} CollectedContents(tables: seq<string>, results: seq<TableQuery>)
    requires |results| == |tables|
    requires Distinct(tables)
    ensures Collected(tables, results).keys == SnapshotKeys(tables, results)
    ensures forall k :: 0 <= k < |tables| ==>
      (tables[k] in Collected(tables, results).tables <==> Loaded(results[k]))
    ensures forall k :: 0 <= k < |tables| && Loaded(results[k]) ==>
      Collected(tables, results).tables[tables[k]] == results[k].rows.value
  {
    if tables != [] {
      var n := |tables| - 1;
      var front, fronts := tables[..n], results[..n];
      assert Distinct(front);
      CollectedContents(front, fronts);
      var before := Collected(front, fronts);
      var after := Collected(tables, results);
      assert after == if Loaded(results[n]) then Put(before, tables[n], results[n].rows.value) else before;
      assert tables[n] !in before.tables;
      forall k | 0 <= k < |tables|
        ensures tables[k] in after.tables <==> Loaded(results[k])
        ensures Loaded(results[k]) ==> after.tables[tables[k]] == results[k].rows.value
      {
        if k < n {
          assert tables[k] == front[k] && results[k] == fronts[k];
          assert tables[k] != tables[n];
        }
      }
    }
  }

  /** The loop of `fetchDatabaseData`: every table is queried in turn and kept
      when its query returned data without error. */
  method CollectTables(tables: seq<string>, results: seq<TableQuery>) returns (data: Snapshot)
    requires |results| == |tables|
    requires Distinct(tables)
    ensures data == Collected(tables, results)
    ensures WellFormed(data)
    ensures data.keys == SnapshotKeys(tables, results)
    ensures forall k :: 0 <= k < |tables| ==> (tables[k] in data.tables <==> Loaded(results[k]))
    ensures forall k :: 0 <= k < |tables| && Loaded(results[k]) ==>
      data.tables[tables[k]] == results[k].rows.value
  {
    data := Snapshot([], map[]);
    for i := 0 to |tables|
      invariant data == Collected(tables[..i], results[..i])
    {
      assert tables[..i + 1][..i] == tables[..i];
      assert results[..i + 1][..i] == results[..i];
      var query := results[i];
      if !query.failed && query.rows.Some? {
        data := Put(data, tables[i], query.rows.value);
      }
    }
    assert tables[..|tables|] == tables;
    assert results[..|results|] == results;
    CollectedContents(tables, results);
  }

  /** `databaseData[name]?.length || 0` */
  function TableCount(data: Snapshot, name: string): nat
  {
    if name in data.tables then |data.tables[name]| else 0
  }

  /** After a fetch, a table's count (the "Tracks" card for `tracks`) is the
      number of rows its query returned, or 0 when the query failed or gave
      no data. */
  lemma TableCountAfterFetch(results: seq<TableQuery>, k: nat)
    requires |results| == |VALID_TABLES| && k < |VALID_TABLES|
    ensures TableCount(Collected(VALID_TABLES, results), VALID_TABLES[k])
            == if Loaded(results[k]) then |results[k].rows.value| else 0
  {
    ValidTablesDistinct();
    CollectedContents(VALID_TABLES, results);
  }

  /** After a fetch, a table is offered for display first only when nothing
      was selected and the snapshot has a table. */
  function NextSelection(selected: string, data: Snapshot): (r: string)
    ensures selected != "" ==> r == selected
    ensures selected == "" && data.keys != [] ==> r == data.keys[0]
    ensures selected == "" && data.keys == [] ==> r == ""
  {
    if selected == "" && |data.keys| > 0 then data.keys[0] else selected
  }

  /** The dashboard's state that the fetches fill in. */
  class Dashboard {
    var accountRequests: seq<AccountRequest>
    var userAccounts: seq<UserAccount>
    var databaseData: Snapshot
    var selectedTable: string

    constructor ()
      ensures accountRequests == [] && userAccounts == []
      ensures databaseData == Snapshot([], map[]) && selectedTable == ""
    {
      accountRequests, userAccounts := [], [];
      databaseData, selectedTable := Snapshot([], map[]), "";
    }

    /** `fetchAccountRequests`: on error the list is kept; `null` data empties it. */
    method FetchAccountRequests(result: Fetch<seq<AccountRequest>>)
      modifies this`accountRequests
      ensures result.Failed? ==> accountRequests == old(accountRequests)
      ensures result == Fetched(None) ==> accountRequests == []
      ensures result.Fetched? && result.data.Some? ==> accountRequests == result.data.value
    {
      match result
      case Failed =>
      case Fetched(data) =>
        accountRequests := if data.Some? then data.value else [];
    }

    /** `fetchUserAccounts`: either query failing keeps the list; otherwise
        the list becomes the merge of profiles and roles. */
    method FetchUserAccounts(profiles: Fetch<seq<Profile>>, roles: Fetch<seq<RoleRow>>)
      modifies this`userAccounts
      ensures profiles.Failed? || roles.Failed? ==> userAccounts == old(userAccounts)
      ensures profiles.Fetched? && roles.Fetched? ==>
        userAccounts == MergeAccounts(profiles.data, roles.data)
    {
      if profiles.Failed? {
        return;
      }
      if roles.Failed? {
        return;
      }
      userAccounts := MergeAccounts(profiles.data, roles.data);
    }

    /** `fetchDatabaseData`: the new snapshot replaces the old one, and the
        selection moves to its first table only when nothing was selected. */
    method FetchDatabaseData(results: seq<TableQuery>)
      requires |results| == |VALID_TABLES|
      modifies this`databaseData, this`selectedTable
      ensures databaseData == Collected(VALID_TABLES, results)
      ensures databaseData.keys == SnapshotKeys(VALID_TABLES, results)
      ensures WellFormed(databaseData)
      ensures selectedTable == NextSelection(old(selectedTable), databaseData)
    {
      ValidTablesDistinct();
      var data := CollectTables(VALID_TABLES, results);
      databaseData := data;
      if selectedTable == "" && |data.keys| > 0 {
        selectedTable := data.keys[0];
      }
    }

    /** The "pending requests" statistic. */
    function PendingCount(): (r: nat)
      reads this
      ensures r <= |accountRequests|
    {
      |PendingRequests(accountRequests)|
    }

    /** The "active users" statistic. */
    function ActiveUsers(): (r: nat)
      reads this
      ensures r <= |userAccounts|
    {
      ActiveUserCount(userAccounts)
    }
  }
}
