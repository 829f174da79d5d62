/**
 * The user-log screen: search by name, e-mail or phone combined with a
 * filter key over a fixed list of users, and the statistics row.
 */
module UserLogs {
  import opened Strings
  import opened Seqs

  datatype Role = Customer | Receiver

  datatype UserStatus = Active | Inactive

  datatype UserLog = UserLog(
    id: int, name: string, email: string, phone: string, role: Role,
    totalPackagesSent: int, totalPackagesReceived: int,
    lastActivity: string, joinDate: string, status: UserStatus)

  const UserLogs: seq<UserLog> := [
    UserLog(1, "Ravi Kumar", "ravi.kumar@email.com", "+91 9876543210", Customer, 12, 8, "2024-01-15 10:30 AM", "2023-06-15", Active),
    UserLog(2, "Priya Sharma", "priya.sharma@email.com", "+91 9876543211", Customer, 5, 3, "2024-01-14 03:45 PM", "2023-08-22", Active),
    UserLog(3, "Suresh Kumar", "suresh.kumar@email.com", "+91 9876543212", Receiver, 2, 15, "2024-01-13 11:20 AM", "2023-04-10", Active),
    UserLog(4, "Lakshmi Devi", "lakshmi.devi@email.com", "+91 9876543213", Receiver, 1, 7, "2024-01-12 09:15 AM", "2023-09-05", Active),
    UserLog(5, "Arjun Raj", "arjun.raj@email.com", "+91 9876543214", Customer, 8, 4, "2024-01-10 02:30 PM", "2023-07-18", Inactive)]

  /** Name and e-mail are compared lower-cased. */
  predicate NameOrEmailMatches(u: UserLog, query: string) {
    Contains(Lower(u.name), Lower(query)) || Contains(Lower(u.email), Lower(query))
  }

  /** The phone is compared as typed. */
  predicate MatchesSearch(u: UserLog, query: string) {
    NameOrEmailMatches(u, query) || Contains(u.phone, query)
  }

  /** The filter keys of the filter modal; any other key matches nobody. */
  predicate MatchesFilter(u: UserLog, key: string) {
    || key == "all"
    || (key == "customers" && u.role == Customer)
    || (key == "receivers" && u.role == Receiver)
    || (key == "active" && u.status == Active)
    || (key == "inactive" && u.status == Inactive)
  }

  function Keeps(query: string, key: string): UserLog -> bool {
    (u: UserLog) => MatchesSearch(u, query) && MatchesFilter(u, key)
  }

  /** `filteredUsers`: the users matching both the search and the filter, in their original order. */
  function FilteredUsers(users: seq<UserLog>, query: string, key: string): (r: seq<UserLog>)
    ensures IsSubsequence(r, users)
    ensures forall u :: u in r <==> u in users && MatchesSearch(u, query) && MatchesFilter(u, key)
    ensures forall u ::
              multiset(r)[u] == if MatchesSearch(u, query) && MatchesFilter(u, key) then multiset(users)[u] else 0
  {
    FilterCounts(users, Keeps(query, key));
    Filter(users, Keeps(query, key))
  }

  /** The empty query matches every user. */
  lemma EmptyQueryMatchesAll(u: UserLog)
    ensures MatchesSearch(u, "")
  {
    assert Lower("") == "";
  }

  /** With an empty query and filter 'all', every user is listed. */
  lemma EmptyQueryAllListsEveryone(users: seq<UserLog>)
    ensures FilteredUsers(users, "", "all") == users
  {
    forall u | u in users ensures Keeps("", "all")(u) {
      EmptyQueryMatchesAll(u);
    }
    FilterAll(users, Keeps("", "all"));
  }

  /** Name and e-mail matching ignores the case of the query. */
  lemma NameOrEmailIgnoresCase(u: UserLog, query: string)
    ensures NameOrEmailMatches(u, query) == NameOrEmailMatches(u, Lower(query))
  {
    LowerIdempotent(query);
  }

  /** Phone matching does not: "AB" finds a phone containing "AB", "ab" does not. */
  lemma PhoneMatchIsCaseSensitive()
    ensures var u := UserLog(9, "x", "y", "AB", Customer, 0, 0, "", "", Active);
            MatchesSearch(u, "AB") && !MatchesSearch(u, "ab")
  {
    assert Lower("x") == "x" && Lower("y") == "y" && Lower("ab") == "ab";
    assert IsPrefix("AB", "AB");
  }

  /** Filter 'all' keeps exactly the search matches; an unknown key keeps nothing. */
  lemma FilterKeys(users: seq<UserLog>, query: string, key: string)
    ensures forall u :: u in FilteredUsers(users, query, "all") <==> u in users && MatchesSearch(u, query)
    ensures key !in {"all", "customers", "receivers", "active", "inactive"} ==> FilteredUsers(users, query, key) == []
  {
    if key !in {"all", "customers", "receivers", "active", "inactive"} {
      FilterNone(users, Keeps(query, key));
    }
  }

  /** 'customers' and 'receivers' split the search matches between them, with no user in both. */
  lemma CustomersAndReceiversSplit(users: seq<UserLog>, query: string)
    ensures |FilteredUsers(users, query, "customers")| + |FilteredUsers(users, query, "receivers")|
         == |FilteredUsers(users, query, "all")|
    ensures forall u :: u in FilteredUsers(users, query, "customers") ==> u !in FilteredUsers(users, query, "receivers")
  {
    CountSplit(users, Keeps(query, "all"), Keeps(query, "customers"), Keeps(query, "receivers"));
  }

  function IsCustomer(u: UserLog): bool { u.role == Customer }

  function IsReceiver(u: UserLog): bool { u.role == Receiver }

  function IsActive(u: UserLog): bool { u.status == Active }

  /** The statistics row: customers and receivers add up to the total, active users are at most the total. */
  lemma UserStats(users: seq<UserLog>)
    ensures Count(users, IsCustomer) + Count(users, IsReceiver) == |users|
    ensures Count(users, IsActive) <= |users|
  {
    CountComplement(users, IsCustomer, IsReceiver);
  }
}
