/**
 * The package-history screen: search over RWB, package type and the
 * counterpart's name, a filter key, the statistics, the person shown on each
 * card and the empty-state text.
 */
module History {
  import opened Wrappers
  import opened Strings
  import opened Seqs

  datatype Direction = Sent | Received

  datatype HistoryStatus = Delivered | Cancelled | Returned

  datatype HistoryItem = HistoryItem(
    id: int, rwb: string, kind: Direction,
    destination: Option<string>, source: Option<string>,
    status: HistoryStatus, date: string, packageType: string, weight: string,
    receiver: Option<string>, sender: Option<string>, deliveredAt: Option<string>)

  const HistoryData: seq<HistoryItem> := [
    HistoryItem(1, "RWB001", Sent, Some("Coimbatore"), None, Delivered, "2024-01-15", "Electronics", "2.5 kg", Some("Suresh Kumar"), None, Some("2024-01-16 10:30 AM")),
    HistoryItem(2, "RWB002", Sent, Some("Salem"), None, Delivered, "2024-01-14", "Documents", "0.5 kg", Some("Lakshmi Devi"), None, Some("2024-01-14 04:15 PM")),
    HistoryItem(3, "RWB003", Received, None, Some("Chennai"), Delivered, "2024-01-13", "Gift Items", "1.5 kg", None, Some("Ramesh Gupta"), Some("2024-01-13 02:45 PM")),
    HistoryItem(4, "RWB004", Received, None, Some("Madurai"), Delivered, "2024-01-12", "Books", "3.1 kg", None, Some("Deepa Raj"), Some("2024-01-12 11:20 AM")),
    HistoryItem(5, "RWB005", Sent, Some("Trichy"), None, Cancelled, "2024-01-10", "Medicines", "1.2 kg", Some("Karthik R"), None, None),
    HistoryItem(6, "RWB006", Sent, Some("Madurai"), None, Delivered, "2024-01-08", "Clothing", "2.8 kg", Some("Meera Nair"), None, Some("2024-01-09 09:15 AM")),
    HistoryItem(7, "RWB007", Received, None, Some("Coimbatore"), Returned, "2024-01-05", "Electronics", "1.8 kg", None, Some("Vijay Kumar"), None)]

  /** An optional name takes part in the search only when present. */
  predicate PersonMatches(person: Option<string>, query: string) {
    person.Some? && Contains(Lower(person.value), Lower(query))
  }

  predicate MatchesSearch(item: HistoryItem, query: string) {
    || Contains(Lower(item.rwb), Lower(query))
    || Contains(Lower(item.packageType), Lower(query))
    || PersonMatches(item.receiver, query)
    || PersonMatches(item.sender, query)
  }

  /** The filter tabs; any other key matches nothing. */
  predicate MatchesFilter(item: HistoryItem, key: string) {
    || key == "all"
    || (key == "sent" && item.kind == Sent)
    || (key == "received" && item.kind == Received)
    || (key == "delivered" && item.status == Delivered)
    || (key == "cancelled" && item.status == Cancelled)
  }

  function Keeps(query: string, key: string): HistoryItem -> bool {
    (item: HistoryItem) => MatchesSearch(item, query) && MatchesFilter(item, key)
  }

  /** `filteredHistory`: the items matching the search and the filter, in their original order. */
  function FilteredHistory(items: seq<HistoryItem>, query: string, key: string): (r: seq<HistoryItem>)
    ensures IsSubsequence(r, items)
    ensures forall item :: item in r <==> item in items && MatchesSearch(item, query) && MatchesFilter(item, key)
    ensures forall item ::
              multiset(r)[item] == if MatchesSearch(item, query) && MatchesFilter(item, key) then multiset(items)[item] else 0
  {
    FilterCounts(items, Keeps(query, key));
    Filter(items, Keeps(query, key))
  }

  /** The search is case-insensitive: queries equal up to case find the same items. */
  lemma SearchIgnoresCase(item: HistoryItem, query: string, other: string)
    requires Lower(query) == Lower(other)
    ensures MatchesSearch(item, query) == MatchesSearch(item, other)
  {
  }

  /** An item without receiver and sender is found only through its RWB or package type. */
  lemma AbsentPersonsNeverMatch(item: HistoryItem, query: string)
    requires item.receiver.None? && item.sender.None?
    ensures MatchesSearch(item, query) <==>
      Contains(Lower(item.rwb), Lower(query)) || Contains(Lower(item.packageType), Lower(query))
  {
  }

  /** A returned item can only be listed under the 'all', 'sent' and 'received' tabs. */
  lemma ReturnedOnlyUnderDirectionTabs(items: seq<HistoryItem>, query: string, key: string)
    ensures forall item :: item in FilteredHistory(items, query, key) && item.status == Returned ==>
      key == "all" || key == "sent" || key == "received"
  {
  }

  /** With an empty query and the 'all' tab, every item is listed. */
  lemma EmptyQueryAllListsEverything(items: seq<HistoryItem>)
    ensures FilteredHistory(items, "", "all") == items
  {
    assert Lower("") == "";
    FilterAll(items, Keeps("", "all"));
  }

  function IsSent(item: HistoryItem): bool { item.kind == Sent }

  function IsReceived(item: HistoryItem): bool { item.kind == Received }

  function IsDelivered(item: HistoryItem): bool { item.status == Delivered }

  datatype Stats = Stats(total: nat, delivered: nat, sent: nat, received: nat)

  /** `stats`: sent and received add up to the total, delivered items are at most the total. */
  function HistoryStats(items: seq<HistoryItem>): (s: Stats)
    ensures s.total == |items|
    ensures s.sent + s.received == s.total
    ensures s.delivered <= s.total
  {
    CountComplement(items, IsSent, IsReceived);
    Stats(|items|, Count(items, IsDelivered), Count(items, IsSent), Count(items, IsReceived))
  }

  /** The counterpart on a card: the receiver of a sent item, the sender of a received one. */
  function PersonShown(item: HistoryItem): (person: Option<string>)
    ensures item.kind == Sent ==> person == item.receiver
    ensures item.kind == Received ==> person == item.sender
  {
    if item.kind == Sent then item.receiver else item.sender
  }

  const NoMatchText := "No packages match your search criteria."
  const NoHistoryText := "You haven't sent or received any packages yet."

  /** The empty-state text, shown only when nothing is listed; it depends only on whether a query was typed. */
  function EmptyState(listed: seq<HistoryItem>, query: string): (text: Option<string>)
    ensures text.Some? <==> listed == []
    ensures text.Some? ==> text.value == if query != "" then NoMatchText else NoHistoryText
  {
    if |listed| == 0 then Some(if query != "" then NoMatchText else NoHistoryText) else None
  }

  /** The empty state never shows on a non-empty history before anything is typed on the 'all' tab. */
  lemma NoEmptyStateOnFirstView(items: seq<HistoryItem>)
    requires items != []
    ensures EmptyState(FilteredHistory(items, "", "all"), "") == None
  {
    EmptyQueryAllListsEverything(items);
  }
}
