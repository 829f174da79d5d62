/**
 * The bus-assignment screen: assignments whose status is advanced by id,
 * the transitions each card offers, the header statistics, the status
 * colour and the status label text.
 */
module BusAssignment {
  import opened Wrappers
  import opened Strings
  import opened Seqs

  datatype Status = Scheduled | InTransit | Completed

  /** The string literal each status is in the app. */
  function StatusName(s: Status): string {
    match s
    case Scheduled => "scheduled"
    case InTransit => "in-transit"
    case Completed => "completed"
  }

  datatype Assignment = Assignment(
    id: int, busNumber: string, route: string, departure: string, arrival: string,
    packages: int, capacity: int, driver: string, status: Status)

  const InitialAssignments: seq<Assignment> := [
    Assignment(1, "TN07AB1234", "Chennai → Coimbatore", "08:00 AM", "02:30 PM", 3, 15, "Rajesh Kumar", InTransit),
    Assignment(2, "TN09CD5678", "Madurai → Salem", "10:30 AM", "04:15 PM", 2, 12, "Suresh Babu", Scheduled),
    Assignment(3, "TN37EF9012", "Trichy → Chennai", "02:15 PM", "08:45 PM", 4, 18, "Murugan S", Scheduled),
    Assignment(4, "TN11GH3456", "Coimbatore → Madurai", "06:45 AM", "12:30 PM", 1, 10, "Karthik R", Completed)]

  const Gray := "#6b7280"

  /** `getStatusColor`: a colour per status name, gray for any other string. */
  function StatusColor(status: string): (c: string)
    ensures c == Gray <==> !exists s :: status == StatusName(s)
  {
    if status == "scheduled" then assert status == StatusName(Scheduled); "#2563EB"
    else if status == "in-transit" then assert status == StatusName(InTransit); "#F59E0B"
    else if status == "completed" then assert status == StatusName(Completed); "#10B981"
    else Gray
  }

  /** The three statuses are told apart by colour. */
  lemma StatusColorsDistinct(s: Status, t: Status)
    requires s != t
    ensures StatusColor(StatusName(s)) != StatusColor(StatusName(t))
  {
  }

  /** `s.replace(from, to)` with a one-character string pattern. */
  function ReplaceFirst(s: string, from: char, to: char): string
    decreases |s|
  {
    if s == [] then []
    else if s[0] == from then [to] + s[1..]
    else [s[0]] + ReplaceFirst(s[1..], from, to)
  }

  /** Only the first occurrence of `from` is replaced; everything else is kept. */
  lemma {:induction false} ReplaceFirstSpec(s: string, from: char, to: char)
    ensures |ReplaceFirst(s, from, to)| == |s|
    ensures forall i :: 0 <= i < |s| ==>
      ReplaceFirst(s, from, to)[i] == if s[i] == from && from !in s[..i] then to else s[i]
    ensures from !in s ==> ReplaceFirst(s, from, to) == s
    decreases |s|
  {
    if s != [] && s[0] != from {
      ReplaceFirstSpec(s[1..], from, to);
      assert forall i :: 1 <= i < |s| ==> s[..i] == [s[0]] + s[1..][..i - 1];
    }
  }

  /** The badge text: `charAt(0).toUpperCase() + slice(1).replace('-', ' ')`. */
  function StatusLabel(status: string): string {
    if status == [] then [] else [UpperChar(status[0])] + ReplaceFirst(status[1..], '-', ' ')
  }

  /** The label upper-cases the first character and turns only the first '-' after it into a space. */
  lemma StatusLabelSpec(status: string)
    ensures |StatusLabel(status)| == |status|
    ensures |status| > 0 ==> StatusLabel(status)[0] == UpperChar(status[0])
    ensures forall i :: 1 <= i < |status| ==>
      StatusLabel(status)[i] == if status[i] == '-' && '-' !in status[1..i] then ' ' else status[i]
  {
    if status != [] {
      ReplaceFirstSpec(status[1..], '-', ' ');
      assert forall i :: 1 <= i < |status| ==> status[1..][..i - 1] == status[1..i];
    }
  }

  /** 'in-transit' reads "In transit" on the badge. */
  lemma InTransitLabel()
    ensures StatusLabel("in-transit") == "In transit"
  {
    assert "in-transit"[1..] == "n-transit";
    assert "n-transit"[1..] == "-transit";
    assert ReplaceFirst("-transit", '-', ' ') == " transit";
    assert UpperChar('i') == 'I';
  }

  /** A status without '-' is only capitalised: "Scheduled". */
  lemma ScheduledLabel()
    ensures StatusLabel("scheduled") == "Scheduled"
  {
    assert "scheduled"[1..] == "cheduled";
    ReplaceFirstSpec("cheduled", '-', ' ');
    assert UpperChar('s') == 'S';
  }

  /** A status without '-' is only capitalised: "Completed". */
  lemma CompletedLabel()
    ensures StatusLabel("completed") == "Completed"
  {
    assert "completed"[1..] == "ompleted";
    ReplaceFirstSpec("ompleted", '-', ' ');
    assert UpperChar('c') == 'C';
  }

  /** The button each card offers: scheduled to in-transit, in-transit to completed, none when completed. */
  function OfferedTransition(s: Status): Option<Status> {
    match s
    case Scheduled => Some(InTransit)
    case InTransit => Some(Completed)
    case Completed => None
  }

  function Rank(s: Status): nat {
    match s
    case Scheduled => 0
    case InTransit => 1
    case Completed => 2
  }

  /** Offered transitions only move forward, one stage at a time, and never lead back to scheduled. */
  lemma OfferedTransitionsMoveForward(s: Status)
    ensures OfferedTransition(s).Some? <==> s != Completed
    ensures OfferedTransition(s).Some? ==>
      Rank(OfferedTransition(s).value) == Rank(s) + 1 && OfferedTransition(s).value != Scheduled
  {
  }

  /** `handleUpdateStatus`: only the status of the assignments with the id changes. */
  function UpdateStatus(assignments: seq<Assignment>, id: int, newStatus: Status): (r: seq<Assignment>)
    ensures |r| == |assignments|
    ensures forall i :: 0 <= i < |assignments| ==>
      r[i].(status := assignments[i].status) == assignments[i] &&
      r[i].status == if assignments[i].id == id then newStatus else assignments[i].status
  {
    Map(assignments, (a: Assignment) => if a.id == id then a.(status := newStatus) else a)
  }

  function IsScheduled(a: Assignment): bool { a.status == Scheduled }

  function IsInTransit(a: Assignment): bool { a.status == InTransit }

  function PackagesOf(a: Assignment): int { a.packages }

  /** "Scheduled" plus "In Transit" never exceed the number of assignments. */
  lemma StatusCountsBounded(assignments: seq<Assignment>)
    ensures Count(assignments, IsScheduled) + Count(assignments, IsInTransit) <= |assignments|
  {
    CountDisjoint(assignments, IsScheduled, IsInTransit);
  }

  /** "Total Packages" is not changed by a status update. */
  lemma {:induction false} UpdateStatusKeepsPackages(assignments: seq<Assignment>, id: int, newStatus: Status)
    ensures Sum(UpdateStatus(assignments, id, newStatus), PackagesOf) == Sum(assignments, PackagesOf)
    decreases |assignments|
  {
    if assignments != [] {
      UpdateStatusKeepsPackages(assignments[1..], id, newStatus);
      assert UpdateStatus(assignments, id, newStatus)[1..] == UpdateStatus(assignments[1..], id, newStatus);
    }
  }

  /** The screen's state. */
  class BusAssignmentScreen {
    var busAssignments: seq<Assignment>
    var selectedAssignment: Option<Assignment>

    constructor ()
      ensures busAssignments == InitialAssignments && selectedAssignment == None
    {
      busAssignments := InitialAssignments;
      selectedAssignment := None;
    }

    method HandleEditAssignment(assignment: Assignment)
      modifies this
      ensures selectedAssignment == Some(assignment) && busAssignments == old(busAssignments)
    {
      selectedAssignment := Some(assignment);
    }

    method HandleUpdateStatus(assignmentId: int, newStatus: Status)
      modifies this
      ensures busAssignments == UpdateStatus(old(busAssignments), assignmentId, newStatus)
      ensures selectedAssignment == old(selectedAssignment)
    {
      busAssignments := UpdateStatus(busAssignments, assignmentId, newStatus);
    }

    /** The transition button on the card at index `i`, rendered only when the card's status offers one. */
    method PressTransition(i: nat)
      requires i < |busAssignments| && OfferedTransition(busAssignments[i].status).Some?
      modifies this
      ensures busAssignments == UpdateStatus(old(busAssignments), old(busAssignments[i].id),
                                             OfferedTransition(old(busAssignments[i].status)).value)
      ensures busAssignments[i].status == OfferedTransition(old(busAssignments[i].status)).value
      ensures selectedAssignment == old(selectedAssignment)
    {
      var a := busAssignments[i];
      HandleUpdateStatus(a.id, OfferedTransition(a.status).value);
    }

    /** Save in the assignment modal only closes it: no assignment changes. */
    method SaveAssignment()
      modifies this
      ensures busAssignments == old(busAssignments) && selectedAssignment == old(selectedAssignment)
    {
    }
  }
}
