/**
 * The tracking screen: the demo lookup from a typed id to one of two fixed
 * tracking records, the status colour, and the choice between the result
 * card, the "not found" card and the instructions.
 */
module Tracking {
  import opened Wrappers
  import opened Strings

  datatype TimelineEvent = TimelineEvent(location: string, time: string, status: string, completed: bool, current: Option<bool>)

  datatype PackageInfo = PackageInfo(kind: string, weight: string, sender: string, receiver: string)

  datatype TrackingRecord = TrackingRecord(
    rwb: string, status: string, currentLocation: string, route: string, bus: string,
    estimatedDelivery: Option<string>, deliveredAt: Option<string>,
    pkg: PackageInfo, timeline: seq<TimelineEvent>)

  const Rwb001Record := TrackingRecord(
    "RWB001", "In Transit", "Salem Central Bus Stand", "Chennai → Coimbatore", "TN07AB1234",
    Some("2024-01-16 10:30 AM"), None,
    PackageInfo("Electronics", "2.5 kg", "Ravi Kumar", "Suresh Kumar"),
    [TimelineEvent("Chennai Koyambedu", "2024-01-15 08:00 AM", "Package Booked", true, None),
     TimelineEvent("Chennai Koyambedu", "2024-01-15 09:15 AM", "Package Loaded", true, None),
     TimelineEvent("Tindivanam", "2024-01-15 11:30 AM", "In Transit", true, None),
     TimelineEvent("Salem Central", "2024-01-15 02:45 PM", "Package Transferred", true, None),
     TimelineEvent("Salem Central", "2024-01-15 03:30 PM", "Currently Here", false, Some(true)),
     TimelineEvent("Coimbatore Central", "2024-01-16 10:30 AM", "Expected Delivery", false, None)])

  const Rwb002Record := TrackingRecord(
    "RWB002", "Delivered", "Salem Central Bus Stand", "Madurai → Salem", "TN09CD5678",
    None, Some("2024-01-14 04:15 PM"),
    PackageInfo("Documents", "0.5 kg", "Priya Sharma", "Lakshmi Devi"),
    [TimelineEvent("Madurai Central", "2024-01-14 07:00 AM", "Package Booked", true, None),
     TimelineEvent("Madurai Central", "2024-01-14 08:30 AM", "Package Loaded", true, None),
     TimelineEvent("Dindigul", "2024-01-14 10:15 AM", "In Transit", true, None),
     TimelineEvent("Salem Central", "2024-01-14 03:45 PM", "Arrived at Destination", true, None),
     TimelineEvent("Salem Central", "2024-01-14 04:15 PM", "Package Delivered", true, Some(false))])

  /** The lookup of `handleTrack`: the first demo id found in the lower-cased input wins. */
  function Track(id: string): (r: Option<TrackingRecord>)
    ensures r == Some(Rwb001Record) <==> Contains(Lower(id), "rwb001")
    ensures r == Some(Rwb002Record) <==> !Contains(Lower(id), "rwb001") && Contains(Lower(id), "rwb002")
    ensures r == None <==> !Contains(Lower(id), "rwb001") && !Contains(Lower(id), "rwb002")
  {
    if Contains(Lower(id), "rwb001") then Some(Rwb001Record)
    else if Contains(Lower(id), "rwb002") then Some(Rwb002Record)
    else None
  }

  /** The lookup ignores case: an id, its lower-cased and its upper-cased form find the same record. */
  lemma TrackIgnoresCase(id: string)
    ensures Track(Lower(id)) == Track(id)
    ensures Track(Upper(id)) == Track(id)
  {
    LowerIdempotent(id);
    LowerOfUpper(id);
  }

  /** 'RWB001', 'rwb001' and 'xRwB001y' all find the RWB001 record. */
  lemma TrackDemoSpellings(upper: string, lower: string, embedded: string)
    requires upper == "RWB001" && lower == "rwb001" && embedded == "xRwB001y"
    ensures Track(upper) == Track(lower) == Track(embedded) == Some(Rwb001Record)
  {
    assert Lower(upper) == lower;
    assert Lower(lower) == lower;
    assert IsPrefix(lower, lower);
    assert Lower(embedded) == "xrwb001y";
    ContainsAt("xrwb001y", "rwb001", 1);
  }

  /** An id holding both demo ids finds RWB001. */
  lemma TrackBothIds(id: string)
    requires Contains(Lower(id), "rwb001") && Contains(Lower(id), "rwb002")
    ensures Track(id) == Some(Rwb001Record)
  {
  }

  /** ... also when "rwb002" comes first. */
  lemma TrackBothIdsRwb002First(id: string)
    requires id == "rwb002 rwb001"
    ensures Contains(Lower(id), "rwb002") && Track(id) == Some(Rwb001Record)
  {
    assert Lower(id) == id;
    assert IsPrefix("rwb002", id);
    ContainsAt(id, "rwb001", 7);
  }

  /** An empty id finds nothing. */
  lemma TrackEmpty()
    ensures Track("") == None
  {
    assert Lower("") == "";
  }

  const Gray := "#6b7280"

  /** `getStatusColor`: compares the lower-cased status, gray for anything unknown. */
  function StatusColor(status: string): (c: string)
    ensures Lower(status) == "delivered" ==> c == "#10B981"
    ensures Lower(status) == "in transit" ==> c == "#F59E0B"
    ensures Lower(status) == "booked" ==> c == "#2563EB"
    ensures c == Gray <==> Lower(status) !in {"delivered", "in transit", "booked"}
  {
    var s := Lower(status);
    if s == "delivered" then "#10B981"
    else if s == "in transit" then "#F59E0B"
    else if s == "booked" then "#2563EB"
    else Gray
  }

  /** The colour depends only on the lower-cased status. */
  lemma StatusColorIgnoresCase(status: string, other: string)
    requires Lower(status) == Lower(other)
    ensures StatusColor(status) == StatusColor(other)
  {
  }

  /** The three known statuses get three different colours, none of them gray. */
  lemma StatusColorsDistinct(status: string, other: string)
    requires Lower(status) in {"delivered", "in transit", "booked"}
    requires Lower(other) in {"delivered", "in transit", "booked"}
    ensures StatusColor(status) != Gray
    ensures StatusColor(status) == StatusColor(other) <==> Lower(status) == Lower(other)
  {
  }

  /** The two demo records get the delivered and in-transit colours. */
  lemma DemoStatusColors()
    ensures StatusColor(Rwb001Record.status) == "#F59E0B"
    ensures StatusColor(Rwb002Record.status) == "#10B981"
  {
    assert Lower("In Transit") == "in transit";
    assert Lower("Delivered") == "delivered";
  }

  /** What the content area shows. */
  datatype TrackingView = ResultCard(record: TrackingRecord) | NotFound | Instructions

  /** The result when there is one; otherwise "not found" once an id was typed; otherwise the instructions. */
  function View(trackingId: string, result: Option<TrackingRecord>): (v: TrackingView)
    ensures v.ResultCard? <==> result.Some?
    ensures v == NotFound <==> result.None? && trackingId != ""
    ensures v == Instructions <==> result.None? && trackingId == ""
  {
    if result.Some? then ResultCard(result.value)
    else if trackingId != "" then NotFound
    else Instructions
  }

  /** Right after Track, the instructions show iff the id is empty, "not found" iff it holds neither demo id. */
  lemma ViewAfterTrack(id: string)
    ensures View(id, Track(id)) == Instructions <==> id == ""
    ensures View(id, Track(id)) == NotFound <==>
      id != "" && !Contains(Lower(id), "rwb001") && !Contains(Lower(id), "rwb002")
  {
    if id == "" {
      TrackEmpty();
    }
  }

  /** The screen's state. */
  class TrackingScreen {
    var trackingId: string
    var trackingResult: Option<TrackingRecord>

    constructor ()
      ensures trackingId == "" && trackingResult == None
    {
      trackingId := "";
      trackingResult := None;
    }

    method SetTrackingId(text: string)
      modifies this
      ensures trackingId == text && trackingResult == old(trackingResult)
    {
      trackingId := text;
    }

    method HandleTrack()
      modifies this
      ensures trackingResult == Track(trackingId) && trackingId == old(trackingId)
    {
      var id := Lower(trackingId);
      if Contains(id, "rwb001") {
        trackingResult := Some(Rwb001Record);
      } else if Contains(id, "rwb002") {
        trackingResult := Some(Rwb002Record);
      } else {
        trackingResult := None;
      }
    }

    /** What the screen shows now; the result may be older than the id typed since. */
    function CurrentView(): (v: TrackingView)
      reads this
      ensures v.ResultCard? ==> trackingResult == Some(v.record)
      ensures v == NotFound <==> trackingResult.None? && trackingId != ""
      ensures v == Instructions <==> trackingResult.None? && trackingId == ""
    {
      View(trackingId, trackingResult)
    }
  }
}
