/**
 * The pickup-point editor: a list of points updated by id (add, replace,
 * delete, activate/deactivate), the header statistics and the upper-cased
 * point code.
 */
module PickupPoints {
  import opened Wrappers
  import opened Strings
  import opened Seqs

  datatype PickupPoint = PickupPoint(
    id: int, name: string, code: string, address: string, phone: string, active: bool, routes: int)

  /** The add form (`newPoint`). */
  datatype PointForm = PointForm(name: string, code: string, address: string, phone: string)

  const EmptyForm := PointForm("", "", "", "")

  const InitialPoints: seq<PickupPoint> := [
    PickupPoint(1, "Chennai Koyambedu Bus Stand", "CHN001", "Koyambedu, Chennai - 600107", "+91 44 2679 2345", true, 15),
    PickupPoint(2, "Coimbatore Central Bus Stand", "CBE001", "Central Bus Stand, Coimbatore - 641001", "+91 422 2345 678", true, 12),
    PickupPoint(3, "Madurai Central Bus Stand", "MDU001", "Mattuthavani, Madurai - 625020", "+91 452 2345 789", true, 10),
    PickupPoint(4, "Salem Central Bus Stand", "SLM001", "Central Bus Stand, Salem - 636001", "+91 427 2345 678", true, 8),
    PickupPoint(5, "Trichy Central Bus Stand", "TRY001", "Central Bus Stand, Trichy - 620001", "+91 431 2345 678", false, 6)]

  predicate FormComplete(f: PointForm) {
    f.name != "" && f.code != "" && f.address != "" && f.phone != ""
  }

  /** `handleAddPoint` on the list: an incomplete form changes nothing, a complete one appends an active point with no routes. */
  function AddPoint(points: seq<PickupPoint>, form: PointForm): (r: seq<PickupPoint>)
    ensures !FormComplete(form) ==> r == points
    ensures FormComplete(form) ==>
      |r| == |points| + 1 && r[..|points|] == points &&
      r[|points|] == PickupPoint(|points| + 1, form.name, form.code, form.address, form.phone, true, 0)
  {
    if !FormComplete(form) then points
    else points + [PickupPoint(|points| + 1, form.name, form.code, form.address, form.phone, true, 0)]
  }

  function HasId(id: int): PickupPoint -> bool {
    (p: PickupPoint) => p.id == id
  }

  function LacksId(id: int): PickupPoint -> bool {
    (p: PickupPoint) => p.id != id
  }

  /** `handleUpdatePoint` on the list: every point with the selected id becomes the selected point. */
  function UpdatePoint(points: seq<PickupPoint>, selected: Option<PickupPoint>): (r: seq<PickupPoint>)
    ensures |r| == |points|
    ensures selected.None? ==> r == points
    ensures selected.Some? ==> forall i :: 0 <= i < |points| ==>
      (points[i].id == selected.value.id ==> r[i] == selected.value) &&
      (points[i].id != selected.value.id ==> r[i] == points[i])
  {
    if selected.None? then points
    else Map(points, (p: PickupPoint) => if p.id == selected.value.id then selected.value else p)
  }

  /** The confirmed branch of `handleDeletePoint`: the points with another id, in their order. */
  function DeletePoint(points: seq<PickupPoint>, id: int): (r: seq<PickupPoint>)
    ensures forall p :: p in r <==> p in points && p.id != id
    ensures IsSubsequence(r, points)
    ensures |r| + Count(points, HasId(id)) == |points|
  {
    CountComplement(points, LacksId(id), HasId(id));
    Filter(points, LacksId(id))
  }

  /** `togglePointStatus`: flips `active` on the points with the id, and nothing else. */
  function TogglePoint(points: seq<PickupPoint>, id: int): (r: seq<PickupPoint>)
    ensures |r| == |points|
    ensures forall i :: 0 <= i < |points| ==>
      (points[i].id == id ==> r[i] == points[i].(active := !points[i].active)) &&
      (points[i].id != id ==> r[i] == points[i])
  {
    Map(points, (p: PickupPoint) => if p.id == id then p.(active := !p.active) else p)
  }

  /** Toggling the same id twice restores the list. */
  lemma ToggleTwice(points: seq<PickupPoint>, id: int)
    ensures TogglePoint(TogglePoint(points, id), id) == points
  {
    var r := TogglePoint(TogglePoint(points, id), id);
    assert forall i :: 0 <= i < |points| ==> r[i] == points[i];
  }

  function IsActive(p: PickupPoint): bool { p.active }

  function RoutesOf(p: PickupPoint): int { p.routes }

  /** "Active Points". */
  function ActiveCount(points: seq<PickupPoint>): (n: nat)
    ensures n <= |points|
  {
    Count(points, IsActive)
  }

  /** "Total Routes": when no point has a negative route count, the total is at least each point's routes. */
  function TotalRoutes(points: seq<PickupPoint>): (t: int)
    ensures (forall i :: 0 <= i < |points| ==> points[i].routes >= 0) ==>
      t >= 0 && forall i :: 0 <= i < |points| ==> points[i].routes <= t
  {
    assert (forall i :: 0 <= i < |points| ==> points[i].routes >= 0) ==>
      Sum(points, RoutesOf) >= 0 && forall i :: 0 <= i < |points| ==> RoutesOf(points[i]) <= Sum(points, RoutesOf) by {
      if forall i :: 0 <= i < |points| ==> points[i].routes >= 0 {
        SumBoundsTerms(points, RoutesOf);
      }
    }
    Sum(points, RoutesOf)
  }

  /** A new point is active and has no routes: one more active point, the same total routes. */
  lemma AddPointStats(points: seq<PickupPoint>, form: PointForm)
    requires FormComplete(form)
    ensures ActiveCount(AddPoint(points, form)) == ActiveCount(points) + 1
    ensures TotalRoutes(AddPoint(points, form)) == TotalRoutes(points)
  {
    var p := PickupPoint(|points| + 1, form.name, form.code, form.address, form.phone, true, 0);
    FilterAppend(points, [p], IsActive);
    SumAppend(points, [p], RoutesOf);
  }

  /** Activating or deactivating a point never changes the total routes. */
  lemma {:induction false} ToggleKeepsRoutes(points: seq<PickupPoint>, id: int)
    ensures TotalRoutes(TogglePoint(points, id)) == TotalRoutes(points)
    decreases |points|
  {
    if points != [] {
      ToggleKeepsRoutes(points[1..], id);
      assert TogglePoint(points, id)[1..] == TogglePoint(points[1..], id);
    }
  }

  /**
   * The id rule `length + 1` can repeat an id: when the last point carries id
   * `length` (as in the initial list) and exactly one other point is deleted,
   * the next point added gets the id of a point still in the list.
   */
  lemma AddAfterDeleteRepeatsId(points: seq<PickupPoint>, id: int, form: PointForm)
    requires FormComplete(form) && |points| > 0
    requires points[|points| - 1].id == |points| != id
    requires Count(points, HasId(id)) == 1
    ensures var r := AddPoint(DeletePoint(points, id), form);
            exists j :: 0 <= j < |r| - 1 && r[j].id == r[|r| - 1].id
  {
    var d := DeletePoint(points, id);
    var last := points[|points| - 1];
    assert last in d;
    var j :| 0 <= j < |d| && d[j] == last;
    var r := AddPoint(d, form);
    assert r[j] == last && r[|r| - 1].id == |points|;
  }

  /** Typing into the code field stores the text upper-cased. */
  function WithCode(form: PointForm, text: string): (r: PointForm)
    ensures r.(code := form.code) == form
    ensures |r.code| == |text| && forall i :: 0 <= i < |text| ==> !IsLowerAscii(r.code[i])
    ensures Lower(r.code) == Lower(text)
  {
    LowerOfUpper(text);
    form.(code := Upper(text))
  }

  /** The text inputs stored as typed; the code input is the upper-casing one above. */
  datatype TextField = Name | Address | Phone

  function FormText(form: PointForm, field: TextField): string {
    match field
    case Name => form.name
    case Address => form.address
    case Phone => form.phone
  }

  function PointText(point: PickupPoint, field: TextField): string {
    match field
    case Name => point.name
    case Address => point.address
    case Phone => point.phone
  }

  /** `setNewPoint({...newPoint, <field>: text})`: the field takes the text, the others keep theirs. */
  function WithFormText(form: PointForm, field: TextField, text: string): (r: PointForm)
    ensures FormText(r, field) == text
    ensures forall g :: g != field ==> FormText(r, g) == FormText(form, g)
    ensures r.code == form.code
  {
    match field
    case Name => form.(name := text)
    case Address => form.(address := text)
    case Phone => form.(phone := text)
  }

  /** `setSelectedPoint({...selectedPoint, <field>: text})`: the field takes the text; id, code, status and routes are kept. */
  function WithPointText(point: PickupPoint, field: TextField, text: string): (r: PickupPoint)
    ensures PointText(r, field) == text
    ensures forall g :: g != field ==> PointText(r, g) == PointText(point, g)
    ensures r.id == point.id && r.code == point.code && r.active == point.active && r.routes == point.routes
  {
    match field
    case Name => point.(name := text)
    case Address => point.(address := text)
    case Phone => point.(phone := text)
  }

  /** Typing the four inputs of an empty add form, in screen order. */
  function FilledForm(name: string, code: string, address: string, phone: string): PointForm {
    var f := WithFormText(EmptyForm, Name, name);
    var f := WithCode(f, code);
    var f := WithFormText(f, Address, address);
    WithFormText(f, Phone, phone)
  }

  /** A typed form is complete exactly when no input was left empty, and adding it appends those values. */
  lemma FilledFormAdds(points: seq<PickupPoint>, name: string, code: string, address: string, phone: string)
    ensures var f := FilledForm(name, code, address, phone);
      f == PointForm(name, Upper(code), address, phone) &&
      (FormComplete(f) <==> name != "" && code != "" && address != "" && phone != "")
    ensures name != "" && code != "" && address != "" && phone != "" ==>
      AddPoint(points, FilledForm(name, code, address, phone)) ==
        points + [PickupPoint(|points| + 1, name, Upper(code), address, phone, true, 0)]
  {
    var f := FilledForm(name, code, address, phone);
    assert FormText(f, Name) == name && FormText(f, Address) == address && FormText(f, Phone) == phone;
  }

  /** The screen's state, replaced by its handlers. */
  class PickupPointsScreen {
    var pickupPoints: seq<PickupPoint>
    var newPoint: PointForm
    var selectedPoint: Option<PickupPoint>

    constructor ()
      ensures pickupPoints == InitialPoints && newPoint == EmptyForm && selectedPoint == None
    {
      pickupPoints := InitialPoints;
      newPoint := EmptyForm;
      selectedPoint := None;
    }

    /** On an incomplete form only an alert is shown; on success the form is also reset. */
    method HandleAddPoint() returns (added: bool)
      modifies this
      ensures added == FormComplete(old(newPoint))
      ensures pickupPoints == AddPoint(old(pickupPoints), old(newPoint))
      ensures newPoint == if added then EmptyForm else old(newPoint)
      ensures selectedPoint == old(selectedPoint)
    {
      if !FormComplete(newPoint) {
        return false;
      }
      var point := PickupPoint(|pickupPoints| + 1, newPoint.name, newPoint.code, newPoint.address, newPoint.phone, true, 0);
      pickupPoints := pickupPoints + [point];
      newPoint := EmptyForm;
      added := true;
    }

    method HandleEditPoint(point: PickupPoint)
      modifies this
      ensures selectedPoint == Some(point)
      ensures pickupPoints == old(pickupPoints) && newPoint == old(newPoint)
    {
      selectedPoint := Some(point);
    }

    method HandleUpdatePoint()
      modifies this
      ensures pickupPoints == UpdatePoint(old(pickupPoints), old(selectedPoint))
      ensures newPoint == old(newPoint) && selectedPoint == old(selectedPoint)
    {
      pickupPoints := UpdatePoint(pickupPoints, selectedPoint);
    }

    /** The Delete button of the confirmation dialog. */
    method ConfirmDeletePoint(pointId: int)
      modifies this
      ensures pickupPoints == DeletePoint(old(pickupPoints), pointId)
      ensures newPoint == old(newPoint) && selectedPoint == old(selectedPoint)
    {
      pickupPoints := DeletePoint(pickupPoints, pointId);
    }

    method TogglePointStatus(pointId: int)
      modifies this
      ensures pickupPoints == TogglePoint(old(pickupPoints), pointId)
      ensures newPoint == old(newPoint) && selectedPoint == old(selectedPoint)
    {
      pickupPoints := TogglePoint(pickupPoints, pointId);
    }

    /** The code field of the add form. */
    method ChangeNewPointCode(text: string)
      modifies this
      ensures newPoint == WithCode(old(newPoint), text)
      ensures pickupPoints == old(pickupPoints) && selectedPoint == old(selectedPoint)
    {
      newPoint := newPoint.(code := Upper(text));
    }

    /** The name, address and phone inputs of the add form. */
    method ChangeNewPointText(field: TextField, text: string)
      modifies this
      ensures newPoint == WithFormText(old(newPoint), field, text)
      ensures pickupPoints == old(pickupPoints) && selectedPoint == old(selectedPoint)
    {
      newPoint := WithFormText(newPoint, field, text);
    }

    /** The name, address and phone inputs of the edit form, which is rendered only while a point is selected. */
    method ChangeSelectedText(field: TextField, text: string)
      requires selectedPoint.Some?
      modifies this
      ensures selectedPoint == Some(WithPointText(old(selectedPoint.value), field, text))
      ensures pickupPoints == old(pickupPoints) && newPoint == old(newPoint)
    {
      selectedPoint := Some(WithPointText(selectedPoint.value, field, text));
    }

    /** The code field of the edit form, which is rendered only while a point is selected. */
    method ChangeSelectedCode(text: string)
      requires selectedPoint.Some?
      modifies this
      ensures selectedPoint == Some(old(selectedPoint.value).(code := Upper(text)))
      ensures pickupPoints == old(pickupPoints) && newPoint == old(newPoint)
    {
      selectedPoint := Some(selectedPoint.value.(code := Upper(text)));
    }
  }
}
