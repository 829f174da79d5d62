/**
 * The three-step booking wizard of the new-booking screen: a ten-field draft,
 * a step counter starting at 1, per-step validation, Next/Back/Create Booking,
 * the drop-point option list and the RWB display id.
 */
module Booking {
  import opened Strings
  import opened Seqs

  /** The keys of the draft, as `keyof BookingData`. */
  datatype Field =
    | PickupPoint | DropPoint | PackageType | Weight | Volume | Description
    | ReceiverName | ReceiverPhone | ReceiverEmail | PackageCategory

  datatype BookingData = BookingData(
    pickupPoint: string,
    dropPoint: string,
    packageType: string,
    weight: string,
    volume: string,
    description: string,
    receiverName: string,
    receiverPhone: string,
    receiverEmail: string,
    packageCategory: string)

  const EmptyDraft := BookingData("", "", "", "", "", "", "", "", "", "")

  function Get(d: BookingData, f: Field): string {
    match f
    case PickupPoint => d.pickupPoint
    case DropPoint => d.dropPoint
    case PackageType => d.packageType
    case Weight => d.weight
    case Volume => d.volume
    case Description => d.description
    case ReceiverName => d.receiverName
    case ReceiverPhone => d.receiverPhone
    case ReceiverEmail => d.receiverEmail
    case PackageCategory => d.packageCategory
  }

  /** `handleInputChange`: `{ ...prev, [field]: value }`. */
  function SetField(d: BookingData, f: Field, v: string): (r: BookingData)
    ensures Get(r, f) == v
    ensures forall g :: g != f ==> Get(r, g) == Get(d, g)
  {
    match f
    case PickupPoint => d.(pickupPoint := v)
    case DropPoint => d.(dropPoint := v)
    case PackageType => d.(packageType := v)
    case Weight => d.(weight := v)
    case Volume => d.(volume := v)
    case Description => d.(description := v)
    case ReceiverName => d.(receiverName := v)
    case ReceiverPhone => d.(receiverPhone := v)
    case ReceiverEmail => d.(receiverEmail := v)
    case PackageCategory => d.(packageCategory := v)
  }

  /** `validateStep`: a non-empty string is truthy, any other step number fails. */
  predicate ValidateStep(d: BookingData, step: int)
  {
    if step == 1 then d.pickupPoint != "" && d.dropPoint != "" && d.pickupPoint != d.dropPoint
    else if step == 2 then d.packageCategory != "" && d.packageType != "" && d.weight != "" && d.description != ""
    else if step == 3 then d.receiverName != "" && d.receiverPhone != "" && d.receiverEmail != ""
    else false
  }

  /** The wizard step whose form holds the field. */
  function StepOf(f: Field): (step: int)
    ensures 1 <= step <= 3
  {
    match f
    case PickupPoint | DropPoint => 1
    case PackageCategory | PackageType | Weight | Volume | Description => 2
    case ReceiverName | ReceiverPhone | ReceiverEmail => 3
  }

  /** Step 1 passes iff both points are chosen and differ. */
  lemma Step1Iff(d: BookingData)
    ensures ValidateStep(d, 1) <==> d.pickupPoint != "" && d.dropPoint != "" && d.pickupPoint != d.dropPoint
  {
  }

  /** Step 2 needs category, type, weight and description; step 3 needs the three receiver fields. */
  lemma Steps2And3Iff(d: BookingData)
    ensures ValidateStep(d, 2) <==> forall f :: f in {PackageCategory, PackageType, Weight, Description} ==> Get(d, f) != ""
    ensures ValidateStep(d, 3) <==> forall f :: f in {ReceiverName, ReceiverPhone, ReceiverEmail} ==> Get(d, f) != ""
  {
    assert ValidateStep(d, 2) <== forall f :: f in {PackageCategory, PackageType, Weight, Description} ==> Get(d, f) != "" by {
      if forall f :: f in {PackageCategory, PackageType, Weight, Description} ==> Get(d, f) != "" {
        assert Get(d, PackageCategory) != "" && Get(d, PackageType) != "" && Get(d, Weight) != "" && Get(d, Description) != "";
      }
    }
    assert ValidateStep(d, 3) <== forall f :: f in {ReceiverName, ReceiverPhone, ReceiverEmail} ==> Get(d, f) != "" by {
      if forall f :: f in {ReceiverName, ReceiverPhone, ReceiverEmail} ==> Get(d, f) != "" {
        assert Get(d, ReceiverName) != "" && Get(d, ReceiverPhone) != "" && Get(d, ReceiverEmail) != "";
      }
    }
  }

  /** Only steps 1, 2 and 3 can validate. */
  lemma OtherStepsFail(d: BookingData, step: int)
    requires step < 1 || step > 3
    ensures !ValidateStep(d, step)
  {
  }

  /** Validation of a step reads only that step's fields; the volume is read by none. */
  lemma ValidationReadsOwnFields(d: BookingData, f: Field, v: string, step: int)
    requires StepOf(f) != step || f == Volume
    ensures ValidateStep(SetField(d, f, v), step) == ValidateStep(d, step)
  {
  }

  /** The wizard's state: the draft, `currentStep`, `generatedRWB`, `confirmationVisible`. */
  datatype WizardState = WizardState(data: BookingData, step: int, generatedRwb: string, confirmationVisible: bool)

  const InitialState := WizardState(EmptyDraft, 1, "", false)

  /** `nextStep`: one step forward when the current step validates, else nothing changes. */
  function NextStep(s: WizardState): (r: WizardState)
    ensures r.(step := s.step) == s
    ensures ValidateStep(s.data, s.step) ==> r.step == s.step + 1
    ensures !ValidateStep(s.data, s.step) ==> r == s
  {
    if ValidateStep(s.data, s.step) then s.(step := s.step + 1) else s
  }

  /** `prevStep`: one step back, with no validation and no change to the draft. */
  function PrevStep(s: WizardState): (r: WizardState)
    ensures r.(step := s.step) == s && r.step == s.step - 1
  {
    s.(step := s.step - 1)
  }

  /** `generateRWB`: "RWB" and the last six characters of the timestamp's decimal text (all of it when shorter). */
  function GenerateRwb(timestamp: nat): (r: string)
    ensures 4 <= |r| <= 9 && r[..3] == "RWB"
    ensures AllDigits(r[3..])
    ensures |r| - 3 <= |NatToString(timestamp)|
    ensures var t := NatToString(timestamp); r[3..] == t[|t| - (|r| - 3)..]
    ensures timestamp >= 100000 ==> |r| == 9
    ensures var t := NatToString(timestamp); |r| == 3 + (if |t| < 6 then |t| else 6)
  {
    var t := NatToString(timestamp);
    assert timestamp >= 100000 ==> |t| >= 6 by {
      if timestamp >= 100000 {
        NatToStringLengthAtLeast(timestamp, 5);
      }
    }
    var r := "RWB" + LastN(t, 6);
    assert r[3..] == LastN(t, 6);
    r
  }

  /** `handleBookingSubmit`: re-checks step 3 only, then records the id and shows the confirmation. */
  function Submit(s: WizardState, timestamp: nat): (r: WizardState)
    ensures ValidateStep(s.data, 3) ==> r == s.(generatedRwb := GenerateRwb(timestamp), confirmationVisible := true)
    ensures !ValidateStep(s.data, 3) ==> r == s
  {
    if ValidateStep(s.data, 3) then s.(generatedRwb := GenerateRwb(timestamp), confirmationVisible := true) else s
  }

  /** Submit succeeds on a draft whose route was never chosen: earlier steps are not re-checked. */
  lemma SubmitRechecksStep3Only()
    ensures var d := EmptyDraft.(receiverName := "A", receiverPhone := "1", receiverEmail := "a@b");
            var s := WizardState(d, 3, "", false);
            !ValidateStep(d, 1) && !ValidateStep(d, 2) && Submit(s, 1700000123456).confirmationVisible
  {
  }

  /** What the user can do on the screen. */
  datatype Event =
    | Input(field: Field, value: string)
    | PressNext
    | PressBack
    | PressSubmit(timestamp: nat)
    | DismissConfirmation

  /**
   * The render guards: a field's input (and the point modals it opens) only on its own step's
   * form, Back only when step > 1, Next only when step < 3, Create Booking otherwise.
   */
  predicate Offered(s: WizardState, e: Event) {
    match e
    case Input(f, _) => StepOf(f) == s.step
    case PressNext => s.step < 3
    case PressBack => s.step > 1
    case PressSubmit(_) => !(s.step < 3)
    case DismissConfirmation => true
  }

  /** One user action; a button that is not rendered cannot be pressed, so nothing happens. */
  function Apply(s: WizardState, e: Event): WizardState {
    if !Offered(s, e) then s
    else match e
      case Input(f, v) => s.(data := SetField(s.data, f, v))
      case PressNext => NextStep(s)
      case PressBack => PrevStep(s)
      case PressSubmit(ts) => Submit(s, ts)
      case DismissConfirmation => s.(confirmationVisible := false)
  }

  function Run(s: WizardState, es: seq<Event>): WizardState
    decreases |es|
  {
    if es == [] then s else Run(Apply(s, es[0]), es[1..])
  }

  lemma ApplyKeepsStepInRange(s: WizardState, e: Event)
    requires 1 <= s.step <= 3
    ensures 1 <= Apply(s, e).step <= 3
  {
  }

  /** From any step in 1..3 (the wizard starts at 1), every sequence of offered actions keeps the step in 1..3. */
  lemma {:induction false} RunKeepsStepInRange(s: WizardState, es: seq<Event>)
    requires 1 <= s.step <= 3
    ensures 1 <= Run(s, es).step <= 3
    decreases |es|
  {
    if es != [] {
      ApplyKeepsStepInRange(s, es[0]);
      RunKeepsStepInRange(Apply(s, es[0]), es[1..]);
    }
  }

  /** The step is in 1..3 and every step before it validates. */
  predicate StepsPassed(s: WizardState) {
    1 <= s.step <= 3 &&
    (s.step >= 2 ==> ValidateStep(s.data, 1)) &&
    (s.step >= 3 ==> ValidateStep(s.data, 2))
  }

  /** One offered action keeps the earlier steps valid: inputs only touch the current step's fields. */
  lemma ApplyKeepsStepsPassed(s: WizardState, e: Event)
    requires StepsPassed(s)
    ensures StepsPassed(Apply(s, e))
  {
    if e.Input? && Offered(s, e) {
      if s.step >= 2 {
        ValidationReadsOwnFields(s.data, e.field, e.value, 1);
      }
      if s.step >= 3 {
        ValidationReadsOwnFields(s.data, e.field, e.value, 2);
      }
    }
  }

  lemma {:induction false} RunKeepsStepsPassed(s: WizardState, es: seq<Event>)
    requires StepsPassed(s)
    ensures StepsPassed(Run(s, es))
    decreases |es|
  {
    if es != [] {
      ApplyKeepsStepsPassed(s, es[0]);
      RunKeepsStepsPassed(Apply(s, es[0]), es[1..]);
    }
  }

  /**
   * After any run from the initial screen, Create Booking shows the confirmation exactly when
   * all three steps validate; a draft failing step 1 or 2 is never submitted.
   */
  lemma SubmittedBookingPassedEveryStep(es: seq<Event>, timestamp: nat)
    ensures var s := Run(InitialState, es);
      Offered(s, PressSubmit(timestamp)) ==>
        (Apply(s, PressSubmit(timestamp)).confirmationVisible <==>
          s.confirmationVisible || (ValidateStep(s.data, 1) && ValidateStep(s.data, 2) && ValidateStep(s.data, 3)))
    ensures var s := Run(InitialState, es);
      !ValidateStep(s.data, 1) || !ValidateStep(s.data, 2) ==> Apply(s, PressSubmit(timestamp)) == s
  {
    RunKeepsStepsPassed(InitialState, es);
  }

  /** The same run never changes the draft except through input events. */
  lemma {:induction false} RunWithoutInputKeepsDraft(s: WizardState, es: seq<Event>)
    requires forall i :: 0 <= i < |es| ==> !es[i].Input?
    ensures Run(s, es).data == s.data
    decreases |es|
  {
    if es != [] {
      RunWithoutInputKeepsDraft(Apply(s, es[0]), es[1..]);
    }
  }

  const DropPoints: seq<string> := [
    "Chennai Koyambedu Bus Stand",
    "Coimbatore Central Bus Stand",
    "Madurai Central Bus Stand",
    "Salem Central Bus Stand",
    "Trichy Central Bus Stand",
    "Tirunelveli Bus Stand",
    "Vellore Bus Stand",
    "Thanjavur Bus Stand"]

  /** The drop-point modal lists every point except the selected pickup point, in order. */
  function DropOptions(points: seq<string>, pickup: string): (r: seq<string>)
    ensures pickup !in r
    ensures forall p :: p in r <==> p in points && p != pickup
    ensures IsSubsequence(r, points)
    ensures forall p :: multiset(r)[p] == if p != pickup then multiset(points)[p] else 0
  {
    FilterCounts(points, p => p != pickup);
    Filter(points, p => p != pickup)
  }

  /** A drop point picked from the modal (whose names are all non-empty), after a pickup point, passes step 1. */
  lemma DropFromOptionsPassesStep1(d: BookingData, points: seq<string>, drop: string)
    requires d.pickupPoint != "" && "" !in points
    requires drop in DropOptions(points, d.pickupPoint)
    ensures ValidateStep(SetField(d, DropPoint, drop), 1)
  {
    assert drop in points;
  }

  /** The app's drop points are all named. */
  lemma DropPointsNamed()
    ensures "" !in DropPoints
  {
  }

  /** The screen's state, updated in place by its handlers. */
  class BookingWizard {
    var bookingData: BookingData
    var currentStep: int
    var generatedRwb: string
    var confirmationVisible: bool

    function State(): WizardState
      reads this
    {
      WizardState(bookingData, currentStep, generatedRwb, confirmationVisible)
    }

    /** Kept by the render guards, not by the handlers. */
    ghost predicate Valid()
      reads this
    {
      StepsPassed(State())
    }

    constructor ()
      ensures Valid() && State() == InitialState
    {
      bookingData := EmptyDraft;
      currentStep := 1;
      generatedRwb := "";
      confirmationVisible := false;
    }

    /** The inputs of a step are rendered only while currentStep is that step. */
    method HandleInputChange(field: Field, value: string)
      requires Valid() && StepOf(field) == currentStep
      modifies this
      ensures Valid()
      ensures State() == Apply(old(State()), Input(field, value))
      ensures bookingData == SetField(old(bookingData), field, value)
      ensures currentStep == old(currentStep) && generatedRwb == old(generatedRwb)
      ensures confirmationVisible == old(confirmationVisible)
    {
      ApplyKeepsStepsPassed(State(), Input(field, value));
      bookingData := SetField(bookingData, field, value);
    }

    /** The Next button is rendered only while currentStep < 3. */
    method HandleNextStep()
      requires Valid() && currentStep < 3
      modifies this
      ensures Valid()
      ensures State() == NextStep(old(State())) == Apply(old(State()), PressNext)
    {
      if ValidateStep(bookingData, currentStep) {
        currentStep := currentStep + 1;
      }
    }

    /** The Back button is rendered only while currentStep > 1. */
    method HandlePrevStep()
      requires Valid() && currentStep > 1
      modifies this
      ensures Valid()
      ensures State() == PrevStep(old(State())) == Apply(old(State()), PressBack)
    {
      currentStep := currentStep - 1;
    }

    /** Create Booking is rendered in place of Next, once currentStep is no longer below 3. */
    method HandleBookingSubmit(timestamp: nat)
      requires Valid() && currentStep >= 3
      modifies this
      ensures Valid()
      ensures State() == Submit(old(State()), timestamp) == Apply(old(State()), PressSubmit(timestamp))
      ensures old(ValidateStep(bookingData, 3)) ==>
        confirmationVisible && ValidateStep(bookingData, 1) && ValidateStep(bookingData, 2)
    {
      if ValidateStep(bookingData, 3) {
        var rwb := GenerateRwb(timestamp);
        generatedRwb := rwb;
        confirmationVisible := true;
      }
    }

    method HandleDismissConfirmation()
      requires Valid()
      modifies this
      ensures Valid()
      ensures State() == old(State()).(confirmationVisible := false) == Apply(old(State()), DismissConfirmation)
    {
      confirmationVisible := false;
    }
  }
}
