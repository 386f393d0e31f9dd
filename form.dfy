// BillForm: the state cells of the bill form and what each event does to them.
//
// The form holds three inputs (the bill text, the persons counter, the slider
// position) and two outputs (tipAmount, totalPerPerson). Every composition
// re-reads the slider into a tip percentage and the bill text into validState;
// the button and slider handlers use the values of the composition that drew
// them. Between events the UI composes again, which refreshes both outputs
// when the bill text is valid.
module Form {
  import opened Calculator
  import opened Inputs

  datatype Option<T> = None | Some(value: T)

  /** A snapshot of the form: the state cells, plus the tip percentage and
      validity computed by the last composition, which the handlers capture. */
  datatype State = State(
    billText: string,
    bill: real,            // the number the bill text parses to
    persons: int,
    sliderPosition: real,
    tipAmount: real,
    totalPerPerson: real,
    tipPercentage: int,    // as of the last composition
    validState: bool)      // as of the last composition

  /** The outputs agree with the inputs the last computation used; the
      counter is at least 1, so the share is always defined. */
  ghost predicate Consistent(s: State)
  {
    && s.persons >= 1
    && (s.validState ==>
          && s.tipAmount == CalculateTip(s.bill, s.tipPercentage)
          && s.totalPerPerson == CalculateTotalPerPerson(s.bill, s.persons, s.tipPercentage))
  }

  /** Consistent, and the captured percentage and validity are those of the
      current slider position and bill text: the state right after a composition. */
  ghost predicate Settled(s: State)
  {
    && Consistent(s)
    && s.tipPercentage == TipPercentage(s.sliderPosition)
    && s.validState == IsValidBill(s.billText)
  }

  /** The form when first drawn: empty bill, one person, slider at 0, both
      outputs 0, and nothing computed because the empty bill is invalid. */
  function Initial(): (s: State)
    ensures Settled(s) && !s.validState
    ensures s.billText == "" && s.bill == 0.0 && s.persons == 1 && s.sliderPosition == 0.0
    ensures s.tipAmount == 0.0 && s.totalPerPerson == 0.0 && s.tipPercentage == 0
  {
    State("", 0.0, 1, 0.0, 0.0, 0.0, 0, false)
  }

  /** A composition: recomputes the percentage and the validity, then, only
      when the bill is valid, both outputs; otherwise the outputs keep their
      previous values. The inputs are untouched. */
  function Compose(s: State): (t: State)
    requires s.persons >= 1
    ensures Settled(t)
    ensures t.billText == s.billText && t.bill == s.bill
    ensures t.persons == s.persons && t.sliderPosition == s.sliderPosition
    ensures !t.validState ==> t.tipAmount == s.tipAmount && t.totalPerPerson == s.totalPerPerson
  {
    var pct := TipPercentage(s.sliderPosition);
    var valid := IsValidBill(s.billText);
    if valid then
      s.(tipPercentage := pct, validState := valid,
         tipAmount := CalculateTip(s.bill, pct),
         totalPerPerson := CalculateTotalPerPerson(s.bill, s.persons, pct))
    else
      s.(tipPercentage := pct, validState := valid)
  }

  /** The minus button: lowers the counter only while it is above 1, then
      recomputes the share with the new counter. Nothing else changes. */
  function OnMinus(s: State): (t: State)
    requires s.persons >= 1
    ensures t.persons >= 1
    ensures s.persons > 1 ==> t.persons == s.persons - 1
    ensures s.persons == 1 ==> t.persons == 1
    ensures t.totalPerPerson == CalculateTotalPerPerson(s.bill, t.persons, s.tipPercentage)
    ensures t == s.(persons := t.persons, totalPerPerson := t.totalPerPerson)
    ensures Consistent(s) ==> Consistent(t)
  {
    var n := if s.persons > 1 then s.persons - 1 else s.persons;
    s.(persons := n, totalPerPerson := CalculateTotalPerPerson(s.bill, n, s.tipPercentage))
  }

  /** The plus button: raises the counter by one, then recomputes the share
      with the new counter. Nothing else changes. */
  function OnPlus(s: State): (t: State)
    requires s.persons >= 1
    ensures t.persons == s.persons + 1
    ensures t.totalPerPerson == CalculateTotalPerPerson(s.bill, t.persons, s.tipPercentage)
    ensures t == s.(persons := t.persons, totalPerPerson := t.totalPerPerson)
    ensures Consistent(s) ==> Consistent(t)
  {
    var n := s.persons + 1;
    s.(persons := n, totalPerPerson := CalculateTotalPerPerson(s.bill, n, s.tipPercentage))
  }

  /** The slider handler: recomputes the tip (when the bill was valid), stores
      the new position, then recomputes the share. Both computations use the
      percentage captured at the last composition, so both outputs still
      reflect the old percentage until the next composition. */
  function OnSlider(s: State, position: real): (t: State)
    requires s.persons >= 1
    ensures t.sliderPosition == position
    ensures t.tipAmount == if s.validState then CalculateTip(s.bill, s.tipPercentage) else s.tipAmount
    ensures t.totalPerPerson == CalculateTotalPerPerson(s.bill, s.persons, s.tipPercentage)
    ensures t == s.(sliderPosition := position, tipAmount := t.tipAmount, totalPerPerson := t.totalPerPerson)
    ensures Consistent(s) ==> Consistent(t)
  {
    var tip := if s.validState then CalculateTip(s.bill, s.tipPercentage) else s.tipAmount;
    s.(tipAmount := tip, sliderPosition := position,
       totalPerPerson := CalculateTotalPerPerson(s.bill, s.persons, s.tipPercentage))
  }

  /** A user event. `BillEdited` carries the new text and the number it parses to. */
  datatype Event =
    | BillEdited(text: string, value: real)
    | MinusClicked
    | PlusClicked
    | SliderMoved(position: real)

  /** One event followed by the composition it triggers. The buttons and the
      slider are drawn only by a composition whose bill was valid, so on any
      other composition a click or a slide does not reach a handler. */
  function Step(s: State, e: Event): (t: State)
    requires s.persons >= 1
    ensures Settled(t)
    ensures e.BillEdited? ==> t.billText == e.text && t.bill == e.value
    ensures !e.BillEdited? ==> t.billText == s.billText && t.bill == s.bill
    ensures e.SliderMoved? ==> t.sliderPosition == if s.validState then e.position else s.sliderPosition
    ensures !e.SliderMoved? ==> t.sliderPosition == s.sliderPosition
    ensures !e.MinusClicked? && !e.PlusClicked? ==> t.persons == s.persons
    ensures e.PlusClicked? ==> t.persons == if s.validState then s.persons + 1 else s.persons
    ensures e.MinusClicked? ==> t.persons == if s.validState && s.persons > 1 then s.persons - 1 else s.persons
  {
    var handled :=
      match e
      case BillEdited(text, value) => s.(billText := text, bill := value)
      case MinusClicked => if s.validState then OnMinus(s) else s
      case PlusClicked => if s.validState then OnPlus(s) else s
      case SliderMoved(position) => if s.validState then OnSlider(s, position) else s;
    Compose(handled)
  }

  /** A sequence of events, each followed by its composition. The counter
      never drops below 1, and after at least one event (or from a settled
      state) the outputs match the current inputs whenever the bill is valid. */
  function Run(s: State, events: seq<Event>): (t: State)
    requires s.persons >= 1
    ensures t.persons >= 1
    ensures events != [] || Settled(s) ==> Settled(t)
    decreases |events|
  {
    if events == [] then s else Run(Step(s, events[0]), events[1..])
  }

  /** Every state the form can reach from its initial state is settled: with
      a valid bill, the tip and the share are those of the current bill,
      counter and slider, and the counter is at least 1. */
  lemma ReachableStatesAreSettled(events: seq<Event>)
    ensures Settled(Run(Initial(), events))
    ensures Run(Initial(), events).persons >= 1
  {
  }

  /** A settled state is a fixed point of composition: composing it again
      changes nothing, so composing twice is composing once. */
  lemma ComposeIsIdempotent(s: State)
    requires s.persons >= 1
    ensures Settled(s) ==> Compose(s) == s
    ensures Compose(Compose(s)) == Compose(s)
  {
  }

  /** On a settled form with a valid bill, the composition after a button
      press changes nothing more: what the user sees is what the handler computed. */
  lemma ButtonStepIsHandler(s: State)
    requires Settled(s) && s.validState
    ensures Step(s, PlusClicked) == OnPlus(s)
    ensures Step(s, MinusClicked) == OnMinus(s)
  {
    ComposeIsIdempotent(OnPlus(s));
    ComposeIsIdempotent(OnMinus(s));
  }

  /** Minus undoes plus: on a settled form, pressing plus and then minus
      gives back exactly the form it started from. */
  lemma MinusUndoesPlus(s: State)
    requires Settled(s)
    ensures Run(s, [PlusClicked, MinusClicked]) == s
  {
    var t := Step(s, PlusClicked);
    if s.validState {
      ButtonStepIsHandler(s);
      assert t == OnPlus(s);
      ButtonStepIsHandler(t);
      assert Step(t, MinusClicked) == OnMinus(t) == s;
    } else {
      ComposeIsIdempotent(s);
      assert t == s;
      assert Step(t, MinusClicked) == s;
    }
    assert [PlusClicked, MinusClicked][1..] == [MinusClicked];
    assert Run(t, [MinusClicked]) == Run(Step(t, MinusClicked), []);
  }

  /** Pressing minus at 1 leaves the whole form as it was. */
  lemma MinusAtOneChangesNothing(s: State)
    requires Settled(s) && s.persons == 1
    ensures Step(s, MinusClicked) == s
  {
  }

  /** The slider lags: right after the handler the outputs are still those
      of the percentage captured at the last composition; the composition
      that follows brings them to the new position's percentage. */
  lemma SliderOutputsLagOneComposition(s: State, position: real)
    requires Settled(s) && s.validState
    ensures OnSlider(s, position).tipAmount == CalculateTip(s.bill, TipPercentage(s.sliderPosition))
    ensures OnSlider(s, position).totalPerPerson
         == CalculateTotalPerPerson(s.bill, s.persons, TipPercentage(s.sliderPosition))
    ensures Step(s, SliderMoved(position)).tipAmount == CalculateTip(s.bill, TipPercentage(position))
    ensures Step(s, SliderMoved(position)).totalPerPerson
         == CalculateTotalPerPerson(s.bill, s.persons, TipPercentage(position))
  {
  }

  /** A concrete lag: a bill of 100 with the slider at 0, moved to the
      middle, still shows a tip of 0 until the next composition shows 50. */
  lemma SliderLagExample()
    ensures var s := Step(Initial(), BillEdited("100", 100.0));
            OnSlider(s, 0.5).tipAmount == 0.0 && Step(s, SliderMoved(0.5)).tipAmount == 50.0
  {
  }

  /** Clearing the bill stops the computation but keeps the last outputs:
      the tip line and the buttons are hidden, while the header, which is
      drawn outside the validity check, still shows the previous share. */
  lemma ClearedBillKeepsLastShare(s: State)
    requires Settled(s)
    ensures var t := Step(s, BillEdited("", 0.0));
            !t.validState && t.totalPerPerson == s.totalPerPerson && t.tipAmount == s.tipAmount
  {
  }

  /** The header and the tip line: the header always shows the share; the
      split, tip and percentage rows only when the last composition saw a
      valid bill. */
  datatype Screen = Screen(header: real, details: Option<Details>)
  datatype Details = Details(persons: int, tipAmount: real, tipPercentage: int)

  /** What the user sees of a state. On a settled form with a valid bill
      that is the share, the party size, the tip and the percentage computed
      from the current bill, counter and slider; on an invalid bill only the
      header, with whatever share was last computed. */
  function Display(s: State): (v: Screen)
    ensures v.header == s.totalPerPerson
    ensures v.details.Some? <==> s.validState
    ensures Settled(s) && s.validState ==>
              var pct := TipPercentage(s.sliderPosition);
              v == Screen(CalculateTotalPerPerson(s.bill, s.persons, pct),
                          Some(Details(s.persons, CalculateTip(s.bill, pct), pct)))
  {
    Screen(s.totalPerPerson, if s.validState then Some(Details(s.persons, s.tipAmount, s.tipPercentage)) else None)
  }

  /** The form as an object whose fields are the state cells. Each handler is
      a method proved against the function above that specifies it. */
  class BillForm {
    var billText: string
    var bill: real
    var personsCounter: int
    var sliderPosition: real
    var tipAmount: real
    var totalPerPerson: real
    var tipPercentage: int
    var validState: bool

    /** The counter floor. */
    ghost predicate Valid()
      reads this
    {
      personsCounter >= 1
    }

    /** The fields as a value. */
    function Snapshot(): State
      reads this
    {
      State(billText, bill, personsCounter, sliderPosition,
            tipAmount, totalPerPerson, tipPercentage, validState)
    }

    /** The remembered initial values, with what the first composition
        reads from them: percentage 0 and an invalid (empty) bill. */
    constructor ()
      ensures Valid() && Snapshot() == Initial()
    {
      billText := "";
      bill := 0.0;
      personsCounter := 1;
      sliderPosition := 0.0;
      tipAmount := 0.0;
      totalPerPerson := 0.0;
      tipPercentage := 0;
      validState := false;
    }

    /** A composition of the form. */
    method Recompose()
      requires Valid()
      modifies this
      ensures Valid() && Snapshot() == Compose(old(Snapshot()))
      ensures Settled(Snapshot())
    {
      tipPercentage := TipPercentage(sliderPosition);
      validState := IsValidBill(billText);
      if validState {
        tipAmount := CalculateTip(bill, tipPercentage);
        totalPerPerson := CalculateTotalPerPerson(bill, personsCounter, tipPercentage);
      }
    }

    /** The text field's change handler stores the new text. */
    method EditBill(text: string, value: real)
      requires Valid()
      modifies this
      ensures Valid() && Snapshot() == old(Snapshot()).(billText := text, bill := value)
    {
      billText := text;
      bill := value;
    }

    /** The minus button's handler. */
    method Decrement()
      requires Valid()
      modifies this
      ensures Valid() && Snapshot() == OnMinus(old(Snapshot()))
    {
      if personsCounter > 1 {
        personsCounter := personsCounter - 1;
      }
      totalPerPerson := CalculateTotalPerPerson(bill, personsCounter, tipPercentage);
    }

    /** The plus button's handler. */
    method Increment()
      requires Valid()
      modifies this
      ensures Valid() && Snapshot() == OnPlus(old(Snapshot()))
    {
      personsCounter := personsCounter + 1;
      totalPerPerson := CalculateTotalPerPerson(bill, personsCounter, tipPercentage);
    }

    /** The slider's change handler. */
    method SetSlider(position: real)
      requires Valid()
      modifies this
      ensures Valid() && Snapshot() == OnSlider(old(Snapshot()), position)
    {
      if validState {
        tipAmount := CalculateTip(bill, tipPercentage);
      }
      sliderPosition := position;
      totalPerPerson := CalculateTotalPerPerson(bill, personsCounter, tipPercentage);
    }

    /** The keyboard action: nothing when the bill was invalid at the last
      composition, otherwise the trimmed bill text is handed to the callback,
      which only logs it. The text handed over is non-empty and neither starts
      nor ends with whitespace. */
    method KeyboardAction() returns (reported: Option<string>)
      ensures reported.Some? <==> validState
      ensures reported.Some? ==> reported.value == Trim(billText)
      ensures validState && Settled(Snapshot()) ==>
                reported.Some? && reported.value != [] &&
                !IsWhitespace(reported.value[0]) && !IsWhitespace(reported.value[|reported.value| - 1])
    {
      if !validState {
        return None;
      }
      reported := Some(Trim(billText));
    }
  }

  /** What the form reads from the bill text "150" and the slider positions 0 and 0.2. */
  lemma ScenarioReadings()
    ensures IsValidBill("150")
    ensures TipPercentage(0.0) == 0 && TipPercentage(0.2) == 20
  {
    ValidBillHasNonWhitespace("150");
    assert !IsWhitespace("150"[0]);
  }

  /** The scenario's form after the bill "150" is entered (persons 1, slider
      at 0) and after the slider then moves to 0.2. */
  function BillEntered(): State { State("150", 150.0, 1, 0.0, 0.0, 150.0, 0, true) }
  function SliderAtTwenty(): State { State("150", 150.0, 1, 0.2, 30.0, 180.0, 20, true) }

  lemma EnterBillStep()
    ensures Step(Initial(), BillEdited("150", 150.0)) == BillEntered()
  {
    ScenarioReadings();
  }

  lemma SlideStep()
    ensures Step(BillEntered(), SliderMoved(0.2)) == SliderAtTwenty()
  {
    ScenarioReadings();
  }

  /** Splitting 150 with a 20% tip three ways: enter the bill, move the
      slider to 0.2, press plus twice. The tip is 30 and each person pays 60. */
  lemma SplitThreeWays()
    ensures Display(Run(Initial(), [BillEdited("150", 150.0), SliderMoved(0.2), PlusClicked, PlusClicked]))
         == Screen(60.0, Some(Details(3, 30.0, 20)))
  {
    var s1, s2 := BillEntered(), SliderAtTwenty();
    EnterBillStep();
    SlideStep();
    ScenarioReadings();
    WorkedExamples();
    assert CalculateTotalPerPerson(150.0, 2, 20) == 90.0;
    ButtonStepIsHandler(s2);
    var s3 := OnPlus(s2);
    assert s3 == s2.(persons := 2, totalPerPerson := 90.0);
    ButtonStepIsHandler(s3);
    var s4 := OnPlus(s3);
    assert s4.totalPerPerson == CalculateTotalPerPerson(150.0, 3, 20) == 60.0;
    assert s4 == s2.(persons := 3, totalPerPerson := 60.0);
    var events := [BillEdited("150", 150.0), SliderMoved(0.2), PlusClicked, PlusClicked];
    assert events[1..] == [SliderMoved(0.2), PlusClicked, PlusClicked];
    assert events[1..][1..] == [PlusClicked, PlusClicked];
    assert Run(Initial(), events) == Run(s1, events[1..]);
    assert Run(s1, events[1..]) == Run(s2, [PlusClicked, PlusClicked]);
    assert Run(s2, [PlusClicked, PlusClicked]) == Run(s3, [PlusClicked]);
    assert Run(s3, [PlusClicked]) == s4;
  }
}
