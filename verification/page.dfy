/** The calculator page's state and the three handlers that change it:
    editing one input field, calculating, and resetting. */
module Page {
  import opened Wrappers
  import opened Business
  import opened Metrics

  /** `currentStep`, `inputs`, `results` (null until the first calculation)
      and `showResults`. */
  datatype PageState = PageState(
    currentStep: int,
    inputs: BusinessInputs,
    results: Option<BusinessResults>,
    showResults: bool
  )

  /** The numeric default of a field: 12 months for the duration, 0 for
      every other number. */
  function DefaultNumber(f: NumField): real {
    if f == Duration then 12.0 else 0.0
  }

  /** The state the page starts in. */
  function InitialState(): (s: PageState)
    ensures s.currentStep == 1 && s.results == None && !s.showResults
    ensures forall t :: GetText(s.inputs, t) == ""
    ensures forall n :: GetNum(s.inputs, n) == DefaultNumber(n)
  {
    PageState(1, BusinessInputs("", "", 0.0, 0.0, 0.0, 0.0, 12.0, 0.0, 0.0, 0.0, 0.0, 0.0, 0.0), None, false)
  }

  /** `handleInputChange`: one input field takes the new value; every other
      field, the results shown and the step stay as they were.  The results
      are not recomputed, so they may now be stale. */
  function HandleInputChange(s: PageState, e: Edit): (r: PageState)
    ensures Get(r.inputs, e.Key()) == e.NewValue()
    ensures forall g :: g != e.Key() ==> Get(r.inputs, g) == Get(s.inputs, g)
    ensures r.currentStep == s.currentStep && r.results == s.results && r.showResults == s.showResults
  {
    s.(inputs := Apply(s.inputs, e))
  }

  /** `parseFloat(text) || 0` / `parseInt(text) || 0`: a number that could
      not be parsed becomes 0. */
  function ParsedOrZero(parsed: Option<real>): real {
    parsed.GetOr(0.0)
  }

  /** A numeric input field's change handler: the parsed number, or 0 when
      the text does not parse, is stored in the field. */
  function HandleNumberEntry(s: PageState, f: NumField, parsed: Option<real>): (r: PageState)
    ensures parsed.Some? ==> GetNum(r.inputs, f) == parsed.value
    ensures parsed.None? ==> GetNum(r.inputs, f) == 0.0
    ensures forall g :: g != NumKey(f) ==> Get(r.inputs, g) == Get(s.inputs, g)
    ensures r.currentStep == s.currentStep && r.results == s.results && r.showResults == s.showResults
  {
    HandleInputChange(s, NumberEdit(f, ParsedOrZero(parsed)))
  }

  /** Text that does not parse has the same effect as typing 0, and a
      parsed number has the same effect as the plain field edit. */
  lemma NumberEntryIsFieldEdit(s: PageState, f: NumField, x: real)
    ensures HandleNumberEntry(s, f, None) == HandleNumberEntry(s, f, Some(0.0))
    ensures HandleNumberEntry(s, f, Some(x)) == HandleInputChange(s, NumberEdit(f, x))
  {
  }

  /** `handleCalculate`: the results of the current inputs are stored and
      shown; the inputs and the step are untouched. */
  function HandleCalculate(s: PageState): (r: PageState)
    ensures r.showResults
    ensures r.results.Some? && r.results.value == CalculateBusinessMetrics(s.inputs)
    ensures r.inputs == s.inputs && r.currentStep == s.currentStep
  {
    s.(results := Some(CalculateBusinessMetrics(s.inputs)), showResults := true)
  }

  /** `handleReset`: back to step 1 with default inputs and nothing shown.
      The source writes the default record out a second time here; the
      contract states that the two copies agree. */
  function HandleReset(s: PageState): (r: PageState)
    ensures r == InitialState()
  {
    PageState(1, BusinessInputs("", "", 0.0, 0.0, 0.0, 0.0, 12.0, 0.0, 0.0, 0.0, 0.0, 0.0, 0.0), None, false)
  }

  /** What the user can do on the page. */
  datatype Event = Change(edit: Edit) | Calculate | Reset

  function Step(s: PageState, ev: Event): PageState {
    match ev
    case Change(e) => HandleInputChange(s, e)
    case Calculate => HandleCalculate(s)
    case Reset => HandleReset(s)
  }

  /** The state after a sequence of events. */
  function Run(s: PageState, evs: seq<Event>): PageState
    decreases |evs|
  {
    if evs == [] then s else Run(Step(s, evs[0]), evs[1..])
  }

  /** What every reachable state satisfies: no handler ever leaves step 1,
      results are shown exactly when there are results, and the results
      shown are those of some inputs. */
  ghost predicate Consistent(s: PageState) {
    && s.currentStep == 1
    && (s.showResults <==> s.results.Some?)
    && (s.results.Some? ==> exists i :: s.results.value == CalculateBusinessMetrics(i))
  }

  lemma StepPreservesConsistent(s: PageState, ev: Event)
    requires Consistent(s)
    ensures Consistent(Step(s, ev))
  {
    if ev.Calculate? {
      assert Step(s, ev).results.value == CalculateBusinessMetrics(s.inputs);
    }
  }

  /** Every state reachable from a consistent state by any sequence of
      events is consistent; in particular, every state reachable from the
      initial one. */
  lemma {:induction false} RunPreservesConsistent(s: PageState, evs: seq<Event>)
    requires Consistent(s)
    ensures Consistent(Run(s, evs))
    decreases |evs|
  {
    if evs != [] {
      StepPreservesConsistent(s, evs[0]);
      RunPreservesConsistent(Step(s, evs[0]), evs[1..]);
    }
  }

  lemma ReachableStatesAreConsistent(evs: seq<Event>)
    ensures Run(InitialState(), evs).currentStep == 1
    ensures Run(InitialState(), evs).showResults <==> Run(InitialState(), evs).results.Some?
  {
    RunPreservesConsistent(InitialState(), evs);
  }

  /** Reset forgets everything: whatever happened before, the page is back
      in its initial state. */
  lemma ResetForgetsHistory(s: PageState, evs: seq<Event>)
    ensures Run(s, evs + [Reset]) == InitialState()
  {
    RunAppend(s, evs, [Reset]);
  }

  /** Calculating twice in a row is the same as calculating once. */
  lemma CalculateIsIdempotent(s: PageState)
    ensures HandleCalculate(HandleCalculate(s)) == HandleCalculate(s)
  {
  }

  /** Right after a calculation the results match the inputs; an edit that
      changes a field the results depend on leaves them stale until the next
      calculation. */
  lemma CalculateThenEditKeepsResults(s: PageState, e: Edit)
    ensures HandleInputChange(HandleCalculate(s), e).results == Some(CalculateBusinessMetrics(s.inputs))
  {
  }

  lemma {:induction false} RunAppend(s: PageState, a: seq<Event>, b: seq<Event>)
    ensures Run(s, a + b) == Run(Run(s, a), b)
    decreases |a|
  {
    if a == [] {
      assert a + b == b;
    } else {
      assert (a + b)[0] == a[0];
      assert (a + b)[1..] == a[1..] + b;
      RunAppend(Step(s, a[0]), a[1..], b);
    }
  }
}
