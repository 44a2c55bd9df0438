/**
  The fee calculator widget: four pieces of local state, one event handler
  per user action, and the values the widget displays, all derived from the
  state. `State`, `Step` and `Replay` describe the widget as values; the
  class `FeeCalculator` holds the same four fields and updates them in place.
 */
module Widget {
  import opened Wrappers
  import opened FeeEngine

  /** The two fixed colour themes. */
  datatype Theme = LightTheme | DarkTheme

  /** The widget's state as a value. */
  datatype State = State(originalPrice: Price, discount10: bool, discount30: bool, isDarkMode: bool)

  /** One user action. The price input arrives already parsed as a number,
      or as `None` when the text field is empty. */
  datatype Event =
    | InputChange(input: Option<real>)
    | Discount10Toggle
    | Discount30Toggle
    | DarkModeToggle
  {
    predicate IsToggle() { !InputChange? }
  }

  /** On mount: no price, both discounts off, light mode. */
  const Initial: State := State(Empty, false, false, false)

  /** What the price handler stores: the floor of a number, or the empty
      marker when the field is empty. */
  function StoredPrice(input: Option<real>): (p: Price)
    ensures input.None? <==> p.Empty?
    ensures input.Some? ==> p.n as real <= input.value < p.n as real + 1.0
  {
    match input
    case None => Empty
    case Some(v) => Amount(v.Floor)
  }

  /** The theme is the dark one exactly when dark mode is on. */
  function ThemeFor(isDarkMode: bool): (t: Theme)
    ensures t == DarkTheme <==> isDarkMode
    ensures t == LightTheme <==> !isDarkMode
  {
    if isDarkMode then DarkTheme else LightTheme
  }

  /** The effect of one event on the state: each toggle negates exactly its
      own flag, a price change stores the new price, and everything else is
      kept. */
  function Step(s: State, e: Event): (t: State)
    ensures t.originalPrice == if e.InputChange? then StoredPrice(e.input) else s.originalPrice
    ensures t.discount10 == if e.Discount10Toggle? then !s.discount10 else s.discount10
    ensures t.discount30 == if e.Discount30Toggle? then !s.discount30 else s.discount30
    ensures t.isDarkMode == if e.DarkModeToggle? then !s.isDarkMode else s.isDarkMode
  {
    match e
    case InputChange(input) => s.(originalPrice := StoredPrice(input))
    case Discount10Toggle => s.(discount10 := !s.discount10)
    case Discount30Toggle => s.(discount30 := !s.discount30)
    case DarkModeToggle => s.(isDarkMode := !s.isDarkMode)
  }

  /** The state after a sequence of events, applied first to last. */
  function Replay(s: State, events: seq<Event>): State
    decreases |events|
  {
    if events == [] then s else Replay(Step(s, events[0]), events[1..])
  }

  /** The fee the widget displays for a state: its effective commission
      percentage of the price. */
  function Fee(s: State): (fee: real)
    ensures fee * 100.0 == (PriceValue(s.originalPrice) * CommissionPercent(s.discount10, s.discount30)) as real
  {
    CalculateFee(s.originalPrice, s.discount10, s.discount30)
  }

  /** The net amount the widget displays for a state: the seller keeps the
      rest of the price after the effective commission percentage. */
  function Net(s: State): (net: real)
    ensures net * 100.0 == (PriceValue(s.originalPrice) * (100 - CommissionPercent(s.discount10, s.discount30))) as real
  {
    NetAmount(s.originalPrice, s.discount10, s.discount30)
  }

  /** Applying the same toggle twice restores the state. */
  lemma ToggleTwiceRestores(s: State, e: Event)
    requires e.IsToggle()
    ensures Step(Step(s, e), e) == s
  {
  }

  /** Entering the same input twice is the same as entering it once. */
  lemma InputChangeIdempotent(s: State, input: Option<real>)
    ensures Step(Step(s, InputChange(input)), InputChange(input)) == Step(s, InputChange(input))
  {
  }

  /** Toggling dark mode changes neither the fee nor the net amount, and the
      theme follows the flag. */
  lemma DarkModeKeepsFee(s: State)
    ensures Fee(Step(s, DarkModeToggle)) == Fee(s)
    ensures Net(Step(s, DarkModeToggle)) == Net(s)
    ensures ThemeFor(Step(s, DarkModeToggle).isDarkMode) != ThemeFor(s.isDarkMode)
  {
  }

  /** Two states that agree on everything but the theme flag. */
  predicate SameExceptTheme(s: State, t: State)
  {
    s.originalPrice == t.originalPrice && s.discount10 == t.discount10 && s.discount30 == t.discount30
  }

  /** The theme never feeds into the fee: two states that differ at most in
      the theme flag show the same fee and net amount after any sequence of
      user actions. */
  lemma {:induction false} ThemeNeverFeedsFee(s: State, t: State, events: seq<Event>)
    requires SameExceptTheme(s, t)
    ensures SameExceptTheme(Replay(s, events), Replay(t, events))
    ensures Fee(Replay(s, events)) == Fee(Replay(t, events))
    ensures Net(Replay(s, events)) == Net(Replay(t, events))
    decreases |events|
  {
    if events != [] {
      ThemeNeverFeedsFee(Step(s, events[0]), Step(t, events[0]), events[1..]);
    }
  }

  /** The flag a toggle event negates. */
  function FlagOf(s: State, e: Event): bool
    requires e.IsToggle()
  {
    match e
    case Discount10Toggle => s.discount10
    case Discount30Toggle => s.discount30
    case DarkModeToggle => s.isDarkMode
  }

  /** How many times `e` occurs in `events`. */
  function Occurrences(events: seq<Event>, e: Event): nat
    decreases |events|
  {
    if events == [] then 0
    else (if events[0] == e then 1 else 0) + Occurrences(events[1..], e)
  }

  /** Whatever else happens in between, a flag ends up flipped exactly when
      its toggle was pressed an odd number of times; an even number of
      presses restores it. */
  lemma {:induction false} ToggleParity(s: State, events: seq<Event>, e: Event)
    requires e.IsToggle()
    ensures FlagOf(Replay(s, events), e) == (FlagOf(s, e) != (Occurrences(events, e) % 2 == 1))
    decreases |events|
  {
    if events != [] {
      ToggleParity(Step(s, events[0]), events[1..], e);
    }
  }

  /** The widget itself: the four state fields, updated in place by the
      event handlers. */
  class FeeCalculator {
    var originalPrice: Price
    var discount10: bool
    var discount30: bool
    var isDarkMode: bool

    /** The current state as a value. */
    function Snapshot(): State
      reads this
    {
      State(originalPrice, discount10, discount30, isDarkMode)
    }

    /** The theme the whole widget is drawn with. */
    function CurrentTheme(): Theme
      reads this
    {
      ThemeFor(isDarkMode)
    }

    constructor ()
      ensures Snapshot() == Initial
      ensures Fee(Snapshot()) == 0.0 && Net(Snapshot()) == 0.0 && CurrentTheme() == LightTheme
    {
      originalPrice := Empty;
      discount10 := false;
      discount30 := false;
      isDarkMode := false;
    }

    method HandleInputChange(input: Option<real>)
      modifies this
      ensures originalPrice == StoredPrice(input)
      ensures discount10 == old(discount10) && discount30 == old(discount30) && isDarkMode == old(isDarkMode)
      ensures Snapshot() == Step(old(Snapshot()), InputChange(input))
    {
      originalPrice := StoredPrice(input);
    }

    method HandleDiscount10Toggle()
      modifies this
      ensures discount10 == !old(discount10)
      ensures originalPrice == old(originalPrice) && discount30 == old(discount30) && isDarkMode == old(isDarkMode)
      ensures Snapshot() == Step(old(Snapshot()), Discount10Toggle)
    {
      discount10 := !discount10;
    }

    method HandleDiscount30Toggle()
      modifies this
      ensures discount30 == !old(discount30)
      ensures originalPrice == old(originalPrice) && discount10 == old(discount10) && isDarkMode == old(isDarkMode)
      ensures Snapshot() == Step(old(Snapshot()), Discount30Toggle)
    {
      discount30 := !discount30;
    }

    method ToggleDarkMode()
      modifies this
      ensures isDarkMode == !old(isDarkMode)
      ensures originalPrice == old(originalPrice) && discount10 == old(discount10) && discount30 == old(discount30)
      ensures Snapshot() == Step(old(Snapshot()), DarkModeToggle)
      ensures Fee(Snapshot()) == old(Fee(Snapshot())) && Net(Snapshot()) == old(Net(Snapshot()))
      ensures CurrentTheme() != old(CurrentTheme())
    {
      isDarkMode := !isDarkMode;
    }
  }
}
