/** Placing the net and its two tapes for a chosen net height (the
    net-height `change` handler and the start-up code in main.js). */
module NetLayout {
  /** The result of JavaScript's `Number(value)` on the height input:
      a number, or `NaN` when the text is not one. */
  datatype NumberValue = Finite(value: real) | NotANumber

  /** Regulation men's net height, used when the input gives none. */
  const DefaultNetHeight: real := 2.43
  /** The net panel is 1.0 high and hangs with its top at the net height. */
  const NetPanelHeight: real := 1.0
  /** The top tape's centre sits this far above the top of the panel. */
  const TopTapeRaise: real := 0.02
  /** The bottom tape's centre sits this far above the bottom of the panel. */
  const BottomTapeRaise: real := 0.03

  /** Heights (y) of the centres of the net panel and its tapes. */
  datatype Layout = Layout(netY: real, topTapeY: real, bottomTapeY: real)

  /** `Number(value) || 2.43`: zero and `NaN` are falsy and fall back to
      the default; every other number is taken as it is. */
  function NetHeight(input: NumberValue): (h: real)
    ensures input.NotANumber? ==> h == DefaultNetHeight
    ensures input.Finite? && input.value == 0.0 ==> h == DefaultNetHeight
    ensures input.Finite? && input.value != 0.0 ==> h == input.value
    ensures h != 0.0
  {
    match input
    case Finite(v) => if v == 0.0 then DefaultNetHeight else v
    case NotANumber => DefaultNetHeight
  }

  /** Where the net and its tapes go for a net height `h`. */
  function LayoutFor(h: real): (l: Layout)
    ensures l.netY + NetPanelHeight / 2.0 == h
    ensures l.topTapeY == h + TopTapeRaise
    ensures l.bottomTapeY == h - NetPanelHeight + BottomTapeRaise
  {
    Layout(h - 0.5, h + 0.02, h - 1.0 + 0.03)
  }

  /** The layout for what the height input holds. */
  function LayoutForInput(input: NumberValue): (l: Layout)
    ensures l.netY + NetPanelHeight / 2.0 == NetHeight(input) != 0.0
    ensures input.NotANumber? ==> l.netY == DefaultNetHeight - 0.5
  {
    LayoutFor(NetHeight(input))
  }

  /** The tapes keep their places relative to the panel whatever the
      height: raising the net by `d` raises every part by `d`, and the
      top tape is 0.52 above and the bottom tape 0.47 below the panel's
      centre. */
  lemma LayoutRigid(h: real, d: real)
    ensures var l := LayoutFor(h);
            var m := LayoutFor(h + d);
            m.netY == l.netY + d && m.topTapeY == l.topTapeY + d && m.bottomTapeY == l.bottomTapeY + d &&
            l.topTapeY - l.netY == 0.52 && l.netY - l.bottomTapeY == 0.47
  {
  }

  /** Different heights give different layouts, so the layout shows the
      height that was chosen. */
  lemma LayoutInjective(h1: real, h2: real)
    ensures LayoutFor(h1) == LayoutFor(h2) <==> h1 == h2
  {
  }

  /** The input's layout is the default one exactly when the input is
      zero, `NaN`, or the default height itself. */
  lemma DefaultLayoutIff(input: NumberValue)
    ensures LayoutForInput(input) == LayoutFor(DefaultNetHeight) <==>
            input.NotANumber? || input.value == 0.0 || input.value == DefaultNetHeight
  {
    LayoutInjective(NetHeight(input), DefaultNetHeight);
  }

  /** The positions the scene is built with before any input is read are
      the layout for the default height. */
  lemma InitialLayoutIsDefault()
    ensures LayoutFor(DefaultNetHeight) == Layout(2.43 - 0.5, 2.43 + 0.02, 2.43 - 1.0 + 0.03)
  {
  }
}
