/**
 * The theme switcher (src/components/theming/ThemeSwitcher.jsx): the toggle,
 * and what the corner panel shows for a dashboard state.
 */
module Theme {
  import opened Wrappers
  import opened Store
  import opened Text

  /** `state.theme === "light" ? "dark" : "light"`: any theme other than light toggles to light. */
  function Toggled(theme: string): (t: string)
    ensures t == "light" || t == "dark"
    ensures t == "dark" <==> theme == "light"
  {
    if theme == "light" then "dark" else "light"
  }

  /** Toggling twice restores light and dark; any other theme ends up dark. */
  lemma ToggleTwice(theme: string)
    ensures theme == "light" || theme == "dark" ==> Toggled(Toggled(theme)) == theme
    ensures theme != "light" && theme != "dark" ==> Toggled(Toggled(theme)) == "dark"
  {
  }

  /** Clicking the button dispatches one SET_THEME carrying the toggled theme. */
  function ToggleActions(s: DashboardState): (actions: seq<Action>)
    ensures |actions| == 1 && actions[0].SetTheme?
  {
    [SetTheme(Toggled(s.theme))]
  }

  /** The click changes the theme and nothing else in the state. */
  lemma ToggleChangesOnlyTheme(s: DashboardState)
    ensures ReduceAll(s, ToggleActions(s)) == s.(theme := Toggled(s.theme))
  {
    assert ToggleActions(s)[1..] == [];
  }

  /** `${n} active user` with an `s` unless n is 1. */
  function PresenceLabel(n: nat): (text: string)
    ensures |text| > |NatToString(n)| && text[..|NatToString(n)|] == NatToString(n)
    ensures text[|text| - 1] == 's' <==> n != 1
  {
    NatToString(n) + " active user" + (if n != 1 then "s" else "")
  }

  /** The longest prefix of decimal digits. */
  function LeadingDigits(s: string): (d: string)
    ensures d <= s && AllDigits(d)
  {
    if s != [] && IsDigit(s[0]) then [s[0]] + LeadingDigits(s[1..]) else []
  }

  lemma {:induction false} LeadingDigitsOfConcat(d: string, rest: string)
    requires AllDigits(d) && rest != [] && !IsDigit(rest[0])
    ensures LeadingDigits(d + rest) == d
  {
    if d != [] {
      assert (d + rest)[1..] == d[1..] + rest;
      LeadingDigitsOfConcat(d[1..], rest);
    }
  }

  /** The number at the head of the label is the number of active users. */
  lemma PresenceLabelCount(n: nat)
    ensures ParseNat(LeadingDigits(PresenceLabel(n))) == n
  {
    var suffix := " active user" + (if n != 1 then "s" else "");
    assert PresenceLabel(n) == NatToString(n) + suffix;
    LeadingDigitsOfConcat(NatToString(n), suffix);
    NatToStringRoundTrip(n);
  }

  /** The presence card: its label and, when there is a last writer, the "Last modified by" line. */
  datatype PresenceCard = PresenceCard(caption: string, lastModifiedBy: Option<string>)

  /** What the switcher shows: the optional presence card, the button title and which icon. */
  datatype Panel = Panel(card: Option<PresenceCard>, buttonTitle: string, moonIcon: bool)

  function Render(s: DashboardState): (p: Panel)
    ensures p.card.Some? <==> |s.activeUsers| > 0
    ensures p.card.Some? ==> p.card.value.caption == PresenceLabel(|s.activeUsers|)
    ensures p.card.Some? ==>
              (p.card.value.lastModifiedBy.Some? <==> s.lastModifiedBy.Some? && s.lastModifiedBy.value != "")
    ensures p.card.Some? && p.card.value.lastModifiedBy.Some? ==> p.card.value.lastModifiedBy == s.lastModifiedBy
    ensures p.moonIcon <==> Toggled(s.theme) == "dark"
    ensures p.buttonTitle == if Toggled(s.theme) == "dark" then "Switch to Dark Mode" else "Switch to Light Mode"
  {
    var card :=
      if |s.activeUsers| > 0 then
        var writer := if s.lastModifiedBy.Some? && s.lastModifiedBy.value != "" then s.lastModifiedBy else None;
        Some(PresenceCard(PresenceLabel(|s.activeUsers|), writer))
      else None;
    var light := s.theme == "light";
    Panel(card, if light then "Switch to Dark Mode" else "Switch to Light Mode", light)
  }

  /** The button depends only on whether the theme is light; the card only on users and last writer. */
  lemma RenderDependsOnlyOn(s: DashboardState, t: DashboardState)
    ensures (s.theme == "light") == (t.theme == "light") ==>
              Render(s).buttonTitle == Render(t).buttonTitle && Render(s).moonIcon == Render(t).moonIcon
    ensures |s.activeUsers| == |t.activeUsers| && s.lastModifiedBy == t.lastModifiedBy ==> Render(s).card == Render(t).card
  {
  }
}
