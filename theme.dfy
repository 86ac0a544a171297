/** The colour theme: the saved choice or "light" at start, the three-way
    cycle, and the table of CSS variables each known theme sets. */
module Theme {
  import opened Common

  const ThemeOrder: seq<string> := ["light", "soft-dark", "high-contrast"]

  /** The CSS variables of each theme, in the order they are applied. */
  const Themes: map<string, seq<(string, string)>> := map[
    "light" := [
      ("--bg-color", "#F8F9FA"),
      ("--bg-secondary", "#FFFFFF"),
      ("--card-bg", "#FFFFFF"),
      ("--text-primary", "#2F3E46"),
      ("--text-secondary", "#5A6B73"),
      ("--nav-bg", "rgba(255,255,255,0.85)"),
      ("--grid-bg", "#F0F7F4"),
      ("--grid-line", "#D4E8E0"),
      ("--cell-hover", "rgba(168,218,220,0.3)"),
      ("--shadow", "0 4px 20px rgba(0,0,0,0.06)"),
      ("--accent", "#A8DADC"),
      ("--accent-secondary", "#B8E0D2"),
      ("--overlay-bg", "rgba(248,249,250,0.95)")],
    "soft-dark" := [
      ("--bg-color", "#1E2A33"),
      ("--bg-secondary", "#253340"),
      ("--card-bg", "#2A3A48"),
      ("--text-primary", "#E8F0F2"),
      ("--text-secondary", "#A0B4C0"),
      ("--nav-bg", "rgba(30,42,51,0.9)"),
      ("--grid-bg", "#253340"),
      ("--grid-line", "#3A5060"),
      ("--cell-hover", "rgba(168,218,220,0.15)"),
      ("--shadow", "0 4px 20px rgba(0,0,0,0.2)"),
      ("--accent", "#7BC8CC"),
      ("--accent-secondary", "#8ED0C0"),
      ("--overlay-bg", "rgba(30,42,51,0.95)")],
    "high-contrast" := [
      ("--bg-color", "#000000"),
      ("--bg-secondary", "#1A1A1A"),
      ("--card-bg", "#1A1A1A"),
      ("--text-primary", "#FFFFFF"),
      ("--text-secondary", "#E0E0E0"),
      ("--nav-bg", "rgba(0,0,0,0.95)"),
      ("--grid-bg", "#1A1A1A"),
      ("--grid-line", "#FFFFFF"),
      ("--cell-hover", "rgba(255,255,255,0.2)"),
      ("--shadow", "0 4px 20px rgba(255,255,255,0.1)"),
      ("--accent", "#00FFFF"),
      ("--accent-secondary", "#00FF88"),
      ("--overlay-bg", "rgba(0,0,0,0.97)")]
  ]

  /** The theme at start: the saved name, or "light" when nothing (or an
      empty string) is saved. */
  function InitialTheme(saved: Option<string>): (theme: string)
    ensures saved.Some? && saved.value != "" ==> theme == saved.value
    ensures saved.None? || saved.value == "" ==> theme == "light"
  {
    match saved
    case Some(t) => if t != "" then t else "light"
    case None => "light"
  }

  /** `indexOf`: the first position of `x` in `s`, or -1. */
  function IndexOf(s: seq<string>, x: string): (r: int)
    ensures -1 <= r < |s|
    ensures r == -1 <==> x !in s
    ensures r >= 0 ==> s[r] == x && forall j :: 0 <= j < r ==> s[j] != x
  {
    if s == [] then -1
    else if s[0] == x then 0
    else
      var r := IndexOf(s[1..], x);
      if r == -1 then -1 else r + 1
  }

  /** `cycleTheme`: the next theme in the order, wrapping round; a theme
      outside the order is at position -1, so it is followed by "light". */
  function CycleTheme(theme: string): (next: string)
    ensures next in ThemeOrder
    ensures theme !in ThemeOrder ==> next == "light"
  {
    ThemeOrder[(IndexOf(ThemeOrder, theme) + 1) % |ThemeOrder|]
  }

  lemma CycleSteps()
    ensures CycleTheme("light") == "soft-dark"
    ensures CycleTheme("soft-dark") == "high-contrast"
    ensures CycleTheme("high-contrast") == "light"
  {
    assert IndexOf(ThemeOrder, "light") == 0;
    assert IndexOf(ThemeOrder, "soft-dark") == 1;
    assert IndexOf(ThemeOrder, "high-contrast") == 2;
  }

  /** Three steps bring any known theme back. */
  lemma CycleThreeTimes(theme: string)
    requires theme in ThemeOrder
    ensures CycleTheme(CycleTheme(CycleTheme(theme))) == theme
  {
    CycleSteps();
  }

  /** What the theme effect does: the CSS variables it sets, the
      `data-theme` attribute and the name it saves. */
  datatype ThemeEffect = ThemeEffect(cssVariables: seq<(string, string)>, dataTheme: string, saved: string)

  function ApplyTheme(theme: string): (e: ThemeEffect)
    ensures e.dataTheme == theme && e.saved == theme
    ensures theme in Themes ==> e.cssVariables == Themes[theme]
    ensures e.cssVariables != [] <==> theme in Themes
  {
    ThemeEffect(if theme in Themes then Themes[theme] else [], theme, theme)
  }

  /** The saved name is the one restored at the next start. */
  lemma SavedThemeRestored(theme: string)
    requires theme != ""
    ensures InitialTheme(Some(ApplyTheme(theme).saved)) == theme
  {
  }

  /** Cycling always lands on a theme whose variables are set. */
  lemma CycledThemeApplies(theme: string)
    ensures CycleTheme(theme) in Themes && ApplyTheme(CycleTheme(theme)).cssVariables != []
  {
    var next := CycleTheme(theme);
    assert next == "light" || next == "soft-dark" || next == "high-contrast";
  }
}
