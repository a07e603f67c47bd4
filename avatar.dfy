/** The avatar of a message author: a colour scheme and an icon chosen from the
    free-form role string, ignoring case. */
module Avatar {
  import opened JsText

  /** The five colour schemes `getColors` can choose (the CSS classes themselves are presentation). */
  datatype Palette = UserBlue | CriticRed | PlannerPurple | CoderEmerald | DefaultGray

  /** The two icons `getIcon` can choose. */
  datatype Icon = PersonIcon | ProcessorIcon

  /** `getColors`: the first matching rule wins. */
  function GetColors(role: string): Palette {
    var r := Lower(role);
    if r == "user" then UserBlue
    else if Includes(r, "critic") then CriticRed
    else if Includes(r, "planner") || Includes(r, "architect") then PlannerPurple
    else if Includes(r, "coder") || Includes(r, "developer") then CoderEmerald
    else DefaultGray
  }

  /** The rule table of `getColors`, stated over the window definition of a
      substring: each scheme is chosen exactly when its rule matches the
      lower-cased role and no earlier rule does. */
  lemma GetColorsRules(role: string)
    ensures var r := Lower(role);
      && (GetColors(role) == UserBlue <==> r == "user")
      && (GetColors(role) == CriticRed <==> r != "user" && OccursIn("critic", r))
      && (GetColors(role) == PlannerPurple <==>
            r != "user" && !OccursIn("critic", r)
            && (OccursIn("planner", r) || OccursIn("architect", r)))
      && (GetColors(role) == CoderEmerald <==>
            r != "user" && !OccursIn("critic", r)
            && !OccursIn("planner", r) && !OccursIn("architect", r)
            && (OccursIn("coder", r) || OccursIn("developer", r)))
      && (GetColors(role) == DefaultGray <==>
            r != "user" && !OccursIn("critic", r)
            && !OccursIn("planner", r) && !OccursIn("architect", r)
            && !OccursIn("coder", r) && !OccursIn("developer", r))
  {
    var r := Lower(role);
    IncludesIff(r, "critic");
    IncludesIff(r, "planner");
    IncludesIff(r, "architect");
    IncludesIff(r, "coder");
    IncludesIff(r, "developer");
  }

  /** Case does not matter: a role and its lower-cased form get the same scheme. */
  lemma GetColorsIgnoresCase(role: string)
    ensures GetColors(Lower(role)) == GetColors(role)
  {
    LowerIdempotent(role);
  }

  /** `getIcon`: the person icon exactly for the role "user" in any case. */
  function GetIcon(role: string): (i: Icon)
    ensures i == PersonIcon <==> GetColors(role) == UserBlue
  {
    if Lower(role) == "user" then PersonIcon else ProcessorIcon
  }
}
