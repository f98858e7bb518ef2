/**
 * The header's section buttons.  The header keeps no state: it highlights
 * the button whose value is the active section, and each button hands one
 * fixed value to the page.
 */
module Header {

  /** A section button: its caption and the section value it sets. */
  datatype NavButton = NavButton(caption: string, value: string)

  /** The three section buttons, in the order they are drawn. */
  const NavButtons: seq<NavButton> := [
    NavButton("Nearest Doctors", "nearby"),
    NavButton("Symptom Filter", "symptoms"),
    NavButton("Online Consult", "consult")
  ]

  /** A button takes the highlighted style exactly when its value is the
      active section. */
  predicate Highlighted(i: nat, active: string): (h: bool)
    requires i < |NavButtons|
    ensures h ==> forall j :: 0 <= j < |NavButtons| && j != i ==> NavButtons[j].value != active
  {
    NavButtons[i].value == active
  }

  /** The value the `i`-th button hands to the page; it does not depend on
      the section already active. */
  function Click(i: nat, active: string): (next: string)
    requires i < |NavButtons|
    ensures next == NavButtons[i].value
    ensures Highlighted(i, next)
  {
    NavButtons[i].value
  }

  /** The buttons set "nearby", "symptoms" and "consult", three different
      values. */
  lemma NavValues()
    ensures |NavButtons| == 3
    ensures NavButtons[0].value == "nearby" && NavButtons[1].value == "symptoms" && NavButtons[2].value == "consult"
    ensures forall i, j :: 0 <= i < j < |NavButtons| ==> NavButtons[i].value != NavButtons[j].value
  {
  }

  /** Whatever the active section, at most one button is highlighted. */
  lemma AtMostOneHighlighted(active: string, i: nat, j: nat)
    requires i < |NavButtons| && j < |NavButtons|
    requires Highlighted(i, active) && Highlighted(j, active)
    ensures i == j
  {
    NavValues();
  }

  /** No button sets "library". */
  lemma NoLibraryButton(i: nat, active: string)
    requires i < |NavButtons|
    ensures Click(i, active) != "library"
  {
    NavValues();
  }
}
