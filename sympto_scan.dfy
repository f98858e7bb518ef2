/**
 * The symptom screening page: a multi-select over a fixed list of common
 * symptoms, a free-text description, and an analyze button that is enabled
 * once either says something.
 */
module Scan {
  import opened Text

  /** The quick-selection buttons, in the order shown. */
  const CommonSymptoms: seq<string> := [
    "Irregular periods", "Pelvic pain", "Unusual discharge", "Heavy bleeding",
    "Missed periods", "Painful periods", "Bloating", "Breast tenderness",
    "Mood changes", "Hot flashes", "Urinary issues", "Pain during intercourse"
  ]

  /** `s.filter(y => y !== x)`. */
  function Remove(s: seq<string>, x: string): (r: seq<string>)
    ensures x !in r
    ensures forall y :: y in r ==> y in s
    ensures |r| <= |s|
  {
    if s == [] then []
    else if s[0] == x then Remove(s[1..], x)
    else [s[0]] + Remove(s[1..], x)
  }

  /** Filtering keeps every other entry as often as it was there. */
  lemma {:induction false} RemoveCounts(s: seq<string>, x: string)
    ensures multiset(Remove(s, x)) == multiset(s)[x := 0]
  {
    if s != [] {
      RemoveCounts(s[1..], x);
      assert s == [s[0]] + s[1..];
    }
  }

  /** Filtering works piece by piece, so it keeps the relative order of the
      entries it keeps. */
  lemma {:induction false} RemoveAppend(a: seq<string>, b: seq<string>, x: string)
    ensures Remove(a + b, x) == Remove(a, x) + Remove(b, x)
  {
    if a == [] {
      assert a + b == b;
    } else {
      assert (a + b)[0] == a[0] && (a + b)[1..] == a[1..] + b;
      RemoveAppend(a[1..], b, x);
    }
  }

  /** Filtering out a label that is not there changes nothing. */
  lemma {:induction false} RemoveAbsent(s: seq<string>, x: string)
    requires x !in s
    ensures Remove(s, x) == s
  {
    if s != [] {
      assert x !in s[1..];
      RemoveAbsent(s[1..], x);
    }
  }

  /** The toggle of a button: a selected label is filtered out, an unselected
      one is appended.  Either way the label's membership flips and every
      other label keeps its own. */
  function Toggle(selected: seq<string>, symptom: string): (r: seq<string>)
    ensures symptom in r <==> symptom !in selected
    ensures forall y :: y != symptom ==> (y in r <==> y in selected)
  {
    if symptom in selected then
      RemoveCounts(selected, symptom);
      assert forall y :: y != symptom ==> (y in Remove(selected, symptom) <==> y in selected) by {
        forall y | y != symptom ensures y in Remove(selected, symptom) <==> y in selected {
          assert multiset(Remove(selected, symptom))[y] == multiset(selected)[y];
        }
      }
      Remove(selected, symptom)
    else
      selected + [symptom]
  }

  /** An unselected label goes at the end; a selected one disappears
      wherever it stood, and the rest keep their order. */
  lemma ToggleShape(selected: seq<string>, symptom: string, before: seq<string>, after: seq<string>)
    ensures symptom !in selected ==> Toggle(selected, symptom) == selected + [symptom]
    ensures selected == before + [symptom] + after ==>
              Toggle(selected, symptom) == Remove(before, symptom) + Remove(after, symptom)
  {
    if selected == before + [symptom] + after {
      RemoveAppend(before + [symptom], after, symptom);
      RemoveAppend(before, [symptom], symptom);
      assert symptom in selected by { assert selected[|before|] == symptom; }
    }
  }

  /** Toggling twice restores membership.  For an unselected label it
      restores the list itself; for a selected one the label comes back at
      the end instead of where it was. */
  lemma ToggleTwice(selected: seq<string>, symptom: string)
    ensures forall y :: y in Toggle(Toggle(selected, symptom), symptom) <==> y in selected
    ensures symptom !in selected ==> Toggle(Toggle(selected, symptom), symptom) == selected
  {
    if symptom !in selected {
      RemoveAppend(selected, [symptom], symptom);
      RemoveAbsent(selected, symptom);
    }
  }

  /** An example of the lost order: with "Bloating" then "Hot flashes"
      selected, toggling "Bloating" twice puts it last. */
  lemma ToggleTwiceReorders()
    ensures Toggle(Toggle(["Bloating", "Hot flashes"], "Bloating"), "Bloating") == ["Hot flashes", "Bloating"]
  {
    assert "Bloating" in ["Bloating", "Hot flashes"];
    assert Toggle(["Bloating", "Hot flashes"], "Bloating") == ["Hot flashes"];
  }

  /** No label occurs twice in `s`, counted by multiplicity. */
  ghost predicate NoRepeats(s: seq<string>) {
    forall y :: multiset(s)[y] <= 1
  }

  /** A list without repeats stays without repeats. */
  lemma ToggleKeepsNoRepeats(selected: seq<string>, symptom: string)
    requires NoRepeats(selected)
    ensures NoRepeats(Toggle(selected, symptom))
  {
    if symptom in selected {
      RemoveCounts(selected, symptom);
    } else {
      assert multiset(selected + [symptom]) == multiset(selected) + multiset{symptom};
    }
  }

  /** Labels that come from the buttons stay among the buttons' labels. */
  lemma ToggleStaysWithin(selected: seq<string>, symptom: string)
    requires forall y :: y in selected ==> y in CommonSymptoms
    requires symptom in CommonSymptoms
    ensures forall y :: y in Toggle(selected, symptom) ==> y in CommonSymptoms
  {
  }

  /** The analyze button is disabled exactly when nothing is selected and
      the description is blank. */
  function AnalyzeDisabled(selected: seq<string>, symptoms: string): (d: bool)
    ensures d <==> selected == [] && IsBlank(symptoms)
  {
    |selected| == 0 && Trim(symptoms) == ""
  }

  /** What analyzing hands on: the selected labels and then the description. */
  function Payload(selected: seq<string>, symptoms: string): (p: seq<string>)
    ensures |p| == |selected| + 1 && p[..|selected|] == selected && p[|selected|] == symptoms
  {
    selected + [symptoms]
  }

  /** The page's state. */
  class SymptoScan {
    var symptoms: string
    var selected: seq<string>

    /** The selection holds button labels, each at most once. */
    ghost predicate Valid()
      reads this
    {
      NoRepeats(selected) && forall y :: y in selected ==> y in CommonSymptoms
    }

    constructor ()
      ensures Valid()
      ensures symptoms == "" && selected == []
    {
      symptoms := "";
      selected := [];
    }

    /** A symptom button. */
    method ToggleSymptom(symptom: string)
      requires Valid()
      requires symptom in CommonSymptoms
      modifies this
      ensures Valid()
      ensures selected == Toggle(old(selected), symptom) && symptoms == old(symptoms)
    {
      ToggleKeepsNoRepeats(selected, symptom);
      ToggleStaysWithin(selected, symptom);
      selected := Toggle(selected, symptom);
    }

    /** The description text area. */
    method SetSymptoms(text: string)
      modifies this
      ensures symptoms == text && selected == old(selected)
    {
      symptoms := text;
    }

    /** The analyze button, which can only be pressed while enabled. */
    method Analyze() returns (payload: seq<string>)
      requires !AnalyzeDisabled(selected, symptoms)
      ensures payload == Payload(selected, symptoms)
      ensures selected != [] || !IsBlank(payload[|payload| - 1])
    {
      payload := Payload(selected, symptoms);
    }
  }
}
