/**
 * The single-choice symptom filter: one selected id, a table from ids to the
 * practitioners who treat that concern (an id without an entry shows none),
 * an empty-state card when nobody matches, and a health tip per id.  Nothing
 * below the buttons is shown while no id is selected.
 */
module Filter {
  import opened Opt
  import opened Doctors

  /** A concern button: the id it selects and the caption it shows.  Icons and
      colours are presentation only. */
  datatype SymptomOption = SymptomOption(id: string, caption: string)

  /** The buttons, in the order they are drawn. */
  const Options: seq<SymptomOption> := [
    SymptomOption("pcos", "PCOS / Irregular Periods"),
    SymptomOption("pregnancy", "No Pregnancy / Contraceptive Help"),
    SymptomOption("infection", "Infection / Hygiene Issues"),
    SymptomOption("pain", "Pain / Discomfort"),
    SymptomOption("reports", "Report Diagnosis Help")
  ]

  /** `id` is the id of one of the buttons. */
  ghost predicate Offered(id: string) {
    exists i :: 0 <= i < |Options| && Options[i].id == id
  }

  /** `doctorsBySymptom`: only three of the five ids have an entry. */
  const DoctorsBySymptom: map<string, seq<Doctor>> :=
    map["pcos" := [Radhika], "infection" := [Anjali], "pregnancy" := [Nidhi]]

  /** `doctorsBySymptom[id] || []`: the entry for `id`, or no one. */
  function Shown(id: string): (r: seq<Doctor>)
    ensures |r| <= 1
    ensures r != [] <==> id == "pcos" || id == "infection" || id == "pregnancy"
    ensures r != [] ==> r[0] in [Radhika, Nidhi, Anjali]
  {
    if id in DoctorsBySymptom then DoctorsBySymptom[id] else []
  }

  /** The "Finding specialists for you..." card: `id` has no entry, or an
      empty one. */
  function EmptyState(id: string): (e: bool)
    ensures e <==> Shown(id) == []
  {
    id !in DoctorsBySymptom || |DoctorsBySymptom[id]| == 0
  }

  /** The tip lines, each guarded by the id it belongs to, in the order they
      are written. */
  const Tips: seq<(string, string)> := [
    ("pcos", "PCOS can be managed with proper diet, exercise, and medical care. Regular check-ups are important."),
    ("infection", "Maintain good hygiene, wear breathable fabrics, and consult a doctor for proper treatment."),
    ("pregnancy", "Contraceptive counseling helps you make informed choices about your reproductive health."),
    ("pain", "Pelvic pain should not be ignored. Early consultation can help identify and treat the cause."),
    ("reports", "Bring all your medical reports and test results for accurate diagnosis and treatment.")
  ]

  /** The tip paragraph: each line `{id === key && text}` contributes its text
      when its key is the selected id and nothing otherwise. */
  function TipText(tips: seq<(string, string)>, id: string): (r: string)
    ensures r != "" ==> exists k :: 0 <= k < |tips| && tips[k].0 == id
    ensures r == "" ==> forall k :: 0 <= k < |tips| && tips[k].0 == id ==> tips[k].1 == ""
  {
    if tips == [] then ""
    else
      var rest := TipText(tips[1..], id);
      assert forall k :: 1 <= k < |tips| ==> tips[k] == tips[1..][k - 1];
      (if tips[0].0 == id then tips[0].1 else "") + rest
  }

  /** When exactly one line is guarded by `id`, the paragraph is that line. */
  lemma {:induction false} TipTextUnique(tips: seq<(string, string)>, id: string, k: nat)
    requires k < |tips| && tips[k].0 == id
    requires forall j :: 0 <= j < |tips| && j != k ==> tips[j].0 != id
    ensures TipText(tips, id) == tips[k].1
  {
    if k == 0 {
      TipTextNone(tips[1..], id);
    } else {
      TipTextUnique(tips[1..], id, k - 1);
    }
  }

  /** When no line is guarded by `id`, the paragraph is empty. */
  lemma {:induction false} TipTextNone(tips: seq<(string, string)>, id: string)
    requires forall j :: 0 <= j < |tips| ==> tips[j].0 != id
    ensures TipText(tips, id) == ""
  {
    if tips != [] {
      TipTextNone(tips[1..], id);
    }
  }

  /** What is drawn below the buttons for the matching section: the cards and
      whether the empty-state card appears. */
  datatype Matches = Matches(doctors: seq<Doctor>, emptyState: bool)

  /** Everything below the buttons: both parts are guarded by `selectedSymptom`. */
  datatype View = View(matches: Option<Matches>, tip: Option<string>)

  function Render(id: string): (v: View)
    ensures v.matches.None? <==> id == ""
    ensures v.tip.None? <==> id == ""
  {
    if id == "" then View(None, None)
    else View(Some(Matches(Shown(id), EmptyState(id))), Some(TipText(Tips, id)))
  }

  /** The three concerns with an entry show their one specialist. */
  lemma ShownSpecialists()
    ensures Shown("pcos") == [Radhika] && Radhika.name == "Dr. Radhika Sen"
    ensures Shown("infection") == [Anjali] && Anjali.name == "Dr. Anjali Sharma"
    ensures Shown("pregnancy") == [Nidhi] && Nidhi.name == "Dr. Nidhi Kapoor"
  {
  }

  /** The empty-state card appears exactly when no card is drawn, which among
      the buttons is for "pain" and "reports". */
  lemma EmptyStateExactly(id: string)
    ensures EmptyState(id) <==> Shown(id) == []
    ensures Offered(id) ==> (EmptyState(id) <==> id == "pain" || id == "reports")
  {
  }

  /** The guards of the tip lines are the button ids, each exactly once. */
  lemma TipKeysAreOptionIds()
    ensures |Tips| == |Options|
    ensures forall k :: 0 <= k < |Tips| ==> Offered(Tips[k].0)
    ensures forall j, k :: 0 <= j < k < |Tips| ==> Tips[j].0 != Tips[k].0
  {
    assert Options[0].id == Tips[0].0;
    assert Options[1].id == Tips[2].0;
    assert Options[2].id == Tips[1].0;
    assert Options[3].id == Tips[3].0;
    assert Options[4].id == Tips[4].0;
  }

  /** Each button's id selects exactly one tip line, and that line's text is
      the whole tip paragraph. */
  lemma OneTipPerOption(i: nat)
    requires i < |Options|
    ensures exists k :: 0 <= k < |Tips| && Tips[k].0 == Options[i].id
                        && Render(Options[i].id).tip == Some(Tips[k].1)
  {
    var k := if i == 1 then 2 else if i == 2 then 1 else i;
    TipKeysAreOptionIds();
    assert Tips[k].0 == Options[i].id;
    TipTextUnique(Tips, Options[i].id, k);
  }

  /** An id that is not a button's id, other than "", gets an empty tip
      paragraph and no cards. */
  lemma UnknownIdShowsNothing(id: string)
    requires id != "" && !Offered(id)
    ensures Render(id) == View(Some(Matches([], true)), Some(""))
  {
    TipKeysAreOptionIds();
    TipTextNone(Tips, id);
  }

  /** The component's state: the selected concern. */
  class SymptomFilter {
    var selected: string

    /** The selection is empty or one of the button ids. */
    ghost predicate Valid()
      reads this
    {
      selected == "" || Offered(selected)
    }

    /** Nothing is selected at first, so nothing is shown below the buttons. */
    constructor ()
      ensures Valid()
      ensures selected == "" && Render(selected) == View(None, None)
    {
      selected := "";
    }

    /** Clicking the `i`-th button selects its id, whatever was selected
        before; clicking it again selects the same id. */
    method Select(i: nat)
      requires i < |Options|
      modifies this
      ensures Valid()
      ensures selected == Options[i].id
    {
      selected := Options[i].id;
    }
  }
}
