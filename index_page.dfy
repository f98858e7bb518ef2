/**
 * The landing page: the active section, starting at "nearby", and the page
 * drawn for it.  The header and the footer are always drawn; between them
 * each content section is drawn when the active section has its value.  The
 * symptom-filter section's line is commented out, so "symptoms" draws no
 * content at all.
 */
module Index {
  import Header

  /** The content sections the page can draw. */
  datatype Section = NearbySection | ConsultSection | LibrarySection

  /** The parts of the page, top to bottom. */
  datatype Part = HeaderPart(active: string) | Content(section: Section) | FooterPart

  /** The content drawn for the active section: the conditional lines, in
      order, each drawing its section or nothing. */
  function Contents(active: string): (r: seq<Section>)
    ensures |r| <= 1
    ensures NearbySection in r <==> active == "nearby"
    ensures ConsultSection in r <==> active == "consult"
    ensures LibrarySection in r <==> active == "library"
  {
    (if active == "nearby" then [NearbySection] else [])
    + (if active == "consult" then [ConsultSection] else [])
    + (if active == "library" then [LibrarySection] else [])
  }

  /** The page: header, content, footer. */
  function Page(active: string): (p: seq<Part>)
    ensures |p| >= 2 && p[0] == HeaderPart(active) && p[|p| - 1] == FooterPart
    ensures forall k :: 0 < k < |p| - 1 ==> p[k].Content?
    ensures |p| == |Contents(active)| + 2
    ensures forall k :: 0 <= k < |Contents(active)| ==> p[k + 1] == Content(Contents(active)[k])
  {
    [HeaderPart(active)] + seq(|Contents(active)|, k requires 0 <= k < |Contents(active)| => Content(Contents(active)[k]))
      + [FooterPart]
  }

  /** At most one content section is drawn, and it is the one whose value is
      active; "symptoms" and any other value draw none. */
  lemma AtMostOneSection(active: string)
    ensures |Contents(active)| <= 1
    ensures Contents(active) == [NearbySection] <==> active == "nearby"
    ensures Contents(active) == [ConsultSection] <==> active == "consult"
    ensures Contents(active) == [LibrarySection] <==> active == "library"
    ensures Contents(active) == [] <==> active != "nearby" && active != "consult" && active != "library"
    ensures Contents("symptoms") == []
  {
    if active == "consult" {
      assert Contents(active)[0] == ConsultSection;
    } else if active == "library" {
      assert Contents(active)[0] == LibrarySection;
    }
  }

  /** The page holds the header, at most one section and the footer; the
      section is there exactly for the three section values, and "symptoms"
      gives a page of header and footer alone. */
  lemma PageAtMostOneSection(active: string)
    ensures |Page(active)| <= 3
    ensures |Page(active)| == 3 <==> active == "nearby" || active == "consult" || active == "library"
    ensures Page("symptoms") == [HeaderPart("symptoms"), FooterPart]
  {
    AtMostOneSection(active);
    AtMostOneSection("symptoms");
  }

  /** The page's state: the active section. */
  class IndexPage {
    var active: string

    /** The active section is one a header button sets, or the initial one. */
    ghost predicate Valid()
      reads this
    {
      exists i :: 0 <= i < |Header.NavButtons| && Header.NavButtons[i].value == active
    }

    /** The page opens on the nearby section. */
    constructor ()
      ensures Valid()
      ensures active == "nearby" && Contents(active) == [NearbySection]
    {
      active := "nearby";
      new;
      assert Header.NavButtons[0].value == active;
    }

    /** A header button sets the active section to its value. */
    method Navigate(i: nat)
      requires i < |Header.NavButtons|
      requires Valid()
      modifies this
      ensures Valid()
      ensures active == Header.Click(i, old(active))
    {
      active := Header.Click(i, active);
    }
  }

  /** From the header, the library section is never drawn: every section a
      button or the start can set draws something other than the library. */
  lemma LibraryUnreachable(active: string)
    requires exists i :: 0 <= i < |Header.NavButtons| && Header.NavButtons[i].value == active
    ensures LibrarySection !in Contents(active)
  {
    var i :| 0 <= i < |Header.NavButtons| && Header.NavButtons[i].value == active;
    Header.NoLibraryButton(i, active);
  }
}
