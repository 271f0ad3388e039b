/** Which hostels a student may choose from, by gender. */
module HostelSelection {
  import opened Text

  const FemaleHostels: seq<string> := ["EGW", "Nagsda"]
  const MaleHostels: seq<string> := ["J.J.Nortey", "Bediako"]

  /** The hostel list shown for a profile's gender: the female hostels when the
      gender lower-cases to "female", the male hostels for anything else. */
  function HostelsFor(gender: string): (r: seq<string>)
    ensures |r| == 2
    ensures r == FemaleHostels <==> Lower(gender) == "female"
    ensures r == MaleHostels <==> Lower(gender) != "female"
  {
    if Lower(gender) == "female" then FemaleHostels else MaleHostels
  }

  /** No hostel is offered to both genders. */
  lemma HostelListsDisjoint()
    ensures forall h | h in FemaleHostels :: h !in MaleHostels
  {
  }

  /** The gender comparison ignores letter case. */
  lemma HostelsForIgnoresCase(g1: string, g2: string)
    requires Lower(g1) == Lower(g2)
    ensures HostelsFor(g1) == HostelsFor(g2)
  {
  }

  /** "Female", "FEMALE" and "female" all select the female hostels. */
  lemma FemaleSpellings()
    ensures HostelsFor("female") == FemaleHostels
    ensures HostelsFor("Female") == FemaleHostels
    ensures HostelsFor("FEMALE") == FemaleHostels
    ensures HostelsFor("male") == MaleHostels
    ensures HostelsFor("") == MaleHostels
  {
    assert Lower("Female") == "female";
    assert Lower("FEMALE") == "female";
  }

  /** One hostel card: the name it shows and the name choosing it passes on. */
  datatype HostelCard = HostelCard(caption: string, selects: string)

  /** The cards of the hostel screen, one per hostel in list order; each passes
      on the very name it shows. */
  function HostelCards(gender: string): (cards: seq<HostelCard>)
    ensures |cards| == |HostelsFor(gender)|
    ensures forall i | 0 <= i < |cards| ::
      cards[i].caption == HostelsFor(gender)[i] && cards[i].selects == cards[i].caption
  {
    var names := HostelsFor(gender);
    seq(|names|, i requires 0 <= i < |names| => HostelCard(names[i], names[i]))
  }
}
