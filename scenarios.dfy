/** Worked instances of the search policy on concrete issues. */
module Scenarios {
  import opened Wrappers
  import opened Types
  import opened Text
  import opened Api
  import opened Search

  /** A title hit needs no request and is reported with only the title flag set. */
  lemma TitleHitCostsNothing(server: Server, count: nat)
    ensures var issue := Issue("id-1", "ENG-1", "Fix API crash", "https://linear.app/i/1", None, None);
      Examine(server, SearchOptions("api", false, false), issue, count)
        == Examined(Some(Match("Unknown", "ENG-1", "Fix API crash", "https://linear.app/i/1", true, false, [])), count, [])
  {
    var title := "Fix API crash";
    assert Lower("api") == "api";
    assert Lower(title)[4..7] == "api";
    assert OccursAt(Lower(title), "api", 4);
    ContainsIffOccurs(Lower(title), "api");
  }

  /**
   * A description hit is reported with the description flag set and, although comment search
   * is on, no comment is fetched for it.
   */
  lemma DescriptionHitSkipsComments(server: Server, count: nat)
    ensures var issue := Issue("id-2", "ENG-2", "Bug", "https://linear.app/i/2",
                               Some("relates to the API"), Some(TeamInfo("ENG", "Engineering")));
      Examine(server, SearchOptions("api", true, true), issue, count)
        == Examined(Some(Match("[ENG] Engineering", "ENG-2", "Bug", "https://linear.app/i/2", false, true, [])), count, [])
  {
    var desc := "relates to the API";
    assert Lower("api") == "api";
    assert Lower("Bug") == "bug";
    ContainsIffOccurs("bug", "api");
    assert "bug"[0..3][0] != "api"[0];
    assert forall i :: !OccursAt("bug", "api", i);
    assert !Contains(Lower("Bug"), "api");
    assert Lower(desc)[15..18] == "api";
    assert OccursAt(Lower(desc), "api", 15);
    ContainsIffOccurs(Lower(desc), "api");
    assert "[" + "ENG" + "] " + "Engineering" == "[ENG] Engineering";
  }
}
