/** Concrete exports and the summaries they give. */
module Scenarios {

  import opened Wrappers
  import opened Records
  import opened Statistics

  /** A single like sent, nothing else. */
  lemma SentLikeOnly()
    ensures Summarize([Record(true, false, None, None)]) == Summary(1, 1, 0, 0, 0, 0, 0, 0, 0, 0)
  {
  }

  /** A received like that matched and was met ("Yes"). */
  lemma ReceivedMatchMet()
    ensures Summarize([Record(false, true, None, Some([MeetReport(Some("Yes"))]))])
      == Summary(1, 0, 1, 1, 0, 1, 1, 0, 1, 0)
  {
  }

  /** A sent like that matched but was not met ("No"). */
  lemma SentMatchNotMet()
    ensures Summarize([Record(true, true, None, Some([MeetReport(Some("No"))]))])
      == Summary(1, 1, 0, 1, 1, 0, 0, 0, 0, 0)
  {
  }

  /** Chat messages are summed across records: three plus one. */
  lemma ChatsSummed()
    ensures Summarize([
      Record(false, false, Some([ChatMessage("a"), ChatMessage("b"), ChatMessage("c")]), None),
      Record(false, false, Some([ChatMessage("d")]), None)])
      == Summary(2, 0, 2, 0, 0, 0, 0, 0, 0, 4)
  {
    var first := Record(false, false, Some([ChatMessage("a"), ChatMessage("b"), ChatMessage("c")]), None);
    var second := Record(false, false, Some([ChatMessage("d")]), None);
    assert [first, second][..1] == [first];
    assert Fold(Initial(2), [first]) == Summary(2, 0, 1, 0, 0, 0, 0, 0, 0, 3);
  }

  /** A match without a `we_met` field is a match but not a meetup. */
  lemma MatchWithoutWeMet()
    ensures Summarize([Record(false, true, None, None)]) == Summary(1, 0, 1, 1, 0, 1, 0, 0, 0, 0)
  {
  }

  /** A "Yes" report on a record that did not match is not a meetup. */
  lemma YesWithoutMatch()
    ensures Summarize([Record(true, false, None, Some([MeetReport(Some("Yes"))]))])
      == Summary(1, 1, 0, 0, 0, 0, 0, 0, 0, 0)
  {
  }

}
