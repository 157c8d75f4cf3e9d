/**
 `processInteractions` as the original runs it: one accumulator object whose counters are
 incremented in place, record after record, proved to end in the summary `Summarize`
 specifies.
 */
module Aggregator {

  import opened Records
  import opened Statistics

  /** The shared accumulator threaded through `reduce`. */
  class Stats {
    var totalInteractions: nat
    var likesSent: nat
    var likesReceived: nat
    var matches: nat
    var matchesFromLikesSent: nat
    var matchesFromLikesReceived: nat
    var meetups: nat
    var meetupsFromLikesSent: nat
    var meetupsFromLikesReceived: nat
    var totalChats: nat

    /** The counters as a value. */
    function Snapshot(): Summary
      reads this
    {
      Summary(totalInteractions, likesSent, likesReceived, matches, matchesFromLikesSent,
        matchesFromLikesReceived, meetups, meetupsFromLikesSent, meetupsFromLikesReceived, totalChats)
    }

    /** The initial accumulator for an input of `n` records. */
    constructor (n: nat)
      ensures Snapshot() == Initial(n)
    {
      totalInteractions := n;
      likesSent, likesReceived := 0, 0;
      matches, matchesFromLikesSent, matchesFromLikesReceived := 0, 0, 0;
      meetups, meetupsFromLikesSent, meetupsFromLikesReceived := 0, 0, 0;
      totalChats := 0;
    }

    /** `stats[`likes${likeType}`]++` */
    method BumpLikes(d: Direction)
      modifies this
      ensures Snapshot() == Statistics.BumpLikes(old(Snapshot()), d)
    {
      if d == Sent {
        likesSent := likesSent + 1;
      } else {
        likesReceived := likesReceived + 1;
      }
    }

    /** `stats.matches++` and `stats[`matchesFromLikes${likeType}`]++` */
    method BumpMatches(d: Direction)
      modifies this
      ensures Snapshot() == Statistics.BumpMatches(old(Snapshot()), d)
    {
      matches := matches + 1;
      if d == Sent {
        matchesFromLikesSent := matchesFromLikesSent + 1;
      } else {
        matchesFromLikesReceived := matchesFromLikesReceived + 1;
      }
    }

    /** `stats.meetups++` and `stats[`meetupsFromLikes${likeType}`]++` */
    method BumpMeetups(d: Direction)
      modifies this
      ensures Snapshot() == Statistics.BumpMeetups(old(Snapshot()), d)
    {
      meetups := meetups + 1;
      if d == Sent {
        meetupsFromLikesSent := meetupsFromLikesSent + 1;
      } else {
        meetupsFromLikesReceived := meetupsFromLikesReceived + 1;
      }
    }

    /** The body of the `reduce` callback for one record. */
    method Add(entry: Record)
      modifies this
      ensures Snapshot() == Step(old(Snapshot()), entry)
    {
      var likeType := DirectionOf(entry);
      BumpLikes(likeType);
      if entry.hasMatch {
        BumpMatches(likeType);
        if HasWeMet(entry.weMet) {
          BumpMeetups(likeType);
        }
      }
      if entry.chats.Some? {
        totalChats := totalChats + |entry.chats.value|;
      }
    }
  }

  /**
   `processInteractions`: a fresh accumulator, every record added in order, and the final
   counters returned. The result is the specified summary and satisfies its invariants.
   */
  method ProcessInteractions(interactions: seq<Record>) returns (summary: Summary)
    ensures summary == Summarize(interactions)
    ensures Consistent(summary)
  {
    var stats := new Stats(|interactions|);
    for i := 0 to |interactions|
      invariant stats.Snapshot() == Fold(Initial(|interactions|), interactions[..i])
    {
      assert interactions[..i + 1][..i] == interactions[..i];
      stats.Add(interactions[i]);
    }
    assert interactions[..|interactions|] == interactions;
    summary := stats.Snapshot();
    SummarizeConsistent(interactions);
  }

}
