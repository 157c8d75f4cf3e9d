/**
 The output side of the aggregation and its pure specification: the ten counters of the
 summary, the effect of one record on them (the `reduce` callback), the fold over a whole
 export, and what the fold is proved to compute.
 */
module Statistics {

  import opened Records

  /** The summary object, one field per counter of the original accumulator. */
  datatype Summary = Summary(
    totalInteractions: nat,
    likesSent: nat,
    likesReceived: nat,
    matches: nat,
    matchesFromLikesSent: nat,
    matchesFromLikesReceived: nat,
    meetups: nat,
    meetupsFromLikesSent: nat,
    meetupsFromLikesReceived: nat,
    totalChats: nat)

  /** The initial accumulator: the input length, and every other counter at zero. */
  function Initial(n: nat): Summary
  {
    Summary(n, 0, 0, 0, 0, 0, 0, 0, 0, 0)
  }

  /** `likes<direction>++` */
  function BumpLikes(s: Summary, d: Direction): Summary
  {
    match d
    case Sent => s.(likesSent := s.likesSent + 1)
    case Received => s.(likesReceived := s.likesReceived + 1)
  }

  /** `matches++` and `matchesFromLikes<direction>++` */
  function BumpMatches(s: Summary, d: Direction): Summary
  {
    match d
    case Sent => s.(matches := s.matches + 1, matchesFromLikesSent := s.matchesFromLikesSent + 1)
    case Received => s.(matches := s.matches + 1, matchesFromLikesReceived := s.matchesFromLikesReceived + 1)
  }

  /** `meetups++` and `meetupsFromLikes<direction>++` */
  function BumpMeetups(s: Summary, d: Direction): Summary
  {
    match d
    case Sent => s.(meetups := s.meetups + 1, meetupsFromLikesSent := s.meetupsFromLikesSent + 1)
    case Received => s.(meetups := s.meetups + 1, meetupsFromLikesReceived := s.meetupsFromLikesReceived + 1)
  }

  /** The number of chat messages a record adds to `totalChats`. */
  function ChatCount(r: Record): nat
  {
    if r.chats.Some? then |r.chats.value| else 0
  }

  /**
   The `reduce` callback: one likes counter by direction; on a match the match counters and,
   only there, the meetup counters; then the chat messages.
   */
  function Step(s: Summary, r: Record): Summary
  {
    var d := DirectionOf(r);
    var liked := BumpLikes(s, d);
    var counted :=
      if r.hasMatch then
        var matched := BumpMatches(liked, d);
        if HasWeMet(r.weMet) then BumpMeetups(matched, d) else matched
      else liked;
    if r.chats.Some? then counted.(totalChats := counted.totalChats + |r.chats.value|) else counted
  }

  /** `reduce` from the first record to the last, starting from `s`. */
  function Fold(s: Summary, rs: seq<Record>): Summary
    decreases |rs|
  {
    if rs == [] then s else Step(Fold(s, rs[..|rs| - 1]), rs[|rs| - 1])
  }

  /** `processInteractions`: the fold started from the initial accumulator. */
  function Summarize(rs: seq<Record>): Summary
  {
    Fold(Initial(|rs|), rs)
  }

  // ---------------------------------------------------------------------------
  // A reference definition: each counter as a sum over the records.

  /** What a counter counts, independently of the order the records come in. */
  datatype Metric = LikesFrom(d: Direction) | MatchesFrom(d: Direction) | MeetupsFrom(d: Direction) | ChatMessages

  /** How much one record contributes to a metric. */
  function Weight(r: Record, m: Metric): nat
  {
    match m
    case LikesFrom(d) => if DirectionOf(r) == d then 1 else 0
    case MatchesFrom(d) => if r.hasMatch && DirectionOf(r) == d then 1 else 0
    case MeetupsFrom(d) => if r.hasMatch && HasWeMet(r.weMet) && DirectionOf(r) == d then 1 else 0
    case ChatMessages => ChatCount(r)
  }

  /** The sum of a metric's weights over a sequence of records. */
  function Total(rs: seq<Record>, m: Metric): nat
    decreases |rs|
  {
    if rs == [] then 0 else Total(rs[..|rs| - 1], m) + Weight(rs[|rs| - 1], m)
  }

  lemma {:induction false} TotalConcat(a: seq<Record>, b: seq<Record>, m: Metric)
    ensures Total(a + b, m) == Total(a, m) + Total(b, m)
    decreases |b|
  {
    if b == [] {
      assert a + b == a;
    } else {
      assert (a + b)[..|a + b| - 1] == a + b[..|b| - 1];
      TotalConcat(a, b[..|b| - 1], m);
    }
  }

  /** A sum over the records does not depend on their order. */
  lemma {:induction false} TotalPermutation(a: seq<Record>, b: seq<Record>, m: Metric)
    requires multiset(a) == multiset(b)
    ensures Total(a, m) == Total(b, m)
    decreases |a|
  {
    if a != [] {
      var n := |a| - 1;
      var x := a[n];
      assert a == a[..n] + [x];
      assert x in multiset(b);
      var j :| 0 <= j < |b| && b[j] == x;
      var rest := b[..j] + b[j + 1..];
      assert b == b[..j] + [x] + b[j + 1..];
      assert multiset(a[..n]) == multiset(a) - multiset{x};
      TotalPermutation(a[..n], rest, m);
      TotalConcat(b[..j], b[j + 1..], m);
      TotalConcat(b[..j] + [x], b[j + 1..], m);
    }
  }

  /** If a metric never weighs a record more than another, neither does its total. */
  lemma {:induction false} TotalMonotone(rs: seq<Record>, m1: Metric, m2: Metric)
    requires forall i :: 0 <= i < |rs| ==> Weight(rs[i], m1) <= Weight(rs[i], m2)
    ensures Total(rs, m1) <= Total(rs, m2)
    decreases |rs|
  {
    if rs != [] {
      TotalMonotone(rs[..|rs| - 1], m1, m2);
    }
  }

  /** A metric that weighs every record zero totals zero. */
  lemma {:induction false} TotalZero(rs: seq<Record>, m: Metric)
    requires forall i :: 0 <= i < |rs| ==> Weight(rs[i], m) == 0
    ensures Total(rs, m) == 0
    decreases |rs|
  {
    if rs != [] {
      TotalZero(rs[..|rs| - 1], m);
    }
  }

  /** Every record is exactly one like, sent or received. */
  lemma {:induction false} LikesCoverAll(rs: seq<Record>)
    ensures Total(rs, LikesFrom(Sent)) + Total(rs, LikesFrom(Received)) == |rs|
    decreases |rs|
  {
    if rs != [] {
      LikesCoverAll(rs[..|rs| - 1]);
    }
  }

  // ---------------------------------------------------------------------------
  // What the fold computes.

  /**
   Folding records into an accumulator adds each counter's total over those records to it,
   and leaves `totalInteractions` as it was.
   */
  lemma {:induction false} FoldCounts(s: Summary, rs: seq<Record>)
    ensures Fold(s, rs).totalInteractions == s.totalInteractions
    ensures Fold(s, rs).likesSent == s.likesSent + Total(rs, LikesFrom(Sent))
    ensures Fold(s, rs).likesReceived == s.likesReceived + Total(rs, LikesFrom(Received))
    ensures Fold(s, rs).matches == s.matches + Total(rs, MatchesFrom(Sent)) + Total(rs, MatchesFrom(Received))
    ensures Fold(s, rs).matchesFromLikesSent == s.matchesFromLikesSent + Total(rs, MatchesFrom(Sent))
    ensures Fold(s, rs).matchesFromLikesReceived == s.matchesFromLikesReceived + Total(rs, MatchesFrom(Received))
    ensures Fold(s, rs).meetups == s.meetups + Total(rs, MeetupsFrom(Sent)) + Total(rs, MeetupsFrom(Received))
    ensures Fold(s, rs).meetupsFromLikesSent == s.meetupsFromLikesSent + Total(rs, MeetupsFrom(Sent))
    ensures Fold(s, rs).meetupsFromLikesReceived == s.meetupsFromLikesReceived + Total(rs, MeetupsFrom(Received))
    ensures Fold(s, rs).totalChats == s.totalChats + Total(rs, ChatMessages)
    decreases |rs|
  {
    if rs != [] {
      FoldCounts(s, rs[..|rs| - 1]);
    }
  }

  /**
   The summary of an export in closed form: `totalInteractions` is the number of records, and
   every other counter counts (or, for chats, sums over) the records it is about.
   */
  lemma SummarizeCounts(rs: seq<Record>)
    ensures Summarize(rs) == Summary(
      |rs|,
      Total(rs, LikesFrom(Sent)),
      Total(rs, LikesFrom(Received)),
      Total(rs, MatchesFrom(Sent)) + Total(rs, MatchesFrom(Received)),
      Total(rs, MatchesFrom(Sent)),
      Total(rs, MatchesFrom(Received)),
      Total(rs, MeetupsFrom(Sent)) + Total(rs, MeetupsFrom(Received)),
      Total(rs, MeetupsFrom(Sent)),
      Total(rs, MeetupsFrom(Received)),
      Total(rs, ChatMessages))
  {
    FoldCounts(Initial(|rs|), rs);
  }

  /** The invariants of a summary: the split counters add up and the funnel narrows. */
  predicate Consistent(s: Summary)
  {
    && s.likesSent + s.likesReceived == s.totalInteractions
    && s.matchesFromLikesSent + s.matchesFromLikesReceived == s.matches
    && s.meetupsFromLikesSent + s.meetupsFromLikesReceived == s.meetups
    && s.meetupsFromLikesSent <= s.matchesFromLikesSent <= s.likesSent
    && s.meetupsFromLikesReceived <= s.matchesFromLikesReceived <= s.likesReceived
    && s.meetups <= s.matches <= s.totalInteractions
  }

  /** Every summary of an export satisfies the invariants. */
  lemma SummarizeConsistent(rs: seq<Record>)
    ensures Consistent(Summarize(rs))
  {
    SummarizeCounts(rs);
    LikesCoverAll(rs);
    TotalMonotone(rs, MeetupsFrom(Sent), MatchesFrom(Sent));
    TotalMonotone(rs, MatchesFrom(Sent), LikesFrom(Sent));
    TotalMonotone(rs, MeetupsFrom(Received), MatchesFrom(Received));
    TotalMonotone(rs, MatchesFrom(Received), LikesFrom(Received));
  }

  /** Reordering the records does not change the summary. */
  lemma SummarizePermutation(a: seq<Record>, b: seq<Record>)
    requires multiset(a) == multiset(b)
    ensures Summarize(a) == Summarize(b)
  {
    assert |a| == |multiset(a)| == |multiset(b)| == |b|;
    SummarizeCounts(a);
    SummarizeCounts(b);
    TotalPermutation(a, b, LikesFrom(Sent));
    TotalPermutation(a, b, LikesFrom(Received));
    TotalPermutation(a, b, MatchesFrom(Sent));
    TotalPermutation(a, b, MatchesFrom(Received));
    TotalPermutation(a, b, MeetupsFrom(Sent));
    TotalPermutation(a, b, MeetupsFrom(Received));
    TotalPermutation(a, b, ChatMessages);
  }

  /** An empty export gives all ten counters zero. */
  lemma SummarizeEmpty()
    ensures Summarize([]) == Summary(0, 0, 0, 0, 0, 0, 0, 0, 0, 0)
  {
  }

  /** Counters only grow: `t` is at least `s` in every field. */
  predicate AtMost(s: Summary, t: Summary)
  {
    && s.totalInteractions <= t.totalInteractions
    && s.likesSent <= t.likesSent && s.likesReceived <= t.likesReceived
    && s.matches <= t.matches
    && s.matchesFromLikesSent <= t.matchesFromLikesSent && s.matchesFromLikesReceived <= t.matchesFromLikesReceived
    && s.meetups <= t.meetups
    && s.meetupsFromLikesSent <= t.meetupsFromLikesSent && s.meetupsFromLikesReceived <= t.meetupsFromLikesReceived
    && s.totalChats <= t.totalChats
  }

  /**
   One record raises exactly one likes counter by one, raises the match and meetup counters
   by at most one, and lowers nothing.
   */
  lemma StepOneLike(s: Summary, r: Record)
    ensures AtMost(s, Step(s, r))
    ensures Step(s, r).likesSent + Step(s, r).likesReceived == s.likesSent + s.likesReceived + 1
    ensures Step(s, r).matches <= s.matches + 1 && Step(s, r).meetups <= s.meetups + 1
    ensures Step(s, r).totalInteractions == s.totalInteractions
  {
  }

  /** The accumulator only grows over the whole pass. */
  lemma {:induction false} FoldGrows(s: Summary, rs: seq<Record>)
    ensures AtMost(s, Fold(s, rs))
    decreases |rs|
  {
    if rs != [] {
      FoldGrows(s, rs[..|rs| - 1]);
      StepOneLike(Fold(s, rs[..|rs| - 1]), rs[|rs| - 1]);
    }
  }

  /**
   Without a match a record touches no match or meetup counter, even when its `we_met`
   reports "Yes".
   */
  lemma NoMatchNoMeetup(s: Summary, r: Record)
    requires !r.hasMatch
    ensures Step(s, r).matches == s.matches
    ensures Step(s, r).matchesFromLikesSent == s.matchesFromLikesSent
    ensures Step(s, r).matchesFromLikesReceived == s.matchesFromLikesReceived
    ensures Step(s, r).meetups == s.meetups
    ensures Step(s, r).meetupsFromLikesSent == s.meetupsFromLikesSent
    ensures Step(s, r).meetupsFromLikesReceived == s.meetupsFromLikesReceived
  {
  }

  /** An export with no match has no meetups, whatever its `we_met` fields say. */
  lemma {:induction false} NoMatchesNoMeetups(rs: seq<Record>)
    requires forall i :: 0 <= i < |rs| ==> !rs[i].hasMatch
    ensures Summarize(rs).matches == 0 && Summarize(rs).meetups == 0
  {
    SummarizeConsistent(rs);
    SummarizeCounts(rs);
    TotalZero(rs, MatchesFrom(Sent));
    TotalZero(rs, MatchesFrom(Received));
  }

  /** A record counts as a meetup exactly when it matched and its `we_met` reports "Yes". */
  lemma MeetupIff(s: Summary, r: Record)
    ensures Step(s, r).meetups == s.meetups + 1 <==> r.hasMatch && HasWeMet(r.weMet)
    ensures Step(s, r).meetups == s.meetups <==> !(r.hasMatch && HasWeMet(r.weMet))
  {
  }

}
