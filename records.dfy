/**
 The input side of the aggregation: one decoded interaction record of a dating-app
 export, with the truthiness tests of the original already resolved.

 - `hasLike` and `hasMatch` are the truth values of `!!entry.like` and `!!entry.match`.
 - `chats` is `Some(messages)` when the record carries a chat array and `None` when the
   field is missing or falsy; only the number of messages is ever used.
 - `weMet` is `Some(reports)` exactly when the field is an array and `None` otherwise.
 - A meetup report's `didMeetSubject` is `Some(text)` when the field holds a string and
   `None` when it is missing or holds anything else (it can then never equal "Yes").
 */
module Records {

  import opened Wrappers

  /** One chat message of a record; the aggregation only counts them. */
  datatype ChatMessage = ChatMessage(body: string)

  /** One entry of a record's `we_met` array. */
  datatype MeetReport = MeetReport(didMeetSubject: Option<string>)

  datatype Record = Record(
    hasLike: bool,
    hasMatch: bool,
    chats: Option<seq<ChatMessage>>,
    weMet: Option<seq<MeetReport>>)

  /** Who sent the like that started the interaction. */
  datatype Direction = Sent | Received

  /** A record is a like sent when its `like` field is truthy, and a like received otherwise. */
  function DirectionOf(r: Record): Direction
  {
    if r.hasLike then Sent else Received
  }

  /** A report confirms a meetup only with the exact string "Yes". */
  predicate IsYes(report: MeetReport)
  {
    report.didMeetSubject == Some("Yes")
  }

  /** The left-to-right scan of `Array.prototype.some` over the reports. */
  predicate AnyYes(reports: seq<MeetReport>)
  {
    if reports == [] then false else IsYes(reports[0]) || AnyYes(reports[1..])
  }

  /** `hasWeMet`: the field is an array and one of its reports says "Yes". */
  predicate HasWeMet(weMet: Option<seq<MeetReport>>)
  {
    weMet.Some? && AnyYes(weMet.value)
  }

  /** The scan finds a "Yes" exactly when some position holds one. */
  lemma {:induction false} AnyYesIff(reports: seq<MeetReport>)
    ensures AnyYes(reports) <==> exists i :: 0 <= i < |reports| && IsYes(reports[i])
  {
    if reports != [] {
      AnyYesIff(reports[1..]);
      if AnyYes(reports[1..]) {
        var i :| 0 <= i < |reports[1..]| && IsYes(reports[1..][i]);
        assert IsYes(reports[i + 1]);
      } else if !IsYes(reports[0]) {
        forall i | 0 <= i < |reports|
          ensures !IsYes(reports[i])
        {
          if i > 0 {
            assert reports[i] == reports[1..][i - 1];
          }
        }
      }
    }
  }

  /**
   `hasWeMet` holds iff `we_met` is an array with a report whose `did_meet_subject` is "Yes";
   an absent field, an empty array and an array without "Yes" all give false.
   */
  lemma HasWeMetIff(weMet: Option<seq<MeetReport>>)
    ensures HasWeMet(weMet) <==>
      weMet.Some? && exists i :: 0 <= i < |weMet.value| && weMet.value[i].didMeetSubject == Some("Yes")
    ensures weMet == None ==> !HasWeMet(weMet)
    ensures weMet == Some([]) ==> !HasWeMet(weMet)
  {
    if weMet.Some? {
      AnyYesIff(weMet.value);
    }
  }

}
