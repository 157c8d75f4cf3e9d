# hinge-analyser: the interaction aggregator

This project models `processInteractions` of hinge-analyser (`src/App.tsx`). It is the one
function in the repository with real logic. It takes the decoded array of records from a
Hinge data export and reduces it, in a single pass, to ten counters:

- total interactions;
- likes sent and likes received;
- matches, in total and by the direction of the like;
- meetups, in total and by the direction of the like;
- the total number of chat messages.

The model has five modules:

- `Wrappers` (`wrappers.dfy`): the `Option` type.
- `Records` (`records.dfy`): the input record, the like `Direction`, and the `hasWeMet` test.
  `AnyYes` is the left-to-right scan of `Array.prototype.some`.
- `Statistics` (`statistics.dfy`): the `Summary` of ten counters and the initial accumulator.
  `Step` is the `reduce` callback, with one helper per direction-keyed increment
  (`BumpLikes`, `BumpMatches`, `BumpMeetups`). `Fold` is `reduce`, and `Summarize` is
  `processInteractions`. As an independent reference, every counter is also defined as a
  sum over the records (`Metric`, `Weight`, `Total`). The lemmas prove that the fold
  computes those sums, that its invariants hold, and that it does not depend on the order
  of the records.
- `Aggregator` (`aggregator.dfy`): the source as it runs. The class `Stats` is the shared
  accumulator object, and its methods increment its fields in place. `ProcessInteractions`
  loops over the records and is proved to return exactly `Summarize` of its input.
- `Scenarios` (`scenarios.dfy`): concrete exports and the summaries they give.

Typing assumptions at the input boundary. JSON decoding and the truthiness tests happen
before the model starts:

- `hasLike` and `hasMatch` are the values of `!!entry.like` and `!!entry.match`.
- `chats` is `Some(messages)` for a chat array and `None` when the field is falsy. An empty
  array is truthy in JavaScript, so it is `Some([])` and adds 0.
- `weMet` is `Some(reports)` exactly when `Array.isArray(entry.we_met)` holds.
- A report's `didMeetSubject` is `Some(text)` when it holds a string and `None` otherwise. A
  `None` compares unequal to `"Yes"`, as `===` does for every value that is not a string.

`ProcessInteractions` returns the final counters as a `Summary` value. The source returns the
accumulator object itself, and the caller only reads its fields.

## Model

| member | source | states |
|---|---|---|
| `Records.AnyYesIff` | src/App.tsx:12 | the `some` scan over the `we_met` reports is true iff some position holds a report whose `did_meet_subject` is exactly "Yes" |
| `Records.HasWeMetIff` | src/App.tsx:11-12 | `hasWeMet` holds iff `we_met` is an array with an element whose `did_meet_subject` is "Yes"; a missing field or an empty array gives false |
| `Statistics.FoldCounts` | src/App.tsx:7-32 | folding records into any accumulator adds to each counter its total over those records: one like per record for its direction, one match per matched record, one meetup per matched record that reports "Yes", and the chat-array lengths; `totalInteractions` is not touched |
| `Statistics.SummarizeCounts` | src/App.tsx:6-45 | the summary in closed form: `totalInteractions` is the input length, and every other counter is the count of records it is about (for `totalChats`, the sum of the present chat arrays' lengths) |
| `Statistics.LikesCoverAll` | src/App.tsx:14-16 | every record is exactly one like, sent or received, so the two like totals add up to the number of records |
| `Statistics.TotalPermutation` | src/App.tsx:7-32 | a per-record count or sum does not depend on the order of the records |
| `Statistics.SummarizeConsistent` | src/App.tsx:14-34 | likesSent + likesReceived == totalInteractions; the match and meetup direction splits add up to matches and meetups; meetupsFromLikesX <= matchesFromLikesX <= likesX for each direction; meetups <= matches <= totalInteractions |
| `Statistics.SummarizePermutation` | src/App.tsx:7-44 | two inputs with the same records, in any order, give the same summary |
| `Statistics.SummarizeEmpty` | src/App.tsx:33-44 | an empty input gives all ten counters zero |
| `Statistics.StepOneLike` | src/App.tsx:14-29 | one record raises exactly one likes counter by one and matches and meetups by at most one; it lowers no counter and leaves totalInteractions alone |
| `Statistics.FoldGrows` | src/App.tsx:7-32 | over the whole pass every counter only grows |
| `Statistics.NoMatchNoMeetup` | src/App.tsx:18-26 | a record without a match changes no match or meetup counter, even if its `we_met` says "Yes" |
| `Statistics.NoMatchesNoMeetups` | src/App.tsx:18-26 | an input with no matched record has zero matches and zero meetups, whatever its `we_met` fields say |
| `Statistics.MeetupIff` | src/App.tsx:11-24 | a record raises `meetups` by one iff it matched and `hasWeMet` holds, and leaves it unchanged otherwise |
| `Aggregator.Stats.constructor` | src/App.tsx:33-44 | the fresh accumulator holds the input length in totalInteractions and zero in every other counter |
| `Aggregator.Stats.BumpLikes` | src/App.tsx:16 | increments exactly the likes counter of the given direction |
| `Aggregator.Stats.BumpMatches` | src/App.tsx:19-20 | increments matches and the match counter of the given direction, and nothing else |
| `Aggregator.Stats.BumpMeetups` | src/App.tsx:23-24 | increments meetups and the meetup counter of the given direction, and nothing else |
| `Aggregator.Stats.Add` | src/App.tsx:7-32 | the in-place update for one record leaves the accumulator equal to `Step` of its old value |
| `Aggregator.ProcessInteractions` | src/App.tsx:6-45 | the loop over the records returns exactly `Summarize` of the input, and the result satisfies every invariant of `Consistent` |
| `Scenarios.SentLikeOnly` | src/App.tsx:14-16 | one record with a sent like and nothing else gives totalInteractions 1, likesSent 1 and every other counter 0 |
| `Scenarios.ReceivedMatchMet` | src/App.tsx:18-24 | a received like that matched, with a "Yes" report, counts as a received like, a match from a received like and a meetup from a received like |
| `Scenarios.SentMatchNotMet` | src/App.tsx:11-24 | a sent like that matched, with only a "No" report, counts as a match from a sent like and not as a meetup |
| `Scenarios.ChatsSummed` | src/App.tsx:28-30 | chat arrays of length 3 and 1 give totalChats 4, and two interactions |
| `Scenarios.MatchWithoutWeMet` | src/App.tsx:11-20 | a match with no `we_met` field counts as a match and not as a meetup |
| `Scenarios.YesWithoutMatch` | src/App.tsx:18-22 | a "Yes" report on a record that did not match counts as no meetup |

## Left out

- The `App` component (src/App.tsx:47-71) is not part of this model. It handles the file input, `FileReader`, `JSON.parse` with its error message, the Solid signal and console logging. These are I/O and browser plumbing. The model starts from an already decoded sequence of records.
- The JSX rendering and its percentage displays (src/App.tsx:73-193) are not part of this model. They are presentation work with floating-point division and `toFixed(2)`.
- src/SankeyChart.tsx is not part of this model. It only copies five counters into a Chart.js Sankey configuration.
- JavaScript's dynamic typing is reduced to the typed record described above. The inputs the record cannot express are not modelled:
  - An input that is not an array throws at `interactions.reduce` (src/App.tsx:7) before any record is read.
  - A `null` or `undefined` record throws at `entry.like` (src/App.tsx:8), and the whole `reduce` stops.
  - A truthy `chats` that is not an array still passes `hasChats` (src/App.tsx:10), and `.length` is added at src/App.tsx:29. For `true`, a number, or an object without `length`, `.length` is `undefined`, so `totalChats` becomes `NaN`. A string adds its length, and an object with a numeric `length` adds that number.
  - A `null` or `undefined` element of `we_met` throws at `item.did_meet_subject` (src/App.tsx:12), but only when the `some` scan reaches it, that is, when no earlier element is `"Yes"`. `hasWeMet` is computed at src/App.tsx:11-12, before the `if (hasMatch)` test at src/App.tsx:18. So the throw also happens on a record that did not match, and it stops the whole `reduce`. The model evaluates `HasWeMet` only inside the match branch (`Statistics.Step`, `Aggregator.Stats.Add`). On every input the record can express, `HasWeMet` is total and has no effect, so the two evaluation orders give the same counters.
- Truthiness of `like` and `match` is taken as given (`hasLike`, `hasMatch`). The rules that decide which JSON values are truthy are not modelled.
- Counters are unbounded naturals. JavaScript numbers lose precision above 2^53, which no export reaches.
- The source builds counter names such as `likes${likeType}` as strings. These become a `Direction` enum and one helper per counter pair. The increments are the same.
- `hasChats` is `!!entry.chats` (src/App.tsx:10). For the inputs the model represents (an array or a falsy value), this is `chats.Some?`.
