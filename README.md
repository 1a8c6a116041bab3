# HireHub AI — a verified model of the app's client-side logic

HireHub AI is a single-page React app for recruiting and learning. It has a
recruiter's application-tracking pipeline, a candidate-discovery search, a
course page (discussion thread, quiz, transcript and course outline), an
admin dashboard (user table, security log), a recruiter dashboard (job
postings, candidate funnel, team activity) and an AI career-coach chat,
under a shared top bar and side navigation. All of its data is hard-coded,
and its behaviour lives in state-update handlers and derived views. This
project models that behaviour in Dafny, as the code is written and quirks
included, and proves what the components promise:

- the pipeline's stage path with its next and previous rules;
- the candidate filter, the six-column grouping, and the move, reject,
  notes and bulk handlers;
- the discovery search's six filter stages, its salary-text scanner, its
  sort and the selection and shortlist bookkeeping;
- the discussion thread's like/dislike state machine;
- the quiz's answer checking, score rounding, navigator and countdown;
- the filter-and-sort tables, the capped security-log buffer, the funnel
  ratios and the relative-time texts;
- the coach chat's keyword routing, its send/reply pair, the typewriter and
  the bullet-line formatter;
- role detection from the address, and the navigation tables with their
  submenu toggle.

There is one Dafny module per component file, named after the component
(`PipelineBoard` for the pipeline page, `PipelineCard` for its card,
`DiscoveryCard` for the discovery card, and so on). Several small modules
are shared by the others:

- `Strings`: ASCII lower-casing, `includes`, `trim`, `startsWith`,
  `parseInt` and decimal printing;
- `Lists`: `filter`, the include-or-remove toggle and sub-sequences;
- `Sorting`: the stable sort that `Array.prototype.sort` performs with a
  numeric comparator;
- `Clock`: the relative-time buckets and the `m:ss` clock text;
- `ScoreBands`: the three-colour percentage rule;
- `Pages` and `Roles`: the route addresses, and the role that the top bar
  and the side navigation both read off the address;
- `Wrappers`: `Option`.

State that a component updates in place is a `class` whose methods state
the whole new state. Pure expressions are functions, and lemmas relate
them. Each timer callback (a load delay, a debounce, a typing delay, the
quiz tick, the typewriter interval, the live log insert) is a method that
performs that callback's state change.

The model keeps the JavaScript semantics the code relies on:

- `===` between a number and a string is false: ids are `Num` or `Str`
  values;
- `indexOf` gives -1 for an absent stage;
- `parseInt` reads a sign and a run of leading digits, and gives NaN when
  there are none;
- NaN and Infinity compare as they do in JavaScript;
- `Math.round` rounds halves up, and its argument is the exact value of the
  expression rather than a double, which for the quiz score differs at some
  exact halves (see Quiz.RoundPercent under "## Left out");
- the percentages of the funnel and of course progress are exact reals;
- `Array.prototype.sort` is a stable sort, as section 22.1.3.27 of
  ECMA-262 (2019 edition) requires, and a comparator that answers 0 or NaN
  keeps the order.

Times are integer milliseconds passed in by the caller. Message and log
ids are parameters, and so are the random log level and the texts the
browser's locale produces.

Some of the code's behaviour is easy to miss; the model follows the code
as written:

- A `Rejected` candidate's next stage is `Applied`, not none, because
  `indexOf` gives -1 (`PipelineCard.RejectedReentersAtApplied`).
- The stage columns drop a candidate whose stage is not one of the six
  (`PipelineBoard.OffBoardStageInNoColumn`).
- Ten years of experience is both senior and expert on the pipeline page
  (`PipelineBoard.TenYearsInTwoBands`).
- A card dropped on another column is never moved, because the dropped id
  is a string (`PipelineColumn.DropMovesNobody`).
- A card hands the pipeline page its whole record both when it is clicked
  and when its checkbox is ticked. So the page always opens the detail view
  and never adds to the bulk selection, and a bulk action restages nobody
  (`PipelineBoard.CardSessionBulk`).

## Model

| member | source | states |
|---|---|---|
| PipelineCard.IndexOf | src/pages/application-tracking-pipeline/components/CandidateCard.jsx:30 | `indexOf` gives -1 exactly for an absent stage, otherwise the first position holding it |
| PipelineCard.PathPositions | src/pages/application-tracking-pipeline/components/CandidateCard.jsx:29-30 | each of the five path stages is found at its own position |
| PipelineCard.NextAlongPath | src/pages/application-tracking-pipeline/components/CandidateCard.jsx:28-32 | the next stage of Applied through Offer is the following path entry |
| PipelineCard.PreviousAlongPath | src/pages/application-tracking-pipeline/components/CandidateCard.jsx:34-38 | the previous stage of Screening through Hired is the preceding path entry |
| PipelineCard.PathEnds | src/pages/application-tracking-pipeline/components/CandidateCard.jsx:28-38 | Hired has no next stage and Applied no previous one |
| PipelineCard.NextThenPrevious | src/pages/application-tracking-pipeline/components/CandidateCard.jsx:28-38 | previous(next(s)) = s for every path stage but Hired |
| PipelineCard.PreviousThenNext | src/pages/application-tracking-pipeline/components/CandidateCard.jsx:28-38 | next(previous(s)) = s for every path stage but Applied |
| PipelineCard.OffPathGoesToApplied | src/pages/application-tracking-pipeline/components/CandidateCard.jsx:28-38 | a stage off the path (index -1) has next Applied and no previous stage |
| PipelineCard.RejectedReentersAtApplied | src/pages/application-tracking-pipeline/components/CandidateCard.jsx:28-38 | a Rejected card moves forward to Applied and has no back move |
| PipelineCard.SkillMatchTone | src/pages/application-tracking-pipeline/components/CandidateCard.jsx:40-44 | green iff at least 90, yellow iff 70 to 89, red iff below 70 |
| PipelineCard.ToneMonotone | src/pages/application-tracking-pipeline/components/CandidateCard.jsx:40-44 | a higher match never has a worse badge |
| PipelineCard.QuickActions | src/pages/application-tracking-pipeline/components/CandidateCard.jsx:168-210 | the reject button always shows, the back button iff the stage is on the path after Applied, the forward button unless the stage is Hired; the back and forward buttons lead to PreviousStage and NextStage of the card's stage |
| PipelineCard.ForwardRequest | src/pages/application-tracking-pipeline/components/CandidateCard.jsx:183-192 | a forward move is requested iff the stage is not Hired, for the card's own id and column, with NextStage of the stage as target |
| PipelineCard.BackRequest | src/pages/application-tracking-pipeline/components/CandidateCard.jsx:168-176 | a back move is requested iff the stage has a previous stage, for the card's own id and column, with PreviousStage of the stage as target |
| PipelineCard.SkillChips | src/pages/application-tracking-pipeline/components/CandidateCard.jsx:134-146 | the first min(3, n) skills show, and a "+N" chip with the rest's count appears iff there are more than 3 |
| PipelineCard.DragStart | src/pages/application-tracking-pipeline/components/CandidateCard.jsx:18-22 | the payload carries the column and the id as decimal text that reads back as the id |
| PipelineBoard.FilterCandidates | src/pages/application-tracking-pipeline/index.jsx:280-305 | the filtered list is no longer than the board and every entry passes every filter |
| PipelineBoard.FilteredMembers | src/pages/application-tracking-pipeline/index.jsx:280-305 | a candidate is shown iff it is on the board and passes; the shown list keeps board order |
| PipelineBoard.DefaultFiltersKeepAll | src/pages/application-tracking-pipeline/index.jsx:280-305 | the initial filters hide nobody |
| PipelineBoard.DateRangeIgnored | src/pages/application-tracking-pipeline/index.jsx:280-305 | changing the date range never changes the filtered list |
| PipelineBoard.SkillBucketsPartition | src/pages/application-tracking-pipeline/index.jsx:287-291 | every score passes exactly one of high, medium and low |
| PipelineBoard.TenYearsInTwoBands | src/pages/application-tracking-pipeline/index.jsx:297-302 | 10 years is both senior and expert, and is the only such value |
| PipelineBoard.SourceIgnoresCase | src/pages/application-tracking-pipeline/index.jsx:293 | the source test gives the same answer for the candidate's source lower-cased |
| PipelineBoard.NameSearchFinds | src/pages/application-tracking-pipeline/index.jsx:281-285 | searching for a candidate's own name always finds it |
| PipelineBoard.Column | src/pages/application-tracking-pipeline/index.jsx:309 | every candidate of a column has exactly that column's stage |
| PipelineBoard.CandidatesByStage | src/pages/application-tracking-pipeline/index.jsx:308-311 | the map has exactly the six stage names as keys, each holding its column of the filtered list |
| PipelineBoard.ColumnSizesStep | src/pages/application-tracking-pipeline/index.jsx:308-311 | adding one candidate in front grows the columns' total by one iff its stage is among them |
| PipelineBoard.ColumnSizesOfNone | src/pages/application-tracking-pipeline/index.jsx:308-311 | with no candidates every column is empty |
| PipelineBoard.ColumnsPartition | src/pages/application-tracking-pipeline/index.jsx:308-311 | over distinct stage names the columns together hold each candidate whose stage is one of them exactly once |
| PipelineBoard.StageNamesDistinct | src/pages/application-tracking-pipeline/index.jsx:29-60 | the six stage names are distinct |
| PipelineBoard.BoardColumnsPartition | src/pages/application-tracking-pipeline/index.jsx:308-311 | when every stage is one of the six, the six columns hold every filtered candidate exactly once |
| PipelineBoard.OffBoardStageInNoColumn | src/pages/application-tracking-pipeline/index.jsx:309 | a candidate with any other stage string is in no column |
| PipelineBoard.Restage | src/pages/application-tracking-pipeline/index.jsx:315-319 | the list keeps its length and order, and only picked records get the new stage |
| PipelineBoard.MoveUnknownIdIsNoOp | src/pages/application-tracking-pipeline/index.jsx:314-319 | a move for an id no candidate has leaves the list unchanged |
| PipelineBoard.StringIdMatchesNobody | src/pages/application-tracking-pipeline/index.jsx:316 | strict equality never matches a string id against the numeric ids, so such a move changes nothing |
| PipelineBoard.MoveChangesOnlyStage | src/pages/application-tracking-pipeline/index.jsx:314-319 | a move keeps every record's id and other fields and sets the stage exactly where the id matches |
| PipelineBoard.MoveIdempotent | src/pages/application-tracking-pipeline/index.jsx:314-319 | moving twice to the same stage is moving once |
| PipelineBoard.MovedCandidateShowsInTarget | src/pages/application-tracking-pipeline/index.jsx:314-319 | a moved candidate that passes the filters shows in its new column |
| PipelineBoard.RejectIsMove | src/pages/application-tracking-pipeline/index.jsx:344-350 | rejecting is the move to 'Rejected' with the numeric id |
| PipelineBoard.ApplyBulk | src/pages/application-tracking-pipeline/index.jsx:353-373 | 'move-screening' and 'reject' set Screening or Rejected on exactly the selected ids; any other code changes nothing; length, order and every other field are kept |
| PipelineBoard.BulkOnEmptySelection | src/pages/application-tracking-pipeline/index.jsx:353-373 | a bulk action over an empty selection changes nothing |
| PipelineBoard.SaveNotes | src/pages/application-tracking-pipeline/index.jsx:379-385 | only the matching records get the new notes and rating; the list keeps its length |
| PipelineBoard.SaveNotesKeepsColumns | src/pages/application-tracking-pipeline/index.jsx:379-385 | saving notes never changes any column's size |
| PipelineBoard.Board.constructor | src/pages/application-tracking-pipeline/index.jsx:14-26 | empty board and selection, no detail view, loading, the default filters, no confetti |
| PipelineBoard.Board.Load | src/pages/application-tracking-pipeline/index.jsx:270-277 | the load timer puts the mock list on the board and ends loading, nothing else changes |
| PipelineBoard.Board.SetFilters | src/pages/application-tracking-pipeline/index.jsx:427 | the filter bar replaces the filters and nothing else |
| PipelineBoard.Board.Move | src/pages/application-tracking-pipeline/index.jsx:314-326 | the list becomes the move's result; confetti starts iff the target is Hired |
| PipelineBoard.Board.ConfettiDone | src/pages/application-tracking-pipeline/index.jsx:324 | the confetti timer clears the flag and nothing else |
| PipelineBoard.Board.Select | src/pages/application-tracking-pipeline/index.jsx:329-341 | a record opens the detail view with it; a bare id is toggled in the selection |
| PipelineBoard.CardSelect | src/pages/application-tracking-pipeline/components/CandidateCard.jsx:73-84 | a click on the card and a tick of its checkbox both send the card's record |
| PipelineBoard.CardSessionBulk | src/pages/application-tracking-pipeline/index.jsx:329-376 | on a fresh board, after loading and any number of card clicks or ticks, the selection is still empty and any bulk action leaves the list as loaded |
| PipelineBoard.Board.Reject | src/pages/application-tracking-pipeline/index.jsx:344-350 | the list becomes the move to 'Rejected', nothing else changes |
| PipelineBoard.Board.BulkAction | src/pages/application-tracking-pipeline/index.jsx:353-376 | the list becomes the bulk update over the old selection, and the selection is emptied |
| PipelineBoard.Board.SaveNotesFor | src/pages/application-tracking-pipeline/index.jsx:379-385 | the list becomes the notes update, nothing else changes |
| PipelineBoard.Board.CloseModal | src/pages/application-tracking-pipeline/index.jsx:478-481 | the detail view closes without a candidate and nothing else changes |
| PipelineBoard.Board.ForwardFromCard | src/pages/application-tracking-pipeline/components/CandidateCard.jsx:183-192 | a card's forward button moves the candidate to the column's next stage, and does nothing in the Hired column; the confetti starts when that next stage is Hired |
| PipelineBoard.ForwardFromRejected | src/pages/application-tracking-pipeline/components/CandidateCard.jsx:28-32 | the forward button of a Rejected card requests a move back to Applied |
| PipelineColumn.Drop | src/pages/application-tracking-pipeline/components/PipelineColumn.jsx:39-47 | a drop forwards a move iff the card came from another column, carrying the payload's id text, the source column and this column |
| PipelineColumn.DropMovesNobody | src/pages/application-tracking-pipeline/components/PipelineColumn.jsx:41-45 | a card dragged to another column forwards its id as a string, which matches no numeric id, so the board is unchanged |
| PipelineColumn.DropOnColumn | src/pages/application-tracking-pipeline/components/PipelineColumn.jsx:39-47 | applied to the board a drop leaves the candidates unchanged, yet starts the confetti when dropped on Hired from elsewhere; the selection, filters, loading flag and detail view are kept |
| PipelineColumn.ColumnHeader | src/pages/application-tracking-pipeline/components/PipelineColumn.jsx:72-82 | the header count is the number of cards; the trophy shows iff the column is Hired and non-empty |
| PipelineColumn.ColumnBody | src/pages/application-tracking-pipeline/components/PipelineColumn.jsx:92-126 | skeletons iff loading; the empty hint iff not loading and no cards; otherwise exactly the given cards |
| PipelineColumn.RoundOfInteger | src/pages/application-tracking-pipeline/components/PipelineColumn.jsx:136 | rounding an integer-valued real gives that integer |
| PipelineColumn.SuccessRate | src/pages/application-tracking-pipeline/components/PipelineColumn.jsx:136 | Math.round(count / 10 * 100) is exactly ten times the count |
| PipelineColumn.ColumnFooter | src/pages/application-tracking-pipeline/components/PipelineColumn.jsx:130-140 | the footer shows iff the column has cards, with their total, and a success rate of ten per card iff the column is Hired |
| PipelineColumn.ToggleFlipsMark | src/pages/application-tracking-pipeline/components/PipelineColumn.jsx:123 | toggling a card's id flips its selected mark and no other card's |
| PipelineColumn.StageIcon | src/pages/application-tracking-pipeline/components/PipelineColumn.jsx:27-37 | the plain circle icon goes exactly to stages outside the six |
| PipelineFilterBar.WithFilter | src/pages/application-tracking-pipeline/components/PipelineFilters.jsx:17-19 | the changed key holds the new value and every other key keeps its value |
| PipelineFilterBar.Cleared | src/pages/application-tracking-pipeline/components/PipelineFilters.jsx:21-29 | search is '' and every other filter is 'all' |
| PipelineFilterBar.Values | src/pages/application-tracking-pipeline/components/PipelineFilters.jsx:39 | the five values of the filter object, every key's value among them |
| PipelineFilterBar.ActiveCountIsSum | src/pages/application-tracking-pipeline/components/PipelineFilters.jsx:39-41 | the active count adds one for every value that is neither '' nor 'all' |
| PipelineFilterBar.ActiveCountBounds | src/pages/application-tracking-pipeline/components/PipelineFilters.jsx:39-41 | the count lies in 0..5 and is 0 iff no value is active |
| PipelineFilterBar.OneChangeCountsOne | src/pages/application-tracking-pipeline/components/PipelineFilters.jsx:17-41 | setting one key of the cleared filters to an active value gives a count of one |
| PipelineFilterBar.ClearedCountsZero | src/pages/application-tracking-pipeline/components/PipelineFilters.jsx:21-41 | after clearing the count is 0, so the Clear button is disabled |
| PipelineFilterBar.ClearedIsDefault | src/pages/application-tracking-pipeline/components/PipelineFilters.jsx:21-29 | clearing restores exactly the board's initial filters |
| PipelineFilterBar.OnlyTwoActionsRestage | src/pages/application-tracking-pipeline/components/PipelineFilters.jsx:31-37 | of the five menu entries only the first and the last change any candidate's stage |
| PipelineFilterBar.FilterBar.constructor | src/pages/application-tracking-pipeline/components/PipelineFilters.jsx:14-15 | the extra filters and the bulk menu start closed |
| PipelineFilterBar.FilterBar.ToggleBulkMenu | src/pages/application-tracking-pipeline/components/PipelineFilters.jsx:66 | the bulk menu flag flips, the panel flag is kept |
| PipelineFilterBar.FilterBar.ToggleExpanded | src/pages/application-tracking-pipeline/components/PipelineFilters.jsx:103 | the panel flag flips, the bulk menu flag is kept |
| PipelineFilterBar.FilterBar.PickBulkAction | src/pages/application-tracking-pipeline/components/PipelineFilters.jsx:78-84 | a menu entry forwards its own code and closes the menu |
| CandidateDetail.MatchBadge | src/pages/application-tracking-pipeline/components/CandidateDetailModal.jsx:82-85 | the overview badge uses the card's bands: at least 90, at least 70, else the third colour |
| CandidateDetail.LitStars | src/pages/application-tracking-pipeline/components/CandidateDetailModal.jsx:39-49 | of five stars, star k is lit iff k is at most the rating |
| CandidateDetail.ClickedStarsLit | src/pages/application-tracking-pipeline/components/CandidateDetailModal.jsx:39-49 | after clicking star k exactly the first k stars are lit |
| CandidateDetail.DetailModal.constructor | src/pages/application-tracking-pipeline/components/CandidateDetailModal.jsx:16-19 | the overview tab, not editing, notes and rating from the first candidate or '' and 0 |
| CandidateDetail.DetailModal.ReceiveCandidate | src/pages/application-tracking-pipeline/components/CandidateDetailModal.jsx:16-21 | a new candidate prop replaces only the candidate; notes, rating, tab and edit flag stay |
| CandidateDetail.DetailModal.SelectTab | src/pages/application-tracking-pipeline/components/CandidateDetailModal.jsx:23-29 | a tab button sets that tab and nothing else |
| CandidateDetail.DetailModal.ClickStar | src/pages/application-tracking-pipeline/components/CandidateDetailModal.jsx:39-45 | clicking star k sets the rating to k and nothing else |
| CandidateDetail.DetailModal.EditNotes | src/pages/application-tracking-pipeline/components/CandidateDetailModal.jsx:237-242 | typing replaces the notes and nothing else |
| CandidateDetail.DetailModal.ClickEditButton | src/pages/application-tracking-pipeline/components/CandidateDetailModal.jsx:31-34 | Save forwards (id, notes, rating) and leaves edit mode; Edit forwards nothing and enters it |
| CandidateDetail.DetailModal.MoveToNext | src/pages/application-tracking-pipeline/components/CandidateDetailModal.jsx:368 | the button requests a move from the literal 'current' to the literal 'next' for the candidate's id |
| CandidateDetail.DetailModal.RejectRequest | src/pages/application-tracking-pipeline/components/CandidateDetailModal.jsx:385 | Reject forwards the candidate's own id |
| CandidateDetail.MoveToNextHidesCandidate | src/pages/application-tracking-pipeline/components/CandidateDetailModal.jsx:368 | after the move the candidate's stage is 'next', so it shows in no column of the board |
| CandidateDetail.MountedByPage | src/pages/application-tracking-pipeline/index.jsx:475-486 | the page mounts the modal with no candidate, so it starts with empty notes and no stars |
| DiscoverySearch.Amounts | src/pages/candidate-discovery-sourcing/index.jsx:336 | the `$(\d+)k` scan: its matches read back as numbers, each match taking at least three characters |
| DiscoverySearch.LowerBound | src/pages/candidate-discovery-sourcing/index.jsx:341 | an empty lower box is 0, otherwise its parseInt; never Infinity |
| DiscoverySearch.UpperBound | src/pages/candidate-discovery-sourcing/index.jsx:342 | the upper bound is Infinity iff its box is empty |
| DiscoverySearch.Arrange | src/pages/candidate-discovery-sourcing/index.jsx:351-362 | a permutation of the filtered list: 'match' and 'experience' descending by key, every other choice (comparator 0 or NaN) the same order |
| DiscoverySearch.SkipStage | src/pages/candidate-discovery-sourcing/index.jsx:281-348 | a stage whose control is unset leaves the running result as it was |
| DiscoverySearch.FilteredCandidates | src/pages/candidate-discovery-sourcing/index.jsx:277-365 | the stage-by-stage narrowing of the mock list and the sort give the sorted list of candidates passing all six stages |
| DiscoverySearch.StagesOnlyRemove | src/pages/candidate-discovery-sourcing/index.jsx:278-348 | the stages only remove candidates and keep the order of the rest |
| DiscoverySearch.NoFiltersKeepAll | src/pages/candidate-discovery-sourcing/index.jsx:12-19 | the empty query and the initial filters keep the whole list, in order before sorting and after an order-keeping sort |
| DiscoverySearch.OwnSkillKeeps | src/pages/candidate-discovery-sourcing/index.jsx:292-300 | selecting one of a candidate's own skill names keeps the candidate |
| DiscoverySearch.MoreSkillsWiden | src/pages/candidate-discovery-sourcing/index.jsx:292-300 | selecting a further skill never removes a candidate already kept |
| DiscoverySearch.ExperienceBands | src/pages/candidate-discovery-sourcing/index.jsx:303-316 | for an "N years" text a single level keeps the candidate iff N is in its band: entry at most 2, mid 3-5, senior 6-10, lead above 10 |
| DiscoverySearch.BandBounds | src/pages/candidate-discovery-sourcing/index.jsx:307-313 | the four switch cases compare the years against their band limits |
| DiscoverySearch.SingleLevel | src/pages/candidate-discovery-sourcing/index.jsx:303-316 | a one-level selection is exactly that level's case on the parsed years |
| DiscoverySearch.BandsPartition | src/pages/candidate-discovery-sourcing/index.jsx:307-313 | every number of years falls in exactly one of the four bands |
| DiscoverySearch.UnknownLevelOnly | src/pages/candidate-discovery-sourcing/index.jsx:305-313 | with NaN years only a level outside the four known ones passes |
| DiscoverySearch.UnreadableExperience | src/pages/candidate-discovery-sourcing/index.jsx:303-316 | an experience text without a leading number is kept iff some selected level is unknown |
| DiscoverySearch.MatchFloorInclusive | src/pages/candidate-discovery-sourcing/index.jsx:319-321 | a positive floor keeps exactly the scores at or above it |
| DiscoverySearch.OnlyRemoteConstrains | src/pages/candidate-discovery-sourcing/index.jsx:324-331 | without 'remote' among the types the location stage keeps everyone |
| DiscoverySearch.CitiesAndAvailabilityIgnored | src/pages/candidate-discovery-sourcing/index.jsx:276-348 | the cities text and the availability choices never change whether a candidate is kept |
| DiscoverySearch.AmountsSkip | src/pages/candidate-discovery-sourcing/index.jsx:336 | a character other than '$' is passed over by the scan |
| DiscoverySearch.AmountsTake | src/pages/candidate-discovery-sourcing/index.jsx:336-339 | a "$Nk" match yields N and the scan goes on behind the 'k' |
| DiscoverySearch.AmountsSeparator | src/pages/candidate-discovery-sourcing/index.jsx:336 | the " - " between the amounts yields nothing |
| DiscoverySearch.AmountsOfRange | src/pages/candidate-discovery-sourcing/index.jsx:336-339 | scanning "$<lo>k - $<hi>k" gives back exactly [lo, hi] |
| DiscoverySearch.SalaryOverlap | src/pages/candidate-discovery-sourcing/index.jsx:333-348 | for a printed range and printed bounds a candidate passes iff hi*1000 is at least min and lo*1000 at most max |
| DiscoverySearch.OpenUpperBound | src/pages/candidate-discovery-sourcing/index.jsx:341-344 | an empty upper box checks only hi*1000 against the lower bound |
| DiscoverySearch.UnreadableBoundExcludes | src/pages/candidate-discovery-sourcing/index.jsx:341-344 | a lower box that parses as NaN removes every candidate with a readable range |
| DiscoverySearch.MatchSortStable | src/pages/candidate-discovery-sourcing/index.jsx:351-354 | candidates with equal match scores keep their relative order |
| DiscoveryPage.MarkShortlisted | src/pages/candidate-discovery-sourcing/index.jsx:397-403 | the listed ids are marked shortlisted, every other entry and the length are kept |
| DiscoveryPage.SetShortlisted | src/pages/candidate-discovery-sourcing/index.jsx:418-424 | entries with the id get the given flag, all others are kept |
| DiscoveryPage.SetNote | src/pages/candidate-discovery-sourcing/index.jsx:436-442 | entries with the id get the note, all others are kept |
| DiscoveryPage.BulkShortlistMarksListed | src/pages/candidate-discovery-sourcing/index.jsx:393-413 | after a bulk shortlist an entry is shortlisted iff it was or its id is listed, and its other fields are kept |
| DiscoveryPage.BulkShortlistIdempotent | src/pages/candidate-discovery-sourcing/index.jsx:397-403 | shortlisting the same ids twice is doing it once |
| DiscoveryPage.OtherBulkActionsKeepList | src/pages/candidate-discovery-sourcing/index.jsx:404-413 | 'message', 'export', 'tag' and unknown actions leave the list as it was |
| DiscoveryPage.ShortlistLastWins | src/pages/candidate-discovery-sourcing/index.jsx:418-424 | of two shortlist calls for one id the later one wins |
| DiscoveryPage.ShortlistUndo | src/pages/candidate-discovery-sourcing/index.jsx:418-424 | reporting the flag back after a toggle restores the list when the id names one entry |
| DiscoveryPage.NoteLastWins | src/pages/candidate-discovery-sourcing/index.jsx:436-442 | of two notes for one id the later one wins |
| DiscoveryPage.Page.constructor | src/pages/candidate-discovery-sourcing/index.jsx:12-30 | the initial state: no filters, empty query, 'match' sort, grid view, nothing selected or loaded, page 1 |
| DiscoveryPage.Page.CurrentCandidates | src/pages/candidate-discovery-sourcing/index.jsx:456 | the feed is given the filtered, sorted constant list |
| DiscoveryPage.Page.StartInitialLoad | src/pages/candidate-discovery-sourcing/index.jsx:266-268 | the mount effect sets loading and nothing else |
| DiscoveryPage.Page.FinishInitialLoad | src/pages/candidate-discovery-sourcing/index.jsx:269-273 | the timer callback loads the mock candidates and saved searches and ends loading; every other field of the page is kept |
| DiscoveryPage.Page.ChangeFilters | src/pages/candidate-discovery-sourcing/index.jsx:367-370 | new filters go back to page 1, everything else is kept |
| DiscoveryPage.Page.ChangeSearch | src/pages/candidate-discovery-sourcing/index.jsx:372-375 | a new query goes back to page 1, everything else is kept |
| DiscoveryPage.Page.ChangeSort | src/pages/candidate-discovery-sourcing/index.jsx:377-379 | a new sort keeps the page and everything else |
| DiscoveryPage.Page.ChangeViewMode | src/pages/candidate-discovery-sourcing/index.jsx:381-383 | the view mode changes and nothing else |
| DiscoveryPage.Page.SelectCandidate | src/pages/candidate-discovery-sourcing/index.jsx:385-391 | the id is removed if selected and appended otherwise; every other field of the page is kept |
| DiscoveryPage.Page.BulkAction | src/pages/candidate-discovery-sourcing/index.jsx:393-416 | the candidates get the bulk update, the selection is emptied, and the filters, query and sort (so the results) are unchanged; every other field of the page is kept |
| DiscoveryPage.Page.Shortlist | src/pages/candidate-discovery-sourcing/index.jsx:418-424 | the candidates get the flag and the filters, query, sort and page are unchanged, so the results do not move; every other field of the page is kept |
| DiscoveryPage.Page.AddNote | src/pages/candidate-discovery-sourcing/index.jsx:436-442 | the candidates get the note and the filters, query, sort and page are unchanged; every other field of the page is kept |
| DiscoveryPage.Page.SaveSearch | src/pages/candidate-discovery-sourcing/index.jsx:444-446 | the saved search is appended with its filters; every other field of the page is kept |
| DiscoveryPage.Page.StartLoadMore | src/pages/candidate-discovery-sourcing/index.jsx:448-449 | load-more sets loading and keeps the page; every other field of the page is kept |
| DiscoveryPage.Page.FinishLoadMore | src/pages/candidate-discovery-sourcing/index.jsx:450-453 | the timer advances the page by one and ends loading; every other field of the page is kept |
| FilterSidebar.ToggleSkill | src/pages/candidate-discovery-sourcing/components/FilterSidebar.jsx:46-53 | the skill is in the new list iff it was not in the old; other skills and every other field are kept |
| FilterSidebar.ToggleExperience | src/pages/candidate-discovery-sourcing/components/FilterSidebar.jsx:55-62 | the level is in the new list iff it was not in the old; other levels and every other field are kept |
| FilterSidebar.ToggleLocationType | src/pages/candidate-discovery-sourcing/components/FilterSidebar.jsx:74-84 | the type flips membership; other types, the cities text and every other field are kept |
| FilterSidebar.ToggleAvailability | src/pages/candidate-discovery-sourcing/components/FilterSidebar.jsx:86-93 | the choice flips membership; other choices and every other field are kept |
| FilterSidebar.SetSalary | src/pages/candidate-discovery-sourcing/components/FilterSidebar.jsx:64-72 | one bound is replaced and the other bound and every other field are kept |
| FilterSidebar.SetCities | src/pages/candidate-discovery-sourcing/components/FilterSidebar.jsx:280-286 | the cities text is replaced, the location types and every other field are kept |
| FilterSidebar.SetMatchScore | src/pages/candidate-discovery-sourcing/components/FilterSidebar.jsx:194-197 | the match floor is replaced and every other field is kept |
| FilterSidebar.ToggleTwiceRestoresFilters | src/pages/candidate-discovery-sourcing/components/FilterSidebar.jsx:46-93 | toggling a value that was absent twice gives back the same filters, for all four lists |
| FilterSidebar.TogglesKeepListsDistinct | src/pages/candidate-discovery-sourcing/components/FilterSidebar.jsx:46-93 | the toggles keep every choice list free of duplicates |
| FilterSidebar.Cleared | src/pages/candidate-discovery-sourcing/components/FilterSidebar.jsx:95-105 | clearing gives empty lists, empty salary boxes, empty cities and a floor of 0 |
| FilterSidebar.ClearedIsInitial | src/pages/candidate-discovery-sourcing/components/FilterSidebar.jsx:95-105 | the cleared filters are the page's initial filters |
| FilterSidebar.ActiveDimensions | src/pages/candidate-discovery-sourcing/components/FilterSidebar.jsx:115-124 | at most six dimensions, a dimension listed iff it is in use |
| FilterSidebar.ActiveFilterCount | src/pages/candidate-discovery-sourcing/components/FilterSidebar.jsx:115-124 | the counter loop gives the number of dimensions in use, at most 6, and 0 iff none is |
| FilterSidebar.ClearedCountsNothing | src/pages/candidate-discovery-sourcing/components/FilterSidebar.jsx:95-124 | nothing counts after clearing |
| FilterSidebar.CitiesAloneCounts | src/pages/candidate-discovery-sourcing/components/FilterSidebar.jsx:120 | a cities text alone makes the location dimension count |
| FilterSidebar.Sidebar.constructor | src/pages/candidate-discovery-sourcing/components/FilterSidebar.jsx:7-10 | the local copy starts from the page's filters, expanded, no name, no dialog |
| FilterSidebar.Sidebar.Edit | src/pages/candidate-discovery-sourcing/components/FilterSidebar.jsx:46-105 | an edit replaces the local filters and nothing else |
| FilterSidebar.Sidebar.LoadSaved | src/pages/candidate-discovery-sourcing/components/FilterSidebar.jsx:172-176 | choosing a saved search replaces the whole local filter set |
| FilterSidebar.Sidebar.OpenSaveDialog | src/pages/candidate-discovery-sourcing/components/FilterSidebar.jsx:313 | the save dialog opens and nothing else changes |
| FilterSidebar.Sidebar.TypeSearchName | src/pages/candidate-discovery-sourcing/components/FilterSidebar.jsx:325 | the name box takes the typed text and nothing else changes |
| FilterSidebar.Sidebar.SaveSearch | src/pages/candidate-discovery-sourcing/components/FilterSidebar.jsx:107-113 | a name not only of white space is sent as typed with the local filters, the box is emptied and the dialog closed; otherwise nothing happens |
| FilterSidebar.Sidebar.CancelSave | src/pages/candidate-discovery-sourcing/components/FilterSidebar.jsx:338 | cancel closes the dialog and keeps the typed name |
| FilterSidebar.Sidebar.ToggleCollapsed | src/pages/candidate-discovery-sourcing/components/FilterSidebar.jsx:145 | the collapsed flag flips and nothing else changes |
| FilterSidebar.Sidebar.Publish | src/pages/candidate-discovery-sourcing/components/FilterSidebar.jsx:38-44 | the debounce callback hands the page exactly the local filters |
| FilterSidebar.BlankNameRefused | src/pages/candidate-discovery-sourcing/components/FilterSidebar.jsx:108 | a name is refused iff it is made only of white space |
| SearchHeader.Parts | src/pages/candidate-discovery-sourcing/components/SearchHeader.jsx:40-43 | at most three parts, none of them empty |
| SearchHeader.BuildQuery | src/pages/candidate-discovery-sourcing/components/SearchHeader.jsx:39-45 | the push-and-join builder produces the parts joined by single spaces |
| SearchHeader.EmptyQueryIff | src/pages/candidate-discovery-sourcing/components/SearchHeader.jsx:40-45 | the built text is '' iff all three boxes are empty |
| SearchHeader.FullQuery | src/pages/candidate-discovery-sourcing/components/SearchHeader.jsx:40-45 | with all three boxes filled the text is '+must should -not' |
| SearchHeader.QueryWords | src/pages/candidate-discovery-sourcing/components/SearchHeader.jsx:40-45 | when no box holds a space, splitting the text at spaces gives back exactly the parts |
| SearchHeader.PlusWordMatchesLiterally | src/pages/candidate-discovery-sourcing/components/SearchHeader.jsx:41-45 | the '+word' text is searched literally, so it keeps no candidate without a '+' in name, title or skills |
| SearchHeader.PlusFreeMisses | src/pages/candidate-discovery-sourcing/components/SearchHeader.jsx:41 | a text without '+' never contains a query starting with '+' |
| SearchHeader.Header.constructor | src/pages/candidate-discovery-sourcing/components/SearchHeader.jsx:17-22 | the advanced panel starts closed with three empty boxes |
| SearchHeader.Header.ToggleAdvanced | src/pages/candidate-discovery-sourcing/components/SearchHeader.jsx:72 | the panel flag flips and the boxes keep their text |
| SearchHeader.Header.EditMust | src/pages/candidate-discovery-sourcing/components/SearchHeader.jsx:127 | the must box takes the typed text, the other boxes are kept |
| SearchHeader.Header.EditShould | src/pages/candidate-discovery-sourcing/components/SearchHeader.jsx:139 | the should box takes the typed text, the other boxes are kept |
| SearchHeader.Header.EditNot | src/pages/candidate-discovery-sourcing/components/SearchHeader.jsx:151 | the not box takes the typed text, the other boxes are kept |
| SearchHeader.Header.Apply | src/pages/candidate-discovery-sourcing/components/SearchHeader.jsx:39-47 | the built text is sent and the panel closes; the boxes keep their text |
| SearchHeader.Header.Cancel | src/pages/candidate-discovery-sourcing/components/SearchHeader.jsx:162 | cancel closes the panel and keeps the boxes |
| SearchHeader.LastThreeSortsKeepOrder | src/pages/candidate-discovery-sourcing/components/SearchHeader.jsx:24-30 | 'availability', 'activity' and 'salary' leave the results in their order |
| SearchHeader.BulkButtons | src/pages/candidate-discovery-sourcing/components/SearchHeader.jsx:177-197 | the four bulk buttons show iff something is selected, each forwarding its code and the selection unchanged |
| SearchHeader.Suggestions | src/pages/candidate-discovery-sourcing/components/SearchHeader.jsx:203-217 | the chips are offered iff the query is '' |
| SearchHeader.PickedChipHidesChips | src/pages/candidate-discovery-sourcing/components/SearchHeader.jsx:214-217 | clicking a chip makes its text the query, after which no chip is offered |
| CandidateFeed.Ids | src/pages/candidate-discovery-sourcing/components/CandidateFeed.jsx:32 | the ids of the shown candidates, in order |
| CandidateFeed.SelectedAllMembers | src/pages/candidate-discovery-sourcing/components/CandidateFeed.jsx:43-48 | after select-all an id is selected iff it was before or is shown, so every shown id is selected |
| CandidateFeed.DeselectedAllMembers | src/pages/candidate-discovery-sourcing/components/CandidateFeed.jsx:36-41 | after deselect-all an id is selected iff it was before and is not shown |
| CandidateFeed.SelectThenDeselect | src/pages/candidate-discovery-sourcing/components/CandidateFeed.jsx:31-50 | a second click after select-all deselects, leaving the earlier selection without the shown ids |
| CandidateFeed.AppendStep | src/pages/candidate-discovery-sourcing/components/CandidateFeed.jsx:44-48 | one more loop step adds the id iff it passes the test |
| CandidateFeed.SelectAll | src/pages/candidate-discovery-sourcing/components/CandidateFeed.jsx:31-50 | for shown ids without repeats the toggle loop yields select-all, or deselect-all when every shown id was selected; every other field of the page is kept |
| CandidateFeed.DeselectHeld | src/pages/candidate-discovery-sourcing/components/CandidateFeed.jsx:37-41 | one toggle per held shown id leaves the selection without the shown ids; every other field of the page is kept |
| CandidateFeed.SelectMissing | src/pages/candidate-discovery-sourcing/components/CandidateFeed.jsx:44-48 | one toggle per missing shown id appends the missing ids in list order; every other field of the page is kept |
| CandidateFeed.DeselectStep | src/pages/candidate-discovery-sourcing/components/CandidateFeed.jsx:37-41 | toggling a held id not yet removed removes exactly it |
| CandidateFeed.Feed.constructor | src/pages/candidate-discovery-sourcing/components/CandidateFeed.jsx:20 | selection mode starts off |
| CandidateFeed.Feed.SelectionSizeChanged | src/pages/candidate-discovery-sourcing/components/CandidateFeed.jsx:23-25 | selection mode follows whether anything is selected |
| CandidateFeed.Feed.ToggleSelectionMode | src/pages/candidate-discovery-sourcing/components/CandidateFeed.jsx:118-123 | the selection-mode button flips the flag |
| CandidateFeed.View | src/pages/candidate-discovery-sourcing/components/CandidateFeed.jsx:94-215 | the empty state iff no candidates and not loading; skeletons iff loading; load-more iff hasMore and not loading; the end note iff no more and some shown |
| CandidateFeed.ViewExclusive | src/pages/candidate-discovery-sourcing/components/CandidateFeed.jsx:193-215 | load-more and the end note never show together, and loading with no results shows only skeletons |
| DiscoveryCard.ScoreBand | src/pages/candidate-discovery-sourcing/components/CandidateCard.jsx:23-35 | success iff at least 90, primary iff 70-89, warning iff 50-69, error iff below 50, for skill bars and match scores alike |
| DiscoveryCard.BandMonotone | src/pages/candidate-discovery-sourcing/components/CandidateCard.jsx:23-35 | a higher score never gets a lower band |
| DiscoveryCard.ShownSkills | src/pages/candidate-discovery-sourcing/components/CandidateCard.jsx:102 | expanded shows every skill; collapsed shows the first min(3, n) |
| DiscoveryCard.MoreButton | src/pages/candidate-discovery-sourcing/components/CandidateCard.jsx:118-125 | the expand button exists iff there are more than three skills and reads 'Show less' when expanded |
| DiscoveryCard.MoreButtonCount | src/pages/candidate-discovery-sourcing/components/CandidateCard.jsx:124 | the collapsed button prints the number of skills beyond three |
| DiscoveryCard.ShownPortfolio | src/pages/candidate-discovery-sourcing/components/CandidateCard.jsx:134-142 | at most two projects are shown, each with at most its first three technologies |
| DiscoveryCard.Card.constructor | src/pages/candidate-discovery-sourcing/components/CandidateCard.jsx:8-11 | the note box and heart start from the candidate's note and flag, collapsed, editor hidden |
| DiscoveryCard.Card.Shortlist | src/pages/candidate-discovery-sourcing/components/CandidateCard.jsx:13-16 | the heart flips the flag and reports the flipped value with the id |
| DiscoveryCard.Card.EditNote | src/pages/candidate-discovery-sourcing/components/CandidateCard.jsx:172 | typing replaces the note text and nothing else |
| DiscoveryCard.Card.SaveNote | src/pages/candidate-discovery-sourcing/components/CandidateCard.jsx:18-21 | save forwards the id and note text and hides the editor |
| DiscoveryCard.Card.ToggleNotes | src/pages/candidate-discovery-sourcing/components/CandidateCard.jsx:207 | the notes button flips the editor |
| DiscoveryCard.Card.CancelNotes | src/pages/candidate-discovery-sourcing/components/CandidateCard.jsx:180 | cancel hides the editor and keeps the text |
| DiscoveryCard.Card.ToggleExpanded | src/pages/candidate-discovery-sourcing/components/CandidateCard.jsx:121 | the expand button flips the expansion |
| Discussion.Like | src/pages/course-detail-learning/components/DiscussionThread.jsx:151-158 | like flips the like flag, moves the like count by one with it, withdraws a dislike with its count, and never leaves both flags raised |
| Discussion.Dislike | src/pages/course-detail-learning/components/DiscussionThread.jsx:182-189 | dislike flips the dislike flag, moves the dislike count with it, withdraws a like with its count, never both flags raised |
| Discussion.DislikeMirrorsLike | src/pages/course-detail-learning/components/DiscussionThread.jsx:133-193 | dislike is like with the two sides exchanged |
| Discussion.VotesStayConsistent | src/pages/course-detail-learning/components/DiscussionThread.jsx:133-193 | both buttons keep the counters non-negative and in agreement with the flags |
| Discussion.ClickTwiceRestores | src/pages/course-detail-learning/components/DiscussionThread.jsx:151-189 | a second click on the same button undoes the first unless the first withdrew the other vote |
| Discussion.LikeThenDislike | src/pages/course-detail-learning/components/DiscussionThread.jsx:151-189 | from a neutral post, like then dislike leaves one more dislike and no like |
| Discussion.ReactReplies | src/pages/course-detail-learning/components/DiscussionThread.jsx:138-149 | only the replies with the id are voted on; the list keeps its length |
| Discussion.ReactIn | src/pages/course-detail-learning/components/DiscussionThread.jsx:133-193 | a vote changes only the addressed comment's vote fields, or, inside the parent, turns its replies into ReactReplies of them, keeping the parent's own fields; every other comment is kept |
| Discussion.ReactKeepsConsistent | src/pages/course-detail-learning/components/DiscussionThread.jsx:133-193 | votes keep every comment and reply of the thread consistent, so none is both liked and disliked |
| Discussion.LikeTwiceRestoresThread | src/pages/course-detail-learning/components/DiscussionThread.jsx:133-162 | liking a post that is not disliked twice gives back the thread |
| Discussion.AddReply | src/pages/course-detail-learning/components/DiscussionThread.jsx:238-246 | the reply goes at the end of the parent's replies; every other comment is kept |
| Discussion.CommentCount | src/pages/course-detail-learning/components/DiscussionThread.jsx:294 | the count is each comment plus each of its replies, at least the number of comments |
| Discussion.CountConcat | src/pages/course-detail-learning/components/DiscussionThread.jsx:294 | the count of two lists together is the sum of their counts |
| Discussion.CommentAddsOne | src/pages/course-detail-learning/components/DiscussionThread.jsx:212-215 | prepending a comment without replies adds one to the count |
| Discussion.ReplyAddsOne | src/pages/course-detail-learning/components/DiscussionThread.jsx:238-246 | a reply adds one to the count for each comment with the parent id |
| Discussion.ReactKeepsCount | src/pages/course-detail-learning/components/DiscussionThread.jsx:133-193 | votes never change the count |
| Discussion.TimeAgo | src/pages/course-detail-learning/components/DiscussionThread.jsx:120-131 | whole days when at least a day, else whole hours, else whole minutes, else 'Just now' below a minute |
| Discussion.Arranged | src/pages/course-detail-learning/components/DiscussionThread.jsx:264-273 | a permutation: 'oldest' ascending by time, 'popular' descending by likes minus dislikes, anything else newest first |
| Discussion.VisibleIsSortedSelection | src/pages/course-detail-learning/components/DiscussionThread.jsx:264-284 | the list shows the comments passing the filter, as often as in the thread, in the chosen order |
| Discussion.QuestionsFilter | src/pages/course-detail-learning/components/DiscussionThread.jsx:279-280 | the questions filter keeps exactly the comments with a '?' |
| Discussion.Thread.constructor | src/pages/course-detail-learning/components/DiscussionThread.jsx:8-14 | nothing loaded, empty drafts, no reply form, newest first, all, nothing expanded |
| Discussion.Thread.Load | src/pages/course-detail-learning/components/DiscussionThread.jsx:116-118 | the lesson effect loads the fixed comment list and nothing else |
| Discussion.Thread.Vote | src/pages/course-detail-learning/components/DiscussionThread.jsx:133-193 | the thread becomes the vote's result and nothing else changes |
| Discussion.Thread.EditComment | src/pages/course-detail-learning/components/DiscussionThread.jsx:333 | typing replaces the draft comment only |
| Discussion.Thread.SubmitComment | src/pages/course-detail-learning/components/DiscussionThread.jsx:195-217 | a blank draft is ignored; otherwise the comment as typed, with no votes or replies, goes in front and the draft is cleared |
| Discussion.Thread.ClickReply | src/pages/course-detail-learning/components/DiscussionThread.jsx:430 | the reply form opens under the comment, or closes when it is already open there; every other field of the thread is kept |
| Discussion.Thread.EditReply | src/pages/course-detail-learning/components/DiscussionThread.jsx:459 | typing replaces the reply draft only |
| Discussion.Thread.CancelReply | src/pages/course-detail-learning/components/DiscussionThread.jsx:466-470 | cancel closes the form and clears the reply draft; every other field of the thread is kept |
| Discussion.Thread.SubmitReply | src/pages/course-detail-learning/components/DiscussionThread.jsx:219-250 | a blank reply is ignored; otherwise it is appended to the parent's replies and the form is closed and cleared |
| Discussion.Thread.ToggleExpanded | src/pages/course-detail-learning/components/DiscussionThread.jsx:252-262 | the id leaves the expanded set if present and joins it otherwise; other ids are kept; every other field of the thread is kept |
| Discussion.Thread.ChangeSort | src/pages/course-detail-learning/components/DiscussionThread.jsx:301 | the sort choice changes and nothing else |
| Discussion.Thread.ChangeFilter | src/pages/course-detail-learning/components/DiscussionThread.jsx:311 | the filter choice changes and nothing else |
| Discussion.EmptyNoteOnlyForEmptyThread | src/pages/course-detail-learning/components/DiscussionThread.jsx:551-556 | under the 'all' filter nothing is listed iff the thread is empty |
| Quiz.Select | src/pages/course-detail-learning/components/QuizAssessment.jsx:114-126 | a single-choice click stores that index; a multi-select click flips membership of exactly the clicked index in the question's list (prev entry or []) and keeps every other index; no other question's entry changes |
| Quiz.UntickedStaysAnswered | src/pages/course-detail-learning/components/QuizAssessment.jsx:114-126 | ticking and then unticking an option on a fresh question leaves an empty list, which the `!== undefined` check still treats as answered |
| Quiz.TickedStaysDistinct | src/pages/course-detail-learning/components/QuizAssessment.jsx:116-121 | multi-select clicks never put an index in the ticked list twice |
| Quiz.MultiGradingIsSetEquality | src/pages/course-detail-learning/components/QuizAssessment.jsx:134-139 | with repeat-free lists, comparing the sorted ticked list with the sorted key is exactly "the ticked set equals the key set" |
| Quiz.DistinctMultiset | src/pages/course-detail-learning/components/QuizAssessment.jsx:134-139 | a repeat-free list counts each index at most once (used for the grading equivalence) |
| Quiz.CorrectCount | src/pages/course-detail-learning/components/QuizAssessment.jsx:128-145 | the number of right answers never exceeds the number of questions |
| Quiz.RoundPercent | src/pages/course-detail-learning/components/QuizAssessment.jsx:147 | taken on the exact fraction, the score is the nearest whole percentage of right answers (halves up), in 0..100; all right is 100 and none right is 0, and with fewer than 200 questions 100 means all right |
| Quiz.RoundingFacts | src/pages/course-detail-learning/components/QuizAssessment.jsx:147 | the floor-division form of the rounding satisfies the nearest-integer bounds and the 0/100 characterisations |
| Quiz.LessByFactor | src/pages/course-detail-learning/components/QuizAssessment.jsx:147 | cancelling a positive factor from a strict inequality (a step of the rounding proof) |
| Quiz.DivUnique | src/pages/course-detail-learning/components/QuizAssessment.jsx:147 | two integers both within the nearest-integer bounds of one ratio are equal, so the rounded score is unique |
| Quiz.HundredWithOneWrong | src/pages/course-detail-learning/components/QuizAssessment.jsx:147 | with 200 questions one wrong answer still rounds to 100, so "100 means all right" needs the question count bound |
| Quiz.CountReadsBack | src/pages/course-detail-learning/components/QuizAssessment.jsx:347 | the results line's Math.round(score / 100 * n) gives back the true number of right answers whenever there are fewer than 100 questions |
| Quiz.CalculateScore | src/pages/course-detail-learning/components/QuizAssessment.jsx:128-148 | the counting loop returns RoundPercent of the right answers over all questions (the exact-fraction rounding), between 0 and 100 |
| Quiz.NothingAnsweredCountsNothing | src/pages/course-detail-learning/components/QuizAssessment.jsx:131-145 | with no answers stored, no question is right as long as every multi-select key ticks something |
| Quiz.TickValue | src/pages/course-detail-learning/components/QuizAssessment.jsx:95-101 | at one second or less the countdown becomes 0, otherwise it drops by one and stays at least 1 |
| Quiz.QuizState.constructor | src/pages/course-detail-learning/components/QuizAssessment.jsx:6-11 | the quiz opens on question 0 with no answers, no results, score 0, 600 seconds left and not submitting |
| Quiz.QuizState.SelectAnswer | src/pages/course-detail-learning/components/QuizAssessment.jsx:114-126 | the stored answers become Select of the current question's id, click and type; nothing else changes |
| Quiz.QuizState.Next | src/pages/course-detail-learning/components/QuizAssessment.jsx:162-166 | moves forward by one unless already on the last question; nothing else changes |
| Quiz.QuizState.Previous | src/pages/course-detail-learning/components/QuizAssessment.jsx:168-172 | moves back by one unless on the first question; nothing else changes |
| Quiz.QuizState.StartTimer | src/pages/course-detail-learning/components/QuizAssessment.jsx:92-106 | the (re)started countdown captures the answers of that render for its own submit call; nothing else changes |
| Quiz.QuizState.Tick | src/pages/course-detail-learning/components/QuizAssessment.jsx:94-101 | the time left becomes TickValue of the old value and a submit is requested exactly when it was at most 1 second |
| Quiz.QuizState.StartSubmit | src/pages/course-detail-learning/components/QuizAssessment.jsx:150-151 | submitting starts; answers, question, timer and score are unchanged |
| Quiz.QuizState.FinishSubmit | src/pages/course-detail-learning/components/QuizAssessment.jsx:150-160 | the score becomes the rounded percentage of the answers the calling closure saw (the captured ones for the countdown), the results show and submitting ends |
| Quiz.QuizState.Reset | src/pages/course-detail-learning/components/QuizAssessment.jsx:174-181 | back to question 0 with no answers, no results, score 0, the full 600 seconds and not submitting |
| Quiz.TimeoutAfterOpeningScoresZero | src/pages/course-detail-learning/components/QuizAssessment.jsx:92-106 | a countdown that expires with the answers captured at opening grades nothing right and scores 0 |
| Quiz.FiveQuestionScores | src/pages/course-detail-learning/components/QuizAssessment.jsx:327-342 | with the five questions: all right is 100 and passes the 70 mark, four right is 80, three right is 60 and fails |
| Transcript.CurrentSegment | src/pages/course-detail-learning/components/TranscriptPanel.jsx:25-29 | the current segment is absent exactly when no segment covers the playhead in its half-open interval, and otherwise is the first segment that covers it |
| Transcript.TilesBounds | src/pages/course-detail-learning/components/TranscriptPanel.jsx:12-23 | every segment of a gap-free tiling lies within its start and end |
| Transcript.TilesOrdered | src/pages/course-detail-learning/components/TranscriptPanel.jsx:12-23 | in a tiling an earlier segment ends no later than a later one starts |
| Transcript.TilesCover | src/pages/course-detail-learning/components/TranscriptPanel.jsx:12-23 | every instant between a tiling's start and end is covered by some segment |
| Transcript.TilesDisjoint | src/pages/course-detail-learning/components/TranscriptPanel.jsx:25-29 | no instant is covered by two segments of a tiling |
| Transcript.CurrentIsTheCoveringSegment | src/pages/course-detail-learning/components/TranscriptPanel.jsx:25-29 | over a tiling there is a current segment exactly inside its span, and it is the segment covering the playhead |
| Transcript.MockTiles | src/pages/course-detail-learning/components/TranscriptPanel.jsx:12-23 | the lesson's ten segments tile the first 195 seconds |
| Transcript.MockLaterHalfTiles | src/pages/course-detail-learning/components/TranscriptPanel.jsx:17-23 | the last five segments tile seconds 95 to 195 |
| Transcript.MockHasOneCurrentSegment | src/pages/course-detail-learning/components/TranscriptPanel.jsx:25-29 | any playhead before 195 s has a current segment and no two segments cover it; from 195 s on there is none |
| Transcript.SeekMakesCurrent | src/pages/course-detail-learning/components/TranscriptPanel.jsx:60-62 | clicking a row seeks to its start, which makes that row's segment the current one |
| Transcript.ActiveRowIffCovers | src/pages/course-detail-learning/components/TranscriptPanel.jsx:131-132 | with distinct ids over a tiling, a row is drawn active exactly when its segment covers the playhead |
| Transcript.FoundIndex | src/pages/course-detail-learning/components/TranscriptPanel.jsx:31-43 | -1 for the empty query; otherwise the first segment whose text contains the query ignoring case, and -1 only when none does |
| Transcript.SearchFindsNoLater | src/pages/course-detail-learning/components/TranscriptPanel.jsx:35-39 | searching for a segment's own text highlights that segment or an earlier one |
| Transcript.SearchStatus | src/pages/course-detail-learning/components/TranscriptPanel.jsx:115-122 | a status line shows exactly while searching, and it reads "No results found" when nothing was highlighted |
| Transcript.SearchStatusReadsBack | src/pages/course-detail-learning/components/TranscriptPanel.jsx:118 | the found message names the highlighted segment by its one-based position |
| Transcript.StampsDistinct | src/pages/course-detail-learning/components/TranscriptPanel.jsx:152 | two rows of a tiling never carry the same m:ss stamp |
| Transcript.Panel.constructor | src/pages/course-detail-learning/components/TranscriptPanel.jsx:7-9 | the panel opens over the lesson transcript with an empty query, nothing highlighted and no search active |
| Transcript.Panel.Search | src/pages/course-detail-learning/components/TranscriptPanel.jsx:31-43 | the query is stored, a search is active exactly for a non-empty query, and the highlighted index is FoundIndex of the query |
| ModuleAccordion.Progress | src/pages/course-detail-learning/components/ModuleAccordion.jsx:120-122 | with lessons, the progress times the lesson count is 100 times the completed count; with none, the quotient is NaN for nothing completed and Infinity otherwise |
| ModuleAccordion.FullProgressIff | src/pages/course-detail-learning/components/ModuleAccordion.jsx:146-150 | progress equals 100 exactly when a module has lessons and all of them are counted completed |
| ModuleAccordion.ProgressBounded | src/pages/course-detail-learning/components/ModuleAccordion.jsx:120-122 | progress lies in 0..100 while the completed count stays within the lessons |
| ModuleAccordion.CourseProgress | src/pages/course-detail-learning/components/ModuleAccordion.jsx:9-81 | the four course modules stand at 37.5, 0, 0 and 0 percent (the lessons array, not the earlier numeric key, is what the object keeps) |
| ModuleAccordion.HeaderIcon | src/pages/course-detail-learning/components/ModuleAccordion.jsx:149-158 | a lock exactly for a locked module, a check exactly for an unlocked fully completed one, otherwise an open book |
| ModuleAccordion.TypeIcon | src/pages/course-detail-learning/components/ModuleAccordion.jsx:100-108 | the plain document icon exactly for a lesson type outside video, quiz, project and assessment |
| ModuleAccordion.LessonClick | src/pages/course-detail-learning/components/ModuleAccordion.jsx:91-98 | nothing is forwarded for a locked module; otherwise the lesson goes out with its module's title |
| ModuleAccordion.ContentOf | src/pages/course-detail-learning/components/ModuleAccordion.jsx:200-258 | the lesson list shows exactly for an expanded unlocked module and the locked notice exactly for an expanded locked one |
| ModuleAccordion.Accordion.constructor | src/pages/course-detail-learning/components/ModuleAccordion.jsx:6 | the accordion starts over the four modules with module 1 expanded, which is a valid state |
| ModuleAccordion.Accordion.ToggleModule | src/pages/course-detail-learning/components/ModuleAccordion.jsx:83-89 | an open module id is removed, a closed one appended |
| ModuleAccordion.Accordion.ClickHeader | src/pages/course-detail-learning/components/ModuleAccordion.jsx:133-135 | a locked module's disabled header changes nothing; an unlocked one toggles its id, and only unlocked ids ever stay open without repeats |
| ModuleAccordion.Accordion.NoLockedNotice | src/pages/course-detail-learning/components/ModuleAccordion.jsx:257-258 | through the headers the "Module Locked" notice can never be shown |
| UserTable.FilteredUsers | src/pages/admin-dashboard-system-management/components/UserManagementTable.jsx:124-129 | a user is listed exactly when the query is in the name or the email ignoring case and the role matches unless 'all' is chosen; the list keeps the table's order |
| UserTable.NoFilterKeepsAll | src/pages/admin-dashboard-system-management/components/UserManagementTable.jsx:124-129 | the empty query with all roles lists every user in place |
| UserTable.SortedUsers | src/pages/admin-dashboard-system-management/components/UserManagementTable.jsx:131-145 | the sorted rows are a permutation of the filtered ones, ascending or descending by last login as the order says |
| UserTable.SortedUsersDetermined | src/pages/admin-dashboard-system-management/components/UserManagementTable.jsx:131-145 | when last logins differ, any permutation sorted descending is exactly the model's order |
| UserTable.LoginAge | src/pages/admin-dashboard-system-management/components/UserManagementTable.jsx:96-104 | "Just now" under an hour, the whole hours elapsed (1 to 23) under a day, the locale date from a day on |
| UserTable.LastLoginReadsBack | src/pages/admin-dashboard-system-management/components/UserManagementTable.jsx:99-102 | below a day the cell reads "Just now" or starts with the number of whole hours elapsed |
| UserTable.Ids | src/pages/admin-dashboard-system-management/components/UserManagementTable.jsx:83 | the selected ids are the filtered users' ids, one per row, in order |
| UserTable.Table.constructor | src/pages/admin-dashboard-system-management/components/UserManagementTable.jsx:7-11 | the table starts with an empty search, nothing selected and all roles shown |
| UserTable.Table.AllChecked | src/pages/admin-dashboard-system-management/components/UserManagementTable.jsx:219 | the header checkbox is never ticked with an empty selection |
| UserTable.Table.Search | src/pages/admin-dashboard-system-management/components/UserManagementTable.jsx:157-159 | typing replaces the search text; selection and role filter are unchanged |
| UserTable.Table.ChooseRole | src/pages/admin-dashboard-system-management/components/UserManagementTable.jsx:165 | choosing a role replaces the role filter; selection and search are unchanged |
| UserTable.Table.SelectUser | src/pages/admin-dashboard-system-management/components/UserManagementTable.jsx:71-77 | a row checkbox removes the id when selected and appends it otherwise |
| UserTable.Table.SelectAll | src/pages/admin-dashboard-system-management/components/UserManagementTable.jsx:79-85 | a selection as long as the filtered list is cleared, whatever ids it holds; otherwise exactly the filtered ids become selected |
| UserTable.Table.BulkAction | src/pages/admin-dashboard-system-management/components/UserManagementTable.jsx:87-90 | suspend, activate and delete only empty the selection |
| SecurityLogs.Prepend | src/pages/admin-dashboard-system-management/components/SecurityLogsPanel.jsx:90 | the new entry goes first, followed by at most 49 of the previous entries in order, so the buffer never exceeds 50 |
| SecurityLogs.Latest | src/pages/admin-dashboard-system-management/components/SecurityLogsPanel.jsx:90 | the first fifty entries of a list, in order |
| SecurityLogs.Reversed | src/pages/admin-dashboard-system-management/components/SecurityLogsPanel.jsx:90 | the list read backwards (the order in which successive ticks stack their entries) |
| SecurityLogs.LatestOfConcat | src/pages/admin-dashboard-system-management/components/SecurityLogsPanel.jsx:90 | trimming the old tail to fifty before prepending changes nothing in the first fifty |
| SecurityLogs.InsertAllKeepsLatest | src/pages/admin-dashboard-system-management/components/SecurityLogsPanel.jsx:74-95 | after any run of ticks the buffer is the newest fifty of all entries seen, newest first, then the previous list |
| SecurityLogs.FilteredLogs | src/pages/admin-dashboard-system-management/components/SecurityLogsPanel.jsx:120-126 | an entry is shown exactly when its level matches unless 'all' is chosen and the query is in its event, user or details ignoring case; order is kept |
| SecurityLogs.LevelCount | src/pages/admin-dashboard-system-management/components/SecurityLogsPanel.jsx:250 | a summary tile never counts more entries than are shown |
| SecurityLogs.CountsWithinList | src/pages/admin-dashboard-system-management/components/SecurityLogsPanel.jsx:248-279 | the critical, warning and info tiles add up to at most the shown list, and exactly to it when every level is one of the three |
| SecurityLogs.OtherLevelsCountZero | src/pages/admin-dashboard-system-management/components/SecurityLogsPanel.jsx:120-126 | with one level chosen the tiles of the other levels read zero |
| SecurityLogs.LevelIcon | src/pages/admin-dashboard-system-management/components/SecurityLogsPanel.jsx:106-113 | a plain circle exactly for a level outside critical, warning and info |
| SecurityLogs.LogsPanel.constructor | src/pages/admin-dashboard-system-management/components/SecurityLogsPanel.jsx:7-10 | the first render has an empty buffer, all levels, no search and live mode on |
| SecurityLogs.LogsPanel.Mount | src/pages/admin-dashboard-system-management/components/SecurityLogsPanel.jsx:70-72 | the mount effect loads the five sample entries and changes nothing else |
| SecurityLogs.LogsPanel.Tick | src/pages/admin-dashboard-system-management/components/SecurityLogsPanel.jsx:74-91 | in live mode a tick prepends the new entry within the 50-entry cap; paused, nothing changes |
| SecurityLogs.LogsPanel.ToggleLive | src/pages/admin-dashboard-system-management/components/SecurityLogsPanel.jsx:156 | Pause/Resume flips live mode only |
| SecurityLogs.LogsPanel.ChooseLevel | src/pages/admin-dashboard-system-management/components/SecurityLogsPanel.jsx:192 | choosing a level replaces the level filter only |
| SecurityLogs.LogsPanel.Search | src/pages/admin-dashboard-system-management/components/SecurityLogsPanel.jsx:186 | typing replaces the search text only |
| JobTable.FilteredJobs | src/pages/recruiter-dashboard/components/JobPostingTable.jsx:11-16 | a job is listed exactly when the term is in its title or department ignoring case and its status matches unless 'all' is chosen; the list keeps the given order |
| JobTable.SortedJobs | src/pages/recruiter-dashboard/components/JobPostingTable.jsx:18-28 | the sorted rows are a permutation of the filtered ones: most applications first, by title collation, or most recently posted first for 'posted' and any other choice |
| JobTable.ApplicationTiesKeepOrder | src/pages/recruiter-dashboard/components/JobPostingTable.jsx:20-21 | jobs with equal application counts keep their filtered order (the comparator returns 0 and the sort is stable) |
| JobTable.PostedTiesKeepOrder | src/pages/recruiter-dashboard/components/JobPostingTable.jsx:24-26 | jobs posted at the same instant keep their filtered order |
| JobTable.RowsAreTheMatches | src/pages/recruiter-dashboard/components/JobPostingTable.jsx:11-28 | the rows are exactly the matching jobs, as many as the filter kept |
| JobTable.EmptyMessageIff | src/pages/recruiter-dashboard/components/JobPostingTable.jsx:175-180 | the "No jobs found" message shows exactly when no job passes the filter |
| JobTable.StatusText | src/pages/recruiter-dashboard/components/JobPostingTable.jsx:141 | the badge is the status with its first letter upper-cased and the rest unchanged |
| JobTable.StatusTextReadsBack | src/pages/recruiter-dashboard/components/JobPostingTable.jsx:141 | a lower-case status is recovered from its badge by lower-casing the first letter |
| JobTable.ActionFor | src/pages/recruiter-dashboard/components/JobPostingTable.jsx:152-166 | the row action is for that job: Pause exactly for an active job, Close for every other status |
| Funnel.Lookup | src/pages/recruiter-dashboard/components/PipelineVisualization.jsx:22 | reading a stage key gives nothing exactly when no entry has that key, and otherwise the count of an entry with that key |
| Funnel.MaxCount | src/pages/recruiter-dashboard/components/PipelineVisualization.jsx:14 | the largest count is absent exactly for empty data (Math.max() of nothing), and otherwise is some entry's count and no smaller than any count |
| Funnel.CountAtMostMax | src/pages/recruiter-dashboard/components/PipelineVisualization.jsx:14-22 | no stage count, present or defaulted to 0, exceeds the largest count |
| Funnel.BarPercent | src/pages/recruiter-dashboard/components/PipelineVisualization.jsx:23 | with a positive largest count the bar times that count is 100 times the stage count; otherwise the bar is 0 |
| Funnel.BarWithinTrack | src/pages/recruiter-dashboard/components/PipelineVisualization.jsx:23 | every bar is between 0 and 100 percent, and the largest stage's bar is full |
| Funnel.PercentOfWhole | src/pages/recruiter-dashboard/components/PipelineVisualization.jsx:23 | a part of a positive whole is between 0 and 100 percent of it, and all of it is 100 |
| Funnel.Conversion | src/pages/recruiter-dashboard/components/PipelineVisualization.jsx:26 | with a positive count the conversion times the count is 100 times the next stage's count; with count 0 it is 0 |
| Funnel.ConversionAtMostHundred | src/pages/recruiter-dashboard/components/PipelineVisualization.jsx:26 | a stage's conversion is at most 100 percent exactly when the next stage is no larger |
| Funnel.RowAt | src/pages/recruiter-dashboard/components/PipelineVisualization.jsx:21-26 | each drawn stage carries its label and count (absent as 0) and, except on the last stage, the conversion to the next one |
| Funnel.Rows | src/pages/recruiter-dashboard/components/PipelineVisualization.jsx:21 | one row per stage, in stage order |
| Funnel.EmptyDataDrawsZeros | src/pages/recruiter-dashboard/components/PipelineVisualization.jsx:14-26 | with no data every stage shows 0, an empty bar and a 0 conversion |
| Funnel.OverallConversion | src/pages/recruiter-dashboard/components/PipelineVisualization.jsx:69 | NaN exactly when sourcing is positive and the hired count is absent; otherwise hired over sourced times 100, or 0 when nothing was sourced |
| Funnel.OverallMatchesStages | src/pages/recruiter-dashboard/components/PipelineVisualization.jsx:69 | with a hired count present, the overall figure equals the sourced-to-hired conversion formula of the stage rows |
| ActivityFeed.TimeAgo | src/pages/recruiter-dashboard/components/TeamActivityFeed.jsx:32-41 | "Just now" exactly under a minute; then whole minutes (1-59), whole hours of those minutes (1-23) or whole days (at least 1) |
| ActivityFeed.FormattersAgree | src/pages/recruiter-dashboard/components/TeamActivityFeed.jsx:35-40 | dividing whole minutes, as this list does, gives the same age as the lesson discussion's division of milliseconds by each unit, for every past or future difference |
| ActivityFeed.ActivityIcon | src/pages/recruiter-dashboard/components/TeamActivityFeed.jsx:8-18 | the generic icon exactly for a kind outside the six known ones |
| ActivityFeed.KnownIconsDistinct | src/pages/recruiter-dashboard/components/TeamActivityFeed.jsx:8-18 | the six known kinds get six different icons |
| ActivityFeed.Feed.constructor | src/pages/recruiter-dashboard/components/TeamActivityFeed.jsx:6 | no entry has its details open at first |
| ActivityFeed.Feed.ClickDetails | src/pages/recruiter-dashboard/components/TeamActivityFeed.jsx:78-80 | clicking the open entry closes it; clicking any other opens it and so closes the previous one |
| ActivityFeed.OneDetailsPanel | src/pages/recruiter-dashboard/components/TeamActivityFeed.jsx:87 | two entries with different ids never both show their details |
| ActivityFeed.DetailsLabel | src/pages/recruiter-dashboard/components/TeamActivityFeed.jsx:83 | the button reads "Show less" exactly on the open entry |
| CoachChat.ResponseFor | src/pages/ai-career-coach-chat/index.jsx:71-97 | each topic has its canned answer; only the general answer comes without action items |
| CoachChat.Route | src/pages/ai-career-coach-chat/index.jsx:99-103 | on the lower-cased message: resume exactly when it contains "resume"; salary exactly when not that and it contains "salary" or "negotiation"; interview exactly when neither and it contains "interview"; otherwise general |
| CoachChat.RouteIgnoresCase | src/pages/ai-career-coach-chat/index.jsx:99 | a message and its lower-cased form get the same answer |
| CoachChat.MentionRoutesAtLeast | src/pages/ai-career-coach-chat/index.jsx:100-102 | a keyword at any offset of the lower-cased message decides at least that much of the routing: "resume" gives resume, "salary" resume or salary, "interview" anything but general |
| CoachChat.QuickStartPrompt | src/pages/ai-career-coach-chat/index.jsx:148-157 | a card type outside the four known ones falls back to the career-planning prompt |
| CoachChat.LowerKeepsOccurrence | src/pages/ai-career-coach-chat/index.jsx:99 | lower-casing keeps an occurrence of a word without capitals at its place |
| CoachChat.ResumeCardGetsResumeAnswer | src/pages/ai-career-coach-chat/index.jsx:150 | the resume-review card's prompt is routed to the resume answer |
| CoachChat.ResumeChipTopic | src/pages/ai-career-coach-chat/index.jsx:59 | the "Review my resume" chip is routed to the resume answer |
| CoachChat.NoKeywordLetters | src/pages/ai-career-coach-chat/index.jsx:99-103 | a text without the letters m, s, t and w in either case gets the general answer, as "Career change advice" does |
| CoachChat.ChatPage.constructor | src/pages/ai-career-coach-chat/index.jsx:16-21 | the page starts with no messages, not typing, chips on, history closed, status online and no conversation |
| CoachChat.ChatPage.Send | src/pages/ai-career-coach-chat/index.jsx:114-125 | one user message is appended; chips are hidden, the coach is typing and the status is processing |
| CoachChat.ChatPage.Reply | src/pages/ai-career-coach-chat/index.jsx:128-141 | the routed answer with its action items is appended as a coach message; typing stops and the status is online again |
| CoachChat.ChatPage.QuickStart | src/pages/ai-career-coach-chat/index.jsx:148-157 | a quick-start card sends its prompt as a user message |
| CoachChat.ChatPage.SuggestionClick | src/pages/ai-career-coach-chat/index.jsx:144-146 | a chip sends its own text as a user message |
| CoachChat.ChatPage.Reset | src/pages/ai-career-coach-chat/index.jsx:232-236 | messages are cleared, chips come back and the conversation is forgotten; typing and status are left alone |
| CoachChat.ChatPage.OpenHistory | src/pages/ai-career-coach-chat/index.jsx:219 | the history panel opens; nothing else changes |
| CoachChat.ChatPage.CloseHistory | src/pages/ai-career-coach-chat/index.jsx:288 | the history panel closes; nothing else changes |
| CoachChat.ChatPage.ResumeConversation | src/pages/ai-career-coach-chat/index.jsx:164-169 | the conversation id is remembered and the history panel closes; no messages are loaded |
| CoachChat.ChatPage.SuggestionsVisible | src/pages/ai-career-coach-chat/index.jsx:273 | the chips can only show on an empty chat |
| CoachChat.ChatPage.ExportDisabled | src/pages/ai-career-coach-chat/index.jsx:228 | export is disabled exactly when there are no messages |
| CoachChat.ChatPage.WelcomeShown | src/pages/ai-career-coach-chat/index.jsx:246-247 | the welcome card shows exactly while there are no messages |
| CoachChat.ChatPage.TypingBubbleShown | src/pages/ai-career-coach-chat/index.jsx:259-261 | the typing bubble shows exactly while typing over a non-empty message list |
| CoachChat.ChatPage.InputDisabled | src/pages/ai-career-coach-chat/index.jsx:278 | the input is locked exactly while the status is processing |
| CoachChat.ChatPage.Placeholder | src/pages/ai-career-coach-chat/index.jsx:279 | the placeholder reads "AI is thinking..." exactly while typing |
| CoachChat.Exchange | src/pages/ai-career-coach-chat/index.jsx:114-146 | from a fresh page one send and its reply leave the question and the routed answer, and no chips |
| CoachChat.ResetWhileThinking | src/pages/ai-career-coach-chat/index.jsx:128-141 | a reset during the delay clears the question, but the pending answer still arrives as the only message, with neither chips nor welcome card |
| ChatHistory.CategoryCount | src/pages/ai-career-coach-chat/components/ChatHistory.jsx:13-16 | a category tile never counts more than the conversations given |
| ChatHistory.Categories | src/pages/ai-career-coach-chat/components/ChatHistory.jsx:11-17 | five tiles: "all" with the full count first, then the four categories in order, each with its own count |
| ChatHistory.CategoryCountsWithinAll | src/pages/ai-career-coach-chat/components/ChatHistory.jsx:11-17 | the four category counts add up to at most the "all" count, and exactly to it when every conversation has one of the four categories |
| ChatHistory.FilteredConversations | src/pages/ai-career-coach-chat/components/ChatHistory.jsx:19-24 | a conversation is listed exactly when the query is in its title or preview ignoring case and its category matches unless 'all' is chosen; order is kept |
| ChatHistory.TileCountIsListLength | src/pages/ai-career-coach-chat/components/ChatHistory.jsx:11-24 | with an empty query, choosing a category lists as many conversations as its tile counts |
| ChatHistory.EmptyMessageIff | src/pages/ai-career-coach-chat/components/ChatHistory.jsx:117-121 | "No conversations found" shows exactly when no conversation passes the filter |
| ChatHistory.CategoryIcon | src/pages/ai-career-coach-chat/components/ChatHistory.jsx:26-34 | the speech-bubble icon exactly for a category outside the four known ones |
| ChatHistory.DiffDays | src/pages/ai-career-coach-chat/components/ChatHistory.jsx:38-39 | the day count is 0 exactly at the same instant, and otherwise the number of started days in the absolute difference |
| ChatHistory.FormatDate | src/pages/ai-career-coach-chat/components/ChatHistory.jsx:36-45 | "Today" exactly within one started day, "Yesterday" within two, one less than the count up to seven (including -1 at the very same instant), else the locale date |
| ChatHistory.SameInstantReadsMinusOne | src/pages/ai-career-coach-chat/components/ChatHistory.jsx:41-43 | a conversation updated at this very millisecond reads "-1 days ago" |
| ChatHistory.SampleLabels | src/pages/ai-career-coach-chat/index.jsx:28-53 | at the instant the samples are made they read Today, Yesterday and "6 days ago"; any moment later within a day, Yesterday, "2 days ago" and the locale date |
| ChatMessage.Typewriter.constructor | src/pages/ai-career-coach-chat/components/ChatMessage.jsx:7-12 | nothing is shown yet and the interval starts exactly for a non-empty coach answer |
| ChatMessage.Typewriter.Tick | src/pages/ai-career-coach-chat/components/ChatMessage.jsx:14-22 | while characters remain one more is shown; after the last the interval stops and feedback is offered; the shown text is always a prefix of the answer |
| ChatMessage.Typewriter.Play | src/pages/ai-career-coach-chat/components/ChatMessage.jsx:11-24 | running the interval to its end shows the whole answer after one tick per remaining character plus one, and offers feedback exactly for a non-empty answer |
| ChatMessage.Typewriter.HandleFeedback | src/pages/ai-career-coach-chat/components/ChatMessage.jsx:30-33 | the choice is remembered and, when the parent listens, forwarded with the message id |
| ChatMessage.BubbleText | src/pages/ai-career-coach-chat/components/ChatMessage.jsx:107 | a user bubble shows its content, a coach bubble the revealed text |
| ChatMessage.StripMarker | src/pages/ai-career-coach-chat/components/ChatMessage.jsx:41 | a marker in the first column and the white space after it are removed; any other line is kept |
| ChatMessage.Classify | src/pages/ai-career-coach-chat/components/ChatMessage.jsx:37-46 | a line is a list item exactly when its trimmed form starts with a marker (holding the stripped line), nothing exactly when empty, otherwise a paragraph of the whole line |
| ChatMessage.FormatContent | src/pages/ai-career-coach-chat/components/ChatMessage.jsx:48-52 | the blocks are wrapped in a list exactly when one of them is a list item |
| ChatMessage.BulletLineGivesItem | src/pages/ai-career-coach-chat/components/ChatMessage.jsx:38-41 | a "• text" line becomes an item holding just the text |
| ChatMessage.IndentedBulletKeepsMarker | src/pages/ai-career-coach-chat/components/ChatMessage.jsx:38-41 | an indented bullet is an item, but keeps its indentation and marker |
| ChatMessage.FormatLines | src/pages/ai-career-coach-chat/components/ChatMessage.jsx:37 | an answer joined from lines gives one block per line, in order |
| ChatInput.Outgoing | src/pages/ai-career-coach-chat/components/ChatInput.jsx:19-25 | nothing is sent exactly when the text is all white space or the box is disabled; otherwise the non-empty trimmed text |
| ChatInput.InputBox.constructor | src/pages/ai-career-coach-chat/components/ChatInput.jsx:7-8 | the box starts empty and not recording |
| ChatInput.InputBox.Type | src/pages/ai-career-coach-chat/components/ChatInput.jsx:59 | typing replaces the text only |
| ChatInput.InputBox.Submit | src/pages/ai-career-coach-chat/components/ChatInput.jsx:19-25 | sends Outgoing of the text and then clears the box; when nothing is sent the text stays |
| ChatInput.InputBox.KeyPress | src/pages/ai-career-coach-chat/components/ChatInput.jsx:27-32 | Enter without Shift behaves as a submit; any other key, Shift+Enter included, sends nothing and keeps the text |
| ChatInput.InputBox.ToggleRecording | src/pages/ai-career-coach-chat/components/ChatInput.jsx:42-46 | the microphone button flips recording only |
| ChatInput.InputBox.SendDisabled | src/pages/ai-career-coach-chat/components/ChatInput.jsx:97-102 | the Send button is disabled exactly when a submit would send nothing |
| ChatInput.SubmitTwice | src/pages/ai-career-coach-chat/components/ChatInput.jsx:19-25 | two submits in a row send at most once |
| Clock.AgoTextReadsBack | src/pages/recruiter-dashboard/components/TeamActivityFeed.jsx:37-40 | a printed age starts with its count and carries its unit letter right after the number |
| Clock.AgoTextInjective | src/pages/recruiter-dashboard/components/TeamActivityFeed.jsx:37-40 | two different ages never print the same text |
| Clock.Pad2 | src/pages/course-detail-learning/components/QuizAssessment.jsx:111 | padStart(2, '0'): a one-character text gets a leading zero, a longer one is kept |
| Clock.SecondsTwoDigits | src/pages/course-detail-learning/components/QuizAssessment.jsx:110-111 | the seconds part is always two digits |
| Clock.FormatTimeReadsBack | src/pages/course-detail-learning/components/QuizAssessment.jsx:108-112 | splitting the clock text at the colon gives the minutes and the padded seconds, and both parse back to their values |
| Clock.ParseTwoDigits | src/pages/course-detail-learning/components/QuizAssessment.jsx:110-111 | a padded seconds value below 60 parses back to itself |
| Clock.FormatTimeInjective | src/pages/course-detail-learning/components/QuizAssessment.jsx:108-112 | two different durations never print the same clock text |
| ScoreBands.QualityBand | src/pages/recruiter-dashboard/components/JobPostingTable.jsx:39-43 | green exactly from 80, amber exactly from 60 below 80, red exactly below 60 |
| ScoreBands.QualityBandMonotone | src/pages/recruiter-dashboard/components/JobPostingTable.jsx:39-43 | a higher score never gets a worse colour |
| Roles.DetectRole | src/components/ui/Header.jsx:21-30 | recruiter exactly when the address contains "recruiter", "candidate-discovery" or "application-tracking"; admin exactly when it contains none of those but "admin"; otherwise job seeker |
| Roles.NoRoleWords | src/components/ui/Header.jsx:21-30 | an address missing a letter of each role word is a job seeker's |
| Roles.RecruiterWordWins | src/components/ui/Header.jsx:23-24 | an address naming any recruiter word is a recruiter's, whatever else it names |
| Roles.AdminWordWithoutRecruiterWords | src/components/ui/Header.jsx:25-26 | an address naming "admin" and missing a letter of each recruiter word is an administrator's |
| Header.LearningPageLetters | src/components/ui/Header.jsx:126 | the learning page's address never has "re" side by side and has no 'v', 'p' or 'm' |
| Header.LearningPageRole | src/components/ui/Header.jsx:126 | the learning page is detected as a job seeker's, though its address holds every letter of "recruiter" |
| Header.CoachPageRole | src/components/ui/Header.jsx:134 | the coach page is detected as a job seeker's |
| Header.RecruiterPagesRoles | src/components/ui/Header.jsx:147-163 | the dashboard, discovery and pipeline pages are detected as a recruiter's |
| Header.AdminPageWord | src/components/ui/Header.jsx:175 | the administration address contains "admin" |
| Header.AdminPageLetters | src/components/ui/Header.jsx:175 | the administration address has no 'u' and no 'c' |
| Header.AdminPageRole | src/components/ui/Header.jsx:175 | the administration page is detected as an administrator's |
| Header.NavKeepsRole | src/components/ui/Header.jsx:120-182 | every desktop navigation button of a role leads to a page detected as that same role |
| Header.ButtonVariant | src/components/ui/Header.jsx:125 | a navigation button is highlighted exactly when the address is its page |
| Header.RoleBadgesDistinct | src/components/ui/Header.jsx:78-92 | different roles get different labels and different icons |
| Header.QuickActions | src/components/ui/Header.jsx:55-76 | three quick actions per role, with distinct titles |
| Header.QuickActionsTellRole | src/components/ui/Header.jsx:55-76 | no two roles share a quick action |
| Header.NotificationDot | src/components/ui/Header.jsx:294-296 | the primary colour exactly for a notification that is neither success nor warning |
| Header.TopBar.constructor | src/components/ui/Header.jsx:8-15 | search closed and empty, no notifications yet but a badge count of 3, all menus closed, job seeker |
| Header.TopBar.LoadNotifications | src/components/ui/Header.jsx:33-40 | the mount effect loads the three sample notifications without touching the badge count |
| Header.TopBar.SyncRole | src/components/ui/Header.jsx:21-30 | the role becomes DetectRole of the address; nothing else changes |
| Header.TopBar.SearchRequest | src/components/ui/Header.jsx:42-48 | a search acts, on the query as typed, exactly when the query is not all white space |
| Header.TopBar.ExpandSearch | src/components/ui/Header.jsx:218 | the search box opens, keeping the query |
| Header.TopBar.TypeQuery | src/components/ui/Header.jsx:200 | typing replaces the query only |
| Header.TopBar.CancelSearch | src/components/ui/Header.jsx:207-210 | the close button collapses the box and empties the query |
| Header.TopBar.ToggleQuickActions | src/components/ui/Header.jsx:229 | the quick-action menu flips; nothing else changes |
| Header.TopBar.PickQuickAction | src/components/ui/Header.jsx:243-246 | the chosen action is the role's action at that place and the menu closes |
| Header.TopBar.ToggleNotifications | src/components/ui/Header.jsx:262 | the notification panel flips; nothing else changes |
| Header.TopBar.MarkAllRead | src/components/ui/Header.jsx:280 | the badge count drops to 0 and the list stays |
| Header.TopBar.ClickNotification | src/components/ui/Header.jsx:50-53 | the panel closes and the count is not lowered |
| Header.TopBar.ToggleMobileMenu | src/components/ui/Header.jsx:113 | the mobile menu flips; nothing else changes |
| Header.TopBar.MobileNavigate | src/components/ui/Header.jsx:332-407 | a mobile-menu button leads to its role's page of the desktop bar, which keeps the role, and closes the menu; nothing else changes |
| Header.TopBar.BadgeShown | src/components/ui/Header.jsx:266-270 | the red badge shows exactly while the count is not zero |
| Header.MarkReadHidesBadge | src/components/ui/Header.jsx:262-290 | from the first render, after "Mark all read" and a notification click, the badge is gone and the three notifications remain |
| Sidebar.NavigationItems | src/components/ui/Sidebar.jsx:26-146 | five items for every role with distinct labels, exactly one of which (Jobs, User Management or Job Search) opens a submenu |
| Sidebar.SomeSubPath | src/components/ui/Sidebar.jsx:163 | true exactly when some submenu entry leads to the current address |
| Sidebar.IsParentActive | src/components/ui/Sidebar.jsx:161-166 | a submenu parent is highlighted exactly when one of its entries is the current page; any other item exactly when its own page is |
| Sidebar.ParentPageNotHighlighted | src/components/ui/Sidebar.jsx:161-166 | a submenu parent is not highlighted on its own address, since no entry of its submenu has that address |
| Sidebar.SubmenuShown | src/components/ui/Sidebar.jsx:221 | a submenu is drawn exactly when the bar is wide, the item has one and its label is the open one |
| Sidebar.Chevron | src/components/ui/Sidebar.jsx:211 | the chevron points down exactly while the item's label is the open one |
| Sidebar.AtMostOneSubmenuShown | src/components/ui/Sidebar.jsx:221 | at most one item shows its submenu at a time |
| Sidebar.UserCardsDistinct | src/components/ui/Sidebar.jsx:250-257 | different roles show different users on the card, by name and by title |
| Sidebar.SideBar.constructor | src/components/ui/Sidebar.jsx:7-9 | the bar starts wide, as a job seeker's, with no submenu open |
| Sidebar.SideBar.SyncRole | src/components/ui/Sidebar.jsx:15-24 | the role becomes DetectRole of the address, the same rule as the top bar; nothing else changes |
| Sidebar.SideBar.ToggleCollapse | src/components/ui/Sidebar.jsx:179 | the arrow button narrows or widens the bar, keeping the open submenu label |
| Sidebar.SideBar.HandleNavigation | src/components/ui/Sidebar.jsx:148-155 | a submenu parent goes nowhere and opens its submenu, or closes it when it is the open one; any other item leads to its page and closes the open submenu |
| Sidebar.SideBar.ClickSubItem | src/components/ui/Sidebar.jsx:226 | a submenu entry leads to its page |
| Sidebar.ToggleTwice | src/components/ui/Sidebar.jsx:148-155 | two clicks on a submenu parent restore its submenu only when it was the open one; otherwise they leave none open; the collapsed flag and the role are kept |
| Sidebar.DashboardRole | src/components/ui/Sidebar.jsx:112 | the job seeker's dashboard address is detected as a job seeker's |
| Sidebar.JobSearchRole | src/components/ui/Sidebar.jsx:130 | the job search address is detected as a job seeker's |
| Sidebar.ProfileRole | src/components/ui/Sidebar.jsx:141 | the profile address is detected as a job seeker's |
| Sidebar.ReportsRole | src/components/ui/Sidebar.jsx:62 | the recruiter's reports address is detected as a job seeker's |
| Sidebar.ActiveJobsRole | src/components/ui/Sidebar.jsx:54 | the active jobs address is detected as a job seeker's |
| Sidebar.DraftJobsRole | src/components/ui/Sidebar.jsx:55 | the draft jobs address is detected as a job seeker's |
| Sidebar.ArchivedJobsRole | src/components/ui/Sidebar.jsx:56 | the archived jobs address is detected as a job seeker's |
| Sidebar.AllUsersRole | src/components/ui/Sidebar.jsx:81 | the all-users address is detected as a job seeker's |
| Sidebar.JobSeekerUsersRole | src/components/ui/Sidebar.jsx:82 | the job-seekers address is detected as a job seeker's |
| Sidebar.RecruiterUsersRole | src/components/ui/Sidebar.jsx:83 | the recruiters address is detected as a recruiter's |
| Sidebar.AdminUsersRole | src/components/ui/Sidebar.jsx:84 | the administrators address is detected as an administrator's |
| Sidebar.JobSeekerPathsListed | src/components/ui/Sidebar.jsx:107-144 | the job seeker's five items lead to the dashboard, learning, coach, job search and profile pages, in that order |
| Sidebar.JobSeekerItemsKeepRole | src/components/ui/Sidebar.jsx:107-144 | each of those five addresses is detected as a job seeker's |
| Sidebar.JobSeekerNavKeepsRole | src/components/ui/Sidebar.jsx:107-155 | following any of the job seeker's items keeps both bars the job seeker's |
| Sidebar.RecruiterItemsRoles | src/components/ui/Sidebar.jsx:28-66 | the recruiter's first three items lead to recruiter pages, while "Reports" turns both bars into the job seeker's |
| Sidebar.JobsSubmenuLeavesRecruiterView | src/components/ui/Sidebar.jsx:53-57 | every entry of the recruiter's Jobs submenu leads to an address detected as a job seeker's |
| Sidebar.UsersSubmenuSwitchesRole | src/components/ui/Sidebar.jsx:80-85 | from User Management, All Users and Job Seekers lead to a job seeker's bars and Recruiters to a recruiter's; only Administrators keeps the administrator's |

## Left out

- Delays of `setTimeout`, `setInterval` and the debounce in FilterSidebar (the discovery page's filter panel): each callback is a method, and when it fires is up to the caller.
- Rendering, class names, icons' drawing, framer-motion animation and recharts charts: presentation only. Icon names and visibility flags are modelled where the code decides them.
- Navigation through the router: a handler that navigates returns the address it leads to.
- `console.log` calls, which are the whole effect of several handlers: header search, quick actions, job edit, view applications, log export, log clearing, chat file upload, chat feedback and conversation deletion. Their other state changes are modelled.
- Browser APIs: the drag `dataTransfer` object (its payload is modelled as the text it carries), `scrollIntoView`, the clipboard, Blob/URL export of a chat, textarea auto-resize, the video element and fullscreen.
- Clocks, randomness and locale: `Date.now()` ids, `new Date()`, the random log level, the ISO timestamp of a new log, `toLocaleDateString` and `toLocaleString`. All of these are parameters. `localeCompare` is an opaque `collate` function.
- `toFixed(1)` formatting of the funnel's rates: the rates are exact reals.
- Unicode case folding and the Unicode space separators of JavaScript's white-space set: `toLowerCase` is ASCII lower-casing, `toUpperCase` (the first letter of a job's status badge) is ASCII upper-casing, and `trim` strips space, tab, line feed, carriage return, vertical tab, form feed, U+00A0, U+2028, U+2029 and U+FEFF, but not the other characters of Unicode category Zs (U+1680, U+2000 to U+200A, U+202F, U+205F, U+3000).
- `parseInt`'s hexadecimal prefix: no modelled text has one.
- UTF-16 code units: the typewriter (ChatMessage.Typewriter) reveals one Dafny character per tick, whereas JavaScript's `slice` and `length` count UTF-16 code units, so a character outside the Basic Multilingual Plane (an emoji, say) takes two ticks in the app and one in the model.
- `highlightText` in the transcript, which builds a regular expression from the user's query and needs a regular-expression engine.
- The parsing of texts like "2 hours ago" by `new Date(...)` in the discovery sort: it gives NaN, so that sort keeps the order, which the model states.
- The hard-coded fixture arrays, apart from the ones a property depends on: the pipeline stages, the transcript segments, the chat's sample conversations, the quick actions and the navigation tables.
- The progress ring, the video player, the system-health monitor, the content-management panel, the course page's tabs and bookmarks, and the two dashboard pages' dismiss-by-id filters: they are presentation, randomness or one-line filters outside the components modelled here.
- UserTable.SortedUsers: promises only a permutation in non-increasing last-login order. The comparator answers -1 for equal keys both ways, so the order of equal keys depends on the engine; SortedUsersDetermined pins the result down when the keys are distinct.
- UserTable.Table.AllChecked: states only that a checked box implies a non-empty selection. The full condition, that the selection is as long as the filtered list and the list is not empty, is its definition.
- UserTable.Table.BulkAction: the action's name only reaches a console log; the model keeps just the emptied selection.
- DiscoverySearch.Arrange: ranks a candidate whose experience text has no leading number as zero years. In JavaScript such comparisons give NaN, read as "equal", which makes the comparator inconsistent and leaves the order to the engine.
- Quiz.RoundPercent: rounds the exact fraction 100·correct/n, not the double the code computes. Where the exact value is a half the double can fall just below it: 23 right of 40 gives 57.49999999999999 in doubles, which the app rounds to 57, while the model gives 58. For every quiz of fewer than 40 questions the two agree, and the app's quiz has five.
- Quiz.CalculateScore: its score is RoundPercent's, so it shares the gap above at exact halves for quizzes of 40 or more questions.
- Quiz.CalculateScore: requires at least one question. With none the code divides 0 by 0 and scores NaN; the quiz always has five questions.
- Quiz.CalculateScore: the in-place `.sort()` of the correct answers is modelled on values. The grading compares the chosen and the correct indices as multisets, which is what sorting both and comparing does.
- In the coach chat, exporting a conversation (Blob and URL), message feedback and conversation deletion only log or use browser APIs. Resuming a conversation loads no messages in the code, and the model keeps that.
- The security log's formatting of a timestamp with `toLocaleString` is a locale string and is left out.
