# futeinf: weekly player ranking, modelled in Dafny

futeinf is a web application for a weekly amateur football game. After each
week's game every participant gets a *ballot*. A ballot offers five randomly
chosen eligible players. The participant ranks them, the ballot's first entry
being their best player. When the week's voting window has closed, the ballots
of that week are tallied into a *ranking*. The ranking is memoized in the
`apuracao` table and published 90 minutes later.

This project models the core of that system and proves properties of it:

- `timings.dfy` (module `Timings`) covers the week arithmetic of
  `src/timings.rs`. Weeks are 604800-second buckets anchored at a fixed first
  reference point. Rust's truncating `%` and `num_weeks`, and the wrapping
  `as i32`, are written out explicitly.
- `entities.dfy` (module `Entities`) holds the rows: `Ballot`, `Jogador`
  (player) and `ListaExtra` (extra-list entry). It also holds `Option` and
  `Result`.
- `sorting.dfy` (module `Sorting`) is the stable sort by a key, largest key
  first, that the ranking uses. It is proved sorted, a permutation, and stable.
- `tally.dfy` (module `Tally`) is the tally engine of `calculate_ranking`:
  - ballots are counted per voter;
  - voting power is capped at 2.5 per voter;
  - each ballot gives positional scores to the players it ranks and a flat
    score to the ones it leaves unranked;
  - each player gets a weighted mean and a spread;
  - players are ordered by descending mean and given positions 1..N.
- `store.dfy` (module `Store`) is the database. A `Database` object holds the
  tables, their key constraints appear as the invariant `Valid()`, and its
  lookup methods are loops over the rows.
- `apuracao.dfy` (module `Apuracao`) covers the week-closing and memoizing
  operations: `prepare_apurar`, `calculate_ranking`, `apurar_complete` and
  `get_or_create_apuracao`.
- `voting.dfy` (module `Voting`) covers the ballot lifecycle:
  - who is eligible;
  - `voting_create`;
  - `vote_submit`, including its `i32` parsing of the submitted vote.
- `ranking_service.dfy` (module `RankingService`) covers the two ranking pages,
  `week_ranking` and `debug_ranking`.

The handlers receive the caller's identity, the clock reading `now`, the
random choices and the result of the external ticket query as parameters.
Each HTTP response becomes a `Result` value.

Some behaviours of the source that the model keeps on purpose:

- A vote ranking more than five players makes `NUMBER_OF_PLAYERS_IN_VOTE - i`
  underflow. The model turns that into `TallyError.ScoreUnderflow`.
  `vote_submit` accepts such a vote. The week's `apuracao` row then stays
  `Started`, and every later request for that week reports that it is not
  complete (`Apuracao.AskTwice`).
- A ballot offered but never voted on still counts once its week is closed.
  Each of its five players then scores 0.5 (`Tally.EmptyVoteScoresHalf`,
  `Apuracao.TallySeesWholeWeek`).
- If any ticket row lacks an email, the ticket list becomes empty
  (`unwrap_or_default`, see `Voting.TicketEmailsSpec`). The ticket query
  itself already keeps only rows with an email (`email_address is not null`),
  so with that query this case never arises; the model keeps it because the
  rows enter as a parameter.
- The debug page selects ballots by creation date, not by week id
  (`RankingService.DebugSelectionSkipsWeekStart`).

## Model

| member | source | states |
|---|---|---|
| Timings.RefPointOf | src/timings.rs:13-26 | definition of `get_ref_point_of`: the instant minus its truncated remainder of weeks since the anchor; specified by Timings.RefPointAligned, RefPointBounds and WeekZero |
| Timings.RefPointId | src/timings.rs:80-85 | definition of `ref_point_id`: the truncated week count of the reference point, cast to `i32`; specified by Timings.IdRoundTrip and RefPointIdMonotone |
| Timings.RefPointFromId | src/timings.rs:87-90 | definition of `ref_point_from_id`: the anchor plus `id` weeks; specified by Timings.FromIdRoundTrip and RankingService.FromIdAligned |
| Timings.StartEligibleCheck | src/timings.rs:33-36 | definition of `get_start_elegible_check`: four weeks before the reference point; specified by Timings.EligibleWindow |
| Timings.EndEligibleCheck | src/timings.rs:38-40 | definition of `get_end_elegible_check`: the reference point; specified by Timings.EligibleWindow |
| Timings.CanCreateBallot | src/timings.rs:46-60 | definition of `can_create_ballot`: from the reference point up to 30 minutes before the week ends; specified by Timings.CanCreateBallotIff |
| Timings.CanCastVote | src/timings.rs:51-67 | definition of `can_cast_vote`: during the week of the given instant's reference point; specified by Timings.CanCastVoteIff |
| Timings.PublishResults | src/timings.rs:69-78 | definition of `publish_results`: from 90 minutes after the week ends; specified by Timings.PublishIff |
| Timings.TruncRem | src/timings.rs:17-20 | the remainder has the sign of the dividend and is smaller than the divisor in magnitude, as Rust's `%` |
| Timings.TruncDiv | src/timings.rs:80-85 | quotient and truncated remainder recompose the dividend (`num_weeks` truncates toward zero) |
| Timings.ToI32 | src/timings.rs:84 | `as i32` keeps every value in range and otherwise agrees with its input modulo 2^32 |
| Timings.RefPointAligned | src/timings.rs:13-26 | every reference point lies a whole number of weeks from the first reference point |
| Timings.AlignedIsFixed | src/timings.rs:13-26 | an aligned instant is its own reference point |
| Timings.RefPointIdempotent | src/timings.rs:13-26 | taking the reference point twice is taking it once |
| Timings.RefPointBounds | src/timings.rs:13-26 | from the anchor on, the reference point is the start of the week holding the instant; before the anchor the truncating `%` rounds up to the end of the week |
| Timings.WeekZero | src/timings.rs:6-26 | the reference point is the anchor itself exactly for instants less than a week away from it on either side |
| Timings.RefPointMonotone | src/timings.rs:13-26 | a later instant never has an earlier reference point |
| Timings.RefPointIdMonotone | src/timings.rs:80-85 | while no cast wraps, a later instant never has a smaller week id |
| Timings.WeeksOfAligned | src/timings.rs:80-85 | the week count of an aligned instant is exact |
| Timings.IdRoundTrip | src/timings.rs:80-90 | `ref_point_from_id(ref_point_id(t))` is the reference point of `t` while the id fits an `i32` |
| Timings.FromIdRoundTrip | src/timings.rs:80-90 | `ref_point_id(ref_point_from_id(id))` is `id` for every `i32` the model accepts; the model has no date range, so it also covers the ids whose date leaves chrono's range, where the source panics |
| Timings.EligibleWindow | src/timings.rs:33-40 | the eligibility window spans the four weeks before the reference point and both ends are aligned |
| Timings.CanCreateBallotIff | src/timings.rs:46-60 | ballots can be created from the anchor on in every week except its last 30 minutes; before the anchor only at aligned instants |
| Timings.CanCastVoteIff | src/timings.rs:62-67 | for an aligned reference point, a vote can be cast exactly during the week starting there |
| Timings.CreationWithinVoting | src/timings.rs:46-67 | a ballot created when creation is allowed can be voted on at that instant, and creation closes before voting does |
| Timings.PublishIff | src/timings.rs:69-78 | results are published exactly from 90 minutes after the week ends, when no vote can be cast any more |
| Sorting.SortBy | src/ranking.rs:256 | definition of the stable sort by descending key (repeated insertion); specified by Sorting.SortBySpec |
| Sorting.InsertByPermutes | src/ranking.rs:256 | inserting adds exactly the inserted element |
| Sorting.InsertBySorted | src/ranking.rs:256 | inserting into a list sorted by descending key keeps it sorted |
| Sorting.WithKeyCons | src/ranking.rs:256 | the elements of a given key in a list are the head's, if it has that key, followed by those of the tail |
| Sorting.InsertByStable | src/ranking.rs:256 | inserting keeps the relative order of elements with equal keys, the new element first |
| Sorting.SortBySpec | src/ranking.rs:256 | the sort gives non-increasing keys, is a permutation, and keeps the input order among equal keys |
| Sorting.SortedIsFixed | src/ranking.rs:260-263 | sorting a sorted list changes nothing |
| Tally.Weight | src/ranking.rs:153-166 | definition of one voter's per-ballot power: 1 up to 2.5 ballots, otherwise 2.5 divided by the count; specified by Tally.WeightBounds |
| Tally.BallotScores | src/ranking.rs:182-203 | definition of the pairs one ballot gives: its ranked players first, then its unranked ones; specified by Tally.BallotScoresShape and EmptyVoteScoresHalf |
| Tally.Collect | src/ranking.rs:176-210 | definition of `votes_per_player`: every ballot's pairs pushed in ballot order; specified by Tally.CollectMeaning and CollectWellFormed |
| Tally.Mean | src/ranking.rs:214-218 | definition of `mean`: the weighted sum of scores over the total weight; specified by Tally.MeanBetween |
| Tally.StdDevSquared | src/ranking.rs:222-233 | definition of the squared `std_dev`, absent where the source's value is not finite; specified by Tally.StdDevAbsentIff and SumSquaresNonNegative |
| Tally.RankingOf | src/ranking.rs:143-269 | definition of the ranking of a list of ballots, the reference the tally loops are proved against; specified by Tally.RankingShape, EntryMeaning and EveryScoredPlayerRanked |
| Tally.WeightBounds | src/ranking.rs:153-166 | a voter's per-ballot weight is in (0, 1], is 1 exactly for at most two ballots, and the voter's total weight is min(ballots, 2.5) |
| Tally.VoterCountsSnoc | src/ranking.rs:144-149 | one more ballot increments its voter's count (or inserts 1) and leaves the other counts alone |
| Tally.VoterCountsStep | src/ranking.rs:144-149 | counting one more ballot of the list adds one to its voter's count |
| Tally.CountVotesPerVoter | src/ranking.rs:144-149 | the counting loop computes the per-voter counts |
| Tally.VoterCountsMeaning | src/ranking.rs:144-149 | each voter's count is the number of ballots cast by that voter |
| Tally.VotePowerBounds | src/ranking.rs:153-166 | every voter of the week has a voting power, and each lies in (0, 1] |
| Tally.Power | src/ranking.rs:153-166 | the `vote_power` map covers the voter of every ballot, so its `unwrap` cannot fail, and every weight lies in (0, 1] |
| Tally.UnrankedMembers | src/ranking.rs:190 | the unranked players are exactly the offered players absent from the vote |
| Tally.UnrankedOfEmptyVote | src/ranking.rs:190 | an empty vote leaves every offered player unranked |
| Tally.BallotScoresShape | src/ranking.rs:182-203 | a ballot scores its i-th ranked player (4-i)/4, then gives each unranked offered player, in offered order and once each, (u-1)/8, where u is the number of unranked players; every pair carries the voter's weight |
| Tally.EmptyVoteScoresHalf | src/ranking.rs:190-203 | a ballot never voted on gives each of its five players 0.5 |
| Tally.AddEntryLookup | src/ranking.rs:205-208 | pushing one pair appends its score to its player's list only and creates a list only for that player |
| Tally.AddAllLookup | src/ranking.rs:205-208 | pushing scores appends to each player's list exactly that player's scores, in order, and creates a list only for scored players |
| Tally.PushScores | src/ranking.rs:205-208 | the push loop appends the ballot's pairs to the players' lists |
| Tally.CollectMeaning | src/ranking.rs:176-210 | a player's list is every pair the ballots gave them, in ballot order, and players without pairs are absent |
| Tally.AddAllWellFormed | src/ranking.rs:205-208 | pushing pairs whose weights lie in (0, 1] keeps every list non-empty with such weights |
| Tally.CollectWellFormed | src/ranking.rs:176-210 | every player's list is non-empty and its weights lie in (0, 1] |
| Tally.PrefixScorable | src/ranking.rs:176-210 | processing one more scorable ballot extends the accumulated map by that ballot's scores |
| Tally.AccumulateVotesPerPlayer | src/ranking.rs:176-210 | the loop over the ballots fails exactly when some vote ranks more than five players; otherwise it builds each player's list |
| Tally.PerPlayerOf | src/ranking.rs:176-210 | every list of the per-player map is non-empty, with weights in (0, 1] and a positive total weight |
| Tally.SumWeightsPositive | src/ranking.rs:214-218 | a non-empty list of positively weighted pairs has a positive total weight, so the mean's division is defined |
| Tally.WellFormedSummable | src/ranking.rs:214-218 | every mean of a well-formed map is defined |
| Tally.MeanBetween | src/ranking.rs:214-218 | the weighted mean lies between the lowest and the highest score |
| Tally.CountPositiveAll | src/ranking.rs:226 | with positive weights every pair counts as a non-zero-weight vote |
| Tally.SumSquaresNonNegative | src/ranking.rs:222-225 | the weighted sum of squared deviations is never negative |
| Tally.StdDevAbsentIff | src/ranking.rs:222-233 | the deviation is not finite exactly when the player has a single pair |
| Tally.MentionedMembers | src/ranking.rs:239-255 | the mentioned entries are exactly the entries of roster players that received a pair |
| Tally.MentionedUnpositioned | src/ranking.rs:247-248 | mentioned entries start without a position |
| Tally.AssignPositions | src/ranking.rs:256-258 | the position loop gives the i-th entry in ranked order position i+1 and changes nothing else |
| Tally.PositionsAscending | src/ranking.rs:260-263 | sorting by position a list whose positions are already 1..N in order leaves it unchanged |
| Tally.TallySteps | src/ranking.rs:256-269 | the steps of the tally, once the per-player lists are built, compose to the ranking specification |
| Tally.RankingEntries | src/ranking.rs:256-269 | the ranking's entries are the ranked entries, numbered in order |
| Tally.RankedSpec | src/ranking.rs:256 | the ranked entries are the mentioned ones sorted by descending mean, as a stable permutation |
| Tally.TallyVotes | src/ranking.rs:143-269 | the tally method computes the ranking specification of its ballots |
| Tally.RankingShape | src/ranking.rs:143-269 | the tally succeeds exactly when no vote ranks more than five players; then `votes` counts the ballots, positions are 1..N in order, means do not increase, entries are the mentioned players reordered, and equal means keep roster order |
| Tally.MentionedMeaning | src/ranking.rs:239-255 | a mentioned entry names a roster player; its `votos` is the number of pairs that player received; its mean and deviation are the weighted mean and deviation of exactly those pairs; the mean lies within their scores; the deviation is absent exactly for one pair |
| Tally.EntryMeaning | src/ranking.rs:239-269 | every ranking entry names a roster player and carries that player's pair count and the weighted mean and deviation of exactly that player's pairs; the mean lies within their scores and the deviation is absent exactly for one pair |
| Tally.EveryScoredPlayerRanked | src/ranking.rs:239-242 | every roster player who received a pair appears in the ranking |
| Store.Database.constructor | migration/src/m20241020_003335_create_jogo_e_jogador.rs:15-20 | a database with a given player table whose ids are distinct and no ballots or results satisfies the table invariants |
| Store.Database.FindBallot | src/services/voting.rs:223 | `find_by_id` returns the only row with that key, or nothing exactly when no row has it |
| Store.Database.FindOpen | src/services/voting.rs:83-89 | the open-ballot query finds the caller's open ballot for the week, which is unique, or nothing exactly when there is none |
| Store.Database.FindJogadorByEmail | src/services/ranking.rs:27-31 | the player lookup by email returns the first matching player, or nothing exactly when no player has that email |
| Store.Database.InsertApuracao | migration/src/m20241031_011703_cria_apuracao.rs:20-31 | the insert succeeds exactly when neither the week id nor the random id has a row yet; then it adds that row, otherwise nothing changes, and the unique keys stay unique |
| Store.Database.UpdateApuracao | src/ranking.rs:122-124 | saving the row again overwrites its state and results under the same week id and random id, and the unique keys stay unique |
| Store.InsertKeepsTable | src/services/voting.rs:82-97 | appending a fresh-keyed open ballot for a voter with none that week keeps the invariants |
| Store.Database.InsertBallot | src/services/voting.rs:148-158 | saving a new ballot appends it under the next auto-increment key, returns that key and keeps the invariants |
| Apuracao.CloseWeek | src/ranking.rs:50-61 | definition of the ballot table after `prepare_apurar(id)`; specified by Apuracao.CloseWeekPointwise, PreparedWeek and CloseWeekIdempotent |
| Apuracao.ClosedOfWeek | src/ranking.rs:136-140 | definition of the tally's query: the closed ballots of week `id` in storage order; specified by Apuracao.TallySeesWholeWeek |
| Apuracao.FinalRow | src/ranking.rs:104-124 | definition of the `apuracao` row `apurar_complete` leaves: complete with the ranking on success, otherwise the started row; used by the contracts of Apuracao.ApurarComplete and GetOrCreateApuracao |
| Apuracao.CloseWeekPointwise | src/ranking.rs:50-61 | closing a week treats every ballot on its own: open ballots of that week are closed |
| Apuracao.PreparedWeek | src/ranking.rs:46-67 | after `prepare_apurar(id)` no ballot of week `id` is open; other weeks' ballots are untouched; only the state column changes |
| Apuracao.CloseWeekIdempotent | src/ranking.rs:46-67 | preparing a week twice is preparing it once |
| Apuracao.CloseWeekKeepsInvariants | src/ranking.rs:57-61 | closing ballots keeps the keys and the one-open-ballot-per-week rule |
| Apuracao.TallySeesWholeWeek | src/ranking.rs:136-140 | after preparing week `id`, the tally's query returns every ballot of that week in storage order, closed, including ones never voted on |
| Apuracao.PrepareApurar | src/ranking.rs:46-67 | the closing loop turns the ballot table into the closed-week table, keeps the invariants, and touches no other table |
| Apuracao.CalculateRanking | src/ranking.rs:129-274 | the result is the tally of the closed ballots of the week |
| Apuracao.ApurarComplete | src/ranking.rs:98-127 | a taken week id or random id aborts with nothing changed; otherwise the week is closed and tallied; success stores the ranking as `Complete`, failure leaves the row `Started` with the empty ranking |
| Apuracao.GetOrCreateApuracao | src/ranking.rs:79-96 | a complete row returns its stored ranking, a row that is not complete gives an error, both with nothing changed; with no row the week is computed as in `apurar_complete` |
| Apuracao.AskTwice | src/ranking.rs:79-96 | once a week's ranking is returned, asking again returns the same ranking; once a tally fails, every later request reports that the week is not complete; unless the first request hit a taken random id, the second request leaves the tables as the first one left them |
| Voting.TicketEmails | src/services/voting.rs:56 | definition of the ticket email list; specified by Voting.TicketEmailsSpec |
| Voting.ExtraIds | src/services/voting.rs:47-53 | definition of the extra-list query's player ids; specified by Voting.ExtraIdsMembers |
| Voting.Eligible | src/services/voting.rs:58 | definition of the eligibility filter over the roster; specified by Voting.EligibleMembers, EligibleAppend and EligibleDistinct |
| Voting.NewBallot | src/services/voting.rs:148-156 | definition of the row `voting_create` saves: the given id, five distinct eligible players, an empty vote, the current week and state open; used by the contract of Voting.VotingCreate |
| Voting.ParseI32 | src/services/voting.rs:238-245 | a parsed entry ends in a digit, and a negative value was written with a leading minus |
| Voting.ShowNatDigits | src/services/voting.rs:257 | printing a natural number gives a non-empty digit string whose value is that number |
| Voting.ParseShow | src/services/voting.rs:238-257 | parsing what `to_string` printed gives back the number exactly when it fits an `i32` |
| Voting.ParseRejectsNoDigits | src/services/voting.rs:238-245 | the empty string and a lone sign do not parse |
| Voting.ParseAllSpec | src/services/voting.rs:238-245 | the vote parses exactly when every entry does, and then entry by entry in order |
| Voting.TicketEmailsSpec | src/services/voting.rs:56 | one ticket without an email empties the list; otherwise the list is every email in order |
| Voting.ExtraIdsMembers | src/services/voting.rs:47-53 | a player is on the extra list exactly when some row of theirs is dated strictly inside the window |
| Voting.EligibleMembers | src/services/voting.rs:58 | a player is eligible exactly when they are on the roster and hold a ticket email or an extra-list row |
| Voting.EligibleAppend | src/services/voting.rs:58 | the filter keeps roster order |
| Voting.EligibleDistinct | src/services/voting.rs:131-144 | eligible players have distinct ids, so the five picked ids are distinct |
| Voting.EligibleAtMeaning | src/services/voting.rs:32-58 | eligibility at `now` is a ticket email, or an extra-list row strictly inside the four weeks before the reference point of `now` |
| Voting.ElegiblePlayers | src/services/voting.rs:23-66 | only a logged-in caller gets a list, and the list is the nicknames of the eligible players in roster order |
| Voting.VotingCreate | src/services/voting.rs:68-163 | an existing open ballot is returned unchanged; otherwise the creation window and at least five eligible players are required, in that order; then one open ballot is appended with a fresh id, five distinct eligible players, an empty vote and the current week's id |
| Voting.CreateTwice | src/services/voting.rs:82-97 | within one week, once a caller has been given a ballot, asking again returns that same ballot |
| Voting.PickPlayers | src/services/voting.rs:140-144 | the five picks become five distinct ids of eligible players, in pick order |
| Voting.VoteSubmit | src/services/voting.rs:211-260 | the guards run in the source's order (login, ballot exists, owner, open, voting window, every entry parses); only then is the parsed vote stored and the ballot closed, and nothing else changes |
| Voting.CloseKeepsTable | src/services/voting.rs:248-253 | storing a vote and closing its ballot keeps the keys and the one-open-ballot rule |
| Voting.SubmitTwice | src/services/voting.rs:227-229 | after a vote is accepted, a second submission to that ballot is refused as not open |
| RankingService.DebugSelection | src/services/ranking.rs:49-53 | definition of the debug page's query; specified by RankingService.DebugSelectionMembers |
| RankingService.FromIdAligned | src/timings.rs:87-90 | the reference point of any week id is aligned |
| RankingService.PublishedAfterVoting | src/services/ranking.rs:246-253 | results are only shown once the week's voting window has closed |
| RankingService.WeekRanking | src/services/ranking.rs:239-294 | before publication only the publication instant is reported and nothing changes; afterwards a complete row's ranking is shown and a started row is an error, both with nothing changed; for a week without a row, a taken random id aborts with nothing changed, and otherwise the week is closed, tallied and stored, the page is the tally's result and it succeeds exactly when every closed ballot of the week ranks at most five players |
| RankingService.DebugSelectionMembers | src/services/ranking.rs:49-53 | the debug query selects exactly the closed ballots created after the current reference point |
| RankingService.DebugSelectionSkipsWeekStart | src/services/ranking.rs:45-53 | a closed ballot created exactly at the week's start is in the week's tally but not in the debug tally |
| RankingService.DebugRanking | src/services/ranking.rs:18-237 | login, a player with that email, and the admin flag are required, in that order; the page then shows the tally of the debug selection, its ballot count, the reference point and the week id |

## Left out

- HTTP routing, sessions, Tera templates and date formatting are not modelled. A response becomes a `Result` value, and a redirect becomes the ballot id it carries.
- The pages `voting`, `vote` and `vote_success` and the handlers in src/services/auth.rs and src/services/lista.rs are outside the modelled core. `has_apurado` (src/ranking.rs:69-77) is not used by any modelled handler.
- The first reference point is built from local time by `Local.with_ymd_and_hms`. The model fixes it as the Unix instant 1685916000, which is 2023-06-04 19:00 at UTC-3. Instants are whole seconds, so chrono's sub-second precision is dropped.
- Tally.TallyVotes: scores, weights, means and deviations are exact reals instead of `f32`, so `f32` rounding and overflow are not modelled. The deviation is kept as its square, before `sqrt`. An absent deviation models the non-finite `f32` result, which occurs exactly when the division is by zero.
- Tally.RankingShape: `votes`, `votos` and `pos` are unbounded naturals. The `as i32` casts of these counts are not modelled, since they only wrap above 2^31 ballots.
- A vote of six or more players makes the `usize` subtraction panic in a debug build. The model turns that into an error. The wrap-around of a release build is not modelled.
- Each ranking entry carries the player id. The `RankingEntry` of src/ranking.rs has no id field, but `debug_ranking` uses the id.
- The votes are stored as JSON arrays and read back with `unwrap`. The model stores them as sequences of integers, so a malformed JSON array is not modelled. Likewise, the serde round trip of the stored `Ranking` is taken to be the identity.
- `Utc::now()` is read several times per request. The model uses one `now` per handler invocation, also for the ranking's timestamp and the new ballot's date.
- Randomness is a parameter or a choice. `apurar_complete`'s `rand_id` is an argument. The five players picked by `choose_multiple` are any five distinct eligible players (`:|`), so their order is not modelled.
- The ticket query runs on the external ticketing database. Its rows enter as a parameter, a list of optional emails, and its `BETWEEN` window is the caller's concern.
- Database errors raised by `?` are not modelled, and neither are concurrent requests: two requests can race between the check for an open ballot and the insert.
- The ballot `state` column is the string "open" or "closed" in the handlers, and the model uses the enum `Open | Closed`. The ballot migration's enumeration (generated, submitted, computed) is not what the handlers write, so the model follows the handlers.
- Timings.RefPointFromId: instants are unbounded integers, so chrono's date range of about 262,000 years either side of year 0 is not modelled. `first_reset + Duration::weeks(id as i64)` panics for ids beyond roughly 13.6 million weeks either way, e.g. `week_ranking(2147483647)`, where the model returns the not-published page.
- Voting.Eligible: "roster order" is the storage order of `Jogador::find().all(db)`, which has no `ORDER BY`. The model takes the roster as a sequence in one fixed order, so an order that changes from query to query is not modelled. The same holds for the ballot order of `Apuracao.ClosedOfWeek` and for the roster order among equal means in the ranking.
- Store.Database.FindJogadorByEmail: the `email` column is not unique. `.one()` is taken to return the first matching row in storage order.
- RankingService.DebugRanking: the debug page selects closed ballots by `date > start_of_week`, not by `fute_id`. The model follows that code. Ballots are only created for the current week, so the two selections differ for a ballot created exactly at the week's start, which `week_ranking` counts and the debug page does not.
