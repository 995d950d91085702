# Participatory budget: the matchup and rating engine

A voting session over a catalog of government programmes. Each programme has
an id, a cost and an Elo rating. In plain mode the voter is shown two
programmes that have not been compared yet. In budget mode a budget is set
first. The voter is then shown two options whose price is close to the
budget. An option is one of three kinds:

- a single programme costing between 95% and 105% of the budget;
- a share, meaning a fraction between 50% and 99% of a dearer programme,
  priced at the budget;
- a combination of two or three programmes whose summed cost lies in the
  same window.

Each vote runs an Elo update with K = 32. The points won or lost go back to
the programmes:

- a single takes the new rating;
- the base programme of a share moves by the full points;
- each member of a combination moves by its share of the combination's cost.

The model covers three source files:

- the rating rule, `src/utils/elo.ts`;
- the option types and their guards, `src/types/programme.ts`;
- the session state and its operations, `src/context/ProgrammesContext.tsx`.

Modules:

- `Programmes`: the data model. `MatchupOption` has one constructor per
  kind of option. An option's id is a typed `OptionId` instead of a
  formatted string.
- `Elo`: `updateElo`. The expected score is any function with the two
  properties the logistic curve has: strictly between 0 and 1, and the two
  sides' values add up to 1.
- `RandomSource`: `Math.random` becomes an input stream `stream: nat -> [0, 1)`.
  Every operation that draws takes the number of draws made so far (`k`) and
  returns the new count.
- `Pairing`: `getPairKey` and both modes of `getRandomPair`.
- `BudgetPools`: the singles and shares pools.
- `Combinations`: the recursive combination search. It is proved to yield
  exactly the pool described by a specification function: sound, complete
  up to its dedup key, and free of repeated ids.
- `OptionDraws`: `selectRandomOptionFromWeightedTypes` and
  `getTwoDistinctOptions`.
- `Matchups`: `generateBudgetedMatchupOptions`.
- `Votes`: what a vote writes, as a value.
- `Session`: the provider's state as a class, `ProgrammesSession`, whose
  methods update `programmes`, `voteCount`, `usedPairs`, `currentBudget`
  and `error` in place.
- Small helpers: `Wrappers` (Option), `Seqs` (filter, map) and
  `StringOrder` (string order by code point, and insertion sort).

Observations the proofs make:

- Given that ids of different kinds never collide (see Left out), the two
  budget-mode fallbacks are unreachable.
  - `Matchups.FindOption2` fails only when every candidate pool is empty,
    including the combinations.
  - Both fallbacks need a combination. So after a first option is drawn,
    the only way to get no matchup is that there are no combinations and
    every single and share carries the first option's id
    (`Matchups.NoMatchup`).
- Rounding can create a point. `Math.round` rounds halves up on both sides,
  so when the exchange falls exactly halfway the winner gains one point more
  than the loser loses (`Elo.UpdateEloConservesPoints`).
- When budget mode can offer a single or a share, every matchup it returns
  has a single or a share on at least one side
  (`Matchups.GenerateBudgetedMatchupOptions`).
- Some winners are rated but never written. A winner found only through a
  catalog id that occurs inside its id enters the Elo update, but no rating
  is written for it (`Votes.SubstringWinnerIsNotWritten`).

## Model

| member | source | states |
|---|---|---|
| Programmes.IsProgrammeCombination | src/types/programme.ts:33-35 | the guard holds exactly for combinations |
| Programmes.IsProgrammeShareOption | src/types/programme.ts:38-40 | the guard holds exactly for shares |
| Programmes.GuardsPartitionOptions | src/types/programme.ts:29-40 | no option passes both guards; a plain programme passes neither and has no `type` |
| Elo.Round | src/utils/elo.ts:26-27 | `Math.round` gives the whole number within half a point, halves rounded up |
| Elo.UpdateElo | src/utils/elo.ts:17-33 | each new rating lies within half a point of `rating + K * (score - expected)` from that side's point of view |
| Elo.UpdateEloBounds | src/utils/elo.ts:21-27 | for whole ratings the winner gains between 0 and K points and the loser loses between 0 and K |
| Elo.UpdateEloConservesPoints | src/utils/elo.ts:21-27 | for whole ratings the points gained equal the points lost, except exactly at a halfway exchange, where one point is created |
| Elo.ExpectedAtEqualRatings | src/utils/elo.ts:7-9 | between equal ratings the expected score is one half |
| Elo.UpdateEloAtDefaultRatings | src/utils/elo.ts:17-33 | two programmes at the default 1500 move to 1516 and 1484 |
| RandomSource.Pick | src/context/ProgrammesContext.tsx:134-135 | `Math.floor(Math.random() * n)` is an index below `n` |
| Pairing.PairKey | src/context/ProgrammesContext.tsx:11-13 | the key is the smaller id, a hyphen, then the larger id |
| Pairing.PairKeySymmetric | src/context/ProgrammesContext.tsx:11-13 | the key does not depend on the order of the two ids |
| Pairing.RowPairsMembers | src/context/ProgrammesContext.tsx:154-161 | a row lists exactly the unused pairs that start at `programmes[i]` |
| Pairing.AvailablePairsSound | src/context/ProgrammesContext.tsx:152-162 | every listed pair is `(programmes[i], programmes[j])` with `i < j` and a key not in `usedPairs` |
| Pairing.AvailablePairsComplete | src/context/ProgrammesContext.tsx:152-162 | every pair `i < j` whose key is not in `usedPairs` is listed |
| Pairing.NoneAvailable | src/context/ProgrammesContext.tsx:152-166 | the list is empty exactly when every pair `i < j` has been voted on |
| Pairing.CollectRow | src/context/ProgrammesContext.tsx:154-161 | the inner loop appends exactly the row's unused pairs, in order |
| Pairing.CollectAvailablePairs | src/context/ProgrammesContext.tsx:152-162 | the nested loops build exactly the list of unused pairs |
| Pairing.UnconstrainedPair | src/context/ProgrammesContext.tsx:149-169 | nothing for fewer than two programmes or no unused pair; otherwise the listed pair at the drawn index, after one draw |
| Pairing.UnconstrainedPairSpec | src/context/ProgrammesContext.tsx:149-169 | no pair exactly when fewer than two programmes or every pair is used; otherwise a pair `i < j` whose key is unused |
| Pairing.BudgetPair | src/context/ProgrammesContext.tsx:127-147 | nothing exactly when fewer than two programmes fit the budget or every one of the `2n` redraws hit the first index; otherwise two programmes at different positions of the eligible list |
| Pairing.BudgetPairEligible | src/context/ProgrammesContext.tsx:129 | an eligible programme is in the catalog and costs at most the budget |
| StringOrder.SortBySorts | src/context/ProgrammesContext.tsx:219 | the sort orders by key and keeps exactly the elements it was given |
| Combinations.Candidates | src/context/ProgrammesContext.tsx:219 | the candidates are exactly the programmes costing at most the window's upper edge, sorted by id |
| BudgetPools.ShareOf | src/context/ProgrammesContext.tsx:204-213 | a share is priced at the budget, keeps its base programme, and its percentage times the base cost is the budget |
| BudgetPools.SingleOptions | src/context/ProgrammesContext.tsx:192-197 | an option is in the singles pool exactly when it is a catalog programme costing between the window's edges |
| BudgetPools.ShareOptions | src/context/ProgrammesContext.tsx:199-216 | an option is in the shares pool exactly when it is the budget's share of a catalog programme that costs more than the window allows and of which the budget buys 50% to 99% |
| BudgetPools.CollectSingleOptions | src/context/ProgrammesContext.tsx:192-197 | the loop builds exactly the singles pool, in catalog order |
| BudgetPools.CollectShareOptions | src/context/ProgrammesContext.tsx:199-216 | the loop builds exactly the shares pool, in catalog order |
| BudgetPools.PricedAtBudgetIsSingle | src/context/ProgrammesContext.tsx:187-197 | for a non-negative budget, a programme costing exactly the budget is in the singles pool |
| BudgetPools.SixtyPercentShare | src/context/ProgrammesContext.tsx:199-216 | a programme of which the budget buys 60% yields a share of 0.6 in the shares pool |
| Combinations.ComboOption | src/context/ProgrammesContext.tsx:233-242 | a combination's members are the path's candidates, its total is their summed cost and its id is their sorted ids |
| Combinations.KeySortsIds | src/context/ProgrammesContext.tsx:233 | the dedup key of a combination is its members' ids in string order, each as often as it occurs among them |
| Combinations.Enumerate | src/context/ProgrammesContext.tsx:222-255 | the paths the search visits, in its order; every index on them lies inside the candidate list |
| Combinations.EnumerateSound | src/context/ProgrammesContext.tsx:222-255 | every path the search visits and reports has two or three increasing indices, costs within the window and was never pruned |
| Combinations.EnumerateComplete | src/context/ProgrammesContext.tsx:222-255 | every such path is reported |
| Combinations.CombinationPoolSound | src/context/ProgrammesContext.tsx:218-256 | each pooled combination comes from a valid path and is that path's combination |
| Combinations.CombinationPoolInWindow | src/context/ProgrammesContext.tsx:227-248 | each pooled combination has two or three catalog members costing at most the upper edge, and a total within the window |
| Combinations.CombinationPoolDistinct | src/context/ProgrammesContext.tsx:233-243 | no two pooled combinations share an id |
| Combinations.CombinationPoolComplete | src/context/ProgrammesContext.tsx:222-256 | every valid combination of candidates has its id in the pool |
| Combinations.RecordCurrent | src/context/ProgrammesContext.tsx:227-244 | the current member list is recorded exactly when it is in the window with a new key |
| Combinations.FindValidCombinationsRecursive | src/context/ProgrammesContext.tsx:222-255 | the recursion records, in order, every path listed from the current one |
| Combinations.TryCandidates | src/context/ProgrammesContext.tsx:245-254 | the loop records every branch from `startIndex` on, in order |
| Combinations.TryCandidate | src/context/ProgrammesContext.tsx:246-252 | one turn records the branch through candidate `i`, or nothing when it would pass the upper edge |
| Combinations.FindValidCombinations | src/context/ProgrammesContext.tsx:218-256 | the search yields exactly the specified combination pool |
| OptionDraws.AvailableTypes | src/context/ProgrammesContext.tsx:288 | a kind is available exactly when it is configured and its pool is not empty |
| OptionDraws.Walk | src/context/ProgrammesContext.tsx:297-306 | the weighted walk stops at one of the available kinds |
| OptionDraws.ChosenKind | src/context/ProgrammesContext.tsx:291-306 | the first draw picks one of the available kinds |
| OptionDraws.WeightedPick | src/context/ProgrammesContext.tsx:287-308 | the weighted draw gives nothing exactly when every pool is empty, and otherwise an option of one of the pools |
| OptionDraws.SelectRandomOptionFromWeightedTypes | src/context/ProgrammesContext.tsx:287-308 | the method gives the specified weighted draw, using two draws when some pool has options and none otherwise |
| OptionDraws.ChooseType | src/context/ProgrammesContext.tsx:291-297 | the kind picked is the specified one: uniform when the weights sum to zero, the weighted walk otherwise |
| OptionDraws.WalkTypes | src/context/ProgrammesContext.tsx:297-306 | the loop stops at the kind the weighted walk specifies |
| OptionDraws.ScanForDistinctIds | src/context/ProgrammesContext.tsx:269-276 | the scan finds nothing exactly when every option has the same id, and otherwise positions `i < j` with different ids |
| OptionDraws.GetTwoDistinctOptions | src/context/ProgrammesContext.tsx:259-278 | nothing for fewer than two options, and for two or more only when every option shares one id; a pair it returns is two options at different positions, whose ids may coincide |
| OptionDraws.TwoOfDistinct | src/context/ProgrammesContext.tsx:259-278 | from a pool without repeated ids, two options at different positions have different ids |
| OptionDraws.DistinctPoolIsNotSame | src/context/ProgrammesContext.tsx:269-276 | a pool of two or more options without repeated ids always yields a pair |
| Matchups.CandidateSingles | src/context/ProgrammesContext.tsx:330-337 | the candidate singles are the singles, less those with the first option's id when that option is a single |
| Matchups.CandidateShares | src/context/ProgrammesContext.tsx:331-334 | the candidate shares are the shares, less those with the first option's id when that option is a share |
| Matchups.FirstDraw | src/context/ProgrammesContext.tsx:310-315 | the first option is a single or a share, and is missing exactly when both pools are empty |
| Matchups.PoolsTyped | src/context/ProgrammesContext.tsx:191-256 | the three pools hold singles, shares and combinations respectively, and no two combinations share an id |
| Matchups.CandidatesExhausted | src/context/ProgrammesContext.tsx:329-337 | both candidate pools are empty exactly when every single and share has the first option's id |
| Matchups.CandidateDiffers | src/context/ProgrammesContext.tsx:329-339 | an option from a candidate pool has an id different from the first option's and comes from one of the three pools |
| Matchups.SecondConfigsPools | src/context/ProgrammesContext.tsx:341-345 | the second draw's kinds are all empty exactly when the three pools are, and hold only their options |
| Matchups.SecondDrawDiffers | src/context/ProgrammesContext.tsx:329-348 | a second draw never repeats the first option's id, comes from the pools, and fails exactly when every candidate pool is empty |
| Matchups.FindOption2 | src/context/ProgrammesContext.tsx:325-352 | the ten-attempt loop finds a second option with a different id from the pools; it fails exactly when every candidate pool is empty, after no draw |
| Matchups.Fallbacks | src/context/ProgrammesContext.tsx:354-371 | nothing without combinations; a pair it gives is two different combinations, neither with the first option's id |
| Matchups.CombinationsOnly | src/context/ProgrammesContext.tsx:317-323 | with neither singles nor shares: two combinations with different ids exactly when there are at least two |
| Matchups.GenerateBudgetedMatchupOptions | src/context/ProgrammesContext.tsx:181-373 | nothing exactly when there is no budget or no matchup exists for the draws; otherwise two options with different ids, each from the budget's pools, at least one of them a single or a share whenever the budget has any |
| Votes.WithDefaultRating | src/context/ProgrammesContext.tsx:113 | a missing (zero) rating becomes the default 1500; every other field and every non-zero rating stays |
| Votes.WithDefaultRatings | src/context/ProgrammesContext.tsx:113 | the catalog with every missing rating set to 1500, in order |
| Votes.SetRating | src/context/ProgrammesContext.tsx:105-109 | the catalog keeps its length, order and every field but the rating; programmes with the id take the new rating, the others keep theirs |
| Votes.ApplyWritesAt | src/context/ProgrammesContext.tsx:105-109 | after a list of writes, each programme keeps all but its rating, which is the last written to its id or the one it had |
| Votes.ApplyWritesAppend | src/context/ProgrammesContext.tsx:105-109 | applying two lists of writes one after the other is applying their concatenation |
| Votes.SetRatingTwice | src/context/ProgrammesContext.tsx:105-109 | setting a rating twice keeps the second |
| Votes.FindFirst | src/context/ProgrammesContext.tsx:385-386 | `find` gives nothing exactly when no programme satisfies the test, otherwise a catalog programme that does |
| Votes.FindFirstIsFirst | src/context/ProgrammesContext.tsx:385-386 | the programme found comes no later than any other that satisfies the test |
| Votes.ContainsIff | src/context/ProgrammesContext.tsx:401 | `includes` holds exactly when the substring occurs at some position |
| Votes.RatingForCalc | src/context/ProgrammesContext.tsx:391-428 | a share side enters the update with its base programme's rating; a combination side always has a rating |
| Votes.CombinationRatingWithin | src/context/ProgrammesContext.tsx:392-394 | a combination's rating, its members' mean, lies between their lowest and highest rating |
| Votes.RatingForCalcPlain | src/context/ProgrammesContext.tsx:397-408 | a plain side takes the rating of a catalog programme with its id when there is one, and any rating it takes is that of a catalog programme whose id occurs in its id |
| Votes.RatingForCalcNone | src/context/ProgrammesContext.tsx:391-428 | a side has no rating exactly when it is plain or absent and no catalog id occurs in its id |
| Votes.SideWrites | src/context/ProgrammesContext.tsx:434-482 | the writes for one side, given its new Elo rating and its points `delta`: each combination member, in order, moves by its cost share of `delta`; a share's base programme moves by the whole `delta`; a plain side found by its exact id gets the new Elo rating; any other side writes nothing (the vote-level values are stated by `Votes.CombinationWinsVote`, `Votes.CombinationLosesVote`, `Votes.ShareWinsVote`, `Votes.ShareLosesVote` and `Votes.PlainVote`) |
| Votes.SideWritesCredit | src/context/ProgrammesContext.tsx:434-482 | a side writes to exactly the ids it credits: a combination's members, a share's base, or the programme found by the side's id |
| Votes.VoteWrites | src/context/ProgrammesContext.tsx:384-482 | a vote is rejected exactly when a side has no rating, with the winner's message when the winner has none; an accepted vote writes only to ids its two sides credit |
| Votes.VoteLeavesOthers | src/context/ProgrammesContext.tsx:434-482 | after an accepted vote, a programme neither side credits is unchanged |
| Votes.VoteKeepsCatalog | src/context/ProgrammesContext.tsx:434-482 | a vote changes only ratings: ids, costs, names and the catalog's order stay |
| Votes.SplitWrites | src/context/ProgrammesContext.tsx:435-441 | each combination member moves by its share of the cost times the points, from the rating the combination carries for it |
| Votes.ProportionalChanges | src/context/ProgrammesContext.tsx:435-441 | the members' changes add up to the points times the members' summed cost over the total |
| Votes.CombinationSplitsPoints | src/context/ProgrammesContext.tsx:435-441 | when the total cost is the members' summed cost, the members' changes add up to exactly the points won or lost |
| Votes.PlainVote | src/context/ProgrammesContext.tsx:384-482 | a vote between two catalog programmes, whatever their ratings, writes the winner's new Elo rating, then the loser's; for whole ratings the winner gains and the loser loses between 0 and K |
| Votes.ShareWinsVote | src/context/ProgrammesContext.tsx:442-444 | a share beating any side that has a rating gives its base programme the full points gained, so the base's first write is the winner's Elo rating from the base rating; the loser side's writes follow |
| Votes.CombinationWinsVote | src/context/ProgrammesContext.tsx:435-441 | a combination beating any side that has a rating: its first writes are its members, in order, each moved by its cost share of the points the combination gained; with the members' summed cost as total, these moves add up to exactly those points |
| Votes.ShareLosesVote | src/context/ProgrammesContext.tsx:474-476 | a share losing to any side that has a rating: the winner side's writes come first, then the base programme loses the full points and gets the loser's Elo rating from the base rating |
| Votes.CombinationLosesVote | src/context/ProgrammesContext.tsx:467-473 | a combination losing to any side that has a rating: its members' writes come last, in order, each moved by its cost share of the points the combination lost; with the members' summed cost as total, these moves add up to exactly those points |
| Votes.SubstringWinnerIsNotWritten | src/context/ProgrammesContext.tsx:399-464 | a winner found only through an id occurring in its id is rated but not written; the vote writes only the loser |
| Session.ProgrammesSession.constructor | src/context/ProgrammesContext.tsx:16-28 | a fresh session: the catalog with default ratings, no votes, no used pairs, no budget and no error |
| Session.ProgrammesSession.InternalUpdateProgrammeRating | src/context/ProgrammesContext.tsx:105-109 | every programme with the id takes the new rating; nothing else changes |
| Session.ProgrammesSession.ResetRatingsAndData | src/context/ProgrammesContext.tsx:111-124 | back to the catalog with default ratings, no votes, no used pairs, no budget and no error |
| Session.ProgrammesSession.SetBudget | src/context/ProgrammesContext.tsx:378-382 | the budget is set or cleared; used pairs and everything else stay |
| Session.ProgrammesSession.AddUsedPairToSet | src/context/ProgrammesContext.tsx:173-178 | the pair's key is added exactly when no budget is set; nothing else changes |
| Session.ProgrammesSession.GetRandomPair | src/context/ProgrammesContext.tsx:126-171 | the budget selector's guarantee with a budget, the unconstrained selector's draw without one |
| Session.ProgrammesSession.GenerateBudgetedMatchupOptions | src/context/ProgrammesContext.tsx:181-375 | for the session's catalog and budget: nothing exactly when there is no budget or no matchup; otherwise two options with different ids from the budget's pools, at least one a single or a share whenever the budget has any |
| Session.ProgrammesSession.ApplySide | src/context/ProgrammesContext.tsx:434-482 | one side's rating writes, made one at a time, leave the catalog as the side's write list specifies |
| Session.ProgrammesSession.ApplyEloUpdate | src/context/ProgrammesContext.tsx:430-482 | the catalog after the winner's and then the loser's writes for the Elo update of the two ratings |
| Session.ProgrammesSession.HandleVoteAndUpdateElo | src/context/ProgrammesContext.tsx:384-490 | a rejected vote sets the error and changes nothing else; an accepted one applies its writes, counts the vote, and records the pair exactly when no budget is set and both ids are catalog programmes |

## Left out

- Persistence to `localStorage` is left out, as is the startup effect that reads and parses it (`src/context/ProgrammesContext.tsx:24-103`). A session starts from the catalog as on a first visit or after a reset. Browser storage is I/O.
- `isLoading`, the React context plumbing and the `console` messages are left out. None of them affects the state the operations compute.
- Numbers are exact reals. JavaScript floating point rounding, `NaN` and `Infinity` are not modelled.
- A share of a zero-cost programme is treated as not a share. In the source, `budget / 0` is infinite or `NaN` and fails the 50%–99% test.
- The readable `name` fields and their `toFixed` formatting are not modelled, because nothing reads them back.
- Option ids are a typed `OptionId`, not formatted strings (`share-…`, `combo-…`). So a plain programme whose id happens to look like a share's or a combination's id never collides with it here. Likewise a combination's key is the sorted list of its member ids, not those ids joined with `-`: two different combinations whose joined ids coincide (possible when ids contain `-`, as with `a-b` + `c` and `a` + `b-c`) are merged by the source's dedup and kept apart here.
- Two sorts are modelled by string order on Unicode code points: `localeCompare` in the candidate sort, and the default sort in `getPairKey` and the combination key. Locale collation is not modelled, and JavaScript's default sort compares UTF-16 code units, which orders characters above U+FFFF differently from code points.
- Pushing and popping members around the recursive call is modelled as passing the extended member list by value. The list's contents at each step are the same.
- `expectedScore` is not computed. It is any function strictly between 0 and 1 whose values for the two sides add up to 1, because real powers are not modelled.
- How likely each random draw is, is not modelled. The draws are an arbitrary input stream, and the properties hold for every stream.
- Session.ProgrammesSession.HandleVoteAndUpdateElo: requires a combination side to have members and a non-zero total cost. The source divides by both, giving `NaN` ratings otherwise. The engine only builds combinations of two or three programmes whose total is at least 95% of the budget.
- OptionDraws.GetTwoDistinctOptions: states `k' >= k` only. It does not say how many draws the redraw loop made.
- Pairing.BudgetPair: states `k' >= k` only, not the exact number of draws.
- Matchups.Fallbacks: states `k' >= k` only, not the exact number of draws.
- Matchups.GenerateBudgetedMatchupOptions: states `k' >= k` only, not the exact number of draws.
- Session.ProgrammesSession.GetRandomPair: states `k' >= k` only, not the exact number of draws.
- Session.ProgrammesSession.GenerateBudgetedMatchupOptions: states `k' >= k` only, not the exact number of draws.
