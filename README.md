# Wildora front-end core in Dafny

This project models the state logic of Wildora's React front end:

- the two personality quizzes. The enhanced quiz mixes era questions with scored lyric and trivia questions, awards SwiftCoins and grants three achievement badges. The classic quiz has era questions only;
- the user-profile hook, which fetches, creates and updates the profile over `/api/user/profile`;
- the list-update handlers of the fan-theory room, the social feed, the mood boards and the easter-egg hunt;
- the lyrics search filter;
- the era theme switcher, which looks up a theme, loads its web font once, writes CSS variables and saves the favourite era.

Each component's state is a Dafny class whose methods replace its fields, as the React state setters do. Each list transition is a pure function, and the lemmas beside it state its properties.

## How it is modelled

- **Profile hook.** Each component that calls `useUserProfile` owns a `UserProfile.ProfileStore`. Its transitions are first given as functions on a `State` value, with the profile, the loading and error flags, and the log of HTTP requests sent. Each store method is proved to perform exactly that transition.
- **Server replies.** Each reply is an input: a status and a body, or a network failure.
- **React closures.** A handler sees the profile of the render that created it. Every page handler therefore takes that profile (`seen`) at its start, and passes it to `updateProfile`, `addSwiftCoins` and `addAchievement`. Their guards and payloads use that snapshot, not the profile as it is after earlier updates.
- **Counters.** The era counters of both quizzes are JavaScript objects. `EraTally` models them as entry lists in insertion order. `Object.entries` follows the ECMAScript own-property order: array-index keys (canonical decimals up to 2^32 − 2) come first in ascending numeric order, and the other keys follow in insertion order. The dominant era is the `reduce` with a strict `>`, so among entries with the maximal count the last one wins. With the quiz's eras this means the key `"1989"` always enumerates first and loses every tie.
- **Point total.** `totalPoints` sums the points of every question, era questions included (`src/react-app/pages/EnhancedQuiz.tsx:172-173`), although era questions never score. With the shipped questions the total is 55 and the best reachable score is 45, so the perfect-score badge cannot be earned.

## Model

| member | source | states |
|---|---|---|
| Text.ToLowerPreservesIncludes | src/react-app/pages/Lyrics.tsx:56-58 | lower-casing both strings keeps an occurrence an occurrence |
| Text.IncludesTransitive | src/react-app/pages/Lyrics.tsx:56-58 | a substring of a substring is a substring |
| Text.ReplaceFirst | src/react-app/components/EraSwitcher.tsx:149 | `replace` with a one-character string pattern changes only the first occurrence; the length is kept |
| Text.ReplaceFirstKeepsLaterOccurrences | src/react-app/components/EraSwitcher.tsx:149 | every occurrence after the first survives the replacement |
| Text.NatToString | src/react-app/pages/FanTheoryRoom.tsx:146 | the decimal string is non-empty, one digit exactly below 10, and ends in the last digit |
| Text.NatToStringInjective | src/react-app/pages/FanTheoryRoom.tsx:146 | different numbers give different decimal strings |
| Api.Network.Send | src/react-app/hooks/useUserProfile.ts:35 | a request is appended to the log and nothing else changes |
| UserProfile.NoUser | src/react-app/hooks/useUserProfile.ts:20-24 | without a user the profile is cleared and loading ends, and no request is sent |
| UserProfile.Create | src/react-app/hooks/useUserProfile.ts:53-78 | a signed-in user sends exactly one create request with era midnights, 0 coins and no badges; an ok reply caches the body, any other reply records the error; nothing happens when signed out |
| UserProfile.Fetch | src/react-app/hooks/useUserProfile.ts:30-51 | loading always ends; an ok reply caches the body; a 404 reply creates the default profile after the fetch; any other reply records 'Failed to fetch profile' |
| UserProfile.UserEffect | src/react-app/hooks/useUserProfile.ts:20-27 | the effect always ends loading; signed out, it clears the profile without sending anything |
| UserProfile.Update | src/react-app/hooks/useUserProfile.ts:80-103 | skipped without a user or a profile; otherwise one update request; an ok reply replaces the cache; a failed one records the error and the update throws |
| UserProfile.CoinsUpdate | src/react-app/hooks/useUserProfile.ts:108-110 | the payload sets only the coins, to the seen balance plus the amount |
| UserProfile.AddCoins | src/react-app/hooks/useUserProfile.ts:105-111 | skipped without a profile, else the update of the coins payload |
| UserProfile.BadgeUpdate | src/react-app/hooks/useUserProfile.ts:113-122 | no payload exactly when the badge is held; else the payload sets only the badges, to the held badges followed by the new one |
| UserProfile.BadgeUpdateKeepsBadgesUnique | src/react-app/hooks/useUserProfile.ts:116-120 | a duplicate-free badge list stays duplicate-free and grows by exactly one |
| UserProfile.AddBadge | src/react-app/hooks/useUserProfile.ts:113-122 | no update without a profile or for a held badge, else the update appending the badge |
| UserProfile.ProfileStore.constructor | src/react-app/hooks/useUserProfile.ts:15-18 | the hook starts with no profile, loading, and no error |
| UserProfile.ProfileStore.UserChanged | src/react-app/hooks/useUserProfile.ts:20-27 | performs the user effect's transition |
| UserProfile.ProfileStore.FetchProfile | src/react-app/hooks/useUserProfile.ts:30-51 | performs the fetch transition |
| UserProfile.ProfileStore.CreateProfile | src/react-app/hooks/useUserProfile.ts:53-78 | performs the create transition |
| UserProfile.ProfileStore.UpdateProfile | src/react-app/hooks/useUserProfile.ts:80-103 | performs the update transition and returns its outcome |
| UserProfile.ProfileStore.AddSwiftCoins | src/react-app/hooks/useUserProfile.ts:105-111 | performs the coins transition |
| UserProfile.ProfileStore.AddAchievement | src/react-app/hooks/useUserProfile.ts:113-122 | performs the badge transition |
| EraTally.IncrementCounts | src/react-app/pages/EnhancedQuiz.tsx:178 | `(count[k] \|\| 0) + 1` raises k's count by one, leaves every other count, and adds one to the total |
| EraTally.IncrementKeySet | src/react-app/pages/EnhancedQuiz.tsx:178 | the keys afterwards are the keys before plus k |
| EraTally.IncrementNewKey | src/react-app/pages/Quiz.tsx:92 | a new key is added as the last entry, with count 1 |
| EraTally.IncrementDistinct | src/react-app/pages/Quiz.tsx:92 | counter keys stay distinct |
| EraTally.TallyOfCounts | src/react-app/pages/Quiz.tsx:91-94 | the counter of a list counts each value's occurrences, its keys are the values, and the counts sum to the length |
| EraTally.SplitProperties | src/react-app/pages/Quiz.tsx:96 | the array-index entries and the other entries partition the counter |
| EraTally.SortByRankSpec | src/react-app/pages/Quiz.tsx:96 | array-index keys are enumerated as a permutation in ascending numeric order |
| EraTally.EntriesPermutation | src/react-app/pages/Quiz.tsx:96 | `Object.entries` lists every entry once |
| EraTally.EntriesOrder | src/react-app/pages/Quiz.tsx:96 | array-index keys come before the other keys, in ascending order |
| EraTally.ReduceMax | src/react-app/pages/Quiz.tsx:96-98 | the reduce with strict `>` returns an entry of maximal count, the last such entry |
| EraTally.DominantIsLastMaximal | src/react-app/pages/EnhancedQuiz.tsx:188-190 | the dominant era is a counted key, no count exceeds its count, and it is the last maximal entry in enumeration order |
| EraTally.SoleIndexKeyFirst | src/react-app/pages/Quiz.tsx:96 | a lone array-index key is enumerated first |
| Quiz.ResultEraIsMostFrequent | src/react-app/pages/Quiz.tsx:91-100 | the result is one of the answers and no era was chosen more often |
| Quiz.ResultIsDescribed | src/react-app/pages/Quiz.tsx:111 | answers from the buttons always give a result with a description |
| Quiz.NineteenEightyNineIsAnIndex | src/react-app/pages/Quiz.tsx:22 | "1989" is an array-index key with numeric value 1989 |
| Quiz.TieGoesToFolklore | src/react-app/pages/Quiz.tsx:96-98 | a 1989/Folklore tie yields Folklore in either answer order |
| Quiz.QuizPage.constructor | src/react-app/pages/Quiz.tsx:79-81 | first question, no answers, no result |
| Quiz.QuizPage.HandleAnswer | src/react-app/pages/Quiz.tsx:83-102 | appends the era; advances until the last question, then sets the result to the dominant era of the answers |
| Quiz.QuizPage.ResetQuiz | src/react-app/pages/Quiz.tsx:104-108 | back to the first question with no answers or result |
| Quiz.QuizPage.Description | src/react-app/pages/Quiz.tsx:111 | a finished quiz's result has a description, and the title is that description's |
| EnhancedQuiz.ScoreAnswers | src/react-app/pages/EnhancedQuiz.tsx:168-185 | the loop computes the point total over all questions, the score over correct non-era answers, and the era counter |
| EnhancedQuiz.FindByText | src/react-app/pages/EnhancedQuiz.tsx:176 | the FIRST button with the text, or none when no button has it |
| EnhancedQuiz.ScoreBounds | src/react-app/pages/EnhancedQuiz.tsx:175-184 | 0 ≤ score ≤ total − era-question points |
| EnhancedQuiz.TallyBounds | src/react-app/pages/EnhancedQuiz.tsx:175-179 | counter keys are distinct and the counts sum to at most the number of era questions |
| EnhancedQuiz.ShippedTotals | src/react-app/pages/EnhancedQuiz.tsx:21-109 | the shipped total is 55, of which the two era questions carry 10 |
| EnhancedQuiz.PerfectScoreUnreachable | src/react-app/pages/EnhancedQuiz.tsx:172-184 | no answers reach more than 45, so `score == totalPoints` never holds |
| EnhancedQuiz.ButtonAnswersVote | src/react-app/pages/EnhancedQuiz.tsx:175-179 | answers from the buttons give each era question exactly one vote |
| EnhancedQuiz.ShippedEraButtonsOnly | src/react-app/pages/EnhancedQuiz.tsx:21-109 | every button of a shipped era question names a non-empty era |
| EnhancedQuiz.ButtonAnswersNeverEmptyTally | src/react-app/pages/EnhancedQuiz.tsx:188-190 | the shipped quiz counts two votes, so the dominant-era reduce never sees an empty counter |
| EnhancedQuiz.TallyKeysWithin | src/react-app/pages/EnhancedQuiz.tsx:176-178 | the counter holds only eras that some button offers |
| EnhancedQuiz.ShippedErasDescribed | src/react-app/pages/EnhancedQuiz.tsx:282-308 | every era a shipped button offers has a description |
| EnhancedQuiz.ResultEraIsDescribed | src/react-app/pages/EnhancedQuiz.tsx:311 | the result era has a description and the most votes |
| EnhancedQuiz.ElapsedSeconds | src/react-app/pages/EnhancedQuiz.tsx:164 | whole seconds since a truthy start, rounded down; 0 without one |
| EnhancedQuiz.EarnedBadgesSpec | src/react-app/pages/EnhancedQuiz.tsx:222-271 | first_quiz iff not held; perfect_score iff score equals total and not held; speed_demon iff under 30 seconds and not held; only these three, each at most once, none already held |
| EnhancedQuiz.PerfectFastFirstAttempt | src/react-app/pages/EnhancedQuiz.tsx:168-185 | two correct questions worth 10 and 15, finished in 25 seconds with no badges: 25 of 25 and all three badges |
| EnhancedQuiz.NoProfileNoSave | src/react-app/pages/EnhancedQuiz.tsx:195 | without a profile nothing is saved or sent |
| EnhancedQuiz.FailedAttemptAwardsNothing | src/react-app/pages/EnhancedQuiz.tsx:197-214 | a failed attempt post sends only the attempt: no coins and no achievements |
| EnhancedQuiz.CheckPassExtendsLog | src/react-app/pages/EnhancedQuiz.tsx:222-271 | the achievement pass only appends requests |
| EnhancedQuiz.CoinsBeforeAchievements | src/react-app/pages/EnhancedQuiz.tsx:197-213 | after an ok attempt the coin update for the earned coins is sent before any achievement request |
| EnhancedQuiz.PassUpdatesExtendSeenBadges | src/react-app/pages/EnhancedQuiz.tsx:224-258 | every badge update of a pass is the seen badges plus one earned badge |
| EnhancedQuiz.EnhancedQuizPage.constructor | src/react-app/pages/EnhancedQuiz.tsx:136-140 | the page starts at the first question with nothing recorded |
| EnhancedQuiz.EnhancedQuizPage.StartClock | src/react-app/pages/EnhancedQuiz.tsx:144-148 | on the first question the clock starts unless a truthy start exists |
| EnhancedQuiz.EnhancedQuizPage.HandleAnswer | src/react-app/pages/EnhancedQuiz.tsx:150-220 | records 'correct', 'incorrect' or the text; advances, or finishes with the elapsed time, the result and the save step |
| EnhancedQuiz.EnhancedQuizPage.Finish | src/react-app/pages/EnhancedQuiz.tsx:161-218 | the last answer's branch: elapsed time, result, then the save step against the profile seen when the button was pressed |
| EnhancedQuiz.EnhancedQuizPage.Conclude | src/react-app/pages/EnhancedQuiz.tsx:163-192 | elapsed whole seconds, the score and point total of the scoring pass, and the result with the dominant era of a non-empty counter |
| EnhancedQuiz.EnhancedQuizPage.SaveAttemptOf | src/react-app/pages/EnhancedQuiz.tsx:195-218 | posts the attempt; on an ok reply adds the coins; unless that throws, runs the achievement pass |
| EnhancedQuiz.EnhancedQuizPage.Grant | src/react-app/pages/EnhancedQuiz.tsx:225-236 | adds the badge; unless that throws, posts it to the achievements endpoint |
| EnhancedQuiz.EnhancedQuizPage.CheckAchievements | src/react-app/pages/EnhancedQuiz.tsx:222-271 | grants the earned badges in rule order; a thrown update ends the pass |
| EnhancedQuiz.EnhancedQuizPage.ResetQuiz | src/react-app/pages/EnhancedQuiz.tsx:274-280 | clears the question, answers, result, start and time |
| FanTheoryRoom.Vote | src/react-app/pages/FanTheoryRoom.tsx:132-140 | matching threads gain k votes and nothing else; the other threads, the length and the order are kept |
| FanTheoryRoom.VoteUnknownId | src/react-app/pages/FanTheoryRoom.tsx:135 | an unknown id changes nothing |
| FanTheoryRoom.VoteUndo | src/react-app/pages/FanTheoryRoom.tsx:136 | voting −k after k restores the threads |
| FanTheoryRoom.SubmitThread | src/react-app/pages/FanTheoryRoom.tsx:142-162 | an empty title or content changes nothing; else one thread with id length+1, no votes and no comments is appended, and the form is reset |
| FanTheoryRoom.SeedIdsSequential | src/react-app/pages/FanTheoryRoom.tsx:27-75 | the seed ids are "1" to "3" |
| FanTheoryRoom.SequentialIdsDistinct | src/react-app/pages/FanTheoryRoom.tsx:146 | sequential ids are distinct |
| FanTheoryRoom.VoteKeepsIdsSequential | src/react-app/pages/FanTheoryRoom.tsx:132-140 | votes keep the ids sequential |
| FanTheoryRoom.SubmitThreadKeepsIdsSequential | src/react-app/pages/FanTheoryRoom.tsx:146-159 | appending keeps the ids sequential |
| FanTheoryRoom.SubmitCommentKeepsIdsSequential | src/react-app/pages/FanTheoryRoom.tsx:168-185 | comments keep the ids sequential |
| FanTheoryRoom.AddCommentSpec | src/react-app/pages/FanTheoryRoom.tsx:168-185 | the matching threads gain one comment with id 'c' + (count+1); the other threads are unchanged |
| FanTheoryRoom.SubmitComment | src/react-app/pages/FanTheoryRoom.tsx:164-189 | an empty draft or author changes nothing; else the comment is added and the thread's draft and the author are cleared |
| FanTheoryRoom.CommentIdCollision | src/react-app/pages/FanTheoryRoom.tsx:168-185 | the first new comment on seed thread '3' gets id 'c2', which its seed comment already has |
| FanTheoryRoom.FanTheoryRoomPage.constructor | src/react-app/pages/FanTheoryRoom.tsx:27-85 | seed threads, default form, no drafts, no author |
| FanTheoryRoom.FanTheoryRoomPage.HandleVote | src/react-app/pages/FanTheoryRoom.tsx:132-140 | performs the vote and keeps the ids sequential |
| FanTheoryRoom.FanTheoryRoomPage.HandleSubmitThread | src/react-app/pages/FanTheoryRoom.tsx:142-162 | performs the thread submission and keeps the ids sequential |
| FanTheoryRoom.FanTheoryRoomPage.HandleSubmitComment | src/react-app/pages/FanTheoryRoom.tsx:164-189 | performs the comment submission |
| Social.ToggledPost | src/react-app/pages/Social.tsx:112-116 | `isLiked` flips and `likes` moves one step in that direction; nothing else changes |
| Social.ToggleLike | src/react-app/pages/Social.tsx:108-120 | only matching posts are toggled; the length and order are kept |
| Social.ToggleLikeTwice | src/react-app/pages/Social.tsx:108-120 | liking twice restores the feed |
| Social.InitialPostsConsistent | src/react-app/pages/Social.tsx:52-101 | the seed posts' counts cover their own likes |
| Social.ToggleLikeKeepsCounts | src/react-app/pages/Social.tsx:115 | toggling keeps counts consistent, so an unlike never goes below 0 |
| Social.ViewStory | src/react-app/pages/Social.tsx:122-128 | only matching stories change, and they become viewed |
| Social.ViewStoryIdempotent | src/react-app/pages/Social.tsx:122-128 | viewing twice is viewing once |
| Social.ViewStoryMonotone | src/react-app/pages/Social.tsx:125 | a story is viewed afterwards iff it was viewed or it matches; a story never becomes unviewed |
| Social.SocialPage.constructor | src/react-app/pages/Social.tsx:104-106 | seed feed and stories, tab 'feed' |
| Social.SocialPage.HandleLike | src/react-app/pages/Social.tsx:108-120 | performs the toggle and keeps the tab and counts valid |
| Social.SocialPage.HandleStoryView | src/react-app/pages/Social.tsx:122-128 | performs the view |
| Social.SocialPage.ShowFeed | src/react-app/pages/Social.tsx:142 | tab becomes 'feed' |
| Social.SocialPage.ShowMoods | src/react-app/pages/Social.tsx:152 | tab becomes 'moods', so the tab is only ever one of the two |
| MoodBoard.CreateBoard | src/react-app/components/MoodBoard.tsx:134-150 | an empty title changes nothing; else a board by 'You' with no items, likes or like, in the draft era or 'midnights', goes first, before the old boards in order, and the draft is reset |
| MoodBoard.ToggleLike | src/react-app/components/MoodBoard.tsx:152-162 | matching boards flip `isLiked` and move `likes` one step that way; the others are unchanged |
| MoodBoard.ToggleLikeTwice | src/react-app/components/MoodBoard.tsx:152-162 | liking twice restores the boards |
| MoodBoard.MoodBoardPanel.constructor | src/react-app/components/MoodBoard.tsx:125-131 | sample boards, closed modal, empty draft in midnights |
| MoodBoard.MoodBoardPanel.HandleCreateBoard | src/react-app/components/MoodBoard.tsx:134-150 | performs the creation and closes the modal after a creation |
| MoodBoard.MoodBoardPanel.HandleLike | src/react-app/components/MoodBoard.tsx:152-162 | performs the toggle |
| Lyrics.FilterSongs | src/react-app/pages/Lyrics.tsx:55-59 | a song is kept iff the lower-cased term occurs in its lower-cased title, album or lyrics |
| Lyrics.FilterCounts | src/react-app/pages/Lyrics.tsx:55-58 | each matching song is kept as many times as it occurs, a non-matching one never |
| Lyrics.FilterIsSubsequence | src/react-app/pages/Lyrics.tsx:55 | the result keeps the list's order |
| Lyrics.EmptyTermKeepsAll | src/react-app/pages/Lyrics.tsx:55-59 | the empty term keeps every song |
| Lyrics.MatchesNarrowing | src/react-app/pages/Lyrics.tsx:56-58 | a song matching a term matches every substring of it |
| Lyrics.FilterNarrowing | src/react-app/pages/Lyrics.tsx:55-59 | the songs kept for a longer term are among those kept for any substring of it |
| Lyrics.EraNotSearched | src/react-app/pages/Lyrics.tsx:56-58 | the era field does not affect matching |
| Lyrics.CaseInsensitive | src/react-app/pages/Lyrics.tsx:56-58 | a lower-cased term matches the same songs |
| Lyrics.ShakeFindsShakeItOff | src/react-app/pages/Lyrics.tsx:16-21 | "SHAKE" finds Shake It Off |
| EasterEggHunt.FindEgg | src/react-app/components/EasterEggHunt.tsx:88 | the first egg with the id, or none when no egg has it |
| EasterEggHunt.MarkFound | src/react-app/components/EasterEggHunt.tsx:92-94 | exactly the eggs with the id become found; the others are unchanged |
| EasterEggHunt.FindOnce | src/react-app/components/EasterEggHunt.tsx:88-94 | an unknown or found egg changes nothing and earns nothing; else it is marked and rewarded |
| EasterEggHunt.FindTwiceRewardsOnce | src/react-app/components/EasterEggHunt.tsx:89-94 | a second find of the same egg is a no-op with no reward |
| EasterEggHunt.Unfound | src/react-app/components/EasterEggHunt.tsx:187 | the hint list holds exactly the unfound eggs |
| EasterEggHunt.FoundEggLeavesHunt | src/react-app/components/EasterEggHunt.tsx:115-190 | a found egg is no longer shown or hinted, and every other unfound egg still is |
| EasterEggHunt.PositionIndex | src/react-app/components/EasterEggHunt.tsx:122-129 | the position index is within the four positions, and equals the index for the first four |
| EasterEggHunt.PositionIndexPeriodic | src/react-app/components/EasterEggHunt.tsx:129 | positions repeat every four list indices |
| EasterEggHunt.DrawnFrom | src/react-app/components/EasterEggHunt.tsx:116-130 | only unfound eggs are drawn, each at one of the four positions |
| EasterEggHunt.DrawnIndex | src/react-app/components/EasterEggHunt.tsx:118-129 | the k-th drawn egg is the egg at some list index i, drawn at position PositionIndex(start + i) |
| EasterEggHunt.DrawnAtOwnIndex | src/react-app/components/EasterEggHunt.tsx:118-129 | every drawn egg is at `positions[indexOf(egg) % 4]` for its own list index |
| EasterEggHunt.UnfoundDrawnAtOwnIndex | src/react-app/components/EasterEggHunt.tsx:118-129 | every unfound egg is drawn at the position of its own list index modulo 4 |
| EasterEggHunt.DrawnFromUnfound | src/react-app/components/EasterEggHunt.tsx:118-119 | the drawn eggs are exactly the unfound eggs |
| EasterEggHunt.HiddenEggs | src/react-app/components/EasterEggHunt.tsx:115-130 | nothing is drawn while the hunt is inactive; else exactly the unfound eggs are drawn, each at the position of its list index modulo 4 |
| EasterEggHunt.RewardRequests | src/react-app/components/EasterEggHunt.tsx:100-104 | the coin update goes first; a badge update follows exactly when the coins went through and the egg has a non-empty badge the profile lacks, otherwise nothing follows |
| EasterEggHunt.EggHunt.constructor | src/react-app/components/EasterEggHunt.tsx:70-74 | shipped eggs, none shown, hunt inactive |
| EasterEggHunt.EggHunt.Activate | src/react-app/components/EasterEggHunt.tsx:76-85 | the hunt turns on when the draw is below 0.3 |
| EasterEggHunt.EggHunt.HandleEggFound | src/react-app/components/EasterEggHunt.tsx:87-114 | the guard, then the egg is marked found and shown, then rewarded with the seen profile |
| EraSwitcher.DefaultIsMidnights | src/react-app/components/EraSwitcher.tsx:104-136 | the eighth theme is Midnights in Space Grotesk |
| EraSwitcher.FindById | src/react-app/components/EraSwitcher.tsx:142 | the FIRST theme with the id, or none when no theme has it |
| EraSwitcher.ThemeForSpec | src/react-app/components/EraSwitcher.tsx:142 | the theme with that id, else Midnights |
| EraSwitcher.UnknownEraFallsBack | src/react-app/components/EraSwitcher.tsx:142 | the capitalised era "Reputation" has no theme and falls back to Midnights |
| EraSwitcher.FontFamily | src/react-app/components/EraSwitcher.tsx:149 | only the first space becomes '+' |
| EraSwitcher.FontUrl | src/react-app/components/EraSwitcher.tsx:151 | the fixed prefix, the encoded family, the fixed suffix |
| EraSwitcher.FontUrlIncludesFamily | src/react-app/components/EraSwitcher.tsx:149-151 | a font's link contains the family it is looked up by |
| EraSwitcher.AfterLoadFont | src/react-app/components/EraSwitcher.tsx:148-155 | a link is appended only when no href contains the encoded family |
| EraSwitcher.LoadFontIdempotent | src/react-app/components/EraSwitcher.tsx:148-155 | loading a font twice appends at most one link |
| EraSwitcher.ThemeStyle | src/react-app/components/EraSwitcher.tsx:162-165 | exactly the four era variables are set from the theme; other properties stay |
| EraSwitcher.Document.constructor | src/react-app/components/EraSwitcher.tsx:153 | the document's links and root style |
| EraSwitcher.Document.LoadFont | src/react-app/components/EraSwitcher.tsx:148-155 | performs the link update |
| EraSwitcher.Document.ApplyTheme | src/react-app/components/EraSwitcher.tsx:162-165 | performs the style update |
| EraSwitcher.Switcher.constructor | src/react-app/components/EraSwitcher.tsx:135-137 | picker closed, Midnights, music off |
| EraSwitcher.Switcher.ProfileChanged | src/react-app/components/EraSwitcher.tsx:140-146 | a favourite era selects its theme or Midnights and loads its font |
| EraSwitcher.Switcher.HandleThemeSwitch | src/react-app/components/EraSwitcher.tsx:157-177 | sets the theme, font link and variables and saves the era; whatever the update does, notifies the parent and closes the picker |
| EraSwitcher.Switcher.ToggleMusic | src/react-app/components/EraSwitcher.tsx:179-182 | negates the music flag, so two toggles are the identity |
| EraSwitcher.Switcher.ToggleOpen | src/react-app/components/EraSwitcher.tsx:188 | opens or closes the picker |

Some members have no `ensures` of their own. Their properties are the lemmas listed above:
- `EraTally.Increment`, `EraTally.TallyOf` and `EraTally.Dominant`;
- `Quiz.ResultEra`;
- `EnhancedQuiz.TotalUpTo`, `ScoreUpTo`, `TallyUpTo`, `GrantStep`, `CheckPass` and `SaveAttempt`;
- `EasterEggHunt.RewardEgg`.

## Left out

- Network and authentication. Every `fetch` reply is an input value. The signed-in user is a boolean. Headers and JSON encoding are not modelled. A reply body that fails to parse as JSON is not modelled.
- Concurrency. Each handler runs to completion before the next event. The model ignores async interleavings, the un-awaited `checkAchievements` call (`src/react-app/pages/EnhancedQuiz.tsx:213`) and the duplicate-badge race between concurrent updates.
- Timers. These cover the achievement notifications and their delays, hiding the found-egg notice, and the delayed hint reveal. `EasterEggHunt.EggHunt.showHints` is therefore never set.
- Sources of nondeterminism. `Math.random` is the `roll` parameter. `Date.now` ids and timestamps are parameters, so the model does not claim mood-board ids are distinct.
- Display. The model omits markup, images, colour classes, descriptions, the accuracy percentage and the progress bars (floating point), and the GSAP animations.
- Unicode. `Text.ToLower` lower-cases ASCII letters only, not the full Unicode case mapping of `toLowerCase`.
- CSS selectors. The CSS selector is not escaped for quotes inside a font name. `querySelector` over the whole document is modelled as a search of the stylesheet-link hrefs.
- Prototype keys. A JavaScript object counter with a key such as `__proto__` or `constructor` behaves differently in the source. In the model every key is an own data property.
- Absent badge lists. `profile.achievement_badges || []` falls back to `[]` in the source. The model's profiles always carry a badge list.
- Quiz.QuizPage.HandleAnswer: requires the answer to be one offered by the question on screen, which is all the buttons allow.
- EnhancedQuiz.EnhancedQuizPage.HandleAnswer: requires the chosen button to belong to the question on screen, for the same reason.
- EraSwitcher.Switcher: the modal that lists the themes, and the unused `music` field of a theme, are not modelled. The music toggle plays no audio in the source either.
- `EraSelector.tsx`, `Navbar.tsx`, `CustomCursor.tsx`, `AchievementNotification.tsx`, `Landing.tsx`, `Eras.tsx`, `App.tsx` and `types/barba.d.ts` are not part of this model: they are routing, animation and display code.
