/**
 * The enhanced quiz: five questions mixing era preferences with scored lyrics and
 * trivia questions. Finishing computes the score, the point total, an era counter
 * and its dominant era, records the elapsed time, and, for a signed-in user with a
 * profile, posts the attempt, adds the coins it earned and runs the three
 * achievement rules.
 */
module EnhancedQuiz {
  import opened Wrappers
  import opened Api
  import opened EraTally
  import opened UserProfile

  datatype Kind = EraKind | LyricsKind | TriviaKind

  /** An answer button: its text, the era it votes for (era questions) or whether it is right. */
  datatype Choice = Choice(text: string, era: Option<string>, isCorrect: Option<bool>)

  datatype Question = Question(id: nat, kind: Kind, answers: seq<Choice>, points: nat)

  function EraChoice(text: string, era: string): Choice {
    Choice(text, Some(era), None)
  }

  function ScoredChoice(text: string, isCorrect: bool): Choice {
    Choice(text, None, Some(isCorrect))
  }

  /** The shipped questions (question wording, images and difficulty omitted). */
  const EraQuestion1: Question :=
    Question(1, EraKind, [
        EraChoice("Dancing at a glamorous party", "1989"),
        EraChoice("Plotting revenge in the shadows", "reputation"),
        EraChoice("Writing poetry by a fireplace", "folklore")], 5)
  const LyricsQuestion2: Question :=
    Question(2, LyricsKind, [
        ScoredChoice("That's what people say, mmm-hmm", true),
        ScoredChoice("That's what lovers say, oh-oh", false),
        ScoredChoice("That's what haters say, hey-hey", false),
        ScoredChoice("That's what friends say, yeah-yeah", false)], 10)
  const TriviaQuestion3: Question :=
    Question(3, TriviaKind, [
        ScoredChoice("Red", false),
        ScoredChoice("1989", true),
        ScoredChoice("Speak Now", false),
        ScoredChoice("Fearless", false)], 15)
  const EraQuestion4: Question :=
    Question(4, EraKind, [
        EraChoice("Cozy cabin with fairy lights", "folklore"),
        EraChoice("Neon lights and city nights", "midnights"),
        EraChoice("Pastel rainbow everything", "lover")], 5)
  const TriviaQuestion5: Question :=
    Question(5, TriviaKind, [
        ScoredChoice("The scarf was actually a metaphor", false),
        ScoredChoice("More details about the relationship", true),
        ScoredChoice("It was written in 2021", false),
        ScoredChoice("It features a guest vocalist", false)], 20)

  /** The quiz as shipped: five questions, the first and fourth about eras. */
  const QuizQuestions: seq<Question> :=
    [EraQuestion1, LyricsQuestion2, TriviaQuestion3, EraQuestion4, TriviaQuestion5]

  /** The entry `handleAnswer(text, isCorrect)` appends for a button. */
  function Recorded(c: Choice): string {
    match c.isCorrect
    case Some(true) => "correct"
    case Some(false) => "incorrect"
    case None => c.text
  }

  /** `answer` is what one of the question's buttons records. */
  predicate AnsweredFrom(q: Question, answer: string) {
    exists c :: c in q.answers && Recorded(c) == answer
  }

  // ---- The scoring pass, question by question ----

  /** Sum of `points` over the first `k` questions. */
  function TotalUpTo(qs: seq<Question>, k: nat): int
    requires k <= |qs|
  {
    if k == 0 then 0 else TotalUpTo(qs, k - 1) + qs[k - 1].points
  }

  /** Sum of `points` over the era questions among the first `k`. */
  function EraPointsUpTo(qs: seq<Question>, k: nat): int
    requires k <= |qs|
  {
    if k == 0 then 0
    else EraPointsUpTo(qs, k - 1) + (if qs[k - 1].kind == EraKind then qs[k - 1].points else 0)
  }

  /** Number of era questions among the first `k`. */
  function EraQuestionsUpTo(qs: seq<Question>, k: nat): nat
    requires k <= |qs|
  {
    if k == 0 then 0 else EraQuestionsUpTo(qs, k - 1) + (if qs[k - 1].kind == EraKind then 1 else 0)
  }

  /** What a non-era question contributes: its points when its recorded answer is `'correct'`. */
  function PointsAt(qs: seq<Question>, answers: seq<string>, i: nat): int
    requires i < |qs|
  {
    if qs[i].kind != EraKind && i < |answers| && answers[i] == "correct" then qs[i].points else 0
  }

  function ScoreUpTo(qs: seq<Question>, answers: seq<string>, k: nat): int
    requires k <= |qs|
  {
    if k == 0 then 0 else ScoreUpTo(qs, answers, k - 1) + PointsAt(qs, answers, k - 1)
  }

  /** `answers.find(a => a.text === text)`: the first button with that text. */
  function FindByText(cs: seq<Choice>, text: string): (r: Option<Choice>)
    ensures r.Some? ==> r.value in cs && r.value.text == text
    ensures r.None? ==> forall c :: c in cs ==> c.text != text
    ensures r.Some? ==> exists i :: 0 <= i < |cs| && cs[i] == r.value && forall j :: 0 <= j < i ==> cs[j].text != text
  {
    if cs == [] then None
    else if cs[0].text == text then Some(cs[0])
    else
      var r := FindByText(cs[1..], text);
      assert r.Some? ==> exists i :: 0 <= i < |cs| - 1 && cs[1..][i] == r.value &&
                                     forall j :: 0 <= j < i ==> cs[1..][j].text != text;
      r
  }

  /**
   * The era question `i` votes for: the (non-empty) era of the button whose text
   * is the recorded answer; a missing answer matches no button.
   */
  function EraVoteAt(qs: seq<Question>, answers: seq<string>, i: nat): Option<string>
    requires i < |qs|
  {
    if qs[i].kind != EraKind || i >= |answers| then None
    else match FindByText(qs[i].answers, answers[i])
      case Some(Choice(_, Some(e), _)) => if e != "" then Some(e) else None
      case _ => None
  }

  /** The era counter after the first `k` questions. */
  function TallyUpTo(qs: seq<Question>, answers: seq<string>, k: nat): Tally
    requires k <= |qs|
  {
    if k == 0 then []
    else
      var t := TallyUpTo(qs, answers, k - 1);
      match EraVoteAt(qs, answers, k - 1)
      case None => t
      case Some(e) => Increment(t, e)
  }

  /**
   * The `forEach` pass of `handleAnswer`: accumulates the point total over every
   * question, the score over the non-era questions answered `'correct'`, and one
   * vote per era question into the counter.
   */
  method ScoreAnswers(qs: seq<Question>, answers: seq<string>) returns (score: int, totalPoints: int, eraCount: Tally)
    ensures totalPoints == TotalUpTo(qs, |qs|)
    ensures score == ScoreUpTo(qs, answers, |qs|)
    ensures eraCount == TallyUpTo(qs, answers, |qs|)
  {
    score, totalPoints, eraCount := 0, 0, [];
    for index := 0 to |qs|
      invariant totalPoints == TotalUpTo(qs, index)
      invariant score == ScoreUpTo(qs, answers, index)
      invariant eraCount == TallyUpTo(qs, answers, index)
    {
      var question := qs[index];
      totalPoints := totalPoints + question.points;
      if question.kind == EraKind {
        var selected := if index < |answers| then FindByText(question.answers, answers[index]) else None;
        if selected.Some? && selected.value.era.Some? && selected.value.era.value != "" {
          eraCount := Increment(eraCount, selected.value.era.value);
        }
      } else {
        if index < |answers| && answers[index] == "correct" {
          score := score + question.points;
        }
      }
    }
  }

  /** The score is between 0 and the points of the non-era questions. */
  lemma {:induction false} ScoreBounds(qs: seq<Question>, answers: seq<string>, k: nat)
    requires k <= |qs|
    ensures 0 <= ScoreUpTo(qs, answers, k) <= TotalUpTo(qs, k) - EraPointsUpTo(qs, k)
  {
    if k > 0 {
      ScoreBounds(qs, answers, k - 1);
    }
  }

  /** The counter's keys are distinct and it holds at most one vote per era question. */
  lemma {:induction false} TallyBounds(qs: seq<Question>, answers: seq<string>, k: nat)
    requires k <= |qs|
    ensures DistinctKeys(TallyUpTo(qs, answers, k))
    ensures Sum(TallyUpTo(qs, answers, k)) <= EraQuestionsUpTo(qs, k)
  {
    if k > 0 {
      TallyBounds(qs, answers, k - 1);
      var t := TallyUpTo(qs, answers, k - 1);
      match EraVoteAt(qs, answers, k - 1)
      case None =>
      case Some(e) =>
        IncrementCounts(t, e);
        IncrementDistinct(t, e);
    }
  }

  /** With the shipped questions the total is 55, of which the two era questions carry 10. */
  lemma ShippedTotals()
    ensures TotalUpTo(QuizQuestions, |QuizQuestions|) == 55
    ensures EraPointsUpTo(QuizQuestions, |QuizQuestions|) == 10
    ensures EraQuestionsUpTo(QuizQuestions, |QuizQuestions|) == 2
  {
    var qs := QuizQuestions;
    assert qs[0].kind == EraKind && qs[0].points == 5;
    assert qs[1].kind == LyricsKind && qs[1].points == 10;
    assert qs[2].kind == TriviaKind && qs[2].points == 15;
    assert qs[3].kind == EraKind && qs[3].points == 5;
    assert qs[4].kind == TriviaKind && qs[4].points == 20;
    assert TotalUpTo(qs, 1) == 5 && EraPointsUpTo(qs, 1) == 5 && EraQuestionsUpTo(qs, 1) == 1;
    assert TotalUpTo(qs, 2) == 15 && EraPointsUpTo(qs, 2) == 5 && EraQuestionsUpTo(qs, 2) == 1;
    assert TotalUpTo(qs, 3) == 30 && EraPointsUpTo(qs, 3) == 5 && EraQuestionsUpTo(qs, 3) == 1;
    assert TotalUpTo(qs, 4) == 35 && EraPointsUpTo(qs, 4) == 10 && EraQuestionsUpTo(qs, 4) == 2;
  }

  /**
   * The point total counts the era questions, which never score, so with the
   * shipped questions no answer sequence reaches `score == totalPoints`.
   */
  lemma PerfectScoreUnreachable(answers: seq<string>)
    ensures ScoreUpTo(QuizQuestions, answers, |QuizQuestions|) <= 45
    ensures ScoreUpTo(QuizQuestions, answers, |QuizQuestions|) < TotalUpTo(QuizQuestions, |QuizQuestions|)
  {
    ShippedTotals();
    ScoreBounds(QuizQuestions, answers, |QuizQuestions|);
  }

  /** An era question whose every button names a non-empty era. */
  predicate EraButtonsOnly(q: Question) {
    forall c :: c in q.answers ==> c.isCorrect.None? && c.era.Some? && c.era.value != ""
  }

  /** Answers recorded from the buttons give every era question its vote. */
  lemma {:induction false} ButtonAnswersVote(qs: seq<Question>, answers: seq<string>, k: nat)
    requires k <= |qs| && k <= |answers|
    requires forall i :: 0 <= i < k ==> AnsweredFrom(qs[i], answers[i])
    requires forall i :: 0 <= i < k && qs[i].kind == EraKind ==> EraButtonsOnly(qs[i])
    ensures Sum(TallyUpTo(qs, answers, k)) == EraQuestionsUpTo(qs, k)
  {
    if k > 0 {
      ButtonAnswersVote(qs, answers, k - 1);
      var t := TallyUpTo(qs, answers, k - 1);
      if qs[k - 1].kind == EraKind {
        var c :| c in qs[k - 1].answers && Recorded(c) == answers[k - 1];
        assert answers[k - 1] == c.text;
        var found := FindByText(qs[k - 1].answers, answers[k - 1]);
        assert found.Some?;
        assert EraVoteAt(qs, answers, k - 1) == found.value.era;
        IncrementCounts(t, found.value.era.value);
      }
    }
  }

  /** Every button of a shipped era question names a non-empty era. */
  lemma ShippedEraButtonsOnly()
    ensures forall i :: 0 <= i < |QuizQuestions| && QuizQuestions[i].kind == EraKind ==> EraButtonsOnly(QuizQuestions[i])
  {
    assert EraButtonsOnly(QuizQuestions[0]);
    assert EraButtonsOnly(QuizQuestions[3]);
  }

  /**
   * Through the buttons, the shipped quiz always counts two era votes, so the
   * counter is never empty and the dominant-era `reduce` never throws.
   */
  lemma ButtonAnswersNeverEmptyTally(answers: seq<string>)
    requires |answers| == |QuizQuestions|
    requires forall i :: 0 <= i < |answers| ==> AnsweredFrom(QuizQuestions[i], answers[i])
    ensures Sum(TallyUpTo(QuizQuestions, answers, |QuizQuestions|)) == 2
    ensures |TallyUpTo(QuizQuestions, answers, |QuizQuestions|)| > 0
  {
    ShippedEraButtonsOnly();
    ButtonAnswersVote(QuizQuestions, answers, |QuizQuestions|);
    ShippedTotals();
  }

  /** The result screen's title per era key (descriptions and colours omitted). */
  const EraTitles: map<string, string> := map[
    "1989" := "You're 1989!",
    "reputation" := "You're Reputation!",
    "folklore" := "You're Folklore!",
    "midnights" := "You're Midnights!",
    "lover" := "You're Lover!"
  ]

  /** Every era a button of `qs` can vote for is in `eras`. */
  predicate ErasWithin(qs: seq<Question>, eras: set<string>) {
    forall i, c :: 0 <= i < |qs| && c in qs[i].answers && c.era.Some? ==> c.era.value in eras
  }

  /** The counter only ever holds eras that some button votes for. */
  lemma {:induction false} TallyKeysWithin(qs: seq<Question>, answers: seq<string>, k: nat, eras: set<string>)
    requires k <= |qs| && ErasWithin(qs, eras)
    ensures KeySet(TallyUpTo(qs, answers, k)) <= eras
  {
    if k > 0 {
      TallyKeysWithin(qs, answers, k - 1, eras);
      var t := TallyUpTo(qs, answers, k - 1);
      match EraVoteAt(qs, answers, k - 1)
      case None =>
      case Some(e) =>
        var found := FindByText(qs[k - 1].answers, answers[k - 1]);
        assert found.value in qs[k - 1].answers;
        IncrementKeySet(t, e);
    }
  }

  /** Every era a shipped button votes for has a description. */
  lemma ShippedErasDescribed()
    ensures ErasWithin(QuizQuestions, EraTitles.Keys)
  {
    forall i, c | 0 <= i < |QuizQuestions| && c in QuizQuestions[i].answers && c.era.Some?
      ensures c.era.value in EraTitles.Keys
    {
      assert i in {0, 1, 2, 3, 4};
    }
  }

  /**
   * Answering through the buttons, the result era is a key of the result
   * screen's descriptions and no era received more votes than it.
   */
  lemma ResultEraIsDescribed(answers: seq<string>)
    requires |answers| == |QuizQuestions|
    requires forall i :: 0 <= i < |answers| ==> AnsweredFrom(QuizQuestions[i], answers[i])
    ensures var tally := TallyUpTo(QuizQuestions, answers, |QuizQuestions|);
            |tally| > 0 && Dominant(tally) in EraTitles &&
            forall k :: Get(tally, k) <= Get(tally, Dominant(tally))
  {
    var tally := TallyUpTo(QuizQuestions, answers, |QuizQuestions|);
    ButtonAnswersNeverEmptyTally(answers);
    TallyBounds(QuizQuestions, answers, |QuizQuestions|);
    ShippedErasDescribed();
    TallyKeysWithin(QuizQuestions, answers, |QuizQuestions|, EraTitles.Keys);
    DominantIsLastMaximal(tally);
  }

  // ---- Elapsed time and the achievement rules ----

  /**
   * `timeStarted ? Math.floor((end - timeStarted) / 1000) : 0`: whole seconds since
   * the start; 0 when no start was recorded (or it is the falsy 0).
   */
  function ElapsedSeconds(timeStarted: Option<int>, end: int): (r: int)
    ensures timeStarted.None? || timeStarted.value == 0 ==> r == 0
    ensures timeStarted.Some? && timeStarted.value != 0 ==>
              r * 1000 <= end - timeStarted.value < r * 1000 + 1000
  {
    if timeStarted.Some? && timeStarted.value != 0 then (end - timeStarted.value) / 1000 else 0
  }

  const FirstQuiz: string := "first_quiz"
  const PerfectScore: string := "perfect_score"
  const SpeedDemon: string := "speed_demon"

  /** The catalogue name posted to `/api/achievements` with each badge. */
  function AchievementName(badge: string): string {
    if badge == FirstQuiz then "Quiz Rookie"
    else if badge == PerfectScore then "Swiftie Scholar"
    else if badge == SpeedDemon then "Lightning Fast"
    else ""
  }

  /** `profile?.achievement_badges?.includes(badge)` on the profile the handler saw. */
  predicate Holds(seen: Option<Profile>, badge: string) {
    seen.Some? && badge in seen.value.achievementBadges
  }

  /**
   * The badges one pass of `checkAchievements` grants, in the order it grants them.
   * The rules are independent: first quiz unconditionally, perfect score when
   * `score == totalPoints`, speed when under 30 seconds; each only if not held.
   */
  function EarnedBadges(seen: Option<Profile>, score: int, totalPoints: int, timeTaken: int): seq<string> {
    (if !Holds(seen, FirstQuiz) then [FirstQuiz] else [])
    + (if score == totalPoints && !Holds(seen, PerfectScore) then [PerfectScore] else [])
    + (if timeTaken < 30 && !Holds(seen, SpeedDemon) then [SpeedDemon] else [])
  }

  /** Which badges a pass grants: each rule on its own, only unheld badges, none twice. */
  lemma EarnedBadgesSpec(seen: Option<Profile>, score: int, totalPoints: int, timeTaken: int)
    ensures var r := EarnedBadges(seen, score, totalPoints, timeTaken);
            && (FirstQuiz in r <==> !Holds(seen, FirstQuiz))
            && (PerfectScore in r <==> score == totalPoints && !Holds(seen, PerfectScore))
            && (SpeedDemon in r <==> timeTaken < 30 && !Holds(seen, SpeedDemon))
            && (forall b :: b in r ==> b == FirstQuiz || b == PerfectScore || b == SpeedDemon)
            && (forall i, j :: 0 <= i < j < |r| ==> r[i] != r[j])
            && (forall b :: b in r ==> !Holds(seen, b))
  {
  }

  /**
   * Two scored questions worth 10 and 15, both answered correctly within 25
   * seconds by a player with no badges: 25 of 25 points and all three badges.
   */
  lemma PerfectFastFirstAttempt(p: Profile)
    requires p.achievementBadges == []
    ensures var qs := [Question(1, LyricsKind, [ScoredChoice("a", true)], 10),
                       Question(2, TriviaKind, [ScoredChoice("b", true)], 15)];
            var answers := ["correct", "correct"];
            ScoreUpTo(qs, answers, 2) == 25 && TotalUpTo(qs, 2) == 25 &&
            EarnedBadges(Some(p), 25, 25, 25) == [FirstQuiz, PerfectScore, SpeedDemon]
  {
  }

  // ---- Saving the attempt: the profile-store transitions it causes ----

  /**
   * One rule's grant: `addAchievement(badge)` and, unless it threw, the
   * fire-and-forget post to `/api/achievements`. Returns whether the pass goes on.
   */
  function GrantStep(st: State, signedIn: bool, seen: Option<Profile>, badge: string, reply: Response<Profile>)
    : (r: (State, bool))
  {
    var (st1, outcome) := AddBadge(st, signedIn, seen, badge, reply);
    if outcome.Threw? then (st1, false)
    else (st1.(sent := st1.sent + [PostAchievement(badge, AchievementName(badge))]), true)
  }

  /** `checkAchievements`: the grants in order; a rejected update ends the pass. */
  function CheckPass(st: State, signedIn: bool, seen: Option<Profile>, earned: seq<string>,
                     reply: string -> Response<Profile>): State
    decreases |earned|
  {
    if earned == [] then st
    else
      var (st1, goOn) := GrantStep(st, signedIn, seen, earned[0], reply(earned[0]));
      if !goOn then st1 else CheckPass(st1, signedIn, seen, earned[1..], reply)
  }

  /**
   * The save step of `handleAnswer`: nothing without a profile; otherwise the
   * attempt is posted, and only an ok reply leads to adding the earned coins,
   * and only a coin update that did not throw leads to the achievement pass.
   */
  function SaveAttempt(st: State, signedIn: bool, seen: Option<Profile>, score: int, totalPoints: int,
                       timeTaken: int, attempt: Response<int>, coins: Response<Profile>,
                       reply: string -> Response<Profile>): State
  {
    if seen.None? then st
    else
      var st1 := st.(sent := st.sent + [PostQuizAttempt("mixed", score, |QuizQuestions|, timeTaken)]);
      if !attempt.Ok() then st1
      else
        var (st2, outcome) := AddCoins(st1, signedIn, seen, attempt.body, coins);
        if outcome.Threw? then st2
        else CheckPass(st2, signedIn, seen, EarnedBadges(seen, score, totalPoints, timeTaken), reply)
  }

  /** Without a profile the save step sends nothing and changes nothing. */
  lemma NoProfileNoSave(st: State, signedIn: bool, score: int, totalPoints: int, timeTaken: int,
                        attempt: Response<int>, coins: Response<Profile>, reply: string -> Response<Profile>)
    ensures SaveAttempt(st, signedIn, None, score, totalPoints, timeTaken, attempt, coins, reply) == st
  {
  }

  /** A failed attempt post sends only the attempt: no coins, no achievements. */
  lemma FailedAttemptAwardsNothing(st: State, signedIn: bool, p: Profile, score: int, totalPoints: int,
                                   timeTaken: int, attempt: Response<int>, coins: Response<Profile>,
                                   reply: string -> Response<Profile>)
    requires !attempt.Ok()
    ensures SaveAttempt(st, signedIn, Some(p), score, totalPoints, timeTaken, attempt, coins, reply)
            == st.(sent := st.sent + [PostQuizAttempt("mixed", score, 5, timeTaken)])
  {
  }

  /** The requests of an achievement pass only ever extend the log. */
  lemma {:induction false} CheckPassExtendsLog(st: State, signedIn: bool, seen: Option<Profile>,
                                               earned: seq<string>, reply: string -> Response<Profile>)
    ensures var r := CheckPass(st, signedIn, seen, earned, reply);
            |r.sent| >= |st.sent| && r.sent[..|st.sent|] == st.sent
    decreases |earned|
  {
    if earned != [] {
      var (st1, goOn) := GrantStep(st, signedIn, seen, earned[0], reply(earned[0]));
      if goOn {
        CheckPassExtendsLog(st1, signedIn, seen, earned[1..], reply);
        var r := CheckPass(st1, signedIn, seen, earned[1..], reply);
        assert r.sent[..|st.sent|] == r.sent[..|st1.sent|][..|st.sent|];
      }
    }
  }

  /**
   * With an ok attempt reply, a signed-in user and a profile, the log starts with
   * the attempt and then the coin update for the coins earned, before anything of
   * the achievement pass: achievements are checked only after the coins.
   */
  lemma CoinsBeforeAchievements(st: State, p: Profile, score: int, totalPoints: int, timeTaken: int,
                                attempt: Response<int>, coins: Response<Profile>,
                                reply: string -> Response<Profile>)
    requires attempt.Ok()
    ensures var r := SaveAttempt(st, true, Some(p), score, totalPoints, timeTaken, attempt, coins, reply);
            |r.sent| >= |st.sent| + 2 &&
            r.sent[..|st.sent| + 2] == st.sent + [PostQuizAttempt("mixed", score, 5, timeTaken),
                                                  PutProfile(CoinsUpdate(p, attempt.body))]
  {
    var st1 := st.(sent := st.sent + [PostQuizAttempt("mixed", score, |QuizQuestions|, timeTaken)]);
    var (st2, outcome) := AddCoins(st1, true, Some(p), attempt.body, coins);
    if !outcome.Threw? {
      CheckPassExtendsLog(st2, true, Some(p), EarnedBadges(Some(p), score, totalPoints, timeTaken), reply);
      var r := CheckPass(st2, true, Some(p), EarnedBadges(Some(p), score, totalPoints, timeTaken), reply);
      assert r.sent[..|st.sent| + 2] == r.sent[..|st2.sent|];
    }
  }

  /**
   * Every badge update of a pass is built from the same profile the handler saw:
   * its badges followed by the one badge being granted.
   */
  lemma {:induction false} PassUpdatesExtendSeenBadges(st: State, signedIn: bool, p: Profile, earned: seq<string>,
                                                       reply: string -> Response<Profile>, i: nat)
    requires |st.sent| <= i < |CheckPass(st, signedIn, Some(p), earned, reply).sent|
    requires CheckPass(st, signedIn, Some(p), earned, reply).sent[i].PutProfile?
    ensures exists b :: b in earned &&
              CheckPass(st, signedIn, Some(p), earned, reply).sent[i].updates
              == Updates(None, None, Some(p.achievementBadges + [b]))
    decreases |earned|
  {
    var b := earned[0];
    var (st1, goOn) := GrantStep(st, signedIn, Some(p), b, reply(b));
    var r := CheckPass(st, signedIn, Some(p), earned, reply);
    if goOn {
      CheckPassExtendsLog(st1, signedIn, Some(p), earned[1..], reply);
      assert r == CheckPass(st1, signedIn, Some(p), earned[1..], reply);
    }
    if i < |st1.sent| {
      assert r.sent[i] == st1.sent[i] by {
        if goOn {
          assert r.sent[..|st1.sent|] == st1.sent;
        }
      }
      var u := Updates(None, None, Some(p.achievementBadges + [b]));
      var (stA, outcome) := AddBadge(st, signedIn, Some(p), b, reply(b));
      assert stA.sent == st.sent || stA.sent == st.sent + [PutProfile(u)];
      assert st1.sent == stA.sent || st1.sent == stA.sent + [PostAchievement(b, AchievementName(b))];
      assert r.sent[i].updates == u;
    } else {
      PassUpdatesExtendSeenBadges(st1, signedIn, p, earned[1..], reply, i);
    }
  }

  // ---- The page ----

  /** The result screen's figures. */
  datatype QuizResult = QuizResult(era: string, score: int, totalPoints: int)

  class EnhancedQuizPage {
    var currentQuestion: nat
    var answers: seq<string>
    var result: Option<QuizResult>
    var timeStarted: Option<int>
    var timeTaken: Option<int>
    /** This page's instance of the profile hook. */
    const store: ProfileStore

    /**
     * The answers are what the buttons of their questions record; while in
     * progress there is one per question passed, and once finished one per question.
     */
    ghost predicate Valid()
      reads this
    {
      && currentQuestion < |QuizQuestions|
      && |answers| <= |QuizQuestions|
      && (forall i :: 0 <= i < |answers| ==> AnsweredFrom(QuizQuestions[i], answers[i]))
      && (result.None? ==> |answers| == currentQuestion)
      && (result.Some? ==> |answers| == |QuizQuestions| && currentQuestion == |QuizQuestions| - 1)
    }

    constructor (store: ProfileStore)
      ensures Valid() && this.store == store
      ensures currentQuestion == 0 && answers == [] && result == None
      ensures timeStarted == None && timeTaken == None
    {
      this.store := store;
      currentQuestion := 0;
      answers := [];
      result := None;
      timeStarted := None;
      timeTaken := None;
    }

    /** The effect that starts the clock on the first question when no start is recorded. */
    method StartClock(now: int)
      modifies this
      ensures currentQuestion == old(currentQuestion) && answers == old(answers) && result == old(result)
      ensures timeTaken == old(timeTaken)
      ensures timeStarted == if currentQuestion == 0 && (old(timeStarted).None? || old(timeStarted).value == 0)
                             then Some(now) else old(timeStarted)
    {
      if currentQuestion == 0 && (timeStarted.None? || timeStarted.value == 0) {
        timeStarted := Some(now);
      }
    }

    /**
     * `handleAnswer` for the button `choice` of the question on screen, at time
     * `now`. The replies of the attempt post, the coin update and each badge
     * update are inputs.
     */
    method HandleAnswer(choice: Choice, now: int, attempt: Response<int>, coins: Response<Profile>,
                        reply: string -> Response<Profile>)
      requires Valid() && result.None?
      requires choice in QuizQuestions[currentQuestion].answers
      modifies this, store, store.net
      ensures Valid()
      ensures answers == old(answers) + [Recorded(choice)]
      ensures timeStarted == old(timeStarted) && store.signedIn == old(store.signedIn)
      ensures old(currentQuestion) < |QuizQuestions| - 1 ==>
                currentQuestion == old(currentQuestion) + 1 && result == None &&
                timeTaken == old(timeTaken) && store.Current() == old(store.Current())
      ensures old(currentQuestion) == |QuizQuestions| - 1 ==>
                var elapsed := ElapsedSeconds(timeStarted, now);
                var score := ScoreUpTo(QuizQuestions, answers, |QuizQuestions|);
                var total := TotalUpTo(QuizQuestions, |QuizQuestions|);
                var tally := TallyUpTo(QuizQuestions, answers, |QuizQuestions|);
                && currentQuestion == old(currentQuestion)
                && timeTaken == Some(elapsed)
                && |tally| > 0
                && result == Some(QuizResult(Dominant(tally), score, total))
                && store.Current() == SaveAttempt(old(store.Current()), store.signedIn, old(store.profile),
                                                  score, total, elapsed, attempt, coins, reply)
    {
      var seen := store.profile;
      var newAnswers := answers + [Recorded(choice)];
      answers := newAnswers;
      if currentQuestion < |QuizQuestions| - 1 {
        currentQuestion := currentQuestion + 1;
      } else {
        Finish(seen, now, attempt, coins, reply);
      }
    }

    /** The last answer's branch: time, score, result, then the save step with the profile `seen`. */
    method Finish(seen: Option<Profile>, now: int, attempt: Response<int>, coins: Response<Profile>,
                  reply: string -> Response<Profile>)
      requires |answers| == |QuizQuestions| && currentQuestion == |QuizQuestions| - 1
      requires forall i :: 0 <= i < |answers| ==> AnsweredFrom(QuizQuestions[i], answers[i])
      modifies this, store, store.net
      ensures Valid()
      ensures answers == old(answers) && currentQuestion == old(currentQuestion)
      ensures timeStarted == old(timeStarted) && store.signedIn == old(store.signedIn)
      ensures var elapsed := ElapsedSeconds(timeStarted, now);
              var score := ScoreUpTo(QuizQuestions, answers, |QuizQuestions|);
              var total := TotalUpTo(QuizQuestions, |QuizQuestions|);
              var tally := TallyUpTo(QuizQuestions, answers, |QuizQuestions|);
              && timeTaken == Some(elapsed)
              && |tally| > 0
              && result == Some(QuizResult(Dominant(tally), score, total))
              && store.Current() == SaveAttempt(old(store.Current()), store.signedIn, seen,
                                                score, total, elapsed, attempt, coins, reply)
    {
      var score, totalPoints, totalTime := Conclude(now);
      SaveAttemptOf(seen, score, totalPoints, totalTime, attempt, coins, reply);
    }

    /** Time, score and result of a finished quiz; the store is left alone. */
    method Conclude(now: int) returns (score: int, totalPoints: int, totalTime: int)
      requires |answers| == |QuizQuestions| && currentQuestion == |QuizQuestions| - 1
      requires forall i :: 0 <= i < |answers| ==> AnsweredFrom(QuizQuestions[i], answers[i])
      modifies this
      ensures Valid()
      ensures answers == old(answers) && currentQuestion == old(currentQuestion)
      ensures timeStarted == old(timeStarted)
      ensures totalTime == ElapsedSeconds(timeStarted, now) && timeTaken == Some(totalTime)
      ensures score == ScoreUpTo(QuizQuestions, answers, |QuizQuestions|)
      ensures totalPoints == TotalUpTo(QuizQuestions, |QuizQuestions|)
      ensures var tally := TallyUpTo(QuizQuestions, answers, |QuizQuestions|);
              |tally| > 0 && result == Some(QuizResult(Dominant(tally), score, totalPoints))
    {
      totalTime := ElapsedSeconds(timeStarted, now);
      timeTaken := Some(totalTime);
      var eraCount;
      score, totalPoints, eraCount := ScoreAnswers(QuizQuestions, answers);
      ButtonAnswersNeverEmptyTally(answers);
      result := Some(QuizResult(Dominant(eraCount), score, totalPoints));
    }

    /** The save step of `handleAnswer`, as `SaveAttempt` describes it. */
    method SaveAttemptOf(seen: Option<Profile>, score: int, totalPoints: int, timeTaken: int,
                         attempt: Response<int>, coins: Response<Profile>, reply: string -> Response<Profile>)
      modifies store, store.net
      ensures store.signedIn == old(store.signedIn)
      ensures store.Current() == SaveAttempt(old(store.Current()), store.signedIn, seen, score, totalPoints,
                                             timeTaken, attempt, coins, reply)
    {
      if seen.Some? {
        store.net.Send(PostQuizAttempt("mixed", score, |QuizQuestions|, timeTaken));
        if attempt.Ok() {
          var outcome := store.AddSwiftCoins(seen, attempt.body, coins);
          if !outcome.Threw? {
            CheckAchievements(seen, score, totalPoints, timeTaken, reply);
          }
        }
      }
    }

    /** One rule's grant, as `GrantStep` describes it. */
    method Grant(seen: Option<Profile>, badge: string, reply: Response<Profile>) returns (goOn: bool)
      modifies store, store.net
      ensures store.signedIn == old(store.signedIn)
      ensures (store.Current(), goOn) == GrantStep(old(store.Current()), store.signedIn, seen, badge, reply)
    {
      var outcome := store.AddAchievement(seen, badge, reply);
      if outcome.Threw? {
        return false;
      }
      store.net.Send(PostAchievement(badge, AchievementName(badge)));
      goOn := true;
    }

    /** `checkAchievements(score, totalPoints, timeTaken)` with the profile the handler saw. */
    method CheckAchievements(seen: Option<Profile>, score: int, totalPoints: int, timeTaken: int,
                             reply: string -> Response<Profile>)
      modifies store, store.net
      ensures store.signedIn == old(store.signedIn)
      ensures store.Current() == CheckPass(old(store.Current()), store.signedIn, seen,
                                           EarnedBadges(seen, score, totalPoints, timeTaken), reply)
    {
      ghost var earned := EarnedBadges(seen, score, totalPoints, timeTaken);
      ghost var signedIn := store.signedIn;
      ghost var todo := earned;
      ghost var before := store.Current();
      // Each grant leaves `CheckPass(before, todo)` equal to what is still to come.
      if !Holds(seen, FirstQuiz) {
        var goOn := Grant(seen, FirstQuiz, reply(FirstQuiz));
        assert todo[0] == FirstQuiz;
        if !goOn {
          return;
        }
        todo := todo[1..];
      }
      assert CheckPass(before, signedIn, seen, earned, reply) == CheckPass(store.Current(), signedIn, seen, todo, reply);
      before := store.Current();
      ghost var rest := todo;
      if score == totalPoints && !Holds(seen, PerfectScore) {
        var goOn := Grant(seen, PerfectScore, reply(PerfectScore));
        assert rest[0] == PerfectScore;
        if !goOn {
          assert CheckPass(before, signedIn, seen, rest, reply) == store.Current();
          return;
        }
        todo := todo[1..];
      }
      assert CheckPass(before, signedIn, seen, rest, reply) == CheckPass(store.Current(), signedIn, seen, todo, reply);
      before := store.Current();
      rest := todo;
      if timeTaken < 30 && !Holds(seen, SpeedDemon) {
        var goOn := Grant(seen, SpeedDemon, reply(SpeedDemon));
        assert rest == [SpeedDemon];
        if !goOn {
          assert CheckPass(before, signedIn, seen, rest, reply) == store.Current();
          return;
        }
        todo := todo[1..];
      }
      assert todo == [];
      assert CheckPass(before, signedIn, seen, rest, reply) == store.Current();
    }

    /** `resetQuiz`: back to the first question, with no answers, result, start or time. */
    method ResetQuiz()
      modifies this
      ensures Valid()
      ensures currentQuestion == 0 && answers == [] && result == None
      ensures timeStarted == None && timeTaken == None
    {
      currentQuestion := 0;
      answers := [];
      result := None;
      timeStarted := None;
      timeTaken := None;
    }
  }
}
