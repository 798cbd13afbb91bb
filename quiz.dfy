/**
 * The two-question era quiz: each answer appends the chosen era; after the last
 * question the most frequent era becomes the result, which is then looked up in
 * the table of era descriptions.
 */
module Quiz {
  import opened Wrappers
  import opened EraTally

  /** An answer button: its label and the era it votes for. */
  datatype Choice = Choice(text: string, era: string)

  datatype Question = Question(id: nat, question: string, answers: seq<Choice>)

  /** The shipped questions (answer images omitted). */
  const Questions: seq<Question> := [
    Question(1, "What's your ideal Friday night?", [
      Choice("Dancing at a glamorous party", "1989"),
      Choice("Plotting revenge in the shadows", "Reputation"),
      Choice("Writing poetry by a fireplace", "Folklore")]),
    Question(2, "Pick a color palette:", [
      Choice("Bright blues and pastels", "1989"),
      Choice("Dark blacks and metallics", "Reputation"),
      Choice("Earthy grays and browns", "Folklore")])
  ]

  /** The result page's table, keyed by era (each entry's title; description and colour omitted). */
  const EraDescriptions: map<string, string> := map[
    "1989" := "You're 1989!",
    "Reputation" := "You're Reputation!",
    "Folklore" := "You're Folklore!"
  ]

  /** `era` is offered by one of the question's buttons. */
  predicate Offers(q: Question, era: string) {
    exists c :: c in q.answers && c.era == era
  }

  /** The era the quiz settles on: the dominant key of the answers' counter. */
  function ResultEra(answers: seq<string>): string
    requires |answers| > 0
  {
    Dominant(TallyOf(answers))
  }

  /** The result is one of the answers and no era was chosen more often. */
  lemma ResultEraIsMostFrequent(answers: seq<string>)
    requires |answers| > 0
    ensures ResultEra(answers) in answers
    ensures forall e :: multiset(answers)[e] <= multiset(answers)[ResultEra(answers)]
  {
    TallyOfCounts(answers);
    DominantIsLastMaximal(TallyOf(answers));
  }

  /** Every answer comes from the question data, so the result always has a description. */
  lemma ResultIsDescribed(answers: seq<string>)
    requires |answers| == |Questions|
    requires forall i :: 0 <= i < |answers| ==> Offers(Questions[i], answers[i])
    ensures ResultEra(answers) in EraDescriptions
  {
    ResultEraIsMostFrequent(answers);
    var k :| 0 <= k < |answers| && answers[k] == ResultEra(answers);
    var c :| c in Questions[k].answers && c.era == answers[k];
  }

  lemma NineteenEightyNineIsAnIndex()
    ensures IsArrayIndex("1989") && Rank("1989") == 1989
  {
    assert "1989"[..3] == "198" && "198"[..2] == "19" && "19"[..1] == "1" && "1"[..0] == "";
    assert DecimalValue("1") == 1;
    assert DecimalValue("19") == 19;
    assert DecimalValue("198") == 198;
  }

  /** With one vote each, the counter enumerates "1989" before "Folklore". */
  lemma TieEnumeration()
    ensures !IsArrayIndex("Folklore")
    ensures Entries([Entry("1989", 1), Entry("Folklore", 1)]) == [Entry("1989", 1), Entry("Folklore", 1)]
    ensures Entries([Entry("Folklore", 1), Entry("1989", 1)]) == [Entry("1989", 1), Entry("Folklore", 1)]
  {
    NineteenEightyNineIsAnIndex();
    assert !IsArrayIndex("Folklore") by { assert !IsDigit("Folklore"[0]); }
    var one := [Entry("1989", 1), Entry("Folklore", 1)];
    var two := [Entry("Folklore", 1), Entry("1989", 1)];
    assert two[1..][1..] == [];
    assert IndexEntries(two) == [Entry("1989", 1)];
    assert StringEntries(two) == [Entry("Folklore", 1)];
    assert one[1..][1..] == [];
    assert IndexEntries(one) == [Entry("1989", 1)];
    assert StringEntries(one) == [Entry("Folklore", 1)];
  }

  /** The reduce over a one-one tie in enumeration order keeps the later entry, "Folklore". */
  lemma TieReducesToFolklore()
    ensures ReduceMax([Entry("1989", 1), Entry("Folklore", 1)]).key == "Folklore"
  {
    var one := [Entry("1989", 1), Entry("Folklore", 1)];
    assert one[..1] == [Entry("1989", 1)];
  }

  /** Counting "1989" then "Folklore" gives one entry each, in that order. */
  lemma TallyNineteenEightyNineFirst()
    ensures TallyOf(["1989", "Folklore"]) == [Entry("1989", 1), Entry("Folklore", 1)]
  {
    var a: seq<string> := ["1989", "Folklore"];
    assert a[..1] == ["1989"] && ["1989"][..0] == [];
    assert TallyOf(["1989"]) == [Entry("1989", 1)];
    assert KeySet([Entry("1989", 1)]) == {"1989"};
    IncrementNewKey([Entry("1989", 1)], "Folklore");
  }

  /** Counting "Folklore" then "1989" gives one entry each, in that order. */
  lemma TallyFolkloreFirst()
    ensures TallyOf(["Folklore", "1989"]) == [Entry("Folklore", 1), Entry("1989", 1)]
  {
    var b: seq<string> := ["Folklore", "1989"];
    assert b[..1] == ["Folklore"] && ["Folklore"][..0] == [];
    assert TallyOf(["Folklore"]) == [Entry("Folklore", 1)];
    assert KeySet([Entry("Folklore", 1)]) == {"Folklore"};
    IncrementNewKey([Entry("Folklore", 1)], "1989");
  }

  /**
   * A one-one tie goes to "Folklore" whichever order the answers came in, because
   * the array-index key "1989" is always enumerated first and the later entry wins.
   */
  lemma TieGoesToFolklore()
    ensures ResultEra(["1989", "Folklore"]) == "Folklore"
    ensures ResultEra(["Folklore", "1989"]) == "Folklore"
  {
    TieEnumeration();
    TieReducesToFolklore();
    TallyNineteenEightyNineFirst();
    TallyFolkloreFirst();
  }

  /** The quiz page's state. */
  class QuizPage {
    var currentQuestion: nat
    var answers: seq<string>
    var result: Option<string>

    /**
     * Answers so far are eras offered by their questions; while in progress there is
     * one per question passed; once finished there is one per question and the
     * result is the dominant era, which has a description.
     */
    ghost predicate Valid()
      reads this
    {
      && currentQuestion < |Questions|
      && |answers| <= |Questions|
      && (forall i :: 0 <= i < |answers| ==> Offers(Questions[i], answers[i]))
      && (result.None? ==> |answers| == currentQuestion)
      && (result.Some? ==> |answers| == |Questions| && currentQuestion == |Questions| - 1
                           && result.value == ResultEra(answers) && result.value in EraDescriptions)
    }

    constructor ()
      ensures Valid() && currentQuestion == 0 && answers == [] && result == None
    {
      currentQuestion := 0;
      answers := [];
      result := None;
    }

    /** `handleAnswer(era)`, reachable only from the buttons of the question on screen. */
    method HandleAnswer(era: string)
      requires Valid() && result.None?
      requires Offers(Questions[currentQuestion], era)
      modifies this
      ensures Valid()
      ensures answers == old(answers) + [era]
      ensures old(currentQuestion) < |Questions| - 1 ==>
                currentQuestion == old(currentQuestion) + 1 && result == None
      ensures old(currentQuestion) == |Questions| - 1 ==>
                currentQuestion == old(currentQuestion) && |answers| == |Questions| &&
                result == Some(ResultEra(answers))
    {
      answers := answers + [era];
      if currentQuestion < |Questions| - 1 {
        currentQuestion := currentQuestion + 1;
      } else {
        var counts := TallyOf(answers);
        ResultIsDescribed(answers);
        result := Some(Dominant(counts));
      }
    }

    /** `resetQuiz`: back to the first question with no answers and no result. */
    method ResetQuiz()
      modifies this
      ensures Valid() && currentQuestion == 0 && answers == [] && result == None
    {
      currentQuestion := 0;
      answers := [];
      result := None;
    }

    /** The description shown for a finished quiz. */
    method Description() returns (title: string)
      requires Valid() && result.Some?
      ensures result.value in EraDescriptions && title == EraDescriptions[result.value]
    {
      title := EraDescriptions[result.value];
    }
  }
}
