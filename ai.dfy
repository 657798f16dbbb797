// Memory scenarios (packages/server/src/ai.ts): the built-in fallback table,
// the validity check applied to a generated scenario, and the round-robin
// choice of a detail question.

module Ai {
  import opened Types

  datatype MemoryScenario = MemoryScenario(
    prompt: string,
    fragments: seq<string>,
    hints: seq<string>,
    detailQuestions: seq<string>)

  /**
   * JavaScript's `%` on integers: the remainder takes the sign of the
   * dividend (Dafny's `%` never returns a negative number), and the
   * dividend is `b` times the quotient rounded toward zero plus it.
   */
  function JsRem(a: int, b: int): (r: int)
    requires b > 0
    ensures a >= 0 ==> r == a % b
    ensures a < 0 ==> -b < r <= 0
    ensures a == b * (if a >= 0 then a / b else -((-a) / b)) + r
  {
    if a >= 0 then a % b
    else
      var q := (-a) / b;
      assert b * -q == -(b * q);
      -((-a) % b)
  }

  /**
   * `selectDetailQuestion`: `questions[questionIndex % questions.length]`,
   * which is `undefined` (here `None`) for an empty list (`x % 0` is NaN)
   * and for a negative index with a non-zero remainder.
   */
  function SelectDetailQuestion(scenario: MemoryScenario, questionIndex: int): (r: Option<string>)
    ensures var qs := scenario.detailQuestions;
      |qs| > 0 && questionIndex >= 0 ==> r == Some(qs[questionIndex % |qs|])
    ensures scenario.detailQuestions == [] ==> r == None
    ensures r.Some? ==> r.value in scenario.detailQuestions
  {
    var qs := scenario.detailQuestions;
    if |qs| == 0 then None
    else
      var k := JsRem(questionIndex, |qs|);
      if k < 0 then None else Some(qs[k])
  }

  /** `Array.prototype.join(' ')`. */
  function JoinSpace(xs: seq<string>): string {
    if |xs| == 0 then ""
    else if |xs| == 1 then xs[0]
    else xs[0] + " " + JoinSpace(xs[1..])
  }

  function SumLengths(xs: seq<string>): nat {
    if xs == [] then 0 else |xs[0]| + SumLengths(xs[1..])
  }

  lemma {:induction false} JoinSpaceLength(xs: seq<string>)
    requires |xs| > 0
    ensures |JoinSpace(xs)| == SumLengths(xs) + |xs| - 1
  {
    if |xs| > 1 {
      JoinSpaceLength(xs[1..]);
    }
  }

  /** The five built-in scenarios of `getFallbackScenario`. */
  const FALLBACKS: seq<MemoryScenario> := [
    MemoryScenario(
      "A late night at a 24-hour diner. A stranger left something behind at the counter before hurrying out into the rain.",
      [ "The clock showed exactly 2:47 AM",
        "The stranger wore a bright yellow raincoat",
        "They left behind a worn leather journal with a red ribbon bookmark",
        "The jukebox was playing \"Blue Moon\" by Elvis" ],
      [ "It was very late at night",
        "The weather was bad outside",
        "Someone forgot something",
        "There was music playing" ],
      [ "What time was it?",
        "What was the stranger wearing?",
        "What did they leave behind?",
        "What song was playing?",
        "What color was the item left behind?" ]),
    MemoryScenario(
      "A crowded subway platform during rush hour. Someone dropped their bag and dozens of photographs scattered across the floor.",
      [ "It happened at the 14th Street station",
        "The bag was a green canvas messenger bag",
        "Most photos were black and white portraits",
        "A child in a red cap helped pick them up" ],
      [ "It was a busy transit location",
        "Something spilled everywhere",
        "Strangers helped out",
        "There were images involved" ],
      [ "Where did this happen?",
        "What kind of bag was it?",
        "What was in the photographs?",
        "Who helped clean up?",
        "What color was the bag?" ]),
    MemoryScenario(
      "A quiet morning at the park. A street performer suddenly stopped mid-song and stared at someone in the crowd.",
      [ "The performer was playing a silver saxophone",
        "They stopped during \"Autumn Leaves\"",
        "They stared at a woman in a blue sundress",
        "It was around 10:30 in the morning" ],
      [ "There was live music",
        "Something unexpected happened",
        "The performer reacted to someone",
        "It was during the day" ],
      [ "What instrument were they playing?",
        "What song were they performing?",
        "Who did they look at?",
        "What time of day was it?",
        "What color was the instrument?" ]),
    MemoryScenario(
      "A hotel lobby at midnight. The power went out for exactly thirty seconds, and when the lights came back, something had changed.",
      [ "The grandfather clock in the corner had stopped at 12:03",
        "A painting of a ship was now hanging upside down",
        "The receptionist was a young man with round glasses",
        "There were exactly 7 people in the lobby" ],
      [ "It was late at night",
        "There was a brief darkness",
        "Something was different after",
        "There were witnesses around" ],
      [ "What time did the clock show?",
        "What changed after the blackout?",
        "What did the hotel staff look like?",
        "How many people were there?",
        "What was in the painting?" ]),
    MemoryScenario(
      "A bookstore closing sale. An elderly man bought the very last book and whispered something to the cashier before leaving.",
      [ "The book was \"The Great Gatsby\" with a torn cover",
        "He paid with exact change - $4.75",
        "He whispered \"She would have loved this\"",
        "He wore a faded military pin on his lapel" ],
      [ "A store was closing down",
        "An older customer made a purchase",
        "There was something sentimental",
        "He said something quiet" ],
      [ "What book did he buy?",
        "How much did it cost?",
        "What did he say to the cashier?",
        "What was distinctive about his appearance?",
        "What was wrong with the book?" ])
  ]

  /**
   * `getFallbackScenario`: `fallbacks[Math.floor(Math.random() * 5)]`, with
   * the random draw in [0, 1) as a parameter.
   */
  function GetFallbackScenario(random: real): (r: MemoryScenario)
    requires 0.0 <= random < 1.0
    ensures r in FALLBACKS
  {
    var k := (random * 5.0).Floor;
    assert 0 <= k < 5;
    FALLBACKS[k]
  }

  /** The shape of a scenario in the generator's reply; any field may be missing. */
  datatype GeneratedScenario = GeneratedScenario(
    prompt: Option<string>,
    fragments: Option<seq<string>>,
    hints: Option<seq<string>>,
    detailQuestions: Option<seq<string>>)

  /**
   * The validity check of `generateMemoryScenario`: a non-empty prompt and
   * non-empty fragments, hints and questions.
   */
  predicate Acceptable(g: GeneratedScenario) {
    && g.prompt.Some? && g.prompt.value != ""
    && g.fragments.Some? && |g.fragments.value| > 0
    && g.hints.Some? && |g.hints.value| > 0
    && g.detailQuestions.Some? && |g.detailQuestions.value| > 0
  }

  /**
   * The tail of `generateMemoryScenario`: the generated scenario if it was
   * parsed and passes the check, otherwise a fallback. A failed or
   * unparseable generation is `None`.
   */
  function ChooseScenario(generated: Option<GeneratedScenario>, random: real): (r: MemoryScenario)
    requires 0.0 <= random < 1.0
    ensures generated.Some? && Acceptable(generated.value) ==>
      var g := generated.value;
      r == MemoryScenario(g.prompt.value, g.fragments.value, g.hints.value, g.detailQuestions.value)
    ensures !(generated.Some? && Acceptable(generated.value)) ==> r in FALLBACKS
  {
    if generated.Some? && Acceptable(generated.value) then
      var g := generated.value;
      MemoryScenario(g.prompt.value, g.fragments.value, g.hints.value, g.detailQuestions.value)
    else
      GetFallbackScenario(random)
  }

  lemma {:induction false} SumLengthsOfFour(xs: seq<string>)
    requires |xs| == 4
    ensures SumLengths(xs) == |xs[0]| + |xs[1]| + |xs[2]| + |xs[3]|
  {
    var t1, t2, t3 := xs[1..], xs[2..], xs[3..];
    assert t1[1..] == t2 && t2[1..] == t3 && t3[1..] == [];
    assert SumLengths(t3) == |xs[3]|;
    assert SumLengths(t2) == |xs[2]| + |xs[3]|;
  }

  /** The shape every built-in scenario has. */
  predicate WellFormedFallback(s: MemoryScenario) {
    && |s.fragments| == 4 && |s.hints| == 4 && |s.detailQuestions| == 5
    && |s.prompt| > 20
    && SumLengths(s.fragments) > SumLengths(s.hints)
  }

  /** One row of the fallback table, checked on its own. */
  lemma {:induction false} FallbackWellFormedAt(s: MemoryScenario)
    requires |s.fragments| == 4 && |s.hints| == 4
    requires |s.fragments[0]| + |s.fragments[1]| + |s.fragments[2]| + |s.fragments[3]|
           > |s.hints[0]| + |s.hints[1]| + |s.hints[2]| + |s.hints[3]|
    ensures SumLengths(s.fragments) > SumLengths(s.hints)
  {
    SumLengthsOfFour(s.fragments);
    SumLengthsOfFour(s.hints);
  }

  lemma {:induction false} FallbacksTableWellFormed(k: nat)
    requires k < |FALLBACKS|
    ensures WellFormedFallback(FALLBACKS[k])
  {
    FallbackWellFormedAt(FALLBACKS[k]);
  }

  /**
   * Every fallback has four fragments, four hints, five questions and a
   * prompt longer than 20 characters, and its joined fragments are longer
   * than its joined hints (the witness knows more than the imposters).
   */
  lemma {:induction false} FallbacksWellFormed(s: MemoryScenario)
    requires s in FALLBACKS
    ensures |s.fragments| == 4 && |s.hints| == 4 && |s.detailQuestions| == 5
    ensures |s.prompt| > 20
    ensures |JoinSpace(s.fragments)| > |JoinSpace(s.hints)|
  {
    var k :| 0 <= k < |FALLBACKS| && FALLBACKS[k] == s;
    FallbacksTableWellFormed(k);
    JoinSpaceLength(s.fragments);
    JoinSpaceLength(s.hints);
  }

  /**
   * Whatever scenario is chosen, a detail question exists for every
   * non-negative round index.
   */
  lemma {:induction false} ChosenScenarioHasQuestions(generated: Option<GeneratedScenario>, random: real, round: int)
    requires 0.0 <= random < 1.0 && round >= 0
    ensures var s := ChooseScenario(generated, random);
      s.prompt != "" && s.fragments != [] && s.hints != [] && SelectDetailQuestion(s, round).Some?
  {
    var s := ChooseScenario(generated, random);
    if !(generated.Some? && Acceptable(generated.value)) {
      FallbacksWellFormed(s);
    }
  }
}
