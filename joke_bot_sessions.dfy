/**
  Whole sessions of the joke bot on concrete input, derived from the general
  lemmas of module JokeBot.
 */
module JokeBotSessions {
  import opened Wrappers
  import opened JokeBot

  /** A joke source that always answers: "J" on even draws, "K" on odd ones. */
  function StubSource(): JokeSource {
    (language: string, category: string, draw: nat) => Some(if draw % 2 == 0 then "J" else "K")
  }

  /** The first two draws of the stub in the default language and category. */
  lemma StubDraws()
    ensures StubSource()("en", "neutral", 0) == Some("J")
    ensures StubSource()("en", "neutral", 1) == Some("K")
  {
  }

  /** A typed line that is not a number. */
  function Word(token: string): Line {
    Line(token, None)
  }

  /** The input "n", "n", "r", "q". */
  function FetchFetchResetQuit(): seq<Line> {
    [Word("n"), Word("n"), Word("r"), Word("q")]
  }

  /**
    The two `"n"` rounds of "n", "n", "r", "q" can run when the source answers
    both draws, and they append the jokes of draws `|s.jokes|` and
    `|s.jokes| + 1`, leaving "r", "q" to read.
   */
  lemma TwoFetchPlan(s: JokeState, source: JokeSource, fuel: nat)
    requires source(s.language, s.category, |s.jokes|).Some?
    requires source(s.language, s.category, |s.jokes| + 1).Some?
    requires fuel >= 4
    ensures FetchPlan(s, FetchFetchResetQuit(), 2, source, fuel)
    ensures var j0 := DrawnJoke(s, source, |s.jokes|);
      var j1 := DrawnJoke(s, source, |s.jokes| + 1);
      AfterFetches(s, source, 2) == s.(jokes := s.jokes + [j0, j1], jokesChoice := "n")
    ensures FetchFetchResetQuit()[2..] == [Word("r"), Word("q")]
  {
    var input := FetchFetchResetQuit();
    var j0 := DrawnJoke(s, source, |s.jokes|);
    var j1 := DrawnJoke(s, source, |s.jokes| + 1);
    var s1 := s.(jokes := s.jokes + [j0], jokesChoice := "n");
    var s2 := s.(jokes := s.jokes + [j0, j1], jokesChoice := "n");
    assert NextJoke(s, source) == j0;
    assert NextJoke(s1, source) == j1;
    assert s1.(jokes := s1.jokes + [j1], jokesChoice := "n") == s2;
    assert FetchPlan(s1, input[1..], 1, source, fuel - 2);
    assert AfterFetches(s, source, 2) == AfterFetches(s1, source, 1) == AfterFetches(s2, source, 0) == s2;
  }

  /** The two `"n"` rounds of "n", "n", "r", "q": the run is back at the menu before the `"r"`, with both jokes appended. */
  lemma TwoFetches(s: JokeState, source: JokeSource, spare: nat, mode: ResetMode)
    requires source(s.language, s.category, |s.jokes|).Some?
    requires source(s.language, s.category, |s.jokes| + 1).Some?
    ensures var j0 := DrawnJoke(s, source, |s.jokes|);
      var j1 := DrawnJoke(s, source, |s.jokes| + 1);
      Run(Config(s, At(ShowMenuNode), FetchFetchResetQuit()), source, spare + 8, mode)
      == Run(Config(s.(jokes := s.jokes + [j0, j1], jokesChoice := "n"), At(ShowMenuNode), [Word("r"), Word("q")]), source, spare + 4, mode)
  {
    var j0 := DrawnJoke(s, source, |s.jokes|);
    var j1 := DrawnJoke(s, source, |s.jokes| + 1);
    TwoFetchPlan(s, source, spare + 8);
    FetchRounds(s, FetchFetchResetQuit(), 2, source, spare + 8, mode);
    var after := Config(AfterFetches(s, source, 2), At(ShowMenuNode), FetchFetchResetQuit()[2..]);
    assert after == Config(s.(jokes := s.jokes + [j0, j1], jokesChoice := "n"), At(ShowMenuNode), [Word("r"), Word("q")]);
    assert spare + 8 - 2 * 2 == spare + 4;
  }

  /** From the menu, a lone "q" ends the run at `END`, whatever the reset mode. */
  lemma QuitFrom(s: JokeState, source: JokeSource, spare: nat, mode: ResetMode)
    ensures Run(Config(s, At(ShowMenuNode), [Word("q")]), source, spare + 2, mode)
         == Finished(s.(jokesChoice := "q", quit := true))
  {
    assert [Word("q")] == [Word("q")] + [];
    ExitChoiceEndsRun(s, Word("q"), [], source, spare + 2, mode);
  }

  /** From the menu, "r", "q" with the reset as written: the run ends at `END` with the history as it was. */
  lemma ResetThenQuit(s: JokeState, source: JokeSource, spare: nat)
    ensures Run(Config(s, At(ShowMenuNode), [Word("r"), Word("q")]), source, spare + 4, AsWritten)
         == Finished(s.(jokesChoice := "q", quit := true))
  {
    assert [Word("r"), Word("q")] == [Word("r")] + [Word("q")];
    ResetRoundKeepsHistory(s, Word("r"), [Word("q")], source, spare + 4);
    QuitFrom(s.(jokesChoice := "r"), source, spare, AsWritten);
  }

  /** From the menu, "r", "q" with the reset as intended: the run ends at `END` with an empty history. */
  lemma ClearingResetThenQuit(s: JokeState, source: JokeSource, spare: nat)
    ensures Run(Config(s, At(ShowMenuNode), [Word("r"), Word("q")]), source, spare + 4, Clearing)
         == Finished(s.(jokes := [], jokesChoice := "q", quit := true))
  {
    assert [Word("r"), Word("q")] == [Word("r")] + [Word("q")];
    ClearingResetRound(s, Word("r"), [Word("q")], source, spare + 4);
    QuitFrom(s.(jokes := [], jokesChoice := "r"), source, spare, Clearing);
  }

  /**
    On "n", "n", "r", "q" from the menu, with a source that answers both
    draws and any step budget of at least eight (`spare + 8`): two jokes are
    fetched, the reset as written leaves both in the history, and the run
    ends at `END` with them.
   */
  lemma ResetKeepsFetchedJokesFrom(s: JokeState, source: JokeSource, spare: nat)
    requires source(s.language, s.category, |s.jokes|).Some?
    requires source(s.language, s.category, |s.jokes| + 1).Some?
    ensures var j0 := DrawnJoke(s, source, |s.jokes|);
      var j1 := DrawnJoke(s, source, |s.jokes| + 1);
      Run(Config(s, At(ShowMenuNode), FetchFetchResetQuit()), source, spare + 8, AsWritten)
      == Finished(s.(jokes := s.jokes + [j0, j1], jokesChoice := "q", quit := true))
  {
    var j0 := DrawnJoke(s, source, |s.jokes|);
    var j1 := DrawnJoke(s, source, |s.jokes| + 1);
    TwoFetches(s, source, spare, AsWritten);
    ResetThenQuit(s.(jokes := s.jokes + [j0, j1], jokesChoice := "n"), source, spare);
  }

  /** The session on "n", "n", "r", "q" ends with both fetched jokes still in the history. */
  lemma ResetKeepsFetchedJokes()
    ensures Session(FetchFetchResetQuit(), StubSource())
         == Finished(JokeState([Joke("J", "neutral"), Joke("K", "neutral")], "q", "neutral", "en", true))
  {
    StubDraws();
    ResetKeepsFetchedJokesFrom(Initial(), StubSource(), StepLimit - 8);
  }

  /**
    On "n", "n", "r", "q" from the menu, with the reset as intended and any
    step budget of at least eight: the two fetched jokes are cleared and the
    run ends at `END` with an empty history.
   */
  lemma ClearingResetEmptiesHistoryFrom(s: JokeState, source: JokeSource, spare: nat)
    requires source(s.language, s.category, |s.jokes|).Some?
    requires source(s.language, s.category, |s.jokes| + 1).Some?
    ensures Run(Config(s, At(ShowMenuNode), FetchFetchResetQuit()), source, spare + 8, Clearing)
         == Finished(s.(jokes := [], jokesChoice := "q", quit := true))
  {
    var j0 := DrawnJoke(s, source, |s.jokes|);
    var j1 := DrawnJoke(s, source, |s.jokes| + 1);
    TwoFetches(s, source, spare, Clearing);
    ClearingResetThenQuit(s.(jokes := s.jokes + [j0, j1], jokesChoice := "n"), source, spare);
  }

  /** With the reset as intended, the session on "n", "n", "r", "q" ends with an empty history. */
  lemma ClearingResetEmptiesHistory()
    ensures IntendedSession(FetchFetchResetQuit(), StubSource())
         == Finished(JokeState([], "q", "neutral", "en", true))
  {
    ClearingResetEmptiesHistoryFrom(Initial(), StubSource(), StepLimit - 8);
  }

  /** The input "c", "1", "n", "q". */
  function ChuckThenFetchQuit(): seq<Line> {
    [Word("c"), Line("1", Some(1)), Word("n"), Word("q")]
  }

  /** From the menu, "n", "q" with a source that answers: one joke of the current category is appended and the run ends at `END`. */
  lemma FetchThenQuit(s: JokeState, source: JokeSource, spare: nat)
    requires source(s.language, s.category, |s.jokes|).Some?
    ensures Run(Config(s, At(ShowMenuNode), [Word("n"), Word("q")]), source, spare + 4, AsWritten)
         == Finished(s.(jokes := s.jokes + [NextJoke(s, source)], jokesChoice := "q", quit := true))
  {
    FetchRound(s, [Word("n"), Word("q")], source, spare + 4, AsWritten);
    assert [Word("n"), Word("q")][1..] == [Word("q")];
    QuitFrom(s.(jokes := s.jokes + [NextJoke(s, source)], jokesChoice := "n"), source, spare, AsWritten);
  }

  /** The `"c"` round of "c", "1", "n", "q": the category becomes "chuck" and the run is back at the menu before the `"n"`. */
  lemma ChuckRound(s: JokeState, source: JokeSource, spare: nat)
    ensures Run(Config(s, At(ShowMenuNode), ChuckThenFetchQuit()), source, spare + 6, AsWritten)
         == Run(Config(s.(jokesChoice := "c", category := "chuck"), At(ShowMenuNode), [Word("n"), Word("q")]), source, spare + 4, AsWritten)
  {
    assert ChuckThenFetchQuit() == [Word("c"), Line("1", Some(1))] + [Word("n"), Word("q")];
    CategoryRound(s, Word("c"), Line("1", Some(1)), [Word("n"), Word("q")], source, spare + 6, AsWritten);
  }

  /** On "c", "1", "n", "q" from the menu, with any step budget of at least six: the category becomes "chuck" and the one joke fetched is tagged "chuck". */
  lemma ChuckJokeFrom(s: JokeState, source: JokeSource, spare: nat)
    requires source(s.language, "chuck", |s.jokes|).Some?
    ensures var j := Joke(source(s.language, "chuck", |s.jokes|).value, "chuck");
      Run(Config(s, At(ShowMenuNode), ChuckThenFetchQuit()), source, spare + 6, AsWritten)
      == Finished(s.(jokes := s.jokes + [j], jokesChoice := "q", category := "chuck", quit := true))
  {
    ChuckRound(s, source, spare);
    FetchThenQuit(s.(jokesChoice := "c", category := "chuck"), source, spare);
  }

  /** The session on "c", "1", "n", "q" ends with category "chuck" and one joke tagged "chuck". */
  lemma ChuckJoke()
    ensures Session(ChuckThenFetchQuit(), StubSource())
         == Finished(JokeState([Joke("J", "chuck")], "q", "chuck", "en", true))
  {
    ChuckJokeFrom(Initial(), StubSource(), StepLimit - 6);
  }

  /**
    Fifty `"n"` choices in a row use up the 100 super-steps of
    `recursion_limit`: the session stops at the step limit, before any later
    `"q"` reaches `exit_bot`.
   */
  lemma FiftyFetchesHitStepLimit(input: seq<Line>, source: JokeSource)
    requires |input| >= 50
    requires forall i | 0 <= i < 50 :: input[i].token == "n"
    requires forall d | 0 <= d < 50 :: source("en", "neutral", d).Some?
    ensures Session(input, source) == Crashed(RecursionLimit)
  {
    FetchPlanFrom(Initial(), input, 50, source, StepLimit);
    FetchRounds(Initial(), input, 50, source, StepLimit, AsWritten);
  }

  /** A first menu choice that is not recognised ends the session at once, whatever follows and whatever the joke source. */
  lemma TypoQuits(line: Line, rest: seq<Line>, source: JokeSource)
    requires line.token !in {"n", "c", "l", "r", "q"}
    ensures Session([line] + rest, source) == Finished(Initial().(jokesChoice := line.token, quit := true))
  {
    ExitChoiceEndsRun(Initial(), line, rest, source, StepLimit, AsWritten);
  }

  /** With no input at all, the first `input()` raises and the session crashes. */
  lemma NoInputCrashes(source: JokeSource)
    ensures Session([], source) == Crashed(EndOfInput)
  {
  }

  /** A joke source that raises for the pair asked makes the session crash at the first "n". */
  lemma SourceFailureCrashes(rest: seq<Line>)
    ensures Session([Word("n")] + rest, (language: string, category: string, draw: nat) => None) == Crashed(JokeSourceFailed)
  {
    var c0 := Config(Initial(), At(ShowMenuNode), [Word("n")] + rest);
    var c1 := Config(Initial().(jokesChoice := "n"), At(FetchJokeNode), rest);
    assert Step(c0, (language: string, category: string, draw: nat) => None, AsWritten) == Ok(c1);
  }
}
