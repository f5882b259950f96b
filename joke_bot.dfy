/**
  The joke bot's session, written as the LangGraph graph in main.py runs it:
  a graph state, six nodes that each return a partial update, a merge that
  applies the update (with the `add` reducer on the joke history), the routing
  function, the edge table, and a fuel-bounded run of the whole graph.
 */
module JokeBot {
  import opened Wrappers

  // ------------------------------------------------------------------
  // State
  // ------------------------------------------------------------------

  /** One joke kept in the history. */
  datatype Joke = Joke(text: string, category: string)

  /** The graph state. Nodes never change it; the runtime merges their updates into it. */
  datatype JokeState = JokeState(
    jokes: seq<Joke>,
    jokesChoice: string,
    category: string,
    language: string,
    quit: bool)

  /** A node's partial update: a field is `Some` exactly when the node's returned dict has that key. */
  datatype Update = Update(
    jokes: Option<seq<Joke>>,
    jokesChoice: Option<string>,
    category: Option<string>,
    language: Option<string>,
    quit: Option<bool>)

  /** The empty dict `{}`. */
  const NoUpdate := Update(None, None, None, None, None)

  /** The categories offered by `update_category`, in menu order. */
  const Categories: seq<string> := ["neutral", "chuck", "all"]

  /** The languages offered by `update_language`: (code, name) pairs in the dict's insertion order. */
  const Languages: seq<(string, string)> :=
    [("en", "English"), ("de", "German"), ("es", "Spanish"),
     ("gl", "Galician"), ("eu", "Basque"), ("it", "Italian")]

  /** The language codes that `update_language` can select. */
  function LanguageCodes(): set<string> {
    set p | p in Languages :: p.0
  }

  /** A state whose category and language are ones the menus offer, and whose history only holds jokes of such categories. */
  predicate Valid(s: JokeState) {
    && s.category in Categories
    && s.language in LanguageCodes()
    && forall j | j in s.jokes :: j.category in Categories
  }

  /** The state the session starts from: `JokeState()` with its field defaults. */
  function Initial(): (s: JokeState)
    ensures Valid(s) && s.jokes == [] && !s.quit
    ensures s.category == Categories[0] && s.language == Languages[0].0
  {
    JokeState([], "n", "neutral", "en", false)
  }

  /**
    How the runtime applies an update: `jokes` uses the `add` reducer, so the
    update's list is appended to the history; every other key present
    overwrites its field.
   */
  function Merge(s: JokeState, u: Update): (r: JokeState)
    ensures s.jokes <= r.jokes
    ensures u == NoUpdate ==> r == s
    ensures r.jokes[|s.jokes|..] == u.jokes.GetOr([])
  {
    JokeState(
      s.jokes + u.jokes.GetOr([]),
      u.jokesChoice.GetOr(s.jokesChoice),
      u.category.GetOr(s.category),
      u.language.GetOr(s.language),
      u.quit.GetOr(s.quit))
  }

  // ------------------------------------------------------------------
  // Nodes
  // ------------------------------------------------------------------

  /** `show_menu`: records the choice typed at the menu (already stripped and lower-cased). */
  function ShowMenu(s: JokeState, token: string): (u: Update)
    ensures Merge(s, u) == s.(jokesChoice := token)
  {
    NoUpdate.(jokesChoice := Some(token))
  }

  /**
    `get_joke(language, category)`, which picks a joke at random: the text of
    the given draw, or `None` when the library raises. The draw index tells
    successive calls apart, so two fetches may return different texts.
   */
  type JokeSource = (string, string, nat) -> Option<string>

  /**
    `fetch_joke`: asks the source for a joke in the current language and
    category and contributes it as a one-element list; `None` when the source
    raises. The draw index is the history's length, which in the program as
    written counts the fetches made so far.
   */
  function FetchJoke(s: JokeState, source: JokeSource): (r: Option<Update>)
    ensures r.None? <==> source(s.language, s.category, |s.jokes|).None?
    ensures r.Some? ==>
      Merge(s, r.value) == s.(jokes := s.jokes + [DrawnJoke(s, source, |s.jokes|)])
  {
    match source(s.language, s.category, |s.jokes|)
    case None => None
    case Some(text) => Some(NoUpdate.(jokes := Some([Joke(text, s.category)])))
  }

  /** True when `selection` parsed as an integer and indexes a list of length `n`. */
  predicate InRange(selection: Option<int>, n: nat) {
    selection.Some? && 0 <= selection.value < n
  }

  /**
    `update_category`: `selection` is `int()` of the typed line, `None` when
    `int()` raised `ValueError`. A valid index selects that category; anything
    else gives the empty update.
   */
  function UpdateCategory(s: JokeState, selection: Option<int>): (u: Update)
    ensures InRange(selection, |Categories|) ==> Merge(s, u) == s.(category := Categories[selection.value])
    ensures !InRange(selection, |Categories|) ==> u == NoUpdate
  {
    match selection
    case None => NoUpdate
    case Some(i) =>
      if 0 <= i < |Categories| then NoUpdate.(category := Some(Categories[i])) else NoUpdate
  }

  /** `update_language`: as `update_category`, selecting the code of the i-th language. */
  function UpdateLanguage(s: JokeState, selection: Option<int>): (u: Update)
    ensures InRange(selection, |Languages|) ==> Merge(s, u) == s.(language := Languages[selection.value].0)
    ensures !InRange(selection, |Languages|) ==> u == NoUpdate
  {
    match selection
    case None => NoUpdate
    case Some(i) =>
      if 0 <= i < |Languages| then NoUpdate.(language := Some(Languages[i].0)) else NoUpdate
  }

  /**
    `reset_jokes`: returns `{"jokes": []}`. Under the `add` reducer that update
    appends nothing, so the merged state is the old one: the history is NOT
    cleared, although the node announces that it was.
   */
  function ResetJokes(s: JokeState): (u: Update)
    ensures u.jokes == Some([])
    ensures Merge(s, u) == s
  {
    NoUpdate.(jokes := Some([]))
  }

  /** `exit_bot`: sets `quit`. */
  function ExitBot(s: JokeState): (u: Update)
    ensures Merge(s, u) == s.(quit := true)
  {
    NoUpdate.(quit := Some(true))
  }

  // ------------------------------------------------------------------
  // Graph
  // ------------------------------------------------------------------

  datatype Node = ShowMenuNode | FetchJokeNode | UpdateCategoryNode | UpdateLanguageNode | ResetJokesNode | ExitBotNode

  /** Where control goes after a node: another node, or the graph's `END`. */
  datatype Target = At(node: Node) | End

  /** `route_choice`: the action node for a menu choice; every unrecognised choice goes to `exit_bot`. */
  function Route(choice: string): (n: Node)
    ensures n != ShowMenuNode
    ensures n == FetchJokeNode <==> choice == "n"
    ensures n == UpdateCategoryNode <==> choice == "c"
    ensures n == UpdateLanguageNode <==> choice == "l"
    ensures n == ResetJokesNode <==> choice == "r"
  {
    if choice == "n" then FetchJokeNode
    else if choice == "c" then UpdateCategoryNode
    else if choice == "l" then UpdateLanguageNode
    else if choice == "r" then ResetJokesNode
    else if choice == "q" then ExitBotNode
    else ExitBotNode
  }

  /**
    The edge table of `build_joke_graph`: a conditional edge from `show_menu`
    through `route_choice` (evaluated on the merged state), a plain edge back to
    `show_menu` from each of the four other actions, and `exit_bot` to `END`.
   */
  function Successor(node: Node, s: JokeState): (t: Target)
    ensures t == End <==> node == ExitBotNode
    ensures node != ShowMenuNode && node != ExitBotNode ==> t == At(ShowMenuNode)
    ensures node == ShowMenuNode ==> t == At(Route(s.jokesChoice))
  {
    match node
    case ShowMenuNode => At(Route(s.jokesChoice))
    case ExitBotNode => End
    case _ => At(ShowMenuNode)
  }

  // ------------------------------------------------------------------
  // Running the graph
  // ------------------------------------------------------------------

  /**
    One line typed at a prompt, in the two readings the program gives it:
    `token` is the line stripped and lower-cased (the menu), `number` is
    `int()` of the stripped line, `None` when that raises `ValueError`.
   */
  datatype Line = Line(token: string, number: Option<int>)

  /** Why a run stops without reaching `END`. */
  datatype Failure =
    | EndOfInput        // `input()` raised EOFError, which no node catches
    | JokeSourceFailed  // `get_joke` raised inside `fetch_joke`
    | RecursionLimit    // the runtime's step limit was reached

  /** The nodes that read a line of input. */
  predicate Reads(node: Node) {
    node == ShowMenuNode || node == UpdateCategoryNode || node == UpdateLanguageNode
  }

  /** Runs one node on `s` with the remaining input: its update and the input left, or the exception it raised. */
  function Execute(node: Node, s: JokeState, input: seq<Line>, source: JokeSource): (r: Result<(Update, seq<Line>), Failure>)
    ensures r.Err? <==>
      (Reads(node) && input == []) || (node == FetchJokeNode && source(s.language, s.category, |s.jokes|).None?)
    ensures r.Err? ==> (r.error == EndOfInput <==> Reads(node))
    ensures r.Ok? ==> r.value.1 == if Reads(node) then input[1..] else input
    ensures r.Ok? && r.value.0.quit.Some? ==> node == ExitBotNode && r.value.0.quit == Some(true)
  {
    if Reads(node) && input == [] then Err(EndOfInput)
    else
      match node
      case ShowMenuNode => Ok((ShowMenu(s, input[0].token), input[1..]))
      case FetchJokeNode =>
        (match FetchJoke(s, source)
         case None => Err(JokeSourceFailed)
         case Some(u) => Ok((u, input)))
      case UpdateCategoryNode => Ok((UpdateCategory(s, input[0].number), input[1..]))
      case UpdateLanguageNode => Ok((UpdateLanguage(s, input[0].number), input[1..]))
      case ResetJokesNode => Ok((ResetJokes(s), input))
      case ExitBotNode => Ok((ExitBot(s), input))
  }

  /**
    What `reset_jokes` does to the history: `AsWritten` merges its update with
    the `add` reducer, which keeps the history; `Clearing` empties the history,
    as the node's docstring and its "Cleared N jokes" message intend.
   */
  datatype ResetMode = AsWritten | Clearing

  /** The intended effect of `reset_jokes`: the history is empty and nothing else changes. */
  function ClearHistory(s: JokeState): (r: JokeState)
    ensures r.jokes == []
    ensures r.(jokes := s.jokes) == s
  {
    s.(jokes := [])
  }

  /** A point of the run: the graph state, the node about to run (or `END`), and the input not yet read. */
  datatype Config = Config(state: JokeState, at: Target, input: seq<Line>)

  /** How a run ends: at `END` with the final state, or with an exception. */
  datatype Outcome = Finished(state: JokeState) | Crashed(failure: Failure)

  /** One super-step: run the current node, merge its update, follow the edges on the merged state. */
  function Step(c: Config, source: JokeSource, mode: ResetMode): (r: Result<Config, Failure>)
    requires c.at.At?
    ensures r.Ok? ==>
      || c.state.jokes <= r.value.state.jokes
      || (mode == Clearing && c.at.node == ResetJokesNode && r.value.state.jokes == [])
    ensures r.Ok? ==> r.value.state.quit == (c.state.quit || c.at.node == ExitBotNode)
    ensures r.Ok? ==> (r.value.at == End <==> c.at.node == ExitBotNode)
  {
    match Execute(c.at.node, c.state, c.input, source)
    case Err(f) => Err(f)
    case Ok((u, rest)) =>
      var s' := if mode == Clearing && c.at.node == ResetJokesNode then ClearHistory(c.state) else Merge(c.state, u);
      Ok(Config(s', Successor(c.at.node, s'), rest))
  }

  /** Runs at most `fuel` super-steps from `c`. */
  function Run(c: Config, source: JokeSource, fuel: nat, mode: ResetMode): (o: Outcome)
    ensures mode == AsWritten && o.Finished? ==> c.state.jokes <= o.state.jokes
    decreases fuel
  {
    match c.at
    case End => Finished(c.state)
    case At(_) =>
      if fuel == 0 then Crashed(RecursionLimit)
      else
        match Step(c, source, mode)
        case Err(f) => Crashed(f)
        case Ok(c') => Run(c', source, fuel - 1, mode)
  }

  /** The `recursion_limit` passed to `invoke`. */
  const StepLimit: nat := 100

  /** `graph.invoke(JokeState(), ...)`: start at `show_menu` from the default state. */
  function Session(input: seq<Line>, source: JokeSource): (o: Outcome)
    ensures o.Finished? ==> o.state.quit
  {
    var c := Config(Initial(), At(ShowMenuNode), input);
    StartIsConsistent(input);
    RunKeepsConsistent(c, source, StepLimit, AsWritten);
    Run(c, source, StepLimit, AsWritten)
  }

  /** The same session with the reset as intended: `reset_jokes` empties the history. */
  function IntendedSession(input: seq<Line>, source: JokeSource): (o: Outcome)
    ensures o.Finished? ==> o.state.quit
  {
    var c := Config(Initial(), At(ShowMenuNode), input);
    StartIsConsistent(input);
    RunKeepsConsistent(c, source, StepLimit, Clearing);
    Run(c, source, StepLimit, Clearing)
  }

  // ------------------------------------------------------------------
  // Properties
  // ------------------------------------------------------------------

  /** What holds at every point of a run from the start: a valid state, `quit` set exactly at `END`, and `exit_bot`/`END` reached only through an exit choice. */
  predicate Consistent(c: Config) {
    && Valid(c.state)
    && (c.state.quit <==> c.at == End)
    && ((c.at == At(ExitBotNode) || c.at == End) ==> Route(c.state.jokesChoice) == ExitBotNode)
  }

  lemma StartIsConsistent(input: seq<Line>)
    ensures Consistent(Config(Initial(), At(ShowMenuNode), input))
  {
  }

  /** A selected category or language is always one the menu lists. */
  lemma SelectionKeepsValid(s: JokeState, selection: Option<int>)
    requires Valid(s)
    ensures Valid(Merge(s, UpdateCategory(s, selection)))
    ensures Valid(Merge(s, UpdateLanguage(s, selection)))
  {
    if InRange(selection, |Languages|) {
      var p := Languages[selection.value];
      assert p in Languages;
    }
  }

  /** Every super-step keeps the run consistent, whichever the reset. */
  lemma StepKeepsConsistent(c: Config, source: JokeSource, mode: ResetMode)
    requires Consistent(c) && c.at.At? && Step(c, source, mode).Ok?
    ensures Consistent(Step(c, source, mode).value)
  {
    var c' := Step(c, source, mode).value;
    match c.at.node
    case UpdateCategoryNode => SelectionKeepsValid(c.state, c.input[0].number);
    case UpdateLanguageNode => SelectionKeepsValid(c.state, c.input[0].number);
    case FetchJokeNode =>
      assert c'.state.jokes == c.state.jokes + [NextJoke(c.state, source)];
    case _ =>
  }

  /**
    A run that reaches `END` ends in a valid state with `quit` set, and the
    last menu choice it read is `"q"` or an unrecognised one.
   */
  lemma {:induction false} RunKeepsConsistent(c: Config, source: JokeSource, fuel: nat, mode: ResetMode)
    requires Consistent(c)
    ensures Run(c, source, fuel, mode).Finished? ==>
      var s := Run(c, source, fuel, mode).state;
      Valid(s) && s.quit && Route(s.jokesChoice) == ExitBotNode
    decreases fuel
  {
    if c.at.At? && fuel > 0 && Step(c, source, mode).Ok? {
      StepKeepsConsistent(c, source, mode);
      RunKeepsConsistent(Step(c, source, mode).value, source, fuel - 1, mode);
    }
  }

  /** Every session that ends normally ends in a valid state, with `quit` set, on an exit choice, and its history only holds jokes from listed categories. */
  lemma SessionEndsConsistent(input: seq<Line>, source: JokeSource)
    ensures Session(input, source).Finished? ==>
      var s := Session(input, source).state;
      Valid(s) && s.quit && Route(s.jokesChoice) == ExitBotNode
  {
    StartIsConsistent(input);
    RunKeepsConsistent(Config(Initial(), At(ShowMenuNode), input), source, StepLimit, AsWritten);
  }

  /** At the menu, `"q"` or an unrecognised choice ends the run at once: only `jokes_choice` and `quit` change, and nothing more is read. */
  lemma ExitChoiceEndsRun(s: JokeState, line: Line, rest: seq<Line>, source: JokeSource, fuel: nat, mode: ResetMode)
    requires Route(line.token) == ExitBotNode
    requires fuel >= 2
    ensures Run(Config(s, At(ShowMenuNode), [line] + rest), source, fuel, mode)
         == Finished(s.(jokesChoice := line.token, quit := true))
  {
    var c1 := Config(s.(jokesChoice := line.token), At(ExitBotNode), rest);
    assert Step(Config(s, At(ShowMenuNode), [line] + rest), source, mode) == Ok(c1);
    var c2 := Config(s.(jokesChoice := line.token, quit := true), End, rest);
    assert Step(c1, source, mode) == Ok(c2);
    assert Run(c1, source, fuel - 1, mode) == Run(c2, source, fuel - 2, mode);
  }

  /** At the menu, a recognised choice other than `"q"` runs its action node and comes back to the menu with `quit` unchanged. */
  lemma ActionChoiceReturnsToMenu(s: JokeState, line: Line, rest: seq<Line>, source: JokeSource, mode: ResetMode)
    requires Route(line.token) != ExitBotNode
    ensures Step(Config(s, At(ShowMenuNode), [line] + rest), source, mode)
         == Ok(Config(s.(jokesChoice := line.token), At(Route(line.token)), rest))
    ensures var c1 := Config(s.(jokesChoice := line.token), At(Route(line.token)), rest);
      Step(c1, source, mode).Ok? ==>
        Step(c1, source, mode).value.at == At(ShowMenuNode) && Step(c1, source, mode).value.state.quit == s.quit
  {
  }

  /** The joke of draw `draw` in the current language and category, when the source answers that draw. */
  function DrawnJoke(s: JokeState, source: JokeSource, draw: nat): Joke
    requires source(s.language, s.category, draw).Some?
  {
    Joke(source(s.language, s.category, draw).value, s.category)
  }

  /**
    The joke the `"n"` round on `s` fetches, when the source answers: draw
    `|s.jokes|`. It is exactly the one-joke list `fetch_joke` returns, and
    merging that update appends it to the history.
   */
  function NextJoke(s: JokeState, source: JokeSource): (j: Joke)
    requires source(s.language, s.category, |s.jokes|).Some?
    ensures FetchJoke(s, source) == Some(NoUpdate.(jokes := Some([j])))
    ensures Merge(s, FetchJoke(s, source).value) == s.(jokes := s.jokes + [j])
  {
    DrawnJoke(s, source, |s.jokes|)
  }

  /**
    `k >= 1` `"n"` rounds can run from `s` on `input`: the next `k` lines are
    `"n"` choices, the source answers each of the `k` draws, and `fuel` covers
    the `2k` super-steps.
   */
  predicate FetchPlan(s: JokeState, input: seq<Line>, k: nat, source: JokeSource, fuel: nat)
    decreases k
  {
    && 1 <= k <= |input|
    && fuel >= 2 * k
    && input[0].token == "n"
    && source(s.language, s.category, |s.jokes|).Some?
    && (k == 1 || FetchPlan(s.(jokes := s.jokes + [NextJoke(s, source)], jokesChoice := "n"), input[1..], k - 1, source, fuel - 2))
  }

  /** `k` `"n"` lines ahead, `k` answered draws and `2k` super-steps to spare make a `FetchPlan`. */
  lemma {:induction false} FetchPlanFrom(s: JokeState, input: seq<Line>, k: nat, source: JokeSource, fuel: nat)
    requires 1 <= k <= |input| && fuel >= 2 * k
    requires forall i | 0 <= i < k :: input[i].token == "n"
    requires forall d | |s.jokes| <= d < |s.jokes| + k :: source(s.language, s.category, d).Some?
    ensures FetchPlan(s, input, k, source, fuel)
    decreases k
  {
    if k > 1 {
      var s1 := s.(jokes := s.jokes + [NextJoke(s, source)], jokesChoice := "n");
      assert forall i | 0 <= i < k - 1 :: input[1..][i] == input[i + 1];
      FetchPlanFrom(s1, input[1..], k - 1, source, fuel - 2);
    }
  }

  /**
    The state after `k` `"n"` rounds: each appends the joke the source draws at
    the history's length and records `"n"` as the last choice. The rounds stop
    at a draw the source does not answer, where the run would raise.
   */
  function AfterFetches(s: JokeState, source: JokeSource, k: nat): JokeState
    decreases k
  {
    if k == 0 || source(s.language, s.category, |s.jokes|).None? then s
    else AfterFetches(s.(jokes := s.jokes + [NextJoke(s, source)], jokesChoice := "n"), source, k - 1)
  }

  /**
    When the source answers `k` draws in a row, `k` rounds append exactly `k`
    jokes after the old history, the i-th of them being draw `|s.jokes| + i`
    in the current language and category; only the history and the last
    choice change.
   */
  lemma {:induction false} AfterFetchesAppends(s: JokeState, source: JokeSource, k: nat)
    requires forall i | |s.jokes| <= i < |s.jokes| + k :: source(s.language, s.category, i).Some?
    ensures var r := AfterFetches(s, source, k);
      && |r.jokes| == |s.jokes| + k
      && r.jokes[..|s.jokes|] == s.jokes
      && (forall i | |s.jokes| <= i < |r.jokes| ::
            Some(r.jokes[i].text) == source(s.language, s.category, i) && r.jokes[i].category == s.category)
      && r == s.(jokes := r.jokes, jokesChoice := if k == 0 then s.jokesChoice else "n")
    decreases k
  {
    if k > 0 {
      var s1 := s.(jokes := s.jokes + [NextJoke(s, source)], jokesChoice := "n");
      AfterFetchesAppends(s1, source, k - 1);
      var r := AfterFetches(s1, source, k - 1);
      assert r.jokes[..|s.jokes|] == r.jokes[..|s1.jokes|][..|s.jokes|];
    }
  }

  /** A `"n"` choice, with a source that answers, appends one joke of the current category and comes back to the menu. */
  lemma FetchRound(s: JokeState, input: seq<Line>, source: JokeSource, fuel: nat, mode: ResetMode)
    requires |input| >= 1 && input[0].token == "n"
    requires source(s.language, s.category, |s.jokes|).Some?
    requires fuel >= 2
    ensures Run(Config(s, At(ShowMenuNode), input), source, fuel, mode)
         == Run(Config(s.(jokes := s.jokes + [NextJoke(s, source)], jokesChoice := "n"), At(ShowMenuNode), input[1..]), source, fuel - 2, mode)
  {
    var c1 := Config(s.(jokesChoice := "n"), At(FetchJokeNode), input[1..]);
    assert Step(Config(s, At(ShowMenuNode), input), source, mode) == Ok(c1);
    assert Step(c1, source, mode) == Ok(Config(s.(jokes := s.jokes + [NextJoke(s, source)], jokesChoice := "n"), At(ShowMenuNode), input[1..]));
  }

  /**
    `k >= 1` `"n"` choices in a row, with a source that answers each draw,
    lead to the state `AfterFetches` describes and leave the run at the menu,
    with the rest of the input unread, after `2k` super-steps.
   */
  lemma {:induction false} FetchRounds(s: JokeState, input: seq<Line>, k: nat, source: JokeSource, fuel: nat, mode: ResetMode)
    requires FetchPlan(s, input, k, source, fuel)
    ensures Run(Config(s, At(ShowMenuNode), input), source, fuel, mode)
         == Run(Config(AfterFetches(s, source, k), At(ShowMenuNode), input[k..]), source, fuel - 2 * k, mode)
    decreases k
  {
    var s1 := s.(jokes := s.jokes + [NextJoke(s, source)], jokesChoice := "n");
    FetchRound(s, input, source, fuel, mode);
    if k == 1 {
      assert AfterFetches(s, source, 1) == AfterFetches(s1, source, 0) == s1;
    } else {
      FetchRounds(s1, input[1..], k - 1, source, fuel - 2, mode);
      assert input[1..][k - 1..] == input[k..];
    }
  }

  /** A `"r"` choice, as written, comes back to the menu with the history exactly as it was: the reset clears nothing. */
  lemma ResetRoundKeepsHistory(s: JokeState, line: Line, rest: seq<Line>, source: JokeSource, fuel: nat)
    requires line.token == "r"
    requires fuel >= 2
    ensures Run(Config(s, At(ShowMenuNode), [line] + rest), source, fuel, AsWritten)
         == Run(Config(s.(jokesChoice := "r"), At(ShowMenuNode), rest), source, fuel - 2, AsWritten)
  {
    var c1 := Config(s.(jokesChoice := "r"), At(ResetJokesNode), rest);
    assert Step(Config(s, At(ShowMenuNode), [line] + rest), source, AsWritten) == Ok(c1);
    assert Step(c1, source, AsWritten) == Ok(Config(s.(jokesChoice := "r"), At(ShowMenuNode), rest));
  }

  /** With the intended reset, a `"r"` choice comes back to the menu with an empty history and nothing else changed. */
  lemma ClearingResetRound(s: JokeState, line: Line, rest: seq<Line>, source: JokeSource, fuel: nat)
    requires line.token == "r"
    requires fuel >= 2
    ensures Run(Config(s, At(ShowMenuNode), [line] + rest), source, fuel, Clearing)
         == Run(Config(s.(jokes := [], jokesChoice := "r"), At(ShowMenuNode), rest), source, fuel - 2, Clearing)
  {
    var c1 := Config(s.(jokesChoice := "r"), At(ResetJokesNode), rest);
    assert Step(Config(s, At(ShowMenuNode), [line] + rest), source, Clearing) == Ok(c1);
    assert Step(c1, source, Clearing) == Ok(Config(s.(jokes := [], jokesChoice := "r"), At(ShowMenuNode), rest));
  }

  /** With the intended reset, two `"r"` choices in a row leave the run where one does: the reset is idempotent. */
  lemma ClearingResetIdempotent(s: JokeState, r1: Line, r2: Line, rest: seq<Line>, source: JokeSource, fuel: nat)
    requires r1.token == "r" && r2.token == "r"
    requires fuel >= 4
    ensures Run(Config(s, At(ShowMenuNode), [r1, r2] + rest), source, fuel, Clearing)
         == Run(Config(s, At(ShowMenuNode), [r1] + rest), source, fuel - 2, Clearing)
         == Run(Config(s.(jokes := [], jokesChoice := "r"), At(ShowMenuNode), rest), source, fuel - 4, Clearing)
  {
    var cleared := s.(jokes := [], jokesChoice := "r");
    var f2: nat := fuel - 2;
    assert [r1, r2] + rest == [r1] + ([r2] + rest);
    ClearingResetRound(s, r1, [r2] + rest, source, fuel);
    ClearingResetRound(cleared, r2, rest, source, f2);
    assert cleared.(jokes := [], jokesChoice := "r") == cleared;
    ClearingResetRound(s, r1, rest, source, f2);
    assert f2 - 2 == fuel - 4;
  }

  /** A `"c"` choice followed by a selection line sets the category to the selected one, or keeps it when the selection is not a valid index. */
  lemma CategoryRound(s: JokeState, c: Line, pick: Line, rest: seq<Line>, source: JokeSource, fuel: nat, mode: ResetMode)
    requires c.token == "c"
    requires fuel >= 2
    ensures Run(Config(s, At(ShowMenuNode), [c, pick] + rest), source, fuel, mode)
         == Run(Config(s.(jokesChoice := "c",
                          category := if InRange(pick.number, |Categories|) then Categories[pick.number.value] else s.category),
                       At(ShowMenuNode), rest), source, fuel - 2, mode)
  {
    var c1 := Config(s.(jokesChoice := "c"), At(UpdateCategoryNode), [pick] + rest);
    assert [c, pick] + rest == [c] + ([pick] + rest);
    assert Step(Config(s, At(ShowMenuNode), [c, pick] + rest), source, mode) == Ok(c1);
    assert ([pick] + rest)[1..] == rest;
  }

  /** A `"l"` choice followed by a selection line sets the language to the selected code, or keeps it when the selection is not a valid index. */
  lemma LanguageRound(s: JokeState, l: Line, pick: Line, rest: seq<Line>, source: JokeSource, fuel: nat, mode: ResetMode)
    requires l.token == "l"
    requires fuel >= 2
    ensures Run(Config(s, At(ShowMenuNode), [l, pick] + rest), source, fuel, mode)
         == Run(Config(s.(jokesChoice := "l",
                          language := if InRange(pick.number, |Languages|) then Languages[pick.number.value].0 else s.language),
                       At(ShowMenuNode), rest), source, fuel - 2, mode)
  {
    var c1 := Config(s.(jokesChoice := "l"), At(UpdateLanguageNode), [pick] + rest);
    assert [l, pick] + rest == [l] + ([pick] + rest);
    assert Step(Config(s, At(ShowMenuNode), [l, pick] + rest), source, mode) == Ok(c1);
    assert ([pick] + rest)[1..] == rest;
  }
}
