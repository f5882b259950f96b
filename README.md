# Joke bot session, modelled in Dafny

The joke bot (`main.py`) is a LangGraph `StateGraph` over a `JokeState`
record. A `show_menu` node reads a menu choice. `route_choice` sends it to one
of five action nodes: `fetch_joke`, `update_category`, `update_language`,
`reset_jokes` or `exit_bot`. Every action except `exit_bot` leads back to the
menu, and `exit_bot` leads to `END`. No node changes the state. Each returns a
partial update (a dict), and the runtime merges it into the state. The
`jokes` field has the `add` reducer, so the runtime appends a returned list to
the history. Every other key overwrites its field.

The model has two modules:

- `JokeBot` (`joke_bot.dfy`) holds the state and update records (`JokeState`,
  `Update`) and `Merge`, which applies an update with the `add` reducer. It has
  one function per node, `Route`, the edge table `Successor`, and `Execute`,
  which runs one node on the state and the remaining input. `Step` is one
  super-step: run the node, merge its update, follow the edges. `Run` repeats
  `Step`, and its fuel is the `recursion_limit` of 100. The module also holds
  the lemmas about runs: the invariant every reachable point keeps, how a run
  ends, and what each menu round does.
- `JokeBotSessions` (`joke_bot_sessions.dfy`) holds whole sessions on concrete
  input.

Input is a sequence of `Line`s. Each line carries the two readings the program
gives a typed line. `token` is the line stripped and lower-cased, as the menu
reads it. `number` is `int()` of the stripped line, as the selection prompts
read it. It is `None` when `int()` raises `ValueError`.

The joke library's `get_joke(language, category)` is a parameter,
`JokeSource`. It is a function of the language, the category and a draw
index, and it returns `None` when the library raises. `fetch_joke` asks for
draw number `|jokes|`, the current length of the history. In the program as
written the history only grows, so successive fetches are distinct draws and
may return different texts.

`Step`, `Run` and the round lemmas take a `ResetMode`:

- `AsWritten` merges the reset's update as the program does.
- `Clearing` empties the history on a reset, as the node announces (see
  "Reset does not clear the history" below).

`Session` is the program's run (`AsWritten`). `IntendedSession` is the same
run with the intended reset (`Clearing`).

A run stops in one of two ways. It ends normally at `END` (`Finished`), or it
stops with an exception (`Crashed`). An exception happens in three cases:

- `input()` hits end of input, and no node catches that;
- `get_joke` raises inside `fetch_joke`;
- the step limit is reached.

### Reset does not clear the history

`reset_jokes` returns `{"jokes": []}` (main.py:111). Its docstring says
"Reset the joke history" (main.py:107). It prints "Cleared N jokes from
history!", where N is the current history length (main.py:109). The `add`
reducer on `jokes` (main.py:22) merges that update as `old + []`, so the
history stays exactly as it was. The model keeps both behaviours.

As written:

- `ResetJokes` states that the merged state equals the old state.
- `ResetRoundKeepsHistory` states that an "r" round leaves the history
  unchanged.
- `ResetKeepsFetchedJokes` proves that the session "n", "n", "r", "q" ends
  with both fetched jokes still in the history.

As intended:

- `ClearHistory` empties the history and changes nothing else.
- `ClearingResetRound` states that an "r" round then returns to the menu with
  an empty history.
- `ClearingResetIdempotent` states that two resets in a row act as one.
- `ClearingResetEmptiesHistory` proves that "n", "n", "r", "q" then ends with
  an empty history.

The general lemmas about runs hold in both modes. They cover the run
invariant, how a run ends, and the fetch, category, language and exit rounds.

## Model

| member | source | states |
|---|---|---|
| `JokeBot.Initial` | main.py:20-26 | the default state is valid, with an empty history, `quit` unset, category "neutral" (the first category) and language "en" (the first language) |
| `JokeBot.Merge` | main.py:20-26 | merging an update never shortens the history, appends exactly the update's list after the old history (the `add` reducer), and the empty update leaves the state unchanged |
| `JokeBot.ShowMenu` | main.py:33-41 | after the menu, the merged state differs from the old one only in `jokes_choice`, which holds the typed choice |
| `JokeBot.FetchJoke` | main.py:44-50 | fails exactly when the joke source raises; otherwise the merged state is the old one plus exactly one joke at the end, whose text is the source's answer for the current language, category and draw `|jokes|`, and whose category is the current category |
| `JokeBot.NextJoke` | main.py:44-50 | the joke an "n" round fetches is exactly the one-joke list `fetch_joke` returns, and merging that update appends it to the history |
| `JokeBot.UpdateCategory` | main.py:53-72 | an index `0 <= i < 3` makes the merged state the old one with category `["neutral","chuck","all"][i]` and nothing else changed; an out-of-range or non-integer selection gives the empty update |
| `JokeBot.UpdateLanguage` | main.py:75-103 | an index `0 <= i < 6` makes the merged state the old one with the i-th code of en, de, es, gl, eu, it and nothing else changed; any other selection gives the empty update |
| `JokeBot.ResetJokes` | main.py:106-111 | the update contributes the empty list, and under the `add` reducer the merged state equals the old state, so the history is not cleared |
| `JokeBot.ClearHistory` | main.py:106-109 | the reset the docstring and the "Cleared N jokes" message describe: the history is empty and every other field is as before |
| `JokeBot.ExitBot` | main.py:114-119 | the merged state differs from the old one only in `quit`, which becomes true |
| `JokeBot.Route` | main.py:126-139 | the routing is total and never picks the menu: "n", "c", "l", "r" go to fetch, category, language and reset respectively (each if and only if), and every other choice, "q" and "" included, goes to `exit_bot` |
| `JokeBot.Successor` | main.py:146-183 | `exit_bot` is the one node whose edge leads to `END`; fetch, category, language and reset return to the menu; the menu's edge goes to `route_choice` of the merged state |
| `JokeBot.Execute` | main.py:33-119 | a node fails exactly when it must read a line and the input is exhausted (end of input), or when it is `fetch_joke` and the source raises; the three reading nodes consume one line and the others none; only `exit_bot` writes `quit`, and only `true` |
| `JokeBot.Step` | main.py:146-183 | a super-step never shortens the history (except that the intended reset empties it), leaves `quit` as it was except after `exit_bot`, which sets it, and reaches `END` exactly after `exit_bot` |
| `JokeBot.Run` | main.py:200-202 | with the reset as written, a run that reaches `END` ends with a history that extends the starting history |
| `JokeBot.Session` | main.py:200-202 | `graph.invoke(JokeState(), recursion_limit=100)`: a run from the defaults at `show_menu`, with the reset as written, bounded by 100 super-steps; a session that reaches `END` ends with `quit` set (its partner `SessionEndsConsistent` gives the rest of the final state) |
| `JokeBot.IntendedSession` | main.py:106-111 | the same session with the reset clearing the history; one that reaches `END` ends with `quit` set |
| `JokeBot.StartIsConsistent` | main.py:20-26 | the starting point (defaults, at the menu) satisfies the run invariant |
| `JokeBot.SelectionKeepsValid` | main.py:53-103 | from a valid state, any selection (valid, out of range or non-integer) leaves category and language in their listed sets |
| `JokeBot.StepKeepsConsistent` | main.py:146-183 | every super-step, with either reset, keeps the run invariant: category and language listed, every joke's category listed, `quit` set exactly at `END`, and `exit_bot`/`END` reached only after an exit choice |
| `JokeBot.RunKeepsConsistent` | main.py:146-183 | from a consistent point, a run that finishes ends in a valid state with `quit` set, and its last menu choice is "q" or an unrecognised one |
| `JokeBot.SessionEndsConsistent` | main.py:200-202 | every session from the defaults that reaches `END` ends with category and language in their lists, every joke's category listed, `quit` set, and an exit choice as the last choice read |
| `JokeBot.ExitChoiceEndsRun` | main.py:174-181 | at the menu, "q" or an unrecognised choice ends the run after `exit_bot`, changing only `jokes_choice` and `quit` and reading nothing more (the model stores any typed choice; see "Left out" on the `Literal` type of `jokes_choice`) |
| `JokeBot.ActionChoiceReturnsToMenu` | main.py:174-178 | at the menu, a recognised non-exit choice moves to its action node, which, if it does not raise, comes back to the menu with `quit` unchanged |
| `JokeBot.AfterFetchesAppends` | main.py:44-50 | when the source answers `k` draws in a row, `k` fetches append exactly `k` jokes after the old history, the i-th being the source's answer for draw `|jokes| + i` in the current language and category, and change nothing but the history and the last choice |
| `JokeBot.FetchRound` | main.py:44-50 | an "n" round appends one joke (`NextJoke`) of the current category and comes back to the menu with the rest of the input unread |
| `JokeBot.FetchRounds` | main.py:44-50 | `k >= 1` consecutive "n" rounds whose draws the source answers lead to the state `AfterFetches` describes, at the menu, after `2k` super-steps, with the input after the `k` choices unread |
| `JokeBot.FetchPlanFrom` | main.py:44-50 | `k` "n" lines ahead, `k` consecutive draws the source answers and `2k` super-steps to spare are enough for `FetchRounds` |
| `JokeBot.ResetRoundKeepsHistory` | main.py:106-111 | with the reset as written, an "r" round comes back to the menu with the history exactly as before |
| `JokeBot.ClearingResetRound` | main.py:106-111 | with the intended reset, an "r" round comes back to the menu with an empty history and nothing else changed |
| `JokeBot.ClearingResetIdempotent` | main.py:106-111 | with the intended reset, two "r" rounds in a row lead where one does: the reset is idempotent |
| `JokeBot.CategoryRound` | main.py:53-72 | a "c" round with a valid index selects that category, and with any other selection keeps it |
| `JokeBot.LanguageRound` | main.py:75-103 | an "l" round with a valid index selects that language code, and with any other selection keeps it |
| `JokeBotSessions.TwoFetches` | main.py:44-50 | the two "n" rounds of "n", "n", "r", "q" append the answers to draws `|jokes|` and `|jokes| + 1` and come back to the menu before the "r" |
| `JokeBotSessions.QuitFrom` | main.py:114-119 | from the menu, a lone "q" ends the run at `END` with `quit` set and nothing else changed but the last choice |
| `JokeBotSessions.ResetThenQuit` | main.py:106-111 | from the menu, "r", "q" with the reset as written ends at `END` with the history as it was |
| `JokeBotSessions.ClearingResetThenQuit` | main.py:106-111 | from the menu, "r", "q" with the intended reset ends at `END` with an empty history |
| `JokeBotSessions.ResetKeepsFetchedJokesFrom` | main.py:106-111 | from any state, with at least eight super-steps, "n", "n", "r", "q" ends at `END` with the two fetched jokes still appended to the history |
| `JokeBotSessions.ResetKeepsFetchedJokes` | main.py:22 | with a source answering "J" then "K", the session "n", "n", "r", "q" ends with both jokes in the history, not with an empty one |
| `JokeBotSessions.ClearingResetEmptiesHistoryFrom` | main.py:106-109 | from any state, with at least eight super-steps and the intended reset, "n", "n", "r", "q" ends at `END` with an empty history |
| `JokeBotSessions.ClearingResetEmptiesHistory` | main.py:106-109 | with the intended reset, the session "n", "n", "r", "q" ends with an empty history, as the reset's message promises |
| `JokeBotSessions.FetchThenQuit` | main.py:44-50 | from the menu, "n", "q" with a source that answers appends one joke of the current category and ends at `END` |
| `JokeBotSessions.ChuckRound` | main.py:53-72 | the "c", "1" round of "c", "1", "n", "q" sets category "chuck" and comes back to the menu |
| `JokeBotSessions.ChuckJokeFrom` | main.py:53-72 | from any state, with at least six super-steps, "c", "1", "n", "q" sets category "chuck" and appends one joke tagged "chuck" |
| `JokeBotSessions.ChuckJoke` | main.py:44-50 | the session "c", "1", "n", "q" ends with category "chuck" and exactly one joke, tagged "chuck" |
| `JokeBotSessions.FiftyFetchesHitStepLimit` | main.py:202 | a session that opens with fifty "n" choices the source answers stops at the step limit of 100, whatever follows, so a later "q" never reaches `exit_bot` |
| `JokeBotSessions.TypoQuits` | main.py:138-139 | an unrecognised first choice ends the session at once, with no action node visited and the rest of the input unread (the model stores any typed choice; see "Left out" on the `Literal` type of `jokes_choice`) |
| `JokeBotSessions.NoInputCrashes` | main.py:40 | with no input, the session stops with end of input at the first menu read |
| `JokeBotSessions.SourceFailureCrashes` | main.py:46 | a joke source that raises stops the session at the first "n" |

## Findings

| source | as written | input that shows it | evidently intended | confidence | as-written member | corrected member |
|---|---|---|---|---|---|---|
| main.py:111 (with main.py:22) | `reset_jokes` returns `{"jokes": []}`, and the `add` reducer merges it as `old + []`, so the history is kept | "n", "n", "r", "q" with a source that answers: the session ends with both jokes in the history | the history is emptied, as the docstring (main.py:107) and the message "Cleared N jokes from history!" (main.py:109) say | not executed | `JokeBotSessions.ResetKeepsFetchedJokes` | `JokeBotSessions.ClearingResetEmptiesHistory` (with `JokeBot.ClearHistory`, `JokeBot.ClearingResetRound` and `JokeBot.ClearingResetIdempotent`) |

## Left out

- `utils.py` (`get_prompt`, `format_prompt`): YAML file loading and string formatting, not used by `main.py`.
- All printed output: the menu banner, the jokes, confirmations, warnings and the closing summary in `main()`.
- Python's string handling: `.strip().lower()` and `int()` are not modelled. Each `Line` arrives with both readings already computed, and nothing ties the two together.
- `get_joke` picks a joke at random. The model takes a function of (language, category, draw index) instead, with the history length as the draw index. Every general lemma holds for every such function. The concrete sessions use a stub that answers "J" on even draws and "K" on odd ones. With the intended reset the history length, and so the draw index, starts again from zero after a reset.
- Which (language, category) pairs `get_joke` supports is the library's business. The model only lets the source raise, and the run then stops with `JokeSourceFailed`.
- Pydantic validation of `jokes_choice` against its `Literal["n", "c", "l", "r", "q"]` type (main.py:23) is not modelled. The model stores any typed choice. The runtime might reject a choice outside the `Literal` before `route_choice` reaches its default branch (main.py:138-139). In that case an unrecognised choice would raise instead of quitting, and `TypoQuits` and the unrecognised-choice half of `ExitChoiceEndsRun` would not describe the program. Whether LangGraph validates node updates against the state's Pydantic model is not settled here.
- LangGraph's runtime beyond the edge table and the reducer is not modelled. That covers compilation, checkpointing and the exact counting convention of `recursion_limit`. `Run` allows at most 100 node executions. Under that count a session stops with `RecursionLimit` once it has asked for fifty jokes (`FiftyFetchesHitStepLimit`); where exactly LangGraph cuts off depends on its own counting.
- Interrupts (Ctrl-C) and other exceptions from the console.
