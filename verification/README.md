# Code review bot: the review workflow

A Dafny model of the review workflow in `code_reviewer.py`. A coding question
and a user's solution go through a fixed graph of nodes:

- `language_detection` classifies the solution's language;
- the `python agent` or the `cpp agent` writes an optimized solution;
- `feedback` compares the two solutions;
- `user_review` asks whether the user is satisfied;
- `explanation` writes a detailed explanation and returns to `user_review`.

Every node except `user_review` renders a prompt template, calls the language
model, strips the completion (and lower-cases it for the language), and
writes exactly one key of the review state.

Files and modules:

- `wrappers.dfy` (`Wrappers`): `Option` and `Result`.
- `text.dfy` (`Text`): Python's `str.strip()` and `str.lower()` on ASCII. `Strip` is characterized as the unique trimmed string that the input pads with whitespace.
- `code_reviewer.dfy` (`CodeReviewer`), one member per function of the source:
  - the `State` record, with a dict view `Get`;
  - the engine's merge of a node's one-key result (`Apply`);
  - the five completion parsers, `HumanInLoop`, `RouteByLanguage` and `ReviewDecision`;
  - the edge table `Edges`, the prompt templates as data (`Prompt`), and one engine step (`Step`);
  - the fuel-bounded run (`Run`).
- `review_runs.dfy` (`ReviewRuns`): properties of every run from `language_detection`. These cover node order, which keys are set when, non-termination and determinism.
- `invoke.dfy` (`Invoke`): the loop behind `app.invoke(initial_state)`. It starts from the two form fields that app.py puts in the initial state.

Modelling assumptions:

- The language model is a parameter `model: Prompt -> Reply`. Its reply is a completion or a provider failure. A `Prompt` holds exactly the state fields its template substitutes, so the template text itself is not modelled.
- The merge semantics belong to the graph library, which is not part of this model. A node's returned one-key dict overwrites that key and keeps every other key. A conditional edge is evaluated on the state after that merge. `Apply` and `Step` state this assumption.
- The state is partial, as the Python dict is: `app.py` passes only `question` and `user_solution`. Every other key is an `Option` until a node writes it. A template variable missing from the state is an error (`MissingKey`), and so is reading `state["language"]` when the key is absent. `review_decision` reads `user_satisfied` with default `False`.
- A failed model call (`ProviderError`) ends the run with no state.
- `Run` applies at most `fuel` steps. END and errors are final.
- The model is a function of the prompt, so equal prompts get equal replies. Every explanation round renders the same prompt and therefore gets the same reply. The real service does not guarantee this.

Two consequences of the code that a reader of the prompts might not expect:

- The classification prompt (code_reviewer.py:23-28) asks for "python" or "cpp". `parse_language` (code_reviewer.py:30-31) stores any completion after strip and lower-casing, so "C++\n" is stored as "c++". Any value other than "python" routes to the cpp agent.
- `user_satisfied` is never set true. `human_in_loop` (code_reviewer.py:105-106) sets it to false before `review_decision` reads it. So even a start state holding true goes to `explanation`, and no run reaches END (`UserReviewGoesToExplanation`).

## Model

| member | source | states |
|---|---|---|
| Text.TrimStartSpec | code_reviewer.py:31 | The result is a suffix of the input. It does not start with whitespace, and everything removed is whitespace. |
| Text.TrimEndSpec | code_reviewer.py:31 | The result is a prefix of the input. It does not end with whitespace, and everything removed is whitespace. |
| Text.StripSpec | code_reviewer.py:31 | `strip()` yields a string with no whitespace at either end. The input is that string with only whitespace before and after it. |
| Text.StripCharacterized | code_reviewer.py:31 | `Strip(t) == w` exactly when `w` is trimmed and `t` is `w` padded with whitespace. The stripped value is therefore unique. |
| Text.LowerSpec | code_reviewer.py:31 | `lower()` keeps the length, lowers every character in place, and leaves no upper-case letter. |
| CodeReviewer.Apply | code_reviewer.py:13-20 | Merging a node's one-key result sets that key to the returned value. Every other key of the state keeps its value. |
| CodeReviewer.ParseLanguageSpec | code_reviewer.py:30-31 | The stored language is the trimmed text that the completion pads with whitespace, lowered character by character. It has no surrounding whitespace and no upper-case letter. It is "python" exactly when the completion spells "python", in any letter case, between whitespace. |
| CodeReviewer.LanguageIsPythonIff | code_reviewer.py:30-31 | Stripping and lower-casing a completion gives "python" exactly when the completion is "python" in some letter case, padded with whitespace (both directions). |
| CodeReviewer.ParsePythonSolutionSpec | code_reviewer.py:43-44 | Writes only `optimized_solution`. The value is trimmed, and the completion is that value padded with whitespace. |
| CodeReviewer.ParseCppSolutionSpec | code_reviewer.py:58-59 | Writes only `optimized_solution`. The value is trimmed, and the completion is that value padded with whitespace. |
| CodeReviewer.ParseFeedbackSpec | code_reviewer.py:77-78 | Writes only `feedback`. The value is trimmed, and the completion is that value padded with whitespace. |
| CodeReviewer.ParseExplanationSpec | code_reviewer.py:99-100 | Writes only `detailed_explanation`. The value is trimmed, and the completion is that value padded with whitespace. |
| CodeReviewer.HumanInLoop | code_reviewer.py:105-106 | Writes only `user_satisfied`. After the merge, the review decision always goes to `explanation`. |
| CodeReviewer.RouteByLanguage | code_reviewer.py:109-110 | The python agent is chosen exactly when `language` is "python". Any other present value goes to the cpp agent, including "", "c++" and "java". An absent key is an error. |
| CodeReviewer.ReviewDecision | code_reviewer.py:112-113 | END is chosen exactly when `user_satisfied` is present and true. Otherwise (false or absent) the decision is `explanation`. |
| CodeReviewer.RenderPrompt | code_reviewer.py:23-97 | Rendering a template fails exactly when the template is `feedback` or `explanation` and `optimized_solution` is absent. The error names that key. Which template each node renders along a run is stated by `AgentPromptFollowsLanguage`, `FeedbackPromptCarriesSolutions` and `ExplanationPromptCarriesSolutions`. |
| CodeReviewer.RenderReadsOnly | code_reviewer.py:23-97 | Each template is a function of the fields it substitutes and of nothing else. |
| CodeReviewer.Parse | code_reviewer.py:30-102 | The parser chained after each node writes that node's key. It stores the stripped completion, and for `language_detection` the stripped and lower-cased completion. |
| CodeReviewer.Action | code_reviewer.py:118-123 | A node's action writes that node's key. It fails exactly when the node calls the model and either its template misses a key or the model's reply is a provider error. The `user_review` action never fails. |
| CodeReviewer.ActionStoresParsedReply | code_reviewer.py:33-102 | A node that calls the model stores the parse of the model's reply to its own prompt: the stripped completion, lower-cased too for the language. |
| CodeReviewer.Successor | code_reviewer.py:125-139 | Every successor is an edge of the table `Edges`, the graph's edges at code_reviewer.py:125-139. Only the language routing can fail. |
| CodeReviewer.Step | code_reviewer.py:116-140 | A step follows an edge of the table. It sets the key its node writes and leaves every other key unchanged. The value written is stated by `StepStoresParsedReply`. |
| ReviewRuns.RunKeepsInputs | code_reviewer.py:116-140 | No run changes `question` or `user_solution`. |
| CodeReviewer.Run | code_reviewer.py:116-140 | A run started at END stays at END with the state unchanged, whatever the fuel. What a run from `language_detection` does is stated by `ErrorIsFinal`, `Reachable` and `RunsForever`. |
| ReviewRuns.StepFromExpected | code_reviewer.py:125-139 | From any point of a run, one more step fails only when the model's reply to that node's prompt is a provider error. Otherwise it lands at the node and with the keys the graph prescribes for the next step. |
| ReviewRuns.StepFailsOnlyOnProvider | code_reviewer.py:116-140 | Along a run every template finds its keys and the routing finds `language`. A step therefore fails only when the model's reply to the node's prompt is a provider error. |
| ReviewRuns.StepStoresParsedReply | code_reviewer.py:33-102 | The key a step writes holds the parse of the model's reply to that node's prompt: the stripped completion, lower-cased too for the language. |
| ReviewRuns.Reachable | code_reviewer.py:125-139 | After k steps, a run has failed on a provider error (never on a missing key) or it is at the node the graph prescribes for k. The nodes are: language detection, one agent, feedback, then user review at odd k and explanation at even k. The keys written by then are present. |
| ReviewRuns.ErrorIsFinal | code_reviewer.py:116-140 | A failed run stays failed with the same error, whatever fuel is added. |
| ReviewRuns.NeverReachesEnd | code_reviewer.py:105-139 | For every fuel value a run has not reached END. Any error it stopped on is a provider error. |
| ReviewRuns.RunsForever | code_reviewer.py:105-139 | With a model that always completes, a run has not failed and is not at END after any number of steps: the review loop goes on forever. |
| ReviewRuns.ExactlyOneAgent | code_reviewer.py:127-133 | An agent runs at step 1 and at no other step. It is the python agent exactly when the stored language is "python". |
| ReviewRuns.AgentPromptFollowsLanguage | code_reviewer.py:36-61 | The agent that runs renders the Python optimisation template exactly when the stored language is "python", and the C++ template otherwise. Both carry the question. |
| ReviewRuns.FeedbackPromptCarriesSolutions | code_reviewer.py:65-80 | After two steps the run is at `feedback`, and its prompt compares the user's solution with the optimized solution the agent stored. |
| ReviewRuns.ExplanationPromptCarriesSolutions | code_reviewer.py:83-102 | Every explanation round sends the question, the user's solution and the stored optimized solution. |
| ReviewRuns.FeedbackBeforeReview | code_reviewer.py:125-134 | Reaching `user_review` means language detection, one agent and feedback ran first, in that order. `optimized_solution` and `feedback` are then set. |
| ReviewRuns.ReviewLoopAlternates | code_reviewer.py:134-139 | From the first `user_review` on, every step alternates between `user_review` and `explanation`. |
| ReviewRuns.OnlyExplanationRewritten | code_reviewer.py:105-139 | Once the loop runs, a round of user review and explanation returns to the same node. It changes no key but `detailed_explanation`. |
| ReviewRuns.LoopRound | code_reviewer.py:105-139 | Two loop steps with `user_satisfied` false return to the same node and change no key but `detailed_explanation`. |
| ReviewRuns.UserReviewGoesToExplanation | code_reviewer.py:105-113 | `user_review` always goes to `explanation` with `user_satisfied` false. This holds even when the state held true. |
| ReviewRuns.ProviderFailureAborts | code_reviewer.py:33 | If the model fails on the classification prompt, every run of one or more steps ends in the provider error. |
| ReviewRuns.PaddedPythonParses | code_reviewer.py:30-31 | The completion " Python\n" is stored as "python". |
| ReviewRuns.PaddedPythonReplyRoutesToPython | code_reviewer.py:30-31 | The completion " Python\n" is stored as "python". The run then moves to the python agent with only `language` added. |
| ReviewRuns.StepLockstep | code_reviewer.py:116-140 | A node run on two states that agree on what its template reads has the same outcome. The results agree on one more key. |
| ReviewRuns.Deterministic | code_reviewer.py:109-139 | Two runs whose start states share `question` and `user_solution` fail alike or are at the same node. They agree on every key written so far, because every other key is written before it is read. |
| ReviewRuns.ExpectedHasKnown | code_reviewer.py:116-140 | Every key that determinism treats as written after `k` steps is present wherever the run can be after `k` steps. |
| ReviewRuns.SameInputsSameReview | code_reviewer.py:116-140 | From the fifth step on, two runs with the same question, solution and model are identical. |
| Invoke.InvokeReview | app.py:12-16 | The driver loop from the initial form state (`StartState`, `StartConfig`: only `question` and `user_solution`, at `language_detection`) computes `Run`. It returns either a provider error or a configuration that is not END, with the question unchanged. With a model that always completes it never returns an error. It returns the configuration after `fuel` steps. With `fuel` equal to the library's step limit, that is where `invoke` raises instead of returning, so app.py never receives a result from a run that neither fails nor ends. |

## Left out

- The Flask front end (`app.py` request handling and templates). It is I/O; only the initial state it builds is modelled.
- The Gemini client and the API key loading (code_reviewer.py:9-11). The model is an uninterpreted parameter.
- The prompt template texts. A `Prompt` records only the fields a template substitutes.
- The graph library's compile and invoke internals and its recursion limit. The library raises an error after a fixed number of steps; here `Run` takes an explicit fuel instead.
- Text.StripSpec: only ASCII whitespace (the characters Python's `isspace` accepts below 128) is stripped. Python also strips Unicode spaces.
- Text.LowerSpec: only ASCII `A`-`Z` are lowered. Python lowers every cased Unicode character.
- A form submission missing `question` or `user_solution` fails in the front end before the graph runs, so it is not modelled.
