/**
 * What every run of the review graph does: the order of the nodes, which keys
 * are written when, and that END is never reached.
 */
module ReviewRuns {
  import opened Wrappers
  import opened Text
  import opened CodeReviewer

  /** What holds after `k` steps from language detection, for a run that has
      not failed: the node reached and the keys written so far. */
  ghost predicate Expected(k: nat, c: Config, question: string, userSolution: string) {
    var s := c.state;
    && s.question == question && s.userSolution == userSolution
    && (k == 0 ==> c.node == LanguageDetection)
    && (k == 1 ==> (c.node == PythonAgent || c.node == CppAgent)
                   && (c.node == PythonAgent <==> s.language == Some("python")))
    && (k == 2 ==> c.node == Feedback)
    && (k >= 3 ==> c.node == LoopNode(k))
    && (k >= 1 ==> s.language.Some? && Trimmed(s.language.value) && NoUpper(s.language.value))
    && (k >= 2 ==> s.optimizedSolution.Some?)
    && (k >= 3 ==> s.feedback.Some?)
    && (k >= 4 ==> s.userSatisfied == Some(false))
    && (k >= 5 ==> s.detailedExplanation.Some?)
  }

  /** The node of the review loop after `k >= 3` steps. */
  function LoopNode(k: nat): Node {
    if IsOdd(k) then UserReview else Explanation
  }

  /** Parity by recursion: each loop round of a run unfolds it one step. */
  function IsOdd(k: nat): bool {
    k > 0 && !IsOdd(k - 1)
  }

  /** The review loop alternates. */
  lemma LoopNodeNext(k: nat)
    ensures LoopNode(k) == UserReview <==> LoopNode(k + 1) == Explanation
    ensures LoopNode(k) == UserReview || LoopNode(k) == Explanation
  {
  }

  /** After `k` steps a run either failed on a provider error or is where
      `Expected` says; a missing key never stops it. */
  lemma {:induction false} Reachable(model: Prompt -> Reply, s0: State, k: nat)
    ensures var r := Run(k, model, Config(LanguageDetection, s0));
            r == Err(ProviderFailed) || (r.Ok? && Expected(k, r.value, s0.question, s0.userSolution))
  {
    if k > 0 {
      Reachable(model, s0, k - 1);
      var prev := Run(k - 1, model, Config(LanguageDetection, s0));
      RunNext(model, Config(LanguageDetection, s0), k - 1);
      if prev.Ok? {
        StepFromExpected(model, k - 1, prev.value, s0.question, s0.userSolution);
      }
    }
  }

  /** One step from where `Expected` puts the run at `k` lands where it puts
      the run at `k + 1`, unless the provider fails. */
  lemma StepFromExpected(model: Prompt -> Reply, k: nat, d: Config, question: string, userSolution: string)
    requires Expected(k, d, question, userSolution)
    ensures d.node != End
    ensures var r := Step(model, d);
            r == Err(ProviderFailed) || (r.Ok? && Expected(k + 1, r.value, question, userSolution))
    ensures Step(model, d).Err? ==>
              CallsModel(d.node) && RenderPrompt(d.node, d.state).Ok?
              && model(RenderPrompt(d.node, d.state).value).ProviderError?
  {
    StepFailsOnlyOnProvider(model, k, d, question, userSolution);
    match d.node
    case LanguageDetection => StepFromLanguageDetection(model, k, d, question, userSolution);
    case PythonAgent => StepFromAgent(model, k, d, question, userSolution);
    case CppAgent => StepFromAgent(model, k, d, question, userSolution);
    case Feedback => StepFromFeedback(model, k, d, question, userSolution);
    case UserReview => StepFromUserReview(model, k, d, question, userSolution);
    case Explanation => StepFromExplanation(model, k, d, question, userSolution);
  }

  /** Along a run every template finds its keys and the routing finds
      `language`, so a step fails only when the model's reply to the node's
      prompt is a provider error. */
  lemma StepFailsOnlyOnProvider(model: Prompt -> Reply, k: nat, d: Config, question: string, userSolution: string)
    requires Expected(k, d, question, userSolution)
    ensures d.node != End
    ensures Step(model, d).Err? ==>
              CallsModel(d.node) && RenderPrompt(d.node, d.state).Ok?
              && model(RenderPrompt(d.node, d.state).value).ProviderError?
  {
    var n, s := d.node, d.state;
    if n != UserReview {
      assert RenderPrompt(n, s).Ok?;
    }
    var a := Action(model, n, s);
    if a.Ok? && n == LanguageDetection {
      var t := Apply(s, a.value);
      assert Get(t, LanguageField).Some?;
      assert RouteByLanguage(t).Ok?;
    }
  }

  lemma StepFromLanguageDetection(model: Prompt -> Reply, k: nat, d: Config, question: string, userSolution: string)
    requires d.node == LanguageDetection
    requires Expected(k, d, question, userSolution)
    ensures var r := Step(model, d);
            r == Err(ProviderFailed) || (r.Ok? && Expected(k + 1, r.value, question, userSolution))
  {
    assert d == Config(LanguageDetection, d.state);
    LanguageDetectionStep(model, d.state);
  }

  lemma StepFromAgent(model: Prompt -> Reply, k: nat, d: Config, question: string, userSolution: string)
    requires d.node == PythonAgent || d.node == CppAgent
    requires Expected(k, d, question, userSolution)
    ensures var r := Step(model, d);
            r == Err(ProviderFailed) || (r.Ok? && Expected(k + 1, r.value, question, userSolution))
  {
    assert d == Config(d.node, d.state);
    AgentStep(model, d.node, d.state);
  }

  lemma StepFromFeedback(model: Prompt -> Reply, k: nat, d: Config, question: string, userSolution: string)
    requires d.node == Feedback
    requires Expected(k, d, question, userSolution)
    ensures var r := Step(model, d);
            r == Err(ProviderFailed) || (r.Ok? && Expected(k + 1, r.value, question, userSolution))
  {
    assert d == Config(Feedback, d.state);
    FeedbackStep(model, d.state);
    var r := Step(model, d);
    if r.Ok? {
      var t := r.value.state;
      assert t.question == question && t.userSolution == userSolution;
      assert t.language == d.state.language && t.optimizedSolution == d.state.optimizedSolution;
      assert t.feedback.Some? && r.value.node == UserReview && LoopNode(3) == UserReview;
    }
  }

  lemma StepFromUserReview(model: Prompt -> Reply, k: nat, d: Config, question: string, userSolution: string)
    requires d.node == UserReview
    requires Expected(k, d, question, userSolution)
    ensures var r := Step(model, d);
            r == Err(ProviderFailed) || (r.Ok? && Expected(k + 1, r.value, question, userSolution))
  {
    assert d == Config(UserReview, d.state);
    UserReviewGoesToExplanation(model, d.state);
    LoopNodeNext(k);
  }

  lemma StepFromExplanation(model: Prompt -> Reply, k: nat, d: Config, question: string, userSolution: string)
    requires d.node == Explanation
    requires Expected(k, d, question, userSolution)
    ensures var r := Step(model, d);
            r == Err(ProviderFailed) || (r.Ok? && Expected(k + 1, r.value, question, userSolution))
  {
    assert d == Config(Explanation, d.state);
    ExplanationStep(model, d.state);
    var r := Step(model, d);
    if r.Ok? {
      ExplanationExpected(k, d.state, r.value.state, question, userSolution);
    }
  }

  lemma ExplanationExpected(k: nat, s: State, t: State, question: string, userSolution: string)
    requires Expected(k, Config(Explanation, s), question, userSolution)
    requires t == s.(detailedExplanation := t.detailedExplanation) && t.detailedExplanation.Some?
    ensures Expected(k + 1, Config(UserReview, t), question, userSolution)
  {
    LoopNodeNext(k);
  }

  lemma LanguageDetectionStep(model: Prompt -> Reply, s: State)
    ensures var r := Step(model, Config(LanguageDetection, s));
            && (r.Err? ==> r.error == ProviderFailed)
            && (r.Ok? ==> && r.value.state == s.(language := r.value.state.language)
                          && r.value.state.language.Some?
                          && Trimmed(r.value.state.language.value)
                          && NoUpper(r.value.state.language.value)
                          && (r.value.node == PythonAgent || r.value.node == CppAgent)
                          && (r.value.node == PythonAgent <==> r.value.state.language == Some("python")))
  {
    match model(ClassifyLanguage(s.userSolution)) {
      case ProviderError =>
      case Completion(cnt) => ParseLanguageSpec(cnt);
    }
  }

  lemma AgentStep(model: Prompt -> Reply, n: Node, s: State)
    requires n == PythonAgent || n == CppAgent
    ensures var r := Step(model, Config(n, s));
            && (r.Err? ==> r.error == ProviderFailed)
            && (r.Ok? ==> r.value == Config(Feedback, s.(optimizedSolution := r.value.state.optimizedSolution))
                          && r.value.state.optimizedSolution.Some?)
  {
  }

  lemma FeedbackStep(model: Prompt -> Reply, s: State)
    requires s.optimizedSolution.Some?
    ensures var r := Step(model, Config(Feedback, s));
            && (r.Err? ==> r.error == ProviderFailed)
            && (r.Ok? ==> r.value == Config(UserReview, s.(feedback := r.value.state.feedback))
                          && r.value.state.feedback.Some?)
  {
  }

  lemma ExplanationStep(model: Prompt -> Reply, s: State)
    requires s.optimizedSolution.Some?
    ensures var r := Step(model, Config(Explanation, s));
            && (r.Err? ==> r.error == ProviderFailed)
            && (r.Ok? ==> r.value == Config(UserReview, s.(detailedExplanation := r.value.state.detailedExplanation))
                          && r.value.state.detailedExplanation.Some?)
  {
  }

  /** A model that always completes keeps every run going: after any number
      of steps the run has not failed and is not at END. */
  lemma {:induction false} RunsForever(model: Prompt -> Reply, s0: State, k: nat)
    requires forall p :: model(p).Completion?
    ensures Run(k, model, Config(LanguageDetection, s0)).Ok?
    ensures Run(k, model, Config(LanguageDetection, s0)).value.node != End
  {
    var c := Config(LanguageDetection, s0);
    if k > 0 {
      RunsForever(model, s0, k - 1);
      Reachable(model, s0, k - 1);
      RunNext(model, c, k - 1);
      var d := Run(k - 1, model, c).value;
      StepFromExpected(model, k - 1, d, s0.question, s0.userSolution);
    }
    NeverReachesEnd(model, s0, k);
  }

  /** One more unit of fuel runs one more step, unless the run has failed or ended. */
  lemma RunNext(model: Prompt -> Reply, c: Config, k: nat)
    ensures Run(k + 1, model, c) ==
      (if Run(k, model, c).Err? || Run(k, model, c).value.node == End then Run(k, model, c)
       else Step(model, Run(k, model, c).value))
  {
  }

  /** No run changes the two inputs, from any start node. */
  lemma {:induction false} RunKeepsInputs(model: Prompt -> Reply, c: Config, k: nat)
    requires Run(k, model, c).Ok?
    ensures Run(k, model, c).value.state.question == c.state.question
    ensures Run(k, model, c).value.state.userSolution == c.state.userSolution
  {
    if k > 0 {
      var p := Run(k - 1, model, c);
      RunNext(model, c, k - 1);
      assert p.Ok?;
      RunKeepsInputs(model, c, k - 1);
      if p.value.node != End {
        StepKeepsInputs(model, p.value);
      }
    }
  }

  /** One step never writes the two inputs. */
  lemma StepKeepsInputs(model: Prompt -> Reply, d: Config)
    requires d.node != End && Step(model, d).Ok?
    ensures Step(model, d).value.state.question == d.state.question
    ensures Step(model, d).value.state.userSolution == d.state.userSolution
  {
    var r := Step(model, d).value;
    assert Get(r.state, QuestionField) == Get(d.state, QuestionField);
    assert Get(r.state, UserSolutionField) == Get(d.state, UserSolutionField);
  }

  /** An error ends the run: more fuel returns the same error. */
  lemma {:induction false} ErrorIsFinal(model: Prompt -> Reply, c: Config, j: nat, k: nat)
    requires j <= k
    requires Run(j, model, c).Err?
    ensures Run(k, model, c) == Run(j, model, c)
  {
    if j < k {
      ErrorIsFinal(model, c, j, k - 1);
    }
  }

  /** A run that has not failed after `k` steps had not failed before. */
  lemma OkBefore(model: Prompt -> Reply, c: Config, j: nat, k: nat)
    requires j <= k
    requires Run(k, model, c).Ok?
    ensures Run(j, model, c).Ok?
  {
    if Run(j, model, c).Err? {
      ErrorIsFinal(model, c, j, k);
    }
  }

  /** Non-termination: with any fuel, a run from language detection has not
      reached END; it has failed or is still at a node that runs. */
  lemma NeverReachesEnd(model: Prompt -> Reply, s0: State, k: nat)
    ensures var r := Run(k, model, Config(LanguageDetection, s0));
            r.Err? ==> r.error == ProviderFailed
    ensures var r := Run(k, model, Config(LanguageDetection, s0));
            r.Ok? ==> r.value.node != End
  {
    Reachable(model, s0, k);
  }

  /** Exactly one of the two agents runs, and it runs second; the python
      agent is chosen exactly when the stored language is "python". */
  lemma ExactlyOneAgent(model: Prompt -> Reply, s0: State, k: nat)
    requires Run(k, model, Config(LanguageDetection, s0)).Ok?
    ensures var c := Run(k, model, Config(LanguageDetection, s0)).value;
            (c.node == PythonAgent || c.node == CppAgent) <==> k == 1
    ensures var c := Run(k, model, Config(LanguageDetection, s0)).value;
            c.node == PythonAgent <==> k == 1 && c.state.language == Some("python")
  {
    Reachable(model, s0, k);
  }

  /** A step stores the parse of the model's reply to the node's own prompt:
      the stripped completion, lower-cased too for the language. */
  lemma StepStoresParsedReply(model: Prompt -> Reply, d: Config)
    requires d.node != End && CallsModel(d.node) && Step(model, d).Ok?
    ensures RenderPrompt(d.node, d.state).Ok?
    ensures model(RenderPrompt(d.node, d.state).value).Completion?
    ensures var c := model(RenderPrompt(d.node, d.state).value).content;
            Get(Step(model, d).value.state, WrittenField(d.node))
              == Some(Str(if d.node == LanguageDetection then Lower(Strip(c)) else Strip(c)))
  {
    var a := Action(model, d.node, d.state);
    assert a.Ok?;
    ActionStoresParsedReply(model, d.node, d.state);
    assert Step(model, d).value.state == Apply(d.state, a.value);
  }

  /** The agent that runs renders the python template exactly when the stored
      language is "python", and the C++ template otherwise; both carry the
      question. */
  lemma AgentPromptFollowsLanguage(model: Prompt -> Reply, s0: State)
    requires Run(1, model, Config(LanguageDetection, s0)).Ok?
    ensures var c := Run(1, model, Config(LanguageDetection, s0)).value;
            CallsModel(c.node)
            && RenderPrompt(c.node, c.state)
               == Ok(if c.state.language == Some("python") then OptimizePython(s0.question)
                     else OptimizeCpp(s0.question))
  {
    Reachable(model, s0, 1);
  }

  /** The feedback node compares the user's solution with the optimized
      solution the agent stored. */
  lemma FeedbackPromptCarriesSolutions(model: Prompt -> Reply, s0: State)
    requires Run(2, model, Config(LanguageDetection, s0)).Ok?
    ensures var c := Run(2, model, Config(LanguageDetection, s0)).value;
            c.node == Feedback && c.state.optimizedSolution.Some?
            && RenderPrompt(Feedback, c.state)
               == Ok(CompareSolutions(s0.userSolution, c.state.optimizedSolution.value))
  {
    Reachable(model, s0, 2);
  }

  /** Every explanation round sends the question, the user's solution and the
      stored optimized solution. */
  lemma ExplanationPromptCarriesSolutions(model: Prompt -> Reply, s0: State, k: nat)
    requires Run(k, model, Config(LanguageDetection, s0)).Ok?
    requires Run(k, model, Config(LanguageDetection, s0)).value.node == Explanation
    ensures var c := Run(k, model, Config(LanguageDetection, s0)).value;
            c.state.optimizedSolution.Some?
            && RenderPrompt(Explanation, c.state)
               == Ok(ExplainMistakes(s0.question, s0.userSolution, c.state.optimizedSolution.value))
  {
    Reachable(model, s0, k);
  }

  /** Before the first user review the run has visited language detection,
      one agent and feedback, in that order, so `optimized_solution` and
      `feedback` are set whenever user review is reached. */
  lemma FeedbackBeforeReview(model: Prompt -> Reply, s0: State, k: nat)
    requires Run(k, model, Config(LanguageDetection, s0)).Ok?
    requires Run(k, model, Config(LanguageDetection, s0)).value.node == UserReview
    ensures k >= 3
    ensures Run(0, model, Config(LanguageDetection, s0)).value.node == LanguageDetection
    ensures Run(1, model, Config(LanguageDetection, s0)).Ok?
    ensures Run(1, model, Config(LanguageDetection, s0)).value.node in {PythonAgent, CppAgent}
    ensures Run(2, model, Config(LanguageDetection, s0)).Ok?
    ensures Run(2, model, Config(LanguageDetection, s0)).value.node == Feedback
    ensures Run(k, model, Config(LanguageDetection, s0)).value.state.optimizedSolution.Some?
    ensures Run(k, model, Config(LanguageDetection, s0)).value.state.feedback.Some?
  {
    var c := Config(LanguageDetection, s0);
    Reachable(model, s0, k);
    OkBefore(model, c, 1, k);
    OkBefore(model, c, 2, k);
    Reachable(model, s0, 1);
    Reachable(model, s0, 2);
  }

  /** From the first user review on, the run alternates between user review
      and explanation. */
  lemma ReviewLoopAlternates(model: Prompt -> Reply, s0: State, k: nat)
    requires k >= 3
    requires Run(k + 1, model, Config(LanguageDetection, s0)).Ok?
    ensures Run(k, model, Config(LanguageDetection, s0)).Ok?
    ensures var n := Run(k, model, Config(LanguageDetection, s0)).value.node;
            var m := Run(k + 1, model, Config(LanguageDetection, s0)).value.node;
            (n == UserReview && m == Explanation) || (n == Explanation && m == UserReview)
  {
    OkBefore(model, Config(LanguageDetection, s0), k, k + 1);
    Reachable(model, s0, k);
    Reachable(model, s0, k + 1);
  }

  /** Once the loop is running, one round of user review and explanation
      rewrites `detailed_explanation` and leaves every other key as it was. */
  lemma OnlyExplanationRewritten(model: Prompt -> Reply, s0: State, k: nat)
    requires k >= 4
    requires Run(k + 2, model, Config(LanguageDetection, s0)).Ok?
    ensures Run(k, model, Config(LanguageDetection, s0)).Ok?
    ensures var a := Run(k, model, Config(LanguageDetection, s0)).value;
            var b := Run(k + 2, model, Config(LanguageDetection, s0)).value;
            a.node == b.node &&
            forall f :: f != ExplanationField ==> Get(b.state, f) == Get(a.state, f)
  {
    var c := Config(LanguageDetection, s0);
    OkBefore(model, c, k, k + 2);
    OkBefore(model, c, k + 1, k + 2);
    Reachable(model, s0, k);
    Reachable(model, s0, k + 1);
    var a, m, b := Run(k, model, c).value, Run(k + 1, model, c).value, Run(k + 2, model, c).value;
    RunStepsOk(model, c, k);
    RunStepsOk(model, c, k + 1);
    LoopRound(model, a, m, b);
  }

  /** A run that is still going after `k + 1` steps took its last step from
      where it was after `k`. */
  lemma RunStepsOk(model: Prompt -> Reply, c: Config, k: nat)
    requires Run(k + 1, model, c).Ok? && Run(k, model, c).Ok?
    requires Run(k, model, c).value.node != End
    ensures Step(model, Run(k, model, c).value) == Run(k + 1, model, c)
  {
    RunNext(model, c, k);
  }

  /** Two steps inside the review loop, once `user_satisfied` is false. */
  lemma LoopRound(model: Prompt -> Reply, a: Config, m: Config, b: Config)
    requires a.node == UserReview || a.node == Explanation
    requires a.state.userSatisfied == Some(false)
    requires Step(model, a) == Ok(m) && m.node != End && Step(model, m) == Ok(b)
    ensures a.node == b.node
    ensures forall f :: f != ExplanationField ==> Get(b.state, f) == Get(a.state, f)
  {
    assert {a.node, m.node} == {UserReview, Explanation};
    assert m.state.userSatisfied == Some(false);
    assert b.state.userSatisfied == Some(false);
    forall f | f != ExplanationField
      ensures Get(b.state, f) == Get(a.state, f)
    {
      if f != SatisfiedField {
        assert Get(m.state, f) == Get(a.state, f);
      }
    }
  }

  /** human_in_loop overrides whatever the state held: even a state whose
      `user_satisfied` is true goes on to the explanation. */
  lemma UserReviewGoesToExplanation(model: Prompt -> Reply, s: State)
    ensures Step(model, Config(UserReview, s)) == Ok(Config(Explanation, s.(userSatisfied := Some(false))))
  {
  }

  /** A provider failure on the first call aborts the run with no state. */
  lemma ProviderFailureAborts(model: Prompt -> Reply, s0: State, k: nat)
    requires model(ClassifyLanguage(s0.userSolution)) == ProviderError
    requires k >= 1
    ensures Run(k, model, Config(LanguageDetection, s0)) == Err(ProviderFailed)
  {
    var c := Config(LanguageDetection, s0);
    assert Run(1, model, c) == Err(ProviderFailed);
    ErrorIsFinal(model, c, 1, k);
  }

  /** A completion " Python\n" is stored as "python". */
  lemma PaddedPythonParses()
    ensures ParseLanguage(" Python\n") == SetLanguage("python")
  {
    var t := " Python\n";
    assert Lower(t[1..7]) == "python" by {
      assert t[1..7] == "Python";
      LowerSpec("Python");
    }
    assert AllSpace(t[..1]) && AllSpace(t[7..]);
    assert SpellsPython(t);
    ParseLanguageSpec(t);
  }

  /** ...so that reply routes the run to the python agent, with only
      `language` added to the state. */
  lemma PaddedPythonReplyRoutesToPython(model: Prompt -> Reply, question: string, userSolution: string)
    requires model(ClassifyLanguage(userSolution)) == Completion(" Python\n")
    ensures Run(1, model, StartConfig(question, userSolution))
         == Ok(Config(PythonAgent, StartState(question, userSolution).(language := Some("python"))))
  {
    PaddedPythonParses();
    RunNext(model, StartConfig(question, userSolution), 0);
  }

  // ---------------------------------------------------------------------------
  // Determinism

  /** The keys every run has written after `k` steps, with the two inputs. */
  function Known(k: nat): set<Field> {
    {QuestionField, UserSolutionField}
    + (if k >= 1 then {LanguageField} else {})
    + (if k >= 2 then {OptimizedSolutionField} else {})
    + (if k >= 3 then {FeedbackField} else {})
    + (if k >= 4 then {SatisfiedField} else {})
    + (if k >= 5 then {ExplanationField} else {})
  }

  /** `Known` and `Expected` follow the same schedule: every key known after
      `k` steps is present in a state where `Expected` puts the run. */
  lemma ExpectedHasKnown(k: nat, c: Config, question: string, userSolution: string)
    requires Expected(k, c, question, userSolution)
    ensures forall f :: f in Known(k) ==> Get(c.state, f).Some?
  {
  }

  /** Two runs after `k` steps: the same error, or the same node with the
      same value for every key written so far. */
  ghost predicate Lockstep(k: nat, r1: Result<Config, Error>, r2: Result<Config, Error>) {
    && r1.Err? == r2.Err?
    && (r1.Err? ==> r1 == r2)
    && (r1.Ok? ==> r1.value.node == r2.value.node
                   && AgreeOn(r1.value.state, r2.value.state, Known(k)))
  }

  /** At every point of a run, the keys known so far include those the next
      template reads, and the next write completes the keys known one step on. */
  lemma KnownCoversReads(k: nat, c: Config, question: string, userSolution: string)
    requires Expected(k, c, question, userSolution)
    ensures c.node != End
    ensures CallsModel(c.node) ==> ReadSet(c.node) <= Known(k)
    ensures Known(k + 1) <= Known(k) + {WrittenField(c.node)}
  {
  }

  lemma AgreeOnSubset(s1: State, s2: State, fs: set<Field>, gs: set<Field>)
    requires AgreeOn(s1, s2, fs) && gs <= fs
    ensures AgreeOn(s1, s2, gs)
  {
  }

  /** After five steps every key is known. */
  lemma KnownAll(k: nat)
    requires k >= 5
    ensures forall f :: f in Known(k)
  {
    forall f
      ensures f in Known(k)
    {
      match f
      case QuestionField =>
      case UserSolutionField =>
      case LanguageField =>
      case OptimizedSolutionField =>
      case FeedbackField =>
      case ExplanationField =>
      case SatisfiedField =>
    }
  }

  /** A node run on two states that agree on what its template reads gives the
      same outcome, and the results agree on one more key: the one it wrote. */
  lemma StepLockstep(model: Prompt -> Reply, n: Node, s1: State, s2: State, fs: set<Field>)
    requires n != End
    requires AgreeOn(s1, s2, fs)
    requires CallsModel(n) ==> ReadSet(n) <= fs
    ensures var r1, r2 := Step(model, Config(n, s1)), Step(model, Config(n, s2));
            && r1.Err? == r2.Err?
            && (r1.Err? ==> r1 == r2)
            && (r1.Ok? ==> r1.value.node == r2.value.node
                           && AgreeOn(r1.value.state, r2.value.state, fs + {WrittenField(n)}))
  {
    if CallsModel(n) {
      RenderReadsOnly(n, s1, s2);
    }
    assert Action(model, n, s1) == Action(model, n, s2);
    var a := Action(model, n, s1);
    if a.Ok? {
      var u := a.value;
      var t1, t2 := Apply(s1, u), Apply(s2, u);
      assert AgreeOn(t1, t2, fs + {WrittenField(n)}) by {
        forall f | f in fs + {WrittenField(n)}
          ensures Get(t1, f) == Get(t2, f)
        {
          if f != u.Key() {
            assert Get(t1, f) == Get(s1, f) && Get(t2, f) == Get(s2, f);
          }
        }
      }
      assert Get(t1, u.Key()) == Get(t2, u.Key());
      assert n == LanguageDetection ==> t1.language == t2.language;
      assert n == UserReview ==> t1.userSatisfied == t2.userSatisfied;
      assert Successor(n, t1) == Successor(n, t2);
    }
  }

  /** Determinism: two runs from language detection whose states share
      `question` and `user_solution` move in lockstep, whatever else the
      states held, since every other key is written before it is read. */
  lemma {:induction false} Deterministic(model: Prompt -> Reply, s1: State, s2: State, k: nat)
    requires s1.question == s2.question && s1.userSolution == s2.userSolution
    ensures Lockstep(k, Run(k, model, Config(LanguageDetection, s1)),
                        Run(k, model, Config(LanguageDetection, s2)))
  {
    var c1, c2 := Config(LanguageDetection, s1), Config(LanguageDetection, s2);
    if k == 0 {
      assert AgreeOn(s1, s2, Known(0)) by {
        assert Get(s1, QuestionField) == Get(s2, QuestionField);
        assert Get(s1, UserSolutionField) == Get(s2, UserSolutionField);
      }
    } else {
      Deterministic(model, s1, s2, k - 1);
      RunNext(model, c1, k - 1);
      RunNext(model, c2, k - 1);
      var p1, p2 := Run(k - 1, model, c1), Run(k - 1, model, c2);
      if p1.Ok? {
        Reachable(model, s1, k - 1);
        var n := p1.value.node;
        KnownCoversReads(k - 1, p1.value, s1.question, s1.userSolution);
        StepLockstep(model, n, p1.value.state, p2.value.state, Known(k - 1));
        var r1, r2 := Run(k, model, c1), Run(k, model, c2);
        if r1.Ok? {
          AgreeOnSubset(r1.value.state, r2.value.state, Known(k - 1) + {WrittenField(n)}, Known(k));
        }
      }
    }
  }

  /** Every key has the same value: the same state. */
  lemma SameKeysSameState(s1: State, s2: State)
    requires forall f :: Get(s1, f) == Get(s2, f)
    ensures s1 == s2
  {
    assert Get(s1, QuestionField) == Get(s2, QuestionField);
    assert Get(s1, UserSolutionField) == Get(s2, UserSolutionField);
    assert Get(s1, LanguageField) == Get(s2, LanguageField);
    assert Get(s1, OptimizedSolutionField) == Get(s2, OptimizedSolutionField);
    assert Get(s1, FeedbackField) == Get(s2, FeedbackField);
    assert Get(s1, ExplanationField) == Get(s2, ExplanationField);
    assert Get(s1, SatisfiedField) == Get(s2, SatisfiedField);
  }

  /** From the fifth step on, two runs on the same question and solution
      against the same model are identical. */
  lemma SameInputsSameReview(model: Prompt -> Reply, s1: State, s2: State, k: nat)
    requires s1.question == s2.question && s1.userSolution == s2.userSolution
    requires k >= 5
    ensures Run(k, model, Config(LanguageDetection, s1)) == Run(k, model, Config(LanguageDetection, s2))
  {
    Deterministic(model, s1, s2, k);
    var r1, r2 := Run(k, model, Config(LanguageDetection, s1)), Run(k, model, Config(LanguageDetection, s2));
    if r1.Ok? {
      KnownAll(k);
      SameKeysSameState(r1.value.state, r2.value.state);
    }
  }
}
