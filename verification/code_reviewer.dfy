/**
 * The review workflow of code_reviewer.py: the `CodeReviewState` record, the
 * completion parsers, the human-in-the-loop node, the two routing functions and
 * the fixed graph, driven step by step against an uninterpreted language model.
 *
 * Modelling assumption about the graph engine (LangGraph, not part of this
 * model): a node returns a dict with one key, and the engine overwrites that key
 * in the state and keeps every other key; a conditional edge is evaluated on the
 * state after that merge.
 */
module CodeReviewer {
  import opened Wrappers
  import opened Text

  /** The review state. Only `question` and `userSolution` are present from the
      start; every other key is absent until a node writes it. */
  datatype State = State(
    question: string,
    userSolution: string,
    language: Option<string>,
    optimizedSolution: Option<string>,
    feedback: Option<string>,
    detailedExplanation: Option<string>,
    userSatisfied: Option<bool>)

  /** The keys of the state dict. */
  datatype Field =
    | QuestionField
    | UserSolutionField
    | LanguageField
    | OptimizedSolutionField
    | FeedbackField
    | ExplanationField
    | SatisfiedField

  datatype Value = Str(text: string) | Flag(flag: bool)

  /** The state seen as the dict the engine holds: `state.get(key)`. */
  function Get(s: State, f: Field): Option<Value> {
    match f
    case QuestionField => Some(Str(s.question))
    case UserSolutionField => Some(Str(s.userSolution))
    case LanguageField => if s.language.Some? then Some(Str(s.language.value)) else None
    case OptimizedSolutionField =>
      if s.optimizedSolution.Some? then Some(Str(s.optimizedSolution.value)) else None
    case FeedbackField => if s.feedback.Some? then Some(Str(s.feedback.value)) else None
    case ExplanationField =>
      if s.detailedExplanation.Some? then Some(Str(s.detailedExplanation.value)) else None
    case SatisfiedField => if s.userSatisfied.Some? then Some(Flag(s.userSatisfied.value)) else None
  }

  /** The one-key dict a node returns. */
  datatype Update =
    | SetLanguage(language: string)
    | SetOptimizedSolution(solution: string)
    | SetFeedback(feedback: string)
    | SetDetailedExplanation(explanation: string)
    | SetUserSatisfied(satisfied: bool)
  {
    /** The key this update writes; never one of the two inputs. */
    function Key(): (f: Field)
      ensures f != QuestionField && f != UserSolutionField
    {
      match this
      case SetLanguage(_) => LanguageField
      case SetOptimizedSolution(_) => OptimizedSolutionField
      case SetFeedback(_) => FeedbackField
      case SetDetailedExplanation(_) => ExplanationField
      case SetUserSatisfied(_) => SatisfiedField
    }

    function Val(): Value {
      match this
      case SetLanguage(v) => Str(v)
      case SetOptimizedSolution(v) => Str(v)
      case SetFeedback(v) => Str(v)
      case SetDetailedExplanation(v) => Str(v)
      case SetUserSatisfied(b) => Flag(b)
    }
  }

  /** The engine's merge of a node's result: the returned key is overwritten,
      every other key keeps its value. */
  function Apply(s: State, u: Update): (t: State)
    ensures Get(t, u.Key()) == Some(u.Val())
    ensures forall f :: f != u.Key() ==> Get(t, f) == Get(s, f)
  {
    match u
    case SetLanguage(v) => s.(language := Some(v))
    case SetOptimizedSolution(v) => s.(optimizedSolution := Some(v))
    case SetFeedback(v) => s.(feedback := Some(v))
    case SetDetailedExplanation(v) => s.(detailedExplanation := Some(v))
    case SetUserSatisfied(b) => s.(userSatisfied := Some(b))
  }

  // ---------------------------------------------------------------------------
  // Completion parsers and the human-in-the-loop node

  /** `t` is the word "python" in any letter case, with any whitespace around it. */
  ghost predicate SpellsPython(t: string) {
    exists lo, hi :: 0 <= lo <= hi <= |t| && Lower(t[lo..hi]) == "python"
                     && AllSpace(t[..lo]) && AllSpace(t[hi..])
  }

  /** parse_language: the completion, stripped and lower-cased, as `language`. */
  function ParseLanguage(content: string): Update {
    SetLanguage(Lower(Strip(content)))
  }

  /** The stored language is the trimmed text the completion pads, with every
      letter lowered in place; it is "python" exactly when the completion
      spells "python". */
  lemma ParseLanguageSpec(content: string)
    ensures ParseLanguage(content).SetLanguage?
    ensures var lang := ParseLanguage(content).language;
            exists w :: Trimmed(w) && PaddedBy(content, w) && |lang| == |w|
                        && forall i :: 0 <= i < |w| ==> lang[i] == LowerChar(w[i])
    ensures var lang := ParseLanguage(content).language;
            Trimmed(lang) && NoUpper(lang) && (lang == "python" <==> SpellsPython(content))
  {
    StripSpec(content);
    LowerKeepsTrimmed(Strip(content));
    LowerSpec(Strip(content));
    LanguageIsPythonIff(content);
  }

  /** The stripped, lower-cased completion is "python" exactly when the
      completion spells "python" in some letter case between whitespace. */
  lemma LanguageIsPythonIff(t: string)
    ensures Lower(Strip(t)) == "python" <==> SpellsPython(t)
  {
    if Lower(Strip(t)) == "python" {
      StrippedPythonSpells(t);
    }
    if SpellsPython(t) {
      var lo, hi :| 0 <= lo <= hi <= |t| && Lower(t[lo..hi]) == "python"
                    && AllSpace(t[..lo]) && AllSpace(t[hi..]);
      PaddedPythonStrips(t, lo, hi);
    }
  }

  lemma StrippedPythonSpells(t: string)
    requires Lower(Strip(t)) == "python"
    ensures SpellsPython(t)
  {
    var w := Strip(t);
    StripSpec(t);
    var lo :| 0 <= lo <= |t| - |w| && t[lo..lo + |w|] == w
              && AllSpace(t[..lo]) && AllSpace(t[lo + |w|..]);
    assert Lower(t[lo..lo + |w|]) == "python";
  }

  lemma PaddedPythonStrips(t: string, lo: nat, hi: nat)
    requires lo <= hi <= |t| && Lower(t[lo..hi]) == "python"
    requires AllSpace(t[..lo]) && AllSpace(t[hi..])
    ensures Strip(t) == t[lo..hi]
  {
    var v := t[lo..hi];
    LowerSpec(v);
    assert |v| == 6;
    assert LowerChar(v[0]) == Lower(v)[0] == 'p';
    assert LowerChar(v[5]) == Lower(v)[5] == 'n';
    assert Trimmed(v);
    assert PaddedBy(t, v);
    StripCharacterized(t, v);
  }

  /** parse_python_solution: the stripped completion as `optimized_solution`. */
  function ParsePythonSolution(content: string): Update {
    SetOptimizedSolution(Strip(content))
  }

  /** parse_cpp_solution: the stripped completion as `optimized_solution`. */
  function ParseCppSolution(content: string): Update {
    SetOptimizedSolution(Strip(content))
  }

  /** parse_feedback: the stripped completion as `feedback`. */
  function ParseFeedback(content: string): Update {
    SetFeedback(Strip(content))
  }

  /** parse_explanation: the stripped completion as `detailed_explanation`. */
  function ParseExplanation(content: string): Update {
    SetDetailedExplanation(Strip(content))
  }

  /** Each solution parser stores the completion without its surrounding
      whitespace: a trimmed text that the completion pads. */
  lemma ParsePythonSolutionSpec(content: string)
    ensures ParsePythonSolution(content).SetOptimizedSolution?
    ensures var v := ParsePythonSolution(content).solution; Trimmed(v) && PaddedBy(content, v)
  {
    StripSpec(content);
  }

  lemma ParseCppSolutionSpec(content: string)
    ensures ParseCppSolution(content).SetOptimizedSolution?
    ensures var v := ParseCppSolution(content).solution; Trimmed(v) && PaddedBy(content, v)
  {
    StripSpec(content);
  }

  /** The feedback parser stores the completion without its surrounding whitespace. */
  lemma ParseFeedbackSpec(content: string)
    ensures ParseFeedback(content).SetFeedback?
    ensures var v := ParseFeedback(content).feedback; Trimmed(v) && PaddedBy(content, v)
  {
    StripSpec(content);
  }

  /** The explanation parser stores the completion without its surrounding whitespace. */
  lemma ParseExplanationSpec(content: string)
    ensures ParseExplanation(content).SetDetailedExplanation?
    ensures var v := ParseExplanation(content).explanation; Trimmed(v) && PaddedBy(content, v)
  {
    StripSpec(content);
  }

  // ---------------------------------------------------------------------------
  // Nodes, routing and the edge table

  datatype Node =
    | LanguageDetection
    | PythonAgent
    | CppAgent
    | Feedback
    | UserReview
    | Explanation
    | End

  /** The nodes that render a prompt and call the model. */
  predicate CallsModel(n: Node) {
    n != UserReview && n != End
  }

  /** route_by_language: the python agent exactly when `language` is "python";
      reading `state["language"]` fails when the key is absent. */
  function RouteByLanguage(s: State): (r: Result<Node, Field>)
    ensures r == Ok(PythonAgent) <==> s.language == Some("python")
    ensures r == Ok(CppAgent) <==> s.language.Some? && s.language.value != "python"
    ensures r.Err? <==> s.language.None?
    ensures r.Err? ==> r.error == LanguageField
  {
    match s.language
    case None => Err(LanguageField)
    case Some(lang) => if lang == "python" then Ok(PythonAgent) else Ok(CppAgent)
  }

  /** review_decision: END only when `user_satisfied` is present and true;
      an absent key counts as false. */
  function ReviewDecision(s: State): (n: Node)
    ensures n == End <==> s.userSatisfied == Some(true)
    ensures n != End ==> n == Explanation
  {
    if s.userSatisfied.Some? && s.userSatisfied.value then End else Explanation
  }

  /** human_in_loop: always reports the user as not satisfied, so the decision
      that follows it goes to the explanation, whatever the state held. */
  function HumanInLoop(s: State): (u: Update)
    ensures u.Key() == SatisfiedField
    ensures ReviewDecision(Apply(s, u)) == Explanation
  {
    SetUserSatisfied(false)
  }

  /** The edges added to the builder, START's edge aside. */
  const Edges: set<(Node, Node)> := {
    (LanguageDetection, PythonAgent), (LanguageDetection, CppAgent),
    (PythonAgent, Feedback), (CppAgent, Feedback),
    (Feedback, UserReview),
    (UserReview, End), (UserReview, Explanation),
    (Explanation, UserReview)
  }

  // ---------------------------------------------------------------------------
  // The model gateway

  /** A rendered prompt, holding the state fields its template substitutes. */
  datatype Prompt =
    | ClassifyLanguage(userSolution: string)
    | OptimizePython(question: string)
    | OptimizeCpp(question: string)
    | CompareSolutions(userSolution: string, optimizedSolution: string)
    | ExplainMistakes(question: string, userSolution: string, optimizedSolution: string)

  /** The model's answer: a completion, or a provider failure. */
  datatype Reply = Completion(content: string) | ProviderError

  /** Why a run stops before END. */
  datatype Error =
    | ProviderFailed
    | MissingKey(field: Field)

  /** The fields a node's prompt template reads. */
  function ReadSet(n: Node): set<Field>
    requires CallsModel(n)
  {
    match n
    case LanguageDetection => {UserSolutionField}
    case PythonAgent => {QuestionField}
    case CppAgent => {QuestionField}
    case Feedback => {UserSolutionField, OptimizedSolutionField}
    case Explanation => {QuestionField, UserSolutionField, OptimizedSolutionField}
  }

  /** The field a node's result writes. */
  function WrittenField(n: Node): Field
    requires n != End
  {
    match n
    case LanguageDetection => LanguageField
    case PythonAgent => OptimizedSolutionField
    case CppAgent => OptimizedSolutionField
    case Feedback => FeedbackField
    case UserReview => SatisfiedField
    case Explanation => ExplanationField
  }

  /** Renders a node's template; a template variable missing from the state is
      an error, and only `optimized_solution` can be missing. */
  function RenderPrompt(n: Node, s: State): (r: Result<Prompt, Error>)
    requires CallsModel(n)
    ensures r.Err? <==> (n == Feedback || n == Explanation) && s.optimizedSolution.None?
    ensures r.Err? ==> r.error == MissingKey(OptimizedSolutionField)
  {
    match n
    case LanguageDetection => Ok(ClassifyLanguage(s.userSolution))
    case PythonAgent => Ok(OptimizePython(s.question))
    case CppAgent => Ok(OptimizeCpp(s.question))
    case Feedback =>
      if s.optimizedSolution.None? then Err(MissingKey(OptimizedSolutionField))
      else Ok(CompareSolutions(s.userSolution, s.optimizedSolution.value))
    case Explanation =>
      if s.optimizedSolution.None? then Err(MissingKey(OptimizedSolutionField))
      else Ok(ExplainMistakes(s.question, s.userSolution, s.optimizedSolution.value))
  }

  /** States that agree on the given keys. */
  ghost predicate AgreeOn(s1: State, s2: State, fs: set<Field>) {
    forall f :: f in fs ==> Get(s1, f) == Get(s2, f)
  }

  /** A template is a function of the fields it reads and of nothing else. */
  lemma RenderReadsOnly(n: Node, s1: State, s2: State)
    requires CallsModel(n)
    requires AgreeOn(s1, s2, ReadSet(n))
    ensures RenderPrompt(n, s1) == RenderPrompt(n, s2)
  {
    match n
    case LanguageDetection => assert Get(s1, UserSolutionField) == Get(s2, UserSolutionField);
    case PythonAgent => assert Get(s1, QuestionField) == Get(s2, QuestionField);
    case CppAgent => assert Get(s1, QuestionField) == Get(s2, QuestionField);
    case Feedback =>
      assert Get(s1, UserSolutionField) == Get(s2, UserSolutionField);
      assert Get(s1, OptimizedSolutionField) == Get(s2, OptimizedSolutionField);
    case Explanation =>
      assert Get(s1, QuestionField) == Get(s2, QuestionField);
      assert Get(s1, UserSolutionField) == Get(s2, UserSolutionField);
      assert Get(s1, OptimizedSolutionField) == Get(s2, OptimizedSolutionField);
  }

  /** The parser chained after a node's model call. */
  function Parse(n: Node, content: string): (u: Update)
    requires CallsModel(n)
    ensures u.Key() == WrittenField(n)
    ensures u.Val() == Str(if n == LanguageDetection then Lower(Strip(content)) else Strip(content))
  {
    match n
    case LanguageDetection => ParseLanguage(content)
    case PythonAgent => ParsePythonSolution(content)
    case CppAgent => ParseCppSolution(content)
    case Feedback => ParseFeedback(content)
    case Explanation => ParseExplanation(content)
  }

  // ---------------------------------------------------------------------------
  // One step of the engine

  /** A node about to run, with the state it runs on. */
  datatype Config = Config(node: Node, state: State)

  /** The node's action: prompt | model | parser, or human_in_loop. */
  function Action(model: Prompt -> Reply, n: Node, s: State): (r: Result<Update, Error>)
    requires n != End
    ensures r.Ok? ==> r.value.Key() == WrittenField(n)
    ensures r.Err? <==> n != UserReview
                        && (RenderPrompt(n, s).Err? || model(RenderPrompt(n, s).value).ProviderError?)
  {
    if n == UserReview then Ok(HumanInLoop(s))
    else
      match RenderPrompt(n, s)
      case Err(e) => Err(e)
      case Ok(p) =>
        match model(p)
        case ProviderError => Err(ProviderFailed)
        case Completion(c) => Ok(Parse(n, c))
  }

  /** A node that calls the model stores the parse of the model's reply to its
      own prompt: the stripped completion, lower-cased too for the language. */
  lemma ActionStoresParsedReply(model: Prompt -> Reply, n: Node, s: State)
    requires CallsModel(n) && Action(model, n, s).Ok?
    ensures RenderPrompt(n, s).Ok? && model(RenderPrompt(n, s).value).Completion?
    ensures var c := model(RenderPrompt(n, s).value).content;
            Action(model, n, s).value.Val()
              == Str(if n == LanguageDetection then Lower(Strip(c)) else Strip(c))
  {
    var c := model(RenderPrompt(n, s).value).content;
    assert Action(model, n, s).value == Parse(n, c);
  }

  /** The successor of a node, chosen on the state after its action. */
  function Successor(n: Node, s: State): (r: Result<Node, Error>)
    requires n != End
    ensures r.Ok? ==> (n, r.value) in Edges
    ensures n != LanguageDetection ==> r.Ok?
  {
    match n
    case LanguageDetection =>
      (match RouteByLanguage(s)
       case Ok(m) => Ok(m)
       case Err(f) => Err(MissingKey(f)))
    case PythonAgent => Ok(Feedback)
    case CppAgent => Ok(Feedback)
    case Feedback => Ok(UserReview)
    case UserReview => Ok(ReviewDecision(s))
    case Explanation => Ok(UserReview)
  }

  /** Runs a node: its action, the merge of its one-key result, and the edge. */
  function Step(model: Prompt -> Reply, c: Config): (r: Result<Config, Error>)
    requires c.node != End
    ensures r.Ok? ==> (c.node, r.value.node) in Edges
    ensures r.Ok? ==> forall f :: f != WrittenField(c.node) ==> Get(r.value.state, f) == Get(c.state, f)
    ensures r.Ok? ==> Get(r.value.state, WrittenField(c.node)).Some?
  {
    match Action(model, c.node, c.state)
    case Err(e) => Err(e)
    case Ok(u) =>
      var t := Apply(c.state, u);
      match Successor(c.node, t)
      case Err(e) => Err(e)
      case Ok(m) => Ok(Config(m, t))
  }

  /** The initial state app.py hands to the graph: only the two form fields. */
  function StartState(question: string, userSolution: string): State {
    State(question, userSolution, None, None, None, None, None)
  }

  /** START's edge: the run begins at language detection. */
  function StartConfig(question: string, userSolution: string): Config {
    Config(LanguageDetection, StartState(question, userSolution))
  }

  /** The first `fuel` steps from `c`; END and errors are final. */
  function Run(fuel: nat, model: Prompt -> Reply, c: Config): (r: Result<Config, Error>)
    ensures c.node == End ==> r == Ok(c)
    decreases fuel
  {
    if fuel == 0 then Ok(c)
    else
      match Run(fuel - 1, model, c)
      case Err(e) => Err(e)
      case Ok(d) => if d.node == End then Ok(d) else Step(model, d)
  }
}
