/**
 * The loop behind the compiled graph's `invoke`, as app.py calls it: start
 * from the two form fields and run nodes until END, an error, or the step
 * budget runs out. The graph library raises an error when its step limit is
 * reached, so a run that neither fails nor ends never hands a result back to
 * app.py. `InvokeReview` returns the configuration after `fuel` steps; with
 * `fuel` equal to the library's step limit, that is where `invoke` raises
 * instead of returning.
 */
module Invoke {
  import opened Wrappers
  import opened CodeReviewer
  import opened ReviewRuns

  /** Runs the review for at most `fuel` steps; it stops early only on an
      error, and it never returns at END. */
  method InvokeReview(model: Prompt -> Reply, question: string, userSolution: string, fuel: nat)
    returns (r: Result<Config, Error>)
    ensures r == Run(fuel, model, StartConfig(question, userSolution))
    ensures r.Err? ==> r.error == ProviderFailed
    ensures r.Ok? ==> r.value.node != End && r.value.state.question == question
    ensures (forall p :: model(p).Completion?) ==> r.Ok?
  {
    var start := StartConfig(question, userSolution);
    r := Ok(start);
    var i := 0;
    while i < fuel && r.Ok? && r.value.node != End
      invariant i <= fuel
      invariant r == Run(i, model, start)
    {
      RunNext(model, start, i);
      r := Step(model, r.value);
      i := i + 1;
    }
    NeverReachesEnd(model, start.state, i);
    Reachable(model, start.state, fuel);
    if i < fuel {
      ErrorIsFinal(model, start, i, fuel);
    }
    if forall p :: model(p).Completion? {
      RunsForever(model, start.state, fuel);
    }
  }
}
