/**
 * The per-row session state kept across Streamlit reruns (`main`): which
 * row's form is open (`show_popup`), the recommendation stored for each row
 * (`recommendation_expanders`), the answers given for each row
 * (`responses`) and the last row whose button was clicked (`current_index`).
 * Rows are identified by their position in the uploaded action plan.
 *
 * The first half describes one rerun on values; the class `SessionStore`
 * below holds the same state in fields and is proved to follow it.
 */
module Session {
  import opened Wrappers
  import opened Text
  import opened GuideIndex
  import opened QuestionComposer
  import opened PromptBuilder
  import opened RecommendationGenerator

  /** `st.session_state`, restricted to the keys the core uses. */
  datatype SessionState = SessionState(
    currentIndex: Option<nat>,
    showPopup: map<nat, bool>,
    recommendations: map<nat, Option<string>>,
    responses: map<nat, seq<string>>)

  /** The state after the first run of `main`: three empty dictionaries, no current row. */
  const Initial := SessionState(None, map[], map[], map[])

  /**
   * The session-wide inputs of a rerun: the guide, the API key entered so far
   * and the prompt template (`SourcePrompt` in the application).
   */
  datatype Env = Env(guide: seq<GuideRow>, apiKey: Option<string>, prompt: PromptTemplate)

  /**
   * The prompt can be built for every row the lookup may return: whenever a
   * key is present, every guide row has the three quoted columns.
   */
  predicate Ready(env: Env) {
    HasApiKey(env.apiKey) ==> forall k :: 0 <= k < |env.guide| ==> HasPromptColumns(env.guide[k])
  }

  /**
   * What the user did to one row during a rerun: clicked its button,
   * submitted its form, and what the form's fields held (by question).
   */
  datatype RowEvent = RowEvent(clicked: bool, submitted: bool, typed: string -> string)

  /** `d.get(k)` for a dictionary. */
  function At<V>(m: map<nat, V>, k: nat): Option<V> {
    if k in m then Some(m[k]) else None
  }

  /** `st.session_state.get('show_popup', {}).get(index, False)`. */
  predicate PopupShown(s: SessionState, i: nat) {
    i in s.showPopup && s.showPopup[i]
  }

  /** The two states agree on every dictionary entry for row `j`. */
  predicate SameAt(s: SessionState, t: SessionState, j: nat) {
    At(s.showPopup, j) == At(t.showPopup, j) &&
    At(s.recommendations, j) == At(t.recommendations, j) &&
    At(s.responses, j) == At(t.responses, j)
  }

  /** Clicking the button of row `i`. */
  function Click(s: SessionState, i: nat): SessionState {
    s.(currentIndex := Some(i), showPopup := s.showPopup[i := true])
  }

  /** Storing the outcome of a submitted form for row `i`. */
  function Record(s: SessionState, i: nat, answers: seq<string>, rec: Option<string>): SessionState {
    s.(recommendations := s.recommendations[i := rec],
       showPopup := s.showPopup[i := false],
       responses := s.responses[i := answers])
  }

  /**
   * The guide row whose form is submitted for row `i` in state `s` (after a
   * possible click): the form exists only when the popup is shown and the
   * lookup succeeds, and it counts only when submitted.
   */
  function SubmittedRow(s: SessionState, i: nat, finding: Finding, env: Env, ev: RowEvent): (r: Option<GuideRow>)
    requires Ready(env)
    ensures r.Some? ==> HasApiKey(env.apiKey) ==> HasPromptColumns(r.value)
    ensures r.Some? <==> PopupShown(s, i) && ev.submitted && GetGuideInfo(finding.numReq, env.guide).Some?
  {
    if !PopupShown(s, i) || !ev.submitted then None
    else GetGuideInfo(finding.numReq, env.guide)
  }

  /** The answers of a submitted form for `finding` and its guide row. */
  function FormAnswers(row: GuideRow, finding: Finding, ev: RowEvent): (answers: seq<string>)
    ensures |answers| == 3
  {
    CollectAnswers(DynamicQuestions(row, finding), ev.typed)
  }

  /**
   * One pass of the loop body of `main` for row `i`: the button first, then
   * the form if the popup is shown, the lookup succeeds and the form is
   * submitted.
   */
  function RowStep(s: SessionState, i: nat, finding: Finding, env: Env, ev: RowEvent,
                   respond: Request -> Reply): SessionState
    requires Ready(env)
  {
    var s1 := if ev.clicked then Click(s, i) else s;
    match SubmittedRow(s1, i, finding, env, ev)
    case None => s1
    case Some(row) =>
      var answers := FormAnswers(row, finding, ev);
      var rec := Returned(Generate(env.apiKey, env.prompt, finding, row, AdditionalContext(answers), respond));
      Record(s1, i, answers, rec)
  }

  /** The requests sent to the service while processing row `i`. */
  function RowRequests(s: SessionState, i: nat, finding: Finding, env: Env, ev: RowEvent): seq<Request>
    requires Ready(env)
  {
    var s1 := if ev.clicked then Click(s, i) else s;
    match SubmittedRow(s1, i, finding, env, ev)
    case None => []
    case Some(row) =>
      RequestsSent(env.apiKey, env.prompt, finding, row, AdditionalContext(FormAnswers(row, finding, ev)))
  }

  /** The loop of `main` over the first `n` rows, in order. */
  function Pass(s: SessionState, findings: seq<Finding>, env: Env, events: seq<RowEvent>,
                respond: Request -> Reply, n: nat): SessionState
    requires Ready(env) && |events| == |findings| && n <= |findings|
  {
    if n == 0 then s
    else RowStep(Pass(s, findings, env, events, respond, n - 1), n - 1, findings[n - 1], env, events[n - 1], respond)
  }

  /** The requests sent during the loop over the first `n` rows, in order. */
  function PassRequests(s: SessionState, findings: seq<Finding>, env: Env, events: seq<RowEvent>,
                        respond: Request -> Reply, n: nat): seq<Request>
    requires Ready(env) && |events| == |findings| && n <= |findings|
  {
    if n == 0 then []
    else PassRequests(s, findings, env, events, respond, n - 1) +
         RowRequests(Pass(s, findings, env, events, respond, n - 1), n - 1, findings[n - 1], env, events[n - 1])
  }

  // ---------------------------------------------------------------------------
  // Properties of one row step
  // ---------------------------------------------------------------------------

  /** Processing row `i` leaves every other row's entries as they were. */
  lemma RowStepFrame(s: SessionState, i: nat, finding: Finding, env: Env, ev: RowEvent,
                     respond: Request -> Reply, j: nat)
    requires Ready(env) && j != i
    ensures SameAt(RowStep(s, i, finding, env, ev, respond), s, j)
  {
  }

  /**
   * Clicking row `i` makes it the current row and, unless its form is also
   * submitted in the same pass, leaves its popup open; without a click the
   * current row does not change.
   */
  lemma ClickOpensPopup(s: SessionState, i: nat, finding: Finding, env: Env, ev: RowEvent,
                        respond: Request -> Reply)
    requires Ready(env)
    ensures var t := RowStep(s, i, finding, env, ev, respond);
      && (ev.clicked ==> t.currentIndex == Some(i))
      && (!ev.clicked ==> t.currentIndex == s.currentIndex)
      && (ev.clicked && !ev.submitted ==> PopupShown(t, i))
  {
  }

  /**
   * A requirement number the guide does not know changes none of the stored
   * recommendations or answers, builds no prompt and sends no request; only a
   * click on the row is remembered.
   */
  lemma LookupFailureChangesNothing(s: SessionState, i: nat, finding: Finding, env: Env, ev: RowEvent,
                                    respond: Request -> Reply)
    requires Ready(env) && GetGuideInfo(finding.numReq, env.guide).None?
    ensures var t := RowStep(s, i, finding, env, ev, respond);
      && t.recommendations == s.recommendations
      && t.responses == s.responses
      && t.showPopup == (if ev.clicked then s.showPopup[i := true] else s.showPopup)
    ensures RowRequests(s, i, finding, env, ev) == []
  {
  }

  /**
   * Submitting the form of row `i` (its popup open, the lookup successful)
   * stores the three answers and the generated recommendation under `i`,
   * replacing whatever was stored before, and closes the popup.
   */
  lemma SubmitRecords(s: SessionState, i: nat, finding: Finding, env: Env, ev: RowEvent,
                      respond: Request -> Reply, row: GuideRow)
    requires Ready(env) && ev.submitted
    requires PopupShown(s, i) || ev.clicked
    requires GetGuideInfo(finding.numReq, env.guide) == Some(row)
    ensures HasApiKey(env.apiKey) ==> HasPromptColumns(row)
    ensures var t := RowStep(s, i, finding, env, ev, respond);
      var answers := CollectAnswers(DynamicQuestions(row, finding), ev.typed);
      && i in t.responses && t.responses[i] == answers && |t.responses[i]| == 3
      && i in t.recommendations
      && t.recommendations[i] == Returned(Generate(env.apiKey, env.prompt, finding, row, AdditionalContext(answers), respond))
      && !PopupShown(t, i)
  {
    var s1 := if ev.clicked then Click(s, i) else s;
    assert PopupShown(s1, i);
    assert SubmittedRow(s1, i, finding, env, ev) == Some(row);
  }

  /**
   * A row whose form is not submitted in this pass (not submitted, or its
   * popup closed and its button not clicked) changes at most through the
   * click: no recommendation or answer is stored and no request is sent.
   */
  lemma NoSubmitOnlyClick(s: SessionState, i: nat, finding: Finding, env: Env, ev: RowEvent,
                          respond: Request -> Reply)
    requires Ready(env)
    requires !ev.submitted || (!ev.clicked && !PopupShown(s, i))
    ensures RowStep(s, i, finding, env, ev, respond) == (if ev.clicked then Click(s, i) else s)
    ensures RowRequests(s, i, finding, env, ev) == []
  {
  }

  /**
   * With a key, submitting the form of row `i` sends exactly one request: the
   * application's settings and the prompt filled in from the finding, its
   * guide row and the three answers joined by line breaks.
   */
  lemma SubmitSendsPrompt(s: SessionState, i: nat, finding: Finding, env: Env, ev: RowEvent,
                          row: GuideRow)
    requires Ready(env) && HasApiKey(env.apiKey) && ev.submitted
    requires PopupShown(s, i) || ev.clicked
    requires GetGuideInfo(finding.numReq, env.guide) == Some(row)
    ensures HasPromptColumns(row)
    ensures RowRequests(s, i, finding, env, ev)
         == [Request(Render(env.prompt, finding, row, AdditionalContext(FormAnswers(row, finding, ev))), 1500, 0, true)]
  {
    var s1 := if ev.clicked then Click(s, i) else s;
    assert PopupShown(s1, i);
    assert SubmittedRow(s1, i, finding, env, ev) == Some(row);
  }

  /** Without an API key no row step ever sends a request. */
  lemma NoKeyNoRowRequest(s: SessionState, i: nat, finding: Finding, env: Env, ev: RowEvent)
    requires Ready(env) && !HasApiKey(env.apiKey)
    ensures RowRequests(s, i, finding, env, ev) == []
  {
  }

  /** The row step's effect on row `i` depends only on row `i`'s entries. */
  lemma RowStepLocal(s: SessionState, t: SessionState, i: nat, finding: Finding, env: Env, ev: RowEvent,
                     respond: Request -> Reply)
    requires Ready(env) && SameAt(s, t, i)
    ensures SameAt(RowStep(s, i, finding, env, ev, respond), RowStep(t, i, finding, env, ev, respond), i)
  {
    var s1 := if ev.clicked then Click(s, i) else s;
    var t1 := if ev.clicked then Click(t, i) else t;
    assert PopupShown(s1, i) == PopupShown(t1, i);
  }

  // ---------------------------------------------------------------------------
  // The session invariant
  // ---------------------------------------------------------------------------

  /**
   * A row has a stored recommendation exactly when it has stored answers,
   * every stored answer list is aligned with the three questions, and only a
   * row whose popup was opened has stored anything.
   */
  predicate Consistent(s: SessionState) {
    s.recommendations.Keys == s.responses.Keys &&
    s.recommendations.Keys <= s.showPopup.Keys &&
    forall j :: j in s.responses ==> |s.responses[j]| == 3
  }

  lemma RowStepConsistent(s: SessionState, i: nat, finding: Finding, env: Env, ev: RowEvent,
                          respond: Request -> Reply)
    requires Ready(env) && Consistent(s)
    ensures Consistent(RowStep(s, i, finding, env, ev, respond))
  {
  }

  /** Every pass of the loop keeps the invariant, from the initial state on. */
  lemma {:induction false} PassConsistent(s: SessionState, findings: seq<Finding>, env: Env,
                                          events: seq<RowEvent>, respond: Request -> Reply, n: nat)
    requires Ready(env) && |events| == |findings| && n <= |findings|
    requires Consistent(s)
    ensures Consistent(Pass(s, findings, env, events, respond, n))
  {
    if n > 0 {
      PassConsistent(s, findings, env, events, respond, n - 1);
      PassUnfold(s, findings, env, events, respond, n);
      RowStepConsistent(Pass(s, findings, env, events, respond, n - 1), n - 1, findings[n - 1],
                        env, events[n - 1], respond);
    }
  }

  // ---------------------------------------------------------------------------
  // Properties of a whole pass
  // ---------------------------------------------------------------------------

  /** Rows the pass has not reached yet keep their entries. */
  lemma {:induction false} PassFrame(s: SessionState, findings: seq<Finding>, env: Env,
                                     events: seq<RowEvent>, respond: Request -> Reply, n: nat, j: nat)
    requires Ready(env) && |events| == |findings| && n <= |findings| && n <= j
    ensures SameAt(Pass(s, findings, env, events, respond, n), s, j)
  {
    if n > 0 {
      PassFrame(s, findings, env, events, respond, n - 1, j);
      RowStepFrame(Pass(s, findings, env, events, respond, n - 1), n - 1, findings[n - 1],
                   env, events[n - 1], respond, j);
    }
  }

  /**
   * Rows are independent: after a pass, row `j`'s entries are what processing
   * row `j` alone would have made of them, whatever happened to the other rows
   * (an error or a regeneration for one finding never touches another).
   */
  lemma {:induction false} PassRowsIndependent(s: SessionState, findings: seq<Finding>, env: Env,
                                               events: seq<RowEvent>, respond: Request -> Reply, n: nat, j: nat)
    requires Ready(env) && |events| == |findings| && n <= |findings| && j < n
    ensures SameAt(Pass(s, findings, env, events, respond, n),
                   RowStep(s, j, findings[j], env, events[j], respond), j)
  {
    var before := Pass(s, findings, env, events, respond, n - 1);
    if j < n - 1 {
      PassRowsIndependent(s, findings, env, events, respond, n - 1, j);
      RowStepFrame(before, n - 1, findings[n - 1], env, events[n - 1], respond, j);
    } else {
      PassFrame(s, findings, env, events, respond, n - 1, j);
      RowStepLocal(before, s, j, findings[j], env, events[j], respond);
    }
  }

  /** Without an API key a whole pass sends no request at all. */
  lemma {:induction false} NoKeyNoRequests(s: SessionState, findings: seq<Finding>, env: Env,
                                           events: seq<RowEvent>, respond: Request -> Reply, n: nat)
    requires Ready(env) && |events| == |findings| && n <= |findings|
    requires !HasApiKey(env.apiKey)
    ensures PassRequests(s, findings, env, events, respond, n) == []
  {
    if n > 0 {
      NoKeyNoRequests(s, findings, env, events, respond, n - 1);
      NoKeyNoRowRequest(Pass(s, findings, env, events, respond, n - 1), n - 1, findings[n - 1],
                        env, events[n - 1]);
    }
  }

  /** The last row clicked among the first `n`, or `current` when none was. */
  function LastClicked(current: Option<nat>, events: seq<RowEvent>, n: nat): (r: Option<nat>)
    requires n <= |events|
    ensures r.Some? && r != current ==> r.value < n && events[r.value].clicked
    ensures r.Some? && r != current ==> forall k :: r.value < k < n ==> !events[k].clicked
    ensures (forall k :: 0 <= k < n ==> !events[k].clicked) ==> r == current
    ensures (exists k :: 0 <= k < n && events[k].clicked) ==>
      r.Some? && r.value < n && events[r.value].clicked && forall k :: r.value < k < n ==> !events[k].clicked
  {
    if n == 0 then current
    else if events[n - 1].clicked then Some(n - 1)
    else LastClicked(current, events, n - 1)
  }

  /** After a pass, `current_index` names the last row whose button was clicked. */
  lemma {:induction false} PassCurrentIndex(s: SessionState, findings: seq<Finding>, env: Env,
                                            events: seq<RowEvent>, respond: Request -> Reply, n: nat)
    requires Ready(env) && |events| == |findings| && n <= |findings|
    ensures Pass(s, findings, env, events, respond, n).currentIndex == LastClicked(s.currentIndex, events, n)
  {
    if n > 0 {
      PassCurrentIndex(s, findings, env, events, respond, n - 1);
      ClickOpensPopup(Pass(s, findings, env, events, respond, n - 1), n - 1, findings[n - 1],
                      env, events[n - 1], respond);
    }
  }

  /** One more row of a pass is one more row step, and its requests come last. */
  lemma PassUnfold(s: SessionState, findings: seq<Finding>, env: Env, events: seq<RowEvent>,
                   respond: Request -> Reply, n: nat)
    requires Ready(env) && |events| == |findings| && 0 < n <= |findings|
    ensures Pass(s, findings, env, events, respond, n)
         == RowStep(Pass(s, findings, env, events, respond, n - 1), n - 1, findings[n - 1], env, events[n - 1], respond)
    ensures PassRequests(s, findings, env, events, respond, n)
         == PassRequests(s, findings, env, events, respond, n - 1)
            + RowRequests(Pass(s, findings, env, events, respond, n - 1), n - 1, findings[n - 1], env, events[n - 1])
  {
  }

  // ---------------------------------------------------------------------------
  // The session store
  // ---------------------------------------------------------------------------

  /** `st.session_state`: the dictionaries are updated in place across reruns. */
  class SessionStore {
    /** The template the application's prompts are filled in from. */
    const prompt: PromptTemplate
    var currentIndex: Option<nat>
    var showPopup: map<nat, bool>
    var recommendations: map<nat, Option<string>>
    var responses: map<nat, seq<string>>

    /** The store's contents as a value. */
    function State(): SessionState
      reads this
    {
      SessionState(currentIndex, showPopup, recommendations, responses)
    }

    /** The initialisation at the top of `main`. */
    constructor ()
      ensures State() == Initial && Consistent(State())
      ensures prompt == SourcePrompt
    {
      prompt := SourcePrompt;
      currentIndex := None;
      showPopup := map[];
      recommendations := map[];
      responses := map[];
    }

    /** The button of row `i` was clicked. */
    method ClickButton(i: nat)
      modifies this
      ensures State() == Click(old(State()), i)
    {
      currentIndex := Some(i);
      showPopup := showPopup[i := true];
    }

    /** One iteration of the loop of `main`, for row `i`. */
    method ProcessRow(i: nat, finding: Finding, env: Env, ev: RowEvent, client: GroqClient)
      requires Ready(env) && env.prompt == prompt
      modifies this, client
      ensures State() == RowStep(old(State()), i, finding, env, ev, client.respond)
      ensures client.sent == old(client.sent) + RowRequests(old(State()), i, finding, env, ev)
    {
      if ev.clicked {
        ClickButton(i);
      }
      if i in showPopup && showPopup[i] {
        var guideRow := GetGuideInfo(finding.numReq, env.guide);
        if guideRow.Some? && ev.submitted {
          var answers := FormAnswers(guideRow.value, finding, ev);
          var context := AdditionalContext(answers);
          var outcome := GenerateRecommendation(env.apiKey, env.prompt, finding, guideRow.value, context, client);
          recommendations := recommendations[i := Returned(outcome)];
          showPopup := showPopup[i := false];
          responses := responses[i := answers];
        }
      }
    }

    /**
     * The iteration of the loop of `main` for row `k`, seen from the pass:
     * the store moves from the first `k` rows processed to the first `k + 1`.
     */
    method ProcessNext(ghost s0: SessionState, findings: seq<Finding>, env: Env, events: seq<RowEvent>,
                       client: GroqClient, ghost sent0: seq<Request>, k: nat)
      requires Ready(env) && env.prompt == prompt && |events| == |findings| && k < |findings|
      requires State() == Pass(s0, findings, env, events, client.respond, k)
      requires client.sent == sent0 + PassRequests(s0, findings, env, events, client.respond, k)
      modifies this, client
      ensures State() == Pass(s0, findings, env, events, client.respond, k + 1)
      ensures client.sent == sent0 + PassRequests(s0, findings, env, events, client.respond, k + 1)
    {
      ghost var before := State();
      PassUnfold(s0, findings, env, events, client.respond, k + 1);
      ProcessRow(k, findings[k], env, events[k], client);
      assert client.sent == sent0 + (PassRequests(s0, findings, env, events, client.respond, k)
                                     + RowRequests(before, k, findings[k], env, events[k]));
    }

    /** The loop of `main` over every row of the action plan, in order. */
    method RunPass(findings: seq<Finding>, env: Env, events: seq<RowEvent>, client: GroqClient)
      requires Ready(env) && env.prompt == prompt && |events| == |findings|
      modifies this, client
      ensures State() == Pass(old(State()), findings, env, events, client.respond, |findings|)
      ensures client.sent == old(client.sent) + PassRequests(old(State()), findings, env, events, client.respond, |findings|)
    {
      ghost var s0, sent0 := State(), client.sent;
      var k := 0;
      while k < |findings|
        invariant 0 <= k <= |findings|
        invariant State() == Pass(s0, findings, env, events, client.respond, k)
        invariant client.sent == sent0 + PassRequests(s0, findings, env, events, client.respond, k)
      {
        ProcessNext(s0, findings, env, events, client, sent0, k);
        k := k + 1;
      }
    }
  }
}
