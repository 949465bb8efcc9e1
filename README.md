# ActionplanQUEST: verified model of the recommendation workflow

ActionplanQUEST is a Streamlit assistant for IFS Food 8 action plans. An
auditor's non-conformity list is uploaded. For each finding, the assistant
looks up the requirement number in the IFS guide checklist, asks three
follow-up questions, and sends a prompt built from the finding, the guide row
and the user's answers to a Groq language model. The recommendation that comes
back is kept per row of the plan in the Streamlit session.

This Dafny project models that pipeline and the per-row session state, and
proves properties about them:

- `text.dfy`, module `Text`: the string primitives. It defines substring
  containment (`pat in s`) against a reference definition `Occurs`. It defines
  template concatenation. It defines `"\n".join` and `str.split("\n")`, with
  both round-trip lemmas.
- `guide_index.dfy`, module `GuideIndex`: the guide table as `seq<GuideRow>`,
  where a missing `NUM_REQ` cell is `None`, and the lookup `get_guide_info`.
- `question_composer.dfy`, module `QuestionComposer`: the `Finding` record and
  `generate_dynamic_questions`, with the `'Non spécifié'` fallback written out.
- `prompt_builder.dfy`, module `PromptBuilder`: the form's answers, the
  newline-joined additional context, and the prompt. The prompt is a
  concatenation of the f-string's literal pieces and its interpolated values,
  whitespace included. The literal pieces form a `PromptTemplate` value.
  `SourcePrompt` holds the application's text, and `BuildPrompt` fills it in.
  Most prompt properties are proved for any template filled in by `Render`,
  and so hold for `SourcePrompt` in particular.
- `recommendation_generator.dfy`, module `RecommendationGenerator`: the API-key
  check, the request with its fixed settings (1500 tokens, temperature 0,
  chain of thought), and the outcome (missing key, completion, or exception
  turned into `None`). The Groq service is a `GroqClient` object. Its `respond`
  function is an oracle, and it keeps a ghost log `sent` of every request, so
  "the service was not called" means "the log did not grow".
- `session.dfy`, module `Session`: one rerun of `main` as functions on a
  `SessionState` value, plus the `SessionStore` class. The class holds
  `current_index`, `show_popup`, `recommendation_expanders` and `responses` as
  fields, and its methods are proved to follow those functions. The loop over
  the action-plan rows is `SessionStore.RunPass`.

Some behaviours of the code are worth stating plainly, because a reader might
expect otherwise:

- The second and third questions quote "Elements to check" and "Example
  questions". "Good practice" and the requirement text are read and then not
  used (actionplanquest.py:95-105). No question quotes the good practice.
- There is no typed failure state per row. A missing key stores the string
  `"Erreur: clé API non fournie."` as the recommendation. A service exception
  stores `None` (actionplanquest.py:110-112, 141-145, 196).
- A lookup that matches nothing and a lookup that raises both return `None`
  (actionplanquest.py:85-91).
- The row workflow is just the `show_popup` flag and the stored entries. There
  are no separate "awaiting answers" or "generating" states.

## Model

| member | source | states |
|---|---|---|
| Text.Contains | actionplanquest.py:84 | The executable containment test agrees with the reference definition: it is true iff `pat` occurs at some position of `s`; the empty pattern is found everywhere |
| Text.SplitJoin | actionplanquest.py:194 | Splitting `"\n".join(xs)` on newlines gives `xs` back, in order and with empty items kept, when `xs` is non-empty and no item holds a newline |
| Text.JoinSplit | actionplanquest.py:194 | Joining the newline-split lines of any text rebuilds that text |
| Text.JoinAround | actionplanquest.py:194 | The join of a list is any one item with the lines before it (ending in a line break) in front and the lines after it (starting with one) behind |
| Text.JoinInjective | actionplanquest.py:194 | Two non-empty lists of single-line answers with the same joined text are equal |
| GuideIndex.FirstMatchFrom | actionplanquest.py:84-88 | The index returned qualifies, and no earlier index from `from` on qualifies; `None` means no index from `from` on qualifies |
| GuideIndex.GetGuideInfo | actionplanquest.py:82-91 | Returns `None` iff no row's `NUM_REQ` contains the requirement number; otherwise returns the row at the first qualifying position |
| GuideIndex.LookupReturnsFirstMatch | actionplanquest.py:84-88 | Converse: when `k` is the first qualifying position, the lookup returns exactly row `k` |
| GuideIndex.MissingNumReqIgnored | actionplanquest.py:84 | Inserting a row whose `NUM_REQ` is missing anywhere in the guide never changes the lookup result (`na=False`) |
| GuideIndex.LaterRowsIgnored | actionplanquest.py:88 | Once some row matches, appending rows after the end of the guide does not change the result (`iloc[0]`) |
| QuestionComposer.DynamicQuestions | actionplanquest.py:94-106 | Exactly three non-empty questions. The first quotes the audit comment, the second "Elements to check", the third "Example questions". An absent column is quoted as "Non spécifié" |
| QuestionComposer.QuestionsDeterminedByQuotedValues | actionplanquest.py:95-105 | Two inputs give the same questions iff they agree on the audit comment and the two quoted columns, so good practice and requirement text have no effect |
| PromptBuilder.CollectAnswers | actionplanquest.py:192 | One answer per question, in question order: the value typed in the field labelled with that question |
| PromptBuilder.ContextKeepsAnswers | actionplanquest.py:192-194 | The joined context splits back into exactly the answers: same count, same order, empty answers kept, each occurring verbatim |
| PromptBuilder.RenderContainsInputs | actionplanquest.py:115-140 | Any filled-in template holds its four instruction clauses and, verbatim, every interpolated value |
| PromptBuilder.PromptContainsInputs | actionplanquest.py:115-140 | The prompt always holds the four instruction clauses and, verbatim, the finding's number, text and comment, the three guide fields and the context |
| PromptBuilder.PromptDeterminesContext | actionplanquest.py:136-137 | For a fixed template, finding and guide row, equal prompts imply equal contexts, so the context is never truncated or merged |
| PromptBuilder.PromptDeterminesAnswers | actionplanquest.py:115-140 | For a fixed template, finding and guide row, the prompt built from the joined answers determines those answers (single-line answers) |
| PromptBuilder.AnswerChangesOnlyItsSegment | actionplanquest.py:136-137 | Two answer lists that differ at most at one position give prompts that share all the text before and after that answer: changing one answer changes only its own segment |
| PromptBuilder.PromptIgnoresOtherColumns | actionplanquest.py:131-134 | The prompt reads the guide row only through "Good practice", "Elements to check" and "Example questions" |
| RecommendationGenerator.RequestFor | actionplanquest.py:115-142 | The request carries max_tokens 1500, temperature 0 and chain of thought on, and its prompt is the template filled in with the finding, the guide row and the context, so it holds the context, the audit comment and the correction and corrective-action clauses |
| RecommendationGenerator.Generate | actionplanquest.py:109-145 | The outcome is "missing key" iff the session has no non-empty key. Otherwise it is the service's completion for the prompt, or a backend error when the service raises |
| RecommendationGenerator.Returned | actionplanquest.py:109-145 | The value returned is `None` iff the service raised. A missing key gives the fixed error string and a completion gives its text |
| RecommendationGenerator.NoKeyIndependentOfService | actionplanquest.py:109-112 | Without a key the outcome does not depend on the service, and the returned value is "Erreur: clé API non fournie." |
| RecommendationGenerator.GroqClient.constructor | actionplanquest.py:64-68 | A new client stands for the given service and has sent nothing |
| RecommendationGenerator.GroqClient.Complete | actionplanquest.py:142 | One call appends the request to the log and returns the service's reply to it |
| RecommendationGenerator.RequestsSent | actionplanquest.py:110-142 | One generation sends no request without a key, and with a key exactly one: the request built by `RequestFor` from the finding, the guide row and the context |
| RecommendationGenerator.GenerateRecommendation | actionplanquest.py:109-145 | The method returns the outcome `Generate` specifies, and the client's log grows by exactly the requests `RequestsSent` specifies |
| Session.SubmittedRow | actionplanquest.py:186-193 | A form is submitted for the row iff its popup is shown, the user submits, and the lookup succeeds; with a key, the row has the prompt columns |
| Session.FormAnswers | actionplanquest.py:189-192 | A submitted form always yields exactly three answers |
| Session.RowStepFrame | actionplanquest.py:181-198 | Processing row `i` leaves every other row's `show_popup`, recommendation and responses entries unchanged |
| Session.ClickOpensPopup | actionplanquest.py:181-183 | A click sets `current_index` to the row and leaves its popup shown unless the form is also submitted in that pass. Without a click `current_index` is unchanged |
| Session.LookupFailureChangesNothing | actionplanquest.py:186-188 | When the lookup fails, the recommendations and responses are unchanged, `show_popup` changes only through a click, and no request is sent |
| Session.SubmitRecords | actionplanquest.py:193-198 | A submission stores the three answers and the generated recommendation under the row, replacing earlier values, and closes the popup |
| Session.NoSubmitOnlyClick | actionplanquest.py:181-193 | A row whose form is not submitted, or whose popup is closed and button not clicked, changes only through the click: nothing is stored and no request is sent |
| Session.SubmitSendsPrompt | actionplanquest.py:186-195 | With a key, submitting row `i`'s form sends exactly one request: the template filled in with the finding, its guide row and the joined answers, at 1500 tokens, temperature 0, chain of thought on |
| Session.NoKeyNoRowRequest | actionplanquest.py:193-195 | Without an API key, processing a row never sends a request |
| Session.RowStepLocal | actionplanquest.py:174-198 | What processing row `i` leaves in row `i`'s entries depends only on row `i`'s earlier entries |
| Session.RowStepConsistent | actionplanquest.py:193-198 | Processing a row keeps the invariant: recommendations and responses have the same keys, those keys have popup entries, and every stored answer list has three items |
| Session.PassConsistent | actionplanquest.py:152-198 | A whole pass over the rows keeps that invariant |
| Session.PassFrame | actionplanquest.py:174 | Rows a pass has not reached keep their entries |
| Session.PassRowsIndependent | actionplanquest.py:174-198 | After a pass, each row's entries are what processing that row alone would give, so one finding's error or regeneration never touches another |
| Session.NoKeyNoRequests | actionplanquest.py:174-198 | Without an API key, a whole pass sends no request |
| Session.LastClicked | actionplanquest.py:181-182 | When some row among the first `n` was clicked, the result is that clicked row with no clicked row after it; when none was, it is the previous value |
| Session.PassCurrentIndex | actionplanquest.py:174-182 | After a pass, `current_index` is the last row whose button was clicked, or the previous value if none was |
| Session.PassUnfold | actionplanquest.py:174 | A pass over `n` rows is the pass over the first `n - 1` rows followed by row `n - 1`, and that row's requests come after the earlier ones |
| Session.SessionStore.constructor | actionplanquest.py:152-159 | The session starts with three empty dictionaries and no current row, satisfies the invariant, and renders prompts from the application's template |
| Session.SessionStore.ClickButton | actionplanquest.py:181-183 | A click sets `current_index` and `show_popup[i] = True` and changes nothing else |
| Session.SessionStore.ProcessRow | actionplanquest.py:181-198 | The store's new state is the row step of its old state, and the client's log grows by exactly that row's requests |
| Session.SessionStore.ProcessNext | actionplanquest.py:174-198 | One iteration of the loop takes the store from the pass over `k` rows to the pass over `k + 1` rows, and extends the log by the requests of that row |
| Session.SessionStore.RunPass | actionplanquest.py:174-198 | After the loop over all rows, the store holds the pass of its old state, and the log grows by the pass's requests in row order |

## Left out

- Rendering (CSS, banner, columns, expanders, the form widgets, the display of stored recommendations and answers, actionplanquest.py:1-61, 149, 162, 165-168, 172-173, 175-178, 190-191, 200-209) is presentation. The model keeps only the dictionary updates the widgets trigger.
- Reading the uploaded Excel file (`header=11`, column projection and renaming) and downloading the guide CSV are file and network I/O in pandas. Findings and guide rows are inputs to the model.
- The API key is an input to a pass (`Env.apiKey`). Entering it through the password field (actionplanquest.py:162-164) is not modelled. The prompt template is an input too (`Env.prompt`), and the store's methods require the template the store was built with.
- The Groq client (`GroqProvider`, `groq.generate`) is foreign network code. It is modelled as an oracle `GroqClient.respond` that returns a completion or raises. A timeout raised by `groq.generate` is a "raises".
- GroqClient.respond: is a fixed function of the request, so the same request always gets the same reply. Transient failures, quota errors and completions that vary from call to call cannot be expressed.
- The `GroqProvider(...)` constructor is called by `get_groq_provider` (actionplanquest.py:68, reached from line 110) before the `try` at line 141, so an exception it raises escapes `main`: the row gets no entry, its `show_popup` stays true, and later rows of that rerun are skipped. The model does not include that crash; its client is always constructed, as the `KeyError` case below is excluded.
- GuideIndex.GetGuideInfo: `str.contains` treats the requirement number as a regular expression (so `.` matches any character). The model matches it as a literal substring.
- GuideIndex.GetGuideInfo: the `except` branch for other pandas errors (for example, a guide without a `NUM_REQ` column) is not modelled. The model's guide always has that column.
- Requirement numbers are strings in the model. The numeric parsing pandas may apply to them (a cell "4.10" read as the float 4.1) and `str()` of such numbers are not modelled.
- Guide cells are strings. A column that exists but holds NaN is shown by pandas as "nan" instead of the "Non spécifié" fallback. The model has only present or absent columns.
- A finding's text and comment are strings too. An empty "Explication" or "Exigence IFS Food 8" cell is NaN in pandas, and the code quotes it as "nan" in the first question (actionplanquest.py:102) and in the prompt (actionplanquest.py:128-129). The model quotes whatever string it is given and does not produce "nan".
- With a key present, the prompt indexes the three guide columns without a default, so a missing column raises `KeyError`. The model excludes this case with the precondition `HasPromptColumns` (and `Session.Ready`) instead of modelling the crash.
- The `st.error` messages (no match, lookup error, missing key, generation error) are display only. Only their effect on the returned values is modelled.
- Overlapping reruns and concurrency are not modelled. Streamlit reruns one script at a time, so a later submission plainly overwrites an earlier one (see `Session.SubmitRecords`).
