/**
 * The answers typed into the form, the additional context joined from them,
 * and the completion prompt assembled from a finding, its guide row and that
 * context (the f-string of `generate_ai_recommendation_groq`).
 *
 * The prompt keeps the f-string's layout byte for byte: it opens with a line
 * break, every line is indented by four spaces, and it closes with a line
 * break followed by four spaces.
 */
module PromptBuilder {
  import opened Text
  import opened GuideIndex
  import opened QuestionComposer

  /**
   * `[st.text_input(question) for question in questions]`: one answer per
   * question, in question order; `typed` is what the user left in the field
   * labelled with that question (possibly the empty string).
   */
  function CollectAnswers(questions: seq<string>, typed: string -> string): (answers: seq<string>)
    ensures |answers| == |questions|
    ensures forall k :: 0 <= k < |answers| ==> answers[k] == typed(questions[k])
  {
    seq(|questions|, k requires 0 <= k < |questions| => typed(questions[k]))
  }

  /** `"\n".join(responses)`: the context handed to the prompt. */
  function AdditionalContext(answers: seq<string>): string {
    JoinLines(answers)
  }

  /**
   * The context loses nothing: every answer, empty ones included, is recovered
   * in order by splitting the context on line breaks, provided none of them
   * holds a line break itself.
   */
  lemma ContextKeepsAnswers(answers: seq<string>)
    requires |answers| >= 1
    requires forall k :: 0 <= k < |answers| ==> SingleLine(answers[k])
    ensures SplitLines(AdditionalContext(answers)) == answers
    ensures |SplitLines(AdditionalContext(answers))| == |answers|
    ensures forall k :: 0 <= k < |answers| ==> Occurs(answers[k], AdditionalContext(answers))
  {
    SplitJoin(answers);
    forall k | 0 <= k < |answers| ensures Occurs(answers[k], AdditionalContext(answers)) {
      ItemOccursInJoin(answers, k);
    }
  }

  /**
   * The literal text of a prompt, piece by piece: the text before the four
   * instruction clauses, the clauses, and the labels that precede each
   * interpolated value.
   */
  datatype PromptTemplate = PromptTemplate(
    opening: string,
    correction: string, evidence: string, rootCause: string, correctiveAction: string,
    numberLabel: string, descriptionLabel: string, findingLabel: string,
    goodPracticeLabel: string, elementsLabel: string, examplesLabel: string,
    contextLabel: string, closing: string)

  // The literal text of the application's f-string, in order.

  const Opening := "\n    En tant qu'expert en IFS Food 8 et en technologies alimentaires, pour chaque non-conformité constatée lors d'un audit, veuillez fournir :\n"

  // The four instruction clauses.
  const CorrectionClause := "    - une recommandation de correction : action immédiate visant à éliminer la non-conformité détectée en s'assurant qu'elle est adaptée au domaine d'activités du site industriel.\n"
  const EvidenceClause := "    - le type de preuve attendu : élément tangible (photo, document,...) démontrant la mise en place de la correction.\n"
  const RootCauseClause := "    - l'analyse de la cause probable : investigation approfondie pour identifier l'origine de la non-conformité en t'assurant que l'analyse est cohérente avec l'acvité du site  (industrie alimentaire).\n"
  const CorrectiveActionClause := "    - une recommandation d'action corrective : mesure à prendre pour éliminer la cause racine et prévenir la réapparition de la non-conformité.\n"

  const Guidelines := "\n    Points importants à prendre en compte :\n    - Distinction correction / action corrective : La correction est une action immédiate pour rectifier une situation, tandis que l'action corrective vise à éliminer la cause racine et à empêcher la récurrence.\n    - Pertinence et exhaustivité : Les recommandations de correction et d'action corrective doivent être adaptées à la non-conformité et traiter tous les aspects du problème.\n"

  const NumberLabel := "\n    Voici une non-conformité issue d'un audit IFS Food 8 :\n    - Exigence : "
  const DescriptionLabel := "\n    - Description : "
  const FindingLabel := "\n    - Constat détaillé : "
  const GoodPracticeLabel := "\n\n    Basé sur le guide IFSv8 pour cette exigence :\n    - Bonnes pratiques : "
  const ElementsLabel := "\n    - Éléments à vérifier : "
  const ExamplesLabel := "\n    - Questions exemples : "
  const ContextLabel := "\n\n    Informations supplémentaires fournies par l'utilisateur :\n    - "
  const Closing := "\n\n    Veuillez fournir une recommandation complète avec analyse détaillée en appliquant une approche \"Chain of Thought\" (réflexion étape par étape).\n    "

  /** The application's prompt template. */
  const SourcePrompt := PromptTemplate(
    Opening,
    CorrectionClause, EvidenceClause, RootCauseClause, CorrectiveActionClause,
    Guidelines + NumberLabel, DescriptionLabel, FindingLabel,
    GoodPracticeLabel, ElementsLabel, ExamplesLabel,
    ContextLabel, Closing)

  /** The three guide columns the prompt indexes without a default. */
  predicate HasPromptColumns(row: GuideRow) {
    GoodPractice in row.columns && ElementsToCheck in row.columns && ExampleQuestions in row.columns
  }

  /** Position of each interpolated value among the pieces of the prompt. */
  const NumberAt := 6
  const DescriptionAt := 8
  const FindingAt := 10
  const GoodPracticeAt := 12
  const ElementsAt := 14
  const ExamplesAt := 16
  const ContextAt := 18

  /** The prompt as literal pieces and interpolated values, in template order. */
  function PromptPieces(t: PromptTemplate, finding: Finding, row: GuideRow, context: string): (p: seq<string>)
    requires HasPromptColumns(row)
    ensures |p| == 20
  {
    [ t.opening, t.correction, t.evidence, t.rootCause, t.correctiveAction,
      t.numberLabel, finding.numReq,
      t.descriptionLabel, finding.requirementText,
      t.findingLabel, finding.auditComment,
      t.goodPracticeLabel, row.columns[GoodPractice],
      t.elementsLabel, row.columns[ElementsToCheck],
      t.examplesLabel, row.columns[ExampleQuestions],
      t.contextLabel, context,
      t.closing ]
  }

  /** The prompt text filled in from template `t`. */
  function Render(t: PromptTemplate, finding: Finding, row: GuideRow, context: string): string
    requires HasPromptColumns(row)
  {
    Concat(PromptPieces(t, finding, row, context))
  }

  /** The prompt the application sends: its own template filled in. */
  function BuildPrompt(finding: Finding, row: GuideRow, context: string): string
    requires HasPromptColumns(row)
  {
    Render(SourcePrompt, finding, row, context)
  }

  /**
   * A filled-in template holds its four instruction clauses and, verbatim,
   * every interpolated value.
   */
  lemma RenderContainsInputs(t: PromptTemplate, finding: Finding, row: GuideRow, context: string)
    requires HasPromptColumns(row)
    ensures var prompt := Render(t, finding, row, context);
      && Occurs(t.correction, prompt)
      && Occurs(t.evidence, prompt)
      && Occurs(t.rootCause, prompt)
      && Occurs(t.correctiveAction, prompt)
      && Occurs(finding.numReq, prompt)
      && Occurs(finding.requirementText, prompt)
      && Occurs(finding.auditComment, prompt)
      && Occurs(row.columns[GoodPractice], prompt)
      && Occurs(row.columns[ElementsToCheck], prompt)
      && Occurs(row.columns[ExampleQuestions], prompt)
      && Occurs(context, prompt)
  {
    var p := PromptPieces(t, finding, row, context);
    PieceOccurs(p, 1);
    PieceOccurs(p, 2);
    PieceOccurs(p, 3);
    PieceOccurs(p, 4);
    PieceOccurs(p, NumberAt);
    PieceOccurs(p, DescriptionAt);
    PieceOccurs(p, FindingAt);
    PieceOccurs(p, GoodPracticeAt);
    PieceOccurs(p, ElementsAt);
    PieceOccurs(p, ExamplesAt);
    PieceOccurs(p, ContextAt);
  }

  /**
   * Whatever the inputs, the application's prompt holds the four instruction
   * clauses (correction, expected evidence, probable cause, corrective
   * action), the finding's number, text and comment, the three guide fields
   * and the additional context, each verbatim.
   */
  lemma PromptContainsInputs(finding: Finding, row: GuideRow, context: string)
    requires HasPromptColumns(row)
    ensures var prompt := BuildPrompt(finding, row, context);
      && Occurs(CorrectionClause, prompt)
      && Occurs(EvidenceClause, prompt)
      && Occurs(RootCauseClause, prompt)
      && Occurs(CorrectiveActionClause, prompt)
      && Occurs(finding.numReq, prompt)
      && Occurs(finding.requirementText, prompt)
      && Occurs(finding.auditComment, prompt)
      && Occurs(row.columns[GoodPractice], prompt)
      && Occurs(row.columns[ElementsToCheck], prompt)
      && Occurs(row.columns[ExampleQuestions], prompt)
      && Occurs(context, prompt)
  {
    RenderContainsInputs(SourcePrompt, finding, row, context);
  }

  /**
   * A prompt is fixed text around the context: for the same template, finding
   * and guide row, equal prompts mean equal contexts, so no context is
   * truncated into another.
   */
  lemma PromptDeterminesContext(t: PromptTemplate, finding: Finding, row: GuideRow, c1: string, c2: string)
    requires HasPromptColumns(row)
    requires Render(t, finding, row, c1) == Render(t, finding, row, c2)
    ensures c1 == c2
  {
    TemplateRecoversPiece(PromptPieces(t, finding, row, c1), PromptPieces(t, finding, row, c2), ContextAt);
  }

  /**
   * End to end: for a given finding and guide row, the prompt built from the
   * joined answers determines those answers, in order and with empty ones kept
   * (answers without line breaks).
   */
  lemma PromptDeterminesAnswers(t: PromptTemplate, finding: Finding, row: GuideRow, a1: seq<string>, a2: seq<string>)
    requires HasPromptColumns(row)
    requires |a1| >= 1 && |a2| >= 1
    requires forall k :: 0 <= k < |a1| ==> SingleLine(a1[k])
    requires forall k :: 0 <= k < |a2| ==> SingleLine(a2[k])
    requires Render(t, finding, row, AdditionalContext(a1)) == Render(t, finding, row, AdditionalContext(a2))
    ensures a1 == a2
  {
    PromptDeterminesContext(t, finding, row, AdditionalContext(a1), AdditionalContext(a2));
    JoinInjective(a1, a2);
  }

  /** A filled-in template is fixed text on either side of the context. */
  lemma RenderAround(t: PromptTemplate, finding: Finding, row: GuideRow, context: string)
    requires HasPromptColumns(row)
    ensures var blank := PromptPieces(t, finding, row, "");
      Render(t, finding, row, context)
        == Concat(blank[..ContextAt]) + context + Concat(blank[ContextAt + 1..])
  {
    var p := PromptPieces(t, finding, row, context);
    var blank := PromptPieces(t, finding, row, "");
    ConcatAround(p, ContextAt);
    assert p[..ContextAt] == blank[..ContextAt];
    assert p[ContextAt + 1..] == blank[ContextAt + 1..];
  }

  /** Regrouping a concatenation of five strings around the middle one. */
  lemma Regroup(a: string, b: string, x: string, c: string, d: string)
    ensures a + (b + x + c) + d == (a + b) + x + (c + d)
  {
  }

  /**
   * Changing a single answer changes only its own segment of the prompt: two
   * answer lists that differ at most at position `k` give prompts that share
   * all the text before and after that answer.
   */
  lemma AnswerChangesOnlyItsSegment(t: PromptTemplate, finding: Finding, row: GuideRow,
                                    a1: seq<string>, a2: seq<string>, k: nat)
    requires HasPromptColumns(row)
    requires |a1| == |a2| && k < |a1|
    requires forall j :: 0 <= j < |a1| && j != k ==> a1[j] == a2[j]
    ensures exists pre, post ::
      && Render(t, finding, row, AdditionalContext(a1)) == pre + a1[k] + post
      && Render(t, finding, row, AdditionalContext(a2)) == pre + a2[k] + post
  {
    var blank := PromptPieces(t, finding, row, "");
    var head, tail := Concat(blank[..ContextAt]), Concat(blank[ContextAt + 1..]);
    assert a1[..k] == a2[..k];
    assert a1[k + 1..] == a2[k + 1..];
    var before, after := LinesBefore(a1[..k]), LinesAfter(a1[k + 1..]);
    RenderAround(t, finding, row, AdditionalContext(a1));
    RenderAround(t, finding, row, AdditionalContext(a2));
    JoinAround(a1, k);
    JoinAround(a2, k);
    Regroup(head, before, a1[k], after, tail);
    Regroup(head, before, a2[k], after, tail);
    var pre, post := head + before, after + tail;
    assert Render(t, finding, row, AdditionalContext(a1)) == pre + a1[k] + post;
    assert Render(t, finding, row, AdditionalContext(a2)) == pre + a2[k] + post;
  }

  /**
   * The prompt reads the guide row only through its three quoted columns: two
   * rows that agree on them give the same prompt, whatever else they hold.
   */
  lemma PromptIgnoresOtherColumns(t: PromptTemplate, finding: Finding, r1: GuideRow, r2: GuideRow, context: string)
    requires HasPromptColumns(r1) && HasPromptColumns(r2)
    requires r1.columns[GoodPractice] == r2.columns[GoodPractice]
    requires r1.columns[ElementsToCheck] == r2.columns[ElementsToCheck]
    requires r1.columns[ExampleQuestions] == r2.columns[ExampleQuestions]
    ensures Render(t, finding, r1, context) == Render(t, finding, r2, context)
  {
  }
}
