/**
 * The non-conformity taken from the audit action plan, and the three
 * follow-up questions composed from it and its guide row
 * (`generate_dynamic_questions`).
 */
module QuestionComposer {
  import opened Text
  import opened GuideIndex

  /**
   * One row of the uploaded action plan: the requirement number ("Numéro
   * d'exigence"), the requirement text ("Exigence IFS Food 8") and the
   * auditor's explanation.
   */
  datatype Finding = Finding(numReq: string, requirementText: string, auditComment: string)

  /** Names of the guide columns the application reads. */
  const GoodPractice := "Good practice"
  const ElementsToCheck := "Elements to check"
  const ExampleQuestions := "Example questions"

  /** What `Series.get` yields for a column the guide does not have. */
  const Unspecified := "Non spécifié"

  /** `guide_row.get(name, 'Non spécifié')`. */
  function Column(row: GuideRow, name: string): string {
    if name in row.columns then row.columns[name] else Unspecified
  }

  /** The fixed text around each interpolated value. */
  const CausePrefix := "Quelles sont les causes potentielles de cette non-conformité ? (Contexte : "
  const ProcedurePrefix := "Quelles sont les procédures actuelles pour répondre à cette exigence ? (Éléments à vérifier : "
  const PreventionPrefix := "Quelles mesures supplémentaires pourraient prévenir des risques similaires dans le futur ? (Exemples : "
  const Close := ")"

  /** One question: its fixed prefix, the interpolated value, the closing parenthesis. */
  function Probe(prefix: string, value: string): string {
    prefix + value + Close
  }

  /**
   * `generate_dynamic_questions`: exactly three non-empty questions in a fixed
   * order — the cause probe quotes the auditor's comment, the procedure probe
   * the "Elements to check" column, the prevention probe the "Example
   * questions" column, each falling back to "Non spécifié" when the column is
   * absent.
   */
  function DynamicQuestions(row: GuideRow, finding: Finding): (qs: seq<string>)
    ensures |qs| == 3
    ensures forall k :: 0 <= k < |qs| ==> |qs[k]| > 0
    ensures Occurs(finding.auditComment, qs[0])
    ensures Occurs(Column(row, ElementsToCheck), qs[1])
    ensures Occurs(Column(row, ExampleQuestions), qs[2])
    ensures ElementsToCheck !in row.columns ==> Occurs(Unspecified, qs[1])
    ensures ExampleQuestions !in row.columns ==> Occurs(Unspecified, qs[2])
  {
    OccursBetween(CausePrefix, finding.auditComment, Close);
    OccursBetween(ProcedurePrefix, Column(row, ElementsToCheck), Close);
    OccursBetween(PreventionPrefix, Column(row, ExampleQuestions), Close);
    [ Probe(CausePrefix, finding.auditComment),
      Probe(ProcedurePrefix, Column(row, ElementsToCheck)),
      Probe(PreventionPrefix, Column(row, ExampleQuestions)) ]
  }

  /**
   * The questions are exactly as informative as the three values they quote:
   * two (row, finding) pairs give the same questions if and only if they agree
   * on the auditor's comment and on the two guide columns. In particular the
   * good practice and the requirement text, which are read, play no part.
   */
  lemma QuestionsDeterminedByQuotedValues(r1: GuideRow, f1: Finding, r2: GuideRow, f2: Finding)
    ensures DynamicQuestions(r1, f1) == DynamicQuestions(r2, f2) <==>
      f1.auditComment == f2.auditComment &&
      Column(r1, ElementsToCheck) == Column(r2, ElementsToCheck) &&
      Column(r1, ExampleQuestions) == Column(r2, ExampleQuestions)
  {
    var q1, q2 := DynamicQuestions(r1, f1), DynamicQuestions(r2, f2);
    if q1 == q2 {
      assert q1[0] == q2[0] && q1[1] == q2[1] && q1[2] == q2[2];
      CancelAround(CausePrefix, f1.auditComment, f2.auditComment, Close);
      CancelAround(ProcedurePrefix, Column(r1, ElementsToCheck), Column(r2, ElementsToCheck), Close);
      CancelAround(PreventionPrefix, Column(r1, ExampleQuestions), Column(r2, ExampleQuestions), Close);
    }
  }
}
