/**
 * The reference guide and the lookup of a requirement number in it
 * (`get_guide_info`). The guide is the table read from the IFS Food 8
 * checklist: one row per requirement, its `NUM_REQ` cell plus the other
 * columns by name.
 *
 * pandas' `Series.str.contains` treats the requirement number as a regular
 * expression, so in the application the `.` of "4.1" matches any character.
 * The model matches the number as a literal substring instead.
 */
module GuideIndex {
  import opened Wrappers
  import opened Text

  /**
   * One row of the guide. `numReq` is `None` where the `NUM_REQ` cell is
   * empty (NaN in pandas); `columns` holds the other cells by column name.
   */
  datatype GuideRow = GuideRow(numReq: Option<string>, columns: map<string, string>)

  /**
   * The row qualifies for requirement number `id`: its `NUM_REQ` cell holds
   * `id` as a substring. A missing cell never qualifies (`na=False`).
   */
  predicate Matches(row: GuideRow, id: string) {
    row.numReq.Some? && Contains(row.numReq.value, id)
  }

  /** `k` is the position of the first qualifying row of `guide`. */
  ghost predicate IsFirstMatch(guide: seq<GuideRow>, id: string, k: nat) {
    k < |guide| && Matches(guide[k], id) &&
    forall j :: 0 <= j < k ==> !Matches(guide[j], id)
  }

  /** The position of the first qualifying row at or after `from`, if any. */
  function FirstMatchFrom(guide: seq<GuideRow>, id: string, from: nat): (k: Option<nat>)
    requires from <= |guide|
    ensures k.Some? ==> from <= k.value < |guide| && Matches(guide[k.value], id)
    ensures k.Some? ==> forall j :: from <= j < k.value ==> !Matches(guide[j], id)
    ensures k.None? ==> forall j :: from <= j < |guide| ==> !Matches(guide[j], id)
    decreases |guide| - from
  {
    if from == |guide| then None
    else if Matches(guide[from], id) then Some(from)
    else FirstMatchFrom(guide, id, from + 1)
  }

  /**
   * `get_guide_info`: the first row, in guide order, whose `NUM_REQ` holds
   * the requirement number, or `None` when no row qualifies.
   */
  function GetGuideInfo(id: string, guide: seq<GuideRow>): (r: Option<GuideRow>)
    ensures r.None? <==> forall j :: 0 <= j < |guide| ==> !Matches(guide[j], id)
    ensures r.Some? ==> exists k: nat :: IsFirstMatch(guide, id, k) && guide[k] == r.value
  {
    match FirstMatchFrom(guide, id, 0)
    case None => None
    case Some(k) =>
      assert IsFirstMatch(guide, id, k);
      Some(guide[k])
  }

  /** The converse: whenever `k` is the first qualifying position, the lookup returns row `k`. */
  lemma LookupReturnsFirstMatch(id: string, guide: seq<GuideRow>, k: nat)
    requires IsFirstMatch(guide, id, k)
    ensures GetGuideInfo(id, guide) == Some(guide[k])
  {
    var r := GetGuideInfo(id, guide);
    assert r.Some?;
    var k': nat :| IsFirstMatch(guide, id, k') && guide[k'] == r.value;
    assert Matches(guide[k'], id) && Matches(guide[k], id);
    assert k' == k;
  }

  /**
   * Rows whose `NUM_REQ` cell is missing play no part in the lookup: inserting
   * one anywhere in the guide leaves the answer unchanged.
   */
  lemma MissingNumReqIgnored(id: string, guide: seq<GuideRow>, i: nat, blank: GuideRow)
    requires i <= |guide| && blank.numReq.None?
    ensures GetGuideInfo(id, guide[..i] + [blank] + guide[i..]) == GetGuideInfo(id, guide)
  {
    var g := guide[..i] + [blank] + guide[i..];
    assert forall j :: 0 <= j < i ==> g[j] == guide[j];
    assert forall j :: i < j < |g| ==> g[j] == guide[j - 1];
    match GetGuideInfo(id, guide)
    case None =>
      forall j | 0 <= j < |g| ensures !Matches(g[j], id) {
        if j > i { assert g[j] == guide[j - 1]; }
      }
    case Some(row) =>
      var k: nat :| IsFirstMatch(guide, id, k) && guide[k] == row;
      var k' := if k < i then k else k + 1;
      assert g[k'] == guide[k];
      forall j | 0 <= j < k' ensures !Matches(g[j], id) {
        if j > i { assert g[j] == guide[j - 1]; }
      }
      LookupReturnsFirstMatch(id, g, k');
  }

  /**
   * Only the first match counts: once a row qualifies, rows added after the
   * end of the guide cannot change the answer.
   */
  lemma LaterRowsIgnored(id: string, guide: seq<GuideRow>, more: seq<GuideRow>)
    requires GetGuideInfo(id, guide).Some?
    ensures GetGuideInfo(id, guide + more) == GetGuideInfo(id, guide)
  {
    var k: nat :| IsFirstMatch(guide, id, k) && guide[k] == GetGuideInfo(id, guide).value;
    var g := guide + more;
    assert forall j :: 0 <= j <= k ==> g[j] == guide[j];
    LookupReturnsFirstMatch(id, g, k);
  }
}
