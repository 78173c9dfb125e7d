/**
 * The revision overview form: the table of an entity's revisions with two
 * radio columns for picking a pair, its validation, and the submit handler
 * that orders the pair older-first and redirects to the comparison.
 *
 * Entity storage is given as inputs: `ids` is the page of revision ids the
 * entity query returned (sorted by revision id, newest first),
 * `loadRevision` stands for `loadRevision()` (None when the revision no
 * longer loads), and `revertAccess` / `deleteAccess` stand for the
 * `access()` checks of the revert and delete URLs of a revision.
 */
module EntityRevisionOverviewForm {
  import opened Wrappers
  import DiffLayoutManager

  /** A translation of a revision; only its "revision translation affected" flag matters here. */
  datatype Translation = Translation(revisionTranslationAffected: bool)

  /** A loaded revision: its translations keyed by language code. */
  datatype Revision = Revision(translations: map<string, Translation>)

  /** The entity whose revisions are listed. */
  datatype Entity = Entity(
    id: nat,
    entityType: string,
    revisionId: nat,              // the current (default) revision
    langcode: string,             // the language of the entity being viewed
    translationLanguageCount: nat)
  {
    predicate HasTranslations() { translationLanguageCount > 1 }
  }

  datatype HeaderColumn = RevisionHeader | SelectColumnOneHeader | SelectColumnTwoHeader | OperationsHeader

  datatype RadioName = RadiosLeft | RadiosRight

  /** A radio button: its group, the value it submits and its default (None is FALSE). */
  datatype SelectColumn = SelectColumn(name: RadioName, returnValue: nat, defaultValue: Option<nat>)

  /** The date links to the entity itself on the current row and to the revision page elsewhere. */
  datatype RevisionLink = EntityLink | RevisionPageLink

  datatype RevertTitle = Revert | SetAsCurrentRevision

  /** The revert link, on the translation revert route when the entity has translations. */
  datatype RevertLink = RevertLink(title: RevertTitle, translationRoute: bool)

  datatype Operations =
    | CurrentRevisionMarker
    | OperationLinks(revert: Option<RevertLink>, delete: bool)

  datatype Row = Row(
    revisionId: nat,
    revision: Revision,
    previousRevision: Option<Revision>,   // handed to the revision description
    link: RevisionLink,
    current: bool,
    selectColumnOne: Option<SelectColumn>,
    selectColumnTwo: Option<SelectColumn>,
    operations: Operations)

  /** The built form: hidden entity fields, the table and whether the compare button is shown. */
  datatype Overview = Overview(
    entityId: nat,
    entityType: string,
    header: seq<HeaderColumn>,
    rows: seq<Row>,
    compareButton: bool)

  /** buildSelectColumn: an invisible-title radio of group `name` submitting `returnValue`. */
  function BuildSelectColumn(name: RadioName, returnValue: nat, defaultValue: Option<nat>): (c: SelectColumn)
    ensures c.name == name && c.returnValue == returnValue && c.defaultValue == defaultValue
  {
    SelectColumn(name, returnValue, defaultValue)
  }

  /** A revision gets a row only if it loads and is a real edit of the viewed translation. */
  predicate Listed(revision: Option<Revision>, langcode: string)
  {
    && revision.Some?
    && langcode in revision.value.translations
    && revision.value.translations[langcode].revisionTranslationAffected
  }

  /** The columns of the table; the radio columns only when the page holds two ids or more. */
  function TableHeader(revisionCount: nat): (h: seq<HeaderColumn>)
    ensures |h| == (if revisionCount > 1 then 4 else 2)
    ensures h[0] == RevisionHeader && h[|h| - 1] == OperationsHeader
    ensures SelectColumnOneHeader in h <==> revisionCount > 1
    ensures SelectColumnTwoHeader in h <==> revisionCount > 1
  {
    [RevisionHeader]
      + (if revisionCount > 1 then [SelectColumnOneHeader, SelectColumnTwoHeader] else [])
      + [OperationsHeader]
  }

  /**
   * What the row emitted for position `p` of `ids` holds. The previous
   * revision is the one at position p + 1 of the unfiltered page, whether or
   * not that one is listed itself. The current row offers the radios (only
   * when there are two ids or more), defaulting left to FALSE and right to
   * itself, and no operations; any other row defaults left to the second id
   * of the page, right to FALSE, and offers revert ("Revert" for an older
   * revision, "Set as current revision" otherwise) and delete as access allows.
   */
  ghost predicate RowFor(
    row: Row, p: nat, ids: seq<nat>, loadRevision: nat -> Option<Revision>,
    entity: Entity, revertAccess: nat -> bool, deleteAccess: nat -> bool)
    requires p < |ids|
  {
    var id := ids[p];
    && row.revisionId == id
    && loadRevision(id) == Some(row.revision)
    && row.previousRevision == (if p + 1 < |ids| then loadRevision(ids[p + 1]) else None)
    && (row.current <==> id == entity.revisionId)
    && (row.current ==>
          && row.link == EntityLink
          && row.selectColumnOne == (if |ids| > 1 then Some(SelectColumn(RadiosLeft, id, None)) else None)
          && row.selectColumnTwo == (if |ids| > 1 then Some(SelectColumn(RadiosRight, id, Some(id))) else None)
          && row.operations == CurrentRevisionMarker)
    && (!row.current ==>
          && row.link == RevisionPageLink
          && row.selectColumnOne == Some(SelectColumn(RadiosLeft, id, if |ids| > 1 then Some(ids[1]) else None))
          && row.selectColumnTwo == Some(SelectColumn(RadiosRight, id, None))
          && row.operations == OperationLinks(
               if revertAccess(id)
               then Some(RevertLink(if id < entity.revisionId then Revert else SetAsCurrentRevision,
                                    entity.HasTranslations()))
               else None,
               deleteAccess(id)))
  }

  predicate StrictlyDecreasing(ids: seq<nat>)
  {
    forall i, j :: 0 <= i < j < |ids| ==> ids[i] > ids[j]
  }

  predicate Distinct(ids: seq<nat>)
  {
    forall i, j :: 0 <= i < j < |ids| ==> ids[i] != ids[j]
  }

  /**
   * buildForm. `positions` (ghost) gives, for each emitted row, the position
   * in `ids` it was built from: rows come in the order of `ids`, and exactly
   * the listed positions yield a row.
   */
  method BuildForm(
    ids: seq<nat>, loadRevision: nat -> Option<Revision>, entity: Entity,
    revertAccess: nat -> bool, deleteAccess: nat -> bool)
    returns (build: Overview, ghost positions: seq<nat>)
    ensures build.entityId == entity.id && build.entityType == entity.entityType
    ensures build.header == TableHeader(|ids|)
    ensures build.compareButton <==> |ids| > 1
    ensures |positions| == |build.rows|
    ensures forall i :: 0 <= i < |positions| ==> positions[i] < |ids|
    ensures forall i, j :: 0 <= i < j < |positions| ==> positions[i] < positions[j]
    ensures forall p :: 0 <= p < |ids| ==> (p in positions <==> Listed(loadRevision(ids[p]), entity.langcode))
    ensures forall i :: 0 <= i < |build.rows| ==>
      RowFor(build.rows[i], positions[i], ids, loadRevision, entity, revertAccess, deleteAccess)
    ensures StrictlyDecreasing(ids) ==>
      forall i, j :: 0 <= i < j < |build.rows| ==> build.rows[i].revisionId > build.rows[j].revisionId
    ensures Distinct(ids) ==>
      forall i, j :: 0 <= i < j < |build.rows| ==> !(build.rows[i].current && build.rows[j].current)
  {
    var langcode := entity.langcode;
    var revisionCount := |ids|;
    var rows: seq<Row> := [];
    positions := [];
    var defaultRevision := entity.revisionId;
    for key := 0 to |ids|
      invariant |positions| == |rows|
      invariant forall i :: 0 <= i < |positions| ==> positions[i] < key
      invariant forall i, j :: 0 <= i < j < |positions| ==> positions[i] < positions[j]
      invariant forall p :: 0 <= p < key ==> (p in positions <==> Listed(loadRevision(ids[p]), langcode))
      invariant forall i :: 0 <= i < |rows| ==>
        RowFor(rows[i], positions[i], ids, loadRevision, entity, revertAccess, deleteAccess)
    {
      var revisionId := ids[key];
      var previousRevision := None;
      if key + 1 < |ids| {
        previousRevision := loadRevision(ids[key + 1]);
      }
      var loaded := loadRevision(revisionId);
      if loaded.None? {
        continue;
      }
      var revision := loaded.value;
      if langcode !in revision.translations {
        continue;
      }
      if !revision.translations[langcode].revisionTranslationAffected {
        continue;
      }
      var link := if revisionId != entity.revisionId then RevisionPageLink else EntityLink;
      var row;
      if revisionId == defaultRevision {
        var one, two := None, None;
        if revisionCount > 1 {
          one := Some(BuildSelectColumn(RadiosLeft, revisionId, None));
          two := Some(BuildSelectColumn(RadiosRight, revisionId, Some(revisionId)));
        }
        row := Row(revisionId, revision, previousRevision, link, true, one, two, CurrentRevisionMarker);
      } else {
        var revert := None;
        if revertAccess(revisionId) {
          var title := if revisionId < entity.revisionId then Revert else SetAsCurrentRevision;
          revert := Some(RevertLink(title, entity.HasTranslations()));
        }
        var leftDefault := if 1 < |ids| then Some(ids[1]) else None;
        row := Row(revisionId, revision, previousRevision, link, false,
                   Some(BuildSelectColumn(RadiosLeft, revisionId, leftDefault)),
                   Some(BuildSelectColumn(RadiosRight, revisionId, None)),
                   OperationLinks(revert, deleteAccess(revisionId)));
      }
      assert RowFor(row, key, ids, loadRevision, entity, revertAccess, deleteAccess);
      rows := rows + [row];
      positions := positions + [key];
    }
    build := Overview(entity.id, entity.entityType, TableHeader(revisionCount), rows, revisionCount > 1);
  }

  // ----- validateForm -----

  datatype ValidationError =
    | MultipleRevisionsNeeded     // "Multiple revisions are needed for comparison."
    | SelectTwoRevisions          // "Select two revisions to compare."
    | SelectDifferentRevisions    // "Select different revisions to compare."

  /**
   * The checks of validateForm in their order, the first failing one
   * winning: at most one table value, then a missing radio, then the same
   * revision on both sides.
   */
  function SelectionError(tableValueCount: nat, radiosLeft: Option<nat>, radiosRight: Option<nat>)
    : (e: Option<ValidationError>)
    ensures e == Some(MultipleRevisionsNeeded) <==> tableValueCount <= 1
    ensures e == Some(SelectTwoRevisions) <==> tableValueCount > 1 && (radiosLeft.None? || radiosRight.None?)
    ensures e == Some(SelectDifferentRevisions) <==>
      tableValueCount > 1 && radiosLeft.Some? && radiosRight.Some? && radiosLeft.value == radiosRight.value
    ensures e == None <==>
      tableValueCount > 1 && radiosLeft.Some? && radiosRight.Some? && radiosLeft.value != radiosRight.value
  {
    if tableValueCount <= 1 then Some(MultipleRevisionsNeeded)
    else if radiosLeft.None? || radiosRight.None? then Some(SelectTwoRevisions)
    else if radiosLeft.value == radiosRight.value then Some(SelectDifferentRevisions)
    else None
  }

  /** What the browser submitted. */
  datatype UserInput = UserInput(radiosLeft: Option<nat>, radiosRight: Option<nat>, entityId: nat, entityType: string)

  /** The target of the `entity.<type>.revisions_diff` route; `filter` None is FALSE. */
  datatype Redirect = Redirect(entityType: string, entityId: nat, leftRevision: nat, rightRevision: nat, filter: Option<string>)

  /** The part of the form state this form reads and writes. */
  class FormState {
    const input: UserInput
    const tableValueCount: nat    // count of the submitted `entity_revisions_table` value
    var errors: seq<ValidationError>   // all set on the `entity_revisions_table` element
    var redirect: Option<Redirect>

    constructor (input: UserInput, tableValueCount: nat)
      ensures this.input == input && this.tableValueCount == tableValueCount
      ensures errors == [] && redirect == None
    {
      this.input := input;
      this.tableValueCount := tableValueCount;
      errors := [];
      redirect := None;
    }
  }

  /** validateForm: records the first failing check, if any, on the form state. */
  method ValidateForm(formState: FormState)
    modifies formState
    ensures formState.redirect == old(formState.redirect)
    ensures formState.errors == old(formState.errors) +
      match SelectionError(formState.tableValueCount, formState.input.radiosLeft, formState.input.radiosRight)
      case Some(e) => [e]
      case None => []
  {
    var input := formState.input;
    if formState.tableValueCount <= 1 {
      formState.errors := formState.errors + [MultipleRevisionsNeeded];
    } else if input.radiosLeft.None? || input.radiosRight.None? {
      formState.errors := formState.errors + [SelectTwoRevisions];
    } else if input.radiosLeft.value == input.radiosRight.value {
      formState.errors := formState.errors + [SelectDifferentRevisions];
    }
  }

  // ----- submitForm -----

  /** `(l, r)` is the pair `{a, b}` with the older revision on the left. */
  ghost predicate OlderFirst(l: nat, r: nat, a: nat, b: nat)
  {
    l <= r && multiset{l, r} == multiset{a, b}
  }

  /** The swap through `$aux`: only a pair whose left is newer is exchanged. */
  method OrderRevisions(left: nat, right: nat) returns (l: nat, r: nat)
    ensures OlderFirst(l, r, left, right)
    ensures left <= right ==> l == left && r == right
  {
    l, r := left, right;
    if l > r {
      var aux := l;
      l := r;
      r := aux;
    }
  }

  /** Whichever order the two revisions are picked in, the same pair is compared. */
  lemma {:induction false} OlderFirstIsOrderIndependent(a: nat, b: nat, l1: nat, r1: nat, l2: nat, r2: nat)
    requires OlderFirst(l1, r1, a, b) && OlderFirst(l2, r2, b, a)
    ensures l1 == l2 && r1 == r2
  {
    assert l1 in multiset{a, b} && r1 in multiset{a, b};
    assert l2 in multiset{a, b} && r2 in multiset{a, b};
  }

  /** A pair that passed validation is compared strictly older to newer. */
  lemma {:induction false} ValidatedPairIsStrict(tableValueCount: nat, a: nat, b: nat, l: nat, r: nat)
    requires SelectionError(tableValueCount, Some(a), Some(b)) == None
    requires OlderFirst(l, r, a, b)
    ensures l < r
  {
    assert l in multiset{a, b} && r in multiset{a, b};
  }

  /**
   * submitForm: redirects to the comparison of the two picked revisions,
   * older on the left, in the default layout. The form framework only
   * submits after validation passed, so both radios are set.
   */
  method SubmitForm(
    formState: FormState,
    layoutPlugins: Option<DiffLayoutManager.PluginConfig>, labelOf: string -> string)
    requires formState.input.radiosLeft.Some? && formState.input.radiosRight.Some?
    requires layoutPlugins.Some? ==> DiffLayoutManager.UniqueKeys(layoutPlugins.value)
    modifies formState
    ensures formState.errors == old(formState.errors)
    ensures formState.redirect.Some?
    ensures var target := formState.redirect.value;
      && target.entityType == formState.input.entityType
      && target.entityId == formState.input.entityId
      && OlderFirst(target.leftRevision, target.rightRevision,
                    formState.input.radiosLeft.value, formState.input.radiosRight.value)
      && (formState.input.radiosLeft.value <= formState.input.radiosRight.value ==>
            target.leftRevision == formState.input.radiosLeft.value)
      && (target.filter.None? <==>
            layoutPlugins.None? || forall k :: !DiffLayoutManager.EnabledIn(layoutPlugins.value, k))
      && (target.filter.Some? ==>
            && layoutPlugins.Some?
            && DiffLayoutManager.EnabledIn(layoutPlugins.value, target.filter.value)
            && DiffLayoutManager.LightestEnabled(layoutPlugins.value, target.filter.value))
  {
    var input := formState.input;
    var left, right := OrderRevisions(input.radiosLeft.value, input.radiosRight.value);
    var filter := DiffLayoutManager.GetDefaultLayout(layoutPlugins, labelOf);
    formState.redirect := Some(Redirect(input.entityType, input.entityId, left, right, filter));
  }
}

/**
 * A client of the overview form: on the page [5, 4, 3, 2, 1], where
 * revision 3 no longer loads, the rows are 5, 4, 2, 1, and the row of 4
 * still describes its change against position 3 of the page (which did not
 * load) rather than against revision 2.
 */
module OverviewScenario {
  import opened Wrappers
  import opened EntityRevisionOverviewForm

  /**
   * The revisions of the scenario page: each id loads a revision of its own
   * (told apart by an extra, unaffected translation), except 3, which no
   * longer loads.
   */
  function ScenarioRevision(id: nat): Option<Revision>
  {
    if id == 3 then None
    else Some(Revision(map["en" := Translation(true), ScenarioLanguage(id) := Translation(false)]))
  }

  function ScenarioLanguage(id: nat): string
  {
    if id == 5 then "de" else if id == 4 then "fr" else if id == 2 then "it" else "nl"
  }

  /**
   * The page [5, 4, 3, 2, 1] with revision 3 no longer loading: the rows
   * above the gap. The current row compares against revision 4, and the row
   * of 4 against the missing revision 3 (None), not against revision 2.
   */
  method DeletedRevisionScenario()
  {
    var entity := Entity(1, "node", 5, "en", 1);
    var ids := [5, 4, 3, 2, 1];
    var allow := (id: nat) => true;
    var build, positions := BuildForm(ids, ScenarioRevision, entity, allow, allow);
    ScenarioPositions(ids, positions);
    assert |build.rows| == 4;
    assert positions[0] == 0;
    assert build.rows[0].revisionId == 5 && build.rows[0].current;
    assert build.rows[0].previousRevision == ScenarioRevision(4);
    assert build.rows[0].operations == CurrentRevisionMarker;
    assert positions[1] == 1;
    assert build.rows[1].previousRevision == None;
    assert build.rows[1].selectColumnOne == Some(SelectColumn(RadiosLeft, 4, Some(4)));
  }

  /**
   * On the same page, the rows below the gap: the row of 2 compares against
   * the revision 1 loads, which differs from its own, and the last row has
   * no previous revision.
   */
  method DeletedRevisionLowerRowsScenario()
  {
    var entity := Entity(1, "node", 5, "en", 1);
    var ids := [5, 4, 3, 2, 1];
    var allow := (id: nat) => true;
    var build, positions := BuildForm(ids, ScenarioRevision, entity, allow, allow);
    ScenarioPositions(ids, positions);
    assert positions[2] == 3;
    assert build.rows[2].revisionId == 2 && Some(build.rows[2].revision) == ScenarioRevision(2);
    assert build.rows[2].previousRevision == ScenarioRevision(1);
    ScenarioRevisionsDiffer(1, 2);
    assert build.rows[2].previousRevision != Some(build.rows[2].revision);
    assert positions[3] == 4;
    assert build.rows[3].revisionId == 1 && build.rows[3].previousRevision == None;
  }

  /** Different loadable ids of the scenario page load different revisions. */
  lemma ScenarioRevisionsDiffer(a: nat, b: nat)
    requires a in {5, 4, 2, 1} && b in {5, 4, 2, 1} && a != b
    ensures ScenarioRevision(a).Some? && ScenarioRevision(b).Some?
    ensures ScenarioRevision(a) != ScenarioRevision(b)
  {
    assert ScenarioLanguage(a) in ScenarioRevision(a).value.translations;
    assert ScenarioLanguage(a) !in ScenarioRevision(b).value.translations;
  }

  /** The positions of the scenario page that get a row are all but the missing revision's. */
  lemma ScenarioPositions(ids: seq<nat>, positions: seq<nat>)
    requires ids == [5, 4, 3, 2, 1]
    requires forall i, j :: 0 <= i < j < |positions| ==> positions[i] < positions[j]
    requires forall i :: 0 <= i < |positions| ==> positions[i] < |ids|
    requires forall p :: 0 <= p < |ids| ==> (p in positions <==> Listed(ScenarioRevision(ids[p]), "en"))
    ensures positions == [0, 1, 3, 4]
  {
    assert Listed(ScenarioRevision(ids[0]), "en") && Listed(ScenarioRevision(ids[1]), "en");
    assert !Listed(ScenarioRevision(ids[2]), "en");
    assert Listed(ScenarioRevision(ids[3]), "en") && Listed(ScenarioRevision(ids[4]), "en");
    EveryPositionButTwo(positions);
  }

  /** An increasing sequence below 5 holding 0, 1, 3 and 4 but not 2 is [0, 1, 3, 4]. */
  lemma EveryPositionButTwo(positions: seq<nat>)
    requires forall i, j :: 0 <= i < j < |positions| ==> positions[i] < positions[j]
    requires forall i :: 0 <= i < |positions| ==> positions[i] < 5
    requires 0 in positions && 1 in positions && 2 !in positions && 3 in positions && 4 in positions
    ensures positions == [0, 1, 3, 4]
  {
    var i0 :| 0 <= i0 < |positions| && positions[i0] == 0;
    assert positions[0] <= positions[i0];
    var i1 :| 0 <= i1 < |positions| && positions[i1] == 1;
    assert 1 <= i1 && positions[1] <= positions[i1];
    var i3 :| 0 <= i3 < |positions| && positions[i3] == 3;
    assert 2 <= i3 && positions[2] <= positions[i3] && positions[2] != 2;
    var i4 :| 0 <= i4 < |positions| && positions[i4] == 4;
    assert 3 <= i4 && positions[3] <= positions[i4];
    IncreasingBetween(positions[2..], 3, 5);
  }

  /** A strictly increasing sequence of values in [lo, hi) has at most hi - lo elements. */
  lemma {:induction false} IncreasingBetween(s: seq<nat>, lo: nat, hi: nat)
    requires lo <= hi
    requires forall i :: 0 <= i < |s| ==> lo <= s[i] < hi
    requires forall i, j :: 0 <= i < j < |s| ==> s[i] < s[j]
    ensures |s| <= hi - lo
  {
    if s != [] {
      IncreasingBetween(s[1..], s[0] + 1, hi);
    }
  }
}
