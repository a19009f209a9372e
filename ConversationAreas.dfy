/**
 * The list of active conversation areas of a town, as the controller searches
 * and validates it: lookup by areaLabel, the overlap search, and the two
 * invariants every area list of a town keeps (labels are unique, boxes do not
 * overlap).
 */
module ConversationAreas {
  import opened Optional
  import opened Geometry
  import opened CoveyTypes

  /** `find(conv => conv.areaLabel === areaLabel)`; an absent areaLabel matches no area. */
  function FindByLabel(areas: seq<ConversationArea>, areaLabel: Option<string>): (r: ConversationArea?)
    ensures r != null ==> r in areas && areaLabel == Some(r.areaLabel)
    ensures r == null <==> forall a :: a in areas ==> areaLabel != Some(a.areaLabel)
  {
    if areas == [] then null
    else if areaLabel == Some(areas[0].areaLabel) then areas[0]
    else FindByLabel(areas[1..], areaLabel)
  }

  /** `find(conv => boxesOverlap(conv.boundingBox, box))`. */
  function FindOverlapping(areas: seq<ConversationArea>, box: BoundingBox): (r: ConversationArea?)
    ensures r != null ==> r in areas && BoxesOverlap(r.boundingBox, box)
    ensures r == null <==> forall a :: a in areas ==> !BoxesOverlap(a.boundingBox, box)
  {
    if areas == [] then null
    else if BoxesOverlap(areas[0].boundingBox, box) then areas[0]
    else FindOverlapping(areas[1..], box)
  }

  /** No two areas of the list have overlapping boxes. */
  ghost predicate NoOverlap(areas: seq<ConversationArea>)
  {
    forall i, j :: 0 <= i < j < |areas| ==> !BoxesOverlap(areas[i].boundingBox, areas[j].boundingBox)
  }

  /** No two areas of the list have the same areaLabel (so no area is listed twice). */
  ghost predicate UniqueLabels(areas: seq<ConversationArea>)
  {
    forall i, j :: 0 <= i < j < |areas| ==> areas[i].areaLabel != areas[j].areaLabel
  }

  ghost predicate WellFormed(areas: seq<ConversationArea>)
  {
    NoOverlap(areas) && UniqueLabels(areas)
  }

  /** The three conditions under which a new area is accepted. */
  ghost predicate Admissible(areas: seq<ConversationArea>, area: ConversationArea)
  {
    && (forall a :: a in areas ==> a.areaLabel != area.areaLabel)
    && area.topic != ""
    && (forall a :: a in areas ==> !BoxesOverlap(a.boundingBox, area.boundingBox))
  }

  /** An admissible area is not already in the list. */
  lemma AdmissibleIsNew(areas: seq<ConversationArea>, area: ConversationArea)
    requires Admissible(areas, area)
    ensures area !in areas
  {
  }

  /** Appending an admissible area keeps the list well formed. */
  lemma AppendAdmissible(areas: seq<ConversationArea>, area: ConversationArea)
    requires WellFormed(areas) && Admissible(areas, area)
    ensures WellFormed(areas + [area])
  {
    var s := areas + [area];
    forall i, j | 0 <= i < j < |s|
      ensures !BoxesOverlap(s[i].boundingBox, s[j].boundingBox) && s[i].areaLabel != s[j].areaLabel
    {
      if j == |areas| {
        assert s[i] in areas;
      } else {
        assert s[i] == areas[i] && s[j] == areas[j];
      }
    }
  }

  /** Taking one area out keeps the list well formed. */
  lemma RemoveAtKeepsWellFormed(areas: seq<ConversationArea>, k: nat)
    requires WellFormed(areas) && k < |areas|
    ensures WellFormed(areas[..k] + areas[k + 1..])
  {
    var s := areas[..k] + areas[k + 1..];
    forall i, j | 0 <= i < j < |s|
      ensures !BoxesOverlap(s[i].boundingBox, s[j].boundingBox) && s[i].areaLabel != s[j].areaLabel
    {
      var i' := if i < k then i else i + 1;
      var j' := if j < k then j else j + 1;
      assert s[i] == areas[i'] && s[j] == areas[j'];
    }
  }

  /** In a list with unique labels, an area occurs at most once. */
  lemma UniqueLabelsNoRepeat(areas: seq<ConversationArea>, k: nat)
    requires UniqueLabels(areas) && k < |areas|
    ensures areas[k] !in areas[..k] + areas[k + 1..]
  {
  }

  /** In a well-formed list, the areaLabel lookup finds the one area with that areaLabel. */
  lemma FindByLabelUnique(areas: seq<ConversationArea>, a: ConversationArea)
    requires UniqueLabels(areas) && a in areas
    ensures FindByLabel(areas, Some(a.areaLabel)) == a
  {
    var r := FindByLabel(areas, Some(a.areaLabel));
    var i :| 0 <= i < |areas| && areas[i] == r;
    var j :| 0 <= j < |areas| && areas[j] == a;
    assert i == j;
  }
}
