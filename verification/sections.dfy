/**
 * The section tracker's specification: which page section the scroll
 * handler of src/Portfolio.jsx reports as active. The document is
 * abstracted to what the handler reads from it: for each element id that
 * exists, its vertical offset and its height (`offsetTop`, `offsetHeight`).
 */
module Sections {
  import opened Wrappers

  /** Position and extent of one rendered section. */
  datatype Box = Box(top: int, height: int)

  /** The six page sections; each is the element whose id is its name in lower case ("home", "about", …). */
  datatype Section = Home | About | Experience | Projects | Education | Contact

  /** The document as the tracker sees it: the sections `getElementById` finds. */
  type Document = map<Section, Box>

  /** The six sections, in the declared order the scan follows. */
  const Order: seq<Section> := [Home, About, Experience, Projects, Education, Contact]

  /** The section that is active before any scroll event. */
  const Initial: Section := Home

  /** Bias added to the scroll offset, so a section activates a little before its top reaches the viewport top. */
  const LookAhead: int := 100

  /** The scroll-to-top button shows once the offset exceeds this. */
  const ScrollTopThreshold: int := 300

  /** `[top, top + height)` holds the position: inclusive at the top, exclusive at the bottom. */
  predicate Covers(b: Box, pos: int) {
    b.top <= pos < b.top + b.height
  }

  /** Section `id` is present in the document and its range holds `pos`. */
  predicate Hit(doc: Document, id: Section, pos: int) {
    id in doc && Covers(doc[id], pos)
  }

  /** The first id of `ids`, in order, that is a hit; None when there is none. */
  function FirstHit(doc: Document, pos: int, ids: seq<Section>): (r: Option<Section>)
    ensures r.Some? ==> r.value in ids && Hit(doc, r.value, pos)
  {
    if ids == [] then None
    else if Hit(doc, ids[0], pos) then Some(ids[0])
    else FirstHit(doc, pos, ids[1..])
  }

  /** The active section after a scroll event at offset `scrollY`, given the one active before. */
  function ActiveAfterScroll(doc: Document, scrollY: int, previous: Section): (active: Section)
    ensures active == previous || Hit(doc, active, scrollY + LookAhead)
  {
    match FirstHit(doc, scrollY + LookAhead, Order)
    case Some(id) => id
    case None => previous
  }

  /** Whether the scroll-to-top button is shown after a scroll event. */
  predicate ShowsScrollTop(scrollY: int) {
    scrollY > ScrollTopThreshold
  }

  /**
   * A result of the scan is the first hit: it is the id at some index `k`,
   * and no id before index `k` is a hit. So a later section never wins
   * over an earlier one whose range also holds the position.
   */
  lemma {:induction false} FirstHitIsFirst(doc: Document, pos: int, ids: seq<Section>)
    requires FirstHit(doc, pos, ids).Some?
    ensures exists k :: 0 <= k < |ids| && ids[k] == FirstHit(doc, pos, ids).value
                        && Hit(doc, ids[k], pos)
                        && forall j :: 0 <= j < k ==> !Hit(doc, ids[j], pos)
  {
    if Hit(doc, ids[0], pos) {
      assert ids[0] == FirstHit(doc, pos, ids).value;
    } else {
      FirstHitIsFirst(doc, pos, ids[1..]);
      var k :| 0 <= k < |ids[1..]| && ids[1..][k] == FirstHit(doc, pos, ids[1..]).value
               && Hit(doc, ids[1..][k], pos)
               && forall j :: 0 <= j < k ==> !Hit(doc, ids[1..][j], pos);
      assert ids[k + 1] == ids[1..][k];
      forall j | 0 <= j < k + 1
        ensures !Hit(doc, ids[j], pos)
      {
        if j > 0 { assert ids[j] == ids[1..][j - 1]; }
      }
    }
  }

  /** Conversely, the first hit in declared order is what the scan returns. */
  lemma {:induction false} FirstHitFound(doc: Document, pos: int, ids: seq<Section>, k: nat)
    requires k < |ids| && Hit(doc, ids[k], pos)
    requires forall j :: 0 <= j < k ==> !Hit(doc, ids[j], pos)
    ensures FirstHit(doc, pos, ids) == Some(ids[k])
  {
    if k > 0 {
      assert !Hit(doc, ids[0], pos);
      forall j | 0 <= j < k - 1
        ensures !Hit(doc, ids[1..][j], pos)
      {
        assert ids[1..][j] == ids[j + 1];
      }
      FirstHitFound(doc, pos, ids[1..], k - 1);
    }
  }

  /** The scan finds nothing exactly when no id is a hit (absent ids never are). */
  lemma {:induction false} FirstHitNone(doc: Document, pos: int, ids: seq<Section>)
    ensures FirstHit(doc, pos, ids).None? <==> forall k :: 0 <= k < |ids| ==> !Hit(doc, ids[k], pos)
  {
    if ids != [] {
      FirstHitNone(doc, pos, ids[1..]);
      if FirstHit(doc, pos, ids).None? {
        forall k | 0 <= k < |ids|
          ensures !Hit(doc, ids[k], pos)
        {
          if k > 0 { assert ids[k] == ids[1..][k - 1]; }
        }
      } else if !Hit(doc, ids[0], pos) {
        var w :| 0 <= w < |ids[1..]| && Hit(doc, ids[1..][w], pos);
        assert ids[w + 1] == ids[1..][w];
      }
    }
  }

  /** A scroll that hits no present section keeps the previously active one. */
  lemma KeepsPreviousWhenNoHit(doc: Document, scrollY: int, previous: Section)
    requires forall k :: 0 <= k < |Order| ==> !Hit(doc, Order[k], scrollY + LookAhead)
    ensures ActiveAfterScroll(doc, scrollY, previous) == previous
  {
    FirstHitNone(doc, scrollY + LookAhead, Order);
  }

  /** Six sections stacked 800 high from 0: at offset 750 the position is 850, inside About. */
  lemma StackedExample(previous: Section)
    ensures ActiveAfterScroll(map[Home := Box(0, 800), About := Box(800, 800),
                                 Experience := Box(1600, 800), Projects := Box(2400, 800),
                                 Education := Box(3200, 800), Contact := Box(4000, 800)],
                             750, previous) == About
  {
    var doc := map[Home := Box(0, 800), About := Box(800, 800),
                   Experience := Box(1600, 800), Projects := Box(2400, 800),
                   Education := Box(3200, 800), Contact := Box(4000, 800)];
    assert !Hit(doc, Order[0], 850);
    FirstHitFound(doc, 850, Order, 1);
  }

  /**
   * Effective position exactly on the boundary between two consecutive
   * declared sections: the upper range excludes its bottom, the lower one
   * includes its top, so the lower section becomes active (provided no
   * section declared before the upper one covers the position).
   */
  lemma BoundaryBelongsToLower(doc: Document, k: nat, scrollY: int, previous: Section)
    requires 0 < k < |Order| && Order[k - 1] in doc && Order[k] in doc
    requires doc[Order[k - 1]].top + doc[Order[k - 1]].height == scrollY + LookAhead
    requires doc[Order[k]].top == scrollY + LookAhead && doc[Order[k]].height > 0
    requires forall j :: 0 <= j < k - 1 ==> !Hit(doc, Order[j], scrollY + LookAhead)
    ensures ActiveAfterScroll(doc, scrollY, previous) == Order[k]
  {
    assert !Hit(doc, Order[k - 1], scrollY + LookAhead);
    FirstHitFound(doc, scrollY + LookAhead, Order, k);
  }
}
