/** The comparison page (src/app/compare/page.tsx): its own list of at most
    two selected swing ids, seeded from the store, the swings it shows, the
    automatic request to generate a missing pose analysis, and which panels
    it renders. */
module ComparePage {
  import opened Common
  import opened Types
  import opened SwingsSlice
  import opened LibraryPage
  import opened SwingHooks

  /** The page's local state. */
  class CompareView {
    var selectedSwingIds: seq<string>

    constructor ()
      ensures selectedSwingIds == []
    {
      selectedSwingIds := [];
    }

    /** The effect on the store selection: copy its first two ids, but only
        when it has any. */
    method SyncFromStore(storeSelection: seq<string>)
      modifies this
      ensures |storeSelection| > 0 ==>
        selectedSwingIds == storeSelection[..if |storeSelection| < 2 then |storeSelection| else 2]
      ensures |storeSelection| == 0 ==> selectedSwingIds == old(selectedSwingIds)
    {
      if |storeSelection| > 0 {
        var n := if |storeSelection| < 2 then |storeSelection| else 2;
        selectedSwingIds := storeSelection[..n];
      }
    }

    /** `handleSwingSelect`: the same capped toggle as the library page. */
    method HandleSwingSelect(swingId: string)
      modifies this
      ensures selectedSwingIds == ToggleCapped(old(selectedSwingIds), swingId)
    {
      if swingId in selectedSwingIds {
        selectedSwingIds := WithoutId(selectedSwingIds, swingId);
      } else if |selectedSwingIds| < 2 {
        selectedSwingIds := selectedSwingIds + [swingId];
      }
    }
  }

  /** The seeded selection is within the cap whenever the store's is free of
      duplicates. */
  lemma SeedWithinCap(storeSelection: seq<string>)
    requires NoDup(storeSelection) && |storeSelection| > 0
    ensures SelectionOk(storeSelection[..if |storeSelection| < 2 then |storeSelection| else 2])
  {
  }

  /** `library.filter(swing => selectedSwingIds.includes(swing.id))` */
  function SelectedSwings(library: seq<Swing>, ids: seq<string>): seq<Swing>
    decreases |library|
  {
    if library == [] then []
    else (if library[0].id in ids then [library[0]] else []) + SelectedSwings(library[1..], ids)
  }

  /** The swings shown are exactly the library swings whose id is selected. */
  lemma {:induction false} SelectedSwingsMembers(library: seq<Swing>, ids: seq<string>, s: Swing)
    ensures s in SelectedSwings(library, ids) <==> s in library && s.id in ids
    decreases |library|
  {
    if library != [] {
      SelectedSwingsMembers(library[1..], ids, s);
      assert library == [library[0]] + library[1..];
    }
  }

  /** They come in library order, not in the order of selection: the
      filter works piecewise over the library. */
  lemma {:induction false} SelectedSwingsAppend(a: seq<Swing>, b: seq<Swing>, ids: seq<string>)
    ensures SelectedSwings(a + b, ids) == SelectedSwings(a, ids) + SelectedSwings(b, ids)
    decreases |a|
  {
    if a == [] {
      assert a + b == b;
    } else {
      assert (a + b)[0] == a[0] && (a + b)[1..] == a[1..] + b;
      SelectedSwingsAppend(a[1..], b, ids);
    }
  }

  /** Selecting the second library swing before the first still shows the
      first one first. */
  lemma SelectionOrderIgnored(s1: Swing, s2: Swing)
    requires s1.id != s2.id
    ensures SelectedSwings([s1, s2], [s2.id, s1.id]) == [s1, s2]
  {
    assert [s1, s2][1..] == [s2];
    assert [s2][1..] == [];
    assert s1.id in [s2.id, s1.id] && s2.id in [s2.id, s1.id];
    assert SelectedSwings([s2], [s2.id, s1.id]) == [s2] + SelectedSwings([], [s2.id, s1.id]);
  }

  /** `selectedSwingIds[k] || ''`: the id the k-th analysis query is for. */
  function AnalysisId(ids: seq<string>, k: nat): string {
    if k < |ids| then ids[k] else ""
  }

  /** The two analysis queries run only for selected positions. */
  lemma AnalysisQueriesFollowSelection(ids: seq<string>, k: nat)
    ensures QueryEnabled(AnalysisId(ids, k)) ==> k < |ids| && ids[k] != ""
    ensures k < |ids| && ids[k] != "" ==> QueryEnabled(AnalysisId(ids, k))
  {
  }

  // ---------------------------------------------------------------------
  // Automatic generation

  /** The condition under which the page asks the backend to generate the
      analysis of swing `id`: the id is not empty, its cached analysis says
      "not_generated", and no generate request is pending. */
  predicate ShouldAutoGenerate(id: string, status: Option<string>, pending: bool) {
    id != "" && status == Some("not_generated") && !pending
  }

  /** The cached status the loop looks at for `id`: the first query's when
      `id` is the first selected id, the second query's otherwise. */
  function StatusFor(ids: seq<string>, id: string, status1: Option<string>, status2: Option<string>): Option<string> {
    if |ids| > 0 && id == ids[0] then status1 else status2
  }

  /** The ids, in loop order, the page asks to generate. */
  function AutoRequests(ids: seq<string>, prefix: seq<string>, status1: Option<string>,
                        status2: Option<string>, pending: bool): seq<string>
    decreases |prefix|
  {
    if prefix == [] then []
    else
      var id := prefix[|prefix| - 1];
      AutoRequests(ids, prefix[..|prefix| - 1], status1, status2, pending) +
        (if ShouldAutoGenerate(id, StatusFor(ids, id, status1, status2), pending) then [id] else [])
  }

  /** `autoAnalyzeSwings`: goes through the selected ids in order and sends
      a generate request for each one that needs it. A failed request is
      caught and the loop goes on, so the outcomes play no part. The pending
      flag is the one read when the effect ran. */
  method AutoAnalyze(ids: seq<string>, status1: Option<string>, status2: Option<string>, pending: bool)
    returns (requested: seq<string>)
    ensures requested == AutoRequests(ids, ids, status1, status2, pending)
  {
    requested := [];
    if |ids| == 0 {
      return;
    }
    var i := 0;
    while i < |ids|
      invariant 0 <= i <= |ids|
      invariant requested == AutoRequests(ids, ids[..i], status1, status2, pending)
    {
      var swingId := ids[i];
      assert ids[..i + 1][..i] == ids[..i];
      if swingId != "" {
        var status := if swingId == ids[0] then status1 else status2;
        if status == Some("not_generated") && !pending {
          requested := requested + [swingId];
        }
      }
      i := i + 1;
    }
    assert ids[..|ids|] == ids;
  }

  /** A request goes out for exactly the selected, non-empty ids whose
      cached status is "not_generated", and none while one is pending. */
  lemma {:induction false} AutoRequestsMembers(ids: seq<string>, prefix: seq<string>, status1: Option<string>,
                                               status2: Option<string>, pending: bool, x: string)
    ensures x in AutoRequests(ids, prefix, status1, status2, pending) <==>
      x in prefix && ShouldAutoGenerate(x, StatusFor(ids, x, status1, status2), pending)
    decreases |prefix|
  {
    if prefix != [] {
      var init := prefix[..|prefix| - 1];
      AutoRequestsMembers(ids, init, status1, status2, pending, x);
      assert prefix == init + [prefix[|prefix| - 1]];
    }
  }

  /** With two distinct selected swings, each is requested exactly when its
      own query says "not_generated". */
  lemma AutoRequestsForPair(a: string, b: string, status1: Option<string>, status2: Option<string>)
    requires a != b && a != "" && b != ""
    ensures a in AutoRequests([a, b], [a, b], status1, status2, false) <==> status1 == Some("not_generated")
    ensures b in AutoRequests([a, b], [a, b], status1, status2, false) <==> status2 == Some("not_generated")
    ensures AutoRequests([a, b], [a, b], status1, status2, true) == []
  {
    AutoRequestsMembers([a, b], [a, b], status1, status2, false, a);
    AutoRequestsMembers([a, b], [a, b], status1, status2, false, b);
    assert [a, b][..1] == [a] && [a][..0] == [];
    var none := AutoRequests([a, b], [a, b], status1, status2, true);
    if none != [] {
      AutoRequestsMembers([a, b], [a, b], status1, status2, true, none[0]);
    }
  }

  // ---------------------------------------------------------------------
  // Panels

  /** The selection panel shows while fewer than two ids are selected. */
  predicate ShowSelectionPanel(ids: seq<string>) {
    |ids| < 2
  }

  /** The comparison player shows once two are selected. */
  predicate ShowPlayer(ids: seq<string>) {
    |ids| >= 2
  }

  /** The pose comparison needs two shown swings and both analyses
      available. */
  predicate ShowPoseComparison(shown: seq<Swing>, status1: Option<string>, status2: Option<string>) {
    |shown| >= 2 && status1 == Some("available") && status2 == Some("available")
  }

  /** Exactly one of the selection panel and the player is on screen. */
  lemma PanelsExclusive(ids: seq<string>)
    ensures ShowSelectionPanel(ids) != ShowPlayer(ids)
  {
  }

  /** The pose comparison never shows while an analysis is still being
      generated, nor with fewer than two library swings selected. */
  lemma PoseComparisonNeedsBoth(library: seq<Swing>, ids: seq<string>, status1: Option<string>, status2: Option<string>)
    requires ShowPoseComparison(SelectedSwings(library, ids), status1, status2)
    ensures status1 != Some("processing") && status2 != Some("processing")
    ensures exists i, j :: 0 <= i < j < |library| && library[i].id in ids && library[j].id in ids
  {
    var shown := SelectedSwings(library, ids);
    SelectedSwingsIndices(library, ids);
    assert shown[0] in shown && shown[1] in shown;
    SelectedSwingsPositions(library, ids, 0, 1);
  }

  /** The shown swings each sit in the library with a selected id. */
  lemma {:induction false} SelectedSwingsIndices(library: seq<Swing>, ids: seq<string>)
    ensures |SelectedSwings(library, ids)| <= |library|
    decreases |library|
  {
    if library != [] {
      SelectedSwingsIndices(library[1..], ids);
    }
  }

  /** Two distinct shown positions come from two distinct library positions
      whose ids are selected. */
  lemma {:induction false} SelectedSwingsPositions(library: seq<Swing>, ids: seq<string>, p: nat, q: nat)
    requires p < q < |SelectedSwings(library, ids)|
    ensures exists i, j :: 0 <= i < j < |library| && library[i].id in ids && library[j].id in ids
    decreases |library|
  {
    var shown := SelectedSwings(library, ids);
    if library[0].id in ids {
      SelectedSwingsMembers(library[1..], ids, shown[q]);
      assert shown[q] == SelectedSwings(library[1..], ids)[q - 1];
      var k :| 0 <= k < |library[1..]| && library[1..][k] == shown[q];
      assert library[0].id in ids && library[k + 1].id in ids;
    } else {
      assert shown == SelectedSwings(library[1..], ids);
      SelectedSwingsPositions(library[1..], ids, p, q);
      var i, j :| 0 <= i < j < |library[1..]| && library[1..][i].id in ids && library[1..][j].id in ids;
      assert library[i + 1].id in ids && library[j + 1].id in ids;
    }
  }
}
