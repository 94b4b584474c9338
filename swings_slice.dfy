/** The swings store (src/features/swings/swingsSlice.ts): the library of
    swings the user owns, the ordered list of ids picked for comparison,
    the comparison being looked at, and the loading and error flags. Each
    reducer is a method of `SwingsStore` whose postcondition gives the whole
    new state; the list operations it performs are the functions below,
    whose properties are proved as lemmas. */
module SwingsSlice {
  import opened Common
  import opened Types

  // ---------------------------------------------------------------------
  // List operations the reducers perform

  /** `ids.filter(x => x !== id)` */
  function WithoutId(ids: seq<string>, id: string): seq<string>
    decreases |ids|
  {
    if ids == [] then []
    else (if ids[0] == id then [] else [ids[0]]) + WithoutId(ids[1..], id)
  }

  /** `library.filter(swing => swing.id !== id)` */
  function WithoutSwing(library: seq<Swing>, id: string): seq<Swing>
    decreases |library|
  {
    if library == [] then []
    else (if library[0].id == id then [] else [library[0]]) + WithoutSwing(library[1..], id)
  }

  /** The selection after `selectSwing(id)`: unchanged when `id` is already
      there, otherwise `id` pushed at the end. */
  function WithSelected(ids: seq<string>, id: string): seq<string> {
    if id in ids then ids else ids + [id]
  }

  /** `library.findIndex(swing => swing.id === id)`: the first position
      holding that id, or -1. */
  function FindIndex(library: seq<Swing>, id: string): (r: int)
    ensures -1 <= r < |library|
    ensures r >= 0 ==> library[r].id == id && forall j :: 0 <= j < r ==> library[j].id != id
    ensures r == -1 ==> forall j :: 0 <= j < |library| ==> library[j].id != id
    decreases |library|
  {
    if library == [] then -1
    else if library[0].id == id then 0
    else
      var k := FindIndex(library[1..], id);
      if k == -1 then -1 else k + 1
  }

  /** The library after `updateSwing(s)`. */
  function Updated(library: seq<Swing>, s: Swing): seq<Swing> {
    var i := FindIndex(library, s.id);
    if i == -1 then library else library[i := s]
  }

  // ---------------------------------------------------------------------
  // Properties of the list operations

  /** Filtering an id out removes exactly that id. */
  lemma {:induction false} WithoutIdMembers(ids: seq<string>, id: string, x: string)
    ensures x in WithoutId(ids, id) <==> x in ids && x != id
    decreases |ids|
  {
    if ids != [] {
      WithoutIdMembers(ids[1..], id, x);
      assert ids == [ids[0]] + ids[1..];
    }
  }

  /** Filtering works piecewise, so the survivors keep their relative order. */
  lemma {:induction false} WithoutIdAppend(a: seq<string>, b: seq<string>, id: string)
    ensures WithoutId(a + b, id) == WithoutId(a, id) + WithoutId(b, id)
    decreases |a|
  {
    if a == [] {
      assert a + b == b;
    } else {
      assert (a + b)[0] == a[0] && (a + b)[1..] == a[1..] + b;
      WithoutIdAppend(a[1..], b, id);
    }
  }

  /** Filtering an id that is not there changes nothing. */
  lemma {:induction false} WithoutIdAbsent(ids: seq<string>, id: string)
    requires id !in ids
    ensures WithoutId(ids, id) == ids
    decreases |ids|
  {
    if ids != [] {
      WithoutIdAbsent(ids[1..], id);
      assert ids == [ids[0]] + ids[1..];
    }
  }

  /** Filtering never grows the list. */
  lemma {:induction false} WithoutIdShorter(ids: seq<string>, id: string)
    ensures |WithoutId(ids, id)| <= |ids|
    ensures id in ids ==> |WithoutId(ids, id)| < |ids|
    decreases |ids|
  {
    if ids != [] {
      WithoutIdShorter(ids[1..], id);
    }
  }

  /** Filtering keeps a list free of duplicates. */
  lemma {:induction false} WithoutIdNoDup(ids: seq<string>, id: string)
    requires NoDup(ids)
    ensures NoDup(WithoutId(ids, id))
    decreases |ids|
  {
    if ids != [] {
      assert NoDup(ids[1..]) by {
        forall i, j | 0 <= i < j < |ids[1..]| ensures ids[1..][i] != ids[1..][j] {
          assert ids[1..][i] == ids[i + 1] && ids[1..][j] == ids[j + 1];
        }
      }
      WithoutIdNoDup(ids[1..], id);
      assert ids[0] !in ids[1..] by {
        forall k | 0 <= k < |ids[1..]| ensures ids[1..][k] != ids[0] {
          assert ids[1..][k] == ids[k + 1];
        }
      }
      WithoutIdMembers(ids[1..], id, ids[0]);
    }
  }

  /** After `removeSwing(id)` no swing in the library has that id, and every
      other swing is still there. */
  lemma {:induction false} WithoutSwingMembers(library: seq<Swing>, id: string, s: Swing)
    ensures s in WithoutSwing(library, id) <==> s in library && s.id != id
    decreases |library|
  {
    if library != [] {
      WithoutSwingMembers(library[1..], id, s);
      assert library == [library[0]] + library[1..];
    }
  }

  /** Removing swings works piecewise, so the survivors keep their order. */
  lemma {:induction false} WithoutSwingAppend(a: seq<Swing>, b: seq<Swing>, id: string)
    ensures WithoutSwing(a + b, id) == WithoutSwing(a, id) + WithoutSwing(b, id)
    decreases |a|
  {
    if a == [] {
      assert a + b == b;
    } else {
      assert (a + b)[0] == a[0] && (a + b)[1..] == a[1..] + b;
      WithoutSwingAppend(a[1..], b, id);
    }
  }

  /** Selecting keeps the selection free of duplicates, always contains the
      id afterwards, and extends the old selection (it only ever appends). */
  lemma WithSelectedSpec(ids: seq<string>, id: string)
    requires NoDup(ids)
    ensures NoDup(WithSelected(ids, id))
    ensures id in WithSelected(ids, id)
    ensures ids <= WithSelected(ids, id)
    ensures id in ids ==> WithSelected(ids, id) == ids
    ensures id !in ids ==> |WithSelected(ids, id)| == |ids| + 1 && WithSelected(ids, id)[|ids|] == id
  {
  }

  /** `updateSwing` replaces the first swing with the same id and nothing
      else, and changes nothing when no swing has that id. */
  lemma UpdatedSpec(library: seq<Swing>, s: Swing)
    ensures |Updated(library, s)| == |library|
    ensures (forall j :: 0 <= j < |library| ==> library[j].id != s.id) ==> Updated(library, s) == library
    ensures (exists j :: 0 <= j < |library| && library[j].id == s.id) ==>
      exists i :: 0 <= i < |library| && library[i].id == s.id &&
        (forall j :: 0 <= j < i ==> library[j].id != s.id) &&
        Updated(library, s) == library[i := s]
  {
    var i := FindIndex(library, s.id);
    if i != -1 {
      assert library[i].id == s.id;
    }
  }

  // ---------------------------------------------------------------------
  // The store

  class SwingsStore {
    var library: seq<Swing>
    var selectedSwings: seq<string>
    var currentComparison: Option<Comparison>
    var loading: bool
    var error: Option<string>

    /** The reducers never put an id twice into the selection. */
    predicate Valid()
      reads this
    {
      NoDup(selectedSwings)
    }

    /** The initial state. */
    constructor ()
      ensures Valid()
      ensures library == [] && selectedSwings == [] && currentComparison == None
      ensures !loading && error == None
    {
      library := [];
      selectedSwings := [];
      currentComparison := None;
      loading := false;
      error := None;
    }

    /** `setLibrary`: replaces the library and ends loading without error. */
    method SetLibrary(swings: seq<Swing>)
      requires Valid()
      modifies this
      ensures Valid()
      ensures library == swings && !loading && error == None
      ensures selectedSwings == old(selectedSwings) && currentComparison == old(currentComparison)
    {
      library := swings;
      loading := false;
      error := None;
    }

    /** `addSwing`: the new swing goes to the front. */
    method AddSwing(s: Swing)
      requires Valid()
      modifies this
      ensures Valid()
      ensures library == [s] + old(library)
      ensures selectedSwings == old(selectedSwings) && currentComparison == old(currentComparison)
      ensures loading == old(loading) && error == old(error)
    {
      library := [s] + library;
    }

    /** `updateSwing`: replaces the first swing with the same id, if any. */
    method UpdateSwing(s: Swing)
      requires Valid()
      modifies this
      ensures Valid()
      ensures library == Updated(old(library), s)
      ensures selectedSwings == old(selectedSwings) && currentComparison == old(currentComparison)
      ensures loading == old(loading) && error == old(error)
    {
      var index := FindIndex(library, s.id);
      if index != -1 {
        library := library[index := s];
      }
    }

    /** `removeSwing`: drops the swing from the library and its id from the
        selection. */
    method RemoveSwing(id: string)
      requires Valid()
      modifies this
      ensures Valid()
      ensures library == WithoutSwing(old(library), id)
      ensures selectedSwings == WithoutId(old(selectedSwings), id)
      ensures currentComparison == old(currentComparison)
      ensures loading == old(loading) && error == old(error)
    {
      WithoutIdNoDup(selectedSwings, id);
      library := WithoutSwing(library, id);
      selectedSwings := WithoutId(selectedSwings, id);
    }

    /** `selectSwing`: appends the id unless it is already selected. */
    method SelectSwing(id: string)
      requires Valid()
      modifies this
      ensures Valid()
      ensures selectedSwings == WithSelected(old(selectedSwings), id)
      ensures library == old(library) && currentComparison == old(currentComparison)
      ensures loading == old(loading) && error == old(error)
    {
      WithSelectedSpec(selectedSwings, id);
      if id !in selectedSwings {
        selectedSwings := selectedSwings + [id];
      }
    }

    /** `deselectSwing`: drops the id from the selection only. */
    method DeselectSwing(id: string)
      requires Valid()
      modifies this
      ensures Valid()
      ensures selectedSwings == WithoutId(old(selectedSwings), id)
      ensures library == old(library) && currentComparison == old(currentComparison)
      ensures loading == old(loading) && error == old(error)
    {
      WithoutIdNoDup(selectedSwings, id);
      selectedSwings := WithoutId(selectedSwings, id);
    }

    /** `clearSelection` */
    method ClearSelection()
      requires Valid()
      modifies this
      ensures Valid()
      ensures selectedSwings == []
      ensures library == old(library) && currentComparison == old(currentComparison)
      ensures loading == old(loading) && error == old(error)
    {
      selectedSwings := [];
    }

    /** `setCurrentComparison` */
    method SetCurrentComparison(c: Option<Comparison>)
      requires Valid()
      modifies this
      ensures Valid()
      ensures currentComparison == c
      ensures library == old(library) && selectedSwings == old(selectedSwings)
      ensures loading == old(loading) && error == old(error)
    {
      currentComparison := c;
    }

    /** `setLoading` */
    method SetLoading(b: bool)
      requires Valid()
      modifies this
      ensures Valid()
      ensures loading == b
      ensures library == old(library) && selectedSwings == old(selectedSwings)
      ensures currentComparison == old(currentComparison) && error == old(error)
    {
      loading := b;
    }

    /** `setError`: records the error (or clears it) and always ends loading. */
    method SetError(e: Option<string>)
      requires Valid()
      modifies this
      ensures Valid()
      ensures error == e && !loading
      ensures library == old(library) && selectedSwings == old(selectedSwings)
      ensures currentComparison == old(currentComparison)
    {
      error := e;
      loading := false;
    }
  }

  /** Removing a swing leaves its id in neither list, keeps every other
      swing and selected id, and selecting it again starts afresh at the
      end of the selection. */
  method RemoveThenReselect(store: SwingsStore, id: string)
    requires store.Valid()
    modifies store
    ensures store.Valid()
    ensures forall s :: s in store.library ==> s.id != id
    ensures forall x :: x in old(store.selectedSwings) && x != id ==> x in store.selectedSwings
    ensures |store.selectedSwings| > 0 && store.selectedSwings[|store.selectedSwings| - 1] == id
  {
    store.RemoveSwing(id);
    forall s | s in store.library ensures s.id != id {
      WithoutSwingMembers(old(store.library), id, s);
    }
    forall x | x in old(store.selectedSwings) && x != id ensures x in store.selectedSwings {
      WithoutIdMembers(old(store.selectedSwings), id, x);
    }
    WithoutIdMembers(old(store.selectedSwings), id, id);
    store.SelectSwing(id);
  }
}
