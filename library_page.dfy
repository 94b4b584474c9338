/** The swing library page (src/app/library/page.tsx): loading the library
    into the store, the two-swing selection cap enforced by the card click
    handler, the disabled-card rule and the gate on opening the comparison. */
module LibraryPage {
  import opened Common
  import opened Types
  import opened Api
  import opened SwingsSlice

  // ---------------------------------------------------------------------
  // Selection with a cap of two

  /** At most two ids are selected, none twice. */
  predicate SelectionOk(sel: seq<string>) {
    |sel| <= 2 && NoDup(sel)
  }

  /** The selection after clicking the card of swing `id`: deselect it when
      selected, select it when fewer than two are selected, else nothing. */
  function ToggleCapped(sel: seq<string>, id: string): seq<string> {
    if id in sel then WithoutId(sel, id)
    else if |sel| < 2 then WithSelected(sel, id)
    else sel
  }

  /** A click keeps the selection within the cap; it removes a selected id,
      appends an unselected one while there is room, and otherwise does
      nothing. */
  lemma ToggleCappedSpec(sel: seq<string>, id: string)
    requires SelectionOk(sel)
    ensures SelectionOk(ToggleCapped(sel, id))
    ensures id in sel ==> id !in ToggleCapped(sel, id)
    ensures id in sel ==> forall x :: x in sel && x != id ==> x in ToggleCapped(sel, id)
    ensures id !in sel && |sel| < 2 ==> ToggleCapped(sel, id) == sel + [id]
    ensures id !in sel && |sel| >= 2 ==> ToggleCapped(sel, id) == sel
  {
    if id in sel {
      WithoutIdNoDup(sel, id);
      WithoutIdShorter(sel, id);
      WithoutIdMembers(sel, id, id);
      forall x | x in sel && x != id ensures x in ToggleCapped(sel, id) {
        WithoutIdMembers(sel, id, x);
      }
    } else if |sel| < 2 {
      WithSelectedSpec(sel, id);
    }
  }

  /** The selection after a sequence of card clicks. */
  function ClickAll(sel: seq<string>, clicks: seq<string>): seq<string>
    decreases |clicks|
  {
    if clicks == [] then sel else ClickAll(ToggleCapped(sel, clicks[0]), clicks[1..])
  }

  /** Whatever the user clicks, starting from a valid selection, there are
      never more than two selected swings and never one selected twice. */
  lemma {:induction false} ClicksKeepCap(sel: seq<string>, clicks: seq<string>)
    requires SelectionOk(sel)
    ensures SelectionOk(ClickAll(sel, clicks))
    decreases |clicks|
  {
    if clicks != [] {
      ToggleCappedSpec(sel, clicks[0]);
      ClicksKeepCap(ToggleCapped(sel, clicks[0]), clicks[1..]);
    }
  }

  /** `handleCompare` opens the comparison only with exactly two selected. */
  predicate CanCompare(sel: seq<string>) {
    |sel| == 2
  }

  /** Two clicks on distinct swings from an empty selection enable the
      comparison, and a third click on another swing changes nothing. */
  lemma TwoPicksEnableCompare(a: string, b: string, c: string)
    requires a != b && c != a && c != b
    ensures ClickAll([], [a, b]) == [a, b] && CanCompare(ClickAll([], [a, b]))
    ensures ClickAll([], [a, b, c]) == [a, b]
  {
    assert ToggleCapped([], a) == [a];
    assert ToggleCapped([a], b) == [a, b];
    assert ToggleCapped([a, b], c) == [a, b];
    assert [a, b][1..] == [b] && [b][1..] == [];
    assert [a, b, c][1..] == [b, c] && [b, c][1..] == [c] && [c][1..] == [];
    assert ClickAll([a, b], []) == [a, b];
    assert ClickAll([a], [b]) == ClickAll([a, b], []);
    assert ClickAll([], [a, b]) == ClickAll([a], [b]);
    assert ClickAll([a, b], [c]) == ClickAll([a, b], []);
    assert ClickAll([a], [b, c]) == ClickAll([a, b], [c]);
    assert ClickAll([], [a, b, c]) == ClickAll([a], [b, c]);
  }

  /** `isDisabled`: the cap is reached and this swing is not one of the two. */
  predicate IsCardDisabled(sel: seq<string>, id: string) {
    |sel| >= 2 && id !in sel
  }

  /** A card is disabled exactly when clicking it would change nothing. */
  lemma DisabledIffClickIsNoop(sel: seq<string>, id: string)
    requires SelectionOk(sel)
    ensures IsCardDisabled(sel, id) <==> ToggleCapped(sel, id) == sel
  {
    ToggleCappedSpec(sel, id);
    if id in sel {
      assert id !in ToggleCapped(sel, id);
    } else if |sel| < 2 {
      assert |ToggleCapped(sel, id)| == |sel| + 1;
    }
  }

  /** `handleSwingSelect`: dispatches `deselectSwing` or `selectSwing`. */
  method HandleSwingSelect(store: SwingsStore, id: string)
    requires store.Valid()
    modifies store
    ensures store.Valid()
    ensures store.selectedSwings == ToggleCapped(old(store.selectedSwings), id)
    ensures store.library == old(store.library) && store.currentComparison == old(store.currentComparison)
    ensures store.loading == old(store.loading) && store.error == old(store.error)
  {
    if id in store.selectedSwings {
      store.DeselectSwing(id);
    } else if |store.selectedSwings| < 2 {
      store.SelectSwing(id);
    }
  }

  // ---------------------------------------------------------------------
  // Loading the library

  /** What `getLibrary` resolved to: a bare array, an object that may carry
      a `data` array, or nothing (`null`/`undefined`). */
  datatype LibraryResponse =
    | BareArray(items: seq<Swing>)
    | Envelope(data: Option<seq<Swing>>)
    | NoBody

  /** `Array.isArray(res) ? res : res?.data || []` (an array, even an empty
      one, is truthy). */
  function UnwrapLibrary(res: LibraryResponse): (r: seq<Swing>)
    ensures res.BareArray? ==> r == res.items
    ensures res.Envelope? && res.data.Some? ==> r == res.data.value
    ensures res.NoBody? || (res.Envelope? && res.data.None?) ==> r == []
  {
    match res
    case BareArray(items) => items
    case Envelope(data) => if data.Some? then data.value else []
    case NoBody => []
  }

  /** Messages the page treats as "the server is unreachable". */
  predicate IsNetworkMessage(m: string) {
    Contains(m, "Failed to fetch") || Contains(m, "Network error") || Contains(m, "Unable to connect")
  }

  /** What the page shows after loading: a library, or an error banner. */
  datatype LoadEffect = ShowLibrary(swings: seq<Swing>) | ShowError(message: string)

  const LoadFailedMessage := "Failed to load swings"

  /** The outcome of `loadLibrary` for a resolved or rejected request. Every
      thrown value but a non-Error is an `Error` instance (ApiError extends
      Error). */
  function LoadOutcome(r: Result<LibraryResponse, Thrown>): LoadEffect {
    if r.Ok? then ShowLibrary(UnwrapLibrary(r.value))
    else if r.error.NonError? then ShowLibrary([])
    else if IsNetworkMessage(r.error.message) then ShowLibrary([])
    else ShowError(LoadFailedMessage)
  }

  /** An unreachable server never shows an error: when `fetch` itself
      rejects with "Failed to fetch", `apiRequest` turns it into its
      network ApiError, whose message the page recognises, and the page
      shows an empty library. */
  lemma UnreachableServerShowsEmptyLibrary(o: FetchOutcome<LibraryResponse>)
    requires o == Rejected(TypeError("Failed to fetch"))
    ensures LoadOutcome(RequestOutcome(o)) == ShowLibrary([])
  {
    var m := NetworkErrorMessage;
    assert RequestOutcome(o) == Err(ApiError(0, m));
    assert m[..|NetworkErrorPrefix|] == NetworkErrorPrefix;
  }

  /** A failed answer whose message names none of the network phrases shows
      the error banner, and the library is never replaced in that case. */
  lemma ServerErrorShowsBanner(status: nat, text: string)
    requires !IsNetworkMessage(HttpErrorMessage(status, text))
    requires !IsOk(status)
    ensures LoadOutcome(RequestOutcome(Responded(status, text, Err(NonError)))) ==
      ShowError(LoadFailedMessage)
  {
  }

  /** `loadLibrary`: nothing happens until authentication is loaded and the
      user is signed in. Otherwise loading starts with the error cleared,
      and ends with either the new library (errors cleared) or the error
      banner (library kept). */
  method LoadLibrary(store: SwingsStore, isLoaded: bool, isSignedIn: bool,
                     response: Result<LibraryResponse, Thrown>)
    requires store.Valid()
    modifies store
    ensures store.Valid()
    ensures store.selectedSwings == old(store.selectedSwings)
    ensures store.currentComparison == old(store.currentComparison)
    ensures !(isLoaded && isSignedIn) ==>
      store.library == old(store.library) && store.loading == old(store.loading) &&
      store.error == old(store.error)
    ensures isLoaded && isSignedIn ==> !store.loading
    ensures isLoaded && isSignedIn && LoadOutcome(response).ShowLibrary? ==>
      store.library == LoadOutcome(response).swings && store.error == None
    ensures isLoaded && isSignedIn && LoadOutcome(response).ShowError? ==>
      store.library == old(store.library) && store.error == Some(LoadOutcome(response).message)
  {
    if !isLoaded || !isSignedIn {
      return;
    }
    store.SetLoading(true);
    store.SetError(None);
    match response
    case Ok(res) =>
      var swingsData := UnwrapLibrary(res);
      store.SetLibrary(swingsData);
      store.SetLoading(false);
    case Err(e) =>
      if !e.NonError? {
        var isNetworkError := IsNetworkMessage(e.message);
        if isNetworkError {
          store.SetLibrary([]);
        } else {
          store.SetError(Some(LoadFailedMessage));
        }
      } else {
        store.SetLibrary([]);
      }
      store.SetLoading(false);
  }
}
