/** The card of one swing in the library (src/components/swing/SwingCard.tsx):
    which preview it shows, which clicks select it, and the order of the
    steps when the swing is deleted. */
module SwingCard {
  import opened Common
  import opened Types
  import opened Api
  import opened SwingsSlice
  import opened LibraryPage

  // ---------------------------------------------------------------------
  // Preview

  /** What the top of the card shows. */
  datatype Preview =
    | VideoPreview(src: string)
    | UnavailablePanel
    | ThumbnailPreview(src: string)
    | Placeholder

  /** The preview as the card chooses it: a playable video first, then the
      "Video unavailable" panel after a video error, then the thumbnail,
      then the placeholder. */
  function PreviewAsWritten(s: Swing, videoError: bool): Preview {
    var url := ResolvedVideoUrl(s);
    if IsPlayableUrl(url) then VideoPreview(url.value)
    else if videoError then UnavailablePanel
    else if Truthy(s.thumbnailUrl) then ThumbnailPreview(s.thumbnailUrl.value)
    else Placeholder
  }

  /** The only handler that sets `videoError` belongs to the `<video>`
      element, which exists only when the URL is playable; and for such a
      URL the video wins. So the "Video unavailable" panel never shows: a
      failing video stays on screen as a broken player. */
  lemma VideoErrorNeverShown(s: Swing, videoError: bool)
    requires videoError ==> IsPlayableUrl(ResolvedVideoUrl(s))
    ensures PreviewAsWritten(s, videoError) != UnavailablePanel
    ensures videoError ==> PreviewAsWritten(s, videoError) == VideoPreview(ResolvedVideoUrl(s).value)
  {
  }

  /** The preview with the error checked first, so that a video that
      failed to load is replaced by the "Video unavailable" panel. */
  function PreviewFor(s: Swing, videoError: bool): (p: Preview)
    ensures videoError ==> p == UnavailablePanel
    ensures !videoError ==> p == PreviewAsWritten(s, false)
    ensures p.VideoPreview? ==> IsPlayableUrl(ResolvedVideoUrl(s)) && p.src == ResolvedVideoUrl(s).value
    ensures p.ThumbnailPreview? ==> !IsPlayableUrl(ResolvedVideoUrl(s)) && Truthy(s.thumbnailUrl)
    ensures p == Placeholder ==> !IsPlayableUrl(ResolvedVideoUrl(s)) && !Truthy(s.thumbnailUrl)
  {
    if videoError then UnavailablePanel else PreviewAsWritten(s, false)
  }

  /** Without a video error both choices agree; with one, only the
      corrected choice tells the user. */
  lemma PreviewsAgreeWithoutError(s: Swing)
    ensures PreviewFor(s, false) == PreviewAsWritten(s, false)
    ensures IsPlayableUrl(ResolvedVideoUrl(s)) ==> PreviewFor(s, true) != PreviewAsWritten(s, true)
  {
  }

  // ---------------------------------------------------------------------
  // Clicks

  /** `onClick={() => !isDisabled && onSelect?.(swing)}` on the card body:
      whether `onSelect` runs. */
  predicate CardClickSelects(isDisabled: bool, hasOnSelect: bool) {
    !isDisabled && hasOnSelect
  }

  /** The selection checkbox calls `onSelect` whether or not the card is
      disabled. */
  predicate CheckboxClickSelects(isDisabled: bool, hasOnSelect: bool) {
    hasOnSelect
  }

  /** On the library page (`onSelect` is the page's capped toggle and
      `isDisabled` its rule) the checkbox of a disabled card does reach the
      handler, but the handler then changes nothing; either way a click
      keeps the selection within the cap. */
  lemma DisabledCheckboxIsHarmless(sel: seq<string>, id: string)
    requires SelectionOk(sel)
    ensures CheckboxClickSelects(IsCardDisabled(sel, id), true)
    ensures IsCardDisabled(sel, id) ==> !CardClickSelects(IsCardDisabled(sel, id), true)
    ensures IsCardDisabled(sel, id) ==> ToggleCapped(sel, id) == sel
    ensures SelectionOk(ToggleCapped(sel, id))
  {
    DisabledIffClickIsNoop(sel, id);
    ToggleCappedSpec(sel, id);
  }

  // ---------------------------------------------------------------------
  // Deleting

  /** The observable steps of `handleDelete`, in order. */
  datatype DeleteStep =
    | DeleteRequest(swingId: string)
    | RemovedFromStore(swingId: string)
    | OnDeleteCalled(swingId: string)
    | AlertShown(message: string)

  const DeleteFailedAlert := "Failed to delete swing. Please try again."

  /** The component's own state. */
  class SwingCardView {
    const swing: Swing
    var videoError: bool
    var isPlaying: bool

    /** Only a rendered video can have failed. */
    predicate Valid()
      reads this
    {
      videoError ==> IsPlayableUrl(ResolvedVideoUrl(swing))
    }

    constructor (swing: Swing)
      ensures Valid() && this.swing == swing && !videoError && !isPlaying
    {
      this.swing := swing;
      videoError := false;
      isPlaying := false;
    }

    /** The video's `onError`, attached only while a video is rendered: it
        sets `videoError`. As written the card keeps showing the video;
        the corrected `PreviewFor` shows the "Video unavailable" panel. */
    method OnVideoError()
      requires PreviewAsWritten(swing, videoError).VideoPreview?
      modifies this
      ensures Valid() && videoError && isPlaying == old(isPlaying)
      ensures PreviewAsWritten(swing, videoError) == old(PreviewAsWritten(swing, videoError))
      ensures PreviewFor(swing, videoError) == UnavailablePanel
    {
      videoError := true;
    }

    /** The video's `onPlay`, `onPause` and `onEnded`. */
    method OnPlay()
      modifies this
      ensures isPlaying && videoError == old(videoError)
    {
      isPlaying := true;
    }

    method OnPauseOrEnded()
      modifies this
      ensures !isPlaying && videoError == old(videoError)
    {
      isPlaying := false;
    }

    /** `handleDelete`: the delete request goes out first; only when it
        succeeds is the swing removed from the store (and from the
        selection), and only then is `onDelete` told. A failure shows an
        alert and leaves the store as it was. */
    method HandleDelete(store: SwingsStore, deleted: Result<(), Thrown>, hasOnDelete: bool)
      returns (steps: seq<DeleteStep>)
      requires store.Valid()
      modifies store
      ensures store.Valid()
      ensures |steps| >= 2 && steps[0] == DeleteRequest(swing.id)
      ensures deleted.Ok? ==>
        steps == [DeleteRequest(swing.id), RemovedFromStore(swing.id)] +
          (if hasOnDelete then [OnDeleteCalled(swing.id)] else [])
      ensures deleted.Ok? ==>
        store.library == WithoutSwing(old(store.library), swing.id) &&
        store.selectedSwings == WithoutId(old(store.selectedSwings), swing.id)
      ensures deleted.Err? ==>
        steps == [DeleteRequest(swing.id), AlertShown(DeleteFailedAlert)] &&
        store.library == old(store.library) && store.selectedSwings == old(store.selectedSwings)
      ensures store.currentComparison == old(store.currentComparison)
      ensures store.loading == old(store.loading) && store.error == old(store.error)
    {
      steps := [DeleteRequest(swing.id)];
      if deleted.Ok? {
        store.RemoveSwing(swing.id);
        steps := steps + [RemovedFromStore(swing.id)];
        if hasOnDelete {
          steps := steps + [OnDeleteCalled(swing.id)];
        }
      } else {
        steps := steps + [AlertShown(DeleteFailedAlert)];
      }
    }
  }

  /** After a successful delete the swing is gone from both the library
      and the selection; `onDelete` never runs without that removal before
      it. */
  method DeleteRemovesEverywhere(card: SwingCardView, store: SwingsStore)
    requires store.Valid()
    modifies store
    ensures store.Valid()
    ensures forall s :: s in store.library ==> s.id != card.swing.id
    ensures card.swing.id !in store.selectedSwings
  {
    var steps := card.HandleDelete(store, Ok(()), true);
    forall s | s in store.library ensures s.id != card.swing.id {
      WithoutSwingMembers(old(store.library), card.swing.id, s);
    }
    WithoutIdMembers(old(store.selectedSwings), card.swing.id, card.swing.id);
  }
}
