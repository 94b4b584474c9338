/** The skeleton overlay of one pose snapshot
    (src/components/pose/PoseVisualization.tsx): the table of the 33 pose
    landmarks and of the segments joining them, which segments and dots are
    drawn, which dots are highlighted, the landmark information panel, and
    the zoom control bounded to [0.5, 3] in quarter steps. */
module PoseVisualization {
  import opened Common

  /** One detected landmark (`PoseLandmark`); coordinates are fractions of
      the image size. */
  datatype Landmark = Landmark(x: real, y: real, z: real, visibility: real)

  /** `POSE_CONNECTIONS`: the skeleton segments, as pairs of landmark
      indices (the four arm segments are listed twice, once under the torso
      and once under the arms). */
  const Connections: seq<(nat, nat)> := [
    // face
    (0, 1), (1, 2), (2, 3), (3, 7), (0, 4), (4, 5), (5, 6), (6, 8),
    // torso
    (9, 10), (11, 12), (11, 13), (13, 15), (15, 17), (15, 19), (15, 21),
    (17, 19), (12, 14), (14, 16), (16, 18), (16, 20), (16, 22), (18, 20),
    (11, 23), (12, 24), (23, 24),
    // arms
    (11, 13), (13, 15), (12, 14), (14, 16),
    // legs
    (23, 25), (25, 27), (27, 29), (29, 31), (27, 31),
    (24, 26), (26, 28), (28, 30), (30, 32), (28, 32)
  ]

  /** `LANDMARK_NAMES`: the name of each landmark index. */
  const LandmarkNames: seq<string> := [
    "nose",
    "left_eye_inner", "left_eye", "left_eye_outer",
    "right_eye_inner", "right_eye", "right_eye_outer",
    "left_ear", "right_ear",
    "mouth_left", "mouth_right",
    "left_shoulder", "right_shoulder",
    "left_elbow", "right_elbow",
    "left_wrist", "right_wrist",
    "left_pinky", "right_pinky",
    "left_index", "right_index",
    "left_thumb", "right_thumb",
    "left_hip", "right_hip",
    "left_knee", "right_knee",
    "left_ankle", "right_ankle",
    "left_heel", "right_heel",
    "left_foot_index", "right_foot_index"
  ]

  /** The largest landmark index a list of segments mentions (-1 for none). */
  function MaxIndex(cs: seq<(nat, nat)>): (m: int)
    ensures forall k :: 0 <= k < |cs| ==> cs[k].0 <= m && cs[k].1 <= m
    ensures cs == [] <==> m == -1
    ensures cs != [] ==> exists k :: 0 <= k < |cs| && (cs[k].0 == m || cs[k].1 == m)
    decreases |cs|
  {
    if cs == [] then -1
    else
      var rest := MaxIndex(cs[..|cs| - 1]);
      var last := cs[|cs| - 1];
      var top := if last.0 < last.1 then last.1 else last.0;
      if rest < top then top else rest
  }

  /** Every segment joins two named landmarks: the largest index used is
      32, the last of the 33 names. */
  lemma ConnectionsNameLandmarks()
    ensures |LandmarkNames| == 33 && |Connections| == 39
    ensures MaxIndex(Connections) == |LandmarkNames| - 1
    ensures forall k :: 0 <= k < |Connections| ==>
      Connections[k].0 < |LandmarkNames| && Connections[k].1 < |LandmarkNames|
  {
    ConnectionsBounded();
    assert Connections[38] == (28, 32);
    MaxIndexIs(Connections, 38, 32);
  }

  /** Every index of the table is at most 32. */
  lemma ConnectionsBounded()
    ensures |LandmarkNames| == 33 && |Connections| == 39
    ensures forall k :: 0 <= k < |Connections| ==> Connections[k].0 <= 32 && Connections[k].1 <= 32
  {
  }

  /** A table bounded by `b` that uses `b` has `b` as its largest index. */
  lemma MaxIndexIs(cs: seq<(nat, nat)>, j: nat, b: nat)
    requires j < |cs| && cs[j].1 == b
    requires forall k :: 0 <= k < |cs| ==> cs[k].0 <= b && cs[k].1 <= b
    ensures MaxIndex(cs) == b
  {
  }

  /** The four arm segments appear twice in the table. */
  lemma ArmSegmentsListedTwice()
    ensures Connections[10] == Connections[25] == (11, 13)
    ensures Connections[11] == Connections[26] == (13, 15)
    ensures Connections[16] == Connections[27] == (12, 14)
    ensures Connections[17] == Connections[28] == (14, 16)
    ensures !NoDup(Connections)
  {
    assert Connections[10] == Connections[25];
  }

  // ---------------------------------------------------------------------
  // What the canvas shows

  /** `landmarks[i] && landmarks[i].visibility > 0.5`: a detected landmark
      that is confident enough to be drawn (indices past the end read as
      `undefined`). */
  predicate Visible(ls: seq<Landmark>, i: nat) {
    i < |ls| && ls[i].visibility > 0.5
  }

  /** The segments of `cs` that are drawn, in table order. */
  function DrawnConnections(ls: seq<Landmark>, cs: seq<(nat, nat)>): seq<(nat, nat)>
    decreases |cs|
  {
    if cs == [] then []
    else
      var c := cs[|cs| - 1];
      DrawnConnections(ls, cs[..|cs| - 1]) + (if Visible(ls, c.0) && Visible(ls, c.1) then [c] else [])
  }

  /** A drawn segment is one of the table's, and is drawn exactly when both
      of its ends are visible. */
  lemma {:induction false} DrawnConnectionsMembers(ls: seq<Landmark>, cs: seq<(nat, nat)>, c: (nat, nat))
    ensures c in DrawnConnections(ls, cs) <==> c in cs && Visible(ls, c.0) && Visible(ls, c.1)
    decreases |cs|
  {
    if cs != [] {
      DrawnConnectionsMembers(ls, cs[..|cs| - 1], c);
      assert cs == cs[..|cs| - 1] + [cs[|cs| - 1]];
    }
  }

  /** One drawn dot: the landmark index and whether it is highlighted. */
  datatype Dot = Dot(index: nat, highlighted: bool)

  /** ASCII `toLowerCase` of one character. */
  function LowerChar(c: char): (r: char)
    ensures 'A' <= c <= 'Z' ==> r as int == c as int + 32
    ensures !('A' <= c <= 'Z') ==> r == c
    ensures !('A' <= r <= 'Z')
  {
    if 'A' <= c <= 'Z' then (c as int + 32) as char else c
  }

  /** ASCII `toLowerCase` of a string. */
  function Lower(s: string): (r: string)
    ensures |r| == |s|
    ensures forall i :: 0 <= i < |s| ==> r[i] == LowerChar(s[i])
    decreases |s|
  {
    if s == [] then [] else Lower(s[..|s| - 1]) + [LowerChar(s[|s| - 1])]
  }

  /** Lowering twice is lowering once. */
  lemma LowerIdempotent(s: string)
    ensures Lower(Lower(s)) == Lower(s)
  {
    assert forall i :: 0 <= i < |s| ==> LowerChar(LowerChar(s[i])) == LowerChar(s[i]);
  }

  /** `highlightPart && LANDMARK_NAMES[i]?.includes(highlightPart.toLowerCase())` */
  predicate IsHighlighted(i: nat, highlightPart: Option<string>) {
    Truthy(highlightPart) && i < |LandmarkNames| && Contains(LandmarkNames[i], Lower(highlightPart.value))
  }

  /** Highlighting ignores the case of the requested part, never applies
      past the named landmarks, and is off without a request. */
  lemma HighlightIgnoresCase(i: nat, part: string)
    ensures IsHighlighted(i, Some(part)) <==> IsHighlighted(i, Some(Lower(part)))
    ensures i >= 33 ==> !IsHighlighted(i, Some(part))
    ensures !IsHighlighted(i, None) && !IsHighlighted(i, Some(""))
  {
    LowerIdempotent(part);
  }

  /** Asking for "shoulder" in any case ("Shoulder", "SHOULDER", ...)
      highlights both shoulders. */
  lemma ShoulderHighlightsBoth(part: string)
    requires Lower(part) == "shoulder"
    ensures IsHighlighted(11, Some(part)) && IsHighlighted(12, Some(part))
  {
    ShoulderNames();
    assert |part| == 8;
    HighlightedAt(11, part, 5);
    HighlightedAt(12, part, 6);
  }

  /** The request "Shoulder" lowers to "shoulder". */
  lemma LowerShoulder()
    ensures Lower("Shoulder") == "shoulder"
  {
    var p := Lower("Shoulder");
    assert |p| == 8;
    assert p[0] == LowerChar('S') == 's';
    forall i | 1 <= i < 8 ensures p[i] == "shoulder"[i] {
      assert p[i] == LowerChar("Shoulder"[i]);
    }
  }

  lemma ShoulderNames()
    ensures |LandmarkNames| == 33 && |LandmarkNames[11]| == 13 && |LandmarkNames[12]| == 14
    ensures LandmarkNames[11][5..13] == "shoulder"
    ensures LandmarkNames[12][6..14] == "shoulder"
  {
    assert LandmarkNames[11] == "left_shoulder";
    assert LandmarkNames[12] == "right_shoulder";
  }

  /** A landmark whose name holds the lowered request somewhere is
      highlighted. */
  lemma HighlightedAt(i: nat, part: string, pos: nat)
    requires part != [] && i < |LandmarkNames|
    requires OccursAt(LandmarkNames[i], Lower(part), pos)
    ensures IsHighlighted(i, Some(part))
  {
    ContainsAt(LandmarkNames[i], Lower(part), pos);
  }

  /** The dots drawn among the first `n` landmarks, in index order. */
  function DrawnDots(ls: seq<Landmark>, n: nat, highlightPart: Option<string>): seq<Dot>
    requires n <= |ls|
  {
    if n == 0 then []
    else
      DrawnDots(ls, n - 1, highlightPart) +
        (if ls[n - 1].visibility > 0.5 then [Dot(n - 1, IsHighlighted(n - 1, highlightPart))] else [])
  }

  /** A dot is drawn for exactly the visible landmarks, highlighted exactly
      when its name matches the request. */
  lemma {:induction false} DrawnDotsMembers(ls: seq<Landmark>, n: nat, highlightPart: Option<string>, d: Dot)
    requires n <= |ls|
    ensures d in DrawnDots(ls, n, highlightPart) <==>
      d.index < n && Visible(ls, d.index) && d.highlighted == IsHighlighted(d.index, highlightPart)
  {
    if n > 0 {
      DrawnDotsMembers(ls, n - 1, highlightPart, d);
    }
  }

  /** Every drawn segment ends in two drawn dots. */
  lemma SegmentsEndInDots(ls: seq<Landmark>, highlightPart: Option<string>, c: (nat, nat))
    requires c in DrawnConnections(ls, Connections)
    ensures Dot(c.0, IsHighlighted(c.0, highlightPart)) in DrawnDots(ls, |ls|, highlightPart)
    ensures Dot(c.1, IsHighlighted(c.1, highlightPart)) in DrawnDots(ls, |ls|, highlightPart)
  {
    DrawnConnectionsMembers(ls, Connections, c);
    DrawnDotsMembers(ls, |ls|, highlightPart, Dot(c.0, IsHighlighted(c.0, highlightPart)));
    DrawnDotsMembers(ls, |ls|, highlightPart, Dot(c.1, IsHighlighted(c.1, highlightPart)));
  }

  /** The `POSE_CONNECTIONS.forEach` loop: the segments of `cs` whose ends
      are both visible, in table order. */
  method DrawConnections(ls: seq<Landmark>, cs: seq<(nat, nat)>) returns (lines: seq<(nat, nat)>)
    ensures lines == DrawnConnections(ls, cs)
  {
    lines := [];
    var k := 0;
    while k < |cs|
      invariant 0 <= k <= |cs|
      invariant lines == DrawnConnections(ls, cs[..k])
    {
      var (startIdx, endIdx) := cs[k];
      assert cs[..k + 1][..k] == cs[..k];
      if startIdx < |ls| && endIdx < |ls| && ls[startIdx].visibility > 0.5 && ls[endIdx].visibility > 0.5 {
        lines := lines + [(startIdx, endIdx)];
      }
      k := k + 1;
    }
    assert cs[..|cs|] == cs;
  }

  /** The `landmarks.forEach` loop: a dot for each visible landmark. */
  method DrawLandmarks(ls: seq<Landmark>, highlightPart: Option<string>) returns (dots: seq<Dot>)
    ensures dots == DrawnDots(ls, |ls|, highlightPart)
  {
    dots := [];
    var index := 0;
    while index < |ls|
      invariant 0 <= index <= |ls|
      invariant dots == DrawnDots(ls, index, highlightPart)
    {
      if ls[index].visibility > 0.5 {
        var isHighlighted := IsHighlighted(index, highlightPart);
        dots := dots + [Dot(index, isHighlighted)];
      }
      index := index + 1;
    }
  }

  /** The drawing effect: nothing without landmarks or with the skeleton
      hidden; otherwise the segments in table order, then the dots when
      landmarks are shown. */
  method DrawSkeleton(landmarks: Option<seq<Landmark>>, showSkeleton: bool, showLandmarks: bool,
                      highlightPart: Option<string>)
    returns (lines: seq<(nat, nat)>, dots: seq<Dot>)
    ensures landmarks.None? || !showSkeleton ==> lines == [] && dots == []
    ensures landmarks.Some? && showSkeleton ==> lines == DrawnConnections(landmarks.value, Connections)
    ensures landmarks.Some? && showSkeleton && showLandmarks ==>
      dots == DrawnDots(landmarks.value, |landmarks.value|, highlightPart)
    ensures !showLandmarks ==> dots == []
  {
    lines, dots := [], [];
    if landmarks.None? || !showSkeleton {
      return;
    }
    lines := DrawConnections(landmarks.value, Connections);
    if showLandmarks {
      dots := DrawLandmarks(landmarks.value, highlightPart);
    }
  }

  // ---------------------------------------------------------------------
  // Landmark information panel

  /** `LANDMARK_NAMES[i] || \`Point ${i}\`` */
  function LandmarkLabel(i: nat): string {
    if i < |LandmarkNames| && LandmarkNames[i] != "" then LandmarkNames[i] else "Point " + NatToString(i)
  }

  /** The panel's rows: label and visibility (as a percentage) of the
      first eight landmarks. */
  function InfoRows(ls: seq<Landmark>): (rows: seq<(string, real)>)
    ensures |rows| == if |ls| < 8 then |ls| else 8
    ensures forall i :: 0 <= i < |rows| ==> rows[i] == (LandmarkLabel(i), ls[i].visibility * 100.0)
  {
    var first := ls[..if |ls| < 8 then |ls| else 8];
    seq(|first|, i requires 0 <= i < |first| => (LandmarkLabel(i), first[i].visibility * 100.0))
  }

  /** The panel always labels a row by the landmark's own name: the
      `Point i` fallback can never show within the first eight. */
  lemma InfoRowsNamed(ls: seq<Landmark>, i: nat)
    requires i < |InfoRows(ls)|
    ensures InfoRows(ls)[i].0 == LandmarkNames[i]
  {
  }

  // ---------------------------------------------------------------------
  // Zoom

  const MinZoom: real := 0.5
  const MaxZoom: real := 3.0
  const ZoomStep: real := 0.25

  /** `Math.min(prev + 0.25, 3)` */
  function ZoomedIn(z: real): real {
    if z + ZoomStep < MaxZoom then z + ZoomStep else MaxZoom
  }

  /** `Math.max(prev - 0.25, 0.5)` */
  function ZoomedOut(z: real): real {
    if z - ZoomStep > MinZoom then z - ZoomStep else MinZoom
  }

  /** A whole number of quarters. */
  predicate OnQuarter(z: real) {
    (4.0 * z).Floor as real == 4.0 * z
  }

  /** The zoom levels the control can reach. */
  predicate ZoomOk(z: real) {
    MinZoom <= z <= MaxZoom && OnQuarter(z)
  }

  datatype ZoomCommand = ZoomIn | ZoomOut | ResetZoom

  function ApplyZoom(z: real, c: ZoomCommand): real {
    match c
    case ZoomIn => ZoomedIn(z)
    case ZoomOut => ZoomedOut(z)
    case ResetZoom => 1.0
  }

  function ApplyAll(z: real, cs: seq<ZoomCommand>): real
    decreases |cs|
  {
    if cs == [] then z else ApplyAll(ApplyZoom(z, cs[0]), cs[1..])
  }

  /** One command keeps a valid zoom valid; in and out move exactly one
      quarter unless at the bound, where they change nothing. */
  lemma ZoomStepSpec(z: real, c: ZoomCommand)
    requires ZoomOk(z)
    ensures ZoomOk(ApplyZoom(z, c))
    ensures c == ZoomIn && z < MaxZoom ==> ApplyZoom(z, c) == z + ZoomStep
    ensures c == ZoomOut && z > MinZoom ==> ApplyZoom(z, c) == z - ZoomStep
    ensures c == ResetZoom ==> ApplyZoom(z, c) == 1.0
  {
    var q := (4.0 * z).Floor;
    assert 4.0 * (z + ZoomStep) == (q + 1) as real;
    assert 4.0 * (z - ZoomStep) == (q - 1) as real;
  }

  /** From the initial zoom of 1, no sequence of clicks leaves [0.5, 3] or
      the quarter steps. */
  lemma {:induction false} ZoomStaysInRange(z: real, cs: seq<ZoomCommand>)
    requires ZoomOk(z)
    ensures ZoomOk(ApplyAll(z, cs))
    decreases |cs|
  {
    if cs != [] {
      ZoomStepSpec(z, cs[0]);
      ZoomStaysInRange(ApplyZoom(z, cs[0]), cs[1..]);
    }
  }

  /** The zoom-out button is disabled at `zoom <= 0.5`, the zoom-in button
      at `zoom >= 3`: exactly when clicking would change nothing. */
  lemma ZoomButtonsDisabledIffNoop(z: real)
    requires ZoomOk(z)
    ensures z <= MinZoom <==> ZoomedOut(z) == z
    ensures z >= MaxZoom <==> ZoomedIn(z) == z
  {
  }

  /** The component's own state. */
  class PoseVisualizationView {
    var zoom: real
    var showSkeleton: bool
    var isFullscreen: bool
    var imageError: bool

    predicate Valid()
      reads this
    {
      ZoomOk(zoom)
    }

    constructor ()
      ensures Valid()
      ensures zoom == 1.0 && showSkeleton && !isFullscreen && !imageError
    {
      zoom := 1.0;
      showSkeleton := true;
      isFullscreen := false;
      imageError := false;
    }

    /** `handleZoomIn` */
    method HandleZoomIn()
      requires Valid()
      modifies this
      ensures Valid() && zoom == ZoomedIn(old(zoom))
      ensures showSkeleton == old(showSkeleton) && isFullscreen == old(isFullscreen)
      ensures imageError == old(imageError)
    {
      ZoomStepSpec(zoom, ZoomIn);
      zoom := if zoom + 0.25 < 3.0 then zoom + 0.25 else 3.0;
    }

    /** `handleZoomOut` */
    method HandleZoomOut()
      requires Valid()
      modifies this
      ensures Valid() && zoom == ZoomedOut(old(zoom))
      ensures showSkeleton == old(showSkeleton) && isFullscreen == old(isFullscreen)
      ensures imageError == old(imageError)
    {
      ZoomStepSpec(zoom, ZoomOut);
      zoom := if zoom - 0.25 > 0.5 then zoom - 0.25 else 0.5;
    }

    /** `handleReset`: back to the unzoomed view. */
    method HandleReset()
      modifies this
      ensures Valid() && zoom == 1.0
      ensures showSkeleton == old(showSkeleton) && isFullscreen == old(isFullscreen)
      ensures imageError == old(imageError)
    {
      zoom := 1.0;
    }

    /** `toggleFullscreen` */
    method ToggleFullscreen()
      modifies this
      ensures isFullscreen == !old(isFullscreen)
      ensures zoom == old(zoom) && showSkeleton == old(showSkeleton) && imageError == old(imageError)
    {
      isFullscreen := !isFullscreen;
    }

    /** The Show/Hide Skeleton button. */
    method ToggleSkeleton()
      modifies this
      ensures showSkeleton == !old(showSkeleton)
      ensures zoom == old(zoom) && isFullscreen == old(isFullscreen) && imageError == old(imageError)
    {
      showSkeleton := !showSkeleton;
    }

    /** The image's `onError`: from then on the component shows its error
        card; no handler clears the flag. */
    method OnImageError()
      requires Valid()
      modifies this
      ensures Valid() && imageError
      ensures zoom == old(zoom) && showSkeleton == old(showSkeleton) && isFullscreen == old(isFullscreen)
    {
      imageError := true;
    }
  }
}
