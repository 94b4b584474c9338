/** The custom video player (src/components/video/ModernVideoPlayer.tsx):
    the "m:ss" time display, the scrubber's range, and the handlers that
    drive the underlying video element and mirror its state. */
module VideoPlayer {
  import opened Common

  // ---------------------------------------------------------------------
  // Time display

  /** `s.padStart(2, '0')` */
  function PadStart2(s: string): (r: string)
    ensures |s| >= 2 ==> r == s
    ensures |s| < 2 ==> |r| == 2 && r[2 - |s|..] == s
    ensures forall i :: 0 <= i < 2 - |s| ==> r[i] == '0'
    decreases 2 - |s|
  {
    if |s| >= 2 then s else PadStart2(['0'] + s)
  }

  /** The two-digit seconds field of `formatTime`. */
  function SecondsField(n: nat): (r: string)
    requires n < 60
    ensures |r| == 2 && AllDigits(r) && ParseNat(r) == n
  {
    var r := PadStart2(NatToString(n));
    ParseNatToString(n);
    if n < 10 then
      assert r == ['0', DigitChar(n)];
      assert r[..1] == "0";
      r
    else
      assert NatToString(n) == NatToString(n / 10) + [DigitChar(n % 10)];
      r
  }

  /** `formatTime` of a whole number of seconds: the minutes, a colon and
      the seconds of the minute on two digits. */
  function FormatSeconds(t: nat): string {
    NatToString(t / 60) + ":" + SecondsField(t % 60)
  }

  /** The display splits back into the minutes and the two-digit seconds
      it was made from. */
  lemma FormatSecondsParts(t: nat)
    ensures var r := FormatSeconds(t);
      var k := |NatToString(t / 60)|;
      k < |r| && r[k] == ':' && |r| == k + 3 &&
      AllDigits(r[..k]) && AllDigits(r[k + 1..]) &&
      ParseNat(r[..k]) * 60 + ParseNat(r[k + 1..]) == t
  {
    var m, s := NatToString(t / 60), SecondsField(t % 60);
    var r := FormatSeconds(t);
    assert r[..|m|] == m && r[|m| + 1..] == s;
    ParseNatToString(t / 60);
  }

  /** Distinct whole seconds show as distinct text: the colon sits right
      after the minutes, which holds no colon, so both halves are read back
      unambiguously. */
  lemma FormatSecondsInjective(t1: nat, t2: nat)
    requires FormatSeconds(t1) == FormatSeconds(t2)
    ensures t1 == t2
  {
    var m1, s1 := NatToString(t1 / 60), SecondsField(t1 % 60);
    var m2, s2 := NatToString(t2 / 60), SecondsField(t2 % 60);
    assert ':' !in m1 by { assert forall i :: 0 <= i < |m1| ==> IsDigit(m1[i]); }
    assert ':' !in m2 by { assert forall i :: 0 <= i < |m2| ==> IsDigit(m2[i]); }
    SplitAtFirstColon(m1, s1, m2, s2);
    NatToStringInjective(t1 / 60, t2 / 60);
  }

  /** Text before the first colon and after it determine each other. */
  lemma SplitAtFirstColon(m1: string, s1: string, m2: string, s2: string)
    requires ':' !in m1 && ':' !in m2
    requires m1 + ":" + s1 == m2 + ":" + s2
    ensures m1 == m2 && s1 == s2
  {
    assert m1 + ":" + s1 == m1 + (":" + s1);
    assert m2 + ":" + s2 == m2 + (":" + s2);
    FirstIndexAfter(m1, ":" + s1, ':');
    FirstIndexAfter(m2, ":" + s2, ':');
    var r := m1 + (":" + s1);
    assert m1 == r[..|m1|] == m2;
    assert s1 == r[|m1| + 1..] == s2;
  }

  /** `formatTime` of a playback position in seconds: whole minutes and
      whole seconds of the minute (`Math.floor(t % 60)` is the floor of `t`
      modulo 60 for a non-negative `t`). */
  function FormatTime(t: real): (r: string)
    requires t >= 0.0
    ensures r == FormatSeconds(t.Floor)
    ensures r[..|NatToString(t.Floor / 60)|] == NatToString((t / 60.0).Floor)
  {
    var n := t.Floor;
    var q := n / 60;
    assert (60 * q) as real <= t < (60 * q + 60) as real;
    assert (t / 60.0).Floor == q;
    assert FormatSeconds(n)[..|NatToString(q)|] == NatToString(q);
    FormatSeconds(n)
  }

  /** Concrete readings: the start, 59 seconds, 61.9 seconds and one hour. */
  lemma FormatTimeExamples()
    ensures FormatTime(0.0) == "0:00"
    ensures FormatTime(59.0) == "0:59"
    ensures FormatTime(61.9) == "1:01"
    ensures FormatTime(3600.0) == "60:00"
  {
    FormatTimeStart();
    FormatTimeMinuteEnd();
    FormatTimeRoundsDown();
    FormatTimeHour();
  }

  lemma FormatTimeStart()
    ensures FormatTime(0.0) == "0:00"
  {
  }

  lemma FormatTimeMinuteEnd()
    ensures FormatTime(59.0) == "0:59"
  {
    assert NatToString(59) == NatToString(5) + [DigitChar(9)];
  }

  lemma FormatTimeRoundsDown()
    ensures FormatTime(61.9) == "1:01"
  {
    assert (61.9).Floor == 61;
  }

  lemma FormatTimeHour()
    ensures FormatTime(3600.0) == "60:00"
  {
    assert NatToString(60) == NatToString(6) + [DigitChar(0)];
  }

  /** `max={duration || 100}`: the scrubber's range before the metadata is
      known is 100 seconds. */
  function ScrubberMax(duration: real): (m: real)
    ensures duration != 0.0 ==> m == duration
    ensures duration >= 0.0 ==> m > 0.0
  {
    if duration != 0.0 then duration else 100.0
  }

  // ---------------------------------------------------------------------
  // Handlers

  /** What `handlePlayPause` asked of the element and whether the matching
      callback ran. */
  datatype PlayCall = NoCall | PauseCall(notified: bool) | PlayCall(notified: bool)

  class VideoPlayerView {
    /** Whether the `<video>` element is mounted (`videoRef.current`). */
    const mounted: bool
    var isPlaying: bool
    var isMuted: bool
    var currentTime: real
    var duration: real
    /** The element's own `muted` flag and position. */
    var elementMuted: bool
    var elementTime: real

    /** The mute button always tells the truth about the element. */
    predicate Valid()
      reads this
    {
      elementMuted == isMuted
    }

    /** Paused, muted (the element is rendered muted), at 0 of 0. */
    constructor (mounted: bool)
      ensures Valid() && this.mounted == mounted
      ensures !isPlaying && isMuted && currentTime == 0.0 && duration == 0.0
      ensures elementTime == 0.0
    {
      this.mounted := mounted;
      isPlaying := false;
      isMuted := true;
      currentTime := 0.0;
      duration := 0.0;
      elementMuted := true;
      elementTime := 0.0;
    }

    /** `handlePlayPause`: pause (and `onPause`) when playing, play (and
        `onPlay`) otherwise, then flip the flag; nothing without the
        element. */
    method HandlePlayPause(hasOnPlay: bool, hasOnPause: bool) returns (call: PlayCall)
      requires Valid()
      modifies this
      ensures Valid()
      ensures !mounted ==> call == NoCall && isPlaying == old(isPlaying)
      ensures mounted && old(isPlaying) ==> call == PauseCall(hasOnPause) && !isPlaying
      ensures mounted && !old(isPlaying) ==> call == PlayCall(hasOnPlay) && isPlaying
      ensures isMuted == old(isMuted) && currentTime == old(currentTime) && duration == old(duration)
      ensures elementMuted == old(elementMuted) && elementTime == old(elementTime)
    {
      call := NoCall;
      if mounted {
        if isPlaying {
          call := PauseCall(hasOnPause);
        } else {
          call := PlayCall(hasOnPlay);
        }
        isPlaying := !isPlaying;
      }
    }

    /** The element's own `play` and `pause` events. */
    method OnPlayEvent()
      modifies this
      ensures isPlaying
      ensures isMuted == old(isMuted) && currentTime == old(currentTime) && duration == old(duration)
      ensures elementMuted == old(elementMuted) && elementTime == old(elementTime)
    {
      isPlaying := true;
    }

    method OnPauseEvent()
      modifies this
      ensures !isPlaying
      ensures isMuted == old(isMuted) && currentTime == old(currentTime) && duration == old(duration)
      ensures elementMuted == old(elementMuted) && elementTime == old(elementTime)
    {
      isPlaying := false;
    }

    /** `handleTimeUpdate`: copies the element's position and reports it. */
    method HandleTimeUpdate(hasOnTimeUpdate: bool) returns (reported: Option<real>)
      modifies this
      ensures mounted ==> currentTime == elementTime
      ensures !mounted ==> currentTime == old(currentTime)
      ensures reported == (if mounted && hasOnTimeUpdate then Some(elementTime) else None)
      ensures isPlaying == old(isPlaying) && isMuted == old(isMuted) && duration == old(duration)
      ensures elementMuted == old(elementMuted) && elementTime == old(elementTime)
    {
      reported := None;
      if mounted {
        var time := elementTime;
        currentTime := time;
        if hasOnTimeUpdate {
          reported := Some(time);
        }
      }
    }

    /** `handleLoadedMetadata`: records and reports the element's duration. */
    method HandleLoadedMetadata(elementDuration: real, hasOnLoadedMetadata: bool) returns (reported: Option<real>)
      modifies this
      ensures mounted ==> duration == elementDuration
      ensures !mounted ==> duration == old(duration)
      ensures reported == (if mounted && hasOnLoadedMetadata then Some(elementDuration) else None)
      ensures isPlaying == old(isPlaying) && isMuted == old(isMuted) && currentTime == old(currentTime)
      ensures elementMuted == old(elementMuted) && elementTime == old(elementTime)
    {
      reported := None;
      if mounted {
        duration := elementDuration;
        if hasOnLoadedMetadata {
          reported := Some(elementDuration);
        }
      }
    }

    /** `handleSeek`: moves the element and the display to the slider value. */
    method HandleSeek(newTime: real)
      modifies this
      ensures mounted ==> elementTime == newTime && currentTime == newTime
      ensures !mounted ==> elementTime == old(elementTime) && currentTime == old(currentTime)
      ensures isPlaying == old(isPlaying) && isMuted == old(isMuted) && duration == old(duration)
      ensures elementMuted == old(elementMuted)
    {
      if mounted {
        elementTime := newTime;
        currentTime := newTime;
      }
    }

    /** `handleMuteToggle`: flips the element's sound and the button together. */
    method HandleMuteToggle()
      requires Valid()
      modifies this
      ensures Valid()
      ensures mounted ==> isMuted == !old(isMuted)
      ensures !mounted ==> isMuted == old(isMuted)
      ensures isPlaying == old(isPlaying) && currentTime == old(currentTime) && duration == old(duration)
      ensures elementTime == old(elementTime)
    {
      if mounted {
        elementMuted := !isMuted;
        isMuted := !isMuted;
      }
    }

    /** `handleReset`: back to the start. */
    method HandleReset()
      modifies this
      ensures mounted ==> elementTime == 0.0 && currentTime == 0.0
      ensures !mounted ==> elementTime == old(elementTime) && currentTime == old(currentTime)
      ensures isPlaying == old(isPlaying) && isMuted == old(isMuted) && duration == old(duration)
      ensures elementMuted == old(elementMuted)
    {
      if mounted {
        elementTime := 0.0;
        currentTime := 0.0;
      }
    }
  }

  /** Two clicks on play/pause or on mute bring the player back to where it
      was, and a reset after any seek shows "0:00". */
  method TogglesUndo(p: VideoPlayerView, t: real)
    requires p.Valid() && p.mounted && t >= 0.0
    modifies p
    ensures p.Valid()
    ensures p.isPlaying == old(p.isPlaying) && p.isMuted == old(p.isMuted)
    ensures p.currentTime == 0.0 && FormatTime(p.currentTime) == "0:00"
  {
    var _ := p.HandlePlayPause(true, true);
    var _ := p.HandlePlayPause(true, true);
    p.HandleMuteToggle();
    p.HandleMuteToggle();
    p.HandleSeek(t);
    p.HandleReset();
    FormatTimeExamples();
  }
}
