/** The face-to-face call window: call status, the microphone and camera
    toggles over the local stream's tracks, the speaker volume with mute and
    restore, and the two draggable overlays (the picture-in-picture video and the
    activity card) kept inside the container.  Browser media and peer connections
    are reduced to their outcome: whether a local stream was obtained (with its
    audio and video tracks' `enabled` flags) and whether connecting succeeded. */
module F2FModal {
  import opened Common

  datatype CallStatus = Idle | Connecting | Connected | Error

  datatype Position = Position(x: real, y: real)

  datatype Element = Pip | ActivityCard

  /** A container's bounding box: left and top edges, width and height. */
  datatype Rect = Rect(left: real, top: real, width: real, height: real)

  const MsgNoStream: string := "Local video stream is not available."
  const MsgConnectFailed: string := "Failed to establish video connection. Please try again."
  const MsgNoDevices: string := "Could not access camera and microphone. Please check permissions in your browser settings."

  /** The statuses a join attempt passes through, in order. */
  function JoinTrace(hasStream: bool, connectOk: bool): (t: seq<CallStatus>)
    ensures |t| >= 1
    ensures t[|t| - 1] == Connected <==> hasStream && connectOk
    ensures t[|t| - 1] == Error <==> !(hasStream && connectOk)
    ensures t[0] == Connecting <==> hasStream
    ensures !hasStream ==> t == [Error]
    ensures Idle !in t
  {
    if !hasStream then [Error]
    else if connectOk then [Connecting, Connected]
    else [Connecting, Error]
  }

  /** The width of the picture-in-picture box: a quarter of the container, at most 250. */
  function PipWidth(containerWidth: real): real {
    MinReal(containerWidth * 0.25, 250.0)
  }

  /** Where the picture-in-picture box starts: its right edge 20 from the container's
      right edge, 20 from the top. */
  function PipStart(containerWidth: real): (p: Position)
    ensures p.x + PipWidth(containerWidth) == containerWidth - 20.0 && p.y == 20.0
    ensures containerWidth >= 80.0 / 3.0 ==> p.x >= 0.0
  {
    Position(containerWidth - PipWidth(containerWidth) - 20.0, 20.0)
  }

  /** `Math.max(0, Math.min(v, limit))`. */
  function Clamp(v: real, limit: real): (r: real)
    ensures r >= 0.0
    ensures limit >= 0.0 ==> r <= limit
    ensures 0.0 <= v <= limit ==> r == v
    ensures limit < 0.0 ==> r == 0.0
    ensures v < 0.0 ==> r == 0.0
    ensures limit >= 0.0 && v > limit ==> r == limit
  {
    MaxReal(0.0, MinReal(v, limit))
  }

  /** Clamping an in-bounds position again leaves it where it is. */
  lemma ClampIdempotent(v: real, limit: real)
    requires limit >= 0.0
    ensures Clamp(Clamp(v, limit), limit) == Clamp(v, limit)
  {
  }

  /** The drop position: cursor minus container edge minus grab offset, clamped
      into the container when the dragged element has a positive size. */
  function DropPosition(clientX: real, clientY: real, container: Rect, offset: Position, w: real, h: real): (p: Position)
    ensures w > 0.0 && h > 0.0 && container.width >= w && container.height >= h ==>
              0.0 <= p.x <= container.width - w && 0.0 <= p.y <= container.height - h
    ensures w > 0.0 && h > 0.0 ==>
              var x, y := clientX - container.left - offset.x, clientY - container.top - offset.y;
              var maxX, maxY := container.width - w, container.height - h;
              (0.0 <= x <= maxX ==> p.x == x) && (x < 0.0 || maxX < 0.0 ==> p.x == 0.0) &&
              (0.0 <= maxX < x ==> p.x == maxX) &&
              (0.0 <= y <= maxY ==> p.y == y) && (y < 0.0 || maxY < 0.0 ==> p.y == 0.0) &&
              (0.0 <= maxY < y ==> p.y == maxY)
    ensures !(w > 0.0 && h > 0.0) ==>
              p == Position(clientX - container.left - offset.x, clientY - container.top - offset.y)
  {
    var x := clientX - container.left - offset.x;
    var y := clientY - container.top - offset.y;
    if w > 0.0 && h > 0.0 then Position(Clamp(x, container.width - w), Clamp(y, container.height - h))
    else Position(x, y)
  }

  /** Speaker mute and restore on (volume, last positive volume). */
  function SpeakerToggle(volume: real, last: real): (r: (real, real))
    ensures volume > 0.0 ==> r == (0.0, volume)
    ensures volume <= 0.0 && last > 0.0 ==> r == (last, last)
    ensures volume <= 0.0 && last <= 0.0 ==> r == (1.0, last)
    ensures last > 0.0 ==> r.1 > 0.0
  {
    if volume > 0.0 then (0.0, volume)
    else (if last > 0.0 then last else 1.0, last)
  }

  /** Muting and unmuting the speaker brings back the volume it had. */
  lemma SpeakerToggleTwice(volume: real, last: real)
    requires volume > 0.0
    ensures var once := SpeakerToggle(volume, last);
            SpeakerToggle(once.0, once.1) == (volume, volume)
  {
  }

  /** Every field of the call window at one moment; the handlers below state their
      whole effect as an update of this snapshot. */
  datatype CallState = CallState(
    status: CallStatus, error: Option<string>,
    isSelfInMainView: bool, isSelfViewVisible: bool, isActivityDetailsVisible: bool,
    isMuted: bool, isVideoOff: bool, speakerVolume: real, lastVolume: real,
    pipPosition: Position, activityPosition: Position, dragged: Option<Element>, dragOffset: Position,
    hasStream: bool, audioTracks: array<bool>, videoTracks: array<bool>)

  class CallWindow {
    var status: CallStatus
    var error: Option<string>
    var isSelfInMainView: bool
    var isSelfViewVisible: bool
    var isActivityDetailsVisible: bool
    var isMuted: bool
    var isVideoOff: bool
    var speakerVolume: real
    /** `lastVolumeRef`: the last positive volume. */
    var lastVolume: real
    var pipPosition: Position
    var activityPosition: Position
    var dragged: Option<Element>
    var dragOffset: Position
    /** Whether `streamRef` holds a local stream; its tracks' `enabled` flags follow. */
    var hasStream: bool
    var audioTracks: array<bool>
    var videoTracks: array<bool>

    /** The two track lists are different lists, and the remembered volume is positive. */
    ghost predicate Valid()
      reads this
    {
      audioTracks != videoTracks && lastVolume > 0.0
    }

    ghost function State(): CallState
      reads this
    {
      CallState(status, error, isSelfInMainView, isSelfViewVisible, isActivityDetailsVisible,
                isMuted, isVideoOff, speakerVolume, lastVolume, pipPosition, activityPosition,
                dragged, dragOffset, hasStream, audioTracks, videoTracks)
    }

    constructor ()
      ensures Valid()
      ensures status == Idle && error == None && !isSelfInMainView && isSelfViewVisible && isActivityDetailsVisible
      ensures !isMuted && !isVideoOff && speakerVolume == 1.0 && lastVolume == 1.0
      ensures pipPosition == Position(0.0, 0.0) && activityPosition == Position(20.0, 20.0)
      ensures dragged == None && dragOffset == Position(0.0, 0.0) && !hasStream
    {
      status := Idle;
      error := None;
      isSelfInMainView := false;
      isSelfViewVisible := true;
      isActivityDetailsVisible := true;
      isMuted := false;
      isVideoOff := false;
      speakerVolume := 1.0;
      lastVolume := 1.0;
      pipPosition := Position(0.0, 0.0);
      activityPosition := Position(20.0, 20.0);
      dragged := None;
      dragOffset := Position(0.0, 0.0);
      hasStream := false;
      audioTracks := new bool[0];
      videoTracks := new bool[0];
    }

    /** Opening the window resets the call and the controls, and places the
        picture-in-picture box when the container has been laid out. */
    method Open(containerWidth: Option<real>)
      requires Valid()
      modifies this
      ensures Valid()
      ensures State() == old(State()).(status := Idle, error := None, isMuted := false, isVideoOff := false,
                isSelfInMainView := false, isSelfViewVisible := true, isActivityDetailsVisible := true,
                speakerVolume := 1.0,
                pipPosition := if containerWidth.Some? then PipStart(containerWidth.value) else old(pipPosition))
    {
      status := Idle;
      error := None;
      isMuted := false;
      isVideoOff := false;
      isSelfInMainView := false;
      isSelfViewVisible := true;
      isActivityDetailsVisible := true;
      speakerVolume := 1.0;
      if containerWidth.Some? {
        var w := containerWidth.value;
        pipPosition := PipStart(w);
      }
    }

    /** The camera and microphone were granted: the stream and its tracks are kept. */
    method PreviewGranted(audio: array<bool>, video: array<bool>)
      requires Valid() && audio != video
      modifies this
      ensures Valid()
      ensures State() == old(State()).(hasStream := true, audioTracks := audio, videoTracks := video)
    {
      hasStream := true;
      audioTracks := audio;
      videoTracks := video;
    }

    /** The camera and microphone were refused: the window shows the error. */
    method PreviewDenied()
      requires Valid()
      modifies this
      ensures Valid()
      ensures State() == old(State()).(status := Error, error := Some(MsgNoDevices))
    {
      error := Some(MsgNoDevices);
      status := Error;
    }

    /** Closing releases the local stream. */
    method Close()
      requires Valid()
      modifies this
      ensures Valid()
      ensures State() == old(State()).(hasStream := false)
    {
      hasStream := false;
    }

    /** Joining: `connectOk` is the outcome of the peer-connection handshake.  The
        returned trace lists the statuses set, the last of which remains. */
    method JoinCall(connectOk: bool) returns (trace: seq<CallStatus>)
      requires Valid()
      modifies this
      ensures Valid()
      ensures trace == JoinTrace(old(hasStream), connectOk)
      ensures State() == old(State()).(status := trace[|trace| - 1],
                error := if !old(hasStream) then Some(MsgNoStream)
                         else if connectOk then None else Some(MsgConnectFailed))
    {
      if !hasStream {
        error := Some(MsgNoStream);
        status := Error;
        trace := [Error];
        return;
      }
      status := Connecting;
      error := None;
      trace := [Connecting];
      if connectOk {
        status := Connected;
      } else {
        error := Some(MsgConnectFailed);
        status := Error;
      }
      trace := trace + [status];
    }

    /** Flips the mute flag and sets every audio track's `enabled` to the opposite of
        it; without a stream nothing changes.  The video tracks are untouched. */
    method ToggleMute()
      requires Valid()
      modifies this, audioTracks
      ensures Valid()
      ensures State() == old(State()).(isMuted := if old(hasStream) then !old(isMuted) else old(isMuted))
      ensures old(hasStream) ==> forall i :: 0 <= i < audioTracks.Length ==> audioTracks[i] == !isMuted
      ensures !old(hasStream) ==> State() == old(State()) && audioTracks[..] == old(audioTracks[..])
      ensures videoTracks[..] == old(videoTracks[..])
    {
      if hasStream {
        var newMuted := !isMuted;
        var tracks := audioTracks;
        for i := 0 to tracks.Length
          modifies tracks
          invariant forall j :: 0 <= j < i ==> tracks[j] == !newMuted
        {
          tracks[i] := !newMuted;
        }
        isMuted := newMuted;
      }
    }

    /** The camera toggle, over the video tracks. */
    method ToggleVideo()
      requires Valid()
      modifies this, videoTracks
      ensures Valid()
      ensures State() == old(State()).(isVideoOff := if old(hasStream) then !old(isVideoOff) else old(isVideoOff))
      ensures old(hasStream) ==> forall i :: 0 <= i < videoTracks.Length ==> videoTracks[i] == !isVideoOff
      ensures !old(hasStream) ==> State() == old(State()) && videoTracks[..] == old(videoTracks[..])
      ensures audioTracks[..] == old(audioTracks[..])
    {
      if hasStream {
        var newVideoOff := !isVideoOff;
        var tracks := videoTracks;
        for i := 0 to tracks.Length
          modifies tracks
          invariant forall j :: 0 <= j < i ==> tracks[j] == !newVideoOff
        {
          tracks[i] := !newVideoOff;
        }
        isVideoOff := newVideoOff;
      }
    }

    /** The volume slider; only a positive volume is remembered for restoring. */
    method VolumeChange(v: real)
      requires Valid()
      modifies this
      ensures Valid()
      ensures State() == old(State()).(speakerVolume := v, lastVolume := if v > 0.0 then v else old(lastVolume))
    {
      speakerVolume := v;
      if v > 0.0 {
        lastVolume := v;
      }
    }

    /** The speaker button: mutes a playing speaker, remembering its volume, and
        restores the remembered volume to a muted one. */
    method ToggleSpeakerMute()
      requires Valid()
      modifies this
      ensures Valid()
      ensures var (v, last) := SpeakerToggle(old(speakerVolume), old(lastVolume));
              State() == old(State()).(speakerVolume := v, lastVolume := last)
      ensures old(speakerVolume) <= 0.0 ==> speakerVolume == old(lastVolume)
    {
      if speakerVolume > 0.0 {
        lastVolume := speakerVolume;
        speakerVolume := 0.0;
      } else {
        speakerVolume := if lastVolume > 0.0 then lastVolume else 1.0;
      }
    }

    /** Grabbing an overlay; a press on one of its buttons starts no drag.  The offset
        is the cursor's distance from the overlay's top-left corner. */
    method DragStart(element: Element, onButton: bool, clientX: real, clientY: real, rectLeft: real, rectTop: real)
      requires Valid()
      modifies this
      ensures Valid()
      ensures onButton ==> State() == old(State())
      ensures !onButton ==> State() == old(State()).(dragged := Some(element),
                                                      dragOffset := Position(clientX - rectLeft, clientY - rectTop))
    {
      if onButton {
        return;
      }
      dragged := Some(element);
      dragOffset := Position(clientX - rectLeft, clientY - rectTop);
    }

    /** Moving the cursor: only the grabbed overlay moves.  `container` is None before
        the container is laid out; `w` and `h` are the grabbed overlay's measured size,
        0 when it is not rendered. */
    method DragMove(clientX: real, clientY: real, container: Option<Rect>, w: real, h: real)
      requires Valid()
      modifies this
      ensures Valid()
      ensures old(dragged).None? || container.None? ==> State() == old(State())
      ensures old(dragged) == Some(Pip) && container.Some? ==>
                State() == old(State()).(pipPosition := DropPosition(clientX, clientY, container.value, old(dragOffset), w, h))
      ensures old(dragged) == Some(ActivityCard) && container.Some? ==>
                State() == old(State()).(activityPosition := DropPosition(clientX, clientY, container.value, old(dragOffset), w, h))
    {
      if dragged.None? || container.None? {
        return;
      }
      var rect := container.value;
      var newX := clientX - rect.left - dragOffset.x;
      var newY := clientY - rect.top - dragOffset.y;
      if w > 0.0 && h > 0.0 {
        newX := MaxReal(0.0, MinReal(newX, rect.width - w));
        newY := MaxReal(0.0, MinReal(newY, rect.height - h));
      }
      if dragged == Some(Pip) {
        pipPosition := Position(newX, newY);
      } else {
        activityPosition := Position(newX, newY);
      }
    }

    /** Releasing the mouse button ends the drag. */
    method DragEnd()
      requires Valid()
      modifies this
      ensures Valid()
      ensures State() == old(State()).(dragged := None)
    {
      dragged := None;
    }

    /** Swapping the main and the picture-in-picture video; swapping twice restores the layout. */
    method SwapViews()
      requires Valid()
      modifies this
      ensures Valid()
      ensures State() == old(State()).(isSelfInMainView := !old(isSelfInMainView))
    {
      isSelfInMainView := !isSelfInMainView;
    }

    /** The hide button on the self view and the show button under the call. */
    method SetSelfViewVisible(visible: bool)
      requires Valid()
      modifies this
      ensures Valid()
      ensures State() == old(State()).(isSelfViewVisible := visible)
    {
      isSelfViewVisible := visible;
    }

    /** The hide button on the activity card and the show button under the call. */
    method SetActivityDetailsVisible(visible: bool)
      requires Valid()
      modifies this
      ensures Valid()
      ensures State() == old(State()).(isActivityDetailsVisible := visible)
    {
      isActivityDetailsVisible := visible;
    }
  }
}
