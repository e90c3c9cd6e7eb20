/** One tick of the hand-gesture detector: check that the webcam video is
    ready, size the video element and the overlay canvas to the video's
    intrinsic dimensions, hand the first detected hand to the gesture
    estimator, publish the best-scoring gesture's name as the displayed
    emoji, and draw the detected hands. */
module Detector {
  import opened Types
  import opened Selection

  /** `HAVE_ENOUGH_DATA`: the media ready state at which the frame can be used. */
  const HaveEnoughData: int := 4

  /** The minimum score the estimator is asked to report gestures above. */
  const MinConfidence: real := 4.0

  /** The estimator, as a function of the landmarks and minimum score it is
      given; None stands for a rejected estimate. */
  type Estimator = (seq<Point>, real) -> Option<Estimation>

  /** The webcam's `<video>` element: its ready state and intrinsic size,
      which the browser sets, and the layout size, which the detector sets. */
  class Video {
    var readyState: int
    var videoWidth: int
    var videoHeight: int
    var width: int
    var height: int

    constructor (readyState: int, videoWidth: int, videoHeight: int, width: int, height: int)
      ensures this.readyState == readyState
      ensures this.videoWidth == videoWidth && this.videoHeight == videoHeight
      ensures this.width == width && this.height == height
    {
      this.readyState := readyState;
      this.videoWidth, this.videoHeight := videoWidth, videoHeight;
      this.width, this.height := width, height;
    }
  }

  /** The overlay `<canvas>`: its size, and the hand lists it has been asked
      to draw, in order (the pixels themselves are not modelled). */
  class Canvas {
    var width: int
    var height: int
    var drawn: seq<seq<Hand>>

    constructor (width: int, height: int)
      ensures this.width == width && this.height == height && drawn == []
    {
      this.width, this.height := width, height;
      drawn := [];
    }
  }

  /** What the webcam reference currently holds: nothing yet, null, or the
      webcam component, whose video element may itself be null. */
  datatype Current = Undefined | Null | Mounted(video: Video?)

  /** The video element behind the reference, as a set for frames. */
  function VideoOf(cur: Current): set<Video>
  {
    if cur.Mounted? && cur.video != null then {cur.video} else {}
  }

  /** The readiness guard. The source tests the reference against undefined
      and null and then reads the video's ready state; a null video makes
      that read fail, which `Detect` reports as a failed tick. */
  predicate IsReady(cur: Current)
    reads VideoOf(cur)
  {
    !cur.Undefined? && !cur.Null? && cur.video != null &&
    cur.video.readyState == HaveEnoughData
  }

  /** How a tick ended: the guard turned it away, it ran to the end, or an
      exception or a rejected promise stopped it part-way. */
  datatype Outcome = NotReady | Done | Failed

  /** The estimator's result for the first hand, when there is a hand. */
  function FirstEstimate(hands: seq<Hand>, estimate: Estimator): Option<Estimation>
  {
    if |hands| == 0 then None else estimate(hands[0].landmarks, MinConfidence)
  }

  /** The tick publishes a gesture: there is a hand, its estimate was not
      rejected, and the estimate lists at least one gesture. */
  predicate Publishes(hands: seq<Hand>, estimate: Estimator)
  {
    var est := FirstEstimate(hands, estimate);
    est.Some? && est.value.gestures.Some? && |est.value.gestures.value| > 0
  }

  /** The displayed emoji after a ready tick that detected `hands`. With no
      hand, a rejected estimate, or no gesture in the estimate of the first
      hand, the emoji is kept as it was; otherwise it becomes the name of a
      first-maximum gesture in the estimate of the first hand's landmarks at
      the minimum confidence. */
  function NextEmoji(emoji: Option<string>, hands: seq<Hand>, estimate: Estimator): (r: Option<string>)
    ensures !Publishes(hands, estimate) ==> r == emoji
    ensures Publishes(hands, estimate) ==>
      var gs := estimate(hands[0].landmarks, MinConfidence).value.gestures.value;
      r.Some? && exists k :: IsFirstMax(Scores(gs), k) && gs[k].name == r.value
  {
    if |hands| == 0 then emoji
    else
      match estimate(hands[0].landmarks, MinConfidence)
      case None => emoji
      case Some(est) =>
        match Selected(est)
        case None => emoji
        case Some(name) => Some(name)
  }

  /** Hands after the first never influence the displayed emoji: two hand
      lists that agree on their first hand give the same result. */
  lemma OnlyFirstHandMatters(emoji: Option<string>, h1: seq<Hand>, h2: seq<Hand>, estimate: Estimator)
    requires |h1| > 0 && |h2| > 0 && h1[0] == h2[0]
    ensures NextEmoji(emoji, h1, estimate) == NextEmoji(emoji, h2, estimate)
  {
  }

  /** A tick that publishes a gesture publishes the same one whatever the
      emoji was before. */
  lemma PublishIgnoresPrevious(e1: Option<string>, e2: Option<string>, hands: seq<Hand>, estimate: Estimator)
    requires Publishes(hands, estimate)
    ensures NextEmoji(e2, hands, estimate) == NextEmoji(e1, hands, estimate)
  {
  }

  /** Repeating a tick on the same frame changes nothing further. */
  lemma NextEmojiIdempotent(emoji: Option<string>, hands: seq<Hand>, estimate: Estimator)
    ensures NextEmoji(NextEmoji(emoji, hands, estimate), hands, estimate) == NextEmoji(emoji, hands, estimate)
  {
  }

  /** The component, with its one piece of display state. */
  class App {
    var emoji: Option<string>

    /** The emoji starts out null: no gesture is shown. */
    constructor ()
      ensures emoji == None
    {
      emoji := None;
    }

    /** One tick. `hands` is what the pose model resolves to for the current
        frame (None when it rejects), and `estimate` is the gesture
        estimator; neither is consulted when the guard fails. */
    method Detect(cur: Current, canvas: Canvas?, hands: Option<seq<Hand>>, estimate: Estimator)
      returns (outcome: Outcome)
      modifies this, VideoOf(cur), if canvas != null then {canvas} else {}
      ensures !old(IsReady(cur)) ==>
        unchanged(this) && unchanged(VideoOf(cur)) &&
        (canvas != null ==> unchanged(canvas)) &&
        outcome == if cur.Mounted? && cur.video == null then Failed else NotReady
      ensures old(IsReady(cur)) ==>
        var v := cur.video;
        v.readyState == old(v.readyState) &&
        v.videoWidth == old(v.videoWidth) && v.videoHeight == old(v.videoHeight) &&
        v.width == old(v.videoWidth) && v.height == old(v.videoHeight)
      ensures old(IsReady(cur)) && canvas == null ==> unchanged(this) && outcome == Failed
      ensures old(IsReady(cur)) && canvas != null ==>
        var v := cur.video;
        var completes := hands.Some? && !(|hands.value| > 0 && FirstEstimate(hands.value, estimate).None?);
        canvas.width == old(v.videoWidth) && canvas.height == old(v.videoHeight) &&
        emoji == (if hands.Some? then NextEmoji(old(emoji), hands.value, estimate) else old(emoji)) &&
        canvas.drawn == (if completes then old(canvas.drawn) + [hands.value] else old(canvas.drawn)) &&
        outcome == if completes then Done else Failed
    {
      if cur.Undefined? || cur.Null? {
        return NotReady;
      }
      if cur.video == null {
        return Failed;
      }
      if cur.video.readyState != HaveEnoughData {
        return NotReady;
      }
      var video := cur.video;
      var videoWidth := video.videoWidth;
      var videoHeight := video.videoHeight;

      video.width := videoWidth;
      video.height := videoHeight;

      if canvas == null {
        return Failed;
      }
      canvas.width := videoWidth;
      canvas.height := videoHeight;

      if hands.None? {
        return Failed;
      }
      var hand := hands.value;
      if |hand| > 0 {
        var gesture := estimate(hand[0].landmarks, MinConfidence);
        if gesture.None? {
          return Failed;
        }
        var gestures := gesture.value.gestures;
        if gestures.Some? && |gestures.value| > 0 {
          var gs := gestures.value;
          var best := ArgMaxFirst(Scores(gs));
          emoji := Some(gs[best].name);
        }
      }

      canvas.drawn := canvas.drawn + [hand];
      return Done;
    }
  }
}
