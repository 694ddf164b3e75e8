/** The online tracking supervisor of DaSiamRPN/dasiam_tracker.py: seed
    extraction from a segmentation mask, exponential smoothing of the
    tracker's confidence, the 512x512 boundary clamp and the per-frame
    weak/confident/hard-lost state machine of `track_live`.

    The appearance model (`SiamRPN_init`, `SiamRPN_track`) and the box
    conversion (`cxy_wh_2_rect` followed by `int`) are not part of this
    model: they are passed in as functions. */
module Tracker {
  import opened Wrappers

  const FrameWidth: int := 512
  const FrameHeight: int := 512
  /** Smoothed scores strictly below this make a frame weak. */
  const ConfThresh: real := 0.35
  /** Number of consecutive weak frames after which the target is held as lost. */
  const MaxLost: nat := 15
  /** Weight of the history in the confidence average. */
  const Alpha: real := 0.7
  /** Floor on the seed box's width and height, in pixels. */
  const MinSeedSide: int := 10

  /** A camera frame; the supervisor only hands it to the oracles. */
  type Image = seq<seq<real>>
  /** A segmentation mask, indexed `mask[row][column]`; a positive entry is foreground. */
  type Mask = seq<seq<real>>

  datatype Pair = Pair(x: real, y: real)

  /** The tracker's state dictionary: target centre, target size, the optional
      `best_score`, and the rest of the dictionary, which only the oracle reads. */
  datatype TrackState = TrackState(targetPos: Pair, targetSz: Pair, bestScore: Option<real>, internals: seq<real>)

  /** An integer pixel box: top-left corner, width and height. */
  datatype Box = Box(x: int, y: int, w: int, h: int)

  function Min(a: int, b: int): int { if a <= b then a else b }
  function Max(a: int, b: int): int { if a <= b then b else a }
  function Abs(a: int): int { if a < 0 then -a else a }
  function RMin(a: real, b: real): real { if a <= b then a else b }
  function RMax(a: real, b: real): real { if a <= b then b else a }

  // ---------------------------------------------------------------------
  // Seed extraction (init_from_mask)
  // ---------------------------------------------------------------------

  /** Pixel (x, y) lies in the mask and is foreground. */
  predicate Fg(mask: Mask, x: int, y: int)
  {
    0 <= y < |mask| && 0 <= x < |mask[y]| && mask[y][x] > 0.0
  }

  ghost predicate NoForeground(mask: Mask)
  {
    forall x, y :: !Fg(mask, x, y)
  }

  /** Some foreground pixel lies in column `x`. */
  ghost predicate ColumnHasFg(mask: Mask, x: int)
  {
    exists y :: Fg(mask, x, y)
  }

  /** Some foreground pixel lies in row `y`. */
  ghost predicate RowHasFg(mask: Mask, y: int)
  {
    exists x :: Fg(mask, x, y)
  }

  /** The smallest and largest index of a positive entry of one mask row. */
  function RowSpan(row: seq<real>): (r: Option<(int, int)>)
    ensures r.None? <==> forall i :: 0 <= i < |row| ==> row[i] <= 0.0
    ensures r.Some? ==> 0 <= r.value.0 <= r.value.1 < |row| && row[r.value.0] > 0.0 && row[r.value.1] > 0.0
    ensures r.Some? ==> forall i :: 0 <= i < |row| && row[i] > 0.0 ==> r.value.0 <= i <= r.value.1
    decreases |row|
  {
    if |row| == 0 then None
    else
      var last := |row| - 1;
      var front := RowSpan(row[..last]);
      if row[last] <= 0.0 then front
      else if front.None? then Some((last, last))
      else Some((front.value.0, last))
  }

  /** Extreme columns and rows of the foreground pixels. */
  datatype Extent = Extent(xMin: int, xMax: int, yMin: int, yMax: int)

  /** `np.where(mask > 0)` followed by the minima and maxima of its columns
      and rows: each bound is attained by a foreground pixel, and every
      foreground pixel lies within the bounds. */
  function MaskExtent(mask: Mask): (r: Option<Extent>)
    ensures r.None? <==> NoForeground(mask)
    ensures r.Some? ==> ColumnHasFg(mask, r.value.xMin) && ColumnHasFg(mask, r.value.xMax)
    ensures r.Some? ==> RowHasFg(mask, r.value.yMin) && RowHasFg(mask, r.value.yMax)
    ensures r.Some? ==> forall x, y :: Fg(mask, x, y) ==>
      r.value.xMin <= x <= r.value.xMax && r.value.yMin <= y <= r.value.yMax
    decreases |mask|
  {
    if |mask| == 0 then None
    else
      var last := |mask| - 1;
      var front := MaskExtent(mask[..last]);
      var span := RowSpan(mask[last]);
      PrefixForeground(mask, last);
      if span.None? then
        assert forall x :: !Fg(mask, x, last);
        front
      else
        assert Fg(mask, span.value.0, last) && Fg(mask, span.value.1, last);
        if front.None? then Some(Extent(span.value.0, span.value.1, last, last))
        else
          var e := front.value;
          assert Fg(mask, e.xMin, e.yMin) || exists y :: Fg(mask[..last], e.xMin, y);
          Some(Extent(Min(e.xMin, span.value.0), Max(e.xMax, span.value.1), e.yMin, last))
  }

  /** Foreground of the first `n` rows is foreground of the mask in those rows. */
  lemma PrefixForeground(mask: Mask, n: nat)
    requires n <= |mask|
    ensures forall x, y :: Fg(mask[..n], x, y) <==> Fg(mask, x, y) && y < n
  {
  }

  datatype SeedError = MissingInput | EmptyMask

  /** The seed: the integer box reported to the caller and the centre and
      size handed to `SiamRPN_init`. */
  datatype Seed = Seed(box: Box, centre: Pair, size: Pair)

  /** `init_from_mask` up to the oracle call. The box starts at the smallest
      foreground column and row; its width is the smallest value of at least
      `MinSeedSide` that reaches the largest foreground column, and likewise
      its height. The centre is the top-left corner plus half the size. */
  function SeedFromMask(frame: Option<Image>, mask: Option<Mask>): (r: Result<Seed, SeedError>)
    ensures r == Failure(MissingInput) <==> frame.None? || mask.None?
    ensures r == Failure(EmptyMask) <==> frame.Some? && mask.Some? && NoForeground(mask.value)
    ensures r.Success? ==> r.value.box.w >= MinSeedSide && r.value.box.h >= MinSeedSide
    ensures r.Success? ==> ColumnHasFg(mask.value, r.value.box.x) && RowHasFg(mask.value, r.value.box.y)
    ensures r.Success? ==> forall x, y :: Fg(mask.value, x, y) ==>
      r.value.box.x <= x <= r.value.box.x + r.value.box.w && r.value.box.y <= y <= r.value.box.y + r.value.box.h
    ensures r.Success? ==> r.value.box.w == MinSeedSide || ColumnHasFg(mask.value, r.value.box.x + r.value.box.w)
    ensures r.Success? ==> r.value.box.h == MinSeedSide || RowHasFg(mask.value, r.value.box.y + r.value.box.h)
    ensures r.Success? ==> r.value.size == Pair(r.value.box.w as real, r.value.box.h as real)
    ensures r.Success? ==> (r.value.centre ==
      Pair(r.value.box.x as real + r.value.box.w as real / 2.0, r.value.box.y as real + r.value.box.h as real / 2.0))
  {
    if frame.None? || mask.None? then Failure(MissingInput)
    else
      match MaskExtent(mask.value)
      case None => Failure(EmptyMask)
      case Some(e) =>
        var w := Max(MinSeedSide, e.xMax - e.xMin);
        var h := Max(MinSeedSide, e.yMax - e.yMin);
        Success(Seed(Box(e.xMin, e.yMin, w, h),
                     Pair(e.xMin as real + w as real / 2.0, e.yMin as real + h as real / 2.0),
                     Pair(w as real, h as real)))
  }

  // ---------------------------------------------------------------------
  // Confidence smoothing
  // ---------------------------------------------------------------------

  /** The raw score of an oracle output: `state.get("best_score", 1.0)`. */
  function RawScore(s: TrackState): (r: real)
    ensures s.bestScore.None? ==> r == 1.0
    ensures s.bestScore.Some? ==> r == s.bestScore.value
  {
    s.bestScore.GetOr(1.0)
  }

  /** One update of the exponential moving average: the first score is taken
      as it is, later ones move the average part of the way towards the new
      score and never past it. */
  function Smooth(prev: Option<real>, raw: real): (r: real)
    ensures prev.None? ==> r == raw
    ensures prev.Some? ==> RMin(prev.value, raw) <= r <= RMax(prev.value, raw)
    ensures prev.Some? && prev.value != raw ==> r != raw
  {
    if prev.None? then raw else Alpha * prev.value + (1.0 - Alpha) * raw
  }

  // ---------------------------------------------------------------------
  // Boundary clamp
  // ---------------------------------------------------------------------

  predicate InFrame(b: Box)
  {
    0 <= b.x && b.x + b.w <= FrameWidth && 0 <= b.y && b.y + b.h <= FrameHeight
  }

  /** Moves the box to the nearest position inside the frame, keeping its size;
      a box wider (taller) than the frame is put at column (row) 0. */
  function ClampBox(b: Box): (r: Box)
    ensures r.w == b.w && r.h == b.h
    ensures r.x >= 0 && r.y >= 0
    ensures b.w <= FrameWidth ==> r.x + r.w <= FrameWidth
    ensures b.h <= FrameHeight ==> r.y + r.h <= FrameHeight
    ensures InFrame(b) ==> r == b
    ensures b.w > FrameWidth ==> r.x == 0
    ensures b.h > FrameHeight ==> r.y == 0
  {
    Box(Max(0, Min(b.x, FrameWidth - b.w)), Max(0, Min(b.y, FrameHeight - b.h)), b.w, b.h)
  }

  /** No in-frame position is closer to the original one than the clamped one. */
  lemma ClampIsNearest(b: Box, x: int, y: int)
    requires 0 <= x <= FrameWidth - b.w && 0 <= y <= FrameHeight - b.h
    ensures Abs(ClampBox(b).x - b.x) <= Abs(x - b.x) && Abs(ClampBox(b).y - b.y) <= Abs(y - b.y)
  {
  }

  lemma ClampIdempotent(b: Box)
    ensures ClampBox(ClampBox(b)) == ClampBox(b)
  {
  }

  // ---------------------------------------------------------------------
  // One frame of track_live
  // ---------------------------------------------------------------------

  /** The supervisor's state between two frames: the tracker state, the last
      confident snapshot, the smoothed score and the weak-frame counter. */
  datatype Session = Session(state: Option<TrackState>, lastGood: Option<TrackState>, scoreEma: Option<real>, lostCount: nat)

  /** What one frame brings: the image and whether the quit key was pressed
      while it was shown. */
  datatype FrameInput = FrameInput(image: Image, quitKey: bool)

  /** Whether the loop yields a box for the frame or leaves on the quit key. */
  datatype Outcome = Emit(box: Box) | Quit

  /** `SiamRPN_track(state, frame)`. */
  type Oracle = (TrackState, Image) -> TrackState
  /** `map(int, cxy_wh_2_rect(target_pos, target_sz))`. */
  type RectOf = (Pair, Pair) -> Box

  function Observe(s: Session, f: FrameInput, track: Oracle): TrackState
    requires s.state.Some?
  {
    track(s.state.value, f.image)
  }

  function SmoothedScore(s: Session, f: FrameInput, track: Oracle): real
    requires s.state.Some?
  {
    Smooth(s.scoreEma, RawScore(Observe(s, f, track)))
  }

  predicate IsWeak(s: Session, f: FrameInput, track: Oracle)
    requires s.state.Some?
  {
    SmoothedScore(s, f, track) < ConfThresh
  }

  /** The body of the `while True` loop of `track_live` for one frame. The box
      of a weak frame is re-derived from the last confident state and is not
      clamped; the box of a confident frame is the clamped oracle box, and the
      snapshot keeps the oracle's unclamped state. */
  function Advance(s: Session, f: FrameInput, track: Oracle, rectOf: RectOf): (r: (Session, Outcome))
    requires s.state.Some?
    ensures r.0.state.Some? && r.0.scoreEma == Some(SmoothedScore(s, f, track))
    ensures r.0.lostCount <= MaxLost
    ensures r.0.lostCount == if IsWeak(s, f, track) then Min(s.lostCount + 1, MaxLost) else 0
    ensures IsWeak(s, f, track) ==> r.0.lastGood == s.lastGood
    ensures IsWeak(s, f, track) && s.lastGood.Some? ==>
      r.0.state == s.lastGood &&
      (r.1.Emit? ==> r.1.box == rectOf(s.lastGood.value.targetPos, s.lastGood.value.targetSz))
    ensures IsWeak(s, f, track) && s.lastGood.None? ==>
      var obs := Observe(s, f, track);
      r.0.state == Some(obs) && (r.1.Emit? ==> r.1.box == ClampBox(rectOf(obs.targetPos, obs.targetSz)))
    ensures !IsWeak(s, f, track) ==>
      var obs := Observe(s, f, track);
      r.0.state == Some(obs) && r.0.lastGood == Some(obs) &&
      (r.1.Emit? ==> r.1.box == ClampBox(rectOf(obs.targetPos, obs.targetSz)))
    ensures r.1.Quit? <==> f.quitKey && r.0.lostCount < MaxLost
  {
    var obs := Observe(s, f, track);
    var ema := SmoothedScore(s, f, track);
    var clamped := ClampBox(rectOf(obs.targetPos, obs.targetSz));
    var weak := ema < ConfThresh;
    var held := weak && s.lastGood.Some?;
    var state := if held then s.lastGood else Some(obs);
    var lastGood := if weak then s.lastGood else Some(obs);
    var box := if held then rectOf(s.lastGood.value.targetPos, s.lastGood.value.targetSz) else clamped;
    var lost := if weak then s.lostCount + 1 else 0;
    if lost >= MaxLost then (Session(state, lastGood, Some(ema), MaxLost), Emit(box))
    else if f.quitKey then (Session(state, lastGood, Some(ema), lost), Quit)
    else (Session(state, lastGood, Some(ema), lost), Emit(box))
  }

  // ---------------------------------------------------------------------
  // The loop of track_live over a sequence of frames
  // ---------------------------------------------------------------------

  /** The end state, the yielded boxes, and the weak/confident classification
      of every frame that was processed (the frame on which the loop quits is
      processed but yields nothing). */
  datatype Trace = Trace(final: Session, boxes: seq<Box>, weak: seq<bool>)

  /** The loop of `track_live` until the frames run out or the quit key ends it. */
  function Run(s: Session, frames: seq<FrameInput>, track: Oracle, rectOf: RectOf): (t: Trace)
    requires s.state.Some?
    ensures t.final.state.Some?
    ensures |t.boxes| <= |t.weak| <= |t.boxes| + 1 && |t.weak| <= |frames|
    ensures |t.boxes| < |frames| ==> |t.boxes| < |t.weak|
    decreases |frames|
  {
    if frames == [] then Trace(s, [], [])
    else
      var step := Advance(s, frames[0], track, rectOf);
      var weak := IsWeak(s, frames[0], track);
      if step.1.Quit? then Trace(step.0, [], [weak])
      else
        var rest := Run(step.0, frames[1..], track, rectOf);
        Trace(rest.final, [step.1.box] + rest.boxes, [weak] + rest.weak)
  }

  /** A frame that quits ends the trace of `Run`. */
  lemma RunQuits(s: Session, frames: seq<FrameInput>, track: Oracle, rectOf: RectOf)
    requires s.state.Some? && frames != [] && Advance(s, frames[0], track, rectOf).1.Quit?
    ensures Run(s, frames, track, rectOf) ==
      Trace(Advance(s, frames[0], track, rectOf).0, [], [IsWeak(s, frames[0], track)])
  {
  }

  /** A frame that emits a box heads the trace of `Run` with it. */
  lemma RunEmits(s: Session, frames: seq<FrameInput>, track: Oracle, rectOf: RectOf)
    requires s.state.Some? && frames != [] && Advance(s, frames[0], track, rectOf).1.Emit?
    ensures var step := Advance(s, frames[0], track, rectOf);
      var rest := Run(step.0, frames[1..], track, rectOf);
      Run(s, frames, track, rectOf) ==
        Trace(rest.final, [step.1.box] + rest.boxes, [IsWeak(s, frames[0], track)] + rest.weak)
  {
  }

  /** The loop ends in one of two ways: every frame yields a box, or it
      stops on a frame whose quit key was pressed while the target was
      not held as lost, and that frame yields nothing. Without the quit key,
      every frame yields a box. */
  lemma {:induction false} RunEndsOnQuitOrExhaustion(s: Session, frames: seq<FrameInput>, track: Oracle, rectOf: RectOf)
    requires s.state.Some?
    ensures var t := Run(s, frames, track, rectOf);
      (|t.boxes| == |t.weak| ==> |t.boxes| == |frames|) &&
      (|t.boxes| < |t.weak| ==> |t.boxes| < |frames| && frames[|t.boxes|].quitKey && t.final.lostCount < MaxLost) &&
      ((forall i :: 0 <= i < |frames| ==> !frames[i].quitKey) ==> |t.boxes| == |frames|)
    decreases |frames|
  {
    if frames != [] {
      var step := Advance(s, frames[0], track, rectOf);
      if step.1.Quit? {
        RunQuits(s, frames, track, rectOf);
      } else {
        var rest := Run(step.0, frames[1..], track, rectOf);
        RunEmits(s, frames, track, rectOf);
        RunEndsOnQuitOrExhaustion(step.0, frames[1..], track, rectOf);
        if |rest.boxes| < |rest.weak| {
          assert frames[1 + |rest.boxes|] == frames[1..][|rest.boxes|];
        }
        if forall i :: 0 <= i < |frames| ==> !frames[i].quitKey {
          forall i | 0 <= i < |frames| - 1 ensures !frames[1..][i].quitKey {
            assert frames[1..][i] == frames[i + 1];
          }
        }
      }
    }
  }

  /** Number of `true` entries at the end of `flags`. */
  function TrailingWeak(flags: seq<bool>): (n: nat)
    ensures n <= |flags|
  {
    if flags == [] || !flags[|flags| - 1] then 0 else 1 + TrailingWeak(flags[..|flags| - 1])
  }

  lemma {:induction false} TrailingWeakCons(b: bool, flags: seq<bool>)
    ensures TrailingWeak([b] + flags) ==
      if false in flags then TrailingWeak(flags) else if b then |flags| + 1 else |flags|
    decreases |flags|
  {
    if flags != [] {
      var front := flags[..|flags| - 1];
      assert ([b] + flags)[..|flags|] == [b] + front;
      assert flags == front + [flags[|flags| - 1]];
      TrailingWeakCons(b, front);
    }
  }

  lemma {:induction false} TrailingWeakAll(flags: seq<bool>)
    ensures false !in flags ==> TrailingWeak(flags) == |flags|
    decreases |flags|
  {
    if flags != [] {
      var front := flags[..|flags| - 1];
      assert false !in flags ==> false !in front by {
        if false in front {
          var i :| 0 <= i < |front| && front[i] == false;
          assert flags[i] == false;
        }
      }
      TrailingWeakAll(front);
    }
  }

  /** One frame in front of a run: how the counter formula extends. */
  lemma StreakStep(weak: bool, count: nat, next: nat, later: seq<bool>, final: nat)
    requires count <= MaxLost
    requires next == if weak then Min(count + 1, MaxLost) else 0
    requires final == Min(MaxLost, TrailingWeak(later) + if false in later then 0 else next)
    ensures final == Min(MaxLost, TrailingWeak([weak] + later) + if false in [weak] + later then 0 else count)
  {
    TrailingWeakCons(weak, later);
    TrailingWeakAll(later);
    assert (false in [weak] + later) == (!weak || false in later);
  }

  /** The weak-frame counter is the length of the current run of weak frames,
      counted on from the starting value when no confident frame intervened,
      and capped at `MaxLost`. */
  lemma {:induction false} LostCountIsWeakStreak(s: Session, frames: seq<FrameInput>, track: Oracle, rectOf: RectOf)
    requires s.state.Some? && s.lostCount <= MaxLost
    ensures var t := Run(s, frames, track, rectOf);
      t.final.lostCount == Min(MaxLost, TrailingWeak(t.weak) + if false in t.weak then 0 else s.lostCount)
    decreases |frames|
  {
    if frames != [] {
      var step := Advance(s, frames[0], track, rectOf);
      var weak := IsWeak(s, frames[0], track);
      var t := Run(s, frames, track, rectOf);
      if step.1.Quit? {
        RunQuits(s, frames, track, rectOf);
        TrailingWeakCons(weak, []);
        assert [weak] + [] == [weak];
      } else {
        var rest := Run(step.0, frames[1..], track, rectOf);
        RunEmits(s, frames, track, rectOf);
        LostCountIsWeakStreak(step.0, frames[1..], track, rectOf);
        StreakStep(weak, s.lostCount, step.0.lostCount, rest.weak, rest.final.lostCount);
      }
    }
  }

  /** Starting from a cleared counter, the hold state is reached only after at
      least `MaxLost` weak frames in a row, and the counter never passes it. */
  lemma HardLossNeedsWeakStreak(s: Session, frames: seq<FrameInput>, track: Oracle, rectOf: RectOf)
    requires s.state.Some? && s.lostCount == 0
    ensures var t := Run(s, frames, track, rectOf);
      t.final.lostCount <= MaxLost && (t.final.lostCount == MaxLost ==> TrailingWeak(t.weak) >= MaxLost)
  {
    LostCountIsWeakStreak(s, frames, track, rectOf);
  }

  /** While every frame stays weak, every yielded box is the box of the last
      confident state, which itself stays unchanged. */
  lemma {:induction false} WeakStreakHoldsBox(s: Session, frames: seq<FrameInput>, track: Oracle, rectOf: RectOf)
    requires s.state.Some? && s.lastGood.Some?
    ensures var t := Run(s, frames, track, rectOf);
      var g := s.lastGood.value;
      (forall i :: 0 <= i < |t.weak| ==> t.weak[i]) ==>
        t.final.lastGood == s.lastGood &&
        (|t.weak| > 0 ==> t.final.state == s.lastGood) &&
        forall i :: 0 <= i < |t.boxes| ==> t.boxes[i] == rectOf(g.targetPos, g.targetSz)
    decreases |frames|
  {
    if frames != [] {
      var step := Advance(s, frames[0], track, rectOf);
      var weak := IsWeak(s, frames[0], track);
      var t := Run(s, frames, track, rectOf);
      if step.1.Quit? {
        assert t == Trace(step.0, [], [weak]);
        assert t.weak[0] == weak;
      } else {
        var rest := Run(step.0, frames[1..], track, rectOf);
        assert t == Trace(rest.final, [step.1.box] + rest.boxes, [weak] + rest.weak);
        if weak && forall i :: 0 <= i < |t.weak| ==> t.weak[i] {
          forall i | 0 <= i < |rest.weak| ensures rest.weak[i] {
            assert rest.weak[i] == t.weak[i + 1];
          }
          WeakStreakHoldsBox(step.0, frames[1..], track, rectOf);
          forall i | 0 <= i < |t.boxes|
            ensures t.boxes[i] == rectOf(s.lastGood.value.targetPos, s.lastGood.value.targetSz)
          {
            if i > 0 {
              assert t.boxes[i] == rest.boxes[i - 1];
            }
          }
        } else if !weak {
          assert !t.weak[0];
        }
      }
    }
  }

  // ---------------------------------------------------------------------
  // The supervisor object
  // ---------------------------------------------------------------------

  datatype TrackError = NotInitialized | SourceUnavailable

  /** `DaSiamRPNTracker`: the fields its methods reassign frame by frame. */
  class Supervisor {
    var state: Option<TrackState>
    var lastGood: Option<TrackState>
    var scoreEma: Option<real>
    /** A local of `track_live` in the source; reset on every entry to it. */
    var lostCount: nat

    function Snapshot(): Session
      reads this
    {
      Session(state, lastGood, scoreEma, lostCount)
    }

    /** `__init__` without the network: nothing seeded, no score seen yet. */
    constructor ()
      ensures Snapshot() == Session(None, None, None, 0)
    {
      state := None;
      lastGood := None;
      scoreEma := None;
      lostCount := 0;
    }

    /** Seeds the tracker from a mask. On success the tracker state is the
        initialising oracle's result, the snapshot equals it, and the smoothed
        score is left as it was; on failure nothing changes. */
    method InitFromMask(frame: Option<Image>, mask: Option<Mask>, seedOracle: (Image, Pair, Pair) -> TrackState)
      returns (r: Result<Box, SeedError>)
      modifies this
      ensures SeedFromMask(frame, mask).Failure? ==>
        r == Failure(SeedFromMask(frame, mask).error) && Snapshot() == old(Snapshot())
      ensures SeedFromMask(frame, mask).Success? ==>
        var seed := SeedFromMask(frame, mask).value;
        r == Success(seed.box) &&
        state == Some(seedOracle(frame.value, seed.centre, seed.size)) && lastGood == state &&
        scoreEma == old(scoreEma) && lostCount == old(lostCount)
    {
      var seed := SeedFromMask(frame, mask);
      if seed.Failure? {
        return Failure(seed.error);
      }
      var initial := seedOracle(frame.value, seed.value.centre, seed.value.size);
      state := Some(initial);
      lastGood := state;
      r := Success(seed.value.box);
    }

    /** One iteration of the `track_live` loop. */
    method Step(f: FrameInput, track: Oracle, rectOf: RectOf) returns (out: Outcome)
      requires state.Some?
      modifies this
      ensures (Snapshot(), out) == Advance(old(Snapshot()), f, track, rectOf)
    {
      var observed := track(state.value, f.image);
      state := Some(observed);
      var raw := RawScore(observed);
      if scoreEma.None? {
        scoreEma := Some(raw);
      } else {
        scoreEma := Some(Alpha * scoreEma.value + (1.0 - Alpha) * raw);
      }
      var score := scoreEma.value;
      var box := rectOf(observed.targetPos, observed.targetSz);
      box := box.(x := Max(0, Min(box.x, FrameWidth - box.w)));
      box := box.(y := Max(0, Min(box.y, FrameHeight - box.h)));
      var weak := score < ConfThresh;
      if weak {
        lostCount := lostCount + 1;
        if lastGood.Some? {
          state := lastGood;
          box := rectOf(state.value.targetPos, state.value.targetSz);
        }
      } else {
        lostCount := 0;
        lastGood := state;
      }
      if lostCount >= MaxLost {
        lostCount := MaxLost;
        return Emit(box);
      }
      if f.quitKey {
        return Quit;
      }
      out := Emit(box);
    }

    /** `track_live` drained to the end: fails before any seed or without a
        video source, and otherwise yields the boxes of `Run` from the current
        fields with the weak-frame counter cleared. */
    method TrackLive(sourceOpens: bool, frames: seq<FrameInput>, track: Oracle, rectOf: RectOf)
      returns (r: Result<seq<Box>, TrackError>)
      modifies this
      ensures old(state).None? ==> r == Failure(NotInitialized) && Snapshot() == old(Snapshot())
      ensures old(state).Some? && !sourceOpens ==> r == Failure(SourceUnavailable) && Snapshot() == old(Snapshot())
      ensures old(state).Some? && sourceOpens ==>
        var t := Run(old(Snapshot()).(lostCount := 0), frames, track, rectOf);
        r == Success(t.boxes) && Snapshot() == t.final
    {
      if state.None? {
        return Failure(NotInitialized);
      }
      if !sourceOpens {
        return Failure(SourceUnavailable);
      }
      lostCount := 0;
      ghost var start := Snapshot();
      assert start == old(Snapshot()).(lostCount := 0);
      var boxes: seq<Box> := [];
      var i := 0;
      while i < |frames|
        invariant 0 <= i <= |frames|
        invariant state.Some?
        invariant Run(start, frames, track, rectOf).final == Run(Snapshot(), frames[i..], track, rectOf).final
        invariant Run(start, frames, track, rectOf).boxes == boxes + Run(Snapshot(), frames[i..], track, rectOf).boxes
      {
        ghost var before := Snapshot();
        assert frames[i..][0] == frames[i] && frames[i..][1..] == frames[i + 1..];
        var out := Step(frames[i], track, rectOf);
        if out.Quit? {
          RunQuits(before, frames[i..], track, rectOf);
          assert boxes + [] == boxes;
          return Success(boxes);
        }
        RunEmits(before, frames[i..], track, rectOf);
        assert boxes + [out.box] + Run(Snapshot(), frames[i + 1..], track, rectOf).boxes
          == boxes + ([out.box] + Run(Snapshot(), frames[i + 1..], track, rectOf).boxes);
        boxes := boxes + [out.box];
        i := i + 1;
      }
      assert frames[i..] == [] && boxes + [] == boxes;
      r := Success(boxes);
    }
  }
}
