/** Construction of the per-frame records in `video_pose_estimation_tool`:
    the loop that reads at most 100 frames, rates every frame in which a pose
    was detected and gives every other frame an all-"Low" record.

    Frame decoding and pose detection are foreign calls; a frame is given
    here by what they produce: no pose, or the three joint angles together
    with the swing speed the bat positions of earlier frames give. */
module Frames {
  import opened Risk

  /** The most frames the tool reads from one video. */
  const MaxFrames: nat := 100

  /** What pose detection yields for one frame that the reader returned. */
  datatype FrameInput = NoPose | Pose(angles: Angles, speed: real)

  /** The `analysis` entry of a frame record. */
  datatype FrameAnalysis =
    | NotDetected(frame: nat)   // {"frame": i, "status": "No pose detected"}
    | Assessed(analysis: Analysis)

  /** One element of `frame_data`. */
  datatype FrameRecord = FrameRecord(frame: nat, risk: JointRisk, analysis: FrameAnalysis)

  /** Number of frames before frame `k` with a detected pose: the number of
      bat positions recorded when frame `k` is assessed. */
  function PosesBefore(inputs: seq<FrameInput>, k: nat): (n: nat)
    requires k <= |inputs|
    ensures n <= k
  {
    if k == 0 then 0
    else PosesBefore(inputs, k - 1) + (if inputs[k - 1].Pose? then 1 else 0)
  }

  /** The count is zero exactly when no earlier frame showed a pose, and
      `k` exactly when every earlier frame did. */
  lemma {:induction false} PosesBeforeCounts(inputs: seq<FrameInput>, k: nat)
    requires k <= |inputs|
    ensures PosesBefore(inputs, k) == 0 <==> forall i :: 0 <= i < k ==> inputs[i].NoPose?
    ensures PosesBefore(inputs, k) == k <==> forall i :: 0 <= i < k ==> inputs[i].Pose?
  {
    if k > 0 {
      PosesBeforeCounts(inputs, k - 1);
    }
  }

  /** Each frame with a pose adds one bat position: the count never falls
      as `k` grows, and grows across frame `k` exactly when it shows a pose. */
  lemma {:induction false} PosesBeforeMonotone(inputs: seq<FrameInput>, k: nat, m: nat)
    requires k <= m <= |inputs|
    ensures PosesBefore(inputs, k) <= PosesBefore(inputs, m)
    ensures k < m && inputs[k].Pose? ==> PosesBefore(inputs, k) < PosesBefore(inputs, m)
    decreases m - k
  {
    if k < m {
      PosesBeforeMonotone(inputs, k, m - 1);
    }
  }

  /** The record the tool builds for frame `i`, given the bat positions seen
      before it. */
  function RecordOf(i: nat, input: FrameInput, batPositions: nat): (rec: FrameRecord)
    ensures rec.frame == i
    ensures input.NoPose? ==> rec.risk == AllLow && rec.analysis == NotDetected(i)
    ensures input.Pose? ==>
              && rec.risk == AssessInjuryRisk(input.angles, batPositions, input.speed).risk
              && rec.analysis == Assessed(AssessInjuryRisk(input.angles, batPositions, input.speed).analysis)
    ensures forall j :: IsLabel(rec.risk.Get(j))
  {
    match input
    case NoPose => FrameRecord(i, AllLow, NotDetected(i))
    case Pose(angles, speed) =>
      var a := AssessInjuryRisk(angles, batPositions, speed);
      FrameRecord(i, a.risk, Assessed(a.analysis))
  }

  /** The stored ratings of every record, the input of the peak-risk fold. */
  function Risks(frames: seq<FrameRecord>): (rs: seq<JointRisk>)
    ensures |rs| == |frames|
    ensures forall i :: 0 <= i < |frames| ==> rs[i] == frames[i].risk
  {
    seq(|frames|, i requires 0 <= i < |frames| => frames[i].risk)
  }

  /** The records of the first `n` frames, each assessed with the bat
      positions seen before it. */
  function Records(inputs: seq<FrameInput>, n: nat): (rs: seq<FrameRecord>)
    requires n <= |inputs|
    ensures |rs| == n
    ensures forall i :: 0 <= i < n ==> rs[i] == RecordOf(i, inputs[i], PosesBefore(inputs, i))
  {
    seq(n, i requires 0 <= i < n => RecordOf(i, inputs[i], PosesBefore(inputs, i)))
  }

  /** The records of the first `n + 1` frames are those of the first `n`
      followed by frame `n`'s record. */
  lemma RecordsSnoc(inputs: seq<FrameInput>, n: nat)
    requires n < |inputs|
    ensures Records(inputs, n + 1) == Records(inputs, n) + [RecordOf(n, inputs[n], PosesBefore(inputs, n))]
  {
    var rs := Records(inputs, n) + [RecordOf(n, inputs[n], PosesBefore(inputs, n))];
    forall i | 0 <= i <= n
      ensures Records(inputs, n + 1)[i] == rs[i]
    {
      if i < n {
        assert rs[i] == Records(inputs, n)[i];
      }
    }
  }

  /** The frame loop: reads frames until the reader runs out or 100 frames
      have been read, numbering them from 0. */
  method BuildFrames(inputs: seq<FrameInput>) returns (frames: seq<FrameRecord>)
    ensures |frames| == if |inputs| < MaxFrames then |inputs| else MaxFrames
    ensures forall i :: 0 <= i < |frames| ==> frames[i] == RecordOf(i, inputs[i], PosesBefore(inputs, i))
  {
    frames := [];
    var batPositions := 0;
    var frameCount := 0;
    while frameCount < MaxFrames
      invariant frameCount <= MaxFrames && frameCount <= |inputs|
      invariant batPositions == PosesBefore(inputs, frameCount)
      invariant frames == Records(inputs, frameCount)
    {
      if frameCount >= |inputs| {
        break;
      }
      var input := inputs[frameCount];
      RecordsSnoc(inputs, frameCount);
      frames := frames + [RecordOf(frameCount, input, batPositions)];
      if input.Pose? {
        batPositions := batPositions + 1;
      }
      frameCount := frameCount + 1;
    }
  }

  /** What the tool reports for a video: an error when the reader returned
      no frame, otherwise the frame records, the peak risk per joint, the
      exercises for that peak and the number of frames read. */
  datatype VideoSummary =
    | NoFramesProcessed
    | Summary(frames: seq<FrameRecord>, peak: JointRisk, exercises: seq<Exercise>, totalFrames: nat)

  /** The peak over the records is canonical, bounds every record and,
      above Low, is the rating of some record. */
  lemma PeakOverRecords(frames: seq<FrameRecord>, j: Joint)
    ensures var peak := PeakRisk(Risks(frames));
            && (forall i :: 0 <= i < |frames| ==> Rank(frames[i].risk.Get(j)) <= Rank(peak.Get(j)))
            && IsLabel(peak.Get(j))
            && (Rank(peak.Get(j)) > 0 ==> exists i :: 0 <= i < |frames| && frames[i].risk.Get(j) == peak.Get(j))
  {
    var risks := Risks(frames);
    var peak := PeakRisk(risks);
    PeakIsMaximum(risks, j);
    if Rank(peak.Get(j)) > 0 {
      var i :| 0 <= i < |risks| && risks[i].Get(j) == peak.Get(j);
      assert frames[i].risk.Get(j) == peak.Get(j);
    }
  }

  /** A video in which no frame shows a pose has an all-"Low" peak. */
  lemma NoPosePeak(frames: seq<FrameRecord>)
    requires forall i :: 0 <= i < |frames| ==> frames[i].risk == AllLow
    ensures PeakRisk(Risks(frames)) == AllLow
  {
    PeakOfAllLow(Risks(frames), |frames|);
  }

  /** The report over the records of a video that gave at least one frame:
      the peak bounds every record, is one of the three labels and, above
      Low, is the rating of some record; the exercises are those for the
      peak; a video whose records are all "Low" gets the general warm-up. */
  function Summarise(frames: seq<FrameRecord>): (s: VideoSummary)
    requires |frames| > 0
    ensures s.Summary? && s.frames == frames && s.totalFrames == |frames|
    ensures forall i, j :: 0 <= i < |frames| ==> Rank(frames[i].risk.Get(j)) <= Rank(s.peak.Get(j))
    ensures forall j :: IsLabel(s.peak.Get(j))
    ensures forall j :: Rank(s.peak.Get(j)) > 0 ==>
              exists i :: 0 <= i < |frames| && frames[i].risk.Get(j) == s.peak.Get(j)
    ensures s.exercises == SuggestExercises(s.peak)
    ensures (forall i :: 0 <= i < |frames| ==> frames[i].risk == AllLow) ==>
              s.peak == AllLow && s.exercises == [GeneralWarmUp]
  {
    var peak := PeakRisk(Risks(frames));
    assert forall j ::
      && (forall i :: 0 <= i < |frames| ==> Rank(frames[i].risk.Get(j)) <= Rank(peak.Get(j)))
      && IsLabel(peak.Get(j))
      && (Rank(peak.Get(j)) > 0 ==> exists i :: 0 <= i < |frames| && frames[i].risk.Get(j) == peak.Get(j))
    by {
      forall j
        ensures forall i :: 0 <= i < |frames| ==> Rank(frames[i].risk.Get(j)) <= Rank(peak.Get(j))
        ensures IsLabel(peak.Get(j))
        ensures Rank(peak.Get(j)) > 0 ==> exists i :: 0 <= i < |frames| && frames[i].risk.Get(j) == peak.Get(j)
      {
        PeakOverRecords(frames, j);
      }
    }
    assert (forall i :: 0 <= i < |frames| ==> frames[i].risk == AllLow) ==> peak == AllLow && GeneralWarmUp in SuggestExercises(peak) by {
      if forall i :: 0 <= i < |frames| ==> frames[i].risk == AllLow {
        NoPosePeak(frames);
      }
    }
    Summary(frames, peak, SuggestExercises(peak), |frames|)
  }

  /** The frame loop followed by the report: an error when the reader
      returned no frame. */
  method SummariseVideo(inputs: seq<FrameInput>) returns (s: VideoSummary)
    ensures s.NoFramesProcessed? <==> |inputs| == 0
    ensures s.Summary? ==>
              && s.totalFrames == |s.frames| == (if |inputs| < MaxFrames then |inputs| else MaxFrames)
              && (forall i :: 0 <= i < |s.frames| ==> s.frames[i] == RecordOf(i, inputs[i], PosesBefore(inputs, i)))
    ensures s.Summary? ==> forall i, j :: 0 <= i < |s.frames| ==> Rank(s.frames[i].risk.Get(j)) <= Rank(s.peak.Get(j))
    ensures s.Summary? ==> forall j :: IsLabel(s.peak.Get(j))
    ensures s.Summary? ==> forall j :: Rank(s.peak.Get(j)) > 0 ==>
              exists i :: 0 <= i < |s.frames| && s.frames[i].risk.Get(j) == s.peak.Get(j)
    ensures s.Summary? ==> s.exercises == SuggestExercises(s.peak)
    ensures s.Summary? && (forall i :: 0 <= i < |inputs| ==> inputs[i].NoPose?) ==>
              s.peak == AllLow && s.exercises == [GeneralWarmUp]
  {
    var frames := BuildFrames(inputs);
    if |frames| == 0 {
      return NoFramesProcessed;
    }
    if forall i :: 0 <= i < |inputs| ==> inputs[i].NoPose? {
      assert forall i :: 0 <= i < |frames| ==> frames[i].risk == AllLow;
    }
    s := Summarise(frames);
  }
}
