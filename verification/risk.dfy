/** Injury-risk ratings of the pose-analysis back end: the angle bands that
    rate the back, knees and shoulders of one frame, the swing-speed
    adjustment, the exercise recommendation, and the peak-risk fold over all
    frames of a video.

    The back end stores ratings as Python strings ("Low", "Moderate",
    "High"); the model keeps them as strings wherever the back end compares
    strings, and uses the `Rating` enumeration where it produces them. */
module Risk {
  import opened Wrappers

  /** The three ratings `assess_injury_risk` assigns. */
  datatype Rating = Low | Moderate | High

  /** The string the back end stores for a rating. */
  function Label(r: Rating): string {
    match r
    case Low => "Low"
    case Moderate => "Moderate"
    case High => "High"
  }

  /** The rank the peak-risk fold gives a stored rating string; a string it
      does not know ranks like "Low". */
  function Rank(name: string): nat {
    if name == "High" then 2 else if name == "Moderate" then 1 else 0
  }

  /** The label of a rank, the inverse of `Rank` on the three labels. */
  function LabelOfRank(k: nat): string {
    if k >= 2 then "High" else if k == 1 then "Moderate" else "Low"
  }

  /** A string that ranks above Low is the label of its rank. */
  lemma LabelOfKnownRank(name: string)
    ensures Rank(name) > 0 ==> LabelOfRank(Rank(name)) == name
  {
  }

  predicate IsLabel(s: string) {
    s == "Low" || s == "Moderate" || s == "High"
  }

  /** The joints the back end rates. */
  datatype Joint = Back | Knees | Shoulders

  /** The `injury_risk` dictionary of one frame: a stored rating per joint. */
  datatype JointRisk = JointRisk(back: string, knees: string, shoulders: string) {
    function Get(j: Joint): string {
      match j
      case Back => back
      case Knees => knees
      case Shoulders => shoulders
    }

  }

  /** The starting value of every per-frame assessment and of the peak fold. */
  const AllLow: JointRisk := JointRisk("Low", "Low", "Low")

  // ---------------------------------------------------------------------
  // Angle bands (assess_injury_risk)
  // ---------------------------------------------------------------------

  /** Back rating for the spine angle in degrees. */
  function BackRating(spineAngle: real): (r: Rating)
    ensures r == High <==> spineAngle > 30.0
    ensures r == Moderate <==> 20.0 < spineAngle <= 30.0
    ensures r == Low <==> spineAngle <= 20.0
  {
    if spineAngle > 30.0 then High
    else if spineAngle > 20.0 then Moderate
    else Low
  }

  /** Knee rating for the left-knee angle in degrees: a smaller angle is a
      deeper bend and a higher risk. */
  function KneeRating(kneeAngle: real): (r: Rating)
    ensures r == High <==> kneeAngle < 120.0
    ensures r == Moderate <==> 120.0 <= kneeAngle < 140.0
    ensures r == Low <==> kneeAngle >= 140.0
  {
    if kneeAngle < 120.0 then High
    else if kneeAngle < 140.0 then Moderate
    else Low
  }

  /** Shoulder rating for the shoulder angle in degrees. */
  function ShoulderRating(shoulderAngle: real): (r: Rating)
    ensures r == High <==> shoulderAngle > 90.0
    ensures r == Moderate <==> 70.0 < shoulderAngle <= 90.0
    ensures r == Low <==> shoulderAngle <= 70.0
  {
    if shoulderAngle > 90.0 then High
    else if shoulderAngle > 70.0 then Moderate
    else Low
  }

  /** A larger spine or shoulder angle never lowers the rating; a larger
      knee angle never raises it. */
  lemma BandsMonotone(a: real, b: real)
    requires a <= b
    ensures Rank(Label(BackRating(a))) <= Rank(Label(BackRating(b)))
    ensures Rank(Label(ShoulderRating(a))) <= Rank(Label(ShoulderRating(b)))
    ensures Rank(Label(KneeRating(b))) <= Rank(Label(KneeRating(a)))
  {
  }

  function BackNote(r: Rating): string {
    match r
    case High => "Excessive forward lean detected, increasing spinal strain."
    case Moderate => "Moderate forward lean; monitor posture."
    case Low => "Good spinal alignment."
  }

  function KneeNote(r: Rating): string {
    match r
    case High => "Excessive knee bend detected, potential for strain."
    case Moderate => "Moderate knee bend; consider strengthening exercises."
    case Low => "Good knee alignment."
  }

  function ShoulderNote(r: Rating): string {
    match r
    case High => "Excessive shoulder rotation detected, risk of strain."
    case Moderate => "Moderate shoulder rotation; ensure proper warm-up."
    case Low => "Good shoulder alignment."
  }

  // ---------------------------------------------------------------------
  // Swing-speed adjustment
  // ---------------------------------------------------------------------

  /** Python's ordering of two strings: code point by code point, a proper
      prefix first. */
  predicate LexLess(a: string, b: string)
    decreases |a|
  {
    if |a| == 0 then |b| > 0
    else if |b| == 0 then false
    else if a[0] != b[0] then a[0] < b[0]
    else LexLess(a[1..], b[1..])
  }

  /** Python's ordering of strings is a strict order: no string precedes
      itself, and of two strings at most one precedes the other. */
  lemma {:induction false} LexLessStrict(a: string, b: string)
    ensures !LexLess(a, a)
    ensures LexLess(a, b) ==> !LexLess(b, a)
    decreases |a|
  {
    if |a| > 0 && |b| > 0 && a[0] == b[0] {
      LexLessStrict(a[1..], b[1..]);
    } else if |a| > 0 {
      LexLessStrict(a[1..], a[1..]);
    }
  }

  /** Python's `max(a, b)` on two strings: `b` only when it is strictly
      greater, so a tie keeps `a`. */
  function LexMax(a: string, b: string): (m: string)
    ensures m == a || m == b
  {
    if LexLess(a, b) then b else a
  }

  /** `LexMax` is a maximum: neither argument follows it. */
  lemma LexMaxIsMax(a: string, b: string)
    ensures !LexLess(LexMax(a, b), a) && !LexLess(LexMax(a, b), b)
  {
    LexLessStrict(a, b);
    LexLessStrict(a, a);
    LexLessStrict(b, b);
  }

  /** The shoulder rating after a fast swing as the back end computes it:
      `max(rating, "High")` compares strings, and "Low" and "Moderate" both
      sort after "High", so the rating never changes. */
  function ShouldersAfterSwingAsWritten(r: Rating): (name: string)
    ensures name == Label(r)
  {
    LexMax(Label(r), "High")
  }

  /** The greater of two ratings by rank. */
  function MaxRating(a: Rating, b: Rating): (r: Rating)
    ensures Rank(Label(a)) <= Rank(Label(r)) && Rank(Label(b)) <= Rank(Label(r))
    ensures r == a || r == b
  {
    if Rank(Label(b)) > Rank(Label(a)) then b else a
  }

  /** The shoulder rating after a fast swing as intended: raised to High by
      rank. */
  function ShouldersAfterSwing(r: Rating): (r': Rating)
    ensures r' == High
  {
    MaxRating(r, High)
  }

  /** The swing speed above which a fast swing is flagged. */
  const FastSwing: real := 50.0

  const FastSwingSuffix: string := " High swing speed increases shoulder strain."

  /** The three joint angles `assess_injury_risk` measures, in degrees. */
  datatype Angles = Angles(spine: real, leftKnee: real, shoulder: real)

  /** The `analysis` dictionary of an assessed frame. The swing-speed entry
      keeps the speed itself; its two-decimal formatting is not modelled. */
  datatype Analysis = Analysis(back: string, knees: string, shoulders: string, swingSpeed: Option<real>)

  datatype Assessment = Assessment(risk: JointRisk, analysis: Analysis)

  /** A swing counts as fast when at least two bat positions are known and
      the speed exceeds the threshold. */
  predicate FastSwingSeen(batPositions: nat, speed: real) {
    batPositions >= 2 && speed > FastSwing
  }

  /** Rating of one frame from its angles, the number of bat positions seen
      in earlier frames and the swing speed they give, as the back end
      computes it: the swing-speed adjustment compares strings, so a fast
      swing adds its note but leaves every stored rating as the angle bands
      set it. */
  function AssessInjuryRisk(angles: Angles, batPositions: nat, speed: real): (a: Assessment)
    ensures a.risk.back == Label(BackRating(angles.spine))
    ensures a.risk.knees == Label(KneeRating(angles.leftKnee))
    ensures a.risk.shoulders == Label(ShoulderRating(angles.shoulder))
    ensures IsLabel(a.risk.back) && IsLabel(a.risk.knees) && IsLabel(a.risk.shoulders)
    ensures a.analysis.back == BackNote(BackRating(angles.spine))
    ensures a.analysis.knees == KneeNote(KneeRating(angles.leftKnee))
    ensures a.analysis.swingSpeed.Some? <==> batPositions >= 2
    ensures a.analysis.swingSpeed == if batPositions >= 2 then Some(speed) else None
    ensures a.analysis.shoulders ==
              ShoulderNote(ShoulderRating(angles.shoulder))
              + (if FastSwingSeen(batPositions, speed) then FastSwingSuffix else "")
  {
    var back := BackRating(angles.spine);
    var knees := KneeRating(angles.leftKnee);
    var shoulders := ShoulderRating(angles.shoulder);
    var base := Analysis(BackNote(back), KneeNote(knees), ShoulderNote(shoulders), None);
    if batPositions >= 2 then
      var withSpeed := base.(swingSpeed := Some(speed));
      if speed > FastSwing then
        Assessment(JointRisk(Label(back), Label(knees), ShouldersAfterSwingAsWritten(shoulders)),
                   withSpeed.(shoulders := withSpeed.shoulders + FastSwingSuffix))
      else
        Assessment(JointRisk(Label(back), Label(knees), Label(shoulders)), withSpeed)
    else
      Assessment(JointRisk(Label(back), Label(knees), Label(shoulders)), base)
  }

  /** The assessment with the swing-speed adjustment as intended: a fast
      swing raises the stored shoulder rating to "High". */
  function AssessInjuryRiskIntended(angles: Angles, batPositions: nat, speed: real): (a: Assessment)
    ensures FastSwingSeen(batPositions, speed) ==> a.risk.shoulders == "High"
    ensures !FastSwingSeen(batPositions, speed) ==> a.risk.shoulders == Label(ShoulderRating(angles.shoulder))
  {
    var w := AssessInjuryRisk(angles, batPositions, speed);
    if FastSwingSeen(batPositions, speed) then
      w.(risk := w.risk.(shoulders := Label(ShouldersAfterSwing(ShoulderRating(angles.shoulder)))))
    else w
  }

  /** The back end and the intended adjustment agree on the notes and on the
      back and knee ratings; they disagree on the shoulder rating exactly for
      a fast swing whose shoulder band is below High. */
  lemma IntendedDiffersOnlyInShoulders(angles: Angles, batPositions: nat, speed: real)
    ensures var w := AssessInjuryRisk(angles, batPositions, speed);
            var i := AssessInjuryRiskIntended(angles, batPositions, speed);
            && i.analysis == w.analysis
            && i.risk.back == w.risk.back
            && i.risk.knees == w.risk.knees
            && (i.risk.shoulders != w.risk.shoulders <==>
                  FastSwingSeen(batPositions, speed) && ShoulderRating(angles.shoulder) != High)
  {
  }

  /** A concrete frame on which the two differ: shoulder angle 60 degrees
      (band Low), two bat positions and speed 60. The back end stores "Low";
      the intended adjustment stores "High". */
  lemma FastSwingKeepsLowAsWritten()
    ensures AssessInjuryRisk(Angles(0.0, 180.0, 60.0), 2, 60.0).risk.shoulders == "Low"
    ensures AssessInjuryRiskIntended(Angles(0.0, 180.0, 60.0), 2, 60.0).risk.shoulders == "High"
  {
  }

  // ---------------------------------------------------------------------
  // Exercise recommendation (suggest_exercises)
  // ---------------------------------------------------------------------

  datatype Exercise = Exercise(name: string, description: string)

  const CatCowStretch: Exercise := Exercise(
    "Cat-Cow Stretch",
    "Improves spinal flexibility and reduces back strain. Perform 10 reps, holding each position for 5 seconds.")
  const QuadricepsStretch: Exercise := Exercise(
    "Quadriceps Stretch",
    "Strengthens knee support muscles. Hold for 30 seconds per leg, 3 reps.")
  const ShoulderBladeSqueeze: Exercise := Exercise(
    "Shoulder Blade Squeeze",
    "Improves shoulder stability. Perform 15 reps, holding for 5 seconds.")
  const GeneralWarmUp: Exercise := Exercise(
    "General Warm-Up",
    "Perform light cardio and dynamic stretches for 5-10 minutes to prepare muscles.")

  /** A joint calls for its exercise when its stored rating is exactly
      "Moderate" or "High"; any other string does not. */
  predicate Triggers(name: string) {
    name == "Moderate" || name == "High"
  }

  /** The position of an exercise in the fixed recommendation order. */
  function Position(e: Exercise): nat {
    if e == CatCowStretch then 0
    else if e == QuadricepsStretch then 1
    else if e == ShoulderBladeSqueeze then 2
    else 3
  }

  function ExercisesIf(cond: bool, e: Exercise): seq<Exercise> {
    if cond then [e] else []
  }

  /** Exercises for the peak risk: one per triggered joint, back, knees,
      shoulders in that order, or the general warm-up alone when no joint
      triggers. */
  function SuggestExercises(risk: JointRisk): (ex: seq<Exercise>)
    ensures 1 <= |ex| <= 3
    ensures CatCowStretch in ex <==> Triggers(risk.back)
    ensures QuadricepsStretch in ex <==> Triggers(risk.knees)
    ensures ShoulderBladeSqueeze in ex <==> Triggers(risk.shoulders)
    ensures GeneralWarmUp in ex <==> !Triggers(risk.back) && !Triggers(risk.knees) && !Triggers(risk.shoulders)
    ensures GeneralWarmUp in ex ==> ex == [GeneralWarmUp]
    ensures forall e :: e in ex ==> e in [CatCowStretch, QuadricepsStretch, ShoulderBladeSqueeze, GeneralWarmUp]
    ensures forall i, k :: 0 <= i < k < |ex| ==> Position(ex[i]) < Position(ex[k])
  {
    var joints := ExercisesIf(Triggers(risk.back), CatCowStretch)
                  + ExercisesIf(Triggers(risk.knees), QuadricepsStretch)
                  + ExercisesIf(Triggers(risk.shoulders), ShoulderBladeSqueeze);
    if |joints| == 0 then [GeneralWarmUp] else joints
  }

  // ---------------------------------------------------------------------
  // Peak risk over all frames
  // ---------------------------------------------------------------------

  /** One step of the fold: a joint takes the frame's rating only when it
      ranks strictly higher than the one held. */
  function PeakStep(acc: JointRisk, frame: JointRisk): (r: JointRisk)
    ensures forall j :: r.Get(j) == (if Rank(frame.Get(j)) > Rank(acc.Get(j)) then frame.Get(j) else acc.Get(j))
  {
    JointRisk(
      if Rank(frame.back) > Rank(acc.back) then frame.back else acc.back,
      if Rank(frame.knees) > Rank(acc.knees) then frame.knees else acc.knees,
      if Rank(frame.shoulders) > Rank(acc.shoulders) then frame.shoulders else acc.shoulders)
  }

  /** The `max_risk` dictionary after folding the first `n` frames in
      order, starting from all "Low". */
  function PeakOf(frames: seq<JointRisk>, n: nat): (r: JointRisk)
    requires n <= |frames|
    ensures forall j :: IsLabel(r.Get(j))
  {
    if n == 0 then AllLow
    else PeakStep(PeakOf(frames, n - 1), frames[n - 1])
  }

  /** The `max_risk` dictionary after folding every frame. */
  function PeakRisk(frames: seq<JointRisk>): (r: JointRisk)
    ensures forall j :: IsLabel(r.Get(j))
    ensures |frames| == 0 ==> r == AllLow
  {
    PeakOf(frames, |frames|)
  }

  /** The rank a fold step keeps is the larger of the two. */
  lemma PeakStepRank(acc: JointRisk, frame: JointRisk, j: Joint)
    ensures Rank(PeakStep(acc, frame).Get(j)) >= Rank(acc.Get(j))
    ensures Rank(PeakStep(acc, frame).Get(j)) >= Rank(frame.Get(j))
  {
  }

  /** Frame `i` ranks no higher than the peak of any first `n` frames that
      include it. */
  lemma {:induction false} PeakBoundsFrame(frames: seq<JointRisk>, n: nat, i: nat, j: Joint)
    requires i < n <= |frames|
    ensures Rank(frames[i].Get(j)) <= Rank(PeakOf(frames, n).Get(j))
  {
    PeakStepRank(PeakOf(frames, n - 1), frames[n - 1], j);
    if i < n - 1 {
      PeakBoundsFrame(frames, n - 1, i, j);
    }
  }

  /** A peak above Low among the first `n` frames is the rating of one of
      them. */
  lemma {:induction false} PeakAttained(frames: seq<JointRisk>, n: nat, j: Joint)
    requires n <= |frames|
    ensures Rank(PeakOf(frames, n).Get(j)) > 0 ==>
              exists i :: 0 <= i < n && frames[i].Get(j) == PeakOf(frames, n).Get(j)
  {
    if n > 0 {
      PeakAttained(frames, n - 1, j);
      var a := PeakOf(frames, n - 1).Get(j);
      if PeakOf(frames, n).Get(j) == a && Rank(a) > 0 {
        var i :| 0 <= i < n - 1 && frames[i].Get(j) == a;
        assert frames[i].Get(j) == PeakOf(frames, n).Get(j);
      }
    }
  }

  /** The peak is always one of the three labels. */
  lemma {:induction false} PeakCanonical(frames: seq<JointRisk>, n: nat, j: Joint)
    requires n <= |frames|
    ensures PeakOf(frames, n).Get(j) == LabelOfRank(Rank(PeakOf(frames, n).Get(j)))
  {
    if n > 0 {
      PeakCanonical(frames, n - 1, j);
      LabelOfKnownRank(frames[n - 1].Get(j));
    }
  }

  /** The peak of a joint is the greatest rank over the frames, held as its
      canonical label: no frame ranks higher, a rank above Low is attained by
      some frame, and a string the fold does not know is never adopted. */
  lemma PeakIsMaximum(frames: seq<JointRisk>, j: Joint)
    ensures forall i :: 0 <= i < |frames| ==> Rank(frames[i].Get(j)) <= Rank(PeakRisk(frames).Get(j))
    ensures Rank(PeakRisk(frames).Get(j)) > 0 ==>
              exists i :: 0 <= i < |frames| && frames[i].Get(j) == PeakRisk(frames).Get(j)
    ensures PeakRisk(frames).Get(j) == LabelOfRank(Rank(PeakRisk(frames).Get(j)))
  {
    forall i | 0 <= i < |frames|
      ensures Rank(frames[i].Get(j)) <= Rank(PeakRisk(frames).Get(j))
    {
      PeakBoundsFrame(frames, |frames|, i, j);
    }
    PeakAttained(frames, |frames|, j);
    PeakCanonical(frames, |frames|, j);
  }

  /** Folding frames that are all "Low" leaves the peak all "Low". */
  lemma {:induction false} PeakOfAllLow(frames: seq<JointRisk>, n: nat)
    requires n <= |frames|
    requires forall i :: 0 <= i < n ==> frames[i] == AllLow
    ensures PeakOf(frames, n) == AllLow
  {
    if n > 0 {
      PeakOfAllLow(frames, n - 1);
    }
  }

  /** Ties keep the earlier value: a frame whose rating ranks no higher than
      the peak so far leaves the peak unchanged. */
  lemma PeakIgnoresNoHigher(frames: seq<JointRisk>, frame: JointRisk, j: Joint)
    requires Rank(frame.Get(j)) <= Rank(PeakRisk(frames).Get(j))
    ensures PeakRisk(frames + [frame]).Get(j) == PeakRisk(frames).Get(j)
  {
    PeakOfPrefix(frames, [frame], |frames|);
  }

  /** Frames after the first `n` do not affect the fold of the first `n`. */
  lemma {:induction false} PeakOfPrefix(frames: seq<JointRisk>, more: seq<JointRisk>, n: nat)
    requires n <= |frames|
    ensures PeakOf(frames + more, n) == PeakOf(frames, n)
  {
    if n > 0 {
      PeakOfPrefix(frames, more, n - 1);
      assert (frames + more)[n - 1] == frames[n - 1];
    }
  }
}
