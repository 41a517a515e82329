/** The badge of src/components/QualityScore.tsx: a score is shown with a
    label, a colour and an icon chosen by thresholds, and one hint line
    chosen by a second, independent set of threshold tests. */
module QualityBadge {

  datatype Icon = CheckCircle | Circle | AlertCircle

  datatype Badge = Badge(caption: string, color: string, icon: Icon)

  /** `getScoreLevel`: the first threshold the score reaches decides. The
      four labels split the number line into four bands. */
  function GetScoreLevel(score: real): (b: Badge)
    ensures b.caption == "Excellent" <==> score >= 80.0
    ensures b.caption == "Good" <==> 60.0 <= score < 80.0
    ensures b.caption == "Fair" <==> 40.0 <= score < 60.0
    ensures b.caption == "Needs Work" <==> score < 40.0
  {
    if score >= 80.0 then Badge("Excellent", "text-green-500", CheckCircle)
    else if score >= 60.0 then Badge("Good", "text-blue-500", Circle)
    else if score >= 40.0 then Badge("Fair", "text-yellow-500", AlertCircle)
    else Badge("Needs Work", "text-orange-500", AlertCircle)
  }

  /** `{cond && 'text'}`: the text when the condition holds, nothing
      otherwise. */
  function When(cond: bool, text: string): seq<string> {
    if cond then [text] else []
  }

  /** The hint lines the badge renders, in order. */
  function Hints(score: real): (r: seq<string>)
    ensures |r| == 1
  {
    When(score < 40.0, "Keep answering questions to improve quality")
      + When(score >= 40.0 && score < 60.0, "Good progress! Add more details")
      + When(score >= 60.0 && score < 80.0, "Almost there! Include examples")
      + When(score >= 80.0, "Excellent documentation quality!")
  }

  /** The hint that goes with each label. */
  function HintFor(caption: string): string {
    if caption == "Excellent" then "Excellent documentation quality!"
    else if caption == "Good" then "Almost there! Include examples"
    else if caption == "Fair" then "Good progress! Add more details"
    else "Keep answering questions to improve quality"
  }

  /** The one hint shown is the one for the badge's label. */
  lemma HintAgreesWithLabel(score: real)
    ensures Hints(score) == [HintFor(GetScoreLevel(score).caption)]
  {
    if score >= 80.0 {
      assert Hints(score) == [] + [] + [] + ["Excellent documentation quality!"];
    } else if score >= 60.0 {
      assert Hints(score) == [] + [] + ["Almost there! Include examples"] + [];
    } else if score >= 40.0 {
      assert Hints(score) == [] + ["Good progress! Add more details"] + [] + [];
    } else {
      assert Hints(score) == ["Keep answering questions to improve quality"] + [] + [] + [];
    }
  }

  function Rank(caption: string): nat {
    if caption == "Excellent" then 3 else if caption == "Good" then 2 else if caption == "Fair" then 1 else 0
  }

  /** A higher score never gets a lower label. */
  lemma LevelMonotone(a: real, b: real)
    requires a <= b
    ensures Rank(GetScoreLevel(a).caption) <= Rank(GetScoreLevel(b).caption)
  {
  }

  /** The icon is a check only for an excellent score, and a warning below
      60. */
  lemma IconSpec(score: real)
    ensures GetScoreLevel(score).icon == CheckCircle <==> score >= 80.0
    ensures GetScoreLevel(score).icon == AlertCircle <==> score < 60.0
  {
  }
}
