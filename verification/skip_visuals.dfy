/** Size-dependent presentation choices for a skip card: styling, animation
    class names, the picture, and the "Serves" / "Max Weight" captions. Each
    is an if-chain over size thresholds; each is shown equal to a table indexed
    by the number of thresholds the size exceeds, from which monotonicity in
    size follows. */
module SkipVisuals {
  import opened Wrappers
  import opened Text

  /** How many thresholds lie strictly below `size`: the bucket an
      `if (size <= t0) ... else if (size <= t1) ...` chain selects. */
  function CountBelow(thresholds: seq<int>, size: int): (n: nat)
    ensures n <= |thresholds|
  {
    if |thresholds| == 0 then 0
    else (if thresholds[0] < size then 1 else 0) + CountBelow(thresholds[1..], size)
  }

  lemma {:induction false} CountBelowMonotone(thresholds: seq<int>, a: int, b: int)
    requires a <= b
    ensures CountBelow(thresholds, a) <= CountBelow(thresholds, b)
    decreases |thresholds|
  {
    if |thresholds| > 0 {
      CountBelowMonotone(thresholds[1..], a, b);
    }
  }

  ghost predicate NonDecreasing(xs: seq<int>) {
    forall i, j :: 0 <= i <= j < |xs| ==> xs[i] <= xs[j]
  }

  /** On sorted thresholds the chain picks bucket `k` exactly when the size is
      above the `k`-th threshold and at most the next one. */
  lemma {:induction false} CountBelowSorted(thresholds: seq<int>, size: int, k: nat)
    requires NonDecreasing(thresholds)
    requires k <= |thresholds|
    requires k > 0 ==> thresholds[k - 1] < size
    requires k < |thresholds| ==> size <= thresholds[k]
    ensures CountBelow(thresholds, size) == k
    decreases |thresholds|
  {
    if |thresholds| > 0 {
      var rest := thresholds[1..];
      if k == 0 {
        assert size <= thresholds[0];
        CountBelowSorted(rest, size, 0);
      } else {
        assert thresholds[0] <= thresholds[k - 1];
        CountBelowSorted(rest, size, k - 1);
      }
    }
  }

  // ---------------------------------------------------------------------------
  // getSkipStyling

  /** Width and height are Tailwind spacing units (`w-20` is width 20). */
  datatype Styling = Styling(scale: real, rotation: int, width: nat, height: nat, hoverScale: real)

  const StylingThresholds: seq<int> := [4, 6, 8, 10, 12, 14, 16, 20]
  const WidthSteps: seq<int> := [20, 28, 36, 44, 52, 60, 68, 76, 96]
  const HeightSteps: seq<int> := [16, 20, 24, 28, 32, 36, 40, 44, 56]
  const RotationSteps: seq<int> := [0, -2, 3, 0, -1, 2, 0, -1, 1]

  function SkipStyling(size: int): (st: Styling)
    ensures st.scale == 1.0 && st.hoverScale == st.scale + 0.05
    ensures -2 <= st.rotation <= 3
  {
    if size <= 4 then Styling(1.0, 0, 20, 16, 1.0 + 0.05)
    else if size <= 6 then Styling(1.0, -2, 28, 20, 1.0 + 0.05)
    else if size <= 8 then Styling(1.0, 3, 36, 24, 1.0 + 0.05)
    else if size <= 10 then Styling(1.0, 0, 44, 28, 1.0 + 0.05)
    else if size <= 12 then Styling(1.0, -1, 52, 32, 1.0 + 0.05)
    else if size <= 14 then Styling(1.0, 2, 60, 36, 1.0 + 0.05)
    else if size <= 16 then Styling(1.0, 0, 68, 40, 1.0 + 0.05)
    else if size <= 20 then Styling(1.0, -1, 76, 44, 1.0 + 0.05)
    else Styling(1.0, 1, 96, 56, 1.0 + 0.05)
  }

  /** The styling is the table row picked by the size's bucket. */
  lemma StylingByBucket(size: int)
    ensures var b := CountBelow(StylingThresholds, size);
      var st := SkipStyling(size);
      && b < 9
      && st.width == WidthSteps[b] && st.height == HeightSteps[b] && st.rotation == RotationSteps[b]
  {
    var ts := StylingThresholds;
    assert NonDecreasing(ts);
    var k := if size <= 4 then 0 else if size <= 6 then 1 else if size <= 8 then 2
      else if size <= 10 then 3 else if size <= 12 then 4 else if size <= 14 then 5
      else if size <= 16 then 6 else if size <= 20 then 7 else 8;
    CountBelowSorted(ts, size, k);
  }

  /** A bigger skip is never drawn narrower or shorter. */
  lemma StylingMonotone(a: int, b: int)
    requires a <= b
    ensures SkipStyling(a).width <= SkipStyling(b).width
    ensures SkipStyling(a).height <= SkipStyling(b).height
  {
    StylingByBucket(a);
    StylingByBucket(b);
    CountBelowMonotone(StylingThresholds, a, b);
    var i, j := CountBelow(StylingThresholds, a), CountBelow(StylingThresholds, b);
    assert NonDecreasing(WidthSteps) && NonDecreasing(HeightSteps);
  }

  // ---------------------------------------------------------------------------
  // getSkipAnimationClasses

  datatype SizeTier = SmallTier | MediumTier | LargeTier | IndustrialTier

  const TierThresholds: seq<int> := [6, 12, 16]

  function Tier(size: int): (r: SizeTier)
    ensures TierRank(r) == CountBelow(TierThresholds, size)
  {
    var k := if size <= 6 then 0 else if size <= 12 then 1 else if size <= 16 then 2 else 3;
    assert NonDecreasing(TierThresholds);
    CountBelowSorted(TierThresholds, size, k);
    if size <= 6 then SmallTier
    else if size <= 12 then MediumTier
    else if size <= 16 then LargeTier
    else IndustrialTier
  }

  function TierRank(t: SizeTier): nat {
    match t
    case SmallTier => 0
    case MediumTier => 1
    case LargeTier => 2
    case IndustrialTier => 3
  }

  function TierName(t: SizeTier): string {
    match t
    case SmallTier => "small"
    case MediumTier => "medium"
    case LargeTier => "large"
    case IndustrialTier => "industrial"
  }

  /** The tier grows with size. */
  lemma TierMonotone(a: int, b: int)
    requires a <= b
    ensures TierRank(Tier(a)) <= TierRank(Tier(b))
  {
    CountBelowMonotone(TierThresholds, a, b);
  }

  /** The tier thresholds are styling thresholds: two sizes drawn in the same
      styling bucket always share an animation tier. */
  lemma StylingBucketFixesTier(a: int, b: int)
    requires CountBelow(StylingThresholds, a) == CountBelow(StylingThresholds, b)
    ensures Tier(a) == Tier(b)
  {
    StylingByBucket(a);
    StylingByBucket(b);
    assert TierRank(Tier(a)) == TierRank(Tier(b));
  }

  /** `Math.round`: the nearest integer, halves rounded up. */
  function Round(x: real): (n: int)
    ensures n as real - 0.5 <= x < n as real + 0.5
  {
    (x + 0.5).Floor
  }

  function ScaleClass(scale: real): string {
    "scale-" + IntToString(Round(scale * 100.0))
  }

  const NegativeRotationPrefix: string := "rotate-n"
  const RotationPrefix: string := "rotate-"

  /** Negative rotations are spelled with an `n`: `rotate-n2` for -2. */
  function RotationClass(rotation: int): (r: string)
    ensures |r| > |RotationPrefix| && r[..|RotationPrefix|] == RotationPrefix
    ensures rotation < 0 <==> r[|RotationPrefix|] == 'n'
  {
    if rotation < 0 then NegativeRotationPrefix + IntToString(-rotation)
    else
      var digits := IntToString(rotation);
      assert digits == NatToString(rotation) && IsDigit(digits[0]);
      RotationPrefix + digits
  }

  /** The rest of `s` after `prefix`, when `s` starts with it. */
  function StripPrefix(s: string, prefix: string): Option<string> {
    if |prefix| <= |s| && s[..|prefix|] == prefix then Some(s[|prefix|..]) else None
  }

  lemma StripPrefixOf(prefix: string, rest: string)
    ensures StripPrefix(prefix + rest, prefix) == Some(rest)
  {
    assert (prefix + rest)[..|prefix|] == prefix;
  }

  /** Reads a rotation class back to its rotation. */
  function ParseRotationClass(c: string): Option<int> {
    match StripPrefix(c, NegativeRotationPrefix)
    case Some(digits) =>
      (match ParseNat(digits)
       case Some(n) => Some(-(n as int))
       case None => None)
    case None =>
      match StripPrefix(c, RotationPrefix)
      case Some(digits) =>
        (match ParseNat(digits)
         case Some(n) => Some(n as int)
         case None => None)
      case None => None
  }

  /** `rotate-n<digits>` reads back to the negated number. */
  lemma NegativeClassParses(n: nat)
    ensures ParseRotationClass(NegativeRotationPrefix + NatToString(n)) == Some(-(n as int))
  {
    var digits := NatToString(n);
    StripPrefixOf(NegativeRotationPrefix, digits);
    ParseNatToString(n);
  }

  lemma NegativeRotationParses(rotation: int)
    requires rotation < 0
    ensures ParseRotationClass(RotationClass(rotation)) == Some(rotation)
  {
    var n: nat := -rotation;
    assert RotationClass(rotation) == NegativeRotationPrefix + IntToString(n);
    assert IntToString(n) == NatToString(n);
    NegativeClassParses(n);
  }

  lemma NonNegativeRotationParses(rotation: int)
    requires rotation >= 0
    ensures ParseRotationClass(RotationClass(rotation)) == Some(rotation)
  {
    var digits := NatToString(rotation);
    var c := RotationPrefix + digits;
    assert IntToString(rotation) == digits;
    assert RotationClass(rotation) == c;
    assert c[|RotationPrefix|] == digits[0];
    assert !(c[..|NegativeRotationPrefix|] == NegativeRotationPrefix) by {
      assert c[..|NegativeRotationPrefix|][7] == digits[0];
      assert NegativeRotationPrefix[7] == 'n';
    }
    assert StripPrefix(c, NegativeRotationPrefix).None?;
    StripPrefixOf(RotationPrefix, digits);
    ParseNatToString(rotation);
  }

  /** Every rotation gets its own class: the class reads back to the rotation. */
  lemma RotationClassParses(rotation: int)
    ensures ParseRotationClass(RotationClass(rotation)) == Some(rotation)
  {
    if rotation < 0 {
      NegativeRotationParses(rotation);
    } else {
      NonNegativeRotationParses(rotation);
    }
  }

  /** `(index % 3) + 1`: the staggered entrance animation of a card. */
  function EntranceNumber(index: nat): (e: int)
    ensures 1 <= e <= 3
  {
    index % 3 + 1
  }

  /** Cards three apart enter alike and neighbours enter differently. */
  lemma EntrancePeriodic(index: nat)
    ensures EntranceNumber(index + 3) == EntranceNumber(index)
    ensures EntranceNumber(index + 1) != EntranceNumber(index)
  {
  }

  datatype AnimationClasses = AnimationClasses(containerClasses: string, imageClasses: string,
                                               wrapperClasses: string)

  function SkipAnimationClasses(size: int, index: nat): (a: AnimationClasses)
    ensures a.wrapperClasses == "skip-container-wrapper"
  {
    var tier := TierName(Tier(size));
    var styling := SkipStyling(size);
    AnimationClasses(
      "skip-container-item skip-fade-in skip-entrance-" + IntToString(EntranceNumber(index))
        + " skip-depth-" + tier,
      "skip-image skip-transform skip-size-" + tier + " " + ScaleClass(styling.scale)
        + " " + RotationClass(styling.rotation),
      "skip-container-wrapper")
  }

  lemma ScaleClassOfOne()
    ensures ScaleClass(1.0) == "scale-100"
  {
    assert Round(1.0 * 100.0) == 100;
    assert NatToString(1) == "1";
    assert NatToString(10) == "10";
    assert NatToString(100) == NatToString(10) + "0";
  }

  lemma EntranceDigit(index: nat)
    ensures IntToString(EntranceNumber(index)) == [DigitChar(EntranceNumber(index))]
  {
  }

  /** The scale class is always `scale-100`, the entrance class names one of
      three single digits, and the rotation class is the styling's rotation. */
  lemma AnimationClassesShape(size: int, index: nat)
    ensures var a := SkipAnimationClasses(size, index);
      var e := EntranceNumber(index);
      var tier := TierName(Tier(size));
      && a.containerClasses == "skip-container-item skip-fade-in skip-entrance-" + [DigitChar(e)]
           + " skip-depth-" + tier
      && a.imageClasses == "skip-image skip-transform skip-size-" + tier + " scale-100 "
           + RotationClass(SkipStyling(size).rotation)
      && ParseRotationClass(RotationClass(SkipStyling(size).rotation)) == Some(SkipStyling(size).rotation)
  {
    var st := SkipStyling(size);
    var rotation := RotationClass(st.rotation);
    var tier := TierName(Tier(size));
    var a := SkipAnimationClasses(size, index);
    ScaleClassOfOne();
    EntranceDigit(index);
    RotationClassParses(st.rotation);
    assert ScaleClass(st.scale) == "scale-100";
    var head := "skip-image skip-transform skip-size-" + tier;
    assert a.imageClasses == head + " " + "scale-100" + " " + rotation;
    SpacedScale(head, rotation);
  }

  lemma SpacedScale(head: string, rotation: string)
    ensures head + " " + "scale-100" + " " + rotation == head + " scale-100 " + rotation
  {
    assert head + " " + "scale-100" + " " == head + " scale-100 ";
  }

  // ---------------------------------------------------------------------------
  // getSkipImageBySize

  /** The six picture assets, by tag. */
  datatype SkipImage = Container1 | Container2 | Container3 | Container4 | Container5 | Container6

  const ImageMap: map<int, SkipImage> := map[
    4 := Container1, 6 := Container2, 8 := Container1, 10 := Container3, 12 := Container4,
    14 := Container2, 16 := Container5, 20 := Container6, 40 := Container6]

  /** `imageMap[size] || skipContainer3`. */
  function SkipImageBySize(size: int): (img: SkipImage)
    ensures size !in {4, 6, 8, 10, 12, 14, 16, 20, 40} ==> img == Container3
  {
    if size in ImageMap then ImageMap[size] else Container3
  }

  /** Which sizes show which picture, in both directions. */
  lemma ImagePreimages(size: int)
    ensures SkipImageBySize(size) == Container1 <==> size == 4 || size == 8
    ensures SkipImageBySize(size) == Container2 <==> size == 6 || size == 14
    ensures SkipImageBySize(size) == Container3 <==> size !in {4, 6, 8, 12, 14, 16, 20, 40}
    ensures SkipImageBySize(size) == Container4 <==> size == 12
    ensures SkipImageBySize(size) == Container5 <==> size == 16
    ensures SkipImageBySize(size) == Container6 <==> size == 20 || size == 40
  {
  }

  // ---------------------------------------------------------------------------
  // "Serves" and "Max Weight" captions

  const LabelThresholds: seq<int> := [6, 10, 14, 20]
  const ServesSteps: seq<string> := ["1-2 people", "2-4 people", "4-6 people", "6-8 people", "8+ people"]

  /** The Serves caption is the entry of the 6/10/14/20 bucket. */
  function ServesLabel(size: int): (r: string)
    ensures CountBelow(LabelThresholds, size) < |ServesSteps|
    ensures r == ServesSteps[CountBelow(LabelThresholds, size)]
  {
    LabelBucket(size);
    if size <= 6 then "1-2 people"
    else if size <= 10 then "2-4 people"
    else if size <= 14 then "4-6 people"
    else if size <= 20 then "6-8 people"
    else "8+ people"
  }

  /** `Approx {digit}0kg`, the digit chosen by size: it states `MaxWeightKg`,
      read off the same bucket as the Serves caption. */
  function MaxWeightLabel(size: int): (r: string)
    ensures r == "Approx " + NatToString(MaxWeightKg(size)) + "kg"
  {
    LabelBucket(size);
    assert NatToString(20) == "20";
    assert NatToString(40) == "40";
    assert NatToString(60) == "60";
    assert NatToString(80) == "80";
    assert NatToString(10) == "10";
    assert NatToString(100) == NatToString(10) + "0";
    "Approx "
      + (if size <= 6 then "2"
         else if size <= 10 then "4"
         else if size <= 14 then "6"
         else if size <= 20 then "8"
         else "10")
      + "0kg"
  }

  /** The approximate weight in kilograms: 20 per bucket step, from 20 to 100. */
  function MaxWeightKg(size: int): nat {
    20 * (CountBelow(LabelThresholds, size) + 1)
  }

  /** The bucket the caption chains select, in closed form. */
  lemma LabelBucket(size: int)
    ensures CountBelow(LabelThresholds, size)
         == if size <= 6 then 0 else if size <= 10 then 1 else if size <= 14 then 2
            else if size <= 20 then 3 else 4
  {
    var k := if size <= 6 then 0 else if size <= 10 then 1 else if size <= 14 then 2
      else if size <= 20 then 3 else 4;
    assert NonDecreasing(LabelThresholds);
    CountBelowSorted(LabelThresholds, size, k);
  }

  lemma CaptionsMonotone(a: int, b: int)
    requires a <= b
    ensures CountBelow(LabelThresholds, a) <= CountBelow(LabelThresholds, b)
    ensures MaxWeightKg(a) <= MaxWeightKg(b)
  {
    CountBelowMonotone(LabelThresholds, a, b);
  }
}
