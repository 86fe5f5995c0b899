/**
 * The request-constraint layer: which resolutions, durations and variant
 * counts the video-generation service accepts, and the errors raised for the
 * rest. Arguments are Python values, because callers hand in dictionaries of
 * arbitrary values; an ordering comparison between an int and something that
 * is neither an int nor a bool raises TypeError, modelled as TypeFault.
 */
module Validation {
  import opened Wrappers
  import opened Values

  /** SUPPORTED_RESOLUTIONS as (width, height), in the library's order. */
  const SupportedResolutions: seq<(int, int)> := [
    (480, 480), (480, 854), (854, 480),
    (720, 720), (720, 1280), (1280, 720),
    (1080, 1080), (1080, 1920), (1920, 1080)
  ]

  const MinDuration: int := 1
  const MaxDuration: int := 20

  /** The resolution categories that set the variant ceiling. */
  datatype Category = P1080 | P720 | Other

  /** MAX_VARIANTS */
  function MaxVariants(c: Category): nat
  {
    match c
    case P1080 => 1
    case P720 => 2
    case Other => 4
  }

  /** _get_resolution_category on two ints. */
  function CategoryOf(width: int, height: int): (c: Category)
    ensures c == P1080 <==> width >= 1080 || height >= 1080
    ensures c == P720 <==> width < 1080 && height < 1080 && (width >= 720 || height >= 720)
    ensures c == Other <==> width < 720 && height < 720
  {
    if width >= 1080 || height >= 1080 then P1080
    else if width >= 720 || height >= 720 then P720
    else Other
  }

  /**
   * _get_resolution_category on arbitrary values, evaluated as Python does:
   * `or` stops at the first true operand, so the height is compared only when
   * the width fell short; None stands for the TypeError of a failed comparison.
   */
  function CategoryOfValues(width: Value, height: Value): (c: Option<Category>)
    ensures AsNumber(width).Some? && AsNumber(height).Some? ==>
      c == Some(CategoryOf(AsNumber(width).value, AsNumber(height).value))
    ensures AsNumber(width).None? ==> c.None?
  {
    match AsNumber(width)
    case None => None
    case Some(w) =>
      if w >= 1080 then Some(P1080)
      else match AsNumber(height)
        case None => None
        case Some(h) =>
          if h >= 1080 then Some(P1080)
          else if w >= 720 || h >= 720 then Some(P720)
          else Some(Other)
  }

  /** get_max_variants_for_resolution */
  function MaxVariantsFor(width: int, height: int): (m: nat)
    ensures m == 1 <==> width >= 1080 || height >= 1080
    ensures m == 4 <==> width < 720 && height < 720
    ensures m in {1, 2, 4}
  {
    MaxVariants(CategoryOf(width, height))
  }

  /** get_max_duration_for_resolution: the same ceiling for every resolution. */
  function MaxDurationFor(width: int, height: int): (m: int)
    ensures m == MaxDuration
  {
    MaxDuration
  }

  datatype ValidationError =
    | UnsupportedResolution(width: Value, height: Value)
    | DurationBelowMinimum(got: Value)
    | DurationAboveMaximum(got: Value)
    | VariantsNotPositive
    | TooManyVariants(category: Category, max: nat, got: Value)

  /** What a validator raises. */
  datatype Fault = Invalid(error: ValidationError) | TypeFault

  function ResolutionText(p: (int, int)): string
  {
    Decimal(p.0) + "x" + Decimal(p.1)
  }

  /** ", ".join(f"{w}x{h}" for w, h in ps) */
  function ResolutionList(ps: seq<(int, int)>): string
  {
    if |ps| == 0 then ""
    else if |ps| == 1 then ResolutionText(ps[0])
    else ResolutionText(ps[0]) + ", " + ResolutionList(ps[1..])
  }

  /** The supported resolutions as "WxH", comma-separated, in list order. */
  function SupportedListing(): string
  {
    ResolutionList(SupportedResolutions)
  }

  /** str(e) for each ValidationError the validators raise. */
  function Message(e: ValidationError): string
  {
    match e
    case UnsupportedResolution(w, h) =>
      "Resolution " + PyStr(w) + "x" + PyStr(h) + " is not supported. Supported resolutions: " + SupportedListing()
    case DurationBelowMinimum(d) =>
      "Duration must be at least " + Decimal(MinDuration) + " second. Got " + PyStr(d) + " seconds."
    case DurationAboveMaximum(d) =>
      "Duration must be at most " + Decimal(MaxDuration) + " seconds. Got " + PyStr(d) + " seconds."
    case VariantsNotPositive =>
      "Number of variants must be greater than 0."
    case TooManyVariants(c, m, v) =>
      match c
      case P1080 => "1080p resolutions only support 1 variant. Got " + PyStr(v) + " variants."
      case P720 => "720p resolutions support maximum " + Decimal(m) + " variants. Got " + PyStr(v) + " variants."
      case Other => "This resolution supports maximum " + Decimal(m) + " variants. Got " + PyStr(v) + " variants."
  }

  /** Python's `(width, height) in SUPPORTED_RESOLUTIONS`: tuple equality uses ==, under which True == 1. */
  predicate InSupported(width: Value, height: Value)
  {
    AsNumber(width).Some? && AsNumber(height).Some? &&
    (AsNumber(width).value, AsNumber(height).value) in SupportedResolutions
  }

  /** validate_resolution */
  function ValidateResolution(width: Value, height: Value): (r: Result<(Value, Value), ValidationError>)
    ensures r.Success? <==> width.VInt? && height.VInt? && (width.i, height.i) in SupportedResolutions
    ensures r.Success? ==> r.value == (width, height)
    ensures r.Failure? ==> r.error == UnsupportedResolution(width, height)
  {
    if !InSupported(width, height) then Failure(UnsupportedResolution(width, height))
    else Success((width, height))
  }

  /** validate_duration: the width and height are accepted and ignored. */
  function ValidateDuration(width: Value, height: Value, duration: Value): (r: Result<Value, Fault>)
    ensures AsNumber(duration).None? ==> r == Failure(TypeFault)
    ensures r.Success? <==> AsNumber(duration).Some? && MinDuration <= AsNumber(duration).value <= MaxDuration
    ensures r.Success? ==> r.value == duration
    ensures AsNumber(duration).Some? && AsNumber(duration).value < MinDuration ==>
      r == Failure(Invalid(DurationBelowMinimum(duration)))
    ensures AsNumber(duration).Some? && AsNumber(duration).value > MaxDuration ==>
      r == Failure(Invalid(DurationAboveMaximum(duration)))
  {
    match AsNumber(duration)
    case None => Failure(TypeFault)
    case Some(d) =>
      if d < MinDuration then Failure(Invalid(DurationBelowMinimum(duration)))
      else if d > MaxDuration then Failure(Invalid(DurationAboveMaximum(duration)))
      else Success(duration)
  }

  /** validate_variants: the count is checked for positivity before the resolution is looked at. */
  function ValidateVariants(width: Value, height: Value, variants: Value): (r: Result<Value, Fault>)
    ensures AsNumber(variants).None? ==> r == Failure(TypeFault)
    ensures AsNumber(variants).Some? && AsNumber(variants).value <= 0 ==>
      r == Failure(Invalid(VariantsNotPositive))
    ensures AsNumber(width).Some? && AsNumber(height).Some? && AsNumber(variants).Some? ==>
      var w, h, v := AsNumber(width).value, AsNumber(height).value, AsNumber(variants).value;
      && (r.Success? <==> 1 <= v <= MaxVariantsFor(w, h))
      && (v > MaxVariantsFor(w, h) ==>
            r == Failure(Invalid(TooManyVariants(CategoryOf(w, h), MaxVariantsFor(w, h), variants))))
    ensures r.Success? ==> r.value == variants
  {
    match AsNumber(variants)
    case None => Failure(TypeFault)
    case Some(v) =>
      if v <= 0 then Failure(Invalid(VariantsNotPositive))
      else match CategoryOfValues(width, height)
        case None => Failure(TypeFault)
        case Some(c) =>
          if v > MaxVariants(c) then Failure(Invalid(TooManyVariants(c, MaxVariants(c), variants)))
          else Success(variants)
  }

  /** The constraint the three validators enforce together, stated on numbers. */
  predicate Acceptable(width: Value, height: Value, duration: Value, variants: Value)
  {
    && width.VInt? && height.VInt? && (width.i, height.i) in SupportedResolutions
    && AsNumber(duration).Some? && MinDuration <= AsNumber(duration).value <= MaxDuration
    && AsNumber(variants).Some? && 1 <= AsNumber(variants).value <= MaxVariantsFor(width.i, height.i)
  }

  /** The three checks in order, stopping at the first that raises. */
  function CheckAll(width: Value, height: Value, duration: Value, variants: Value): (r: Result<(), Fault>)
    ensures r.Success? <==> Acceptable(width, height, duration, variants)
    ensures ValidateResolution(width, height).Failure? ==>
      r == Failure(Invalid(UnsupportedResolution(width, height)))
    ensures ValidateResolution(width, height).Success? && ValidateDuration(width, height, duration).Failure? ==>
      r == Failure(ValidateDuration(width, height, duration).error)
    ensures ValidateResolution(width, height).Success? && ValidateDuration(width, height, duration).Success? ==>
      r == if ValidateVariants(width, height, variants).Success? then Success(())
           else Failure(ValidateVariants(width, height, variants).error)
  {
    match ValidateResolution(width, height)
    case Failure(e) => Failure(Invalid(e))
    case Success(_) =>
      match ValidateDuration(width, height, duration)
      case Failure(f) => Failure(f)
      case Success(_) =>
        match ValidateVariants(width, height, variants)
        case Failure(f) => Failure(f)
        case Success(_) => Success(())
  }

  /**
   * validate_request: reads width, height and n_seconds (None when absent)
   * and n_variants (1 when absent), and returns its argument unchanged.
   */
  function ValidateRequest(data: Entries): (r: Result<Entries, Fault>)
    ensures r.Success? <==>
      Acceptable(GetOr(data, "width", VNone), GetOr(data, "height", VNone),
                 GetOr(data, "n_seconds", VNone), GetOr(data, "n_variants", VInt(1)))
    ensures r.Success? ==> r.value == data
    ensures r.Success? ==> Find(data, "width").Some? && Find(data, "height").Some? && Find(data, "n_seconds").Some?
    ensures r.Failure? ==>
      r == Failure(CheckAll(GetOr(data, "width", VNone), GetOr(data, "height", VNone),
                            GetOr(data, "n_seconds", VNone), GetOr(data, "n_variants", VInt(1))).error)
  {
    match CheckAll(GetOr(data, "width", VNone), GetOr(data, "height", VNone),
                   GetOr(data, "n_seconds", VNone), GetOr(data, "n_variants", VInt(1)))
    case Failure(f) => Failure(f)
    case Success(_) => Success(data)
  }

  /** Of the nine supported resolutions only 480x480 is in the four-variant category. */
  lemma OnlySquare480IsOther(width: int, height: int)
    requires (width, height) in SupportedResolutions
    ensures CategoryOf(width, height) == Other <==> (width, height) == (480, 480)
    ensures MaxVariantsFor(width, height) == 4 <==> (width, height) == (480, 480)
    ensures CategoryOf(width, height) == P720 <==> (width, height) in [(480, 854), (854, 480), (720, 720)]
    ensures CategoryOf(width, height) == P1080 <==> width >= 1080 || height >= 1080
  {
  }

  /** Each supported pair renders as its WxH text. */
  lemma ResolutionTexts()
    ensures ResolutionText((480, 480)) == "480x480"
    ensures ResolutionText((480, 854)) == "480x854"
    ensures ResolutionText((854, 480)) == "854x480"
    ensures ResolutionText((720, 720)) == "720x720"
    ensures ResolutionText((720, 1280)) == "720x1280"
    ensures ResolutionText((1280, 720)) == "1280x720"
    ensures ResolutionText((1080, 1080)) == "1080x1080"
    ensures ResolutionText((1080, 1920)) == "1080x1920"
    ensures ResolutionText((1920, 1080)) == "1920x1080"
  {
    NumeralTexts();
    SmallResolutionTexts();
    MixedResolutionTexts();
    LargeResolutionTexts();
  }

  lemma SmallResolutionTexts()
    requires Decimal(480) == "480" && Decimal(854) == "854" && Decimal(720) == "720"
    ensures ResolutionText((480, 480)) == "480x480"
    ensures ResolutionText((480, 854)) == "480x854"
    ensures ResolutionText((854, 480)) == "854x480"
    ensures ResolutionText((720, 720)) == "720x720"
  {
  }

  lemma MixedResolutionTexts()
    requires Decimal(720) == "720" && Decimal(1280) == "1280"
    ensures ResolutionText((720, 1280)) == "720x1280"
    ensures ResolutionText((1280, 720)) == "1280x720"
  {
  }

  lemma LargeResolutionTexts()
    requires Decimal(1080) == "1080" && Decimal(1920) == "1920"
    ensures ResolutionText((1080, 1080)) == "1080x1080"
    ensures ResolutionText((1080, 1920)) == "1080x1920"
    ensures ResolutionText((1920, 1080)) == "1920x1080"
  {
  }

  /** The decimal renderings of the six numbers that occur in the supported resolutions. */
  lemma NumeralTexts()
    ensures Decimal(480) == "480" && Decimal(854) == "854" && Decimal(720) == "720"
    ensures Decimal(1280) == "1280" && Decimal(1080) == "1080" && Decimal(1920) == "1920"
  {
    ThreeDigitNumerals();
    FourDigitNumerals();
  }

  lemma ThreeDigitNumerals()
    ensures Decimal(480) == "480" && Decimal(854) == "854" && Decimal(720) == "720"
  {
    assert Digits(48) == "48";
    assert Digits(85) == "85";
    assert Digits(72) == "72";
  }

  lemma FourDigitNumerals()
    ensures Decimal(1280) == "1280" && Decimal(1080) == "1080" && Decimal(1920) == "1920"
  {
    assert Digits(128) == "128";
    assert Digits(108) == "108";
    assert Digits(192) == "192";
  }

  /** The rejection message lists the nine supported resolutions in list order. */
  lemma SupportedListingText()
    ensures SupportedListing() ==
      "480x480" + ", " + ("480x854" + ", " + ("854x480" + ", " + ("720x720" + ", " + ("720x1280" + ", " +
      ("1280x720" + ", " + ("1080x1080" + ", " + ("1080x1920" + ", " + "1920x1080")))))))
  {
    ListingOfNine(SupportedResolutions);
    ResolutionTexts();
  }

  /** The join of nine pairs, written out. */
  lemma ListingOfNine(ps: seq<(int, int)>)
    requires |ps| == 9
    ensures ResolutionList(ps) ==
      ResolutionText(ps[0]) + ", " + (ResolutionText(ps[1]) + ", " + (ResolutionText(ps[2]) + ", " +
      (ResolutionText(ps[3]) + ", " + (ResolutionText(ps[4]) + ", " + (ResolutionText(ps[5]) + ", " +
      (ResolutionText(ps[6]) + ", " + (ResolutionText(ps[7]) + ", " + ResolutionText(ps[8]))))))))
  {
    assert ResolutionList(ps[8..]) == ResolutionText(ps[8]);
    JoinStep(ps, 7);
    JoinStep(ps, 6);
    JoinStep(ps, 5);
    JoinStep(ps, 4);
    JoinStep(ps, 3);
    JoinStep(ps, 2);
    JoinStep(ps, 1);
    JoinStep(ps, 0);
    assert ps[0..] == ps;
  }

  /** One step of the join: the i-th text, a separator, then the join of the rest. */
  lemma JoinStep(ps: seq<(int, int)>, i: nat)
    requires i + 1 < |ps|
    ensures ResolutionList(ps[i..]) == ResolutionText(ps[i]) + ", " + ResolutionList(ps[i + 1..])
  {
    assert ps[i..][1..] == ps[i + 1..];
  }
}
