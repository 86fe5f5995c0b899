/**
 * The data model: job status and failure-reason enums, the validated
 * creation request and its dictionary form, and the decoders that turn a
 * parsed API response into generations, jobs and job lists. A decoder fails
 * where the Python code raises (a missing key, a value used as a dict or a
 * list that is not one, an unknown status string), and with the first such
 * error in the order the Python expressions are evaluated.
 */
module Models {
  import opened Wrappers
  import opened Values
  import opened Validation

  // ----- JobStatus and FailureReason -----

  datatype JobStatus = Preprocessing | Queued | Processing | Running | Cancelled | Succeeded | Failed

  /** The string value of each JobStatus member. */
  function StatusValue(s: JobStatus): string
  {
    match s
    case Preprocessing => "preprocessing"
    case Queued => "queued"
    case Processing => "processing"
    case Running => "running"
    case Cancelled => "cancelled"
    case Succeeded => "succeeded"
    case Failed => "failed"
  }

  const StatusValues: set<string> :=
    {"preprocessing", "queued", "processing", "running", "cancelled", "succeeded", "failed"}

  /** JobStatus(t): the member whose value is t; None where Python raises ValueError. */
  function ParseStatus(t: string): (r: Option<JobStatus>)
    ensures r.Some? <==> t in StatusValues
    ensures r.Some? ==> StatusValue(r.value) == t
  {
    if t == "preprocessing" then Some(Preprocessing)
    else if t == "queued" then Some(Queued)
    else if t == "processing" then Some(Processing)
    else if t == "running" then Some(Running)
    else if t == "cancelled" then Some(Cancelled)
    else if t == "succeeded" then Some(Succeeded)
    else if t == "failed" then Some(Failed)
    else None
  }

  /** Every member's value parses back to that member: the seven values are distinct. */
  lemma StatusRoundTrip(s: JobStatus)
    ensures StatusValue(s) in StatusValues
    ensures ParseStatus(StatusValue(s)) == Some(s)
  {
  }

  datatype FailureReason = InputModeration | InternalError

  function ReasonValue(r: FailureReason): string
  {
    match r
    case InputModeration => "input_moderation"
    case InternalError => "internal_error"
  }

  /** The member name, which is what str() and an f-string show for a member (Python 3.11 and later). */
  function ReasonName(r: FailureReason): string
  {
    match r
    case InputModeration => "INPUT_MODERATION"
    case InternalError => "INTERNAL_ERROR"
  }

  /** FailureReason(t); None where Python raises ValueError. */
  function ParseReason(t: string): (r: Option<FailureReason>)
    ensures r.Some? <==> t == "input_moderation" || t == "internal_error"
    ensures r.Some? ==> ReasonValue(r.value) == t
  {
    if t == "input_moderation" then Some(InputModeration)
    else if t == "internal_error" then Some(InternalError)
    else None
  }

  // ----- CreateVideoGenerationRequest -----

  datatype CreateRequest = CreateRequest(prompt: string, height: int, width: int, nSeconds: int, nVariants: int)

  /**
   * CreateVideoGenerationRequest(...): __post_init__ checks resolution, then
   * duration, then variants, and raises ValueError on the first failure.
   */
  function NewRequest(prompt: string, height: int, width: int, nSeconds: int, nVariants: int)
    : (r: Result<CreateRequest, ValidationError>)
    ensures r.Success? <==>
      (width, height) in SupportedResolutions && MinDuration <= nSeconds <= MaxDuration &&
      1 <= nVariants <= MaxVariantsFor(width, height)
    ensures r.Success? ==> r.value == CreateRequest(prompt, height, width, nSeconds, nVariants)
    ensures (width, height) !in SupportedResolutions ==> r == Failure(UnsupportedResolution(VInt(width), VInt(height)))
    ensures (width, height) in SupportedResolutions && nSeconds < MinDuration ==>
      r == Failure(DurationBelowMinimum(VInt(nSeconds)))
    ensures (width, height) in SupportedResolutions && nSeconds > MaxDuration ==>
      r == Failure(DurationAboveMaximum(VInt(nSeconds)))
    ensures (width, height) in SupportedResolutions && MinDuration <= nSeconds <= MaxDuration && nVariants <= 0 ==>
      r == Failure(VariantsNotPositive)
    ensures (width, height) in SupportedResolutions && MinDuration <= nSeconds <= MaxDuration &&
            nVariants > MaxVariantsFor(width, height) ==>
      r == Failure(TooManyVariants(CategoryOf(width, height), MaxVariantsFor(width, height), VInt(nVariants)))
  {
    match CheckAll(VInt(width), VInt(height), VInt(nSeconds), VInt(nVariants))
    case Success(_) => Success(CreateRequest(prompt, height, width, nSeconds, nVariants))
    case Failure(Invalid(e)) => Failure(e)
    case Failure(TypeFault) => assert false; Failure(VariantsNotPositive)
  }

  /** The message of the ValueError that __post_init__ raises. */
  function ConstructionMessage(e: ValidationError): string
  {
    "Invalid request parameters: " + Message(e)
  }

  /** to_dict */
  function ToDict(r: CreateRequest): Entries
  {
    [("prompt", VStr(r.prompt)), ("height", VInt(r.height)), ("width", VInt(r.width)),
     ("n_seconds", VInt(r.nSeconds)), ("n_variants", VInt(r.nVariants))]
  }

  /** to_dict has exactly the five request keys, in field order, holding the field values unchanged. */
  lemma ToDictShape(r: CreateRequest)
    ensures Keys(ToDict(r)) == ["prompt", "height", "width", "n_seconds", "n_variants"]
    ensures UniqueKeys(ToDict(r))
    ensures Find(ToDict(r), "prompt") == Some(VStr(r.prompt))
    ensures Find(ToDict(r), "height") == Some(VInt(r.height))
    ensures Find(ToDict(r), "width") == Some(VInt(r.width))
    ensures Find(ToDict(r), "n_seconds") == Some(VInt(r.nSeconds))
    ensures Find(ToDict(r), "n_variants") == Some(VInt(r.nVariants))
  {
    var d := ToDict(r);
    assert Keys(d) == ["prompt", "height", "width", "n_seconds", "n_variants"];
    FindAt(d, 0);
    FindAt(d, 1);
    FindAt(d, 2);
    FindAt(d, 3);
    FindAt(d, 4);
  }

  /**
   * A request's dictionary passes validate_request exactly when the request
   * could be constructed: the two checks agree, so every constructed request
   * validates again when the client submits it.
   */
  lemma ToDictValidates(r: CreateRequest)
    ensures ValidateRequest(ToDict(r)).Success? <==>
      NewRequest(r.prompt, r.height, r.width, r.nSeconds, r.nVariants).Success?
    ensures ValidateRequest(ToDict(r)).Success? ==> ValidateRequest(ToDict(r)).value == ToDict(r)
  {
    ToDictShape(r);
  }

  // ----- Decoding responses -----

  /** How a value was used when it turned out to be the wrong kind. */
  datatype Access = ByGet | ByIndex | ByIteration

  /** The exceptions a from_dict can raise. */
  datatype DecodeError =
    | MissingKey(key: string)                      // KeyError
    | WrongType(typeName: string, access: Access)  // AttributeError or TypeError
    | UnknownStatus(value: string)                 // ValueError from JobStatus(value)

  /** str(e), as Python 3.11 words it. */
  function DecodeErrorText(e: DecodeError): string
  {
    match e
    case MissingKey(k) => "'" + k + "'"
    case UnknownStatus(v) => "'" + v + "' is not a valid JobStatus"
    case WrongType(t, ByGet) => "'" + t + "' object has no attribute 'get'"
    case WrongType(t, ByIteration) => "'" + t + "' object is not iterable"
    case WrongType(t, ByIndex) =>
      if t == "list" then "list indices must be integers or slices, not str"
      else if t == "str" then "string indices must be integers, not 'str'"
      else "'" + t + "' object is not subscriptable"
  }

  /** data[key] */
  function Field(data: Value, key: string): (r: Result<Value, DecodeError>)
    ensures r.Success? <==> data.VDict? && Find(data.entries, key).Some?
    ensures r.Success? ==> Find(data.entries, key) == Some(r.value)
  {
    match data
    case VDict(es) => if Find(es, key).Some? then Success(Find(es, key).value) else Failure(MissingKey(key))
    case _ => Failure(WrongType(TypeName(data), ByIndex))
  }

  /** data.get(key, default) */
  function FieldOr(data: Value, key: string, default: Value): (r: Result<Value, DecodeError>)
    ensures r.Success? <==> data.VDict?
    ensures r.Success? ==> r.value == GetOr(data.entries, key, default)
  {
    match data
    case VDict(es) => Success(GetOr(es, key, default))
    case _ => Failure(WrongType(TypeName(data), ByGet))
  }

  /** The elements `for x in v` visits: a dict yields its keys, a string its characters. */
  function Iterate(v: Value): (r: Result<seq<Value>, DecodeError>)
    ensures v.VList? ==> r == Success(v.items)
    ensures r.Failure? <==> !(v.VList? || v.VDict? || v.VStr?)
  {
    match v
    case VList(items) => Success(items)
    case VDict(es) => Success(seq(|es|, i requires 0 <= i < |es| => VStr(es[i].0)))
    case VStr(s) => Success(seq(|s|, i requires 0 <= i < |s| => VStr([s[i]])))
    case _ => Failure(WrongType(TypeName(v), ByIteration))
  }

  /** [decode(x) for x in items]: in order, raising the first element's error. */
  function DecodeEach<T>(items: seq<Value>, decode: Value -> Result<T, DecodeError>)
    : (r: Result<seq<T>, DecodeError>)
    ensures r.Success? <==> forall i :: 0 <= i < |items| ==> decode(items[i]).Success?
    ensures r.Success? ==>
      (|r.value| == |items| && forall i :: 0 <= i < |items| ==> decode(items[i]) == Success(r.value[i]))
    ensures r.Failure? ==>
      (exists i :: 0 <= i < |items| && decode(items[i]) == Failure(r.error) &&
         forall j :: 0 <= j < i ==> decode(items[j]).Success?)
  {
    if |items| == 0 then Success([])
    else
      match decode(items[0])
      case Failure(e) => Failure(e)
      case Success(x) =>
        match DecodeEach(items[1..], decode)
        case Failure(e) =>
          var k :| 0 <= k < |items[1..]| && decode(items[1..][k]) == Failure(e) &&
            forall j :: 0 <= j < k ==> decode(items[1..][j]).Success?;
          assert decode(items[k + 1]) == Failure(e);
          Failure(e)
        case Success(xs) => Success([x] + xs)
  }

  datatype Generation = Generation(
    id: Value, jobId: Value, createdAt: Value, width: Value, height: Value, nSeconds: Value, prompt: Value)

  /** VideoGeneration.from_dict */
  function DecodeGeneration(data: Value): (r: Result<Generation, DecodeError>)
    ensures r.Success? <==>
      (data.VDict? && Find(data.entries, "id").Some? && Find(data.entries, "job_id").Some? &&
       Find(data.entries, "created_at").Some? && Find(data.entries, "width").Some? &&
       Find(data.entries, "height").Some? && Find(data.entries, "n_seconds").Some? &&
       Find(data.entries, "prompt").Some?)
    ensures r.Success? ==>
      && Find(data.entries, "id") == Some(r.value.id) && Find(data.entries, "job_id") == Some(r.value.jobId)
      && Find(data.entries, "created_at") == Some(r.value.createdAt)
      && Find(data.entries, "width") == Some(r.value.width) && Find(data.entries, "height") == Some(r.value.height)
      && Find(data.entries, "n_seconds") == Some(r.value.nSeconds) && Find(data.entries, "prompt") == Some(r.value.prompt)
  {
    var id :- Field(data, "id");
    var jobId :- Field(data, "job_id");
    var createdAt :- Field(data, "created_at");
    var width :- Field(data, "width");
    var height :- Field(data, "height");
    var nSeconds :- Field(data, "n_seconds");
    var prompt :- Field(data, "prompt");
    Success(Generation(id, jobId, createdAt, width, height, nSeconds, prompt))
  }

  /** A job's status: a JobStatus, or the raw value when the response held a non-string. */
  datatype StatusField = Known(status: JobStatus) | Unconverted(raw: Value)

  /** A job's failure_reason: a FailureReason, or the raw value kept as it came. */
  datatype ReasonField = KnownReason(reason: FailureReason) | OtherReason(raw: Value)

  /** The status conversion: a string must name a JobStatus; any other value is kept. */
  function DecodeStatus(raw: Value): (r: Result<StatusField, DecodeError>)
    ensures r.Failure? <==> raw.VStr? && raw.s !in StatusValues
    ensures r.Failure? ==> r.error == UnknownStatus(raw.s)
    ensures r.Success? ==> StatusAsValue(r.value) == raw
    ensures r.Success? && r.value.Unconverted? ==> !raw.VStr?
  {
    match raw
    case VStr(s) =>
      (match ParseStatus(s)
       case Some(st) => Success(Known(st))
       case None => Failure(UnknownStatus(s)))
    case _ => Success(Unconverted(raw))
  }

  /** The value a status field stands for (a member is a str subclass equal to its value). */
  function StatusAsValue(f: StatusField): Value
  {
    match f
    case Known(s) => VStr(StatusValue(s))
    case Unconverted(v) => v
  }

  /** The failure_reason conversion: a non-empty string naming a FailureReason becomes that member. */
  function DecodeReason(raw: Value): (r: ReasonField)
    ensures r.KnownReason? <==> raw.VStr? && raw.s != "" && ParseReason(raw.s).Some?
  {
    if raw.VStr? && raw.s != "" then
      match ParseReason(raw.s)
      case Some(fr) => KnownReason(fr)
      case None => OtherReason(raw)
    else OtherReason(raw)
  }

  function ReasonAsValue(f: ReasonField): Value
  {
    match f
    case KnownReason(r) => VStr(ReasonValue(r))
    case OtherReason(v) => v
  }

  /** The failure-reason conversion loses nothing: absent, empty, non-string and unknown values pass through. */
  lemma ReasonRoundTrip(raw: Value)
    ensures ReasonAsValue(DecodeReason(raw)) == raw
    ensures !DecodeReason(raw).KnownReason? ==> DecodeReason(raw) == OtherReason(raw)
  {
  }

  datatype Job = Job(
    id: Value, status: StatusField, prompt: Value, nVariants: Value, nSeconds: Value,
    height: Value, width: Value, generations: seq<Generation>, finishedAt: Value,
    failureReason: ReasonField)

  /** The generations of a job's dict decode: data.get("generations", []) is iterable and each element decodes. */
  predicate GenerationsDecode(es: Entries)
  {
    var items := Iterate(GetOr(es, "generations", VList([])));
    items.Success? && DecodeEach(items.value, DecodeGeneration).Success?
  }

  /** VideoGenerationJob.from_dict */
  function DecodeJob(data: Value): (r: Result<Job, DecodeError>)
    ensures !data.VDict? ==> r == Failure(WrongType(TypeName(data), ByGet))
    ensures r.Success? <==>
      data.VDict? && GenerationsDecode(data.entries) &&
      Find(data.entries, "status").Some? && DecodeStatus(Find(data.entries, "status").value).Success? &&
      Find(data.entries, "id").Some? && Find(data.entries, "prompt").Some? &&
      Find(data.entries, "n_variants").Some? && Find(data.entries, "n_seconds").Some? &&
      Find(data.entries, "height").Some? && Find(data.entries, "width").Some?
    ensures data.VDict? && GenerationsDecode(data.entries) && Find(data.entries, "status").None? ==>
      r == Failure(MissingKey("status"))
    ensures data.VDict? && GenerationsDecode(data.entries) && Find(data.entries, "status").Some? &&
            DecodeStatus(Find(data.entries, "status").value).Failure? ==>
      r == Failure(DecodeStatus(Find(data.entries, "status").value).error)
    ensures r.Success? ==>
      var es := data.entries;
      && Find(es, "status").Some? && Success(r.value.status) == DecodeStatus(Find(es, "status").value)
      && Find(es, "prompt") == Some(r.value.prompt) && Find(es, "n_variants") == Some(r.value.nVariants)
      && Find(es, "n_seconds") == Some(r.value.nSeconds)
      && Find(es, "height") == Some(r.value.height) && Find(es, "width") == Some(r.value.width)
      && r.value.finishedAt == GetOr(es, "finished_at", VNone)
      && r.value.failureReason == DecodeReason(GetOr(es, "failure_reason", VNone))
      && Find(es, "id") == Some(r.value.id)
      && (Find(es, "generations").None? ==> r.value.generations == [])
      && (Find(es, "generations") == Some(VDict([])) || Find(es, "generations") == Some(VStr("")) ==>
            r.value.generations == [])
      && (Find(es, "generations").Some? && Find(es, "generations").value.VList? ==>
            var items := Find(es, "generations").value.items;
            |r.value.generations| == |items| &&
            forall i :: 0 <= i < |items| ==> DecodeGeneration(items[i]) == Success(r.value.generations[i]))
  {
    var rawGenerations :- FieldOr(data, "generations", VList([]));
    var items :- Iterate(rawGenerations);
    var generations :- DecodeEach(items, DecodeGeneration);
    var rawStatus :- Field(data, "status");
    var status :- DecodeStatus(rawStatus);
    var rawReason := GetOr(data.entries, "failure_reason", VNone);
    var id :- Field(data, "id");
    var prompt :- Field(data, "prompt");
    var nVariants :- Field(data, "n_variants");
    var nSeconds :- Field(data, "n_seconds");
    var height :- Field(data, "height");
    var width :- Field(data, "width");
    var finishedAt := GetOr(data.entries, "finished_at", VNone);
    Success(Job(id, status, prompt, nVariants, nSeconds, height, width, generations, finishedAt,
                DecodeReason(rawReason)))
  }

  datatype JobList = JobList(data: seq<Job>, hasMore: Value, firstId: Value, lastId: Value)

  /** The jobs of a page decode: data.get("data", []) is iterable and each element decodes as a job. */
  predicate JobsDecode(es: Entries)
  {
    var items := Iterate(GetOr(es, "data", VList([])));
    items.Success? && DecodeEach(items.value, DecodeJob).Success?
  }

  /** VideoGenerationJobList.from_dict */
  function DecodeJobList(data: Value): (r: Result<JobList, DecodeError>)
    ensures !data.VDict? ==> r == Failure(WrongType(TypeName(data), ByGet))
    ensures r.Success? <==>
      data.VDict? && JobsDecode(data.entries) && Find(data.entries, "has_more").Some? &&
      Find(data.entries, "first_id").Some? && Find(data.entries, "last_id").Some?
    ensures data.VDict? && JobsDecode(data.entries) && Find(data.entries, "has_more").None? ==>
      r == Failure(MissingKey("has_more"))
    ensures r.Success? ==>
      var es := data.entries;
      && Find(es, "has_more") == Some(r.value.hasMore)
      && Find(es, "first_id") == Some(r.value.firstId)
      && Find(es, "last_id") == Some(r.value.lastId)
      && (Find(es, "data").None? ==> r.value.data == [])
      && (Find(es, "data") == Some(VDict([])) || Find(es, "data") == Some(VStr("")) ==> r.value.data == [])
      && (Find(es, "data").Some? && Find(es, "data").value.VList? ==>
            var items := Find(es, "data").value.items;
            |r.value.data| == |items| &&
            forall i :: 0 <= i < |items| ==> DecodeJob(items[i]) == Success(r.value.data[i]))
  {
    var rawJobs :- FieldOr(data, "data", VList([]));
    var items :- Iterate(rawJobs);
    var jobs :- DecodeEach(items, DecodeJob);
    var hasMore :- Field(data, "has_more");
    var firstId :- Field(data, "first_id");
    var lastId :- Field(data, "last_id");
    Success(JobList(jobs, hasMore, firstId, lastId))
  }
}
