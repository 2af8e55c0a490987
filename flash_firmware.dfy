/** The `POST /cm/flash` route (`cm_firmware_flash`): validate the form, open the
    probe, detach it, set its speed, attach to the target under reset, open the
    uploaded file, stage the image with the loader matching its format, and commit.

    Every foreign call is an abstract outcome taken from a `FlashEnv`; the handler
    is a function returning the reply together with the trace of the foreign steps
    it attempted, so that order and short-circuiting can be stated. */
module FlashFirmware {
  import opened RustStd
  import opened ProbeRs
  import opened Response

  /** `32.mebibytes()`: the exclusive upper bound on the uploaded blob. */
  const BLOB_LIMIT: nat := 32 * 1024 * 1024

  /** The format tags the form accepts. */
  const KNOWN_FORMATS: seq<string> := ["bin", "hex", "elf"]

  /** The smallest probe speed, in kHz, the form accepts. */
  const MIN_SPEED_KHZ: nat := 100

  /** `CmFirmwareForm`, with the uploaded blob reduced to its length. */
  datatype CmFirmwareForm = CmFirmwareForm(
    blobLen: nat,
    fwType: string,
    fwVer: uint32,
    probeSn: string,
    speedKhz: uint32,
    probeVid: uint16,
    probePid: uint16,
    targetName: string,
    skipErase: bool)

  /** The field validators of the form. */
  predicate FieldsValid(form: CmFirmwareForm) {
    && form.blobLen < BLOB_LIMIT
    && form.fwType in KNOWN_FORMATS
    && form.fwVer >= 1
    && form.speedKhz >= MIN_SPEED_KHZ
  }

  /** `Contextual::value`: `posted` is `None` when the body did not parse into the
      form's fields; a parsed form is kept only when every validator accepts it. */
  function ContextualValue(posted: Option<CmFirmwareForm>): (r: Option<CmFirmwareForm>)
    ensures r.Some? <==>
      && posted.Some?
      && posted.value.blobLen < 33554432
      && (posted.value.fwType == "bin" || posted.value.fwType == "hex" || posted.value.fwType == "elf")
      && posted.value.fwVer >= 1
      && posted.value.speedKhz >= 100
    ensures r.Some? ==> r == posted
  {
    if posted.Some? && FieldsValid(posted.value) then posted else None
  }

  /** The foreign steps of the handler, in the order they appear in the source. */
  datatype Step =
    | OpenProbe(selector: DebugProbeSelector)
    | Detach
    | SetSpeed(khz: uint32)
    | AttachUnderReset(target: string)
    | TempFilePath
    | OpenFile(path: string)
    | LoadBin(binOptions: BinOptions)
    | LoadHex
    | LoadElf
    | Commit(commitOptions: DownloadOptions)

  /** The position of each kind of step in the handler's fixed chain. */
  function Rank(step: Step): nat {
    match step
    case OpenProbe(_) => 0
    case Detach => 1
    case SetSpeed(_) => 2
    case AttachUnderReset(_) => 3
    case TempFilePath => 4
    case OpenFile(_) => 5
    case LoadBin(_) => 6
    case LoadHex => 6
    case LoadElf => 6
    case Commit(_) => 7
  }

  predicate IsProbeStep(step: Step) {
    step.OpenProbe? || step.Detach? || step.SetSpeed? || step.AttachUnderReset?
  }

  predicate IsLoaderStep(step: Step) {
    step.LoadBin? || step.LoadHex? || step.LoadElf?
  }

  /** What the foreign collaborators answer: probe calls, the temp file's path,
      `File::open`, the loader call and `commit`. */
  datatype FlashEnv = FlashEnv(
    open: Outcome,
    detach: Outcome,
    setSpeed: Outcome,
    attach: Outcome,
    blobPath: Option<string>,
    fileOpen: Outcome,
    load: Outcome,
    commit: Outcome)

  datatype FlashRun = FlashRun(reply: Reply<()>, trace: seq<Step>)

  /** `FileDownloadError`: the loader's own failures, or the handler's `Object` error. */
  datatype FileDownloadError = Object(what: string) | LoaderFailed(detail: string)

  datatype DownloadResult = Loaded | DownloadFailed(error: FileDownloadError)

  /** The loader call a format tag selects (none or one) and the result bound to
      `download_result`. */
  datatype Dispatch = Dispatch(calls: seq<Step>, result: DownloadResult)

  /** The four probe steps, in the order the handler runs them. */
  function ProbeSteps(form: CmFirmwareForm): seq<Step> {
    [OpenProbe(ProbeSelector(form.probeSn, form.probeVid, form.probePid)), Detach, SetSpeed(form.speedKhz), AttachUnderReset(form.targetName)]
  }

  /** The outcomes of the four probe steps, in the same order. */
  function ProbeOutcomes(env: FlashEnv): seq<Outcome> {
    [env.open, env.detach, env.setSpeed, env.attach]
  }

  /** The message prefix reported for a failure of each probe step. */
  const PROBE_FAILURE_PREFIXES: seq<string> :=
    ["Failed to open probe: ", "Failed to detach probe: ", "Failed to set speed: ", "Failed to open session: "]

  /** The `match form.fw_type`: exactly one loader call for a known tag, with the
      loader's outcome as the result; for any other tag, no call and an `Object` error. */
  function DispatchFormat(fwType: string, load: Outcome): (d: Dispatch)
    ensures fwType == "bin" <==> d.calls == [LoadBin(BinOptions(None, 0))]
    ensures fwType == "hex" <==> d.calls == [LoadHex]
    ensures fwType == "elf" <==> d.calls == [LoadElf]
    ensures fwType !in KNOWN_FORMATS <==> d.calls == []
    ensures fwType !in KNOWN_FORMATS ==>
      d.result == DownloadFailed(Object("Not a valid Bin/Hex/Elf file"))
    ensures fwType in KNOWN_FORMATS ==>
      (d.result == Loaded <==> load.Pass?) &&
      (load.Fail? ==> d.result == DownloadFailed(LoaderFailed(load.detail)))
  {
    var loaded := if load.Pass? then Loaded else DownloadFailed(LoaderFailed(load.detail));
    match fwType
    case "bin" => Dispatch([LoadBin(BinOptions(baseAddress := None, skip := 0))], loaded)
    case "hex" => Dispatch([LoadHex], loaded)
    case "elf" => Dispatch([LoadElf], loaded)
    case _ => Dispatch([], DownloadFailed(Object("Not a valid Bin/Hex/Elf file")))
  }

  /** The commit options: `DownloadOptions::new()` with `verify` switched on and,
      when the form asks to skip the erase, `keep_unwritten_bytes` and `skip_erase`
      switched on as well. */
  function CommitOptions(skipErase: bool): (o: DownloadOptions)
    ensures o.verify
    ensures o.skipErase == skipErase && o.keepUnwrittenBytes == skipErase
    ensures o.doChipErase == NewDownloadOptions().doChipErase
    ensures o.dryRun == NewDownloadOptions().dryRun
    ensures !skipErase ==> o == NewDownloadOptions().(verify := true)
  {
    var option := NewDownloadOptions().(verify := true);
    if skipErase then option.(keepUnwrittenBytes := true, skipErase := true) else option
  }

  /** `cm_firmware_flash`. The status tells which step ended the run: a missing
      form or a file step gives `BadRequest`, a probe step `InternalServerError`,
      and an attempted commit `Ok` whatever its outcome. No reply carries details. */
  function CmFirmwareFlash(posted: Option<CmFirmwareForm>, env: FlashEnv): (run: FlashRun)
    ensures run.reply.body.details == None
    ensures run.reply.status == BadRequest <==>
      run.trace == [] || run.trace[|run.trace| - 1].TempFilePath? || run.trace[|run.trace| - 1].OpenFile?
    ensures run.reply.status == InternalServerError <==>
      run.trace != [] && IsProbeStep(run.trace[|run.trace| - 1])
    ensures run.reply.status == Ok <==>
      run.trace != [] && run.trace[|run.trace| - 1].Commit?
  {
    match ContextualValue(posted)
    case None => FlashRun(MessageOnly(BadRequest, "No form posted"), [])
    case Some(form) =>
      var probeSteps := ProbeSteps(form);
      if env.open.Fail? then
        FlashRun(MessageOnly(InternalServerError, "Failed to open probe: " + env.open.detail), probeSteps[..1])
      else if env.detach.Fail? then
        FlashRun(MessageOnly(InternalServerError, "Failed to detach probe: " + env.detach.detail), probeSteps[..2])
      else if env.setSpeed.Fail? then
        FlashRun(MessageOnly(InternalServerError, "Failed to set speed: " + env.setSpeed.detail), probeSteps[..3])
      else if env.attach.Fail? then
        FlashRun(MessageOnly(InternalServerError, "Failed to open session: " + env.attach.detail), probeSteps)
      else
        var attached := probeSteps + [TempFilePath];
        match env.blobPath
        case None => FlashRun(MessageOnly(BadRequest, "Failed to open file: invalid path"), attached)
        case Some(path) =>
          var fileOpened := attached + [OpenFile(path)];
          if env.fileOpen.Fail? then
            FlashRun(MessageOnly(BadRequest, "Failed to open file: " + env.fileOpen.detail), fileOpened)
          else
            // `download_result` is bound and never read: commit follows whatever the loader did.
            var dispatch := DispatchFormat(form.fwType, env.load);
            var downloadResult := dispatch.result;
            var option := CommitOptions(form.skipErase);
            var committed := fileOpened + dispatch.calls + [Commit(option)];
            match env.commit
            case Pass => FlashRun(MessageOnly(Ok, "Firmware donwloaded"), committed)
            case Fail(cause) => FlashRun(MessageOnly(Ok, "Failed to download firmware: " + cause), committed)
  }

  /** Without a valid form the handler answers `BadRequest` "No form posted" and
      attempts no step at all. */
  lemma NoFormNoProbeStep(posted: Option<CmFirmwareForm>, env: FlashEnv)
    requires ContextualValue(posted).None?
    ensures CmFirmwareFlash(posted, env).reply == MessageOnly(BadRequest, "No form posted")
    ensures CmFirmwareFlash(posted, env).trace == []
  {
  }

  /** The steps attempted are a prefix of the fixed chain open, detach, set speed,
      attach, temp-file path, file open, load, commit: each step's position is its
      rank, so no step is skipped, repeated or reordered. */
  lemma StepsFollowFixedChain(posted: Option<CmFirmwareForm>, env: FlashEnv)
    ensures var trace := CmFirmwareFlash(posted, env).trace;
      forall i :: 0 <= i < |trace| ==> Rank(trace[i]) == i
  {
    if ContextualValue(posted).Some? {
      var form := posted.value;
      var chain := FullChain(form, env);
      TraceIsCutFullChain(posted, env);
      assert form.fwType in KNOWN_FORMATS;
      assert forall i | 0 <= i < |chain| :: Rank(chain[i]) == i;
    }
  }

  /** A step carries the arguments the form and the environment give: the
      selector from the form's vendor id, product id and serial number, the form's
      speed and target, the temp file's path, the loader of the form's format (a
      binary with no base address and no skip) and the commit options the form's
      skip-erase flag selects. */
  predicate ArgumentsFromForm(form: CmFirmwareForm, env: FlashEnv, step: Step) {
    && (step.OpenProbe? ==> step.selector == ProbeSelector(form.probeSn, form.probeVid, form.probePid))
    && (step.SetSpeed? ==> step.khz == form.speedKhz)
    && (step.AttachUnderReset? ==> step.target == form.targetName)
    && (step.OpenFile? ==> env.blobPath == Some(step.path))
    && (step.LoadBin? ==> form.fwType == "bin" && step.binOptions == BinOptions(None, 0))
    && (step.LoadHex? ==> form.fwType == "hex")
    && (step.LoadElf? ==> form.fwType == "elf")
    && (step.Commit? ==> step.commitOptions == CommitOptions(form.skipErase))
  }

  /** Every step the handler attempts is called with the arguments taken from the
      validated form and the environment. */
  lemma StepArguments(posted: Option<CmFirmwareForm>, env: FlashEnv)
    requires ContextualValue(posted).Some?
    ensures forall step | step in CmFirmwareFlash(posted, env).trace ::
      ArgumentsFromForm(posted.value, env, step)
  {
    var form := posted.value;
    var chain := FullChain(form, env);
    TraceIsCutFullChain(posted, env);
    assert forall step | step in ProbeSteps(form) :: ArgumentsFromForm(form, env, step);
    assert forall step | step in DispatchFormat(form.fwType, env.load).calls ::
      ArgumentsFromForm(form, env, step);
    assert forall i | 0 <= i < |chain| :: ArgumentsFromForm(form, env, chain[i]);
    assert forall step | step in CmFirmwareFlash(posted, env).trace :: step in chain;
  }

  /** Every step the handler can attempt for a form, in order, when nothing fails
      before the commit. */
  function FullChain(form: CmFirmwareForm, env: FlashEnv): seq<Step> {
    ProbeSteps(form) + [TempFilePath] +
    match env.blobPath
    case None => []
    case Some(path) =>
      [OpenFile(path)] + DispatchFormat(form.fwType, env.load).calls + [Commit(CommitOptions(form.skipErase))]
  }

  /** The outcome of each step of the full chain, as far as the handler looks at
      it: a missing temp-file path fails the path step, and the loader step always
      passes on, since its result is never inspected. */
  function ChainOutcomes(env: FlashEnv): seq<Outcome> {
    ProbeOutcomes(env) + [if env.blobPath.Some? then Pass else Fail("invalid path")] +
    match env.blobPath
    case None => []
    case Some(_) => [env.fileOpen, Pass, env.commit]
  }

  /** The steps attempted are the full chain cut just after its first failing
      step, or the whole chain when no step fails. */
  lemma TraceIsCutFullChain(posted: Option<CmFirmwareForm>, env: FlashEnv)
    requires ContextualValue(posted).Some?
    ensures var chain := FullChain(posted.value, env);
      var k := FirstFailure(ChainOutcomes(env));
      && |ChainOutcomes(env)| == |chain|
      && CmFirmwareFlash(posted, env).trace == if k.Some? then chain[..k.value + 1] else chain
  {
    var form := posted.value;
    var outcomes := ChainOutcomes(env);
    var k := FirstFailure(outcomes);
    assert form.fwType in KNOWN_FORMATS;
    if FirstFailure(ProbeOutcomes(env)).Some? {
      ProbeStepFailure(posted, env);
      var j := FirstFailure(ProbeOutcomes(env)).value;
      assert outcomes[..4] == ProbeOutcomes(env);
      assert k == Some(j) by { FirstFailureOfPrefix(outcomes, 4); }
    } else {
      ProbeStepsAllPass(posted, env);
      assert outcomes[..4] == ProbeOutcomes(env);
      FirstFailureOfPrefix(outcomes, 4);
      if env.blobPath.None? {
        assert outcomes[4].Fail?;
        assert k == Some(4);
      } else if env.fileOpen.Fail? {
        assert outcomes[4].Pass? && outcomes[5].Fail?;
        assert k == Some(5);
      } else if env.commit.Fail? {
        assert outcomes[4].Pass? && outcomes[5].Pass? && outcomes[6].Pass? && outcomes[7].Fail?;
        assert k == Some(7);
      } else {
        assert forall j :: 0 <= j < |outcomes| ==> outcomes[j].Pass?;
        assert k.None?;
      }
    }
  }

  /** When the first `n` outcomes all pass, the first failure of the whole
      sequence lies at or after `n`; when one of them fails, it is the first
      failure of the whole sequence. */
  lemma {:induction false} FirstFailureOfPrefix(outcomes: seq<Outcome>, n: nat)
    requires n <= |outcomes|
    ensures FirstFailure(outcomes[..n]).Some? ==> FirstFailure(outcomes) == FirstFailure(outcomes[..n])
    ensures FirstFailure(outcomes[..n]).None? && FirstFailure(outcomes).Some? ==>
      FirstFailure(outcomes).value >= n
  {
    if n > 0 && outcomes[0].Pass? {
      FirstFailureOfPrefix(outcomes[1..], n - 1);
      assert outcomes[1..][..n - 1] == outcomes[..n][1..];
    }
  }

  /** Index of the first failing probe step, if any. */
  function FirstFailure(outcomes: seq<Outcome>): (k: Option<nat>)
    ensures k.Some? ==> k.value < |outcomes| && outcomes[k.value].Fail? &&
                        forall j :: 0 <= j < k.value ==> outcomes[j].Pass?
    ensures k.None? ==> forall j :: 0 <= j < |outcomes| ==> outcomes[j].Pass?
  {
    if outcomes == [] then None
    else if outcomes[0].Fail? then Some(0)
    else match FirstFailure(outcomes[1..])
      case None => None
      case Some(k) => Some(k + 1)
  }

  /** When probe step `k` is the first to fail, the reply is `InternalServerError`
      with that step's message followed by the error's text, and the run stops
      right after step `k`. */
  lemma ProbeStepFailure(posted: Option<CmFirmwareForm>, env: FlashEnv)
    requires ContextualValue(posted).Some?
    requires FirstFailure(ProbeOutcomes(env)).Some?
    ensures var k := FirstFailure(ProbeOutcomes(env)).value;
      var run := CmFirmwareFlash(posted, env);
      && run.reply == MessageOnly(InternalServerError,
                                  PROBE_FAILURE_PREFIXES[k] + ProbeOutcomes(env)[k].detail)
      && run.trace == ProbeSteps(posted.value)[..k + 1]
  {
    var k := FirstFailure(ProbeOutcomes(env)).value;
    assert k == 0 || ProbeOutcomes(env)[0].Pass?;
    assert k <= 1 || ProbeOutcomes(env)[1].Pass?;
    assert k <= 2 || ProbeOutcomes(env)[2].Pass?;
  }

  /** When every probe step succeeds, the four of them have run, in order. */
  lemma ProbeStepsAllPass(posted: Option<CmFirmwareForm>, env: FlashEnv)
    requires ContextualValue(posted).Some?
    requires FirstFailure(ProbeOutcomes(env)).None?
    ensures var trace := CmFirmwareFlash(posted, env).trace;
      |trace| >= 5 && trace[..4] == ProbeSteps(posted.value)
  {
    assert ProbeOutcomes(env)[0].Pass? && ProbeOutcomes(env)[1].Pass?;
    assert ProbeOutcomes(env)[2].Pass? && ProbeOutcomes(env)[3].Pass?;
  }

  /** A missing temp-file path or a failed `File::open` answers `BadRequest`; it
      happens only once the session is attached, and before any loader call. */
  lemma FileFailureIsBadRequest(posted: Option<CmFirmwareForm>, env: FlashEnv)
    requires ContextualValue(posted).Some?
    requires FirstFailure(ProbeOutcomes(env)).None?
    requires env.blobPath.None? || env.fileOpen.Fail?
    ensures var run := CmFirmwareFlash(posted, env);
      && run.reply == MessageOnly(BadRequest,
           if env.blobPath.None? then "Failed to open file: invalid path"
           else "Failed to open file: " + env.fileOpen.detail)
      && run.trace == ProbeSteps(posted.value) + [TempFilePath] +
           (if env.blobPath.Some? then [OpenFile(env.blobPath.value)] else [])
      && AttachUnderReset(posted.value.targetName) in run.trace
      && forall step | step in run.trace :: !IsLoaderStep(step) && !step.Commit?
  {
    ProbeStepsAllPass(posted, env);
    assert CmFirmwareFlash(posted, env).trace[3] == AttachUnderReset(posted.value.targetName);
  }

  /** Once the file is open, exactly one loader runs, and commit is attempted
      whatever the loader answered: the load result is never inspected. */
  lemma CommitDespiteLoadOutcome(posted: Option<CmFirmwareForm>, env: FlashEnv)
    requires ContextualValue(posted).Some?
    requires FirstFailure(ProbeOutcomes(env)).None?
    requires env.blobPath.Some? && env.fileOpen.Pass?
    ensures var trace := CmFirmwareFlash(posted, env).trace;
      && |trace| == 8
      && IsLoaderStep(trace[6])
      && trace[7] == Commit(CommitOptions(posted.value.skipErase))
  {
    ProbeStepsAllPass(posted, env);
    assert posted.value.fwType in KNOWN_FORMATS;
  }

  /** The loader's outcome changes neither the reply nor the steps attempted. */
  lemma LoadResultIgnored(posted: Option<CmFirmwareForm>, env: FlashEnv, load: Outcome)
    ensures CmFirmwareFlash(posted, env.(load := load)) == CmFirmwareFlash(posted, env)
  {
  }

  /** A failed load followed by a successful commit is still reported as a
      successful download. */
  lemma FailedLoadReportedAsDownloaded(posted: Option<CmFirmwareForm>, env: FlashEnv)
    requires ContextualValue(posted).Some?
    requires FirstFailure(ProbeOutcomes(env)).None?
    requires env.blobPath.Some? && env.fileOpen.Pass?
    requires env.load.Fail? && env.commit.Pass?
    ensures CmFirmwareFlash(posted, env).reply == MessageOnly(Ok, "Firmware donwloaded")
  {
    ProbeStepsAllPass(posted, env);
  }

  /** Commit success and commit failure are both answered with `Ok`; only the
      message tells them apart. */
  lemma CommitReply(posted: Option<CmFirmwareForm>, env: FlashEnv)
    requires ContextualValue(posted).Some?
    requires FirstFailure(ProbeOutcomes(env)).None?
    requires env.blobPath.Some? && env.fileOpen.Pass?
    ensures CmFirmwareFlash(posted, env).reply ==
      if env.commit.Pass? then MessageOnly(Ok, "Firmware donwloaded")
      else MessageOnly(Ok, "Failed to download firmware: " + env.commit.detail)
  {
    ProbeStepsAllPass(posted, env);
  }
}
