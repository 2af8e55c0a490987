/** The `DELETE /cm/flash` route (`erase_flash`): a target whose name starts with
    "STM32L0" gets an `STM32L0Eraser`, built from the target name and a probe
    selector; any other target is turned away. The eraser's constructor is foreign
    and enters as an abstract outcome. Both outcomes of `mass_erase` are `todo!()`,
    so a run that reaches it ends without a reply. */
module EraseFlash {
  import opened RustStd
  import opened ProbeRs
  import opened Response

  /** The target family the route knows how to erase. */
  const STM32L0_PREFIX: string := "STM32L0"

  /** `CmFirmwareEraseForm`. */
  datatype CmFirmwareEraseForm = CmFirmwareEraseForm(
    probeSn: string,
    probeVid: uint16,
    probePid: uint16,
    targetName: string)

  /** `EraserError`; the payloads of the last two are foreign errors, kept as text. */
  datatype EraserError =
    | InvalidTarget
    | InvalidProtectionLevel
    | SessionError(cause: string)
    | DebugProbeError(cause: string)

  /** The outcome of `STM32L0Eraser::new`. */
  datatype Construction = Constructed | Rejected(error: EraserError)

  /** The foreign calls the route makes. */
  datatype EraseCall = NewEraser(target: string, selector: DebugProbeSelector) | MassErase

  /** How a run ends: with a reply, or in one of the `todo!()` arms after `mass_erase`. */
  datatype EraseEnd = Replied(reply: Reply<()>) | Unimplemented

  datatype EraseRun = EraseRun(end: EraseEnd, calls: seq<EraseCall>)

  /** The message reported for each way the eraser's construction can fail: each
      variant has its own message, whatever its payload. */
  function ErrorMessage(error: EraserError): (m: string)
    ensures error.InvalidTarget? <==> m == "Invalid target"
    ensures error.InvalidProtectionLevel? <==> m == "Invalid RDP level"
    ensures error.SessionError? <==> m == "Invalid session"
    ensures error.DebugProbeError? <==> m == "Something wrong with debug probe"
  {
    match error
    case InvalidTarget => "Invalid target"
    case InvalidProtectionLevel => "Invalid RDP level"
    case SessionError(_) => "Invalid session"
    case DebugProbeError(_) => "Something wrong with debug probe"
  }

  /** Two errors are of the same variant (payloads aside). */
  predicate SameVariant(a: EraserError, b: EraserError) {
    && (a.InvalidTarget? <==> b.InvalidTarget?)
    && (a.InvalidProtectionLevel? <==> b.InvalidProtectionLevel?)
    && (a.SessionError? <==> b.SessionError?)
    && (a.DebugProbeError? <==> b.DebugProbeError?)
  }

  /** The message depends on the variant only, and distinct variants give distinct
      messages: the foreign payload of an error never reaches the caller. */
  lemma ErrorMessagesDistinguishVariants(a: EraserError, b: EraserError)
    ensures ErrorMessage(a) == ErrorMessage(b) <==> SameVariant(a, b)
  {
  }

  /** `erase_flash`. An eraser is built exactly when the target name starts with
      "STM32L0", from that name and the form's selector; `mass_erase` follows only a
      successful construction. Every reply is `Ok` without details. */
  function EraseFlash(form: CmFirmwareEraseForm, construction: Construction): (run: EraseRun)
    ensures run.calls != [] <==> StartsWith(form.targetName, STM32L0_PREFIX)
    ensures run.calls != [] ==>
      run.calls[0] == NewEraser(form.targetName, ProbeSelector(form.probeSn, form.probeVid, form.probePid))
    ensures MassErase in run.calls <==>
      StartsWith(form.targetName, STM32L0_PREFIX) && construction.Constructed?
    ensures run.end.Unimplemented? <==> MassErase in run.calls
    ensures run.end.Replied? ==>
      run.end.reply.status == Ok && run.end.reply.body.details == None
  {
    if StartsWith(form.targetName, STM32L0_PREFIX) then
      var selector := ProbeSelector(form.probeSn, form.probeVid, form.probePid);
      var newEraser := NewEraser(form.targetName, selector);
      match construction
      case Rejected(error) => EraseRun(Replied(MessageOnly(Ok, ErrorMessage(error))), [newEraser])
      case Constructed => EraseRun(Unimplemented, [newEraser, MassErase])
    else
      EraseRun(Replied(MessageOnly(Ok, "Something wrong with debug probe")), [])
  }

  /** A failed construction is answered, variant by variant, with its message,
      status `Ok` and no details, and `mass_erase` is not called. */
  lemma ConstructionFailureReply(form: CmFirmwareEraseForm, error: EraserError)
    requires StartsWith(form.targetName, STM32L0_PREFIX)
    ensures var run := EraseFlash(form, Rejected(error));
      && run.end == Replied(MessageOnly(Ok,
           match error
           case InvalidTarget => "Invalid target"
           case InvalidProtectionLevel => "Invalid RDP level"
           case SessionError(_) => "Invalid session"
           case DebugProbeError(_) => "Something wrong with debug probe"))
      && run.calls ==
           [NewEraser(form.targetName, ProbeSelector(form.probeSn, form.probeVid, form.probePid))]
  {
  }

  /** A target outside the family is answered `Ok` "Something wrong with debug
      probe" with no call at all, and this reply cannot be told apart from that of
      an eraser whose construction failed with a probe error. */
  lemma UnknownTargetLooksLikeProbeFault(
    form: CmFirmwareEraseForm, construction: Construction, other: CmFirmwareEraseForm, cause: string)
    requires !StartsWith(form.targetName, STM32L0_PREFIX)
    requires StartsWith(other.targetName, STM32L0_PREFIX)
    ensures EraseFlash(form, construction) ==
      EraseRun(Replied(MessageOnly(Ok, "Something wrong with debug probe")), [])
    ensures EraseFlash(form, construction).end ==
      EraseFlash(other, Rejected(DebugProbeError(cause))).end
  {
  }

  /** The eraser is asked for the probe whose serial number, vendor id and product
      id are the form's, taken unchanged. */
  lemma EraserSelectorFromForm(form: CmFirmwareEraseForm, construction: Construction)
    requires StartsWith(form.targetName, STM32L0_PREFIX)
    ensures var call := EraseFlash(form, construction).calls[0];
      && call.NewEraser?
      && call.target == form.targetName
      && call.selector.serialNumber == Some(form.probeSn)
      && call.selector.vendorId == form.probeVid
      && call.selector.productId == form.probePid
  {
  }

  /** A name in the family is `"STM32L0"` followed by anything; the test compares
      characters, so a name spelled with a lower-case `"stm32l0"` is not in it. */
  lemma FamilyByPrefix(form: CmFirmwareEraseForm, construction: Construction)
    ensures EraseFlash(form, construction).calls != [] <==>
      exists rest :: form.targetName == "STM32L0" + rest
    ensures StartsWith(form.targetName, "stm32l0") ==> EraseFlash(form, construction).calls == []
  {
    StartsWithIffConcat(form.targetName, STM32L0_PREFIX);
    if StartsWith(form.targetName, "stm32l0") {
      assert form.targetName[0] == 's' != STM32L0_PREFIX[0];
    }
  }
}
