/** The boundary with the `probe_rs` crate, whose code is not part of this model.
    Only the values the handlers build or read are modelled; every call into the
    crate is represented by an abstract outcome. */
module ProbeRs {
  import opened RustStd

  /** The outcome of a foreign call that returns `Result<_, E>`: on failure only
      the `Display` text of the error is visible to the handlers. */
  datatype Outcome = Pass | Fail(detail: string)

  /** `DebugProbeSelector`: identifies the probe to open. */
  datatype DebugProbeSelector = DebugProbeSelector(
    vendorId: uint16,
    productId: uint16,
    serialNumber: Option<string>)

  /** The selector for the probe with serial number `sn`, vendor id `vid` and
      product id `pid`, the three taken unchanged. */
  function ProbeSelector(sn: string, vid: uint16, pid: uint16): (s: DebugProbeSelector)
    ensures s.serialNumber == Some(sn) && s.vendorId == vid && s.productId == pid
  {
    DebugProbeSelector(vendorId := vid, productId := pid, serialNumber := Some(sn))
  }

  /** `DebugProbeType`: the kinds of probe `Probe::list_all` reports. */
  datatype DebugProbeType = CmsisDap | Ftdi | StLink | JLink

  /** `DebugProbeInfo`: one entry of `Probe::list_all`. */
  datatype DebugProbeInfo = DebugProbeInfo(
    identifier: string,
    vendorId: uint16,
    productId: uint16,
    serialNumber: Option<string>,
    probeType: DebugProbeType)

  /** `BinOptions`: where a raw binary image goes and how many leading bytes to skip. */
  datatype BinOptions = BinOptions(baseAddress: Option<nat>, skip: nat)

  /** `DownloadOptions`: the boolean switches of a flash commit. */
  datatype DownloadOptions = DownloadOptions(
    verify: bool,
    skipErase: bool,
    keepUnwrittenBytes: bool,
    doChipErase: bool,
    dryRun: bool)

  /** `DownloadOptions::new()`: the crate's `Default`, every switch off. */
  function NewDownloadOptions(): DownloadOptions {
    DownloadOptions(verify := false, skipErase := false, keepUnwrittenBytes := false,
                    doChipErase := false, dryRun := false)
  }
}
