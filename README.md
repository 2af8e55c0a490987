# plunger-api production routes in Dafny

plunger-api is a small HTTP service for a production line. It flashes firmware
into microcontrollers through hardware debug probes, erases protected flash, and
lists the probes attached to the host. Its routes do little themselves: they
validate a form, call the `probe_rs` crate step by step, and turn the first
failure into a `(Status, PlungerResponse)` reply. This project models what the
routes decide and proves properties of it. Every call into `probe_rs`, the file
system and the task runtime is an abstract outcome given as a parameter.

- `RustStd` (`rust_std.dfy`): `Option`, the `u16`/`u32` form fields as bounded
  subset types, and `str::starts_with` as a character-wise, case-sensitive
  prefix test.
- `ProbeRs` (`probe_rs.dfy`): the crate's values the routes build or read
  (`DebugProbeSelector`, `DebugProbeType`, `DebugProbeInfo`, `BinOptions`,
  `DownloadOptions`). `Outcome` (`Pass` or `Fail(detail)`) stands for a foreign
  `Result`, and `detail` is the `Display` text of the error. The routes
  append that text to their messages.
- `Response` (`response.dfy`): `Status` (`Ok`, `BadRequest`,
  `InternalServerError`), `PlungerResponse<T>` (a message and optional details),
  and `Reply<T>` for the pair a route returns.
- `FlashFirmware` (`flash_firmware.dfy`): `POST /cm/flash`. `ContextualValue`
  models Rocket's form validation. `CmFirmwareFlash` is the handler as a
  function. It takes the posted form and a `FlashEnv`, which holds the
  outcome of each foreign step. It returns the reply and the trace of steps
  it attempted, in order. The steps are open probe, detach, set speed, attach
  under reset, temp-file path, file open, one loader call, and commit.
  `download_result` is bound and never read, exactly as in the source. So commit
  is attempted whatever the loader answered (`LoadResultIgnored`,
  `FailedLoadReportedAsDownloaded`).
- `EraseFlash` (`erase_flash.dfy`): `DELETE /cm/flash`. The route tests the
  "STM32L0" prefix and builds the selector. `STM32L0Eraser::new` is an
  abstract `Construction`, and each `EraserError` has its message. After a
  successful construction, both arms of `mass_erase` are `todo!()`. The
  model ends that run as `Unimplemented`, with the `MassErase` call in its
  trace. It does not invent a reply for it.
- `ListProbes` (`list_probes.dfy`): `GET /probes`. `ConvertProbes` is the loop
  in the blocking task. It pushes one `ProbeInfo` per enumerated probe.
  `GetAllProbes` wraps the joined result in the envelope.

Behaviour of the code worth knowing, all of it modelled as written:

- An unsupported `fw_type` never reaches the handler's `Object` error arm: the
  form validator rejects it first, and the reply is `BadRequest` "No form
  posted". That arm would only come after the session is attached.
- A failed commit is answered `Status::Ok` with "Failed to download firmware: …".
- A target name without the "STM32L0" prefix is answered `Status::Ok` with
  "Something wrong with debug probe". This is the same reply as a
  `DebugProbeError` while the eraser is constructed.
- After a successful construction, both arms of the `mass_erase` match are
  `todo!()`, so the route produces no reply on that path.
- A successful probe listing carries the message "Failed to get probes".

## Model

| member | source | states |
|---|---|---|
| `FlashFirmware.ContextualValue` | src/routes/production/flash_firmware.rs:15-30 | a posted form is accepted iff blob length < 32 MiB, `fw_type` is "bin", "hex" or "elf", `fw_ver` ≥ 1 and `speed_khz` ≥ 100; an accepted form is passed on unchanged |
| `FlashFirmware.CmFirmwareFlash` | src/routes/production/flash_firmware.rs:33-104 | no reply has details; the status is `BadRequest` iff the run ended with no step or at a file step, `InternalServerError` iff it ended at a probe step, `Ok` iff it ended with a commit |
| `FlashFirmware.NoFormNoProbeStep` | src/routes/production/flash_firmware.rs:34-37 | without a valid form the reply is `BadRequest` "No form posted" and no step is attempted |
| `FlashFirmware.StepsFollowFixedChain` | src/routes/production/flash_firmware.rs:39-98 | the i-th attempted step has rank i in the chain open, detach, set speed, attach, path, file open, load, commit: none skipped, repeated or reordered |
| `FlashFirmware.TraceIsCutFullChain` | src/routes/production/flash_firmware.rs:39-98 | the attempted steps are the full chain (probe steps, path, and when a path exists file open, the format's loader and commit) cut just after its first failing step, the loader step never failing; the whole chain when nothing fails |
| `FlashFirmware.StepArguments` | src/routes/production/flash_firmware.rs:39-98 | each step gets its arguments from the form: selector (vid, pid, `Some(sn)`), speed, target, the temp file's path, the loader of `fw_type`, commit options from `skip_erase` |
| `FlashFirmware.ProbeStepFailure` | src/routes/production/flash_firmware.rs:39-57 | when probe step k fails first, the reply is `InternalServerError` with step k's message prefix plus the error text, and the trace is exactly probe steps 0..k |
| `FlashFirmware.ProbeStepsAllPass` | src/routes/production/flash_firmware.rs:39-57 | when no probe step fails, open, detach, set speed and attach all run, in that order, and the run continues |
| `FlashFirmware.FileFailureIsBadRequest` | src/routes/production/flash_firmware.rs:59-67 | a missing temp path or failed file open gives `BadRequest` with its message; the trace is exactly the four probe steps, the path step and, when a path exists, the failed file open, with no loader or commit step |
| `FlashFirmware.DispatchFormat` | src/routes/production/flash_firmware.rs:73-86 | "bin" calls the bin loader with no base address and skip 0, "hex" the hex loader, "elf" the elf loader; any other tag calls none and yields the `Object` error |
| `FlashFirmware.CommitOptions` | src/routes/production/flash_firmware.rs:90-96 | `verify` is always on; `skip_erase` and `keep_unwritten_bytes` are on iff the form's flag is; the rest are the `DownloadOptions::new()` values |
| `FlashFirmware.CommitDespiteLoadOutcome` | src/routes/production/flash_firmware.rs:73-98 | once the file is open, exactly one loader step and then the commit run, whatever the load outcome |
| `FlashFirmware.LoadResultIgnored` | src/routes/production/flash_firmware.rs:73-98 | the loader's outcome changes neither the reply nor the trace |
| `FlashFirmware.FailedLoadReportedAsDownloaded` | src/routes/production/flash_firmware.rs:73-103 | a failed load followed by a successful commit is answered `Ok` "Firmware donwloaded" |
| `FlashFirmware.CommitReply` | src/routes/production/flash_firmware.rs:98-103 | commit success gives `Ok` "Firmware donwloaded", commit failure gives `Ok` "Failed to download firmware: " plus the error text |
| `ProbeRs.ProbeSelector` | src/routes/production/flash_firmware.rs:39 | the selector's serial number is `Some(sn)`, its vendor and product ids are the given ones, unchanged; the flash handler opens the probe with it (`FlashFirmware.StepArguments`) |
| `EraseFlash.EraserSelectorFromForm` | src/routes/production/erase_flash.rs:19 | the eraser is constructed for the form's target name with the selector `Some(probe_sn)`, `probe_vid`, `probe_pid`, taken unchanged |
| `EraseFlash.ErrorMessage` | src/routes/production/erase_flash.rs:21-26 | each `EraserError` variant maps to its message, and each message comes from that variant only: "Invalid target", "Invalid RDP level", "Invalid session", "Something wrong with debug probe" (see `EraseFlash.ErrorMessagesDistinguishVariants`) |
| `EraseFlash.EraseFlash` | src/routes/production/erase_flash.rs:15-34 | an eraser is constructed iff the target starts with "STM32L0", from the target name and the selector; `mass_erase` is called iff construction succeeded, and the run then ends unimplemented; every reply is `Ok` without details |
| `EraseFlash.ConstructionFailureReply` | src/routes/production/erase_flash.rs:19-26 | the construction errors map to "Invalid target", "Invalid RDP level", "Invalid session" and "Something wrong with debug probe", with no `mass_erase` call |
| `EraseFlash.ErrorMessagesDistinguishVariants` | src/routes/production/erase_flash.rs:21-26 | two errors get the same message iff they are the same variant, so error payloads never reach the caller |
| `EraseFlash.UnknownTargetLooksLikeProbeFault` | src/routes/production/erase_flash.rs:21-34 | a target outside the family gets `Ok` "Something wrong with debug probe" with no foreign call, the same reply as a `DebugProbeError` at construction |
| `EraseFlash.FamilyByPrefix` | src/routes/production/erase_flash.rs:18 | an eraser is constructed iff the name is "STM32L0" followed by anything; a name starting "stm32l0" gets none |
| `RustStd.StartsWithIffConcat` | src/routes/production/erase_flash.rs:18 | the prefix test holds iff the string is the prefix followed by some rest |
| `ListProbes.TranslateProbeType` | src/routes/production/list_probes.rs:37-42 | the probe-type translation is undone by the reverse mapping, so it loses nothing |
| `ListProbes.TranslateProbeTypeBijective` | src/routes/production/list_probes.rs:37-42 | the translation over CmsisDap, Ftdi, StLink and JLink is one-to-one and onto |
| `ListProbes.ConvertProbe` | src/routes/production/list_probes.rs:37-44 | an entry copies `vendor_id`, `product_id` and `serial_number` unchanged, and its probe type maps back to the crate's (see `ListProbes.ConvertProbeForgetsOnlyIdentifier`) |
| `ListProbes.ConvertProbeForgetsOnlyIdentifier` | src/routes/production/list_probes.rs:44 | two probes get the same entry iff they agree on everything except the crate's identifier |
| `ListProbes.ConvertProbes` | src/routes/production/list_probes.rs:34-49 | one converted entry per enumerated probe, in the same order (so none for an empty enumeration) |
| `ListProbes.GetAllProbes` | src/routes/production/list_probes.rs:31-55 | a joined task gives `Ok` with `details = Some(list)`, one entry per probe copying vid, pid, serial and type; a `JoinError` gives `InternalServerError` without details; the message is "Failed to get probes" in both cases |

## Left out

- All of `probe_rs` is outside the model: `Probe::open`, `detach`, `set_speed`,
  `attach_under_reset`, the `FlashLoader` loads and `commit`, `Probe::list_all` and
  `STM32L0Eraser` (its source is not part of this model). Each call is an abstract
  outcome. Image parsing, memory maps, erase and verify semantics, and RDP
  unlocking are not modelled.
- The `FlashLoader` object's internal state (the staged image) belongs to the
  crate. The model records only which loader call was made and that the commit
  follows it.
- Each foreign step runs at most once per request, so `FlashEnv` holds one fixed
  outcome per step. The outcomes are not modelled as functions of the step's
  arguments.
- `DownloadOptions::new()` is modelled as the crate's `Default`, with every
  switch off. Its `progress` callback and any other crate-version fields are not
  modelled.
- Rocket's form parsing, `Contextual` error collection, `TempFile` storage and JSON
  marshalling are framework code. A form that does not parse into typed fields
  is the `None` input of `ContextualValue`, and the blob is reduced to its length.
- `File::open` and the temp-file path are I/O. Both are abstract outcomes.
- `spawn_blocking`, `async`/`await` and `JoinError` are concurrency. The join is
  the two-valued `Join` input.
- The `Display` text of foreign errors is an opaque string appended to the
  fixed message prefix.
- Releasing the session and the probe on every exit path, and probe exclusivity
  across requests, are not modelled. The code has no logic for either: it relies
  on Rust's drop and on the operating system's device claims.
- `mass_erase`'s two outcomes are `todo!()` in the source. A run that reaches
  them ends as `Unimplemented`, and no reply is invented for it.
- `src/main.rs` is process bootstrap, and it mounts only the hello-world index
  route. `src/model/response.rs` has no behaviour; its struct is the
  `PlungerResponse` datatype.
