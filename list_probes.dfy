/** The `GET /probes` route (`get_all_probes`): every probe `Probe::list_all`
    reports is converted, in a loop on a worker thread, into the route's own
    `ProbeInfo`, and the joined result is wrapped in the response envelope. */
module ListProbes {
  import opened RustStd
  import ProbeRs
  import opened Response

  /** The route's own `ProbeType`. */
  datatype ProbeType = CmsisDap | StLink | Ftdi | JLink

  /** `ProbeInfo`: what the route reports of one probe. */
  datatype ProbeInfo = ProbeInfo(
    vid: uint16,
    pid: uint16,
    serialNum: Option<string>,
    probeType: ProbeType)

  /** `ProbeInfoObject`: the reply's details. */
  datatype ProbeInfoObject = ProbeInfoObject(probes: seq<ProbeInfo>)

  /** How the awaited `spawn_blocking` task ends: joined, or with a `JoinError`. */
  datatype Join = Joined | JoinFailed

  /** The inverse translation, from the route's probe kinds back to the crate's. */
  function ToDebugProbeType(t: ProbeType): ProbeRs.DebugProbeType {
    match t
    case CmsisDap => ProbeRs.CmsisDap
    case StLink => ProbeRs.StLink
    case Ftdi => ProbeRs.Ftdi
    case JLink => ProbeRs.JLink
  }

  /** The `match probe.probe_type`: each of the crate's four probe kinds becomes the
      route's kind of the same name, so the translation loses nothing. */
  function TranslateProbeType(t: ProbeRs.DebugProbeType): (r: ProbeType)
    ensures ToDebugProbeType(r) == t
  {
    match t
    case CmsisDap => CmsisDap
    case Ftdi => Ftdi
    case StLink => StLink
    case JLink => JLink
  }

  /** Every kind the route reports is the translation of exactly one crate kind:
      the translation is one-to-one and onto. */
  lemma TranslateProbeTypeBijective(t: ProbeType, u: ProbeRs.DebugProbeType, v: ProbeRs.DebugProbeType)
    ensures TranslateProbeType(ToDebugProbeType(t)) == t
    ensures TranslateProbeType(u) == TranslateProbeType(v) <==> u == v
  {
  }

  /** The entry for one enumerated probe: ids and serial number copied unchanged,
      and a probe type that maps back to the crate's. */
  function ConvertProbe(probe: ProbeRs.DebugProbeInfo): (r: ProbeInfo)
    ensures r.vid == probe.vendorId && r.pid == probe.productId
    ensures r.serialNum == probe.serialNumber
    ensures ToDebugProbeType(r.probeType) == probe.probeType
  {
    ProbeInfo(vid := probe.vendorId, pid := probe.productId, serialNum := probe.serialNumber,
              probeType := TranslateProbeType(probe.probeType))
  }

  /** Two probes get the same entry exactly when they agree on everything but the
      crate's identifier string, which the conversion drops. */
  lemma ConvertProbeForgetsOnlyIdentifier(p: ProbeRs.DebugProbeInfo, q: ProbeRs.DebugProbeInfo)
    ensures ConvertProbe(p) == ConvertProbe(q) <==> p.(identifier := q.identifier) == q
  {
  }

  /** The body of the blocking task: one converted entry per enumerated probe, in
      the order `Probe::list_all` gave them. */
  method ConvertProbes(probes: seq<ProbeRs.DebugProbeInfo>) returns (newProbes: seq<ProbeInfo>)
    ensures |newProbes| == |probes|
    ensures forall i :: 0 <= i < |probes| ==> newProbes[i] == ConvertProbe(probes[i])
  {
    newProbes := [];
    for n := 0 to |probes|
      invariant |newProbes| == n
      invariant forall i :: 0 <= i < n ==> newProbes[i] == ConvertProbe(probes[i])
    {
      var probe := probes[n];
      var probeType := TranslateProbeType(probe.probeType);
      var convertedProbe := ProbeInfo(vid := probe.vendorId, pid := probe.productId,
                                      serialNum := probe.serialNumber, probeType := probeType);
      newProbes := newProbes + [convertedProbe];
    }
  }

  /** `get_all_probes`. A joined task is answered `Ok` with the converted list as
      details, and a `JoinError` `InternalServerError` without details; the message
      is "Failed to get probes" either way. */
  method GetAllProbes(listed: seq<ProbeRs.DebugProbeInfo>, join: Join)
    returns (reply: Reply<ProbeInfoObject>)
    ensures reply.body.message == "Failed to get probes"
    ensures join.Joined? ==>
      && reply.status == Ok
      && reply.body.details.Some?
      && |reply.body.details.value.probes| == |listed|
      && forall i :: 0 <= i < |listed| ==>
           var entry := reply.body.details.value.probes[i];
           && entry.vid == listed[i].vendorId
           && entry.pid == listed[i].productId
           && entry.serialNum == listed[i].serialNumber
           && ToDebugProbeType(entry.probeType) == listed[i].probeType
    ensures join.JoinFailed? ==> reply.status == InternalServerError && reply.body.details == None
  {
    var ret := ConvertProbes(listed);
    match join
    case Joined =>
      reply := Reply(Ok, PlungerResponse("Failed to get probes", Some(ProbeInfoObject(ret))));
    case JoinFailed =>
      reply := Reply(InternalServerError, PlungerResponse("Failed to get probes", None));
  }
}
