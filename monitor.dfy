/**
 * The backend monitor (api/localai/backend_monitor.go): resolving a model name
 * to its backend's key, and sampling that backend process's memory and CPU.
 *
 * The PID lookup and the operating-system probes are outside calls; only
 * their outcomes (a value or an error) are modelled.
 */
module BackendMonitoring {
  import opened Wrappers
  import opened Config
  import opened Strings

  newtype int32 = x: int | -0x8000_0000 <= x < 0x8000_0000

  /** Go's int32(x) on a Go int: keeps the low 32 bits, read as two's complement. */
  function ToInt32(x: int): (r: int32)
    ensures -0x8000_0000 <= x < 0x8000_0000 ==> r as int == x
    ensures (x - r as int) % 0x1_0000_0000 == 0
  {
    var low := (x + 0x8000_0000) % 0x1_0000_0000;
    assert x - (low - 0x8000_0000) == 0x1_0000_0000 * ((x + 0x8000_0000) / 0x1_0000_0000);
    (low - 0x8000_0000) as int32
  }

  /** gopsutil's MemoryInfoStat, reduced to its resident and virtual sizes. */
  datatype MemoryInfoStat = MemoryInfoStat(rss: nat, vms: nat)

  /** The sample returned to the client. The percentages are Go floats; here they are exact reals. */
  datatype BackendMonitorResponse = BackendMonitorResponse(memoryInfo: MemoryInfoStat, memoryPercent: real, cpuPercent: real)

  /** A handle on an existing process (gopsutil's NewProcess looks a PID up; it starts nothing). */
  datatype Process = Process(pid: int32)

  /** The operating-system probes, each of which may fail. */
  datatype ProcessProbes = ProcessProbes(
    newProcess: int32 -> Result<Process, string>,
    memoryInfo: Process -> Result<MemoryInfoStat, string>,
    memoryPercent: Process -> Result<real, string>,
    cpuPercent: Process -> Result<real, string>)

  /** The monitor's collaborators: the configuration lookup and the loader's PID table. */
  datatype BackendMonitor = BackendMonitor(
    getConfig: string -> Option<BackendConfig>,
    getGRPCPID: string -> Result<int, string>)

  const BinSuffix := ".bin"

  /** A backend key always ends in `.bin`; the suffix is added only when missing. */
  function NormalizeBackendName(name: string): (backend: string)
    ensures HasSuffix(backend, BinSuffix)
    ensures HasSuffix(name, BinSuffix) ==> backend == name
    ensures !HasSuffix(name, BinSuffix) ==> backend == name + BinSuffix
    ensures |name| <= |backend| <= |name| + |BinSuffix| && backend[..|name|] == name
  {
    if HasSuffix(name, BinSuffix) then name
    else
      var backend := name + BinSuffix;
      assert backend[|backend| - |BinSuffix|..] == BinSuffix;
      backend
  }

  /** Normalising twice is normalising once. */
  lemma NormalizeIdempotent(name: string)
    ensures NormalizeBackendName(NormalizeBackendName(name)) == NormalizeBackendName(name)
  {
  }

  /** The backend key for a model name: built from the configuration's model file when a
      configuration exists for the name, from the raw name otherwise. */
  function BackendName(bm: BackendMonitor, model: string): (backend: string)
    ensures HasSuffix(backend, BinSuffix)
    ensures bm.getConfig(model).Some? ==> backend == NormalizeBackendName(bm.getConfig(model).value.model)
    ensures bm.getConfig(model).None? ==> backend == NormalizeBackendName(model)
  {
    var backend := match bm.getConfig(model)
      case Some(config) => config.model
      case None => model;
    NormalizeBackendName(backend)
  }

  /** Samples the backend serving `model`; the first failing step's error ends the call. */
  function SampleBackend(bm: BackendMonitor, ps: ProcessProbes, model: string): (r: Result<BackendMonitorResponse, string>)
    ensures bm.getGRPCPID(BackendName(bm, model)).Failure? ==> r == Failure(bm.getGRPCPID(BackendName(bm, model)).error)
    ensures r.Success? ==>
      && bm.getGRPCPID(BackendName(bm, model)).Success?
      && ps.newProcess(ToInt32(bm.getGRPCPID(BackendName(bm, model)).value)).Success?
  {
    match bm.getGRPCPID(BackendName(bm, model))
    case Failure(e) => Failure(e)
    case Success(pid) =>
      match ps.newProcess(ToInt32(pid))
      case Failure(e) => Failure(e)
      case Success(backendProcess) =>
        match ps.memoryInfo(backendProcess)
        case Failure(e) => Failure(e)
        case Success(memInfo) =>
          match ps.memoryPercent(backendProcess)
          case Failure(e) => Failure(e)
          case Success(memPercent) =>
            match ps.cpuPercent(backendProcess)
            case Failure(e) => Failure(e)
            case Success(cpuPercent) => Success(BackendMonitorResponse(memInfo, memPercent, cpuPercent))
  }

  /** When the PID lookup fails its error is returned and no process is probed: the result
      is the same whatever the probes would have answered. */
  lemma PidFailureSkipsProbes(bm: BackendMonitor, ps: ProcessProbes, ps': ProcessProbes, model: string)
    requires bm.getGRPCPID(BackendName(bm, model)).Failure?
    ensures SampleBackend(bm, ps, model) == SampleBackend(bm, ps', model)
  {
  }

  /** Once the process is found, a sample comes back exactly when all three probes succeed,
      and it carries their values; otherwise the first failing probe's error comes back. */
  lemma SampleReportsFirstFailure(bm: BackendMonitor, ps: ProcessProbes, model: string, pid: int, p: Process)
    requires bm.getGRPCPID(BackendName(bm, model)) == Success(pid)
    ensures ps.newProcess(ToInt32(pid)).Failure? ==> SampleBackend(bm, ps, model) == Failure(ps.newProcess(ToInt32(pid)).error)
    ensures ps.newProcess(ToInt32(pid)) == Success(p) ==>
      && (SampleBackend(bm, ps, model).Success?
          <==> ps.memoryInfo(p).Success? && ps.memoryPercent(p).Success? && ps.cpuPercent(p).Success?)
      && (SampleBackend(bm, ps, model).Success? ==>
            SampleBackend(bm, ps, model).value
              == BackendMonitorResponse(ps.memoryInfo(p).value, ps.memoryPercent(p).value, ps.cpuPercent(p).value))
      && (ps.memoryInfo(p).Failure? ==> SampleBackend(bm, ps, model) == Failure(ps.memoryInfo(p).error))
      && (ps.memoryInfo(p).Success? && ps.memoryPercent(p).Failure? ==>
            SampleBackend(bm, ps, model) == Failure(ps.memoryPercent(p).error))
      && (ps.memoryInfo(p).Success? && ps.memoryPercent(p).Success? && ps.cpuPercent(p).Failure? ==>
            SampleBackend(bm, ps, model) == Failure(ps.cpuPercent(p).error))
  {
  }
}
