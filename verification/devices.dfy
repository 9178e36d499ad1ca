/**
 * The device-allocation arithmetic of `setup`: the driver reserves one unit
 * of one resource kind, and the spare units of the kind the workers use are
 * split evenly among `int(spare * num_workers_per_device)` workers.
 */
module Devices {
  import opened Outcomes

  /** Python's `int()` on a float: truncation toward zero. */
  function Trunc(x: real): (r: int)
    ensures 0.0 <= x ==> 0 <= r && r as real <= x < r as real + 1.0
    ensures x < 0.0 ==> r <= 0 && r as real - 1.0 < x <= r as real
  {
    if x >= 0.0 then x.Floor else -((-x).Floor)
  }

  /** Truncation gives zero exactly on the open interval (-1, 1). */
  lemma TruncZero(x: real)
    ensures Trunc(x) == 0 <==> -1.0 < x < 1.0
  {
  }

  /** The driver's reservation: `num_gpus` and `num_cpus_for_driver` of the config. */
  datatype Driver = Driver(gpus: int, cpus: int)

  /** The full plan handed to the scheduler. */
  datatype Allocation = Allocation(
    driver: Driver,
    workersOnGpu: bool,      // which resource kind the workers share
    numWorkers: int,
    gpusPerWorker: real,
    cpusPerWorker: real)

  /** `gpus_for_driver = int(use_gpu_for_driver)`, `cpus_for_driver = 1 - gpus_for_driver`. */
  function DriverFor(useGpuForDriver: bool): (d: Driver)
    ensures d.gpus + d.cpus == 1
    ensures 0 <= d.gpus <= 1 && 0 <= d.cpus <= 1
    ensures d.gpus == 1 <==> useGpuForDriver
  {
    var gpus := if useGpuForDriver then 1 else 0;
    Driver(gpus, 1 - gpus)
  }

  /** Units of the workers' resource kind left after the driver's reservation. */
  function Spare(numCpus: int, numGpus: int, useGpusForWorkers: bool, d: Driver): int {
    if useGpusForWorkers then numGpus - d.gpus else numCpus - d.cpus
  }

  /**
   * Driver plus workers use exactly the declared budget of the kind the
   * workers share, and nothing of the other kind is handed to workers.
   */
  predicate Conserves(a: Allocation, numCpus: int, numGpus: int) {
    && a.driver.gpus + a.driver.cpus == 1 && 0 <= a.driver.gpus <= 1
    && if a.workersOnGpu then
         && a.cpusPerWorker == 0.0
         && a.driver.gpus as real + a.numWorkers as real * a.gpusPerWorker == numGpus as real
       else
         && a.gpusPerWorker == 0.0
         && a.driver.cpus as real + a.numWorkers as real * a.cpusPerWorker == numCpus as real
  }

  /** `spare / num_workers`: the share of each worker, exact. */
  function EvenShare(spare: int, n: int): (s: real)
    requires n != 0
    ensures n as real * s == spare as real
  {
    spare as real / n as real
  }

  /** `int(spare * num_workers_per_device)`. */
  function WorkerCount(spare: int, density: real): (n: int)
    ensures n == 0 <==> -1.0 < spare as real * density < 1.0
    ensures 0.0 <= spare as real * density ==> 0 <= n && n as real <= spare as real * density < n as real + 1.0
    ensures spare as real * density < 0.0 ==> n <= 0 && n as real - 1.0 < spare as real * density <= n as real
  {
    TruncZero(spare as real * density);
    Trunc(spare as real * density)
  }

  /**
   * The allocation of lines 93-105. Python raises ZeroDivisionError when the
   * truncated worker count is zero; no other input is rejected, so a
   * negative spare (driver on a GPU that does not exist) passes through.
   */
  function Allocate(numCpus: int, numGpus: int, useGpusForWorkers: bool,
                    useGpuForDriver: bool, density: real): (r: Result<Allocation>)
    ensures r.Err? <==> WorkerCount(Spare(numCpus, numGpus, useGpusForWorkers, DriverFor(useGpuForDriver)), density) == 0
    ensures r.Err? ==> r.error == ZeroDivisionError
    ensures r.Ok? ==> Conserves(r.value, numCpus, numGpus)
    ensures r.Ok? ==> r.value.driver == DriverFor(useGpuForDriver) && r.value.workersOnGpu == useGpusForWorkers
    ensures r.Ok? ==> r.value.numWorkers == WorkerCount(Spare(numCpus, numGpus, useGpusForWorkers, DriverFor(useGpuForDriver)), density)
  {
    var d := DriverFor(useGpuForDriver);
    var spare := Spare(numCpus, numGpus, useGpusForWorkers, d);
    var n := WorkerCount(spare, density);
    if n == 0 then
      Err(ZeroDivisionError)
    else if useGpusForWorkers then
      Ok(Allocation(d, true, n, EvenShare(spare, n), 0.0))
    else
      Ok(Allocation(d, false, n, 0.0, EvenShare(spare, n)))
  }

  /** `setup` fails exactly when the spare units times the density lie strictly between -1 and 1. */
  lemma NoWorkersIff(numCpus: int, numGpus: int, useGpusForWorkers: bool,
                     useGpuForDriver: bool, density: real)
    ensures var x := Spare(numCpus, numGpus, useGpusForWorkers, DriverFor(useGpuForDriver)) as real * density;
            Allocate(numCpus, numGpus, useGpusForWorkers, useGpuForDriver, density).Err? <==> -1.0 < x < 1.0
  {
  }

  /**
   * With a non-negative spare and density, the worker count is the largest
   * whole number not above `spare * density`.
   */
  lemma WorkerCountBounds(numCpus: int, numGpus: int, useGpusForWorkers: bool,
                          useGpuForDriver: bool, density: real)
    requires Spare(numCpus, numGpus, useGpusForWorkers, DriverFor(useGpuForDriver)) >= 0
    requires density >= 0.0
    requires Allocate(numCpus, numGpus, useGpusForWorkers, useGpuForDriver, density).Ok?
    ensures var a := Allocate(numCpus, numGpus, useGpusForWorkers, useGpuForDriver, density).value;
            var x := Spare(numCpus, numGpus, useGpusForWorkers, DriverFor(useGpuForDriver)) as real * density;
            1 <= a.numWorkers && a.numWorkers as real <= x < a.numWorkers as real + 1.0
  {
  }

  /** The flag defaults (2 CPUs, 1 GPU, both placements on CPU, density 1) give one worker holding one CPU. */
  lemma DefaultFlagsAllocation()
    ensures Allocate(2, 1, false, false, 1.0) == Ok(Allocation(Driver(0, 1), false, 1, 0.0, 1.0))
  {
  }

  /** Two GPUs, driver and workers on GPU, two workers per device: two workers of half a GPU each. */
  lemma HalfGpuWorkers()
    ensures Allocate(4, 2, true, true, 2.0) == Ok(Allocation(Driver(1, 0), true, 2, 0.5, 0.0))
  {
  }

  /** One CPU taken by the driver leaves nothing to share, and `setup` divides by zero. */
  lemma SingleCpuHasNoWorkers()
    ensures Allocate(1, 0, false, false, 1.0) == Err(ZeroDivisionError)
  {
  }

  /**
   * Driver and workers on GPU with no GPU present: nothing stops the
   * allocation, which reports a negative worker count.
   */
  lemma MissingGpuGivesNegativeWorkers(numCpus: int, density: real)
    requires density >= 1.0
    ensures var r := Allocate(numCpus, 0, true, true, density);
            r.Ok? && r.value.numWorkers <= -1 && r.value.numWorkers as real * r.value.gpusPerWorker == -1.0
  {
  }
}
