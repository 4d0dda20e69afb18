/**
 * `CUDADeviceContext` and the per-device property memo (src/common.h).
 *
 * The thread-local statics (`ctxs`, `currentDeviceCache`) live in one
 * `DeviceRuntime` object. The driver's own notion of the current device,
 * which `cudaGetDevice` reads and `cudaSetDevice` writes, is the field
 * `actualDevice`; `driverCalls` records every call made to the driver, so
 * that the contracts can say when the cache spares one.
 */
module DeviceContext {
  import opened CudaCommon

  datatype DriverCall = GetDeviceCall | SetDeviceCall(device: int) | GetPropertiesCall(device: int)

  class DeviceRuntime {
    var ctxs: seq<CudaDeviceContext>
    var currentDeviceCache: int
    var actualDevice: int
    var driverCalls: seq<DriverCall>

    /** A fresh thread: no context entered, nothing cached. */
    constructor (device: nat)
      ensures Valid()
      ensures ctxs == [] && currentDeviceCache == -1 && actualDevice == device && driverCalls == []
    {
      ctxs := [];
      currentDeviceCache := -1;
      actualDevice := device;
      driverCalls := [];
    }

    /** `cacheDisabled`: no context is active, or the innermost one turns caching off. */
    predicate CacheDisabled(): (disabled: bool)
      reads this
      ensures |ctxs| == 0 ==> disabled
      ensures |ctxs| > 0 ==> (disabled <==> ctxs[|ctxs| - 1].disableCache)
    {
      |ctxs| == 0 || ctxs[|ctxs| - 1].disableCache
    }

    /** The cache never disagrees with the driver. */
    ghost predicate Sound()
      reads this
    {
      actualDevice >= 0 && currentDeviceCache >= -1 &&
      (currentDeviceCache >= 0 ==> currentDeviceCache == actualDevice)
    }

    /** The invariant between calls: sound, and empty whenever caching is off. */
    ghost predicate Valid()
      reads this
    {
      Sound() && (CacheDisabled() ==> currentDeviceCache == -1)
    }

    /**
     * `getDevice`: answers from the cache when caching is on and the cache is
     * set, otherwise asks the driver; the cache is then refreshed, or cleared
     * when caching is off.
     */
    method GetDevice() returns (idx: int)
      requires Sound()
      modifies this`currentDeviceCache, this`driverCalls
      ensures Valid()
      ensures idx == actualDevice && idx >= 0
      ensures currentDeviceCache == (if CacheDisabled() then -1 else idx)
      ensures driverCalls == old(driverCalls) +
        (if !CacheDisabled() && old(currentDeviceCache) >= 0 then [] else [GetDeviceCall])
    {
      if CacheDisabled() || currentDeviceCache < 0 {
        idx := actualDevice;
        driverCalls := driverCalls + [GetDeviceCall];
      } else {
        idx := currentDeviceCache;
      }
      currentDeviceCache := if CacheDisabled() then -1 else idx;
    }

    /**
     * `setDevice`: skips the driver exactly when caching is on and the cache
     * already holds `idx`.
     */
    method SetDevice(idx: int)
      requires Sound() && idx >= 0
      modifies this`currentDeviceCache, this`actualDevice, this`driverCalls
      ensures Valid()
      ensures actualDevice == idx
      ensures !old(CacheDisabled() || currentDeviceCache != idx) ==>
        currentDeviceCache == old(currentDeviceCache) && driverCalls == old(driverCalls)
      ensures old(CacheDisabled() || currentDeviceCache != idx) ==>
        currentDeviceCache == (if CacheDisabled() then -1 else idx) &&
        driverCalls == old(driverCalls) + [SetDeviceCall(idx)]
    {
      if !CacheDisabled() && currentDeviceCache == idx {
        return;
      }
      actualDevice := idx;
      driverCalls := driverCalls + [SetDeviceCall(idx)];
      currentDeviceCache := if CacheDisabled() then -1 else idx;
    }

    /**
     * Code outside this library, which may switch the device behind the
     * cache's back. The third usage rule of `CUDADeviceContext` (hold a
     * context with `disableCache` around external code) only lets that
     * happen under a context that disables caching (or with no context at
     * all), and then the cache is empty, so soundness survives.
     */
    method RunExternalCode(newDevice: nat)
      requires Valid() && CacheDisabled()
      modifies this`actualDevice
      ensures Valid() && actualDevice == newDevice
    {
      actualDevice := newDevice;
    }
  }

  /** A scoped guard: entered by the constructor, left by `Exit` (the destructor). */
  class CudaDeviceContext {
    const disableCache: bool
    var lastDevice: int

    /**
     * Remembers the current device, pushes itself, switches to `device` when
     * it is not negative, and clears the cache when it disables caching.
     */
    constructor (rt: DeviceRuntime, device: int, disableCache: bool)
      requires rt.Valid()
      modifies rt
      ensures rt.Valid()
      ensures this.disableCache == disableCache
      ensures rt.ctxs == old(rt.ctxs) + [this] && rt.CacheDisabled() == disableCache
      ensures lastDevice == old(rt.actualDevice) && lastDevice >= 0
      ensures rt.actualDevice == (if device >= 0 then device else old(rt.actualDevice))
      ensures rt.currentDeviceCache == (if disableCache then -1 else rt.actualDevice)
      ensures rt.driverCalls == old(rt.driverCalls)
        + (if disableCache || old(rt.currentDeviceCache) < 0 then [GetDeviceCall] else [])
        + (if device >= 0 && (disableCache || device != old(rt.actualDevice)) then [SetDeviceCall(device)] else [])
    {
      this.disableCache := disableCache;
      new;
      if rt.CacheDisabled() {
        rt.currentDeviceCache := -1;
      }
      rt.ctxs := rt.ctxs + [this];
      lastDevice := rt.GetDevice();
      if device >= 0 {
        rt.SetDevice(device);
      }
      if disableCache {
        rt.currentDeviceCache := -1;
      }
    }

    /** The destructor: restores the remembered device and pops itself, which must be on top. */
    method Exit(rt: DeviceRuntime)
      requires rt.Valid() && lastDevice >= 0
      requires |rt.ctxs| > 0 && rt.ctxs[|rt.ctxs| - 1] == this
      modifies rt
      ensures rt.Valid()
      ensures rt.ctxs == old(rt.ctxs)[..|old(rt.ctxs)| - 1]
      ensures rt.actualDevice == lastDevice
      ensures rt.currentDeviceCache == (if disableCache || rt.CacheDisabled() then -1 else lastDevice)
      ensures rt.driverCalls == old(rt.driverCalls)
        + (if disableCache || old(rt.currentDeviceCache) != lastDevice then [SetDeviceCall(lastDevice)] else [])
    {
      if disableCache {
        rt.currentDeviceCache := -1;
      }
      rt.SetDevice(lastDevice);
      rt.ctxs := rt.ctxs[..|rt.ctxs| - 1];
      if rt.CacheDisabled() {
        rt.currentDeviceCache := -1;
      }
    }
  }

  /**
   * The intended use: a guard around a call into external code. Whatever
   * device the external code leaves behind, leaving the guard restores both
   * the context stack and the device that was current before it.
   */
  method CallExternal(rt: DeviceRuntime, device: int, externalDevice: nat)
    requires rt.Valid()
    modifies rt
    ensures rt.Valid()
    ensures rt.ctxs == old(rt.ctxs)
    ensures rt.actualDevice == old(rt.actualDevice)
  {
    var ctx := new CudaDeviceContext(rt, device, true);
    rt.RunExternalCode(externalDevice);
    ctx.Exit(rt);
  }

  /**
   * `getCurrentDeviceProperties`: a per-thread memo from device id to the
   * driver's property record. `query` stands for `cudaGetDeviceProperties`:
   * for a device id it gives the status code and the record.
   */
  class DevicePropertiesCache<P> {
    var props: map<int, P>

    constructor ()
      ensures props == map[]
    {
      props := map[];
    }

    method GetCurrentDeviceProperties(rt: DeviceRuntime, query: int -> (int, P)) returns (r: Result<P, CudaError>)
      requires rt.Sound()
      modifies this, rt`currentDeviceCache, rt`driverCalls
      ensures rt.Valid()
      ensures rt.currentDeviceCache == (if rt.CacheDisabled() then -1 else rt.actualDevice)
      ensures var dev := rt.actualDevice;
        if dev in old(props) then
          r == Success(old(props)[dev]) && props == old(props) &&
          rt.driverCalls == old(rt.driverCalls) + (if old(!rt.CacheDisabled() && rt.currentDeviceCache >= 0) then [] else [GetDeviceCall])
        else
          rt.driverCalls == old(rt.driverCalls) + (if old(!rt.CacheDisabled() && rt.currentDeviceCache >= 0) then [] else [GetDeviceCall]) + [GetPropertiesCall(dev)] &&
          (if query(dev).0 == CudaSuccess
           then r == Success(query(dev).1) && props == old(props)[dev := query(dev).1]
           else r == Failure(CudaError(query(dev).0)) && props == old(props))
    {
      var deviceId := rt.GetDevice();
      if deviceId !in props {
        var (status, prop) := query(deviceId);
        rt.driverCalls := rt.driverCalls + [GetPropertiesCall(deviceId)];
        var checked := CheckCuda(status);
        if checked.Failure? {
          return Failure(checked.error);
        }
        props := props[deviceId := prop];
      }
      r := Success(props[deviceId]);
    }
  }

  /** How many property queries a log of driver calls holds. */
  function PropertyQueries(calls: seq<DriverCall>): nat
  {
    if calls == [] then 0
    else PropertyQueries(calls[..|calls| - 1]) + (if calls[|calls| - 1].GetPropertiesCall? then 1 else 0)
  }

  lemma {:induction false} PropertyQueriesAppend(a: seq<DriverCall>, b: seq<DriverCall>)
    ensures PropertyQueries(a + b) == PropertyQueries(a) + PropertyQueries(b)
    decreases |b|
  {
    if b == [] {
      assert a + b == a;
    } else {
      assert (a + b)[..|a + b| - 1] == a + b[..|b| - 1];
      assert (a + b)[|a + b| - 1] == b[|b| - 1];
      PropertyQueriesAppend(a, b[..|b| - 1]);
    }
  }

  /**
   * Two look-ups of the same device: the second is answered from the memo,
   * returns the same record, and the pair makes at most one property query.
   */
  method LookUpTwice<P>(memo: DevicePropertiesCache<P>, rt: DeviceRuntime, query: int -> (int, P))
    returns (first: Result<P, CudaError>, second: Result<P, CudaError>)
    requires rt.Valid()
    modifies memo, rt`currentDeviceCache, rt`driverCalls
    ensures first.Success? ==> second == first
    ensures first.Success? ==> PropertyQueries(rt.driverCalls) <= PropertyQueries(old(rt.driverCalls)) + 1
  {
    first := memo.GetCurrentDeviceProperties(rt, query);
    ghost var mid := rt.driverCalls;
    second := memo.GetCurrentDeviceProperties(rt, query);
    if first.Success? {
      var d := rt.actualDevice;
      PropertyQueriesAppend(old(rt.driverCalls), mid[|old(rt.driverCalls)|..]);
      assert old(rt.driverCalls) + mid[|old(rt.driverCalls)|..] == mid;
      PropertyQueriesAppend(mid, rt.driverCalls[|mid|..]);
      assert mid + rt.driverCalls[|mid|..] == rt.driverCalls;
      assert PropertyQueries([GetDeviceCall]) == 0 by {
        assert [GetDeviceCall][..0] == [];
      }
      assert PropertyQueries([GetDeviceCall, GetPropertiesCall(d)]) == 1 by {
        assert [GetDeviceCall, GetPropertiesCall(d)][..1] == [GetDeviceCall];
        assert [GetDeviceCall][..0] == [];
      }
      assert PropertyQueries([GetPropertiesCall(d)]) == 1 by {
        assert [GetPropertiesCall(d)][..0] == [];
      }
    }
  }
}
