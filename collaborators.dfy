/** The boundary of the registry: the DXGI factory and its adapter enumeration,
    the Vulkan and NVML probes, and the NvapiAdapter and NvapiOutput objects.
    Their internals are not part of this model; each DXGI adapter carries, as
    oracle data, what NvapiAdapter::Initialize reports and appends for it. */
module Collaborators {
  import opened Sequences

  datatype Option<T> = None | Some(value: T)

  newtype uint16 = x: int | 0 <= x < 0x1_0000
  newtype int16 = x: int | -0x8000 <= x < 0x8000
  newtype uint32 = x: int | 0 <= x < 0x1_0000_0000
  newtype int32 = x: int | -0x8000_0000 <= x < 0x8000_0000

  /** A Windows LUID: an unsigned 32-bit low part and a signed 32-bit high part. */
  datatype Luid = Luid(lowPart: uint32, highPart: int32)

  /** What one NvapiOutput reports: its device name and whether it is the primary display. */
  datatype OutputDesc = OutputDesc(deviceName: string, primary: bool)

  /** One entry of the DXGI adapter enumeration, together with the outcome of
      NvapiAdapter::Initialize on it: the LUID the adapter then reports, the
      outputs it appends to the registry's output list (whether or not it
      succeeds) and whether it succeeds. */
  datatype DxgiAdapter = DxgiAdapter(luid: Option<Luid>, outputs: seq<OutputDesc>, initSucceeds: bool)

  /** The DXGI factory: a finite enumeration of adapters. */
  datatype DxgiFactory = DxgiFactory(adapters: seq<DxgiAdapter>) {
    /** IDXGIFactory1::EnumAdapters1: the adapter at `index`, or None for
        DXGI_ERROR_NOT_FOUND once the index runs past the last adapter. */
    function EnumAdapters1(index: nat): (r: Option<DxgiAdapter>)
      ensures r.None? <==> |adapters| <= index
      ensures r.Some? ==> index < |adapters| && r.value == adapters[index]
    {
      if index < |adapters| then Some(adapters[index]) else None
    }
  }

  /** A Vulkan or NVML client wrapper; only its availability matters here. */
  datatype Probe = Probe(available: bool)

  /** The ResourceFactory the registry is constructed with: what CreateDXGIFactory1
      (None for a null factory), CreateVulkan and CreateNvml produce. */
  datatype ResourceFactory = ResourceFactory(dxgiFactory: Option<DxgiFactory>, vulkan: Probe, nvml: Probe)

  /** One display output; the handle is the object's identity. */
  class NvapiOutput {
    const deviceName: string
    const primary: bool

    constructor (desc: OutputDesc)
      ensures Desc() == desc
    {
      deviceName := desc.deviceName;
      primary := desc.primary;
    }

    function Desc(): OutputDesc {
      OutputDesc(deviceName, primary)
    }
  }

  /** One GPU adapter; the handle is the object's identity. */
  class NvapiAdapter {
    const luid: Option<Luid>

    constructor (luid: Option<Luid>)
      ensures this.luid == luid
    {
      this.luid := luid;
    }
  }

  /** `outputs` extended by |descs| freshly created outputs, one per description, in order. */
  ghost predicate AppendsFresh(outputs: seq<NvapiOutput>, descs: seq<OutputDesc>, outputs': seq<NvapiOutput>)
  {
    |outputs'| == |outputs| + |descs| &&
    outputs'[..|outputs|] == outputs &&
    forall k :: 0 <= k < |descs| ==> outputs'[|outputs| + k].Desc() == descs[k]
  }

  /** `new NvapiAdapter(vulkan, nvml)` followed by its Initialize(dxgiAdapter, outputs):
      the candidate is a fresh adapter, its outcome and LUID are those recorded for
      the DXGI adapter, and it appends one fresh output per recorded description.
      The probes are passed as in the source, but what the adapter does with them
      is part of the recorded outcome, so the model does not consult them. */
  method NewInitializedAdapter(vulkan: Probe, nvml: Probe, dxgiAdapter: DxgiAdapter, outputs: seq<NvapiOutput>)
    returns (adapter: NvapiAdapter, ok: bool, outputs': seq<NvapiOutput>)
    requires Distinct(outputs)
    ensures fresh(adapter) && adapter.luid == dxgiAdapter.luid
    ensures ok == dxgiAdapter.initSucceeds
    ensures AppendsFresh(outputs, dxgiAdapter.outputs, outputs') && Distinct(outputs')
    ensures forall k :: |outputs| <= k < |outputs'| ==> fresh(outputs'[k])
  {
    adapter := new NvapiAdapter(dxgiAdapter.luid);
    outputs' := outputs;
    var descs := dxgiAdapter.outputs;
    for k := 0 to |descs|
      invariant AppendsFresh(outputs, descs[..k], outputs') && Distinct(outputs')
      invariant forall m :: |outputs| <= m < |outputs'| ==> fresh(outputs'[m])
    {
      var output := new NvapiOutput(descs[k]);
      outputs' := outputs' + [output];
    }
    assert descs[..|descs|] == descs;
    ok := dxgiAdapter.initSucceeds;
  }
}
