/** NvapiAdapterRegistry: one enumeration pass over the DXGI adapters that keeps
    the adapters whose initialization succeeds, owns them together with a flat
    list of all their outputs, and answers read-only lookups over both lists. */
module AdapterRegistry {
  import opened Sequences
  import opened Collaborators

  // ---------------------------------------------------------------------------
  // What one enumeration pass produces

  /** The enumerated DXGI adapters whose NvapiAdapter initialization succeeds,
      in enumeration order. */
  function Survivors(es: seq<DxgiAdapter>): seq<DxgiAdapter> {
    if es == [] then []
    else (if es[0].initSucceeds then [es[0]] else []) + Survivors(es[1..])
  }

  /** The outputs the candidates append during the pass, candidate by
      candidate, whether or not the candidate itself survives. */
  function AppendedOutputs(es: seq<DxgiAdapter>): seq<OutputDesc> {
    if es == [] then [] else es[0].outputs + AppendedOutputs(es[1..])
  }

  /** A candidate survives exactly when its own initialization succeeds:
      a failed candidate never appears and no successful one is lost. */
  lemma {:induction false} SurvivorsMembership(es: seq<DxgiAdapter>, e: DxgiAdapter)
    ensures e in Survivors(es) <==> e in es && e.initSucceeds
  {
    if es != [] {
      SurvivorsMembership(es[1..], e);
      assert es == [es[0]] + es[1..];
    }
  }

  /** Filtering commutes with concatenation, so survivors keep their
      enumeration order, and a pass can be accounted for one candidate at a time. */
  lemma {:induction false} SurvivorsAppend(a: seq<DxgiAdapter>, b: seq<DxgiAdapter>)
    ensures Survivors(a + b) == Survivors(a) + Survivors(b)
  {
    if a == [] {
      assert a + b == b;
    } else {
      assert (a + b)[0] == a[0] && (a + b)[1..] == a[1..] + b;
      SurvivorsAppend(a[1..], b);
    }
  }

  /** Every candidate survives exactly when no candidate is dropped. */
  lemma {:induction false} SurvivorsAll(es: seq<DxgiAdapter>)
    ensures |Survivors(es)| <= |es|
    ensures |Survivors(es)| == |es| <==> forall k :: 0 <= k < |es| ==> es[k].initSucceeds
  {
    if es != [] {
      SurvivorsAll(es[1..]);
      assert forall k :: 1 <= k < |es| ==> es[k] == es[1..][k - 1];
    }
  }

  /** A pass that starts from an empty registry keeps at least one adapter
      exactly when some enumerated adapter initializes. */
  lemma {:induction false} SurvivorsNonEmpty(es: seq<DxgiAdapter>)
    ensures Survivors(es) != [] <==> exists k :: 0 <= k < |es| && es[k].initSucceeds
  {
    if es != [] {
      SurvivorsNonEmpty(es[1..]);
      assert forall k :: 1 <= k < |es| ==> es[k] == es[1..][k - 1];
      if !es[0].initSucceeds && Survivors(es) != [] {
        var k :| 0 <= k < |es[1..]| && es[1..][k].initSucceeds;
        assert es[k + 1].initSucceeds;
      }
    }
  }

  /** The outputs appended by a pass are those of its two halves, in order. */
  lemma {:induction false} AppendedOutputsAppend(a: seq<DxgiAdapter>, b: seq<DxgiAdapter>)
    ensures AppendedOutputs(a + b) == AppendedOutputs(a) + AppendedOutputs(b)
  {
    if a == [] {
      assert a + b == b;
    } else {
      assert (a + b)[1..] == a[1..] + b;
      AppendedOutputsAppend(a[1..], b);
    }
  }

  /** `adapters[from..]` are the adapters created for `expected`, one for one, in order. */
  ghost predicate AdaptersFor(adapters: seq<NvapiAdapter>, from: nat, expected: seq<DxgiAdapter>) {
    |adapters| == from + |expected| &&
    forall k :: 0 <= k < |expected| ==> adapters[from + k].luid == expected[k].luid
  }

  /** `outputs[from..]` are outputs with the descriptions `expected`, one for one, in order. */
  ghost predicate OutputsFor(outputs: seq<NvapiOutput>, from: nat, expected: seq<OutputDesc>) {
    |outputs| == from + |expected| &&
    forall k :: 0 <= k < |expected| ==> outputs[from + k].Desc() == expected[k]
  }

  /** One iteration of the enumeration loop on the adapter list: the candidate
      created for `es[i]` is appended exactly when it initializes. */
  lemma AdaptersForStep(adapters: seq<NvapiAdapter>, from: nat, es: seq<DxgiAdapter>, i: nat,
                        candidate: NvapiAdapter, adapters': seq<NvapiAdapter>)
    requires i < |es| && candidate.luid == es[i].luid
    requires AdaptersFor(adapters, from, Survivors(es[..i]))
    requires adapters' == if es[i].initSucceeds then adapters + [candidate] else adapters
    ensures AdaptersFor(adapters', from, Survivors(es[..i + 1]))
    ensures adapters'[..from] == adapters[..from]
  {
    assert es[..i + 1] == es[..i] + [es[i]];
    SurvivorsAppend(es[..i], [es[i]]);
    assert [es[i]][1..] == [];
  }

  /** One iteration of the enumeration loop on the output list: the outputs the
      candidate for `es[i]` appends extend the list, whatever its outcome. */
  lemma OutputsForStep(outputs: seq<NvapiOutput>, from: nat, es: seq<DxgiAdapter>, i: nat,
                       outputs': seq<NvapiOutput>)
    requires i < |es|
    requires OutputsFor(outputs, from, AppendedOutputs(es[..i]))
    requires AppendsFresh(outputs, es[i].outputs, outputs')
    ensures OutputsFor(outputs', from, AppendedOutputs(es[..i + 1]))
    ensures outputs'[..from] == outputs[..from]
  {
    assert es[..i + 1] == es[..i] + [es[i]];
    AppendedOutputsAppend(es[..i], [es[i]]);
    assert AppendedOutputs([es[i]]) == es[i].outputs by {
      assert [es[i]][1..] == [];
    }
    assert outputs'[..from] == outputs'[..|outputs|][..from];
  }

  // ---------------------------------------------------------------------------
  // Integer widths of the C++ interface

  /** static_cast<int16_t>: the int16 congruent to `x` modulo 2^16. */
  function Int16Cast(x: int): (r: int16)
    ensures -0x8000 <= x < 0x8000 ==> r as int == x
    ensures (x - r as int) % 0x1_0000 == 0
  {
    var m := x % 0x1_0000;
    if m < 0x8000 then m as int16 else (m - 0x1_0000) as int16
  }

  /** Implicit size_t to uint16_t conversion: the uint16 congruent to `n` modulo 2^16. */
  function Uint16Cast(n: nat): (r: uint16)
    ensures n < 0x1_0000 ==> r as int == n
    ensures (n - r as int) % 0x1_0000 == 0
  {
    (n % 0x1_0000) as uint16
  }

  // ---------------------------------------------------------------------------
  // Lookup predicates

  /** The LUID comparison of GetAdapter(LUID): the adapter's optional LUID must be
      present and agree on both HighPart and LowPart. */
  function LuidMatches(adapterLuid: Option<Luid>, luid: Luid): (r: bool)
    ensures r <==> adapterLuid == Some(luid)
  {
    adapterLuid.Some? && adapterLuid.value.highPart == luid.highPart && adapterLuid.value.lowPart == luid.lowPart
  }

  predicate IsPrimary(output: NvapiOutput) {
    output.primary
  }

  function HasDeviceName(displayName: string): NvapiOutput -> bool {
    (output: NvapiOutput) => output.deviceName == displayName
  }

  function HasLuid(luid: Luid): NvapiAdapter -> bool {
    (adapter: NvapiAdapter) => LuidMatches(adapter.luid, luid)
  }

  // ---------------------------------------------------------------------------
  // The registry

  class NvapiAdapterRegistry {
    const resourceFactory: ResourceFactory
    var vulkan: Option<Probe>
    var nvml: Option<Probe>
    var adapters: seq<NvapiAdapter>
    var outputs: seq<NvapiOutput>

    /** Every owned handle is a distinct object. */
    ghost predicate Valid()
      reads this
    {
      Distinct(adapters) && Distinct(outputs)
    }

    constructor (resourceFactory: ResourceFactory)
      ensures Valid()
      ensures this.resourceFactory == resourceFactory
      ensures vulkan == None && nvml == None && adapters == [] && outputs == []
    {
      this.resourceFactory := resourceFactory;
      vulkan, nvml := None, None;
      adapters, outputs := [], [];
    }

    /** The destructor: both owned lists end up empty. */
    method Destroy()
      modifies this
      ensures Valid()
      ensures adapters == [] && outputs == []
      ensures vulkan == old(vulkan) && nvml == old(nvml)
    {
      outputs := [];
      adapters := [];
    }

    /** One enumeration pass. Without a DXGI factory, or without Vulkan, it fails
        before touching the lists; NVML being unavailable is not a reason to fail
        (each candidate's outcome, which may depend on NVML, is oracle data). Otherwise
        every enumerated adapter becomes a candidate, the candidates that initialize
        are appended to `adapters` in enumeration order, every candidate's outputs
        are appended to `outputs`, and the pass succeeds iff `adapters` is non-empty. */
    method Initialize() returns (ok: bool)
      requires Valid()
      modifies this
      ensures Valid()
      ensures resourceFactory.dxgiFactory.None? ==>
        !ok && vulkan == old(vulkan) && nvml == old(nvml) && adapters == old(adapters) && outputs == old(outputs)
      ensures resourceFactory.dxgiFactory.Some? ==> vulkan == Some(resourceFactory.vulkan)
      ensures resourceFactory.dxgiFactory.Some? && !resourceFactory.vulkan.available ==>
        !ok && nvml == old(nvml) && adapters == old(adapters) && outputs == old(outputs)
      ensures resourceFactory.dxgiFactory.Some? && resourceFactory.vulkan.available ==>
        var es := resourceFactory.dxgiFactory.value.adapters;
        && nvml == Some(resourceFactory.nvml)
        && AdaptersFor(adapters, |old(adapters)|, Survivors(es))
        && adapters[..|old(adapters)|] == old(adapters)
        && OutputsFor(outputs, |old(outputs)|, AppendedOutputs(es))
        && outputs[..|old(outputs)|] == old(outputs)
        && (forall k :: |old(adapters)| <= k < |adapters| ==> fresh(adapters[k]))
        && (forall k :: |old(outputs)| <= k < |outputs| ==> fresh(outputs[k]))
        && (ok <==> adapters != [])
    {
      if resourceFactory.dxgiFactory.None? {
        return false;
      }
      var dxgiFactory := resourceFactory.dxgiFactory.value;

      vulkan := Some(resourceFactory.vulkan);
      if !vulkan.value.available {
        return false;
      }

      nvml := Some(resourceFactory.nvml);

      ghost var es := dxgiFactory.adapters;
      ghost var adapters0, outputs0 := adapters, outputs;
      var i: nat := 0;
      var dxgiAdapter := dxgiFactory.EnumAdapters1(i);
      while dxgiAdapter.Some?
        invariant i <= |es| && dxgiAdapter == dxgiFactory.EnumAdapters1(i)
        invariant Valid()
        invariant vulkan == Some(resourceFactory.vulkan) && nvml == Some(resourceFactory.nvml)
        invariant AdaptersFor(adapters, |adapters0|, Survivors(es[..i])) && adapters[..|adapters0|] == adapters0
        invariant OutputsFor(outputs, |outputs0|, AppendedOutputs(es[..i])) && outputs[..|outputs0|] == outputs0
        invariant forall k :: |adapters0| <= k < |adapters| ==> fresh(adapters[k])
        invariant forall k :: |outputs0| <= k < |outputs| ==> fresh(outputs[k])
        decreases |es| - i
      {
        var candidate, initialized, outputs' :=
          NewInitializedAdapter(vulkan.value, nvml.value, dxgiAdapter.value, outputs);
        OutputsForStep(outputs, |outputs0|, es, i, outputs');
        ghost var adaptersBefore := adapters;
        outputs := outputs';
        if initialized {
          adapters := adapters + [candidate];
        }
        AdaptersForStep(adaptersBefore, |adapters0|, es, i, candidate, adapters);
        i := i + 1;
        dxgiAdapter := dxgiFactory.EnumAdapters1(i);
      }
      assert es[..i] == es;

      ok := adapters != [];
    }

    /** GetAdapterCount: the number of adapters, as a uint16. */
    function GetAdapterCount(): (r: uint16)
      reads this
      ensures |adapters| < 0x1_0000 ==> r as int == |adapters|
      ensures (|adapters| - r as int) % 0x1_0000 == 0
    {
      Uint16Cast(|adapters|)
    }

    /** GetAdapter(): the first adapter; the caller must know there is one. */
    function GetFirstAdapter(): (r: NvapiAdapter)
      reads this
      requires adapters != []
      ensures r in adapters && r == GetAdapterAt(0)
    {
      adapters[0]
    }

    /** GetAdapter(index): the adapter at `index`, or null when out of range. */
    function GetAdapterAt(index: uint16): (r: NvapiAdapter?)
      reads this
      ensures r != null <==> (index as int) < |adapters|
      ensures r != null ==> r == adapters[index]
    {
      if (index as int) < |adapters| then adapters[index] else null
    }

    /** GetAdapter(LUID): the first adapter whose LUID is present and equal to
        `luid`, or null when there is none. */
    function GetAdapterByLuid(luid: Luid): (r: NvapiAdapter?)
      reads this
      ensures r == null <==> forall k :: 0 <= k < |adapters| ==> adapters[k].luid != Some(luid)
      ensures r != null ==>
        r.luid == Some(luid) &&
        exists k :: 0 <= k < |adapters| && adapters[k] == r &&
          forall j :: 0 <= j < k ==> adapters[j].luid != Some(luid)
    {
      var k := FindIf(adapters, HasLuid(luid));
      if k == -1 then null else adapters[k]
    }

    /** IsAdapter: whether `handle` is one of the owned adapters. */
    function IsAdapter(handle: NvapiAdapter?): (r: bool)
      reads this
      ensures r <==> handle in adapters
    {
      FindIf(adapters, adapter => adapter == handle) != -1
    }

    /** GetOutput(index): the output at `index` of the flat output list, or null
        when out of range. */
    function GetOutputAt(index: uint16): (r: NvapiOutput?)
      reads this
      ensures r != null <==> (index as int) < |outputs|
      ensures r != null ==> r == outputs[index]
    {
      if (index as int) < |outputs| then outputs[index] else null
    }

    /** IsOutput: whether `handle` is one of the owned outputs. */
    function IsOutput(handle: NvapiOutput?): (r: bool)
      reads this
      ensures r <==> handle in outputs
    {
      FindIf(outputs, output => output == handle) != -1
    }

    /** GetPrimaryOutputId: the index of the first primary output, or -1. The
        index is cast to int16, which is exact while there are at most 2^15 outputs. */
    function GetPrimaryOutputId(): (r: int16)
      reads this
      ensures |outputs| <= 0x8000 ==>
        && (r == -1 <==> forall k :: 0 <= k < |outputs| ==> !outputs[k].primary)
        && (r != -1 ==> 0 <= r as int < |outputs| && outputs[r].primary
                        && forall j :: 0 <= j < r as int ==> !outputs[j].primary)
    {
      Int16Cast(FindIf(outputs, IsPrimary))
    }

    /** GetOutputId(displayName): the index of the first output whose device name
        is `displayName`, or -1. The index is cast to int16, which is exact while
        there are at most 2^15 outputs. */
    function GetOutputId(displayName: string): (r: int16)
      reads this
      ensures |outputs| <= 0x8000 ==>
        && (r == -1 <==> forall k :: 0 <= k < |outputs| ==> outputs[k].deviceName != displayName)
        && (r != -1 ==> 0 <= r as int < |outputs| && outputs[r].deviceName == displayName
                        && forall j :: 0 <= j < r as int ==> outputs[j].deviceName != displayName)
    {
      Int16Cast(FindIf(outputs, HasDeviceName(displayName)))
    }

    /** The handles IsAdapter accepts are exactly the ones GetAdapter(index) hands out. */
    lemma AdapterHandles()
      requires |adapters| <= 0x1_0000
      ensures forall h: NvapiAdapter? :: IsAdapter(h) <==> exists i: uint16 :: h != null && GetAdapterAt(i) == h
    {
      forall h: NvapiAdapter? | IsAdapter(h)
        ensures exists i: uint16 :: h != null && GetAdapterAt(i) == h
      {
        var k :| 0 <= k < |adapters| && adapters[k] == h;
        assert GetAdapterAt(k as uint16) == h;
      }
    }

    /** The handles IsOutput accepts are exactly the ones GetOutput(index) hands out. */
    lemma OutputHandles()
      requires |outputs| <= 0x1_0000
      ensures forall h: NvapiOutput? :: IsOutput(h) <==> exists i: uint16 :: h != null && GetOutputAt(i) == h
    {
      forall h: NvapiOutput? | IsOutput(h)
        ensures exists i: uint16 :: h != null && GetOutputAt(i) == h
      {
        var k :| 0 <= k < |outputs| && outputs[k] == h;
        assert GetOutputAt(k as uint16) == h;
      }
    }

    /** When no two adapters report the same LUID, looking an adapter up by its
        own LUID gives that adapter back. */
    lemma LuidLookupRoundTrip(i: nat)
      requires i < |adapters| && adapters[i].luid.Some?
      requires forall j, k :: 0 <= j < k < |adapters| ==> adapters[j].luid != adapters[k].luid
      ensures GetAdapterByLuid(adapters[i].luid.value) == adapters[i]
    {
    }

    /** The index GetOutputId reports leads back, through GetOutput, to an output
        with that name, and the name of the output at `i` is found at `i` or earlier. */
    lemma OutputIdRoundTrip(displayName: string, i: nat)
      requires |outputs| <= 0x8000
      ensures GetOutputId(displayName) != -1 ==>
        var output := GetOutputAt(GetOutputId(displayName) as int as uint16);
        output != null && output.deviceName == displayName
      ensures i < |outputs| ==> 0 <= GetOutputId(outputs[i].deviceName) as int <= i
    {
    }

    /** With at most one primary output (which the outputs themselves guarantee),
        GetPrimaryOutputId reports the primary output's index whenever there is one. */
    lemma PrimaryOutputUnique(i: nat)
      requires |outputs| <= 0x8000 && i < |outputs| && outputs[i].primary
      requires forall j, k :: 0 <= j < k < |outputs| && outputs[j].primary ==> !outputs[k].primary
      ensures GetPrimaryOutputId() as int == i
    {
    }
  }
}
