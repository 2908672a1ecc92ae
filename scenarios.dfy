/** Clients of the registry that use only the contracts of AdapterRegistry. */
module RegistryScenarios {
  import opened Collaborators
  import opened AdapterRegistry

  /** What a pass over three DXGI adapters keeps and appends. */
  lemma ThreeCandidates(e0: DxgiAdapter, e1: DxgiAdapter, e2: DxgiAdapter)
    ensures Survivors([e0, e1, e2]) == Survivors([e0]) + Survivors([e1]) + Survivors([e2])
    ensures AppendedOutputs([e0, e1, e2]) == e0.outputs + e1.outputs + e2.outputs
  {
    assert [e0, e1, e2] == [e0] + ([e1] + [e2]);
    assert [e0][1..] == [e1][1..] == [e2][1..] == [];
    SurvivorsAppend([e0], [e1] + [e2]);
    SurvivorsAppend([e1], [e2]);
    AppendedOutputsAppend([e0], [e1] + [e2]);
    AppendedOutputsAppend([e1], [e2]);
  }

  /** Three DXGI adapters, the middle one failing to initialize, NVML missing:
      the registry keeps the first and the third, in that order, and the
      failed adapter's LUID is not found. */
  method OneFailingCandidate() {
    var a, b, c := Luid(1, 0), Luid(2, 0), Luid(3, 0);
    var es := [
      DxgiAdapter(Some(a), [OutputDesc("DISPLAY1", true)], true),
      DxgiAdapter(Some(b), [], false),
      DxgiAdapter(Some(c), [OutputDesc("DISPLAY2", false)], true)
    ];
    var registry := new NvapiAdapterRegistry(ResourceFactory(Some(DxgiFactory(es)), Probe(true), Probe(false)));
    var ok := registry.Initialize();

    ThreeCandidates(es[0], es[1], es[2]);
    assert ok;
    assert registry.adapters[0].luid == Survivors(es)[0].luid && registry.adapters[1].luid == Survivors(es)[1].luid;
    assert registry.outputs[0].Desc() == AppendedOutputs(es)[0] && registry.outputs[1].Desc() == AppendedOutputs(es)[1];
    assert registry.GetAdapterCount() == 2;
    assert registry.GetAdapterAt(0).luid == Some(a);
    assert registry.GetAdapterAt(1).luid == Some(c);
    assert registry.GetAdapterAt(2) == null;
    assert registry.GetAdapterByLuid(b) == null;
    assert registry.GetAdapterByLuid(c) == registry.GetAdapterAt(1);
    assert registry.GetPrimaryOutputId() == 0;
    assert registry.GetOutputId("DISPLAY2") == 1;
    assert registry.GetOutputId("DISPLAY3") == -1;

    registry.Destroy();
    assert registry.GetAdapterCount() == 0 && registry.GetOutputAt(0) == null;
  }

  /** Without Vulkan the pass fails and no adapter is registered. */
  method VulkanUnavailable(es: seq<DxgiAdapter>, nvml: Probe) {
    var registry := new NvapiAdapterRegistry(ResourceFactory(Some(DxgiFactory(es)), Probe(false), nvml));
    var ok := registry.Initialize();
    assert !ok && registry.GetAdapterCount() == 0;
  }
}
