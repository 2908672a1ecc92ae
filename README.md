# NvapiAdapterRegistry in Dafny

This project models the adapter/output handle registry of dxvk-nvapi
(`src/sysinfo/nvapi_adapter_registry.cpp`). The registry runs one DXGI
enumeration pass. It keeps the `NvapiAdapter` objects whose initialization
succeeds and owns a flat list of the `NvapiOutput` objects that the candidates
append. It then answers read-only lookups over both lists:

- by index, with a null sentinel;
- by LUID, returning the first match;
- membership of an opaque handle;
- the first primary output;
- the first output with a given device name.

Modules:

- `Sequences` (`sequences.dfy`) holds `FindIf`, the first-match search behind
  `std::find_if` and `std::find`, and `Distinct`.
- `Collaborators` (`collaborators.dfy`) is the registry's boundary: the DXGI
  factory as a finite sequence of adapters, the Vulkan and NVML probes as
  availability flags, `NvapiAdapter` and `NvapiOutput` as classes whose object
  identity is the handle, and the LUID and the integer widths of the C++
  interface. What `NvapiAdapter::Initialize` does with a DXGI adapter is oracle
  data carried by that adapter: whether it succeeds, the LUID it then reports,
  and the outputs it appends.
- `AdapterRegistry` (`nvapi_adapter_registry.dfy`) holds the class
  `NvapiAdapterRegistry`. Its `adapters` and `outputs` sequence fields are
  the two vectors. `Initialize` and `Destroy` are methods, and the `const`
  lookups are functions that read the object. `Survivors` and
  `AppendedOutputs` state what an enumeration pass yields.
- `RegistryScenarios` (`scenarios.dfy`) holds two clients that use only the
  contracts. In the first, three DXGI adapters are enumerated and the middle
  one fails. In the second, Vulkan is unavailable.

Where the component's documented intent and its code differ, the model follows
the code:

- The documented intent is that every output belongs to a surviving adapter. The code hands
  the registry's output vector to every candidate, including one that then
  fails (line 37). So the model keeps whatever a failing candidate appended
  (`AppendedOutputs` covers all candidates).
- The documented intent is that at most one output is primary. Nothing in the registry
  enforces that. `GetPrimaryOutputId` returns the first primary output, and
  `PrimaryOutputUnique` takes the one-primary property as a precondition.
- Re-initialization is documented as unsupported. The code does not check for
  it, so `Initialize` does not require an empty registry. Its contract appends
  to whatever the lists already hold.

## Model

| member | source | states |
|---|---|---|
| `Sequences.FindIf` | src/sysinfo/nvapi_adapter_registry.cpp:83-88 | the result is -1 iff no element satisfies the predicate; otherwise it is the distance to an element that does, and no earlier element does |
| `Collaborators.DxgiFactory.EnumAdapters1` | src/sysinfo/nvapi_adapter_registry.cpp:35 | None (DXGI_ERROR_NOT_FOUND) iff the index is past the last adapter; otherwise the adapter at that index |
| `Collaborators.NewInitializedAdapter` | src/sysinfo/nvapi_adapter_registry.cpp:36-37 | a candidate is a fresh adapter with the LUID and outcome recorded for its DXGI adapter; it appends one fresh, distinct output per recorded description and leaves the existing outputs in place |
| `AdapterRegistry.SurvivorsMembership` | src/sysinfo/nvapi_adapter_registry.cpp:35-41 | an enumerated adapter is kept iff its initialization succeeds, so a failed candidate never appears and no successful one is lost |
| `AdapterRegistry.SurvivorsAppend` | src/sysinfo/nvapi_adapter_registry.cpp:35-38 | the adapters kept from two consecutive stretches of the enumeration are those of the first followed by those of the second, so enumeration order is preserved |
| `AdapterRegistry.SurvivorsAll` | src/sysinfo/nvapi_adapter_registry.cpp:36-40 | no more adapters are kept than enumerated, and all are kept iff every candidate initializes |
| `AdapterRegistry.SurvivorsNonEmpty` | src/sysinfo/nvapi_adapter_registry.cpp:43 | a pass keeps some adapter iff some enumerated adapter initializes |
| `AdapterRegistry.AppendedOutputsAppend` | src/sysinfo/nvapi_adapter_registry.cpp:35-37 | the outputs appended over two consecutive stretches of the enumeration are those of the first followed by those of the second |
| `AdapterRegistry.Int16Cast` | src/sysinfo/nvapi_adapter_registry.cpp:88 | `static_cast<int16_t>` yields the int16 congruent to its argument modulo 2^16, which equals the argument when it fits |
| `AdapterRegistry.Uint16Cast` | src/sysinfo/nvapi_adapter_registry.cpp:47 | the size-to-`uint16_t` conversion yields the value congruent modulo 2^16, which equals the size when it fits |
| `AdapterRegistry.LuidMatches` | src/sysinfo/nvapi_adapter_registry.cpp:61-64 | the comparison holds iff the adapter's LUID is present and equal to the query in both HighPart and LowPart |
| `AdapterRegistry.NvapiAdapterRegistry.constructor` | src/sysinfo/nvapi_adapter_registry.cpp:6-7 | the registry keeps the resource factory and starts with no probes, no adapters and no outputs |
| `AdapterRegistry.NvapiAdapterRegistry.Destroy` | src/sysinfo/nvapi_adapter_registry.cpp:9-18 | after teardown both the adapter list and the output list are empty |
| `AdapterRegistry.NvapiAdapterRegistry.Initialize` | src/sysinfo/nvapi_adapter_registry.cpp:20-44 | fails without touching the lists when the DXGI factory is null or Vulkan is unavailable; NVML being unavailable is not a reason for the registry to fail (each candidate's outcome, which may depend on NVML, is oracle data); otherwise it appends exactly the successfully initialized candidates in enumeration order and every candidate's outputs, all fresh and distinct, and succeeds iff the adapter list is non-empty |
| `AdapterRegistry.NvapiAdapterRegistry.GetAdapterCount` | src/sysinfo/nvapi_adapter_registry.cpp:46-48 | the adapter count, exact up to 2^16 - 1 adapters and reduced modulo 2^16 beyond |
| `AdapterRegistry.NvapiAdapterRegistry.GetFirstAdapter` | src/sysinfo/nvapi_adapter_registry.cpp:50-52 | on a non-empty registry, an owned adapter, the same one that index 0 gives |
| `AdapterRegistry.NvapiAdapterRegistry.GetAdapterAt` | src/sysinfo/nvapi_adapter_registry.cpp:54-56 | non-null iff the index is in range, and then the adapter at that index |
| `AdapterRegistry.NvapiAdapterRegistry.GetAdapterByLuid` | src/sysinfo/nvapi_adapter_registry.cpp:58-68 | null iff no adapter reports that LUID; otherwise an owned adapter reporting it, with no earlier adapter reporting it |
| `AdapterRegistry.NvapiAdapterRegistry.IsAdapter` | src/sysinfo/nvapi_adapter_registry.cpp:70-72 | true iff the handle is one of the owned adapters |
| `AdapterRegistry.NvapiAdapterRegistry.GetOutputAt` | src/sysinfo/nvapi_adapter_registry.cpp:74-76 | non-null iff the index is in range, and then the output at that index |
| `AdapterRegistry.NvapiAdapterRegistry.IsOutput` | src/sysinfo/nvapi_adapter_registry.cpp:78-80 | true iff the handle is one of the owned outputs |
| `AdapterRegistry.NvapiAdapterRegistry.GetPrimaryOutputId` | src/sysinfo/nvapi_adapter_registry.cpp:82-89 | with at most 2^15 outputs: -1 iff no output is primary; otherwise a valid index of a primary output with no primary output before it |
| `AdapterRegistry.NvapiAdapterRegistry.GetOutputId` | src/sysinfo/nvapi_adapter_registry.cpp:91-98 | with at most 2^15 outputs: -1 iff no output has that device name; otherwise a valid index of an output with that name, with none before it |
| `AdapterRegistry.NvapiAdapterRegistry.AdapterHandles` | src/sysinfo/nvapi_adapter_registry.cpp:54-72 | with at most 2^16 adapters, the handles IsAdapter accepts are exactly the non-null handles GetAdapter(index) returns |
| `AdapterRegistry.NvapiAdapterRegistry.OutputHandles` | src/sysinfo/nvapi_adapter_registry.cpp:74-80 | with at most 2^16 outputs, the handles IsOutput accepts are exactly the non-null handles GetOutput(index) returns |
| `AdapterRegistry.NvapiAdapterRegistry.LuidLookupRoundTrip` | src/sysinfo/nvapi_adapter_registry.cpp:58-68 | when LUIDs are unique among the adapters, looking up an adapter's own LUID returns that adapter |
| `AdapterRegistry.NvapiAdapterRegistry.OutputIdRoundTrip` | src/sysinfo/nvapi_adapter_registry.cpp:91-98 | an index found by device name leads back through GetOutput to an output with that name, and the name of the output at index i is found at i or earlier |
| `AdapterRegistry.NvapiAdapterRegistry.PrimaryOutputUnique` | src/sysinfo/nvapi_adapter_registry.cpp:82-89 | when at most one output is primary, GetPrimaryOutputId returns that output's index |

## Left out

- DXGI enumeration through COM (`CreateDXGIFactory1`, `EnumAdapters1`, `DXGI_ERROR_NOT_FOUND`) is a foreign API. It is modelled as a finite sequence of adapters. An index past its end stands for the not-found result.
- The internals of the Vulkan and NVML wrappers and of `ResourceFactory` are not part of this model. Only the null check of the DXGI factory and the two `IsAvailable()` results are kept.
- The log line written when NVML loads is I/O and has no effect on the result.
- `NvapiAdapter::Initialize`, `NvapiAdapter::GetLuid`, `NvapiOutput::IsPrimary` and `NvapiOutput::GetDeviceName` are defined in files that are not part of this model. Their results are oracle data on each DXGI adapter. The LUID is fixed when the candidate is created, not computed during its initialization. The Vulkan and NVML probes are passed to each candidate as in the source, but the model does not consult them: any dependence of a candidate's outcome on them is folded into its recorded outcome.
- `new`/`delete`: the destructor's deletes and the deletion of a failed candidate are not modelled as memory release. Teardown is modelled only as both lists becoming empty, and a failed candidate is simply not kept.
- `AdapterRegistry.NvapiAdapterRegistry.GetPrimaryOutputId`: the contract states the index only for at most 2^15 outputs. Beyond that the function returns the wrapped value given by `Int16Cast`, and the contract does not describe it.
- `AdapterRegistry.NvapiAdapterRegistry.GetOutputId`: the contract states the index only for at most 2^15 outputs, for the same reason.
- `AdapterRegistry.NvapiAdapterRegistry.GetFirstAdapter` requires a non-empty adapter list, because `front()` on an empty vector is undefined behaviour.
