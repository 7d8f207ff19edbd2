/** The dataset registry (redstar/datasets.py): a global dictionary from
    dataset name to loader, written by the `register_dataset` decorator. */
module Datasets {

  /** A dataset loader. Loading is not modelled; a loader is known by the
      hub dataset and configuration it fetches. */
  datatype DatasetLoader = HubDataset(path: string, config: string)

  /** `load_gsm8k_dataset`: the `main` configuration of the `gsm8k` hub dataset. */
  const Gsm8kLoader := HubDataset("gsm8k", "main")

  /** `DatasetRegistry`. */
  class DatasetRegistry {
    var loaders: map<string, DatasetLoader>

    constructor ()
      ensures loaders == map[]
    {
      loaders := map[];
    }
  }

  /** `register_dataset(name)(func)`: records `func` under `name`, replacing
      any earlier loader of that name, and hands `func` back unchanged. */
  method RegisterDataset(registry: DatasetRegistry, name: string, func: DatasetLoader) returns (decorated: DatasetLoader)
    modifies registry
    ensures decorated == func
    ensures registry.loaders == old(registry.loaders)[name := func]
    ensures name in registry.loaders && registry.loaders[name] == func
    ensures forall other :: other != name && other in old(registry.loaders) ==>
              other in registry.loaders && registry.loaders[other] == old(registry.loaders)[other]
    ensures |registry.loaders| == |old(registry.loaders)| + (if name in old(registry.loaders) then 0 else 1)
  {
    registry.loaders := registry.loaders[name := func];
    decorated := func;
  }

  /** Importing the module decorates `load_gsm8k_dataset` with
      `register_dataset('gsm8k')`. */
  method ImportDatasets(registry: DatasetRegistry) returns (loadGsm8kDataset: DatasetLoader)
    modifies registry
    ensures loadGsm8kDataset == Gsm8kLoader
    ensures registry.loaders == old(registry.loaders)["gsm8k" := Gsm8kLoader]
  {
    loadGsm8kDataset := RegisterDataset(registry, "gsm8k", Gsm8kLoader);
  }
}
