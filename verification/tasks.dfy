/** Evaluation tasks (redstar/tasks/task.py): a `Task` bundles a name, a
    dataset loader and a pipeline factory, and constructing one records it
    in the global `TaskRegistry`. */
module Tasks {
  import opened Types
  import opened Datasets

  /** The pipeline factories the tasks name. Building a pipeline from them
      is not part of this model; they are kept as the arguments bound by
      `functools.partial`. */
  datatype PipelineFactory =
    | ZeroShotFactory
    | FewShotFactory(examplesFile: string, dialogStyle: bool, clientKwargs: Kwargs)

  /** `TaskRegistry`. */
  class TaskRegistry {
    var tasks: map<string, Task>

    constructor ()
      ensures tasks == map[]
    {
      tasks := map[];
    }
  }

  /** The `Task` dataclass; `__post_init__` registers the new task under its
      name, replacing any earlier task of that name. */
  class Task {
    const taskName: string
    const loadDatasetFunc: DatasetLoader
    const createPipelineFunc: PipelineFactory

    constructor (taskName: string, loadDatasetFunc: DatasetLoader, createPipelineFunc: PipelineFactory,
                 registry: TaskRegistry)
      modifies registry
      ensures this.taskName == taskName
      ensures this.loadDatasetFunc == loadDatasetFunc
      ensures this.createPipelineFunc == createPipelineFunc
      ensures registry.tasks == old(registry.tasks)[taskName := this]
      ensures forall other :: other != taskName && other in old(registry.tasks) ==>
                other in registry.tasks && registry.tasks[other] == old(registry.tasks)[other]
      ensures |registry.tasks| == |old(registry.tasks)| + (if taskName in old(registry.tasks) then 0 else 1)
    {
      this.taskName := taskName;
      this.loadDatasetFunc := loadDatasetFunc;
      this.createPipelineFunc := createPipelineFunc;
      new;
      registry.tasks := registry.tasks[taskName := this];
    }
  }
}
