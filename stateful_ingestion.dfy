/** Checkpoint bookkeeping of a stateful ingestion source.

    A source keeps one use-case handler per job id, memoises the last
    (committed) and the current checkpoint of each job, and, when the run
    ends, hands the checkpoint aspects of its current checkpoints to the
    checkpointing state provider.  The provider, the handlers and the
    conversion of a checkpoint to an aspect are collaborators whose answers
    enter as values or functions. */
module StatefulIngestion {
  import opened Wrappers

  type JobId = string

  const DEFAULT_STATE_PROVIDER_TYPE: string := "datahub"

  datatype StateProviderConfig = StateProviderConfig(providerType: string, config: Option<map<string, string>>)

  datatype StatefulIngestionConfig = StatefulIngestionConfig(
    enabled: bool,
    maxCheckpointStateSize: nat,
    stateProvider: Option<StateProviderConfig>,
    ignoreOldState: bool,
    ignoreNewState: bool)

  /** The parts of the pipeline context the bookkeeping reads. */
  datatype PipelineContext = PipelineContext(pipelineName: Option<string>, dryRunMode: bool, previewMode: bool)

  /** A checkpoint and its serialised aspect, as opaque values. */
  datatype Checkpoint = Checkpoint(jobName: JobId, state: string)
  datatype CheckpointAspect = CheckpointAspect(jobName: JobId, payload: string)

  /** A use-case handler, reduced to its job id and its two answers. */
  datatype UsecaseHandler = UsecaseHandler(jobId: JobId, checkpointingEnabled: bool, initialCheckpoint: Option<Checkpoint>)

  /** What converting a checkpoint to an aspect does: raise, or return an aspect or None. */
  datatype Conversion = ConversionRaised | Converted(aspect: Option<CheckpointAspect>)

  datatype ConfigurationError = PipelineNameMissing | UnknownProviderType(providerType: string)

  datatype IngestionError = NoUsecaseHandler(jobId: JobId) | DuplicateUsecaseHandler(jobId: JobId)

  /** The root validator of the stateful-ingestion configuration. */
  function ValidateConfig(c: StatefulIngestionConfig): (r: StatefulIngestionConfig)
    ensures r.(stateProvider := c.stateProvider) == c
    ensures r.enabled ==> r.stateProvider.Some?
    ensures c.stateProvider.Some? ==> r == c
    ensures c.enabled && c.stateProvider.None? ==> r.stateProvider == Some(StateProviderConfig(DEFAULT_STATE_PROVIDER_TYPE, None))
    ensures !(c.enabled && c.stateProvider.None?) ==> r == c
  {
    if c.enabled && c.stateProvider.None? then c.(stateProvider := Some(StateProviderConfig(DEFAULT_STATE_PROVIDER_TYPE, None)))
    else c
  }

  lemma ValidateConfigIdempotent(c: StatefulIngestionConfig)
    ensures ValidateConfig(ValidateConfig(c)) == ValidateConfig(c)
  {
  }

  /** Whether stateful ingestion asks for a state provider at all. */
  predicate WantsProvider(config: Option<StatefulIngestionConfig>) {
    config.Some? && config.value.stateProvider.Some? && config.value.enabled
  }

  /** The checks of `_initialize_checkpointing_state_provider`: the type of
      provider to create, none when stateful ingestion is off, or the
      configuration error raised. `registry` holds the registered provider types. */
  function InitCheckpointingProvider(config: Option<StatefulIngestionConfig>, pipelineName: Option<string>, registry: set<string>)
    : (r: Result<Option<string>, ConfigurationError>)
    ensures r == Failure(PipelineNameMissing) <==> WantsProvider(config) && pipelineName.None?
    ensures r.Failure? && r.error.UnknownProviderType? <==>
              WantsProvider(config) && pipelineName.Some? && config.value.stateProvider.value.providerType !in registry
    ensures r.Failure? && r.error.UnknownProviderType? ==> r.error.providerType == config.value.stateProvider.value.providerType
    ensures r.Success? && r.value.Some? ==>
              WantsProvider(config) && r.value.value == config.value.stateProvider.value.providerType && r.value.value in registry
    ensures WantsProvider(config) && pipelineName.Some? && config.value.stateProvider.value.providerType in registry ==>
              r == Success(Some(config.value.stateProvider.value.providerType))
    ensures !WantsProvider(config) ==> r == Success(None)
  {
    if !WantsProvider(config) then Success(None)
    else if pipelineName.None? then Failure(PipelineNameMissing)
    else if config.value.stateProvider.value.providerType !in registry then
      Failure(UnknownProviderType(config.value.stateProvider.value.providerType))
    else Success(Some(config.value.stateProvider.value.providerType))
  }

  /** A checkpointing state provider; only the aspects it will commit are modelled. */
  class CheckpointingProvider {
    const providerType: string
    var stateToCommit: map<JobId, CheckpointAspect>

    constructor (providerType: string)
      ensures this.providerType == providerType && stateToCommit == map[]
    {
      this.providerType := providerType;
      stateToCommit := map[];
    }
  }

  /** Whether the checkpoint of job `j` is committed: it is set, it converts
      without raising, and the conversion yields an aspect. */
  predicate Committable(cur: map<JobId, Option<Checkpoint>>, convert: (Checkpoint, nat) -> Conversion, maxSize: nat, j: JobId) {
    j in cur && cur[j].Some? && convert(cur[j].value, maxSize).Converted? && convert(cur[j].value, maxSize).aspect.Some?
  }

  /** The loop of `_prepare_checkpoint_states_for_commit`: the aspect of every
      committable job, keyed by job, and nothing else. */
  method CollectCheckpointAspects(cur: map<JobId, Option<Checkpoint>>, convert: (Checkpoint, nat) -> Conversion, maxSize: nat)
    returns (aspects: map<JobId, CheckpointAspect>)
    ensures forall j :: j in aspects <==> Committable(cur, convert, maxSize, j)
    ensures forall j :: Committable(cur, convert, maxSize, j) ==> aspects[j] == convert(cur[j].value, maxSize).aspect.value
  {
    aspects := map[];
    var pending := cur.Keys;
    while pending != {}
      invariant pending <= cur.Keys
      invariant forall j :: j in aspects <==> j !in pending && Committable(cur, convert, maxSize, j)
      invariant forall j :: j in aspects ==> Committable(cur, convert, maxSize, j) && aspects[j] == convert(cur[j].value, maxSize).aspect.value
      decreases pending
    {
      var jobName :| jobName in pending;
      var jobCheckpoint := cur[jobName];
      if jobCheckpoint.Some? {
        var conversion := convert(jobCheckpoint.value, maxSize);
        if conversion.Converted? && conversion.aspect.Some? {
          aspects := aspects[jobName := conversion.aspect.value];
        }
      }
      pending := pending - {jobName};
    }
  }

  class StatefulIngestionSource {
    const statefulIngestionConfig: Option<StatefulIngestionConfig>
    const ctx: PipelineContext
    /** `ingestion_checkpointing_state_provider`; null when none was created. */
    const provider: CheckpointingProvider?
    var usecaseHandlers: map<JobId, UsecaseHandler>
    var lastCheckpoints: map<JobId, Option<Checkpoint>>
    var curCheckpoints: map<JobId, Option<Checkpoint>>

    /** Every handler is registered under its own job id, and a provider
        exists only when stateful ingestion asked for one. */
    ghost predicate Valid()
      reads this
    {
      && (forall j :: j in usecaseHandlers ==> usecaseHandlers[j].jobId == j)
      && (provider != null ==> WantsProvider(statefulIngestionConfig))
    }

    /** `__init__` when `_initialize_checkpointing_state_provider` raises nothing. */
    constructor (config: Option<StatefulIngestionConfig>, ctx: PipelineContext, registry: set<string>)
      requires InitCheckpointingProvider(config, ctx.pipelineName, registry).Success?
      ensures statefulIngestionConfig == config && this.ctx == ctx
      ensures IsStatefulIngestionConfigured() <==> WantsProvider(config)
      ensures provider != null ==> WantsProvider(config) && fresh(provider) && provider.stateToCommit == map[]
                                   && provider.providerType == config.value.stateProvider.value.providerType
      ensures Valid() && usecaseHandlers == map[] && lastCheckpoints == map[] && curCheckpoints == map[]
    {
      statefulIngestionConfig := config;
      this.ctx := ctx;
      var created := InitCheckpointingProvider(config, ctx.pipelineName, registry).value;
      if created.Some? {
        provider := new CheckpointingProvider(created.value);
      } else {
        provider := null;
      }
      usecaseHandlers := map[];
      lastCheckpoints := map[];
      curCheckpoints := map[];
    }

    /** Construction, including the configuration errors it raises. */
    static method Create(config: Option<StatefulIngestionConfig>, ctx: PipelineContext, registry: set<string>)
      returns (r: Result<StatefulIngestionSource, ConfigurationError>)
      ensures r.Failure? <==> InitCheckpointingProvider(config, ctx.pipelineName, registry).Failure?
      ensures r.Failure? ==> r.error == InitCheckpointingProvider(config, ctx.pipelineName, registry).error
      ensures r.Success? ==> fresh(r.value) && r.value.Valid() && r.value.statefulIngestionConfig == config
                             && (r.value.IsStatefulIngestionConfigured() <==> WantsProvider(config))
      ensures r.Success? ==> && r.value.ctx == ctx
                             && r.value.usecaseHandlers == map[] && r.value.lastCheckpoints == map[] && r.value.curCheckpoints == map[]
      ensures r.Success? && r.value.provider != null ==>
                && fresh(r.value.provider) && r.value.provider.stateToCommit == map[]
                && r.value.provider.providerType == config.value.stateProvider.value.providerType
    {
      var init := InitCheckpointingProvider(config, ctx.pipelineName, registry);
      if init.Failure? {
        return Failure(init.error);
      }
      var source := new StatefulIngestionSource(config, ctx, registry);
      return Success(source);
    }

    predicate IsStatefulIngestionConfigured() {
      statefulIngestionConfig.Some? && statefulIngestionConfig.value.enabled && provider != null
    }

    /** A source is configured exactly when it holds a provider: a provider is
        only created for an enabled configuration. */
    lemma ConfiguredIffProvider()
      requires Valid()
      ensures IsStatefulIngestionConfigured() <==> provider != null
      ensures IsStatefulIngestionConfigured() ==> WantsProvider(statefulIngestionConfig)
    {
    }

    /** Registration rejects a job id that already has a handler. */
    method RegisterUsecaseHandler(handler: UsecaseHandler) returns (r: Result<(), IngestionError>)
      requires Valid()
      modifies this`usecaseHandlers
      ensures Valid()
      ensures r.Failure? <==> handler.jobId in old(usecaseHandlers)
      ensures r.Failure? ==> r.error == DuplicateUsecaseHandler(handler.jobId) && usecaseHandlers == old(usecaseHandlers)
      ensures r.Success? ==> usecaseHandlers == old(usecaseHandlers)[handler.jobId := handler]
    {
      if handler.jobId in usecaseHandlers {
        return Failure(DuplicateUsecaseHandler(handler.jobId));
      }
      usecaseHandlers := usecaseHandlers[handler.jobId := handler];
      return Success(());
    }

    /** Delegates to the job's handler; an unregistered job raises. */
    function CreateCheckpoint(jobId: JobId): (r: Result<Option<Checkpoint>, IngestionError>)
      reads this
      ensures r.Failure? <==> jobId !in usecaseHandlers
      ensures r.Failure? ==> r.error == NoUsecaseHandler(jobId)
      ensures r.Success? ==> r.value == usecaseHandlers[jobId].initialCheckpoint
    {
      if jobId !in usecaseHandlers then Failure(NoUsecaseHandler(jobId))
      else Success(usecaseHandlers[jobId].initialCheckpoint)
    }

    /** Delegates to the job's handler; an unregistered job raises. */
    function IsCheckpointingEnabled(jobId: JobId): (r: Result<bool, IngestionError>)
      reads this
      ensures r.Failure? <==> jobId !in usecaseHandlers
      ensures r.Failure? ==> r.error == NoUsecaseHandler(jobId)
      ensures r.Success? ==> r.value == usecaseHandlers[jobId].checkpointingEnabled
    {
      if jobId !in usecaseHandlers then Failure(NoUsecaseHandler(jobId))
      else Success(usecaseHandlers[jobId].checkpointingEnabled)
    }

    predicate IgnoresOldState() {
      statefulIngestionConfig.Some? && statefulIngestionConfig.value.ignoreOldState
    }

    /** The last committed checkpoint of the job; `fetchLast` is what the
        provider returns for the job, converted to a checkpoint.  It is asked
        at most once per job: later calls return the cached answer. */
    method GetLastCheckpoint(jobId: JobId, fetchLast: JobId -> Option<Checkpoint>) returns (r: Option<Checkpoint>)
      requires Valid()
      modifies this`lastCheckpoints
      ensures Valid()
      ensures !IsStatefulIngestionConfigured() || IgnoresOldState() ==>
                r.None? && lastCheckpoints == old(lastCheckpoints)
      ensures IsStatefulIngestionConfigured() && !IgnoresOldState() ==>
                && jobId in lastCheckpoints
                && r == lastCheckpoints[jobId]
                && (jobId in old(lastCheckpoints) ==> lastCheckpoints == old(lastCheckpoints))
                && (jobId !in old(lastCheckpoints) ==> lastCheckpoints == old(lastCheckpoints)[jobId := fetchLast(jobId)])
    {
      if !IsStatefulIngestionConfigured() || IgnoresOldState() {
        return None;
      }
      if jobId !in lastCheckpoints {
        lastCheckpoints := lastCheckpoints[jobId := fetchLast(jobId)];
      }
      r := lastCheckpoints[jobId];
    }

    /** The job's current checkpoint, created once through its handler, or
        None when checkpointing is disabled for the job. */
    method GetCurrentCheckpoint(jobId: JobId) returns (r: Result<Option<Checkpoint>, IngestionError>)
      requires Valid()
      modifies this`curCheckpoints
      ensures Valid()
      ensures !IsStatefulIngestionConfigured() ==> r == Success(None) && curCheckpoints == old(curCheckpoints)
      ensures IsStatefulIngestionConfigured() && jobId in old(curCheckpoints) ==>
                r == Success(old(curCheckpoints)[jobId]) && curCheckpoints == old(curCheckpoints)
      ensures IsStatefulIngestionConfigured() && jobId !in old(curCheckpoints) && jobId !in usecaseHandlers ==>
                r == Failure(NoUsecaseHandler(jobId)) && curCheckpoints == old(curCheckpoints)
      ensures IsStatefulIngestionConfigured() && jobId !in old(curCheckpoints) && jobId in usecaseHandlers ==>
                var created := if usecaseHandlers[jobId].checkpointingEnabled then usecaseHandlers[jobId].initialCheckpoint else None;
                r == Success(created) && curCheckpoints == old(curCheckpoints)[jobId := created]
    {
      if !IsStatefulIngestionConfigured() {
        return Success(None);
      }
      if jobId !in curCheckpoints {
        var enabled := IsCheckpointingEnabled(jobId);
        if enabled.Failure? {
          return Failure(enabled.error);
        }
        var created: Option<Checkpoint> := None;
        if enabled.value {
          created := CreateCheckpoint(jobId).value;
        }
        curCheckpoints := curCheckpoints[jobId := created];
      }
      r := Success(curCheckpoints[jobId]);
    }

    /** Whether the run may hand its checkpoints to the provider. */
    predicate CommitAllowed() {
      && IsStatefulIngestionConfigured()
      && !statefulIngestionConfig.value.ignoreNewState
      && !ctx.dryRunMode
      && !ctx.previewMode
    }

    /** Adds the aspect of every committable current checkpoint to the
        provider's `state_to_commit`; does nothing when committing is off. */
    method PrepareCheckpointStatesForCommit(convert: (Checkpoint, nat) -> Conversion)
      modifies provider
      ensures !CommitAllowed() ==> provider == null || provider.stateToCommit == old(provider.stateToCommit)
      ensures CommitAllowed() ==>
                var maxSize := statefulIngestionConfig.value.maxCheckpointStateSize;
                && (forall j :: j in provider.stateToCommit <==>
                      j in old(provider.stateToCommit) || Committable(curCheckpoints, convert, maxSize, j))
                && (forall j :: j in provider.stateToCommit ==>
                      provider.stateToCommit[j] ==
                        if Committable(curCheckpoints, convert, maxSize, j)
                        then convert(curCheckpoints[j].value, maxSize).aspect.value
                        else old(provider.stateToCommit)[j])
    {
      if !CommitAllowed() {
        return;
      }
      var jobCheckpointAspects := CollectCheckpointAspects(curCheckpoints, convert, statefulIngestionConfig.value.maxCheckpointStateSize);
      provider.stateToCommit := provider.stateToCommit + jobCheckpointAspects;
    }
  }
}
