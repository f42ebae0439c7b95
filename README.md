# Glossary-term transformer, checkpoint bookkeeping and Glue DAG handling

A Dafny model of three pieces of the DataHub metadata-ingestion framework.

- **The schema-field glossary-term transformer** (`AddDatasetSchemaTerms`, module
  `SchemaTerms`). For each field of a dataset's `schemaMetadata` aspect, a term supplier
  says which glossary terms belong to the field's path. The transformer rewrites the field's
  `glossaryTerms`:
  - the computed terms come first, then the field's existing terms unless
    `replace_existing` is set;
  - under PATCH the list is filtered against the terms the server already has for that
    path, and the server's terms are appended;
  - the field's audit stamp is kept, or a fresh one by `urn:li:corpUser:restEmitter` is minted.

  Under PATCH the server's copy of the aspect is fetched first, and fields that only the
  server has are appended. `PatternAddDatasetSchemaTerms` builds the supplier from a
  key/value pattern table.
- **The checkpoint bookkeeping of a stateful ingestion source** (`StatefulIngestionSourceBase`,
  module `StatefulIngestion`):
  - the configuration default for the state provider;
  - the configuration errors raised when the provider is set up;
  - a use-case-handler registry that refuses duplicate job ids;
  - per-job caches of the last and the current checkpoint, each filled at most once;
  - the commit preparation that hands every convertible current checkpoint to the provider.
- **Parts of the AWS Glue source** (modules `GlueSource` and `GlueDataflow`):
  - the lineage-direction and platform validators, the platform precedence and Glue ARNs;
  - the domain chosen for a table and the scan report;
  - the normalisation of a job's script path and the S3 location of a data node;
  - the urn of each node of a job's DAG, and the edge pass that fills each node's
    `inputDatasets`, `inputDatajobs` and `outputDatasets`.

The schema classes, checkpoints and DAG nodes are Dafny datatypes. Where the source mutates
an object it was given and returns it, the model returns the updated value. The transformer
is a class because the source's methods live on it; its fields are set once, when it is
built, and its methods run the source's loops. Objects whose fields the source updates
across calls are classes too:
- the stateful source, with its handler and checkpoint maps;
- the provider's `state_to_commit`;
- the Glue report.

Collaborators the code calls but does not define enter as parameters:
- the term supplier, the pattern matchers (`KeyValuePattern.value`, `AllowDenyPattern.allowed`) and the clock;
- the server fetch, the provider's checkpoint fetch and the checkpoint-to-aspect conversion;
- the use-case handlers' answers and the urn builders.

Files: `wrappers.dfy` (Option, Result), `schema_terms.dfy`, `stateful_ingestion.dfy`,
`glue_source.dfy`, `glue_dataflow.dfy`.

### What the term merge does not promise

The term merge neither removes duplicate urns nor lets the first occurrence of a field
path win. The model states what the code does:
- When every desired term is already on the server, the fallback re-adds the whole desired
  list in front of the server's terms. Desired [T1] against server [T1] gives [T1, T1]
  (`FullOverlapDuplicatesTerm`, `ExtendedFieldFallback`).
- Keeping existing terms is not idempotent: a second run appends the terms again
  (`KeepingExistingTermsAccumulates`).
- When the server list repeats a field path, the last occurrence wins (`FieldMapLastWins`).

## Model

| member | source | states |
|---|---|---|
| SchemaTerms.Urns | metadata-ingestion/src/datahub/ingestion/transformer/add_dataset_schema_terms.py:70 | the server urns list has one urn per term, in the terms' order |
| SchemaTerms.FieldPaths | metadata-ingestion/src/datahub/ingestion/transformer/add_dataset_schema_terms.py:114-118 | the input path list has one path per field, in the fields' order |
| SchemaTerms.PatchDeltaCounts | metadata-ingestion/src/datahub/ingestion/transformer/add_dataset_schema_terms.py:70-73 | the patch filter keeps exactly the desired terms whose urn the server lacks, each as often as it occurs, and drops every term whose urn the server has |
| SchemaTerms.FieldMapLastWins | metadata-ingestion/src/datahub/ingestion/transformer/add_dataset_schema_terms.py:121-122 | the server field map has every server path as a key; each value is a server field with that path, and it is the last such field |
| SchemaTerms.ServerOnlyFieldsMembers | metadata-ingestion/src/datahub/ingestion/transformer/add_dataset_schema_terms.py:119-125 | the fields appended under PATCH are exactly the server fields whose path the input lacks |
| SchemaTerms.ExtendAll | metadata-ingestion/src/datahub/ingestion/transformer/add_dataset_schema_terms.py:129-132 | the output list has the input's length, and position i is field i extended with the server field of its path |
| SchemaTerms.ExtendAllKeepsPaths | metadata-ingestion/src/datahub/ingestion/transformer/add_dataset_schema_terms.py:129-132 | extending the fields keeps every field path in its place |
| SchemaTerms.ExtendedFieldOnlyTouchesTerms | metadata-ingestion/src/datahub/ingestion/transformer/add_dataset_schema_terms.py:53-56 | only `glossaryTerms` changes; an empty supplier result returns the field unchanged, existing terms included |
| SchemaTerms.ExtendedFieldAuditStamp | metadata-ingestion/src/datahub/ingestion/transformer/add_dataset_schema_terms.py:79-86 | a field that had terms keeps its audit stamp even when they are replaced; a field without terms gets a stamp at the given time by the REST emitter |
| SchemaTerms.ExtendedFieldWithoutServerTerms | metadata-ingestion/src/datahub/ingestion/transformer/add_dataset_schema_terms.py:58-77 | without server terms the list is the computed terms, followed by the field's own terms exactly when they exist and `replace_existing` is false |
| SchemaTerms.ExtendedFieldPatchDelta | metadata-ingestion/src/datahub/ingestion/transformer/add_dataset_schema_terms.py:65-88 | against server terms, when some desired urn is new, the list is the filtered desired terms followed by the server's terms; its head holds exactly the desired terms the server lacks |
| SchemaTerms.ExtendedFieldFallback | metadata-ingestion/src/datahub/ingestion/transformer/add_dataset_schema_terms.py:75-88 | when the server already has every desired urn, the whole desired list is placed before the server's terms |
| SchemaTerms.ExtendedFieldReplaceIdempotent | metadata-ingestion/src/datahub/ingestion/transformer/add_dataset_schema_terms.py:50-92 | with `replace_existing`, extending an extended field again (at any later time) changes nothing |
| SchemaTerms.NewTermComesBeforeServerTerm | metadata-ingestion/src/datahub/ingestion/transformer/add_dataset_schema_terms.py:65-90 | desired [T1, T2] against server [T1] on a field without terms gives [T2, T1] with a fresh stamp |
| SchemaTerms.NoServerFieldAddsAllDesired | metadata-ingestion/src/datahub/ingestion/transformer/add_dataset_schema_terms.py:65-90 | desired [T1, T2] with no server field gives [T1, T2] with a fresh stamp |
| SchemaTerms.ExistingTermsFollowComputedOnes | metadata-ingestion/src/datahub/ingestion/transformer/add_dataset_schema_terms.py:58-90 | existing [T3] kept and desired [T1] give [T1, T3] under the field's old stamp |
| SchemaTerms.FullOverlapDuplicatesTerm | metadata-ingestion/src/datahub/ingestion/transformer/add_dataset_schema_terms.py:75-88 | desired [T1] against server [T1] gives [T1, T1]: the merge does not deduplicate |
| SchemaTerms.KeepingExistingTermsAccumulates | metadata-ingestion/src/datahub/ingestion/transformer/add_dataset_schema_terms.py:58-63 | keeping existing terms, a second run turns [T1] into [T1, T1] |
| SchemaTerms.PatchRequiresGraphClient | metadata-ingestion/src/datahub/ingestion/transformer/add_dataset_schema_terms.py:108-109 | PATCH without a graph client fails whatever the aspect |
| SchemaTerms.PatchKeepsEveryField | metadata-ingestion/src/datahub/ingestion/transformer/add_dataset_schema_terms.py:108-132 | under PATCH the output is the input fields, then the server-only fields in server order, each extended with the server field of its path; every input path and every server path appears |
| SchemaTerms.ExtendAllAppend | metadata-ingestion/src/datahub/ingestion/transformer/add_dataset_schema_terms.py:127-132 | extending the input fields with the server-only fields appended is extending each part and concatenating |
| SchemaTerms.OverwriteIgnoresServer | metadata-ingestion/src/datahub/ingestion/transformer/add_dataset_schema_terms.py:105-132 | under OVERWRITE the output keeps the input's length, order and other attributes, and each field is extended with no server field |
| SchemaTerms.OverwriteReplaceIdempotent | metadata-ingestion/src/datahub/ingestion/transformer/add_dataset_schema_terms.py:94-134 | under OVERWRITE with `replace_existing`, transforming the result again returns it unchanged |
| SchemaTerms.PatternTerms | metadata-ingestion/src/datahub/ingestion/transformer/add_dataset_schema_terms.py:147-150 | the pattern supplier yields one association per matched urn, in order, with no context |
| SchemaTerms.PatternConfig | metadata-ingestion/src/datahub/ingestion/transformer/add_dataset_schema_terms.py:144-154 | the derived configuration copies semantics and `replace_existing`, and for every path its supplier gives one association per pattern urn, in order, each without a context |
| SchemaTerms.AddDatasetSchemaTerms.constructor | metadata-ingestion/src/datahub/ingestion/transformer/add_dataset_schema_terms.py:40-43 | the transformer holds the given configuration and graph client |
| SchemaTerms.AddDatasetSchemaTerms.FromPattern | metadata-ingestion/src/datahub/ingestion/transformer/add_dataset_schema_terms.py:144-154 | the pattern transformer holds the configuration derived from the pattern table |
| SchemaTerms.AddDatasetSchemaTerms.ExtendField | metadata-ingestion/src/datahub/ingestion/transformer/add_dataset_schema_terms.py:50-92 | the loop's result is the extended field that the lemmas above characterise |
| SchemaTerms.AddDatasetSchemaTerms.TransformAspect | metadata-ingestion/src/datahub/ingestion/transformer/add_dataset_schema_terms.py:94-134 | the loops' result is the transformed aspect (or error) that the lemmas above characterise |
| StatefulIngestion.ValidateConfig | metadata-ingestion/src/datahub/ingestion/source/state/stateful_ingestion_base.py:76-83 | an enabled configuration without a provider gets the "datahub" provider with no config; anything else passes unchanged, and only the provider can change |
| StatefulIngestion.ValidateConfigIdempotent | metadata-ingestion/src/datahub/ingestion/source/state/stateful_ingestion_base.py:76-83 | validating a validated configuration changes nothing |
| StatefulIngestion.InitCheckpointingProvider | metadata-ingestion/src/datahub/ingestion/source/state/stateful_ingestion_base.py:136-158 | when stateful ingestion is on, a missing pipeline name and an unregistered provider type are configuration errors (each iff its condition holds), the latter naming the configured type; an enabled configuration with a pipeline name and a registered type creates a provider of that type; when off, nothing is created |
| StatefulIngestion.CheckpointingProvider.constructor | metadata-ingestion/src/datahub/ingestion/source/state/stateful_ingestion_base.py:163-167 | a new provider has the requested type and nothing to commit |
| StatefulIngestion.CollectCheckpointAspects | metadata-ingestion/src/datahub/ingestion/source/state/stateful_ingestion_base.py:299-315 | the collected aspects are keyed by exactly the jobs whose checkpoint is set, converts without raising and yields an aspect, each with that aspect |
| StatefulIngestion.StatefulIngestionSource.constructor | metadata-ingestion/src/datahub/ingestion/source/state/stateful_ingestion_base.py:111-122 | a new source has empty handler and checkpoint maps, and is configured iff stateful ingestion is enabled with a provider |
| StatefulIngestion.StatefulIngestionSource.Create | metadata-ingestion/src/datahub/ingestion/source/state/stateful_ingestion_base.py:111-167 | construction fails exactly with the provider set-up's configuration error; otherwise it yields a fresh source with the given configuration and context, empty handler, last-checkpoint and current-checkpoint maps, configured iff stateful ingestion is enabled with a provider, and any provider is fresh, of the configured type and has nothing to commit |
| StatefulIngestion.StatefulIngestionSource.ConfiguredIffProvider | metadata-ingestion/src/datahub/ingestion/source/state/stateful_ingestion_base.py:196-203 | `IsStatefulIngestionConfigured` (present, enabled and holding a provider) holds exactly when a provider was created, and then stateful ingestion is enabled with a provider configured |
| StatefulIngestion.StatefulIngestionSource.RegisterUsecaseHandler | metadata-ingestion/src/datahub/ingestion/source/state/stateful_ingestion_base.py:184-194 | registration fails iff the job id is taken, leaving the registry unchanged; otherwise the registry gains exactly that entry and every handler stays under its own job id |
| StatefulIngestion.StatefulIngestionSource.CreateCheckpoint | metadata-ingestion/src/datahub/ingestion/source/state/stateful_ingestion_base.py:205-212 | an unregistered job raises; otherwise the job's handler supplies the checkpoint |
| StatefulIngestion.StatefulIngestionSource.IsCheckpointingEnabled | metadata-ingestion/src/datahub/ingestion/source/state/stateful_ingestion_base.py:214-221 | an unregistered job raises; otherwise the job's handler answers |
| StatefulIngestion.StatefulIngestionSource.GetLastCheckpoint | metadata-ingestion/src/datahub/ingestion/source/state/stateful_ingestion_base.py:252-265 | None, with the cache unchanged, when not configured or when old state is ignored; otherwise the cached checkpoint, fetched and cached only on the first call for the job |
| StatefulIngestion.StatefulIngestionSource.GetCurrentCheckpoint | metadata-ingestion/src/datahub/ingestion/source/state/stateful_ingestion_base.py:267-277 | None when not configured; a cached answer is returned unchanged; otherwise an unregistered job raises, and a registered one caches its handler's checkpoint, or None when checkpointing is off for it |
| StatefulIngestion.StatefulIngestionSource.PrepareCheckpointStatesForCommit | metadata-ingestion/src/datahub/ingestion/source/state/stateful_ingestion_base.py:279-321 | nothing changes when not configured, when new state is ignored, or in dry-run or preview mode; otherwise the aspect of every committable job overwrites or joins `state_to_commit`, and the other entries stay |
| GlueSource.CheckDirection | metadata-ingestion/src/datahub/ingestion/source/aws/glue.py:179-185 | the direction is accepted iff its lower-case form is "upstream" or "downstream", and the lower-case form is returned |
| GlueSource.CheckDirectionStable | metadata-ingestion/src/datahub/ingestion/source/aws/glue.py:179-185 | an accepted direction is accepted again unchanged |
| GlueSource.ValidatePlatform | metadata-ingestion/src/datahub/ingestion/source/aws/glue.py:187-203 | a platform is accepted unchanged iff it is missing, empty, "glue" or "athena" |
| GlueSource.Platform | metadata-ingestion/src/datahub/ingestion/source/aws/glue.py:307-318 | the platform is the configured one if non-empty, else the underlying platform if non-empty, else "glue" |
| GlueSource.ValidatedPlatformIsValid | metadata-ingestion/src/datahub/ingestion/source/aws/glue.py:187-203 | when both settings passed their validators, the chosen platform is "glue" or "athena" |
| GlueSource.GetGlueArn | metadata-ingestion/src/datahub/ingestion/source/aws/glue.py:294-300 | a table ARN when a non-empty table is given, otherwise a database ARN, after the region and account prefix |
| GlueSource.GlueArnKind | metadata-ingestion/src/datahub/ingestion/source/aws/glue.py:294-300 | after the prefix, the ARN continues with ":table/" iff a non-empty table was given |
| GlueSource.GenDomainUrn | metadata-ingestion/src/datahub/ingestion/source/aws/glue.py:957-962 | None iff no domain's pattern allows the name; otherwise the urn of the first domain, in configuration order, whose pattern allows it |
| GlueSource.GlueSourceReport.constructor | metadata-ingestion/src/datahub/ingestion/source/aws/glue.py:206-209 | a new report has scanned no table and filtered none |
| GlueSource.GlueSourceReport.ReportTableScanned | metadata-ingestion/src/datahub/ingestion/source/aws/glue.py:211-212 | the scan counter grows by one and the filtered list stays |
| GlueSource.GlueSourceReport.ReportTableDropped | metadata-ingestion/src/datahub/ingestion/source/aws/glue.py:214-215 | the filtered list gains exactly the given table at its end and the counter stays |
| GlueDataflow.NormaliseScriptPath | metadata-ingestion/src/datahub/ingestion/source/aws/glue.py:344-356 | a path whose lower-case form starts with "s3://s3://" loses its first five characters; the (possibly shortened) path is accepted iff it then starts with "s3://", case-sensitively, and is rejected otherwise |
| GlueDataflow.DoubledPrefixRepaired | metadata-ingestion/src/datahub/ingestion/source/aws/glue.py:344-346 | "s3://s3://" followed by a rest becomes "s3://" followed by that rest |
| GlueDataflow.DoubledUpperCasePrefixRejected | metadata-ingestion/src/datahub/ingestion/source/aws/glue.py:344-356 | "S3://S3://" followed by a rest is cut by the case-insensitive test and then rejected by the case-sensitive one |
| GlueDataflow.GetS3Uri | metadata-ingestion/src/datahub/ingestion/source/aws/glue.py:383-390 | the location is `path` if set, else the first element of `paths`; a missing `paths` and an empty one raise |
| GlueDataflow.S3NodeUrn | metadata-ingestion/src/datahub/ingestion/source/aws/glue.py:461-469 | the S3 urn carries the ".format" suffix iff more than one format was seen for the location |
| GlueDataflow.S3NodeUrnSeparatesFormats | metadata-ingestion/src/datahub/ingestion/source/aws/glue.py:461-469 | with an injective urn builder, a location seen in several formats gets equal urns iff the formats print the same, and a location seen in one format gets one urn |
| GlueDataflow.ProcessDataflowNode | metadata-ingestion/src/datahub/ingestion/source/aws/glue.py:420-515 | a Glue table node gets a dataset urn of "database.table"; an S3 node with a location gets the urn `S3NodeUrn` chooses and a new dataset id "NodeType-Id"; an S3 node without a location is skipped; an unsupported connector is skipped when ignored and raises otherwise; a transform node gets a data-job urn of "NodeType-Id"; every processed node starts with empty lists; it raises iff the S3 location raises or an unsupported connector is not ignored, and then with the S3 location's error or the unrecognised-data-object error respectively |
| GlueDataflow.ProcessDataflowNodeAsWritten | metadata-ingestion/src/datahub/ingestion/source/aws/glue.py:452-459 | the code as it stands: an S3 node without a location raises a missing-key error; every other node is processed as above |
| GlueDataflow.MissingS3UriRaisesInsteadOfSkipping | metadata-ingestion/src/datahub/ingestion/source/aws/glue.py:454-459 | an S3 source whose `paths` is [null] makes the code raise, where the intended behaviour skips it |
| GlueDataflow.ProcessNodesKeepsProcessed | metadata-ingestion/src/datahub/ingestion/source/aws/glue.py:541-548 | the node loop raises iff some node raises; otherwise the map is keyed by the ids of exactly the processed nodes, each key holding a node that processed into it |
| GlueDataflow.ProcessNodesLastWins | metadata-ingestion/src/datahub/ingestion/source/aws/glue.py:541-548 | each key holds the node processed last with that id: a later processed node replaces an earlier one, a later skipped node does not |
| GlueDataflow.ProcessNodesNewDatasetIds | metadata-ingestion/src/datahub/ingestion/source/aws/glue.py:541-545 | the new dataset ids are "NodeType-Id" of exactly the nodes that add a dataset, in node order |
| GlueDataflow.WireKeepsNodes | metadata-ingestion/src/datahub/ingestion/source/aws/glue.py:551-577 | the edge pass keeps every node's key, id, type and urn |
| GlueDataflow.WireByNode | metadata-ingestion/src/datahub/ingestion/source/aws/glue.py:551-577 | after the edge pass a node's lists end with, in edge order: the urns of its DataSource predecessors, of its other predecessors, and of its DataSink successors; edges with an unknown endpoint add nothing |
| GlueDataflow.ProcessDataflowGraph | metadata-ingestion/src/datahub/ingestion/source/aws/glue.py:517-579 | the loops' result is the processed, wired node map with the new dataset ids (or the first error) that the lemmas above characterise |

## Left out

- Network, AWS and file I/O: the server fetch, the provider's checkpoint fetch, boto3 calls and the script download. Their results are parameters.
- The clock (`builder.get_sys_time`): the time is a parameter.
- SchemaTerms.AddDatasetSchemaTerms.TransformAspect: one time value serves every field of the aspect. The source reads the clock once per field that gets a fresh stamp, so those stamps may differ there.
- Pattern matching: `KeyValuePattern.value` and `AllowDenyPattern.allowed` are opaque functions.
- Logging, report warnings, and the MCE, workunit and dataset-snapshot construction, including `new_dataset_mces`.
- YAML parsing of DAG node arguments. Arguments arrive parsed as strings, so an argument present with a null value (which Python would print as "None") is not modelled.
- Checkpoint serialisation and `prepare_for_commit`'s own mutation of a checkpoint: the conversion is a function that raises, yields None or yields an aspect.
- The provider registry and `ctx.register_checkpointer`: the registry is a set of type names.
- SchemaTerms.AddDatasetSchemaTerms.ExtendField: aliasing is not modelled. The source extends the list the supplier returned and assigns into the field object it was given. The model works on values, so a caller holding the same list or field does not see the change.
- SchemaTerms.AddDatasetSchemaTerms.TransformAspect: the type assertion on the aspect, the aspect name, and the `field is not None` filter are not modelled. Fields are never None in the model.
- SchemaTerms.AddDatasetSchemaTerms.TransformAspect: the server fetch is a function of the entity urn, so "fetched exactly once under PATCH" is captured only as "the answer for this urn is used".
- GlueSource.CheckDirection: `str.lower` is modelled on ASCII letters only. The same holds for the case-insensitive prefix test in GlueDataflow.NormaliseScriptPath.
- GlueDataflow.S3NodeUrn: `s3_formats` is a `defaultdict`, and reading an absent location inserts an empty set. The model reads an absent location as the empty set and does not change the map.
- GlueDataflow.GetS3Uri: `connection_options` present but null is not modelled. A missing `connection_options` is read as `{}`.
- GlueDataflow.ProcessDataflowGraph: it uses the corrected node processing. An S3 data node without a location is skipped there, where the code raises `KeyError` at glue.py line 456 (see Findings).
- GlueDataflow.ProcessDataflowGraph: the nodes are values in a map that the edge loop reassigns. The source appends in place to the lists of shared node dictionaries. For a self-loop edge the model re-reads the source after updating the target, which gives the same result.
- StatefulIngestion.StatefulIngestionSource.GetLastCheckpoint: exceptions raised by the provider or by the conversion of its answer are not modelled.
- The `bigquery_report.py` report class: it is a plain record with no logic.

## Findings

| source | as written | input that shows it | evidently intended | confidence | as-written member | corrected member |
|---|---|---|---|---|---|---|
| metadata-ingestion/src/datahub/ingestion/source/aws/glue.py:454-459 | the skip branch for an S3 node without a location formats its warning key from `node['Nodetype']`, but the node's key is `NodeType`, so the lookup raises `KeyError` | a `DataSource` node with `connection_type` "s3" and `connection_options` `{"paths": [null]}` | report a warning and skip the node (return None) | not executed; the key spelling differs from every other lookup of the node type | GlueDataflow.ProcessDataflowNodeAsWritten | GlueDataflow.ProcessDataflowNode |
