/** The schema-field glossary-term transformer of the ingestion pipeline.

    For every field of a dataset's schema-metadata aspect the transformer asks
    a term supplier which glossary terms belong to the field's path and
    rewrites the field's `glossaryTerms`.  Under PATCH semantics it first
    fetches the server's copy of the aspect, appends the server-only fields
    and merges each field's terms with the server's terms for the same path.

    The schema classes are values here: the source mutates the field object
    it was given and returns it, which for a single call is the same as
    returning the updated value. */
module SchemaTerms {
  import opened Wrappers

  /** Actor written on an audit stamp the transformer mints itself. */
  const REST_EMITTER_ACTOR: string := "urn:li:corpUser:restEmitter"

  /** A glossary term attached to a field; `urn` identifies the term. */
  datatype GlossaryTermAssociation = GlossaryTermAssociation(urn: string, context: Option<string>)

  datatype AuditStamp = AuditStamp(time: int, actor: string)

  datatype GlossaryTerms = GlossaryTerms(terms: seq<GlossaryTermAssociation>, auditStamp: AuditStamp)

  /** A schema field; `nativeDataType` and `description` stand for the
      attributes the transformer passes through untouched. */
  datatype SchemaField = SchemaField(
    fieldPath: string,
    nativeDataType: string,
    description: Option<string>,
    glossaryTerms: Option<GlossaryTerms>)

  datatype SchemaMetadata = SchemaMetadata(schemaName: string, platform: string, fields: seq<SchemaField>)

  datatype TransformerSemantics = Overwrite | Patch

  /** `get_terms_to_add` is the term supplier: a function of the field path. */
  datatype AddDatasetSchemaTermsConfig = AddDatasetSchemaTermsConfig(
    getTermsToAdd: string -> seq<GlossaryTermAssociation>,
    semantics: TransformerSemantics,
    replaceExisting: bool)

  /** The graph client's schema lookup: the server's aspect for an entity urn, if any. */
  type SchemaFetcher = string -> Option<SchemaMetadata>

  datatype TransformError =
    | GraphClientMissing  // PATCH asserts that the pipeline context has a graph client
    | AspectMissing       // the aspect is None, so reading its `fields` raises

  // ---------------------------------------------------------------------------
  // Helpers on terms and fields

  function Urns(terms: seq<GlossaryTermAssociation>): (r: seq<string>)
    ensures |r| == |terms|
    ensures forall i :: 0 <= i < |terms| ==> r[i] == terms[i].urn
  {
    seq(|terms|, i requires 0 <= i < |terms| => terms[i].urn)
  }

  function FieldPaths(fields: seq<SchemaField>): (r: seq<string>)
    ensures |r| == |fields|
    ensures forall i :: 0 <= i < |fields| ==> r[i] == fields[i].fieldPath
  {
    seq(|fields|, i requires 0 <= i < |fields| => fields[i].fieldPath)
  }

  lemma FieldPathIn(fields: seq<SchemaField>, f: SchemaField)
    requires f in fields
    ensures f.fieldPath in FieldPaths(fields)
  {
    var i :| 0 <= i < |fields| && fields[i] == f;
    assert FieldPaths(fields)[i] == f.fieldPath;
  }

  /** The terms of `allTerms` whose urn the server does not have yet. */
  function PatchDelta(allTerms: seq<GlossaryTermAssociation>, serverUrns: seq<string>): seq<GlossaryTermAssociation>
    decreases |allTerms|
  {
    if allTerms == [] then []
    else
      var init, last := allTerms[..|allTerms| - 1], allTerms[|allTerms| - 1];
      PatchDelta(init, serverUrns) + (if last.urn in serverUrns then [] else [last])
  }

  lemma PatchDeltaSnoc(terms: seq<GlossaryTermAssociation>, t: GlossaryTermAssociation, serverUrns: seq<string>)
    ensures PatchDelta(terms + [t], serverUrns) == PatchDelta(terms, serverUrns) + (if t.urn in serverUrns then [] else [t])
  {
    assert (terms + [t])[..|terms|] == terms;
  }

  /** The patch delta keeps exactly the terms whose urn is not on the server,
      each as often as it occurs. (The order is that of `allTerms`, since
      `PatchDelta` is defined as a filter.) */
  lemma {:induction false} PatchDeltaCounts(allTerms: seq<GlossaryTermAssociation>, serverUrns: seq<string>)
    ensures forall t :: multiset(PatchDelta(allTerms, serverUrns))[t] == if t.urn in serverUrns then 0 else multiset(allTerms)[t]
    ensures forall t :: t in PatchDelta(allTerms, serverUrns) <==> t in allTerms && t.urn !in serverUrns
    decreases |allTerms|
  {
    if allTerms != [] {
      var init, last := allTerms[..|allTerms| - 1], allTerms[|allTerms| - 1];
      assert allTerms == init + [last];
      PatchDeltaCounts(init, serverUrns);
    }
  }

  predicate HasServerTerms(serverField: Option<SchemaField>) {
    serverField.Some? && serverField.value.glossaryTerms.Some?
  }

  /** `server_terms`: the server field's terms, or none. */
  function ServerTerms(serverField: Option<SchemaField>): seq<GlossaryTermAssociation> {
    if HasServerTerms(serverField) then serverField.value.glossaryTerms.value.terms else []
  }

  /** `all_terms`: the computed terms, followed by the field's own terms unless they are replaced. */
  function AllTerms(computed: seq<GlossaryTermAssociation>, field: SchemaField, replaceExisting: bool): seq<GlossaryTermAssociation> {
    if field.glossaryTerms.Some? && !replaceExisting then computed + field.glossaryTerms.value.terms else computed
  }

  /** `terms_to_add`: the patch delta against the server's urns, or all the
      terms when that delta is empty. */
  function TermsToAdd(allTerms: seq<GlossaryTermAssociation>, serverField: Option<SchemaField>): seq<GlossaryTermAssociation> {
    var delta := if HasServerTerms(serverField) then PatchDelta(allTerms, Urns(ServerTerms(serverField))) else [];
    if delta == [] then allTerms else delta
  }

  /** The stamp of the new `glossaryTerms`: the field's own stamp when it had
      terms, otherwise a fresh stamp at `now` by the REST emitter. */
  function NewAuditStamp(field: SchemaField, now: int): AuditStamp {
    if field.glossaryTerms.Some? then field.glossaryTerms.value.auditStamp else AuditStamp(now, REST_EMITTER_ACTOR)
  }

  /** What `extend_field` makes of `field`, given the server's field with the same path. */
  function ExtendedField(config: AddDatasetSchemaTermsConfig, field: SchemaField, serverField: Option<SchemaField>, now: int): SchemaField {
    var computed := config.getTermsToAdd(field.fieldPath);
    if computed == [] then field
    else
      var toAdd := TermsToAdd(AllTerms(computed, field, config.replaceExisting), serverField);
      field.(glossaryTerms := Some(GlossaryTerms(toAdd + ServerTerms(serverField), NewAuditStamp(field, now))))
  }

  // ---------------------------------------------------------------------------
  // The whole field list

  /** `server_field_map`: field path to server field, filled in list order. */
  function FieldMap(fields: seq<SchemaField>): map<string, SchemaField>
    decreases |fields|
  {
    if fields == [] then map[]
    else
      var init, last := fields[..|fields| - 1], fields[|fields| - 1];
      FieldMap(init)[last.fieldPath := last]
  }

  lemma FieldMapSnoc(fields: seq<SchemaField>, f: SchemaField)
    ensures FieldMap(fields + [f]) == FieldMap(fields)[f.fieldPath := f]
  {
    assert (fields + [f])[..|fields|] == fields;
  }

  /** Every path of the list is a key, each key maps to a field of the list
      with that path, and that field is the LAST one with the path. */
  lemma {:induction false} FieldMapLastWins(fields: seq<SchemaField>)
    ensures forall i :: 0 <= i < |fields| ==> fields[i].fieldPath in FieldMap(fields)
    ensures forall p :: p in FieldMap(fields) ==> FieldMap(fields)[p] in fields && FieldMap(fields)[p].fieldPath == p
    ensures forall i :: 0 <= i < |fields| && (forall j :: i < j < |fields| ==> fields[j].fieldPath != fields[i].fieldPath)
              ==> FieldMap(fields)[fields[i].fieldPath] == fields[i]
    decreases |fields|
  {
    if fields != [] {
      var init, last := fields[..|fields| - 1], fields[|fields| - 1];
      assert fields == init + [last];
      FieldMapLastWins(init);
    }
  }

  function Lookup(m: map<string, SchemaField>, path: string): Option<SchemaField> {
    if path in m then Some(m[path]) else None
  }

  /** `server_field_to_add`: the server fields whose path the input does not have. */
  function ServerOnlyFields(inputPaths: seq<string>, serverFields: seq<SchemaField>): seq<SchemaField>
    decreases |serverFields|
  {
    if serverFields == [] then []
    else
      var init, last := serverFields[..|serverFields| - 1], serverFields[|serverFields| - 1];
      ServerOnlyFields(inputPaths, init) + (if last.fieldPath in inputPaths then [] else [last])
  }

  lemma ServerOnlyFieldsSnoc(inputPaths: seq<string>, serverFields: seq<SchemaField>, f: SchemaField)
    ensures ServerOnlyFields(inputPaths, serverFields + [f])
            == ServerOnlyFields(inputPaths, serverFields) + (if f.fieldPath in inputPaths then [] else [f])
  {
    assert (serverFields + [f])[..|serverFields|] == serverFields;
  }

  /** The server-only fields are exactly the server fields whose path the input lacks. */
  lemma {:induction false} ServerOnlyFieldsMembers(inputPaths: seq<string>, serverFields: seq<SchemaField>)
    ensures forall f :: f in ServerOnlyFields(inputPaths, serverFields) <==> f in serverFields && f.fieldPath !in inputPaths
    ensures |ServerOnlyFields(inputPaths, serverFields)| <= |serverFields|
    decreases |serverFields|
  {
    if serverFields != [] {
      var init, last := serverFields[..|serverFields| - 1], serverFields[|serverFields| - 1];
      assert serverFields == init + [last];
      ServerOnlyFieldsMembers(inputPaths, init);
    }
  }

  /** The list comprehension of `transform_aspect`: each field extended with its server field. */
  function ExtendAll(config: AddDatasetSchemaTermsConfig, fields: seq<SchemaField>, serverFieldMap: map<string, SchemaField>, now: int): (r: seq<SchemaField>)
    ensures |r| == |fields|
    ensures forall i :: 0 <= i < |fields| ==> r[i] == ExtendedField(config, fields[i], Lookup(serverFieldMap, fields[i].fieldPath), now)
  {
    seq(|fields|, i requires 0 <= i < |fields| => ExtendedField(config, fields[i], Lookup(serverFieldMap, fields[i].fieldPath), now))
  }

  /** The server's aspect: fetched only under PATCH. */
  function ServerAspect(config: AddDatasetSchemaTermsConfig, graph: Option<SchemaFetcher>, entityUrn: string): Option<SchemaMetadata> {
    if config.semantics == Patch && graph.Some? then graph.value(entityUrn) else None
  }

  function ServerFields(server: Option<SchemaMetadata>): seq<SchemaField> {
    if server.Some? then server.value.fields else []
  }

  /** What `transform_aspect` returns (or raises) for `aspect`. */
  function TransformedAspect(config: AddDatasetSchemaTermsConfig, graph: Option<SchemaFetcher>, entityUrn: string,
                             aspect: Option<SchemaMetadata>, now: int): Result<SchemaMetadata, TransformError>
  {
    if config.semantics == Patch && graph.None? then Failure(GraphClientMissing)
    else if aspect.None? then Failure(AspectMissing)
    else
      var serverFields := ServerFields(ServerAspect(config, graph, entityUrn));
      var input := aspect.value.fields;
      var working := input + ServerOnlyFields(FieldPaths(input), serverFields);
      Success(aspect.value.(fields := ExtendAll(config, working, FieldMap(serverFields), now)))
  }

  // ---------------------------------------------------------------------------
  // What extending one field promises

  /** Only `glossaryTerms` changes, and an empty supplier result changes nothing,
      existing terms included. */
  lemma ExtendedFieldOnlyTouchesTerms(config: AddDatasetSchemaTermsConfig, field: SchemaField, serverField: Option<SchemaField>, now: int)
    ensures ExtendedField(config, field, serverField, now) == field.(glossaryTerms := ExtendedField(config, field, serverField, now).glossaryTerms)
    ensures config.getTermsToAdd(field.fieldPath) == [] ==> ExtendedField(config, field, serverField, now) == field
  {
  }

  /** The field's own stamp survives whenever it had terms, even when they are
      replaced; only a field without terms gets a fresh REST-emitter stamp. */
  lemma ExtendedFieldAuditStamp(config: AddDatasetSchemaTermsConfig, field: SchemaField, serverField: Option<SchemaField>, now: int)
    requires config.getTermsToAdd(field.fieldPath) != []
    ensures ExtendedField(config, field, serverField, now).glossaryTerms.Some?
    ensures field.glossaryTerms.Some? ==>
              ExtendedField(config, field, serverField, now).glossaryTerms.value.auditStamp == field.glossaryTerms.value.auditStamp
    ensures field.glossaryTerms.None? ==>
              ExtendedField(config, field, serverField, now).glossaryTerms.value.auditStamp == AuditStamp(now, REST_EMITTER_ACTOR)
  {
  }

  /** Without server terms the list is the computed terms, followed by the
      field's existing terms unless `replace_existing` drops them. */
  lemma ExtendedFieldWithoutServerTerms(config: AddDatasetSchemaTermsConfig, field: SchemaField, serverField: Option<SchemaField>, now: int)
    requires config.getTermsToAdd(field.fieldPath) != [] && !HasServerTerms(serverField)
    ensures ExtendedField(config, field, serverField, now).glossaryTerms.Some?
    ensures ExtendedField(config, field, serverField, now).glossaryTerms.value.terms
            == config.getTermsToAdd(field.fieldPath)
               + (if field.glossaryTerms.Some? && !config.replaceExisting then field.glossaryTerms.value.terms else [])
  {
  }

  /** Against server terms, when some desired term is new to the server: the
      list is the new terms, in their order, followed by the server's terms,
      and the new part holds exactly the desired terms the server lacks. */
  lemma ExtendedFieldPatchDelta(config: AddDatasetSchemaTermsConfig, field: SchemaField, serverField: Option<SchemaField>, now: int)
    requires config.getTermsToAdd(field.fieldPath) != [] && HasServerTerms(serverField)
    requires exists t :: t in AllTerms(config.getTermsToAdd(field.fieldPath), field, config.replaceExisting)
                         && t.urn !in Urns(ServerTerms(serverField))
    ensures ExtendedField(config, field, serverField, now).glossaryTerms.Some?
    ensures var desired := AllTerms(config.getTermsToAdd(field.fieldPath), field, config.replaceExisting);
            var terms := ExtendedField(config, field, serverField, now).glossaryTerms.value.terms;
            && terms == PatchDelta(desired, Urns(ServerTerms(serverField))) + ServerTerms(serverField)
            && forall t :: t in terms[..|terms| - |ServerTerms(serverField)|] <==>
                             t in desired && t.urn !in Urns(ServerTerms(serverField))
  {
    var desired := AllTerms(config.getTermsToAdd(field.fieldPath), field, config.replaceExisting);
    var urns := Urns(ServerTerms(serverField));
    PatchDeltaCounts(desired, urns);
    var t :| t in desired && t.urn !in urns;
    assert t in PatchDelta(desired, urns);
    var terms := ExtendedField(config, field, serverField, now).glossaryTerms.value.terms;
    assert terms[..|terms| - |ServerTerms(serverField)|] == PatchDelta(desired, urns);
  }

  /** The fallback: when every desired term is already on the server, the whole
      desired list is added again in front of the server's terms. */
  lemma ExtendedFieldFallback(config: AddDatasetSchemaTermsConfig, field: SchemaField, serverField: Option<SchemaField>, now: int)
    requires config.getTermsToAdd(field.fieldPath) != [] && HasServerTerms(serverField)
    requires forall t :: t in AllTerms(config.getTermsToAdd(field.fieldPath), field, config.replaceExisting)
                         ==> t.urn in Urns(ServerTerms(serverField))
    ensures ExtendedField(config, field, serverField, now).glossaryTerms.Some?
    ensures ExtendedField(config, field, serverField, now).glossaryTerms.value.terms
            == AllTerms(config.getTermsToAdd(field.fieldPath), field, config.replaceExisting) + ServerTerms(serverField)
  {
    var desired := AllTerms(config.getTermsToAdd(field.fieldPath), field, config.replaceExisting);
    var urns := Urns(ServerTerms(serverField));
    PatchDeltaCounts(desired, urns);
    assert multiset(PatchDelta(desired, urns)) == multiset{};
  }

  /** With `replace_existing`, extending an already extended field changes nothing. */
  lemma ExtendedFieldReplaceIdempotent(config: AddDatasetSchemaTermsConfig, field: SchemaField, serverField: Option<SchemaField>,
                                       now: int, later: int)
    requires config.replaceExisting
    ensures ExtendedField(config, ExtendedField(config, field, serverField, now), serverField, later)
            == ExtendedField(config, field, serverField, now)
  {
  }

  /** Desired [T1, T2], server [T1], no local terms: [T2, T1] with a fresh stamp. */
  lemma NewTermComesBeforeServerTerm(now: int, serverStamp: AuditStamp)
    ensures var t1 := GlossaryTermAssociation("urn:li:glossaryTerm:T1", None);
            var t2 := GlossaryTermAssociation("urn:li:glossaryTerm:T2", None);
            var config := AddDatasetSchemaTermsConfig(path => [t1, t2], Patch, false);
            var server := SchemaField("user.email", "string", None, Some(GlossaryTerms([t1], serverStamp)));
            ExtendedField(config, SchemaField("user.email", "string", None, None), Some(server), now).glossaryTerms
            == Some(GlossaryTerms([t2, t1], AuditStamp(now, REST_EMITTER_ACTOR)))
  {
    var t1 := GlossaryTermAssociation("urn:li:glossaryTerm:T1", None);
    var t2 := GlossaryTermAssociation("urn:li:glossaryTerm:T2", None);
    assert t2.urn[21] != t1.urn[21];
    assert Urns([t1]) == [t1.urn];
    PatchDeltaSnoc([], t1, [t1.urn]);
    PatchDeltaSnoc([t1], t2, [t1.urn]);
    assert [] + [t1] == [t1] && [t1] + [t2] == [t1, t2];
    assert PatchDelta([t1, t2], [t1.urn]) == [t2];
    var server := SchemaField("user.email", "string", None, Some(GlossaryTerms([t1], serverStamp)));
    assert ServerTerms(Some(server)) == [t1];
    assert TermsToAdd([t1, t2], Some(server)) == [t2];
    assert [t2] + [t1] == [t2, t1];
  }

  /** Desired [T1, T2] and no server field: exactly [T1, T2]. */
  lemma NoServerFieldAddsAllDesired(now: int)
    ensures var t1 := GlossaryTermAssociation("urn:li:glossaryTerm:T1", None);
            var t2 := GlossaryTermAssociation("urn:li:glossaryTerm:T2", None);
            var config := AddDatasetSchemaTermsConfig(path => [t1, t2], Patch, false);
            ExtendedField(config, SchemaField("user.email", "string", None, None), None, now).glossaryTerms
            == Some(GlossaryTerms([t1, t2], AuditStamp(now, REST_EMITTER_ACTOR)))
  {
    var t1 := GlossaryTermAssociation("urn:li:glossaryTerm:T1", None);
    var t2 := GlossaryTermAssociation("urn:li:glossaryTerm:T2", None);
    assert [t1, t2] + [] == [t1, t2];
  }

  /** Existing [T3] kept, desired [T1], no server: [T1, T3] under the old stamp. */
  lemma ExistingTermsFollowComputedOnes(stamp: AuditStamp, now: int)
    ensures var t1 := GlossaryTermAssociation("urn:li:glossaryTerm:T1", None);
            var t3 := GlossaryTermAssociation("urn:li:glossaryTerm:T3", None);
            var config := AddDatasetSchemaTermsConfig(path => [t1], Patch, false);
            ExtendedField(config, SchemaField("user.email", "string", None, Some(GlossaryTerms([t3], stamp))), None, now).glossaryTerms
            == Some(GlossaryTerms([t1, t3], stamp))
  {
    var t1 := GlossaryTermAssociation("urn:li:glossaryTerm:T1", None);
    var t3 := GlossaryTermAssociation("urn:li:glossaryTerm:T3", None);
    assert [t1] + [t3] + [] == [t1, t3];
  }

  /** The merge does not remove duplicates: desired [T1] against server [T1]
      falls back to the full desired list and yields [T1, T1]. */
  lemma FullOverlapDuplicatesTerm(now: int, serverStamp: AuditStamp)
    ensures var t1 := GlossaryTermAssociation("urn:li:glossaryTerm:T1", None);
            var config := AddDatasetSchemaTermsConfig(path => [t1], Patch, false);
            var server := SchemaField("user.email", "string", None, Some(GlossaryTerms([t1], serverStamp)));
            ExtendedField(config, SchemaField("user.email", "string", None, None), Some(server), now).glossaryTerms.value.terms
            == [t1, t1]
  {
    var t1 := GlossaryTermAssociation("urn:li:glossaryTerm:T1", None);
    assert Urns([t1]) == [t1.urn];
    PatchDeltaSnoc([], t1, [t1.urn]);
    assert [] + [t1] == [t1];
    assert PatchDelta([t1], [t1.urn]) == [];
  }

  /** Keeping existing terms is not idempotent: a second run appends the terms again. */
  lemma KeepingExistingTermsAccumulates(now: int, later: int)
    ensures var t1 := GlossaryTermAssociation("urn:li:glossaryTerm:T1", None);
            var config := AddDatasetSchemaTermsConfig(path => [t1], Overwrite, false);
            var once := ExtendedField(config, SchemaField("id", "int", None, None), None, now);
            && once.glossaryTerms.value.terms == [t1]
            && ExtendedField(config, once, None, later).glossaryTerms.value.terms == [t1, t1]
  {
  }

  // ---------------------------------------------------------------------------
  // What transforming an aspect promises

  /** PATCH without a graph client is an error, whatever the aspect. */
  lemma PatchRequiresGraphClient(config: AddDatasetSchemaTermsConfig, entityUrn: string, aspect: Option<SchemaMetadata>, now: int)
    requires config.semantics == Patch
    ensures TransformedAspect(config, None, entityUrn, aspect, now) == Failure(GraphClientMissing)
  {
  }

  /** PATCH never drops a field: the result is the input fields, then the
      server-only fields in server order, each extended with the server field
      of its path; every input path and every server path is in the result. */
  lemma {:induction false} PatchKeepsEveryField(config: AddDatasetSchemaTermsConfig, graph: Option<SchemaFetcher>,
                                                entityUrn: string, aspect: Option<SchemaMetadata>, now: int)
    requires config.semantics == Patch && graph.Some? && aspect.Some?
    ensures TransformedAspect(config, graph, entityUrn, aspect, now).Success?
    ensures var input := aspect.value.fields;
            var server := ServerFields(graph.value(entityUrn));
            var out := TransformedAspect(config, graph, entityUrn, aspect, now).value.fields;
            var extra := ServerOnlyFields(FieldPaths(input), server);
            && out == ExtendAll(config, input, FieldMap(server), now) + ExtendAll(config, extra, FieldMap(server), now)
            && (forall f :: f in input ==> f.fieldPath in FieldPaths(out))
            && (forall f :: f in server ==> f.fieldPath in FieldPaths(out))
  {
    var input := aspect.value.fields;
    var server := ServerFields(graph.value(entityUrn));
    var extra := ServerOnlyFields(FieldPaths(input), server);
    var out := TransformedAspect(config, graph, entityUrn, aspect, now).value.fields;
    assert out == ExtendAll(config, input + extra, FieldMap(server), now);
    ExtendAllAppend(config, input, extra, FieldMap(server), now);
    ExtendAllKeepsPaths(config, input + extra, FieldMap(server), now);
    assert FieldPaths(input + extra) == FieldPaths(input) + FieldPaths(extra);
    forall f | f in input
      ensures f.fieldPath in FieldPaths(out)
    {
      FieldPathIn(input, f);
    }
    ServerOnlyFieldsMembers(FieldPaths(input), server);
    forall f | f in server
      ensures f.fieldPath in FieldPaths(out)
    {
      if f.fieldPath !in FieldPaths(input) {
        FieldPathIn(extra, f);
      }
    }
  }

  /** Extending a concatenation extends each part. */
  lemma ExtendAllAppend(config: AddDatasetSchemaTermsConfig, a: seq<SchemaField>, b: seq<SchemaField>,
                        serverFieldMap: map<string, SchemaField>, now: int)
    ensures ExtendAll(config, a + b, serverFieldMap, now)
            == ExtendAll(config, a, serverFieldMap, now) + ExtendAll(config, b, serverFieldMap, now)
  {
    assert forall k :: 0 <= k < |b| ==> (a + b)[|a| + k] == b[k];
  }

  lemma ExtendAllKeepsPaths(config: AddDatasetSchemaTermsConfig, fields: seq<SchemaField>, serverFieldMap: map<string, SchemaField>, now: int)
    ensures FieldPaths(ExtendAll(config, fields, serverFieldMap, now)) == FieldPaths(fields)
  {
  }

  /** Under OVERWRITE the graph client is not consulted: the result keeps the
      input's length and order, each field extended with no server field, and
      the aspect's other attributes. */
  lemma OverwriteIgnoresServer(config: AddDatasetSchemaTermsConfig, graph: Option<SchemaFetcher>,
                               entityUrn: string, aspect: Option<SchemaMetadata>, now: int)
    requires config.semantics == Overwrite && aspect.Some?
    ensures TransformedAspect(config, graph, entityUrn, aspect, now).Success?
    ensures var out := TransformedAspect(config, graph, entityUrn, aspect, now).value;
            && out == aspect.value.(fields := out.fields)
            && |out.fields| == |aspect.value.fields|
            && forall i :: 0 <= i < |out.fields| ==> out.fields[i] == ExtendedField(config, aspect.value.fields[i], None, now)
  {
    assert ServerOnlyFields(FieldPaths(aspect.value.fields), []) == [];
    assert aspect.value.fields + [] == aspect.value.fields;
  }

  /** Under OVERWRITE with `replace_existing`, transforming the result again changes nothing. */
  lemma OverwriteReplaceIdempotent(config: AddDatasetSchemaTermsConfig, graph: Option<SchemaFetcher>,
                                   entityUrn: string, aspect: Option<SchemaMetadata>, now: int, later: int)
    requires config.semantics == Overwrite && config.replaceExisting && aspect.Some?
    ensures TransformedAspect(config, graph, entityUrn, aspect, now).Success?
    ensures var once := TransformedAspect(config, graph, entityUrn, aspect, now).value;
            TransformedAspect(config, graph, entityUrn, Some(once), later) == Success(once)
  {
    OverwriteIgnoresServer(config, graph, entityUrn, aspect, now);
    var once := TransformedAspect(config, graph, entityUrn, aspect, now).value;
    OverwriteIgnoresServer(config, graph, entityUrn, Some(once), later);
    var twice := TransformedAspect(config, graph, entityUrn, Some(once), later).value;
    forall i | 0 <= i < |once.fields|
      ensures twice.fields[i] == once.fields[i]
    {
      ExtendedFieldReplaceIdempotent(config, aspect.value.fields[i], None, now, later);
    }
    assert twice.fields == once.fields;
  }

  // ---------------------------------------------------------------------------
  // The pattern supplier

  /** `PatternDatasetTermsConfig`; `termPattern` is `KeyValuePattern.value`, the urns matched for a path. */
  datatype PatternDatasetTermsConfig = PatternDatasetTermsConfig(
    termPattern: string -> seq<string>,
    semantics: TransformerSemantics,
    replaceExisting: bool)

  /** The supplier lambda: one association per matched urn. */
  function PatternTerms(termPattern: string -> seq<string>, path: string): (r: seq<GlossaryTermAssociation>)
    ensures Urns(r) == termPattern(path)
    ensures forall i :: 0 <= i < |r| ==> r[i].context.None?
  {
    var urns := termPattern(path);
    seq(|urns|, i requires 0 <= i < |urns| => GlossaryTermAssociation(urns[i], None))
  }

  /** The configuration `PatternAddDatasetSchemaTerms` hands to its base class. */
  function PatternConfig(patternConfig: PatternDatasetTermsConfig): (c: AddDatasetSchemaTermsConfig)
    ensures c.semantics == patternConfig.semantics && c.replaceExisting == patternConfig.replaceExisting
    ensures forall path :: Urns(c.getTermsToAdd(path)) == patternConfig.termPattern(path)
    ensures forall path, i :: 0 <= i < |c.getTermsToAdd(path)| ==> c.getTermsToAdd(path)[i].context.None?
    ensures forall path :: c.getTermsToAdd(path) == PatternTerms(patternConfig.termPattern, path)
  {
    AddDatasetSchemaTermsConfig(path => PatternTerms(patternConfig.termPattern, path),
                                patternConfig.semantics, patternConfig.replaceExisting)
  }

  // ---------------------------------------------------------------------------
  // The transformer

  class AddDatasetSchemaTerms {
    const config: AddDatasetSchemaTermsConfig
    /** `ctx.graph`, reduced to its schema lookup; None when the pipeline has no graph client. */
    const graph: Option<SchemaFetcher>

    constructor (config: AddDatasetSchemaTermsConfig, graph: Option<SchemaFetcher>)
      ensures this.config == config && this.graph == graph
    {
      this.config := config;
      this.graph := graph;
    }

    /** `PatternAddDatasetSchemaTerms.__init__`. */
    constructor FromPattern(patternConfig: PatternDatasetTermsConfig, graph: Option<SchemaFetcher>)
      ensures config == PatternConfig(patternConfig) && this.graph == graph
    {
      config := PatternConfig(patternConfig);
      this.graph := graph;
    }

    method ExtendField(schemaField: SchemaField, serverField: Option<SchemaField>, now: int) returns (r: SchemaField)
      ensures r == ExtendedField(config, schemaField, serverField, now)
    {
      var allTerms := config.getTermsToAdd(schemaField.fieldPath);
      if |allTerms| == 0 {
        return schemaField;
      }
      if schemaField.glossaryTerms.Some? && !config.replaceExisting {
        allTerms := allTerms + schemaField.glossaryTerms.value.terms;
      }
      var termsToAdd: seq<GlossaryTermAssociation> := [];
      var serverTerms: seq<GlossaryTermAssociation> := [];
      if serverField.Some? && serverField.value.glossaryTerms.Some? {
        serverTerms := serverField.value.glossaryTerms.value.terms;
        var serverTermUrns := Urns(serverTerms);
        var i := 0;
        while i < |allTerms|
          invariant 0 <= i <= |allTerms|
          invariant termsToAdd == PatchDelta(allTerms[..i], serverTermUrns)
        {
          assert allTerms[..i + 1] == allTerms[..i] + [allTerms[i]];
          PatchDeltaSnoc(allTerms[..i], allTerms[i], serverTermUrns);
          if allTerms[i].urn !in serverTermUrns {
            termsToAdd := termsToAdd + [allTerms[i]];
          }
          i := i + 1;
        }
        assert allTerms[..i] == allTerms;
      }
      if |termsToAdd| == 0 {
        termsToAdd := allTerms;
      }
      var auditStamp := if schemaField.glossaryTerms.Some? then schemaField.glossaryTerms.value.auditStamp
                        else AuditStamp(now, REST_EMITTER_ACTOR);
      r := schemaField.(glossaryTerms := Some(GlossaryTerms(termsToAdd + serverTerms, auditStamp)));
    }

    method TransformAspect(entityUrn: string, aspect: Option<SchemaMetadata>, now: int) returns (r: Result<SchemaMetadata, TransformError>)
      ensures r == TransformedAspect(config, graph, entityUrn, aspect, now)
    {
      var serverFieldMap: map<string, SchemaField> := map[];
      var serverFields: seq<SchemaField> := [];
      if config.semantics == Patch {
        if graph.None? {
          return Failure(GraphClientMissing);
        }
        var serverAspect := graph.value(entityUrn);
        if serverAspect.Some? {
          serverFields := serverAspect.value.fields;
        }
      }
      if aspect.None? {
        return Failure(AspectMissing);
      }
      var fields := aspect.value.fields;
      var inputFieldPath := FieldPaths(fields);
      var serverFieldToAdd: seq<SchemaField> := [];
      var i := 0;
      while i < |serverFields|
        invariant 0 <= i <= |serverFields|
        invariant serverFieldMap == FieldMap(serverFields[..i])
        invariant serverFieldToAdd == ServerOnlyFields(inputFieldPath, serverFields[..i])
      {
        var field := serverFields[i];
        assert serverFields[..i + 1] == serverFields[..i] + [field];
        FieldMapSnoc(serverFields[..i], field);
        ServerOnlyFieldsSnoc(inputFieldPath, serverFields[..i], field);
        serverFieldMap := serverFieldMap[field.fieldPath := field];
        if field.fieldPath !in inputFieldPath {
          serverFieldToAdd := serverFieldToAdd + [field];
        }
        i := i + 1;
      }
      assert serverFields[..i] == serverFields;
      fields := fields + serverFieldToAdd;

      var extended: seq<SchemaField> := [];
      var j := 0;
      while j < |fields|
        invariant 0 <= j <= |fields|
        invariant extended == ExtendAll(config, fields[..j], serverFieldMap, now)
      {
        var f := ExtendField(fields[j], Lookup(serverFieldMap, fields[j].fieldPath), now);
        extended := extended + [f];
        j := j + 1;
      }
      assert fields[..j] == fields;
      r := Success(aspect.value.(fields := extended));
    }
  }
}
