/** The configuration checks and small helpers of the AWS Glue source:
    the lineage-direction and platform validators, the platform precedence,
    Glue ARNs, the domain chosen for a table, and the scan report. */
module GlueSource {
  import opened Wrappers

  const DEFAULT_PLATFORM: string := "glue"
  const VALID_PLATFORMS: seq<string> := [DEFAULT_PLATFORM, "athena"]

  datatype ConfigurationError = InvalidLineageDirection | InvalidPlatform(value: string)

  /** Python's `str.lower` on ASCII letters; other characters are kept. */
  function LowerChar(c: char): char {
    if 'A' <= c <= 'Z' then (c as int + 32) as char else c
  }

  function Lower(s: string): (r: string)
    ensures |r| == |s|
    ensures forall i :: 0 <= i < |s| ==> r[i] == LowerChar(s[i])
  {
    seq(|s|, i requires 0 <= i < |s| => LowerChar(s[i]))
  }

  lemma LowerIdempotent(s: string)
    ensures Lower(Lower(s)) == Lower(s)
  {
  }

  /** The `glue_s3_lineage_direction` validator: the lower-cased value when it
      is "upstream" or "downstream", a configuration error otherwise. */
  function CheckDirection(v: string): (r: Result<string, ConfigurationError>)
    ensures r.Success? <==> Lower(v) == "upstream" || Lower(v) == "downstream"
    ensures r.Success? ==> r.value == Lower(v)
    ensures r.Failure? ==> r.error == InvalidLineageDirection
  {
    if Lower(v) !in ["upstream", "downstream"] then Failure(InvalidLineageDirection)
    else Success(Lower(v))
  }

  /** A direction the validator accepted passes it again unchanged. */
  lemma CheckDirectionStable(v: string)
    requires CheckDirection(v).Success?
    ensures CheckDirection(CheckDirection(v).value) == CheckDirection(v)
  {
    LowerIdempotent(v);
  }

  /** The `platform` and `underlying_platform` validators: an empty or
      missing value, or one of the valid platforms, passes unchanged. */
  function ValidatePlatform(v: Option<string>): (r: Result<Option<string>, ConfigurationError>)
    ensures r.Success? <==> v.None? || v.value == "" || v.value in VALID_PLATFORMS
    ensures r.Success? ==> r.value == v
    ensures r.Failure? ==> r.error == InvalidPlatform(v.value)
  {
    if v.None? || v.value == "" || v.value in VALID_PLATFORMS then Success(v)
    else Failure(InvalidPlatform(v.value))
  }

  /** A truthy optional string: present and not empty. */
  predicate Truthy(v: Option<string>) {
    v.Some? && v.value != ""
  }

  /** The `platform` property: the configured platform, else the deprecated
      `underlying_platform`, else "glue". */
  function Platform(platform: Option<string>, underlyingPlatform: Option<string>): (r: string)
    ensures r != ""
    ensures Truthy(platform) ==> r == platform.value
    ensures !Truthy(platform) && Truthy(underlyingPlatform) ==> r == underlyingPlatform.value
    ensures !Truthy(platform) && !Truthy(underlyingPlatform) ==> r == DEFAULT_PLATFORM
  {
    if Truthy(platform) then platform.value
    else if Truthy(underlyingPlatform) then underlyingPlatform.value
    else DEFAULT_PLATFORM
  }

  /** When both settings passed their validators, the platform is a valid one. */
  lemma ValidatedPlatformIsValid(platform: Option<string>, underlyingPlatform: Option<string>)
    requires ValidatePlatform(platform).Success? && ValidatePlatform(underlyingPlatform).Success?
    ensures Platform(platform, underlyingPlatform) in VALID_PLATFORMS
  {
  }

  /** `get_glue_arn`: a table ARN when a (non-empty) table name is given,
      otherwise a database ARN. */
  function GetGlueArn(region: string, accountId: string, database: string, table: Option<string>): (r: string)
    ensures var prefix := "arn:aws:glue:" + region + ":" + accountId;
            && (Truthy(table) ==> r == prefix + ":table/" + database + "/" + table.value)
            && (!Truthy(table) ==> r == prefix + ":database/" + database)
  {
    var prefix := "arn:aws:glue:" + region + ":" + accountId;
    if Truthy(table) then prefix + ":table/" + database + "/" + table.value
    else prefix + ":database/" + database
  }

  /** The kind of ARN can be read back: after the same prefix a table ARN
      continues with ":table/" and a database ARN with ":database/". */
  lemma GlueArnKind(region: string, accountId: string, database: string, table: Option<string>)
    ensures var n := |"arn:aws:glue:" + region + ":" + accountId|;
            var arn := GetGlueArn(region, accountId, database, table);
            && |arn| > n + 6
            && (Truthy(table) <==> arn[n..n + 7] == ":table/")
  {
    var prefix := "arn:aws:glue:" + region + ":" + accountId;
    var n := |prefix|;
    var arn := GetGlueArn(region, accountId, database, table);
    if Truthy(table) {
      assert arn == prefix + ":table/" + (database + "/" + table.value);
      assert arn[n..n + 7] == ":table/";
    } else {
      assert arn == prefix + ":database/" + database;
      assert arn[n + 1] == 'd';
    }
  }

  /** An AllowDenyPattern; its regular-expression matching enters as `allowed`. */
  datatype AllowDenyPattern = AllowDenyPattern(allow: seq<string>, deny: seq<string>)

  /** `_gen_domain_urn`: the urn of the first domain, in configuration order,
      whose pattern allows the name, or None. */
  method GenDomainUrn(domains: seq<(string, AllowDenyPattern)>, allowed: (AllowDenyPattern, string) -> bool,
                      makeDomainUrn: string -> string, datasetName: string)
    returns (r: Option<string>)
    ensures r.None? <==> forall i :: 0 <= i < |domains| ==> !allowed(domains[i].1, datasetName)
    ensures r.Some? ==> exists i :: 0 <= i < |domains| && allowed(domains[i].1, datasetName)
                                    && r.value == makeDomainUrn(domains[i].0)
                                    && forall k :: 0 <= k < i ==> !allowed(domains[k].1, datasetName)
  {
    var i := 0;
    while i < |domains|
      invariant 0 <= i <= |domains|
      invariant forall k :: 0 <= k < i ==> !allowed(domains[k].1, datasetName)
    {
      if allowed(domains[i].1, datasetName) {
        return Some(makeDomainUrn(domains[i].0));
      }
      i := i + 1;
    }
    return None;
  }

  /** The Glue-specific counters of the source report. */
  class GlueSourceReport {
    var tablesScanned: nat
    var filtered: seq<string>

    constructor ()
      ensures tablesScanned == 0 && filtered == []
    {
      tablesScanned := 0;
      filtered := [];
    }

    method ReportTableScanned()
      modifies this
      ensures tablesScanned == old(tablesScanned) + 1 && filtered == old(filtered)
    {
      tablesScanned := tablesScanned + 1;
    }

    method ReportTableDropped(table: string)
      modifies this
      ensures filtered == old(filtered) + [table] && tablesScanned == old(tablesScanned)
    {
      filtered := filtered + [table];
    }
  }
}
