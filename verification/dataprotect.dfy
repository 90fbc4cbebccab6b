/** The hardcoded data protection rules and the data resource impact check. */
module DataProtection {
  import opened GoStrings
  import opened Types
  import opened DataResources
  import opened Targets
  import Glob

  /** Resource kinds that no delete tool may touch. */
  const PROTECTED_KINDS: set<string> := {
    "persistentvolumeclaim", "persistentvolume", "pvc", "pv", "namespace", "ns",
    "cluster", "pooler", "scheduledbackup", "backup",
    "postgrescluster", "mysqlcluster", "redisfailover", "cassandradatacenter",
    "elasticsearchcluster", "kafkacluster", "mongodbcommunity"
  }

  /** Tool pattern and target pattern pairs that are always refused. */
  const PROTECTED_PATTERNS: seq<(string, string)> := [
    ("kubectl.delete", "pvc*"),
    ("kubectl.delete", "pv*"),
    ("kubectl.delete", "persistentvolumeclaim*"),
    ("kubectl.delete", "persistentvolume*"),
    ("kubectl.delete", "namespace*"),
    ("kubectl.delete", "ns*"),
    ("kubectl.delete", "cluster*"),
    ("kubectl.patch", "*reclaimPolicy*Delete*"),
    ("http.delete", "*s3*"),
    ("http.delete", "*minio*"),
    ("mcp.*.delete", "*"),
    ("sql.*", "*drop*"),
    ("sql.*", "*truncate*"),
    ("sql.execute", "*delete from*")
  ]

  /** SQL fragments that are refused anywhere in the call. */
  const SQL_DESTRUCTIVE: seq<string> := ["drop database", "drop table", "truncate ", "delete from "]

  predicate IsDeleteTool(tool: string) {
    var lower := ToLower(tool);
    Contains(lower, "delete") || Contains(lower, "remove") || Contains(lower, "destroy") || Contains(lower, "purge")
  }

  predicate MatchesPattern(pattern: (string, string), tool: string, target: string) {
    && Glob.EngineMatch(ToLower(pattern.0), ToLower(tool))
    && Glob.EngineMatch(ToLower(pattern.1), ToLower(target))
  }

  predicate HoldsOne(text: string, fragments: seq<string>) {
    exists i :: 0 <= i < |fragments| && Contains(text, fragments[i])
  }

  /** The rules: protected kinds, protected patterns and SQL fragments. */
  datatype Rules = Rules(kinds: set<string>, patterns: seq<(string, string)>, sql: seq<string>)
  {
    /** The calls the rules refuse. */
    predicate Refuse(tool: string, target: string) {
      || (IsDeleteTool(tool) && ToLower(ResourceKindOf(target)) in kinds)
      || (exists i {:trigger MatchesPattern(patterns[i], tool, target)} ::
            0 <= i < |patterns| && MatchesPattern(patterns[i], tool, target))
      || HoldsOne(ToLower(tool + " " + target), sql)
    }

    method CheckPatterns(tool: string, target: string) returns (found: bool)
      ensures found <==> exists i {:trigger MatchesPattern(patterns[i], tool, target)} ::
                0 <= i < |patterns| && MatchesPattern(patterns[i], tool, target)
    {
      for i := 0 to |patterns|
        invariant forall j :: 0 <= j < i ==> !MatchesPattern(patterns[j], tool, target)
      {
        var toolMatches := Glob.MatchGlob(ToLower(patterns[i].0), ToLower(tool));
        if toolMatches {
          var targetMatches := Glob.MatchGlob(ToLower(patterns[i].1), ToLower(target));
          if targetMatches {
            assert MatchesPattern(patterns[i], tool, target);
            return true;
          }
        }
      }
      return false;
    }

    method CheckSql(lower: string) returns (found: bool)
      ensures found == HoldsOne(lower, sql)
    {
      for i := 0 to |sql|
        invariant forall j :: 0 <= j < i ==> !Contains(lower, sql[j])
      {
        if Contains(lower, sql[i]) {
          return true;
        }
      }
      return false;
    }

    /** checkDataProtection. */
    method Check(tool: string, target: string) returns (blocked: bool)
      ensures blocked == Refuse(tool, target)
    {
      if IsDeleteTool(tool) {
        if ToLower(ResourceKindOf(target)) in kinds {
          return true;
        }
      }
      blocked := CheckPatterns(tool, target);
      if !blocked {
        blocked := CheckSql(ToLower(tool + " " + target));
      }
    }
  }

  const RULES: Rules := Rules(PROTECTED_KINDS, PROTECTED_PATTERNS, SQL_DESTRUCTIVE)

  /** The hardcoded rules refuse the call. */
  predicate Refuses(tool: string, target: string) {
    RULES.Refuse(tool, target)
  }

  method CheckDataProtection(tool: string, target: string) returns (blocked: bool)
    ensures blocked == Refuses(tool, target)
  {
    blocked := RULES.Check(tool, target);
  }

  /** checkDataResourceImpact. */
  predicate Impacts(target: string, tier: Tier, idx: DataIndex) {
    var ns := NamespaceOf(target);
    var kind := ResourceKindOf(target);
    var name := ResourceNameOf(target);
    && tier != Read
    && ns != ""
    && (|| (idx.HasDataInNamespace(ns) && tier == DestructiveMutation)
        || (kind != "" && name != "" && idx.IsDataResource(kind, ns, name)))
  }
}
