/** The resource names kubectl tools understand. */
module Kubectl {
  import opened GoStrings

  datatype GVR = GVR(group: string, version: string, resource: string)

  const NAMESPACE: set<string> := {"namespaces", "namespace", "ns"}
  const CLAIM: set<string> := {"persistentvolumeclaims", "persistentvolumeclaim", "pvc"}
  const VOLUME: set<string> := {"persistentvolumes", "persistentvolume", "pv"}
  const CLUSTER: set<string> :=
    {"clusters", "cluster", "clusters.postgresql.cnpg.io", "cluster.postgresql.cnpg.io"}

  /** resourceToGVR; its cases are disjoint, the data resources are taken first here. */
  function ResourceToGVR(resource: string): GVR {
    var r := ToLower(resource);
    if r in NAMESPACE then GVR("", "v1", "namespaces")
    else if r in CLAIM then GVR("", "v1", "persistentvolumeclaims")
    else if r in VOLUME then GVR("", "v1", "persistentvolumes")
    else if r in CLUSTER then GVR("postgresql.cnpg.io", "v1", "clusters")
    else OtherGVR(r)
  }

  /** The other core, Argo CD, Legator and CNPG resources. */
  function OtherGVR(r: string): (gvr: GVR)
    requires r !in NAMESPACE && r !in CLAIM && r !in VOLUME && r !in CLUSTER
    ensures !HoldsData(gvr)
  {
    if r in {"pods", "pod", "po"} then GVR("", "v1", "pods")
    else if r in {"services", "service", "svc"} then GVR("", "v1", "services")
    else if r in {"deployments", "deployment", "deploy"} then GVR("apps", "v1", "deployments")
    else if r in {"statefulsets", "statefulset", "sts"} then GVR("apps", "v1", "statefulsets")
    else if r in {"daemonsets", "daemonset", "ds"} then GVR("apps", "v1", "daemonsets")
    else if r in {"configmaps", "configmap", "cm"} then GVR("", "v1", "configmaps")
    else if r in {"secrets", "secret"} then GVR("", "v1", "secrets")
    else if r in {"nodes", "node", "no"} then GVR("", "v1", "nodes")
    else if r in {"events", "event", "ev"} then GVR("", "v1", "events")
    else if r in {"ingresses", "ingress", "ing"} then GVR("networking.k8s.io", "v1", "ingresses")
    else if r in {"jobs", "job"} then GVR("batch", "v1", "jobs")
    else if r in {"cronjobs", "cronjob", "cj"} then GVR("batch", "v1", "cronjobs")
    else if r in {"replicasets", "replicaset", "rs"} then GVR("apps", "v1", "replicasets")
    else if r in {"applications", "application", "app", "apps.argoproj.io"} then
      GVR("argoproj.io", "v1alpha1", "applications")
    else if r in {"appprojects", "appproject"} then GVR("argoproj.io", "v1alpha1", "appprojects")
    else if r in {"legatoragent", "legatoragents"} then GVR("legator.io", "v1alpha1", "legatoragents")
    else if r in {"legatorrun", "legatorruns"} then GVR("legator.io", "v1alpha1", "legatorruns")
    else if r in {"legatorenvironment", "legatorenvironments"} then
      GVR("legator.io", "v1alpha1", "legatorenvironments")
    else if r in {"modeltierconfig", "modeltierconfigs"} then GVR("legator.io", "v1alpha1", "modeltierconfigs")
    else if r == "backups.postgresql.cnpg.io" then GVR("postgresql.cnpg.io", "v1", "backups")
    else if r in {"scheduledbackups", "scheduledbackup", "scheduledbackups.postgresql.cnpg.io"} then
      GVR("postgresql.cnpg.io", "v1", "scheduledbackups")
    else ExtensionGVR(r)
  }

  /** Networking, delivery, secret, backup, certificate and policy resources, and the fallback. */
  function ExtensionGVR(r: string): (gvr: GVR)
    requires r !in NAMESPACE && r !in CLAIM && r !in VOLUME && r !in CLUSTER
    ensures !HoldsData(gvr)
  {
    if r in {"ciliumnetworkpolicies", "ciliumnetworkpolicy", "cnp"} then
      GVR("cilium.io", "v2", "ciliumnetworkpolicies")
    else if r in {"httproutes", "httproute"} then GVR("gateway.networking.k8s.io", "v1", "httproutes")
    else if r in {"freights", "freight"} then GVR("kargo.akuity.io", "v1alpha1", "freights")
    else if r in {"stages", "stage"} then GVR("kargo.akuity.io", "v1alpha1", "stages")
    else if r in {"warehouses", "warehouse"} then GVR("kargo.akuity.io", "v1alpha1", "warehouses")
    else if r in {"projects", "project"} then GVR("kargo.akuity.io", "v1alpha1", "projects")
    else if r in {"promotions", "promotion", "promo"} then GVR("kargo.akuity.io", "v1alpha1", "promotions")
    else if r in {"externalsecrets", "externalsecret", "es"} then GVR("external-secrets.io", "v1", "externalsecrets")
    else if r in {"secretstores", "secretstore", "ss"} then GVR("external-secrets.io", "v1", "secretstores")
    else if r in {"clustersecretstores", "clustersecretstore", "css"} then
      GVR("external-secrets.io", "v1", "clustersecretstores")
    else if r in {"backups", "backup"} then GVR("velero.io", "v1", "backups")
    else if r in {"schedules", "schedule"} then GVR("velero.io", "v1", "schedules")
    else if r in {"restores", "restore"} then GVR("velero.io", "v1", "restores")
    else if r in {"backupstoragelocations", "backupstoragelocation", "bsl"} then
      GVR("velero.io", "v1", "backupstoragelocations")
    else if r in {"certificates", "certificate", "cert", "certs"} then GVR("cert-manager.io", "v1", "certificates")
    else if r in {"issuers", "issuer"} then GVR("cert-manager.io", "v1", "issuers")
    else if r in {"clusterissuers", "clusterissuer"} then GVR("cert-manager.io", "v1", "clusterissuers")
    else if r in {"clusterpolicies", "clusterpolicy", "cpol"} then GVR("kyverno.io", "v1", "clusterpolicies")
    else if r in {"policies", "policy", "pol"} then GVR("kyverno.io", "v1", "policies")
    else GVR("", "v1", r)
  }

  /** Volume claims, volumes, namespaces and CNPG database clusters. */
  predicate HoldsData(gvr: GVR) {
    || gvr == GVR("", "v1", "persistentvolumeclaims")
    || gvr == GVR("", "v1", "persistentvolumes")
    || gvr == GVR("", "v1", "namespaces")
    || gvr == GVR("postgresql.cnpg.io", "v1", "clusters")
  }

  const CNPG_GROUP := "postgresql.cnpg.io"

  /** The spellings of CNPG's backups and scheduled backups. */
  const CNPG_BACKUPS: set<string> :=
    {"backups.postgresql.cnpg.io", "scheduledbackups", "scheduledbackup", "scheduledbackups.postgresql.cnpg.io"}

  lemma ExtensionIsNotCnpg(r: string)
    requires r !in NAMESPACE && r !in CLAIM && r !in VOLUME && r !in CLUSTER
    ensures ExtensionGVR(r).group != CNPG_GROUP
  {
  }

  lemma OtherCnpg(r: string)
    requires r !in NAMESPACE && r !in CLAIM && r !in VOLUME && r !in CLUSTER
    requires OtherGVR(r).group == CNPG_GROUP
    ensures r in CNPG_BACKUPS
  {
    ExtensionIsNotCnpg(r);
  }

  /** Which spellings resolve to CNPG resources. */
  lemma CnpgSpellings(resource: string)
    requires ResourceToGVR(resource).group == CNPG_GROUP
    ensures ToLower(resource) in CLUSTER || ToLower(resource) in CNPG_BACKUPS
  {
    var r := ToLower(resource);
    if r !in CLUSTER && r !in NAMESPACE && r !in CLAIM && r !in VOLUME { OtherCnpg(r); }
  }

  lemma ScheduledBackups(resource: string)
    requires ToLower(resource) == "scheduledbackups"
    ensures ResourceToGVR(resource) == GVR(CNPG_GROUP, "v1", "scheduledbackups")
  {
  }

  /** Every spelling of a data resource, in any letter case, starts with one of these. */
  predicate DataSpelling(r: string) {
    "pv" <= r || "persistentvolume" <= r || "namespace" <= r || "ns" <= r || "cluster" <= r
  }

  lemma DataSpellings(resource: string)
    requires HoldsData(ResourceToGVR(resource))
    ensures DataSpelling(ToLower(resource))
  {
    var r := ToLower(resource);
    if r in NAMESPACE || r in CLAIM || r in VOLUME || r in CLUSTER {
      NamedSpellings(r);
    }
  }

  lemma NamedSpellings(r: string)
    requires r in NAMESPACE || r in CLAIM || r in VOLUME || r in CLUSTER
    ensures DataSpelling(r)
  {
    if r in NAMESPACE {
      assert "namespace" <= r || "ns" <= r;
    } else if r in CLAIM {
      assert "persistentvolume" <= r || "pv" <= r;
    } else if r in VOLUME {
      assert "persistentvolume" <= r || "pv" <= r;
    } else {
      assert "cluster" <= r;
    }
  }
}
