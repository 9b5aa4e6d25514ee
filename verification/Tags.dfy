/** api/v1beta2/tags.go: the tags that tie a Vultr resource to a machine of a cluster. */
module Tags {
  import opened Strings

  const TAG_PREFIX := "capvultr"
  const NAME_PREFIX := "name:"
  const UID_PREFIX := "capvultr:cluster-uid:"

  datatype TagParams = TagParams(clusterName: string, clusterUID: string, name: string, role: string)

  function ClusterTag(clusterName: string): string { TAG_PREFIX + ":cluster:" + clusterName }

  function ClusterUIDTag(uid: string): string { TAG_PREFIX + ":cluster-uid:" + uid }

  function RoleTag(role: string): string { TAG_PREFIX + ":role:" + role }

  function NameTag(name: string): string { "name:" + name }

  function BuildTags(p: TagParams): seq<string> {
    [ClusterTag(p.clusterName), ClusterUIDTag(p.clusterUID), RoleTag(p.role), NameTag(p.name)]
  }

  predicate TagsOwnedByMachine(tags: seq<string>, p: TagParams) {
    NameTag(p.name) in tags && ClusterUIDTag(p.clusterUID) in tags
  }

  /** Tags added by the user that can be mistaken for neither identifying tag. */
  predicate Harmless(extra: seq<string>) {
    forall i :: 0 <= i < |extra| ==> !HasPrefix(extra[i], NAME_PREFIX) && !HasPrefix(extra[i], UID_PREFIX)
  }

  /** No cluster, UID or role tag passes for a name tag, and name tags are injective. */
  lemma NameTagExact(p: TagParams, name: string)
    ensures NameTag(name) in BuildTags(p) <==> name == p.name
  {
    var t := NameTag(name);
    assert t[0] == 'n';
    assert ClusterTag(p.clusterName)[0] == 'c' && ClusterUIDTag(p.clusterUID)[0] == 'c' && RoleTag(p.role)[0] == 'c';
    assert t[5..] == name && NameTag(p.name)[5..] == p.name;
  }

  /** No cluster, role or name tag passes for a UID tag, and UID tags are injective. */
  lemma UIDTagExact(p: TagParams, uid: string)
    ensures ClusterUIDTag(uid) in BuildTags(p) <==> uid == p.clusterUID
  {
    var t := ClusterUIDTag(uid);
    assert t[16] == '-' && t[9] == 'c' && t[0] == 'c';
    assert ClusterTag(p.clusterName)[16] == ':';
    assert RoleTag(p.role)[9] == 'r';
    assert NameTag(p.name)[0] == 'n';
    assert t[21..] == uid && ClusterUIDTag(p.clusterUID)[21..] == p.clusterUID;
  }

  /** The role and the cluster can be read off the tags as well. */
  lemma RoleAndClusterExact(p: TagParams, role: string, cluster: string)
    ensures "capvultr:role:" + role in BuildTags(p) <==> role == p.role
    ensures "capvultr:cluster:" + cluster in BuildTags(p) <==> cluster == p.clusterName
    ensures |BuildTags(p)| == 4
  {
    var r, c := "capvultr:role:" + role, "capvultr:cluster:" + cluster;
    assert r[9] == 'r' && r[0] == 'c' && c[9] == 'c' && c[16] == ':' && c[0] == 'c';
    assert ClusterTag(p.clusterName)[9] == 'c' && ClusterTag(p.clusterName)[16] == ':';
    assert ClusterUIDTag(p.clusterUID)[9] == 'c' && ClusterUIDTag(p.clusterUID)[16] == '-';
    assert RoleTag(p.role)[9] == 'r' && NameTag(p.name)[0] == 'n';
    assert r[14..] == role && RoleTag(p.role)[14..] == p.role;
    assert c[17..] == cluster && ClusterTag(p.clusterName)[17..] == p.clusterName;
    assert RoleTag(p.role) == "capvultr:role:" + p.role && ClusterTag(p.clusterName) == "capvultr:cluster:" + p.clusterName;
  }

  /** Whom tags identify, for every pair of machines and every user-added tag list. */
  lemma OwnershipExact(p: TagParams, extra: seq<string>, q: TagParams)
    ensures TagsOwnedByMachine(BuildTags(p) + extra, q) <==>
            (q.name == p.name || NameTag(q.name) in extra) && (q.clusterUID == p.clusterUID || ClusterUIDTag(q.clusterUID) in extra)
    ensures Harmless(extra) ==>
              (TagsOwnedByMachine(BuildTags(p) + extra, q) <==> q.name == p.name && q.clusterUID == p.clusterUID)
    ensures Harmless(extra) ==> (NameTag(q.name) in BuildTags(p) + extra <==> q.name == p.name)
  {
    NameTagExact(p, q.name);
    UIDTagExact(p, q.clusterUID);
    assert HasPrefix(NameTag(q.name), NAME_PREFIX);
    assert HasPrefix(ClusterUIDTag(q.clusterUID), UID_PREFIX);
  }
}
