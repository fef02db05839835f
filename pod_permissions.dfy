/**
 * Permission checks of service/models.py: the grant list and overlap
 * selection of `Pod.db_get_all_with_permission`, and
 * `SetPermission.check_level`.
 */
module PodPermissions {
  import opened Wrappers
  import opened PodPipeline

  /** A permission entry "<user>:<level>". */
  function Grant(user: string, level: string): string
  {
    user + ":" + level
  }

  /** One grant for `user` per authorised level, in the order of the levels. */
  method RequiredGrants(user: string, authorizedLevels: seq<string>) returns (grants: seq<string>)
    ensures |grants| == |authorizedLevels|
    ensures forall i :: 0 <= i < |grants| ==> grants[i] == Grant(user, authorizedLevels[i])
  {
    grants := [];
    for i := 0 to |authorizedLevels|
      invariant |grants| == i
      invariant forall j :: 0 <= j < i ==> grants[j] == Grant(user, authorizedLevels[j])
    {
      grants := grants + [Grant(user, authorizedLevels[i])];
    }
  }

  /** The array-overlap test: the two lists share an element. */
  predicate Overlaps(a: seq<string>, b: seq<string>)
  {
    exists x :: x in a && x in b
  }

  /** The rows of `pods` whose permissions overlap `grants`, in table order. */
  function SelectOverlapping(pods: seq<PodRecord>, grants: seq<string>): seq<PodRecord>
    decreases |pods|
  {
    if pods == [] then []
    else (if Overlaps(pods[0].permissions, grants) then [pods[0]] else []) + SelectOverlapping(pods[1..], grants)
  }

  lemma {:induction false} SelectOverlappingMembers(pods: seq<PodRecord>, grants: seq<string>)
    ensures forall p :: p in SelectOverlapping(pods, grants) <==> p in pods && Overlaps(p.permissions, grants)
    ensures |SelectOverlapping(pods, grants)| <= |pods|
    decreases |pods|
  {
    if pods != [] {
      SelectOverlappingMembers(pods[1..], grants);
      assert forall p :: p in pods <==> p == pods[0] || p in pods[1..];
    }
  }

  /** Each selected row appears exactly as often as in the table; every other row not at all. */
  lemma {:induction false} SelectOverlappingCounts(pods: seq<PodRecord>, grants: seq<string>)
    ensures forall p ::
      multiset(SelectOverlapping(pods, grants))[p] == (if Overlaps(p.permissions, grants) then multiset(pods)[p] else 0)
    ensures multiset(SelectOverlapping(pods, grants)) <= multiset(pods)
    decreases |pods|
  {
    if pods != [] {
      SelectOverlappingCounts(pods[1..], grants);
      assert pods == [pods[0]] + pods[1..];
    }
  }

  /** Rows are kept or dropped individually: the selection distributes over concatenation. */
  lemma {:induction false} SelectOverlappingAppend(a: seq<PodRecord>, b: seq<PodRecord>, grants: seq<string>)
    ensures SelectOverlapping(a + b, grants) == SelectOverlapping(a, grants) + SelectOverlapping(b, grants)
    decreases |a|
  {
    if a != [] {
      assert (a + b)[1..] == a[1..] + b;
      SelectOverlappingAppend(a[1..], b, grants);
    } else {
      assert a + b == b;
    }
  }

  /**
   * The pods the user may act on: those granting the user at least one of the
   * authorised levels. `table` stands for the rows of the tenant's pod table.
   */
  method GetAllWithPermission(table: seq<PodRecord>, user: string, authorizedLevels: seq<string>)
    returns (result: seq<PodRecord>)
    ensures forall p :: p in result <==>
      p in table && exists i :: 0 <= i < |authorizedLevels| && Grant(user, authorizedLevels[i]) in p.permissions
    ensures (forall p :: p in table ==> forall l :: l in authorizedLevels ==> Grant(user, l) !in p.permissions)
      ==> result == []
    ensures |result| <= |table|
    ensures multiset(result) <= multiset(table)
    ensures forall p | p in table && exists i :: 0 <= i < |authorizedLevels| && Grant(user, authorizedLevels[i]) in p.permissions ::
      multiset(result)[p] == multiset(table)[p]
  {
    var grants := RequiredGrants(user, authorizedLevels);
    result := SelectOverlapping(table, grants);
    SelectOverlappingMembers(table, grants);
    SelectOverlappingCounts(table, grants);
    forall p | p in table
      ensures Overlaps(p.permissions, grants) <==>
        exists i :: 0 <= i < |authorizedLevels| && Grant(user, authorizedLevels[i]) in p.permissions
    {
      if Overlaps(p.permissions, grants) {
        var x :| x in p.permissions && x in grants;
        var i :| 0 <= i < |grants| && grants[i] == x;
        assert Grant(user, authorizedLevels[i]) in p.permissions;
      }
      if exists i :: 0 <= i < |authorizedLevels| && Grant(user, authorizedLevels[i]) in p.permissions {
        var i :| 0 <= i < |authorizedLevels| && Grant(user, authorizedLevels[i]) in p.permissions;
        assert grants[i] in p.permissions;
      }
    }
    if result != [] {
      var p := result[0];
      assert p in result;
      var i :| 0 <= i < |authorizedLevels| && Grant(user, authorizedLevels[i]) in p.permissions;
      assert authorizedLevels[i] in authorizedLevels;
    }
  }

  /**
   * No fuzzy matching: when levels contain no ':', a grant names exactly one
   * user and one level, so another user's grant never matches.
   */
  lemma GrantInjective(u1: string, l1: string, u2: string, l2: string)
    requires ':' !in l1 && ':' !in l2
    requires Grant(u1, l1) == Grant(u2, l2)
    ensures u1 == u2 && l1 == l2
  {
    var g := Grant(u1, l1);
    assert g == u1 + ":" + l1 && g == u2 + ":" + l2;
    GrantColons(u1, l1);
    GrantColons(u2, l2);
    if |l1| < |l2| {
      assert false;
    } else if |l2| < |l1| {
      assert false;
    }
    assert l1 == g[|g| - |l1|..] == l2;
    assert u1 == g[..|u1|] == u2;
  }

  /** In a grant whose level has no ':', the last ':' is the one just before the level. */
  lemma GrantColons(user: string, level: string)
    requires ':' !in level
    ensures var g := Grant(user, level);
      g[|g| - |level| - 1] == ':' && forall k :: |g| - |level| <= k < |g| ==> g[k] != ':'
  {
    var g := Grant(user, level);
    forall k | |g| - |level| <= k < |g| ensures g[k] != ':' {
      assert g[k] == level[k - (|g| - |level|)];
    }
  }

  /** The source's own example: with levels USER and ADMIN, an ADMIN grant satisfies a USER-level request. */
  lemma AdminGrantSatisfiesUserLevel(p: PodRecord)
    requires "cgarcia:ADMIN" in p.permissions
    ensures p in SelectOverlapping([p], [Grant("cgarcia", "USER"), Grant("cgarcia", "ADMIN")])
  {
    SelectOverlappingMembers([p], [Grant("cgarcia", "USER"), Grant("cgarcia", "ADMIN")]);
    assert Grant("cgarcia", "ADMIN") == "cgarcia:ADMIN";
  }

  /** `SetPermission.check_level`: the level must be one of the defined permission levels. */
  function CheckLevel(level: string, permissionLevels: seq<string>): (r: Result<string, string>)
    ensures r.Success? <==> level in permissionLevels
    ensures r.Success? ==> r.value == level
  {
    if level !in permissionLevels then Failure("level must be in the permission levels") else Success(level)
  }
}
