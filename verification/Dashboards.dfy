/** Which dashboard a user sees: the active default of the best-fitting scope. */
module Dashboards {
  import opened Text
  import opened Calendar
  import opened Sorting

  datatype Dashboard = Dashboard(
    id: string,
    surface: string,
    isDefault: bool,
    status: string,
    scopeType: string,
    scopeId: string,
    organizationId: string,
    locationId: string,
    updatedAt: Time)

  /** Who asks: the surface, organization, location and roles of the user. */
  datatype Viewer = Viewer(surface: string, organizationId: string, locationId: string, roleIds: seq<string>)

  function RoleSet(roleIds: seq<string>): set<string> {
    set id <- roleIds | TrimSpace(id) != "" :: TrimSpace(id)
  }

  predicate MatchesSurface(itemSurface: string, requestedSurface: string) {
    var item, requested := TrimSpace(itemSurface), TrimSpace(requestedSurface);
    item == "" || requested == "" || item == requested
  }

  function ScopeScore(item: Dashboard, v: Viewer): int {
    var scopeType, scopeId := TrimSpace(item.scopeType), TrimSpace(item.scopeId);
    if scopeType == "" || scopeType == "deployment" then 10
    else if scopeType == "organization" then
      if scopeId == "" || scopeId != TrimSpace(v.organizationId) then -1 else 20
    else if scopeType == "location" then
      if scopeId == "" || scopeId != TrimSpace(v.locationId) then -1 else 30
    else if scopeType == "role" then
      if scopeId !in RoleSet(v.roleIds) then -1
      else if TrimSpace(item.locationId) != "" then
        if TrimSpace(item.locationId) != TrimSpace(v.locationId) then -1 else 50
      else if TrimSpace(item.organizationId) != "" then
        if TrimSpace(item.organizationId) != TrimSpace(v.organizationId) then -1 else 45
      else 40
    else -1
  }

  // ---- What the score means ----

  /** Whom a dashboard is for. A role's may be narrowed to one organization, or to one location. */
  datatype Scope =
    | Everyone
    | OfOrganization(id: string)
    | OfLocation(id: string)
    | OfRole(role: string)
    | OfRoleInOrganization(role: string, id: string)
    | OfRoleAtLocation(role: string, id: string)
    | Nobody

  function ScopeOf(item: Dashboard): Scope {
    var scopeType, scopeId := TrimSpace(item.scopeType), TrimSpace(item.scopeId);
    if scopeType == "" || scopeType == "deployment" then Everyone
    else if scopeType == "organization" then OfOrganization(scopeId)
    else if scopeType == "location" then OfLocation(scopeId)
    else if scopeType != "role" then Nobody
    else if TrimSpace(item.locationId) != "" then OfRoleAtLocation(scopeId, TrimSpace(item.locationId))
    else if TrimSpace(item.organizationId) != "" then OfRoleInOrganization(scopeId, TrimSpace(item.organizationId))
    else OfRole(scopeId)
  }

  predicate IsIn(v: Viewer, organizationId: string) {
    organizationId != "" && organizationId == TrimSpace(v.organizationId)
  }

  predicate IsAt(v: Viewer, locationId: string) {
    locationId != "" && locationId == TrimSpace(v.locationId)
  }

  predicate HasRole(v: Viewer, role: string) {
    role != "" && exists id <- v.roleIds :: TrimSpace(id) == role
  }

  predicate Covers(scope: Scope, v: Viewer) {
    match scope
    case Everyone => true
    case OfOrganization(id) => IsIn(v, id)
    case OfLocation(id) => IsAt(v, id)
    case OfRole(role) => HasRole(v, role)
    case OfRoleInOrganization(role, id) => HasRole(v, role) && IsIn(v, id)
    case OfRoleAtLocation(role, id) => HasRole(v, role) && IsAt(v, id)
    case Nobody => false
  }

  /** The wider scope first. */
  function Narrowness(scope: Scope): nat {
    match scope
    case Everyone => 0
    case OfOrganization(_) => 1
    case OfLocation(_) => 2
    case OfRole(_) => 3
    case OfRoleInOrganization(_, _) => 4
    case OfRoleAtLocation(_, _) => 5
    case Nobody => 0
  }

  lemma HasRoleIsInSet(v: Viewer, role: string)
    ensures HasRole(v, role) <==> role in RoleSet(v.roleIds)
  {
  }

  /** A dashboard scores at all exactly when its scope covers the viewer, and the narrower scope scores more. */
  lemma ScoreMeaning(a: Dashboard, b: Dashboard, v: Viewer)
    ensures ScopeScore(a, v) >= 0 <==> Covers(ScopeOf(a), v)
    ensures Covers(ScopeOf(a), v) && Covers(ScopeOf(b), v) ==>
              (ScopeScore(a, v) > ScopeScore(b, v) <==> Narrowness(ScopeOf(a)) > Narrowness(ScopeOf(b)))
  {
    ScoreByScope(a, v);
    ScoreByScope(b, v);
    hide ScopeScore, ScopeOf, Covers;
  }

  lemma ScoreByScope(a: Dashboard, v: Viewer)
    ensures ScopeScore(a, v) == if !Covers(ScopeOf(a), v) then -1 else [10, 20, 30, 40, 45, 50][Narrowness(ScopeOf(a))]
  {
    hide TrimSpace, RoleSet, HasRole;
    HasRoleIsInSet(v, TrimSpace(a.scopeId));
  }

  /** An active default dashboard for the surface asked for, with a scope that covers the viewer. */
  predicate Candidate(item: Dashboard, v: Viewer) {
    && (TrimSpace(item.surface) == "" || TrimSpace(v.surface) == "" || TrimSpace(item.surface) == TrimSpace(v.surface))
    && item.isDefault && (item.status == "" || item.status == "active")
    && Covers(ScopeOf(item), v)
  }

  /** The order of preference: narrower scope, then later update, then smaller id. */
  predicate Preferred(a: Dashboard, b: Dashboard) {
    var x, y := Narrowness(ScopeOf(a)), Narrowness(ScopeOf(b));
    x > y || (x == y && (a.updatedAt > b.updatedAt || (a.updatedAt == b.updatedAt && StringLess(a.id, b.id))))
  }

  /** The one candidate preferred to every other. */
  ghost predicate IsEffective(best: Dashboard, stored: seq<Dashboard>, v: Viewer) {
    && best in stored && Candidate(best, v)
    && forall other <- stored :: Candidate(other, v) && other != best ==> Preferred(best, other)
  }

  ghost predicate UniqueIds(stored: seq<Dashboard>) {
    DistinctKeys(stored, (d: Dashboard) => d.id)
  }

  /** The listing order of DashboardsForSurface. */
  predicate Newer(a: Dashboard, b: Dashboard) {
    if a.updatedAt == b.updatedAt then StringLess(a.id, b.id) else a.updatedAt > b.updatedAt
  }

  lemma NewerIsOrder()
    ensures StrictWeakOrder(Newer)
  {
    forall a, b, c: Dashboard
      ensures !Newer(a, a)
      ensures Newer(a, b) && Newer(b, c) ==> Newer(a, c)
      ensures Newer(a, c) ==> Newer(a, b) || Newer(b, c)
    {
      StringOrder(a.id, b.id, c.id);
    }
  }

  class DashboardStore {
    var dashboards: seq<Dashboard>

    method ListDashboards() returns (items: seq<Dashboard>)
      ensures multiset(items) == multiset(dashboards)
    {
      items := SortSlice(dashboards, (a: Dashboard, b: Dashboard) => a.updatedAt < b.updatedAt);
    }

    method DashboardsForSurface(surface: string) returns (items: seq<Dashboard>)
      ensures SortedBy(items, Newer)
      ensures forall d :: d in items <==>
        && d in dashboards
        && (TrimSpace(d.surface) == "" || TrimSpace(surface) == "" || TrimSpace(d.surface) == TrimSpace(surface))
      ensures UniqueIds(dashboards) ==> UniqueIds(items)
    {
      var listed := ListDashboards();
      ArrangementMembers(listed, dashboards);
      var matching := [];
      for i := 0 to |listed|
        invariant forall d :: d in matching <==> d in listed[..i] && MatchesSurface(d.surface, surface)
        invariant UniqueIds(listed) ==> UniqueIds(matching)
      {
        hide MatchesSurface;
        if MatchesSurface(listed[i].surface, surface) {
          if UniqueIds(listed) {
            LaterIdIsNew(listed, i, matching);
          }
          matching := matching + [listed[i]];
        }
        assert listed[..i + 1] == listed[..i] + [listed[i]];
      }
      assert listed[..|listed|] == listed;
      NewerIsOrder();
      items := SortSlice(matching, Newer);
      ArrangementMembers(items, matching);
      if UniqueIds(dashboards) {
        DistinctKeysKept(listed, dashboards, (d: Dashboard) => d.id);
        DistinctKeysKept(items, matching, (d: Dashboard) => d.id);
      }
    }

    method EffectiveDashboard(v: Viewer) returns (found: Option<Dashboard>)
      requires UniqueIds(dashboards)
      ensures found.None? <==> forall d <- dashboards :: !Candidate(d, v)
      ensures found.Some? ==> IsEffective(found.value, dashboards, v)
    {
      hide ScopeScore, ScopeOf, Covers, Narrowness, StringLess, Newer, TrimSpace;
      var listed := DashboardsForSurface(v.surface);
      found := None;
      var bestScore := -1;
      for i := 0 to |listed|
        invariant bestScore == if found.None? then -1 else ScopeScore(found.value, v)
        invariant found.None? ==> forall d <- listed[..i] :: !Candidate(d, v)
        invariant found.Some? ==> IsEffective(found.value, listed[..i], v)
      {
        var item := listed[i];
        assert item in listed && listed[..i + 1] == listed[..i] + [item];
        if !IsActive(item) {
          continue;
        }
        var score := ScopeScore(item, v);
        ScoreMeaning(item, if found.Some? then found.value else item, v);
        if score < 0 {
          continue;
        }
        if found.Some? {
          BestSoFar(listed, i, found.value, v);
        }
        if score > bestScore || (score == bestScore && found.Some? && item.updatedAt > found.value.updatedAt) {
          found := Some(item);
          bestScore := score;
        }
      }
      assert listed[..|listed|] == listed;
    }

    function IsActive(item: Dashboard): (r: bool)
      ensures r <==> item.isDefault && item.status in {"", "active"}
    {
      !(item.status != "" && item.status != "active") && item.isDefault
    }
  }

  lemma LaterIdIsNew(listed: seq<Dashboard>, i: nat, matching: seq<Dashboard>)
    requires UniqueIds(listed) && i < |listed| && UniqueIds(matching)
    requires forall d <- matching :: d in listed[..i]
    ensures UniqueIds(matching + [listed[i]])
  {
    var key := (d: Dashboard) => d.id;
    forall j | 0 <= j < |matching| ensures key(matching[j]) != key(listed[i]) {
      assert matching[j] in listed[..i];
      var k: nat :| k < i && listed[..i][k] == matching[j];
      KeysDiffer(listed, key, k, i);
    }
  }

  /** The best of the items listed so far is preferred to a later one of the same score. */
  lemma BestSoFar(listed: seq<Dashboard>, i: nat, best: Dashboard, v: Viewer)
    requires UniqueIds(listed) && SortedBy(listed, Newer) && i < |listed| && best in listed[..i]
    ensures best.updatedAt >= listed[i].updatedAt && best != listed[i]
    ensures best.updatedAt == listed[i].updatedAt ==> StringLess(best.id, listed[i].id)
  {
    var k: nat :| k < i && listed[k] == best;
    KeysDiffer(listed, (d: Dashboard) => d.id, k, i);
    assert !Newer(listed[i], listed[k]);
    StringLessTotal(best.id, listed[i].id);
  }

  /** The effective dashboard depends on what is stored, not on the order it is stored in. */
  lemma EffectiveUnique(a: Dashboard, stored: seq<Dashboard>, b: Dashboard, rearranged: seq<Dashboard>, v: Viewer)
    requires multiset(stored) == multiset(rearranged)
    requires IsEffective(a, stored, v) && IsEffective(b, rearranged, v)
    ensures a == b
  {
    hide ScopeOf, Candidate;
    ArrangementMembers(stored, rearranged);
    StringLessTotal(a.id, b.id);
    assert b in stored && a in rearranged;
  }
}
