/**
 Validation of a page of Goals and of its parent graph.
 Source: valid_goal_page in clients/host-rs/src/client.rs. Texts whose length or order in bytes matters are bytes.
 */
module GoalPage {
  import opened Common
  import Lexicographic

  type Id = seq<byte>

  datatype Goal =
    Goal(apiVersion: string, id: Id, revision: nat, state: string, definitionDigest: seq<byte>, objective: seq<byte>,
         objectiveTruncated: bool, parent: Option<Id>, attemptNumber: nat, criteriaTotal: nat, criteriaSatisfied: nat)

  datatype Page = Page(apiVersion: string, session: string, sessionVersion: nat, observedMaxPosition: nat, goals: seq<Goal>)

  type Graph = map<Id, Option<Id>>

  // ---- One goal ----

  const API_VERSION := "v1"

  const MAX_ID_BYTES := 256

  const MAX_OBJECTIVE_BYTES := 16 * 1024

  const STATES := {"draft", "active", "suspended", "succeeded", "failed", "cancelled"}

  predicate LowerHex(b: byte) { 48 <= b <= 57 || 97 <= b <= 102 }

  predicate ValidDigest(digest: seq<byte>)
  {
    |digest| == 64 && forall k :: 0 <= k < |digest| ==> LowerHex(digest[k])
  }

  predicate ValidId(id: Id) { id != [] && |id| <= MAX_ID_BYTES }

  predicate ValidGoal(g: Goal)
  {
    && g.apiVersion == API_VERSION && ValidId(g.id) && g.revision > 0 && g.state in STATES && ValidDigest(g.definitionDigest)
    && |g.objective| <= MAX_OBJECTIVE_BYTES && (g.objective != [] || g.objectiveTruncated)
    && (g.parent.Some? ==> ValidId(g.parent.value) && g.parent.value != g.id)
    && g.attemptNumber <= g.revision
    && g.criteriaSatisfied == (if g.state == "succeeded" then g.criteriaTotal else 0)
  }

  // ---- The graph of a page ----

  predicate Ascending(goals: seq<Goal>)
  {
    forall k :: 0 < k < |goals| ==> Lexicographic.Precedes(goals[k - 1].id, goals[k].id)
  }

  predicate Distinct(goals: seq<Goal>)
  {
    forall j, k :: 0 <= j < k < |goals| ==> goals[j].id != goals[k].id
  }

  /** Parents by id; a later entry would win, but ids are distinct. */
  function GraphOf(goals: seq<Goal>): (g: Graph)
  {
    if goals == [] then map[]
    else GraphOf(goals[..|goals| - 1])[goals[|goals| - 1].id := goals[|goals| - 1].parent]
  }

  lemma {:induction false} LaterIdsFollow(goals: seq<Goal>, j: nat, k: nat)
    requires Ascending(goals) && j < k < |goals|
    ensures Lexicographic.Precedes(goals[j].id, goals[k].id)
    decreases k
  {
    if j + 1 == k {
    } else {
      LaterIdsFollow(goals, j, k - 1);
      Lexicographic.PrecedesTransitive(goals[j].id, goals[k - 1].id, goals[k].id);
    }
  }

  lemma AscendingIsDistinct(goals: seq<Goal>)
    requires Ascending(goals)
    ensures Distinct(goals)
  {
    forall j, k | 0 <= j < k < |goals|
      ensures goals[j].id != goals[k].id
    {
      LaterIdsFollow(goals, j, k);
      Lexicographic.PrecedesIrreflexive(goals[j].id);
    }
  }

  /** With distinct ids the graph holds exactly the page's goals. */
  lemma {:induction false} GraphOfGoals(goals: seq<Goal>)
    requires Distinct(goals)
    ensures forall k :: 0 <= k < |goals| ==> goals[k].id in GraphOf(goals) && GraphOf(goals)[goals[k].id] == goals[k].parent
    ensures forall id :: id in GraphOf(goals) ==> exists k :: 0 <= k < |goals| && goals[k].id == id
    decreases |goals|
  {
    if goals == [] {
    } else {
      GraphOfGoals(goals[..|goals| - 1]);
    }
  }

  // ---- Forests ----

  /** Every parent resolves within the graph and has a smaller rank than its child. */
  ghost predicate Ranks(g: Graph, rank: map<Id, nat>)
  {
    forall id :: id in g ==>
                   id in rank && (g[id].Some? ==> g[id].value in g && g[id].value in rank && rank[g[id].value] < rank[id])
  }

  /** The parent relation resolves and is acyclic. */
  ghost predicate Forest(g: Graph)
  {
    exists rank :: Ranks(g, rank)
  }

  /** The parent chain from `id` reaches a root within `n` steps. */
  predicate Ends(g: Graph, id: Id, n: nat)
    decreases n
  {
    id in g && (g[id].None? || (n > 0 && Ends(g, g[id].value, n - 1)))
  }

  function Height(g: Graph, id: Id, n: nat): (h: nat)
    requires Ends(g, id, n)
    ensures h <= n
    decreases n
  {
    if g[id].None? then 0 else 1 + Height(g, g[id].value, n - 1)
  }

  lemma {:induction false} HeightStable(g: Graph, id: Id, m: nat, n: nat)
    requires Ends(g, id, m) && m <= n
    ensures Ends(g, id, n) && Height(g, id, m) == Height(g, id, n)
    decreases m
  {
    if g[id].None? {
    } else {
      HeightStable(g, g[id].value, m - 1, n - 1);
    }
  }

  /** Chains that all end give a rank: their height. */
  lemma EndingChainsRank(g: Graph, n: nat)
    requires forall id :: id in g ==> Ends(g, id, n)
    ensures Forest(g)
  {
    var rank := map id | id in g :: Height(g, id, n);
    forall id | id in g && g[id].Some?
      ensures g[id].value in g && rank[g[id].value] < rank[id]
    {
      HeightStable(g, g[id].value, n - 1, n);
    }
    assert Ranks(g, rank);
  }

  // ---- The walk ----

  /** Each step of a path goes to the parent. */
  ghost predicate ParentPath(g: Graph, path: seq<Id>)
  {
    && (forall k :: 0 <= k < |path| ==> path[k] in g)
    && forall k :: 0 <= k < |path| - 1 ==> g[path[k]] == Some(path[k + 1])
  }

  lemma {:induction false} PathEnds(g: Graph, path: seq<Id>)
    requires path != [] && ParentPath(g, path) && g[path[|path| - 1]].None?
    ensures Ends(g, path[0], |path| - 1)
    decreases |path|
  {
    if |path| == 1 {
    } else {
      assert g[path[0]] == Some(path[1]);
      PathEnds(g, path[1..]);
    }
  }

  /** Walks parents from one goal with a set of seen ids; fails on a repeat or an unresolved id. */
  method WalkParents(g: Graph, start: Id) returns (r: bool)
    requires start in g
    ensures r ==> Ends(g, start, |g.Keys|)
    ensures !r ==> !Forest(g)
  {
    var seen: set<Id> := {};
    var cursor := Some(start);
    ghost var path: seq<Id> := [];
    while cursor.Some?
      invariant seen <= g.Keys && |path| == |seen|
      invariant ParentPath(g, path)
      invariant path == [] ==> cursor == Some(start)
      invariant path != [] ==> path[0] == start && cursor == g[path[|path| - 1]]
      invariant forall rank :: Ranks(g, rank) && cursor.Some? ==>
                                 cursor.value in g && forall id :: id in seen ==> rank[cursor.value] < rank[id]
      decreases g.Keys - seen, cursor.Some?
    {
      var id := cursor.value;
      if id in seen {
        return false;
      }
      if id !in g {
        return false;
      }
      seen := seen + {id};
      path := path + [id];
      cursor := g[id];
    }
    PathEnds(g, path);
    SubsetSize(seen, g.Keys);
    HeightStable(g, start, |path| - 1, |g.Keys|);
    return true;
  }

  // ---- The page check ----

  predicate ValidHeader(p: Page, session: string, max: nat)
  {
    p.apiVersion == API_VERSION && p.session == session && p.sessionVersion != 0 && p.observedMaxPosition != 0 && |p.goals| <= max
  }

  /** What a goal of a page must say, field by field. */
  ghost predicate Presentable(g: Goal)
  {
    && g.apiVersion == "v1" && 1 <= |g.id| <= 256 && 1 <= g.revision && g.attemptNumber <= g.revision
    && (g.state == "draft" || g.state == "active" || g.state == "suspended"
        || g.state == "succeeded" || g.state == "failed" || g.state == "cancelled")
    && |g.definitionDigest| == 64
    && (forall b :: b in g.definitionDigest ==> 48 <= b as int <= 57 || 97 <= b as int <= 102)
    && |g.objective| <= 16_384 && (g.objective == [] ==> g.objectiveTruncated)
    && (forall parent :: g.parent == Some(parent) ==> 1 <= |parent| <= 256 && parent != g.id)
    && (g.state == "succeeded" ==> g.criteriaSatisfied == g.criteriaTotal) && (g.state != "succeeded" ==> g.criteriaSatisfied == 0)
  }

  lemma PresentableIsValid(g: Goal)
    ensures Presentable(g) <==> ValidGoal(g)
  {
    assert forall k :: 0 <= k < |g.definitionDigest| ==> g.definitionDigest[k] in g.definitionDigest;
  }

  /** True exactly for pages with a valid header and valid goals whose parents resolve in the page without a cycle. */
  method ValidGoalPage(page: Page, session: string, max: nat) returns (r: bool)
    ensures r <==> && page.apiVersion == "v1" && page.session == session && 1 <= page.sessionVersion && 1 <= page.observedMaxPosition
                   && |page.goals| <= max && Ascending(page.goals)
                   && (forall k :: 0 <= k < |page.goals| ==> Presentable(page.goals[k]))
                   && Forest(GraphOf(page.goals))
  {
    forall k | 0 <= k < |page.goals| ensures Presentable(page.goals[k]) <==> ValidGoal(page.goals[k]) {
      PresentableIsValid(page.goals[k]);
    }
    if !ValidHeader(page, session, max) || !Ascending(page.goals) || exists k :: 0 <= k < |page.goals| && !ValidGoal(page.goals[k]) {
      return false;
    }
    var goals := page.goals;
    var g := GraphOf(goals);
    AscendingIsDistinct(goals);
    GraphOfGoals(goals);
    for k := 0 to |goals|
      invariant forall j :: 0 <= j < k ==> Ends(g, goals[j].id, |g.Keys|)
    {
      var ends := WalkParents(g, goals[k].id);
      if !ends {
        return false;
      }
    }
    EndingChainsRank(g, |g.Keys|);
    return true;
  }
}
