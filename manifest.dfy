/**
 * The product manifest: navigation entries, entity names and the plan
 * table. A plan maps each resource to a limit; the manifest writes an
 * unlimited resource as -1, which this model tags as `Unlimited`.
 */
module Manifest {

  /** A plan's ceiling on one resource. */
  datatype Limit = Unlimited | Bounded(n: int)

  /** The manifest's integer encoding of a limit: -1 for unlimited. */
  function ToSentinel(l: Limit): (n: int)
    ensures n == -1 <==> l == Unlimited || l == Bounded(-1)
  {
    match l
    case Unlimited => -1
    case Bounded(n) => n
  }

  /** Reads an integer of the manifest as a limit. */
  function FromSentinel(n: int): (l: Limit)
    ensures l.Unlimited? <==> n == -1
  {
    if n == -1 then Unlimited else Bounded(n)
  }

  /** The two encodings agree on every limit except the ambiguous `Bounded(-1)`. */
  lemma SentinelRoundTrip(l: Limit, n: int)
    ensures l != Bounded(-1) ==> FromSentinel(ToSentinel(l)) == l
    ensures ToSentinel(FromSentinel(n)) == n
  {
  }

  datatype NavItem = NavItem(labelText: string, path: string, icon: string)

  const PRODUCT_SLUG: string := "ash"
  const PRODUCT_NAME: string := "AutoSelfHost"

  const NAV: seq<NavItem> := [
    NavItem("Catalog", "/home/ash/catalog", "Package"),
    NavItem("My Deployments", "/home/ash/deployments", "Layers")
  ]

  /** The database tables the product owns. */
  const ENTITIES: seq<string> := ["app_templates", "compose_configs"]

  /** Resource limits per plan. */
  const PLANS: map<string, map<string, Limit>> := map[
    "free" := map["compose_configs" := Bounded(5), "generations_per_hour" := Bounded(10)],
    "pro" := map["compose_configs" := Unlimited, "generations_per_hour" := Unlimited]
  ]

  /** The plan table as the manifest writes it, with -1 for unlimited. */
  const PLAN_SENTINELS: map<string, map<string, int>> := map[
    "free" := map["compose_configs" := 5, "generations_per_hour" := 10],
    "pro" := map["compose_configs" := -1, "generations_per_hour" := -1]
  ]

  /** Reading the manifest's integers as limits gives the tagged table, entry by entry. */
  lemma SentinelTable()
    ensures PLAN_SENTINELS.Keys == PLANS.Keys
    ensures forall p :: p in PLANS ==> PLAN_SENTINELS[p].Keys == PLANS[p].Keys
    ensures forall p, r :: p in PLANS && r in PLANS[p] ==> FromSentinel(PLAN_SENTINELS[p][r]) == PLANS[p][r]
    ensures forall p, r :: p in PLANS && r in PLANS[p] ==> PLAN_SENTINELS[p][r] == ToSentinel(PLANS[p][r])
  {
  }

  /** The resource keys are those of the free plan. */
  function ResourceKeys(): (keys: set<string>)
    ensures keys == {"compose_configs", "generations_per_hour"}
  {
    PLANS["free"].Keys
  }

  /**
   * The plan table: two plans that define the same resources; the free plan
   * bounds them at 5 and 10, the pro plan leaves both unlimited, and no bound
   * is the ambiguous -1.
   */
  lemma PlanTable()
    ensures PLANS.Keys == {"free", "pro"}
    ensures forall p :: p in PLANS ==> PLANS[p].Keys == ResourceKeys()
    ensures PLANS["free"]["compose_configs"] == Bounded(5)
    ensures PLANS["free"]["generations_per_hour"] == Bounded(10)
    ensures forall r :: r in PLANS["pro"] ==> PLANS["pro"][r] == Unlimited
    ensures forall p, r :: p in PLANS && r in PLANS[p] ==> PLANS[p][r] != Bounded(-1)
  {
  }

  /** Two navigation entries, the catalog and the deployments pages; two entities. */
  lemma NavigationAndEntities()
    ensures |NAV| == 2 && NAV[0].path == "/home/ash/catalog" && NAV[1].path == "/home/ash/deployments"
    ensures ENTITIES == ["app_templates", "compose_configs"]
  {
  }
}
