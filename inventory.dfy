/** The inventory both collectors walk: subscription id -> resource group name
    -> provider -> resource names, each level an insertion-ordered mapping
    (collect_metrics.py:63-66, collect_profiles.py:88-94). */
module Inventory {

  /** provider -> resource names */
  type Providers = seq<(string, seq<string>)>
  /** resource group name -> providers */
  type ResourceGroups = seq<(string, Providers)>
  /** subscription id -> resource groups */
  type Inventory = seq<(string, ResourceGroups)>

  /** One pass of the third loop: a provider of one resource group, with its
      resource names. */
  datatype ProviderVisit = ProviderVisit(
    subscription: string, resourceGroup: string, provider: string, resourceNames: seq<string>)

  /** One pass of the innermost loop. */
  datatype Resource = Resource(subscription: string, resourceGroup: string, provider: string, name: string)

  /** The provider visits of one resource group, in order. */
  function GroupVisits(sub: string, rg: string, providers: Providers): seq<ProviderVisit>
  {
    if providers == [] then []
    else
      var (p, names) := providers[|providers| - 1];
      GroupVisits(sub, rg, providers[..|providers| - 1]) + [ProviderVisit(sub, rg, p, names)]
  }

  /** The provider visits of one subscription, in order. */
  function SubscriptionVisits(sub: string, groups: ResourceGroups): seq<ProviderVisit>
  {
    if groups == [] then []
    else
      var (rg, providers) := groups[|groups| - 1];
      SubscriptionVisits(sub, groups[..|groups| - 1]) + GroupVisits(sub, rg, providers)
  }

  /** The provider visits of the whole inventory, in order. */
  function Visits(inv: Inventory): seq<ProviderVisit>
  {
    if inv == [] then []
    else
      var (sub, groups) := inv[|inv| - 1];
      Visits(inv[..|inv| - 1]) + SubscriptionVisits(sub, groups)
  }

  /** The resources named in one provider visit, in order. */
  function Located(sub: string, rg: string, p: string, names: seq<string>): seq<Resource>
  {
    if names == [] then []
    else Located(sub, rg, p, names[..|names| - 1]) + [Resource(sub, rg, p, names[|names| - 1])]
  }

  /** The resources of a sequence of provider visits, in order. */
  function Walk(visits: seq<ProviderVisit>): seq<Resource>
  {
    if visits == [] then []
    else
      var v := visits[|visits| - 1];
      Walk(visits[..|visits| - 1]) + Located(v.subscription, v.resourceGroup, v.provider, v.resourceNames)
  }

  /** The number of resource names listed in the inventory. */
  function ResourceCount(inv: Inventory): nat
  {
    if inv == [] then 0 else GroupsCount(inv[0].1) + ResourceCount(inv[1..])
  }

  function GroupsCount(groups: ResourceGroups): nat
  {
    if groups == [] then 0 else ProvidersCount(groups[0].1) + GroupsCount(groups[1..])
  }

  function ProvidersCount(providers: Providers): nat
  {
    if providers == [] then 0 else |providers[0].1| + ProvidersCount(providers[1..])
  }

  lemma {:induction false} LocatedShape(sub: string, rg: string, p: string, names: seq<string>)
    ensures |Located(sub, rg, p, names)| == |names|
    ensures forall k :: 0 <= k < |names| ==> Located(sub, rg, p, names)[k] == Resource(sub, rg, p, names[k])
  {
    if names != [] {
      LocatedShape(sub, rg, p, names[..|names| - 1]);
    }
  }

  lemma {:induction false} WalkAppend(a: seq<ProviderVisit>, b: seq<ProviderVisit>)
    ensures Walk(a + b) == Walk(a) + Walk(b)
  {
    if b == [] {
      assert a + b == a;
    } else {
      assert (a + b)[..|a + b| - 1] == a + b[..|b| - 1];
      WalkAppend(a, b[..|b| - 1]);
    }
  }

  lemma {:induction false} GroupVisitsAppend(sub: string, rg: string, a: Providers, b: Providers)
    ensures GroupVisits(sub, rg, a + b) == GroupVisits(sub, rg, a) + GroupVisits(sub, rg, b)
  {
    if b == [] {
      assert a + b == a;
    } else {
      assert (a + b)[..|a + b| - 1] == a + b[..|b| - 1];
      GroupVisitsAppend(sub, rg, a, b[..|b| - 1]);
    }
  }

  lemma {:induction false} SubscriptionVisitsAppend(sub: string, a: ResourceGroups, b: ResourceGroups)
    ensures SubscriptionVisits(sub, a + b) == SubscriptionVisits(sub, a) + SubscriptionVisits(sub, b)
  {
    if b == [] {
      assert a + b == a;
    } else {
      assert (a + b)[..|a + b| - 1] == a + b[..|b| - 1];
      SubscriptionVisitsAppend(sub, a, b[..|b| - 1]);
    }
  }

  lemma {:induction false} VisitsAppend(a: Inventory, b: Inventory)
    ensures Visits(a + b) == Visits(a) + Visits(b)
  {
    if b == [] {
      assert a + b == a;
    } else {
      assert (a + b)[..|a + b| - 1] == a + b[..|b| - 1];
      VisitsAppend(a, b[..|b| - 1]);
    }
  }

  lemma {:induction false} GroupVisitsCount(sub: string, rg: string, providers: Providers)
    ensures |Walk(GroupVisits(sub, rg, providers))| == ProvidersCount(providers)
  {
    if providers != [] {
      var (p, names) := providers[0];
      GroupVisitsCount(sub, rg, providers[1..]);
      assert providers == [providers[0]] + providers[1..];
      GroupVisitsAppend(sub, rg, [providers[0]], providers[1..]);
      assert GroupVisits(sub, rg, [providers[0]]) == [ProviderVisit(sub, rg, p, names)];
      WalkAppend([ProviderVisit(sub, rg, p, names)], GroupVisits(sub, rg, providers[1..]));
      LocatedShape(sub, rg, p, names);
    }
  }

  lemma {:induction false} SubscriptionVisitsCount(sub: string, groups: ResourceGroups)
    ensures |Walk(SubscriptionVisits(sub, groups))| == GroupsCount(groups)
  {
    if groups != [] {
      var (rg, providers) := groups[0];
      SubscriptionVisitsCount(sub, groups[1..]);
      assert groups == [groups[0]] + groups[1..];
      SubscriptionVisitsAppend(sub, [groups[0]], groups[1..]);
      assert SubscriptionVisits(sub, [groups[0]]) == GroupVisits(sub, rg, providers);
      WalkAppend(GroupVisits(sub, rg, providers), SubscriptionVisits(sub, groups[1..]));
      GroupVisitsCount(sub, rg, providers);
    }
  }

  /** The walk yields exactly one resource per resource name listed in the
      inventory. */
  lemma {:induction false} WalkCount(inv: Inventory)
    ensures |Walk(Visits(inv))| == ResourceCount(inv)
  {
    if inv != [] {
      var (sub, groups) := inv[0];
      WalkCount(inv[1..]);
      assert inv == [inv[0]] + inv[1..];
      VisitsAppend([inv[0]], inv[1..]);
      assert Visits([inv[0]]) == SubscriptionVisits(sub, groups);
      WalkAppend(SubscriptionVisits(sub, groups), Visits(inv[1..]));
      SubscriptionVisitsCount(sub, groups);
    }
  }

  // One step of each loop of the walk, in the order the loops run.

  lemma LocatedStep(sub: string, rg: string, p: string, names: seq<string>, l: nat)
    requires l < |names|
    ensures Located(sub, rg, p, names[..l + 1]) == Located(sub, rg, p, names[..l]) + [Resource(sub, rg, p, names[l])]
  {
    assert names[..l + 1][..l] == names[..l];
  }

  lemma GroupStep(sub: string, rg: string, providers: Providers, k: nat)
    requires k < |providers|
    ensures Walk(GroupVisits(sub, rg, providers[..k + 1]))
         == Walk(GroupVisits(sub, rg, providers[..k])) + Located(sub, rg, providers[k].0, providers[k].1)
  {
    assert providers[..k + 1][..k] == providers[..k];
    var v := ProviderVisit(sub, rg, providers[k].0, providers[k].1);
    WalkAppend(GroupVisits(sub, rg, providers[..k]), [v]);
    assert [v][..0] == [];
  }

  lemma SubscriptionStep(sub: string, groups: ResourceGroups, j: nat)
    requires j < |groups|
    ensures Walk(SubscriptionVisits(sub, groups[..j + 1]))
         == Walk(SubscriptionVisits(sub, groups[..j])) + Walk(GroupVisits(sub, groups[j].0, groups[j].1))
  {
    assert groups[..j + 1][..j] == groups[..j];
    WalkAppend(SubscriptionVisits(sub, groups[..j]), GroupVisits(sub, groups[j].0, groups[j].1));
  }

  lemma InventoryStep(inv: Inventory, i: nat)
    requires i < |inv|
    ensures Walk(Visits(inv[..i + 1])) == Walk(Visits(inv[..i])) + Walk(SubscriptionVisits(inv[i].0, inv[i].1))
  {
    assert inv[..i + 1][..i] == inv[..i];
    WalkAppend(Visits(inv[..i]), SubscriptionVisits(inv[i].0, inv[i].1));
  }

  // ---- The text a collector writes, resource by resource ----

  /** The blocks of `resources`, in order. */
  function Blocks(block: Resource -> string, resources: seq<Resource>): string
  {
    if resources == [] then ""
    else Blocks(block, resources[..|resources| - 1]) + block(resources[|resources| - 1])
  }

  /** Blocks are not sorted across resources: the text for two runs of
      resources is the text of the first followed by that of the second. */
  lemma {:induction false} BlocksAppend(block: Resource -> string, a: seq<Resource>, b: seq<Resource>)
    ensures Blocks(block, a + b) == Blocks(block, a) + Blocks(block, b)
  {
    if b == [] {
      assert a + b == a;
    } else {
      assert (a + b)[..|a + b| - 1] == a + b[..|b| - 1];
      BlocksAppend(block, a, b[..|b| - 1]);
    }
  }

  lemma BlocksSnoc(block: Resource -> string, a: seq<Resource>, r: Resource)
    ensures Blocks(block, a + [r]) == Blocks(block, a) + block(r)
  {
    assert (a + [r])[..|a|] == a;
  }
}
