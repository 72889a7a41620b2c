/** The tracked-aggregate registry as a value: the groups in insertion order,
    each a contract with the aggregates tracked under it, in tracking order. */
module Registry {
  import opened Changes
  import opened Aggregates

  datatype Group = Group(contract: Contract, aggregates: seq<Aggregate>)

  /** The contract name of the i-th group. */
  function NameAt(groups: seq<Group>, i: nat): string
    requires i < |groups|
  {
    groups[i].contract.name
  }

  /** The registry is keyed by contract name: no name has two groups. */
  ghost predicate DistinctNames(groups: seq<Group>) {
    forall i, j :: 0 <= i < j < |groups| ==> NameAt(groups, i) != NameAt(groups, j)
  }

  /** No group holds two aggregates that identify alike. */
  ghost predicate Unique(groups: seq<Group>) {
    forall g, i, j :: 0 <= g < |groups| && 0 <= i < j < |groups[g].aggregates| ==>
      groups[g].aggregates[i].id != groups[g].aggregates[j].id
  }

  /** The position of the group with the given contract name, or -1 (array_key_exists). */
  function GroupIndex(groups: seq<Group>, name: ContractName): (r: int)
    ensures -1 <= r < |groups|
    ensures r == -1 <==> forall i :: 0 <= i < |groups| ==> groups[i].contract.name != name
    ensures r >= 0 ==>
      groups[r].contract.name == name && forall i :: 0 <= i < r ==> NameAt(groups, i) != name
  {
    if groups == [] then -1
    else if groups[0].contract.name == name then 0
    else
      var r := GroupIndex(groups[1..], name);
      if r < 0 then -1
      else
        assert forall i :: 1 <= i <= r ==> NameAt(groups, i) == NameAt(groups[1..], i - 1);
        r + 1
  }

  /** The position of the first aggregate that identifies as id, or -1. */
  function IndexOfId(aggregates: seq<Aggregate>, id: AggregateId): (r: int)
    ensures -1 <= r < |aggregates|
    ensures r == -1 <==> forall i :: 0 <= i < |aggregates| ==> aggregates[i].id != id
    ensures r >= 0 ==> aggregates[r].id == id && forall i :: 0 <= i < r ==> aggregates[i].id != id
  {
    if aggregates == [] then -1
    else if aggregates[0].id == id then 0
    else
      var r := IndexOfId(aggregates[1..], id);
      if r < 0 then -1 else r + 1
  }

  /** findTrackedAggregate: null when the contract has no group, otherwise the
      first aggregate of that group that identifies as id, or null if none does. */
  function Find(groups: seq<Group>, name: ContractName, id: AggregateId): (r: Aggregate?)
    ensures r == null <==>
      (GroupIndex(groups, name) < 0 ||
       forall i :: 0 <= i < |groups[GroupIndex(groups, name)].aggregates| ==>
         groups[GroupIndex(groups, name)].aggregates[i].id != id)
    ensures r != null ==> r.id == id && r in groups[GroupIndex(groups, name)].aggregates
    ensures r != null ==>
      var aggregates := groups[GroupIndex(groups, name)].aggregates;
      exists k :: 0 <= k < |aggregates| && aggregates[k] == r && forall i :: 0 <= i < k ==> aggregates[i].id != id
  {
    var g := GroupIndex(groups, name);
    if g < 0 then null
    else
      var k := IndexOfId(groups[g].aggregates, id);
      if k < 0 then null else groups[g].aggregates[k]
  }

  /** ensureTrackedAggregateTypeIsPrepared: an empty group for the contract is added
      at the end if its name has none; the existing groups keep their places. */
  function Prepare(groups: seq<Group>, contract: Contract): (r: seq<Group>)
    ensures groups <= r && GroupIndex(r, contract.name) >= 0
    ensures |r| == |groups| <==> GroupIndex(groups, contract.name) >= 0
    ensures |r| != |groups| ==> r == groups + [Group(contract, [])]
    ensures DistinctNames(groups) ==> DistinctNames(r)
  {
    if GroupIndex(groups, contract.name) >= 0 then groups
    else
      var r := groups + [Group(contract, [])];
      assert r[|groups|].contract.name == contract.name;
      assert forall i :: 0 <= i < |groups| ==> NameAt(r, i) == NameAt(groups, i);
      r
  }

  /** The registry after a successful track of a under contract. */
  function Add(groups: seq<Group>, contract: Contract, a: Aggregate): (r: seq<Group>)
    ensures DistinctNames(groups) ==> DistinctNames(r)
  {
    var p := Prepare(groups, contract);
    var g := GroupIndex(p, contract.name);
    var r := p[g := p[g].(aggregates := p[g].aggregates + [a])];
    assert forall i :: 0 <= i < |p| ==> NameAt(r, i) == NameAt(p, i);
    r
  }

  /** A successful track creates the contract's group at the end if it is missing,
      appends the aggregate at the end of that group, and changes no other group. */
  lemma AddAppendsToGroup(groups: seq<Group>, contract: Contract, a: Aggregate)
    ensures var r := Add(groups, contract, a); var g := GroupIndex(groups, contract.name);
      if g >= 0 then
        |r| == |groups| && r[g] == Group(groups[g].contract, groups[g].aggregates + [a]) &&
        forall j :: 0 <= j < |groups| && j != g ==> r[j] == groups[j]
      else
        r == groups + [Group(contract, [a])]
  {
    var p := Prepare(groups, contract);
    if GroupIndex(groups, contract.name) < 0 {
      assert GroupIndex(p, contract.name) == |groups|;
      assert p[|groups|] == Group(contract, []);
      assert p[|groups|].aggregates + [a] == [a];
      assert Add(groups, contract, a) == p[|groups| := Group(contract, [a])];
    } else {
      assert p == groups;
    }
  }

  /** After tracking a, looking a up by its own id under the same contract finds a
      tracked instance, so a second track of the same (type, id) is refused. */
  lemma AddThenFound(groups: seq<Group>, contract: Contract, a: Aggregate)
    ensures Find(Add(groups, contract, a), contract.name, a.id) != null
    ensures Find(groups, contract.name, a.id) == null ==> Find(Add(groups, contract, a), contract.name, a.id) == a
  {
    var r := Add(groups, contract, a);
    var p := Prepare(groups, contract);
    var g := GroupIndex(p, contract.name);
    assert forall i :: 0 <= i < |p| ==> NameAt(r, i) == NameAt(p, i);
    FirstNamed(r, contract.name, g);
    var aggs := r[g].aggregates;
    assert aggs[|aggs| - 1] == a;
    if Find(groups, contract.name, a.id) == null {
      assert forall i :: 0 <= i < |p[g].aggregates| ==> p[g].aggregates[i].id != a.id;
      assert IndexOfId(aggs, a.id) == |aggs| - 1;
    }
  }

  /** The first group named name is the one GroupIndex finds. */
  lemma FirstNamed(groups: seq<Group>, name: ContractName, k: nat)
    requires k < |groups| && NameAt(groups, k) == name
    requires forall i :: 0 <= i < k ==> NameAt(groups, i) != name
    ensures GroupIndex(groups, name) == k
  {
    var r := GroupIndex(groups, name);
    if r >= 0 {
      assert NameAt(groups, r) == name;
    }
  }

  /** Groups with the same contracts at the same places are searched alike. */
  lemma SameContractsSameIndex(a: seq<Group>, b: seq<Group>, name: ContractName)
    requires |a| == |b| && forall i :: 0 <= i < |a| ==> a[i].contract == b[i].contract
    ensures GroupIndex(a, name) == GroupIndex(b, name)
  {
  }

  /** Appending an aggregate that does not identify as id leaves the search for id alone. */
  lemma IndexOfIdAppend(aggregates: seq<Aggregate>, a: Aggregate, id: AggregateId)
    requires a.id != id
    ensures IndexOfId(aggregates + [a], id) == IndexOfId(aggregates, id)
  {
    var extended := aggregates + [a];
    var k := IndexOfId(aggregates, id);
    if k < 0 {
      assert forall i :: 0 <= i < |extended| ==> extended[i].id != id;
    } else {
      assert extended[k].id == id;
      assert forall i :: 0 <= i < k ==> extended[i].id != id;
      var r := IndexOfId(extended, id);
      assert r <= k;
      assert !(r < k);
    }
  }

  /** Preparing a group changes no lookup: a new group is empty. */
  lemma PrepareKeepsLookups(groups: seq<Group>, contract: Contract, name: ContractName, id: AggregateId)
    ensures Find(Prepare(groups, contract), name, id) == Find(groups, name, id)
  {
    var p := Prepare(groups, contract);
    if GroupIndex(groups, contract.name) < 0 {
      var h := GroupIndex(p, name);
      assert forall i :: 0 <= i < |groups| ==> NameAt(p, i) == NameAt(groups, i);
      if 0 <= h < |groups| {
        FirstNamed(groups, name, h);
      }
    }
  }

  /** Tracking a changes no other lookup: every (name, id) other than
      (contract.name, a.id) finds what it found before. */
  lemma AddKeepsOtherLookups(groups: seq<Group>, contract: Contract, a: Aggregate, name: ContractName, id: AggregateId)
    requires name != contract.name || id != a.id
    ensures Find(Add(groups, contract, a), name, id) == Find(groups, name, id)
  {
    var r := Add(groups, contract, a);
    var p := Prepare(groups, contract);
    var g := GroupIndex(p, contract.name);
    SameContractsSameIndex(r, p, name);
    var h := GroupIndex(p, name);
    if h >= 0 && h == g {
      IndexOfIdAppend(p[g].aggregates, a, id);
    }
    assert Find(r, name, id) == Find(p, name, id);
    PrepareKeepsLookups(groups, contract, name, id);
  }

  /** Tracking an aggregate whose id is not yet tracked under its contract keeps
      identities unique within each group. */
  lemma AddKeepsUnique(groups: seq<Group>, contract: Contract, a: Aggregate)
    requires Unique(groups)
    requires Find(groups, contract.name, a.id) == null
    ensures Unique(Add(groups, contract, a))
  {
    var p := Prepare(groups, contract);
    var g := GroupIndex(p, contract.name);
    assert Unique(p);
    if GroupIndex(groups, contract.name) < 0 {
      assert g == |groups| && p[g].aggregates == [];
    } else {
      assert p == groups && g == GroupIndex(groups, contract.name);
    }
    assert forall i :: 0 <= i < |p[g].aggregates| ==> p[g].aggregates[i].id != a.id;
  }
}
