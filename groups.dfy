/** What both flows share about groups: entity references and snapshots, the
    persisted configuration record, and the two rules that read the group
    structure out of a submitted draft — how many groups it holds and which
    of them survive the removal pass. */
module Groups {
  import opened Values

  /** What the state registry returns for a known entity. */
  datatype Snapshot = Snapshot(
    entityId: string,
    state: string,
    attributes: map<string, string>,
    lastChanged: string,
    lastUpdated: string)

  /** `hass.states.get`: a snapshot for a known entity id. */
  type Registry = string -> Option<Snapshot>

  /** One entry of a weather forecast, kept opaque. */
  datatype Forecast = Forecast(fields: map<string, string>)

  /** An entity reference: at rest `{"entity_id": id}`, or expanded with the
      entity's current state (and, for weather, its forecast). */
  datatype Entity =
    | Ref(entityId: string)
    | Expanded(
        entityId: string,
        state: string,
        attributes: map<string, string>,
        lastChanged: string,
        lastUpdated: string,
        forecast: Option<seq<Forecast>>)

  /** `[e.get("entity_id") for e in es]`. */
  function Ids(es: seq<Entity>): (ids: seq<string>)
    ensures |ids| == |es|
  {
    seq(|es|, k requires 0 <= k < |es| => es[k].entityId)
  }

  /** A group: `groupName` is absent when the submitted name was falsy. */
  datatype Group = Group(name: Option<Value>, entities: seq<Entity>)

  /** The persisted configuration record; a field is None when its key is absent. */
  datatype Stored = Stored(
    webhookUrl: Option<Value>,
    groups: Option<seq<Group>>,
    pills: Option<seq<Entity>>,
    visualizations: Option<seq<Entity>>,
    layout: Option<Value>,
    pillPosition: Option<Value>,
    showTitleBar: Option<Value>,
    showEntityTitle: Option<Value>,
    showEntityIcon: Option<Value>,
    scale: Option<Value>)

  /** `{}`: no entry yet. */
  const NoRecord := Stored(None, None, None, None, None, None, None, None, None, None)

  function Pick<T>(data: Option<T>, options: Option<T>): Option<T> {
    if options.Some? then options else data
  }

  /** `{**entry.data, **entry.options}`: a key present in the options wins. */
  function Overlay(data: Stored, options: Stored): (r: Stored)
    ensures options == NoRecord ==> r == data
    ensures data == NoRecord ==> r == options
  {
    Stored(
      Pick(data.webhookUrl, options.webhookUrl),
      Pick(data.groups, options.groups),
      Pick(data.pills, options.pills),
      Pick(data.visualizations, options.visualizations),
      Pick(data.layout, options.layout),
      Pick(data.pillPosition, options.pillPosition),
      Pick(data.showTitleBar, options.showTitleBar),
      Pick(data.showEntityTitle, options.showEntityTitle),
      Pick(data.showEntityIcon, options.showEntityIcon),
      Pick(data.scale, options.scale))
  }

  /** `prev_data.get("groups", [])`. */
  function StoredGroups(prev: Stored): seq<Group> {
    prev.groups.GetOr([])
  }

  /** The slots the first render shows: `len(groups) if groups else 1`. */
  function InitialSlots(prev: Stored): (n: nat)
    ensures n >= 1
    ensures StoredGroups(prev) != [] ==> n == |StoredGroups(prev)|
    ensures StoredGroups(prev) == [] ==> n == 1
  {
    var groups := StoredGroups(prev);
    if groups != [] then |groups| else 1
  }

  // ---------------------------------------------------------------------------
  // How many groups a draft holds

  /** The draft has a name or an entities field for group index i. */
  predicate HasGroup(d: Draft, i: nat) {
    GroupNameKey(i) in d || GroupEntitiesKey(i) in d
  }

  /** The field of `d` that shows group index i is present. */
  function GroupWitness(d: Draft, i: nat): string
    requires HasGroup(d, i)
  {
    if GroupNameKey(i) in d then GroupNameKey(i) else GroupEntitiesKey(i)
  }

  /** Distinct indices are shown by distinct fields, so a run of n indices
      needs n distinct keys. */
  lemma {:induction false} Witnesses(d: Draft, n: nat) returns (w: set<string>)
    requires forall j :: 0 <= j < n ==> HasGroup(d, j)
    ensures w <= d.Keys && |w| == n
    ensures forall j :: 0 <= j < n ==> GroupWitness(d, j) in w
    ensures forall k :: k in w ==> IsWitnessBelow(d, k, n)
  {
    if n == 0 {
      w := {};
    } else {
      var w' := Witnesses(d, n - 1);
      var k := GroupWitness(d, n - 1);
      if k in w' {
        var j :| 0 <= j < n - 1 && HasGroup(d, j) && k == GroupWitness(d, j);
        WitnessesApart(d, j, n - 1);
        assert false;
      }
      w := w' + {k};
    }
  }

  lemma WitnessesApart(d: Draft, i: nat, j: nat)
    requires HasGroup(d, i) && HasGroup(d, j) && i != j
    ensures GroupWitness(d, i) != GroupWitness(d, j)
  {
    IndexedKeysDistinct(i, j);
    IndexedKeysDistinct(j, i);
  }

  ghost predicate IsWitnessBelow(d: Draft, k: string, n: nat) {
    exists j :: 0 <= j < n && HasGroup(d, j) && k == GroupWitness(d, j)
  }

  lemma PrefixFitsInDraft(d: Draft, n: nat)
    requires forall j :: 0 <= j < n ==> HasGroup(d, j)
    ensures n <= |d.Keys|
  {
    var w := Witnesses(d, n);
    assert |w| <= |d.Keys| by { SubsetCard(w, d.Keys); }
  }

  lemma {:induction false} SubsetCard(a: set<string>, b: set<string>)
    requires a <= b
    ensures |a| <= |b|
  {
    if a != {} {
      var x :| x in a;
      SubsetCard(a - {x}, b - {x});
    }
  }

  /** The end of the run of present group indices that starts at i. */
  function RunLength(d: Draft, i: nat): (n: nat)
    requires forall j :: 0 <= j < i ==> HasGroup(d, j)
    ensures i <= n
    ensures forall j :: 0 <= j < n ==> HasGroup(d, j)
    ensures !HasGroup(d, n)
    decreases |d.Keys| - i
  {
    if HasGroup(d, i) then
      PrefixFitsInDraft(d, i + 1);
      RunLength(d, i + 1)
    else
      i
  }

  /** The working group count of a draft: the contiguous indices 0, 1, ...
      that have a name or entities field, and never less than 1. */
  function GroupCount(d: Draft): (n: nat)
    ensures n >= 1
    ensures HasGroup(d, 0) ==> (forall j :: 0 <= j < n ==> HasGroup(d, j)) && !HasGroup(d, n)
    ensures !HasGroup(d, 0) ==> n == 1
  {
    var run := RunLength(d, 0);
    if run > 0 then run else 1
  }

  /** The count is the longest present prefix, whatever else the draft holds. */
  lemma GroupCountIsLongestPrefix(d: Draft, n: nat)
    requires forall j :: 0 <= j < n ==> HasGroup(d, j)
    requires !HasGroup(d, n)
    ensures GroupCount(d) == if n > 0 then n else 1
  {
  }

  /** The `while` loop both step handlers open with. */
  method CountGroups(d: Draft) returns (numGroups: nat)
    ensures numGroups == GroupCount(d)
  {
    var i := 0;
    while GroupNameKey(i) in d || GroupEntitiesKey(i) in d
      invariant forall j :: 0 <= j < i ==> HasGroup(d, j)
      invariant RunLength(d, i) == RunLength(d, 0)
      decreases |d.Keys| - i
    {
      PrefixFitsInDraft(d, i + 1);
      i := i + 1;
    }
    numGroups := if i > 0 then i else 1;
  }

  // ---------------------------------------------------------------------------
  // Which groups survive the removal pass

  /** `user_input.get(f"remove_group_{i}")` is truthy. */
  predicate Flagged(d: Draft, i: nat) {
    RemoveGroupKey(i) in d && Truthy(d[RemoveGroupKey(i)])
  }

  /** `removed_indices`: the flagged indices below n, in increasing order. */
  function RemovedIndices(d: Draft, n: nat): seq<nat> {
    if n == 0 then [] else RemovedIndices(d, n - 1) + (if Flagged(d, n - 1) then [n - 1] else [])
  }

  /** The removed indices are exactly the flagged ones below n, in increasing order. */
  lemma {:induction false} RemovedIndicesMeaning(d: Draft, n: nat)
    ensures forall k: nat :: k in RemovedIndices(d, n) <==> k < n && Flagged(d, k)
    ensures forall p :: 0 <= p < |RemovedIndices(d, n)| ==> RemovedIndices(d, n)[p] < n
    ensures forall p, q :: 0 <= p < q < |RemovedIndices(d, n)| ==> RemovedIndices(d, n)[p] < RemovedIndices(d, n)[q]
  {
    if n > 0 {
      RemovedIndicesMeaning(d, n - 1);
    }
  }

  /** The indices below n a flow materialises, in increasing order: all of
      them, or (with `removal`) those not flagged for removal. */
  function Survivors(d: Draft, n: nat, removal: bool): seq<nat> {
    if n == 0 then [] else Survivors(d, n - 1, removal) + (if removal && Flagged(d, n - 1) then [] else [n - 1])
  }

  /** The survivors are exactly the indices below n not removed, in increasing order. */
  lemma {:induction false} SurvivorsMeaning(d: Draft, n: nat, removal: bool)
    ensures forall k: nat :: k in Survivors(d, n, removal) <==> k < n && !(removal && Flagged(d, k))
    ensures forall p :: 0 <= p < |Survivors(d, n, removal)| ==> Survivors(d, n, removal)[p] < n
    ensures forall p, q :: 0 <= p < q < |Survivors(d, n, removal)| ==>
              Survivors(d, n, removal)[p] < Survivors(d, n, removal)[q]
  {
    if n > 0 {
      SurvivorsMeaning(d, n - 1, removal);
    }
  }

  /** Removal is judged on the pre-removal numbering: every index below n is
      either removed or survives. */
  lemma {:induction false} SurvivorsCount(d: Draft, n: nat)
    ensures |Survivors(d, n, true)| + |RemovedIndices(d, n)| == n
  {
    if n > 0 {
      SurvivorsCount(d, n - 1);
    }
  }

  /** Without the removal pass every index survives. */
  lemma {:induction false} SurvivorsAll(d: Draft, n: nat)
    ensures Survivors(d, n, false) == seq(n, k => k)
  {
    if n > 0 {
      SurvivorsAll(d, n - 1);
      assert seq(n - 1, k => k) + [n - 1] == seq(n, k => k);
    }
  }

  // ---------------------------------------------------------------------------
  // Materialising the groups of a draft

  /** `user_input.get("add_another_group", False)` is truthy. */
  predicate AddRequested(d: Draft) {
    Truthy(Get(d, "add_another_group", B(false)))
  }

  /** The materialised group list: `build(idx)` for each surviving index below
      n, appended in increasing index order. */
  function KeptGroups<G>(d: Draft, n: nat, removal: bool, build: nat -> G): seq<G> {
    if n == 0 then []
    else KeptGroups(d, n - 1, removal, build) + (if removal && Flagged(d, n - 1) then [] else [build(n - 1)])
  }

  /** The materialised list is exactly the survivors, built, in their order:
      a removed group leaves no gap and the others keep their relative order. */
  lemma {:induction false} KeptGroupsAreSurvivors<G>(d: Draft, n: nat, removal: bool, build: nat -> G)
    ensures |KeptGroups(d, n, removal, build)| == |Survivors(d, n, removal)|
    ensures forall k :: 0 <= k < |Survivors(d, n, removal)| ==>
              KeptGroups(d, n, removal, build)[k] == build(Survivors(d, n, removal)[k])
  {
    if n > 0 {
      KeptGroupsAreSurvivors(d, n - 1, removal, build);
    }
  }

  /** When nothing below n is flagged, the removal pass changes nothing. */
  lemma {:induction false} KeptGroupsNoFlags<G>(d: Draft, n: nat, build: nat -> G)
    requires forall k :: 0 <= k < n ==> !Flagged(d, k)
    ensures KeptGroups(d, n, true, build) == KeptGroups(d, n, false, build)
  {
    if n > 0 {
      KeptGroupsNoFlags(d, n - 1, build);
    }
  }

  /** Without the removal pass group k is built from index k, for every k below n. */
  lemma KeptGroupsWithoutRemoval<G>(d: Draft, n: nat, build: nat -> G)
    ensures |KeptGroups(d, n, false, build)| == n
    ensures forall k :: 0 <= k < n ==> KeptGroups(d, n, false, build)[k] == build(k)
  {
    KeptGroupsAreSurvivors(d, n, false, build);
    SurvivorsAll(d, n);
  }
}
