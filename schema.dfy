/** The form description both flows build: an ordered list of fields, each
    with a name, a selector kind and a default. The per-group part and the
    precedence of its defaults (draft value, then persisted group, then the
    hard-coded default) are the same in every builder and are defined here. */
module Schema {
  import opened Values
  import opened Groups

  /** The selector a field is rendered with. */
  datatype Kind = Text | Toggle | Select(options: seq<string>) | EntityPicker(domain: Option<string>)

  /** One `vol.Required`/`vol.Optional` entry; a default of None is Python's `None`. */
  datatype Field = Field(key: string, required: bool, kind: Kind, default: Option<Value>)

  function Keys(fs: seq<Field>): (ks: seq<string>)
    ensures |ks| == |fs|
  {
    seq(|fs|, p requires 0 <= p < |fs| => fs[p].key)
  }

  /** No field name occurs twice, so the ordered list is the schema dictionary
      with nothing overwritten. */
  predicate DistinctKeys(fs: seq<Field>) {
    forall p, q :: 0 <= p < q < |fs| ==> fs[p].key != fs[q].key
  }

  lemma DistinctConcat(a: seq<Field>, b: seq<Field>)
    requires DistinctKeys(a) && DistinctKeys(b)
    requires forall k :: k in Keys(a) ==> k !in Keys(b)
    ensures DistinctKeys(a + b)
  {
    forall p, q | 0 <= p < q < |a + b| ensures (a + b)[p].key != (a + b)[q].key {
      if q < |a| {
        assert (a + b)[p] == a[p] && (a + b)[q] == a[q];
      } else if p >= |a| {
        assert (a + b)[p] == b[p - |a|] && (a + b)[q] == b[q - |a|];
      } else {
        assert Keys(a)[p] == (a + b)[p].key && Keys(a)[p] in Keys(a);
        assert Keys(b)[q - |a|] == (a + b)[q].key && Keys(b)[q - |a|] in Keys(b);
      }
    }
  }

  // ---------------------------------------------------------------------------
  // Defaults of the per-group fields

  /** `groups[i].get("groupName", f"Group {i+1}") if i < len(groups) else f"Group {i+1}"`. */
  function StoredName(groups: seq<Group>, i: nat): Value {
    if i < |groups| then groups[i].name.GetOr(S(DefaultGroupName(i))) else S(DefaultGroupName(i))
  }

  /** The entity ids persisted for group i, or none past the last group. */
  function StoredIds(groups: seq<Group>, i: nat): Value {
    if i < |groups| then L(Ids(groups[i].entities)) else L([])
  }

  /** Default of `group_{i}_name`. */
  function NameDefault(draft: Option<Draft>, groups: seq<Group>, i: nat): Value {
    if Submitted(draft) then Get(draft.value, GroupNameKey(i), StoredName(groups, i))
    else if i < |groups| then groups[i].name.GetOr(S(DefaultGroupName(i)))
    else S(DefaultGroupName(i))
  }

  /** Default of `group_{i}_entities`. */
  function EntitiesDefault(draft: Option<Draft>, groups: seq<Group>, i: nat): Value {
    if Submitted(draft) then Get(draft.value, GroupEntitiesKey(i), StoredIds(groups, i))
    else if i < |groups| then L(Ids(groups[i].entities))
    else L([])
  }

  /** The three-level precedence of a group's defaults. */
  lemma GroupDefaultPrecedence(draft: Option<Draft>, groups: seq<Group>, i: nat)
    ensures Submitted(draft) && GroupNameKey(i) in draft.value ==>
              NameDefault(draft, groups, i) == draft.value[GroupNameKey(i)]
    ensures Submitted(draft) && GroupEntitiesKey(i) in draft.value ==>
              EntitiesDefault(draft, groups, i) == draft.value[GroupEntitiesKey(i)]
    ensures !(Submitted(draft) && GroupNameKey(i) in draft.value) ==>
              NameDefault(draft, groups, i) ==
                (if i < |groups| && groups[i].name.Some? then groups[i].name.value else S(DefaultGroupName(i)))
    ensures !(Submitted(draft) && GroupEntitiesKey(i) in draft.value) ==>
              EntitiesDefault(draft, groups, i) == (if i < |groups| then L(Ids(groups[i].entities)) else L([]))
  {
  }

  /** Width of one group's block of fields. */
  function Width(withRemove: bool): nat {
    if withRemove then 3 else 2
  }

  /** Where group i's block starts. */
  function Slot(i: nat, withRemove: bool): nat {
    if withRemove then 3 * i else 2 * i
  }

  function RemoveField(i: nat): Field {
    Field(RemoveGroupKey(i), false, Toggle, Some(B(false)))
  }

  /** The fields of one group: name, entities and, in the options builders,
      the removal toggle. */
  function GroupBlock(draft: Option<Draft>, groups: seq<Group>, i: nat, withRemove: bool): seq<Field> {
    [ Field(GroupNameKey(i), false, Text, Some(NameDefault(draft, groups, i))),
      Field(GroupEntitiesKey(i), false, EntityPicker(None), Some(EntitiesDefault(draft, groups, i))) ]
    + (if withRemove then [RemoveField(i)] else [])
  }

  /** The per-group fields for indices 0 .. n-1, block after block. */
  function GroupFields(draft: Option<Draft>, groups: seq<Group>, n: nat, withRemove: bool): (fs: seq<Field>)
    ensures |fs| == Slot(n, withRemove)
  {
    if n == 0 then [] else GroupFields(draft, groups, n - 1, withRemove) + GroupBlock(draft, groups, n - 1, withRemove)
  }

  /** Group i's block sits at `Slot(i)`: its name field, its entities field
      and, in the options builders, its removal toggle defaulting to false. */
  lemma {:induction false} GroupFieldsShape(draft: Option<Draft>, groups: seq<Group>, n: nat, withRemove: bool, i: nat)
    requires i < n
    ensures Slot(i, withRemove) + Width(withRemove) <= |GroupFields(draft, groups, n, withRemove)|
    ensures GroupFields(draft, groups, n, withRemove)[Slot(i, withRemove)] ==
              Field(GroupNameKey(i), false, Text, Some(NameDefault(draft, groups, i)))
    ensures GroupFields(draft, groups, n, withRemove)[Slot(i, withRemove) + 1] ==
              Field(GroupEntitiesKey(i), false, EntityPicker(None), Some(EntitiesDefault(draft, groups, i)))
    ensures withRemove ==> GroupFields(draft, groups, n, withRemove)[Slot(i, withRemove) + 2] == RemoveField(i)
  {
    var a := GroupFields(draft, groups, n - 1, withRemove);
    var b := GroupBlock(draft, groups, n - 1, withRemove);
    assert GroupFields(draft, groups, n, withRemove) == a + b;
    if i < n - 1 {
      GroupFieldsShape(draft, groups, n - 1, withRemove, i);
      assert Slot(i, withRemove) + Width(withRemove) <= |a|;
    } else {
      assert Slot(i, withRemove) == |a|;
    }
  }

  lemma KeysAppend(a: seq<Field>, b: seq<Field>)
    ensures Keys(a + b) == Keys(a) + Keys(b)
  {
  }

  /** The names of group i's fields. */
  function BlockKeys(i: nat, withRemove: bool): seq<string> {
    [GroupNameKey(i), GroupEntitiesKey(i)] + (if withRemove then [RemoveGroupKey(i)] else [])
  }

  /** The names of the per-group fields for indices 0 .. n-1, in order. */
  function GroupKeys(n: nat, withRemove: bool): seq<string> {
    if n == 0 then [] else GroupKeys(n - 1, withRemove) + BlockKeys(n - 1, withRemove)
  }

  lemma {:induction false} GroupFieldsKeyList(draft: Option<Draft>, groups: seq<Group>, n: nat, withRemove: bool)
    ensures Keys(GroupFields(draft, groups, n, withRemove)) == GroupKeys(n, withRemove)
  {
    if n > 0 {
      var a := GroupFields(draft, groups, n - 1, withRemove);
      var b := GroupBlock(draft, groups, n - 1, withRemove);
      GroupFieldsKeyList(draft, groups, n - 1, withRemove);
      KeysAppend(a, b);
      assert Keys(b) == BlockKeys(n - 1, withRemove);
    }
  }

  /** Every per-group field name starts as an indexed name does. */
  lemma {:induction false} GroupKeysIndexed(n: nat, withRemove: bool)
    ensures forall k :: k in GroupKeys(n, withRemove) ==> IndexedInitial(k)
  {
    if n > 0 {
      GroupKeysIndexed(n - 1, withRemove);
      IndexedKeysInitial(n - 1);
    }
  }

  /** Distinct indices give distinct field names. */
  lemma KeysApart(i: nat, j: nat)
    requires i != j
    ensures GroupNameKey(i) != GroupNameKey(j) && GroupNameKey(i) != GroupEntitiesKey(j) && GroupNameKey(i) != RemoveGroupKey(j)
    ensures GroupEntitiesKey(i) != GroupNameKey(j) && GroupEntitiesKey(i) != GroupEntitiesKey(j)
    ensures GroupEntitiesKey(i) != RemoveGroupKey(j)
    ensures RemoveGroupKey(i) != GroupNameKey(j) && RemoveGroupKey(i) != GroupEntitiesKey(j) && RemoveGroupKey(i) != RemoveGroupKey(j)
  {
    IndexedKeysDistinct(i, j);
    IndexedKeysDistinct(j, i);
  }

  /** The per-group fields name no index from n up, and no removal toggle
      outside the options builders. */
  lemma {:induction false} GroupKeysAbsent(n: nat, withRemove: bool)
    ensures forall j: nat :: j >= n ==>
              GroupNameKey(j) !in GroupKeys(n, withRemove) && GroupEntitiesKey(j) !in GroupKeys(n, withRemove)
              && RemoveGroupKey(j) !in GroupKeys(n, withRemove)
    ensures !withRemove ==> forall j: nat :: RemoveGroupKey(j) !in GroupKeys(n, withRemove)
  {
    if n > 0 {
      GroupKeysAbsent(n - 1, withRemove);
      forall j: nat | j >= n
        ensures GroupNameKey(j) !in BlockKeys(n - 1, withRemove) && GroupEntitiesKey(j) !in BlockKeys(n - 1, withRemove)
        ensures RemoveGroupKey(j) !in BlockKeys(n - 1, withRemove)
      {
        KeysApart(j, n - 1);
      }
      forall j: nat | !withRemove ensures RemoveGroupKey(j) !in BlockKeys(n - 1, withRemove) {
        IndexedKeysDistinct(j, n - 1);
      }
    }
  }

  predicate Distinct(ks: seq<string>) {
    forall p, q :: 0 <= p < q < |ks| ==> ks[p] != ks[q]
  }

  /** No per-group field name occurs twice. */
  lemma {:induction false} GroupKeysDistinct(n: nat, withRemove: bool)
    ensures Distinct(GroupKeys(n, withRemove))
  {
    if n > 0 {
      var a := GroupKeys(n - 1, withRemove);
      var b := BlockKeys(n - 1, withRemove);
      GroupKeysDistinct(n - 1, withRemove);
      GroupKeysAbsent(n - 1, withRemove);
      IndexedKeysDistinct(n - 1, n - 1);
      assert Distinct(b);
      forall p, q | 0 <= p < q < |a + b| ensures (a + b)[p] != (a + b)[q] {
        if q >= |a| && p < |a| {
          assert (a + b)[p] in a;
        }
      }
    }
  }

  /** The per-group field names are indexed names, the indices are exactly
      0 .. n-1, and no name occurs twice. */
  lemma GroupFieldsKeys(draft: Option<Draft>, groups: seq<Group>, n: nat, withRemove: bool)
    ensures forall k :: k in Keys(GroupFields(draft, groups, n, withRemove)) ==> IndexedInitial(k)
    ensures forall j: nat :: j >= n ==>
              && GroupNameKey(j) !in Keys(GroupFields(draft, groups, n, withRemove))
              && GroupEntitiesKey(j) !in Keys(GroupFields(draft, groups, n, withRemove))
              && RemoveGroupKey(j) !in Keys(GroupFields(draft, groups, n, withRemove))
    ensures !withRemove ==> forall j: nat :: RemoveGroupKey(j) !in Keys(GroupFields(draft, groups, n, withRemove))
    ensures DistinctKeys(GroupFields(draft, groups, n, withRemove))
  {
    var fs := GroupFields(draft, groups, n, withRemove);
    GroupFieldsKeyList(draft, groups, n, withRemove);
    GroupKeysIndexed(n, withRemove);
    GroupKeysAbsent(n, withRemove);
    GroupKeysDistinct(n, withRemove);
    forall p, q | 0 <= p < q < |fs| ensures fs[p].key != fs[q].key {
      assert Keys(fs)[p] == fs[p].key && Keys(fs)[q] == fs[q].key;
    }
  }

  /** The loop of every schema builder: `for i in range(num_groups)`,
      assigning each group's fields into the schema in turn. */
  method AppendGroupFields(prefix: seq<Field>, draft: Option<Draft>, groups: seq<Group>, n: nat, withRemove: bool)
    returns (fields: seq<Field>)
    ensures fields == prefix + GroupFields(draft, groups, n, withRemove)
  {
    fields := prefix;
    for i := 0 to n
      invariant fields == prefix + GroupFields(draft, groups, i, withRemove)
    {
      var nameDefault := NameDefault(draft, groups, i);
      var entitiesDefault := EntitiesDefault(draft, groups, i);
      var block := [Field(GroupNameKey(i), false, Text, Some(nameDefault)),
                    Field(GroupEntitiesKey(i), false, EntityPicker(None), Some(entitiesDefault))];
      if withRemove {
        block := block + [RemoveField(i)];
      }
      fields := fields + block;
    }
  }

  // ---------------------------------------------------------------------------
  // The form engine, for a user who submits a form without changing it

  /** The draft a form comes back as when every field keeps its default. */
  function SubmitDefaults(fs: seq<Field>): Draft {
    if fs == [] then map[]
    else
      var m := SubmitDefaults(fs[..|fs| - 1]);
      var f := fs[|fs| - 1];
      if f.default.Some? then m[f.key := f.default.value] else m
  }

  /** The form engine returns no field the form does not have. */
  lemma {:induction false} SubmitDefaultsKeys(fs: seq<Field>)
    ensures forall k :: k in SubmitDefaults(fs) ==> k in Keys(fs)
  {
    if fs != [] {
      SubmitDefaultsKeys(fs[..|fs| - 1]);
      assert Keys(fs[..|fs| - 1]) == Keys(fs)[..|fs| - 1];
      assert Keys(fs)[|fs| - 1] == fs[|fs| - 1].key;
    }
  }

  /** With distinct names, each field's default comes back under its name. */
  lemma {:induction false} SubmitDefaultsAt(fs: seq<Field>, p: nat)
    requires DistinctKeys(fs) && p < |fs| && fs[p].default.Some?
    ensures fs[p].key in SubmitDefaults(fs)
    ensures SubmitDefaults(fs)[fs[p].key] == fs[p].default.value
  {
    var last := |fs| - 1;
    if p < last {
      assert DistinctKeys(fs[..last]);
      SubmitDefaultsAt(fs[..last], p);
      assert fs[..last][p] == fs[p];
    }
  }

  // ---------------------------------------------------------------------------
  // Whole schemas: fixed fields, the group blocks, fixed trailing fields

  /** A schema assembled from fixed fields around the group blocks has no
      repeated name, and holds no group fields for indices n and up. */
  lemma AssembledKeys(head: seq<Field>, draft: Option<Draft>, groups: seq<Group>, n: nat, withRemove: bool, tail: seq<Field>)
    requires DistinctKeys(head) && DistinctKeys(tail)
    requires forall k :: k in Keys(head) ==> !IndexedInitial(k) && k !in Keys(tail)
    requires forall k :: k in Keys(tail) ==> !IndexedInitial(k)
    ensures DistinctKeys(head + GroupFields(draft, groups, n, withRemove) + tail)
    ensures forall j: nat :: j >= n ==>
              && GroupNameKey(j) !in Keys(head + GroupFields(draft, groups, n, withRemove) + tail)
              && GroupEntitiesKey(j) !in Keys(head + GroupFields(draft, groups, n, withRemove) + tail)
  {
    var g := GroupFields(draft, groups, n, withRemove);
    GroupFieldsKeys(draft, groups, n, withRemove);
    assert Keys(head + g) == Keys(head) + Keys(g);
    assert Keys(head + g + tail) == Keys(head) + Keys(g) + Keys(tail);
    DistinctConcat(head, g);
    DistinctConcat(head + g, tail);
    forall j: nat | j >= n
      ensures GroupNameKey(j) !in Keys(head + g + tail) && GroupEntitiesKey(j) !in Keys(head + g + tail)
    {
      IndexedKeysInitial(j);
    }
  }

  /** In a schema assembled from fixed fields around the group blocks, group
      i's block follows the head at `Slot(i)`, and the tail follows the last block. */
  lemma AssembledAt(head: seq<Field>, draft: Option<Draft>, groups: seq<Group>, n: nat, withRemove: bool, tail: seq<Field>, i: nat)
    requires i < n
    ensures |head + GroupFields(draft, groups, n, withRemove) + tail| == |head| + Slot(n, withRemove) + |tail|
    ensures (head + GroupFields(draft, groups, n, withRemove) + tail)[|head| + Slot(i, withRemove)] ==
              Field(GroupNameKey(i), false, Text, Some(NameDefault(draft, groups, i)))
    ensures (head + GroupFields(draft, groups, n, withRemove) + tail)[|head| + Slot(i, withRemove) + 1] ==
              Field(GroupEntitiesKey(i), false, EntityPicker(None), Some(EntitiesDefault(draft, groups, i)))
    ensures withRemove ==>
              (head + GroupFields(draft, groups, n, withRemove) + tail)[|head| + Slot(i, withRemove) + 2] == RemoveField(i)
  {
    GroupFieldsShape(draft, groups, n, withRemove, i);
  }

  /** A field's default comes back under the name that field carries. */
  lemma SubmitDefaultsHas(fs: seq<Field>, p: nat, k: string, v: Value)
    requires DistinctKeys(fs) && p < |fs| && fs[p].key == k && fs[p].default == Some(v)
    ensures k in SubmitDefaults(fs) && SubmitDefaults(fs)[k] == v
  {
    SubmitDefaultsAt(fs, p);
  }

  /** Such a schema, submitted unchanged, returns group i's defaults under
      group i's names. */
  lemma SubmittedGroupAt(head: seq<Field>, draft: Option<Draft>, groups: seq<Group>, n: nat, withRemove: bool, tail: seq<Field>, i: nat)
    requires DistinctKeys(head + GroupFields(draft, groups, n, withRemove) + tail) && i < n
    ensures GroupNameKey(i) in SubmitDefaults(head + GroupFields(draft, groups, n, withRemove) + tail)
    ensures SubmitDefaults(head + GroupFields(draft, groups, n, withRemove) + tail)[GroupNameKey(i)]
            == NameDefault(draft, groups, i)
    ensures GroupEntitiesKey(i) in SubmitDefaults(head + GroupFields(draft, groups, n, withRemove) + tail)
    ensures SubmitDefaults(head + GroupFields(draft, groups, n, withRemove) + tail)[GroupEntitiesKey(i)]
            == EntitiesDefault(draft, groups, i)
    ensures withRemove ==>
              && RemoveGroupKey(i) in SubmitDefaults(head + GroupFields(draft, groups, n, withRemove) + tail)
              && SubmitDefaults(head + GroupFields(draft, groups, n, withRemove) + tail)[RemoveGroupKey(i)] == B(false)
  {
    var fs := head + GroupFields(draft, groups, n, withRemove) + tail;
    var p := |head| + Slot(i, withRemove);
    AssembledAt(head, draft, groups, n, withRemove, tail, i);
    SubmitDefaultsHas(fs, p, GroupNameKey(i), NameDefault(draft, groups, i));
    SubmitDefaultsHas(fs, p + 1, GroupEntitiesKey(i), EntitiesDefault(draft, groups, i));
    if withRemove {
      SubmitDefaultsHas(fs, p + 2, RemoveGroupKey(i), B(false));
    }
  }

  /** Such a schema, submitted unchanged, returns every group's defaults
      under that group's names and holds no group past the n shown. */
  lemma SubmittedGroups(head: seq<Field>, draft: Option<Draft>, groups: seq<Group>, n: nat, withRemove: bool, tail: seq<Field>)
    requires DistinctKeys(head) && DistinctKeys(tail)
    requires forall k :: k in Keys(head) ==> !IndexedInitial(k) && k !in Keys(tail)
    requires forall k :: k in Keys(tail) ==> !IndexedInitial(k)
    ensures DistinctKeys(head + GroupFields(draft, groups, n, withRemove) + tail)
    ensures forall i :: 0 <= i < n ==>
              && GroupNameKey(i) in SubmitDefaults(head + GroupFields(draft, groups, n, withRemove) + tail)
              && SubmitDefaults(head + GroupFields(draft, groups, n, withRemove) + tail)[GroupNameKey(i)]
                 == NameDefault(draft, groups, i)
              && GroupEntitiesKey(i) in SubmitDefaults(head + GroupFields(draft, groups, n, withRemove) + tail)
              && SubmitDefaults(head + GroupFields(draft, groups, n, withRemove) + tail)[GroupEntitiesKey(i)]
                 == EntitiesDefault(draft, groups, i)
              && (withRemove ==>
                    && RemoveGroupKey(i) in SubmitDefaults(head + GroupFields(draft, groups, n, withRemove) + tail)
                    && SubmitDefaults(head + GroupFields(draft, groups, n, withRemove) + tail)[RemoveGroupKey(i)] == B(false))
    ensures forall j: nat :: j >= n ==>
              && GroupNameKey(j) !in SubmitDefaults(head + GroupFields(draft, groups, n, withRemove) + tail)
              && GroupEntitiesKey(j) !in SubmitDefaults(head + GroupFields(draft, groups, n, withRemove) + tail)
  {
    AssembledKeys(head, draft, groups, n, withRemove, tail);
    SubmitDefaultsKeys(head + GroupFields(draft, groups, n, withRemove) + tail);
    forall i | 0 <= i < n {
      SubmittedGroupAt(head, draft, groups, n, withRemove, tail, i);
    }
  }

  /** Setup builders: the draft's `webhook_url` when the draft is non-empty and
      holds that key, else the persisted one. */
  function SetupUrlDefault(prev: Stored, draft: Option<Draft>): Value {
    if Submitted(draft) && "webhook_url" in draft.value then draft.value["webhook_url"]
    else prev.webhookUrl.GetOr(S(""))
  }

  /** Options builders: always the persisted `webhook_url`. */
  function PersistedUrl(prev: Stored): Value {
    prev.webhookUrl.GetOr(S(""))
  }

  /** Default of an entity-list field: the draft's list, else the persisted ids. */
  function ListDefault(draft: Option<Draft>, key: string, stored: Option<seq<Entity>>): Value {
    if Submitted(draft) then Get(draft.value, key, L(Ids(stored.GetOr([]))))
    else if stored.Some? && stored.value != [] then L(Ids(stored.value))
    else L([])
  }

  function UrlField(default: Value): Field {
    Field("webhook_url", true, Text, Some(default))
  }

  function PillField(draft: Option<Draft>, prev: Stored): Field {
    Field("pill_entities", false, EntityPicker(None), Some(ListDefault(draft, "pill_entities", prev.pills)))
  }

  /** The URL and pill fields have distinct names, neither an indexed name. */
  lemma UrlPillKeys(prev: Stored, draft: Option<Draft>, url: Value)
    ensures DistinctKeys([UrlField(url), PillField(draft, prev)])
    ensures forall k :: k in Keys([UrlField(url), PillField(draft, prev)]) ==>
              !IndexedInitial(k) && k != "add_another_group"
  {
    assert Keys([UrlField(url), PillField(draft, prev)]) == ["webhook_url", "pill_entities"];
  }

  const AddField := Field("add_another_group", false, Toggle, Some(B(false)))

  // ---------------------------------------------------------------------------
  // What a step handler returns

  /** The description placeholders: one number per group slot, or a fixed text. */
  datatype Placeholders = NumberedGroups(count: nat, withRemove: bool) | Info(text: string) | NoPlaceholders

  /** `async_show_form(...)` or `async_create_entry(...)`. */
  datatype Outcome =
    | ShowForm(stepId: string, schema: seq<Field>, errors: map<string, string>, placeholders: Placeholders)
    | CreateEntry(title: string, data: Stored)

  /** A POST of `payload` to `url` that the step attempted. */
  datatype Delivery<P> = Delivery(url: Value, payload: P)

  datatype Step<P> = Step(outcome: Outcome, delivery: Option<Delivery<P>>)
}
