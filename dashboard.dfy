/** The dashboard integration's configuration flow: the setup step and the
    options step, the three schema builders, the assembly of the persisted
    record and the expansion of entity references into the delivery payload. */
module Dashboard {
  import opened Values
  import opened Groups
  import opened Schema

  /** A `weather.get_forecasts` response: per entity id, its `forecast` entry
      (None when the entry has no `forecast` key). */
  type ForecastReply = map<string, Option<seq<Forecast>>>

  /** The forecast service; None when the call raised. */
  type ForecastService = string -> Option<ForecastReply>

  // ---------------------------------------------------------------------------
  // Display toggles: persisted as "true"/"false", shown as booleans

  /** `"true" if v else "false"`: the wire form a toggle is persisted in. */
  function EncodeToggle(v: Value): Value {
    if Truthy(v) then S("true") else S("false")
  }

  /** `if isinstance(v, str): v = v == "true"`. */
  function NormalizeToggle(v: Value): Value {
    if v.S? then B(v.str == "true") else v
  }

  /** Encoding then normalising gives back the toggle's truth value; a raw
      "false" would be truthy, and normalising it gives false. */
  lemma ToggleRoundTrip(v: Value)
    ensures NormalizeToggle(EncodeToggle(v)) == B(Truthy(v))
    ensures EncodeToggle(NormalizeToggle(EncodeToggle(v))) == EncodeToggle(v)
    ensures Truthy(S("false")) && NormalizeToggle(S("false")) == B(false)
  {
  }

  /** Default of a display toggle: the draft's value (when a draft is given at
      all), else the persisted value, else true; then normalised. */
  function ToggleDefault(draft: Option<Draft>, key: string, stored: Option<Value>): Value {
    var raw := if draft.Some? then Get(draft.value, key, stored.GetOr(B(true))) else stored.GetOr(B(true));
    NormalizeToggle(raw)
  }

  /** Default of a select field: `user_input.get(key) if user_input else
      prev_data.get(key, fallback)` — None when a non-empty draft lacks it. */
  function SelectDefault(draft: Option<Draft>, key: string, stored: Option<Value>, fallback: string): Option<Value> {
    if Submitted(draft) then (if key in draft.value then Some(draft.value[key]) else None)
    else Some(stored.GetOr(S(fallback)))
  }

  // ---------------------------------------------------------------------------
  // Schemas

  /** The fields between `webhook_url` and the groups, in order. */
  function DisplayFields(prev: Stored, draft: Option<Draft>): seq<Field> {
    [ Field("layout", false, Select(["groups", "list"]), SelectDefault(draft, "layout", prev.layout, "groups")),
      Field("pill_position", false, Select(["top", "bottom", "left", "right"]),
            SelectDefault(draft, "pill_position", prev.pillPosition, "top")),
      Field("show_title_bar", false, Toggle, Some(ToggleDefault(draft, "show_title_bar", prev.showTitleBar))),
      Field("show_entity_title", false, Toggle, Some(ToggleDefault(draft, "show_entity_title", prev.showEntityTitle))),
      Field("show_entity_icon", false, Toggle, Some(ToggleDefault(draft, "show_entity_icon", prev.showEntityIcon))),
      Field("scale", false, Select(["small", "normal", "big"]), SelectDefault(draft, "scale", prev.scale, "normal")),
      PillField(draft, prev),
      Field("visualization_entities", false, EntityPicker(Some("weather")),
            Some(ListDefault(draft, "visualization_entities", prev.visualizations))) ]
  }

  /** The precedence of the display defaults, which differs by field kind:
      a select reads a non-empty draft only (no default when the draft lacks
      the key) and otherwise the persisted value or its fallback; a toggle
      reads any draft, even an empty one, falling back to the persisted value
      and then to true, and is shown normalised; an entity list reads a
      non-empty draft, falling back to the persisted ids. */
  lemma DisplayDefaultPrecedence(prev: Stored, draft: Option<Draft>)
    ensures var fs := DisplayFields(prev, draft);
            && |fs| == 8
            && fs[0].key == "layout" && fs[1].key == "pill_position" && fs[5].key == "scale"
            && (Submitted(draft) ==>
                  && fs[0].default == (if "layout" in draft.value then Some(draft.value["layout"]) else None)
                  && fs[1].default == (if "pill_position" in draft.value then Some(draft.value["pill_position"]) else None)
                  && fs[5].default == (if "scale" in draft.value then Some(draft.value["scale"]) else None))
            && (!Submitted(draft) ==>
                  && fs[0].default == Some(prev.layout.GetOr(S("groups")))
                  && fs[1].default == Some(prev.pillPosition.GetOr(S("top")))
                  && fs[5].default == Some(prev.scale.GetOr(S("normal"))))
    ensures var fs := DisplayFields(prev, draft);
            && fs[2].key == "show_title_bar" && fs[3].key == "show_entity_title" && fs[4].key == "show_entity_icon"
            && (draft.Some? && "show_title_bar" in draft.value ==>
                  fs[2].default == Some(NormalizeToggle(draft.value["show_title_bar"])))
            && (!(draft.Some? && "show_title_bar" in draft.value) ==>
                  fs[2].default == Some(NormalizeToggle(prev.showTitleBar.GetOr(B(true)))))
            && (draft.Some? && "show_entity_title" in draft.value ==>
                  fs[3].default == Some(NormalizeToggle(draft.value["show_entity_title"])))
            && (!(draft.Some? && "show_entity_title" in draft.value) ==>
                  fs[3].default == Some(NormalizeToggle(prev.showEntityTitle.GetOr(B(true)))))
            && (draft.Some? && "show_entity_icon" in draft.value ==>
                  fs[4].default == Some(NormalizeToggle(draft.value["show_entity_icon"])))
            && (!(draft.Some? && "show_entity_icon" in draft.value) ==>
                  fs[4].default == Some(NormalizeToggle(prev.showEntityIcon.GetOr(B(true)))))
    ensures var fs := DisplayFields(prev, draft);
            && fs[6].key == "pill_entities" && fs[7].key == "visualization_entities"
            && (Submitted(draft) && "pill_entities" in draft.value ==>
                  fs[6].default == Some(draft.value["pill_entities"]))
            && (!(Submitted(draft) && "pill_entities" in draft.value) ==>
                  fs[6].default == Some(L(Ids(prev.pills.GetOr([])))))
            && (Submitted(draft) && "visualization_entities" in draft.value ==>
                  fs[7].default == Some(draft.value["visualization_entities"]))
            && (!(Submitted(draft) && "visualization_entities" in draft.value) ==>
                  fs[7].default == Some(L(Ids(prev.visualizations.GetOr([])))))
  {
  }

  /** The setup form. */
  function DynamicSchema(prev: Stored, draft: Option<Draft>, n: nat): seq<Field> {
    [UrlField(SetupUrlDefault(prev, draft))] + DisplayFields(prev, draft)
    + GroupFields(draft, StoredGroups(prev), n, false) + [AddField]
  }

  /** The options form: the persisted URL, and a removal toggle per group. */
  function DynamicOptionsSchema(prev: Stored, draft: Option<Draft>, n: nat): seq<Field> {
    [UrlField(PersistedUrl(prev))] + DisplayFields(prev, draft)
    + GroupFields(draft, StoredGroups(prev), n, true) + [AddField]
  }

  /** The older options form: URL, pills and the groups with removal toggles. */
  function OptionsSchema(prev: Stored, draft: Option<Draft>, n: nat): seq<Field> {
    [UrlField(PersistedUrl(prev)), PillField(draft, prev)]
    + GroupFields(draft, StoredGroups(prev), n, true)
  }

  method GetDynamicSchema(prev: Stored, draft: Option<Draft>, numGroups: nat) returns (fields: seq<Field>)
    ensures fields == DynamicSchema(prev, draft, numGroups)
  {
    var urlDefault;
    if Submitted(draft) && "webhook_url" in draft.value {
      urlDefault := draft.value["webhook_url"];
    } else {
      urlDefault := prev.webhookUrl.GetOr(S(""));
    }
    fields := [UrlField(urlDefault)] + DisplayFields(prev, draft);
    fields := AppendGroupFields(fields, draft, StoredGroups(prev), numGroups, false);
    fields := fields + [AddField];
  }

  method GetDynamicOptionsSchema(prev: Stored, draft: Option<Draft>, numGroups: nat) returns (fields: seq<Field>)
    ensures fields == DynamicOptionsSchema(prev, draft, numGroups)
  {
    fields := [UrlField(prev.webhookUrl.GetOr(S("")))] + DisplayFields(prev, draft);
    fields := AppendGroupFields(fields, draft, StoredGroups(prev), numGroups, true);
    fields := fields + [AddField];
  }

  method GetOptionsSchema(prev: Stored, draft: Option<Draft>, numGroups: nat) returns (fields: seq<Field>)
    ensures fields == OptionsSchema(prev, draft, numGroups)
  {
    fields := [UrlField(prev.webhookUrl.GetOr(S(""))), PillField(draft, prev)];
    fields := AppendGroupFields(fields, draft, StoredGroups(prev), numGroups, true);
  }

  /** The fixed field names are distinct and none of them is an indexed name. */
  lemma FixedKeys(prev: Stored, draft: Option<Draft>, url: Value)
    ensures DistinctKeys([UrlField(url)] + DisplayFields(prev, draft))
    ensures forall k :: k in Keys([UrlField(url)] + DisplayFields(prev, draft)) ==>
              !IndexedInitial(k) && k != "add_another_group"
  {
    var head := [UrlField(url)] + DisplayFields(prev, draft);
    assert Keys(head) == ["webhook_url", "layout", "pill_position", "show_title_bar", "show_entity_title",
                          "show_entity_icon", "scale", "pill_entities", "visualization_entities"];
  }

  /** The setup form holds the URL and the display fields, then exactly n
      group blocks — group i's name and entities at a fixed position, with the
      draft-then-persisted-then-default values — then `add_another_group`
      defaulting to false. */
  lemma DynamicSchemaShape(prev: Stored, draft: Option<Draft>, n: nat)
    ensures |DynamicSchema(prev, draft, n)| == 10 + 2 * n
    ensures DynamicSchema(prev, draft, n)[0] == UrlField(SetupUrlDefault(prev, draft))
    ensures DynamicSchema(prev, draft, n)[1..9] == DisplayFields(prev, draft)
    ensures DynamicSchema(prev, draft, n)[9 + 2 * n] == AddField
    ensures forall i :: 0 <= i < n ==>
              && DynamicSchema(prev, draft, n)[9 + 2 * i] ==
                 Field(GroupNameKey(i), false, Text, Some(NameDefault(draft, StoredGroups(prev), i)))
              && DynamicSchema(prev, draft, n)[10 + 2 * i] ==
                 Field(GroupEntitiesKey(i), false, EntityPicker(None), Some(EntitiesDefault(draft, StoredGroups(prev), i)))
  {
    var head := [UrlField(SetupUrlDefault(prev, draft))] + DisplayFields(prev, draft);
    var groups := StoredGroups(prev);
    forall i | 0 <= i < n
      ensures DynamicSchema(prev, draft, n)[9 + 2 * i] ==
              Field(GroupNameKey(i), false, Text, Some(NameDefault(draft, groups, i)))
      ensures DynamicSchema(prev, draft, n)[10 + 2 * i] ==
              Field(GroupEntitiesKey(i), false, EntityPicker(None), Some(EntitiesDefault(draft, groups, i)))
    {
      AssembledAt(head, draft, groups, n, false, [AddField], i);
    }
  }

  /** No field name of the setup form occurs twice, and it names no group
      from n up. */
  lemma DynamicSchemaKeys(prev: Stored, draft: Option<Draft>, n: nat)
    ensures DistinctKeys(DynamicSchema(prev, draft, n))
    ensures forall j: nat :: j >= n ==>
              GroupNameKey(j) !in Keys(DynamicSchema(prev, draft, n))
              && GroupEntitiesKey(j) !in Keys(DynamicSchema(prev, draft, n))
  {
    var head := [UrlField(SetupUrlDefault(prev, draft))] + DisplayFields(prev, draft);
    FixedKeys(prev, draft, SetupUrlDefault(prev, draft));
    AssembledKeys(head, draft, StoredGroups(prev), n, false, [AddField]);
  }

  /** The options form: the persisted URL and the display fields, then n
      group blocks each ending in its removal toggle (default false), then
      `add_another_group`. */
  lemma DynamicOptionsSchemaShape(prev: Stored, draft: Option<Draft>, n: nat)
    ensures |DynamicOptionsSchema(prev, draft, n)| == 10 + 3 * n
    ensures DynamicOptionsSchema(prev, draft, n)[0] == UrlField(PersistedUrl(prev))
    ensures DynamicOptionsSchema(prev, draft, n)[1..9] == DisplayFields(prev, draft)
    ensures DynamicOptionsSchema(prev, draft, n)[9 + 3 * n] == AddField
    ensures forall i :: 0 <= i < n ==>
              && DynamicOptionsSchema(prev, draft, n)[9 + 3 * i] ==
                 Field(GroupNameKey(i), false, Text, Some(NameDefault(draft, StoredGroups(prev), i)))
              && DynamicOptionsSchema(prev, draft, n)[10 + 3 * i] ==
                 Field(GroupEntitiesKey(i), false, EntityPicker(None), Some(EntitiesDefault(draft, StoredGroups(prev), i)))
              && DynamicOptionsSchema(prev, draft, n)[11 + 3 * i] == RemoveField(i)
  {
    var head := [UrlField(PersistedUrl(prev))] + DisplayFields(prev, draft);
    var groups := StoredGroups(prev);
    forall i | 0 <= i < n
      ensures DynamicOptionsSchema(prev, draft, n)[9 + 3 * i] ==
              Field(GroupNameKey(i), false, Text, Some(NameDefault(draft, groups, i)))
      ensures DynamicOptionsSchema(prev, draft, n)[10 + 3 * i] ==
              Field(GroupEntitiesKey(i), false, EntityPicker(None), Some(EntitiesDefault(draft, groups, i)))
      ensures DynamicOptionsSchema(prev, draft, n)[11 + 3 * i] == RemoveField(i)
    {
      AssembledAt(head, draft, groups, n, true, [AddField], i);
    }
  }

  /** No field name of the options form occurs twice, and it names no group
      from n up. */
  lemma DynamicOptionsSchemaKeys(prev: Stored, draft: Option<Draft>, n: nat)
    ensures DistinctKeys(DynamicOptionsSchema(prev, draft, n))
    ensures forall j: nat :: j >= n ==>
              GroupNameKey(j) !in Keys(DynamicOptionsSchema(prev, draft, n))
              && GroupEntitiesKey(j) !in Keys(DynamicOptionsSchema(prev, draft, n))
  {
    var head := [UrlField(PersistedUrl(prev))] + DisplayFields(prev, draft);
    FixedKeys(prev, draft, PersistedUrl(prev));
    AssembledKeys(head, draft, StoredGroups(prev), n, true, [AddField]);
  }

  /** The older options form: URL and pills, then n group blocks with removal
      toggles. */
  lemma OptionsSchemaShape(prev: Stored, draft: Option<Draft>, n: nat)
    ensures |OptionsSchema(prev, draft, n)| == 2 + 3 * n
    ensures OptionsSchema(prev, draft, n)[..2] == [UrlField(PersistedUrl(prev)), PillField(draft, prev)]
    ensures forall i :: 0 <= i < n ==>
              && OptionsSchema(prev, draft, n)[2 + 3 * i] ==
                 Field(GroupNameKey(i), false, Text, Some(NameDefault(draft, StoredGroups(prev), i)))
              && OptionsSchema(prev, draft, n)[3 + 3 * i] ==
                 Field(GroupEntitiesKey(i), false, EntityPicker(None), Some(EntitiesDefault(draft, StoredGroups(prev), i)))
              && OptionsSchema(prev, draft, n)[4 + 3 * i] == RemoveField(i)
  {
    var head := [UrlField(PersistedUrl(prev)), PillField(draft, prev)];
    var groups := StoredGroups(prev);
    assert head + GroupFields(draft, groups, n, true) + [] == OptionsSchema(prev, draft, n);
    forall i | 0 <= i < n
      ensures OptionsSchema(prev, draft, n)[2 + 3 * i] ==
              Field(GroupNameKey(i), false, Text, Some(NameDefault(draft, groups, i)))
      ensures OptionsSchema(prev, draft, n)[3 + 3 * i] ==
              Field(GroupEntitiesKey(i), false, EntityPicker(None), Some(EntitiesDefault(draft, groups, i)))
      ensures OptionsSchema(prev, draft, n)[4 + 3 * i] == RemoveField(i)
    {
      AssembledAt(head, draft, groups, n, true, [], i);
    }
  }

  /** The older options form has no `add_another_group` and no field name twice. */
  lemma OptionsSchemaKeys(prev: Stored, draft: Option<Draft>, n: nat)
    ensures "add_another_group" !in Keys(OptionsSchema(prev, draft, n))
    ensures DistinctKeys(OptionsSchema(prev, draft, n))
  {
    var head := [UrlField(PersistedUrl(prev)), PillField(draft, prev)];
    var g := GroupFields(draft, StoredGroups(prev), n, true);
    UrlPillKeys(prev, draft, PersistedUrl(prev));
    AssembledKeys(head, draft, StoredGroups(prev), n, true, []);
    GroupFieldsKeys(draft, StoredGroups(prev), n, true);
    KeysAppend(head, g);
    assert head + g + [] == head + g;
  }

  // ---------------------------------------------------------------------------
  // Materialising the groups of a draft

  /** `[{"entity_id": ent} for ent in ids if ent]`. */
  function RefsOf(ids: seq<string>): (es: seq<Entity>)
    ensures |es| == |Keep(ids, NonEmpty)|
  {
    var kept := Keep(ids, NonEmpty);
    seq(|kept|, k requires 0 <= k < |kept| => Ref(kept[k]))
  }

  /** The references keep the non-empty ids, in order, and nothing else. */
  lemma RefsOfIds(ids: seq<string>)
    ensures Ids(RefsOf(ids)) == Keep(ids, NonEmpty)
    ensures forall k :: 0 <= k < |RefsOf(ids)| ==> RefsOf(ids)[k].Ref? && RefsOf(ids)[k].entityId != ""
  {
    var kept := Keep(ids, NonEmpty);
    KeepMembers(ids, NonEmpty);
    forall k | 0 <= k < |kept| ensures kept[k] != "" {
      assert kept[k] in kept;
    }
  }

  /** References that are all non-empty come back unchanged from their ids. */
  lemma RefsOfRefs(es: seq<Entity>)
    requires forall k :: 0 <= k < |es| ==> es[k].Ref? && es[k].entityId != ""
    ensures RefsOf(Ids(es)) == es
  {
    KeepAllPass(Ids(es), NonEmpty);
  }

  /** Group `idx` of a draft: its submitted name (default `Group {idx+1}`),
      kept only when truthy, and its non-empty submitted ids as references. */
  function BuildGroup(d: Draft, idx: nat): Group {
    var name := Get(d, GroupNameKey(idx), S(DefaultGroupName(idx)));
    Group(if Truthy(name) then Some(name) else None, RefsOf(Items(Get(d, GroupEntitiesKey(idx), L([])))))
  }

  function Builder(d: Draft): nat -> Group {
    (idx: nat) => BuildGroup(d, idx)
  }

  /** A group without a name field is named `Group {idx+1}`; a submitted name
      is kept exactly when it is truthy; the entities are the non-empty
      submitted ids, none when the field is absent. */
  lemma BuildGroupMeaning(d: Draft, idx: nat)
    ensures GroupNameKey(idx) !in d ==> BuildGroup(d, idx).name == Some(S(DefaultGroupName(idx)))
    ensures GroupNameKey(idx) in d ==>
              (BuildGroup(d, idx).name.Some? <==> Truthy(d[GroupNameKey(idx)]))
              && (BuildGroup(d, idx).name.Some? ==> BuildGroup(d, idx).name.value == d[GroupNameKey(idx)])
    ensures Ids(BuildGroup(d, idx).entities) == Keep(Items(Get(d, GroupEntitiesKey(idx), L([]))), NonEmpty)
    ensures GroupEntitiesKey(idx) !in d ==> BuildGroup(d, idx).entities == []
    ensures forall e :: e in BuildGroup(d, idx).entities ==> e.Ref? && e.entityId != ""
  {
    RefsOfIds(Items(Get(d, GroupEntitiesKey(idx), L([]))));
  }

  /** The group-building loops of both steps: with `removal`, the flagged
      indices are collected first and skipped. */
  method MaterializeGroups(d: Draft, numGroups: nat, removal: bool) returns (groups: seq<Group>)
    ensures groups == KeptGroups(d, numGroups, removal, Builder(d))
  {
    var removedIndices: seq<nat> := [];
    if removal {
      for idx := 0 to numGroups
        invariant forall k: nat :: k in removedIndices <==> k < idx && Flagged(d, k)
      {
        if RemoveGroupKey(idx) in d && Truthy(d[RemoveGroupKey(idx)]) {
          removedIndices := removedIndices + [idx];
        }
      }
    }
    groups := [];
    for idx := 0 to numGroups
      invariant forall k: nat :: k in removedIndices <==> removal && k < numGroups && Flagged(d, k)
      invariant groups == KeptGroups(d, idx, removal, Builder(d))
    {
      if idx in removedIndices {
        continue;
      }
      var groupName := Get(d, GroupNameKey(idx), S(DefaultGroupName(idx)));
      var groupEntities := Items(Get(d, GroupEntitiesKey(idx), L([])));
      var group := Group(None, RefsOf(groupEntities));
      if Truthy(groupName) {
        group := group.(name := Some(groupName));
      }
      groups := groups + [group];
    }
  }

  // ---------------------------------------------------------------------------
  // Expanding references into the delivery payload

  /** The expanded form of a known entity. */
  function Snap(id: string, snap: Snapshot, forecast: Option<seq<Forecast>>): Entity {
    Expanded(id, snap.state, snap.attributes, snap.lastChanged, snap.lastUpdated, forecast)
  }

  /** A group or pill entity: expanded when the registry knows its id, passed
      through unchanged otherwise. */
  function Expand(e: Entity, registry: Registry): Entity {
    var snap := registry(e.entityId);
    if snap.Some? then Snap(e.entityId, snap.value, None) else e
  }

  /** The forecast attached to a visualization: only for `weather.` ids whose
      service call answered with an entry for that id (no `forecast` key
      reads as no forecasts); a failed call attaches nothing. */
  function ForecastOf(id: string, forecasts: ForecastService): Option<seq<Forecast>> {
    if |id| >= 8 && id[..8] == "weather." then
      var reply := forecasts(id);
      if reply.Some? && id in reply.value then Some(reply.value[id].GetOr([])) else None
    else None
  }

  function ExpandVisualization(e: Entity, registry: Registry, forecasts: ForecastService): Entity {
    var snap := registry(e.entityId);
    if snap.Some? then Snap(e.entityId, snap.value, ForecastOf(e.entityId, forecasts)) else e
  }

  function ExpandAll(es: seq<Entity>, registry: Registry): seq<Entity> {
    seq(|es|, k requires 0 <= k < |es| => Expand(es[k], registry))
  }

  function ExpandGroups(gs: seq<Group>, registry: Registry): seq<Group> {
    seq(|gs|, k requires 0 <= k < |gs| => gs[k].(entities := ExpandAll(gs[k].entities, registry)))
  }

  function ExpandVisualizations(es: seq<Entity>, registry: Registry, forecasts: ForecastService): seq<Entity> {
    seq(|es|, k requires 0 <= k < |es| => ExpandVisualization(es[k], registry, forecasts))
  }

  method ExpandEntityList(es: seq<Entity>, registry: Registry) returns (updated: seq<Entity>)
    ensures updated == ExpandAll(es, registry)
  {
    updated := [];
    for k := 0 to |es|
      invariant |updated| == k
      invariant forall j :: 0 <= j < k ==> updated[j] == Expand(es[j], registry)
    {
      var entity := es[k];
      var stateObj := registry(entity.entityId);
      if stateObj.Some? {
        updated := updated + [Snap(entity.entityId, stateObj.value, None)];
      } else {
        updated := updated + [entity];
      }
    }
  }

  method ExpandGroupList(gs: seq<Group>, registry: Registry) returns (updated: seq<Group>)
    ensures updated == ExpandGroups(gs, registry)
  {
    updated := [];
    for k := 0 to |gs|
      invariant |updated| == k
      invariant forall j :: 0 <= j < k ==> updated[j] == gs[j].(entities := ExpandAll(gs[j].entities, registry))
    {
      var entities := ExpandEntityList(gs[k].entities, registry);
      updated := updated + [gs[k].(entities := entities)];
    }
  }

  method ExpandVisualizationList(es: seq<Entity>, registry: Registry, forecasts: ForecastService)
    returns (updated: seq<Entity>)
    ensures updated == ExpandVisualizations(es, registry, forecasts)
  {
    updated := [];
    for k := 0 to |es|
      invariant |updated| == k
      invariant forall j :: 0 <= j < k ==> updated[j] == ExpandVisualization(es[j], registry, forecasts)
    {
      var viz := es[k];
      var entityId := viz.entityId;
      var stateObj := registry(entityId);
      if stateObj.Some? {
        var forecast := None;
        if |entityId| >= 8 && entityId[..8] == "weather." {
          var forecastResponse := forecasts(entityId);
          if forecastResponse.Some? && entityId in forecastResponse.value {
            forecast := Some(forecastResponse.value[entityId].GetOr([]));
          }
        }
        updated := updated + [Snap(entityId, stateObj.value, forecast)];
      } else {
        updated := updated + [viz];
      }
    }
  }

  /** Expansion keeps every entity, in order, under its id; an unknown id is
      passed through; a known one carries its snapshot and no forecast; and
      expanding again changes nothing. */
  lemma ExpandAllMeaning(es: seq<Entity>, registry: Registry)
    ensures |ExpandAll(es, registry)| == |es| && Ids(ExpandAll(es, registry)) == Ids(es)
    ensures forall k :: 0 <= k < |es| && registry(es[k].entityId).None? ==> ExpandAll(es, registry)[k] == es[k]
    ensures forall k :: 0 <= k < |es| && registry(es[k].entityId).Some? ==>
              ExpandAll(es, registry)[k] == Snap(es[k].entityId, registry(es[k].entityId).value, None)
    ensures ExpandAll(ExpandAll(es, registry), registry) == ExpandAll(es, registry)
  {
  }

  /** Expanding the groups keeps each group's name and its entity ids. */
  lemma ExpandGroupsMeaning(gs: seq<Group>, registry: Registry)
    ensures |ExpandGroups(gs, registry)| == |gs|
    ensures forall k :: 0 <= k < |gs| ==>
              ExpandGroups(gs, registry)[k].name == gs[k].name
              && Ids(ExpandGroups(gs, registry)[k].entities) == Ids(gs[k].entities)
  {
    forall k | 0 <= k < |gs|
      ensures Ids(ExpandGroups(gs, registry)[k].entities) == Ids(gs[k].entities)
    {
      ExpandAllMeaning(gs[k].entities, registry);
    }
  }

  /** Expanding the visualizations keeps ids and order; an unknown id is
      passed through; a known one carries its snapshot. A reference gets a
      forecast exactly when it is a known `weather.` entity whose service
      call answered for it, and then the answer's `forecast` entry (empty
      when the entry has none). */
  lemma ForecastOnlyForWeather(es: seq<Entity>, registry: Registry, forecasts: ForecastService)
    ensures Ids(ExpandVisualizations(es, registry, forecasts)) == Ids(es)
    ensures forall k :: 0 <= k < |es| && registry(es[k].entityId).None? ==>
              ExpandVisualizations(es, registry, forecasts)[k] == es[k]
    ensures forall k :: 0 <= k < |es| && registry(es[k].entityId).Some? ==>
              ExpandVisualizations(es, registry, forecasts)[k] ==
              Snap(es[k].entityId, registry(es[k].entityId).value, ExpandVisualizations(es, registry, forecasts)[k].forecast)
    ensures forall k ::
              (&& 0 <= k < |es| && registry(es[k].entityId).Some?
               && |es[k].entityId| >= 8 && es[k].entityId[..8] == "weather."
               && forecasts(es[k].entityId).Some?
               && es[k].entityId in forecasts(es[k].entityId).value) ==>
              ExpandVisualizations(es, registry, forecasts)[k].forecast ==
              Some(forecasts(es[k].entityId).value[es[k].entityId].GetOr([]))
    ensures forall k ::
              (0 <= k < |es| && es[k].Ref? && ExpandVisualizations(es, registry, forecasts)[k].Expanded?
               && ExpandVisualizations(es, registry, forecasts)[k].forecast.Some?) ==>
              (&& registry(es[k].entityId).Some?
              && |es[k].entityId| >= 8 && es[k].entityId[..8] == "weather."
              && forecasts(es[k].entityId).Some?
              && es[k].entityId in forecasts(es[k].entityId).value)
  {
  }

  // ---------------------------------------------------------------------------
  // The persisted record and the payload

  /** The record both steps persist. */
  function Record(d: Draft, url: Value, groups: seq<Group>): Stored {
    Stored(
      Some(url), Some(groups),
      Some(RefsOf(Items(Get(d, "pill_entities", L([]))))),
      Some(RefsOf(Items(Get(d, "visualization_entities", L([]))))),
      Some(Get(d, "layout", S("groups"))),
      Some(Get(d, "pill_position", S("top"))),
      Some(EncodeToggle(Get(d, "show_title_bar", B(true)))),
      Some(EncodeToggle(Get(d, "show_entity_title", B(true)))),
      Some(EncodeToggle(Get(d, "show_entity_icon", B(true)))),
      Some(Get(d, "scale", S("normal"))))
  }

  /** Setup: the draft's URL when truthy, else the persisted one. */
  function SetupUrl(prev: Stored, d: Draft): Value {
    if "webhook_url" in d && Truthy(d["webhook_url"]) then d["webhook_url"] else prev.webhookUrl.GetOr(S(""))
  }

  /** Options: the draft's URL whenever present, else the persisted one. */
  function OptionsUrl(prev: Stored, d: Draft): Value {
    Get(d, "webhook_url", prev.webhookUrl.GetOr(S("")))
  }

  datatype Configuration = Configuration(
    layout: Value, pillPosition: Value, showTitleBar: Value, showEntityTitle: Value, showEntityIcon: Value, scale: Value)

  /** What is POSTed to the dashboard's URL. */
  datatype Payload = Payload(groups: seq<Group>, pills: seq<Entity>, visualizations: seq<Entity>, configuration: Configuration)

  function PayloadOf(rec: Stored, registry: Registry, forecasts: ForecastService): Payload {
    Payload(
      ExpandGroups(rec.groups.GetOr([]), registry),
      ExpandAll(rec.pills.GetOr([]), registry),
      ExpandVisualizations(rec.visualizations.GetOr([]), registry, forecasts),
      Configuration(
        rec.layout.GetOr(S("groups")), rec.pillPosition.GetOr(S("top")),
        rec.showTitleBar.GetOr(S("true")), rec.showEntityTitle.GetOr(S("true")), rec.showEntityIcon.GetOr(S("true")),
        rec.scale.GetOr(S("normal"))))
  }

  /** A delivery is attempted exactly when the record's URL is truthy. */
  function DeliveryOf(rec: Stored, registry: Registry, forecasts: ForecastService): Option<Delivery<Payload>> {
    if rec.webhookUrl.Some? && Truthy(rec.webhookUrl.value) then
      Some(Delivery(rec.webhookUrl.value, PayloadOf(rec, registry, forecasts)))
    else None
  }

  /** Every record a step persists has its toggles in wire form ("true" exactly
      when the submitted value was truthy or absent) and only non-empty
      references, in the submitted order. */
  lemma RecordMeaning(d: Draft, url: Value, groups: seq<Group>)
    ensures Record(d, url, groups).showTitleBar ==
              Some(if "show_title_bar" !in d || Truthy(d["show_title_bar"]) then S("true") else S("false"))
    ensures Record(d, url, groups).showEntityTitle ==
              Some(if "show_entity_title" !in d || Truthy(d["show_entity_title"]) then S("true") else S("false"))
    ensures Record(d, url, groups).showEntityIcon ==
              Some(if "show_entity_icon" !in d || Truthy(d["show_entity_icon"]) then S("true") else S("false"))
    ensures Ids(Record(d, url, groups).pills.value) == Keep(Items(Get(d, "pill_entities", L([]))), NonEmpty)
    ensures Ids(Record(d, url, groups).visualizations.value) ==
              Keep(Items(Get(d, "visualization_entities", L([]))), NonEmpty)
  {
    RefsOfIds(Items(Get(d, "pill_entities", L([]))));
    RefsOfIds(Items(Get(d, "visualization_entities", L([]))));
  }

  // ---------------------------------------------------------------------------
  // The two step handlers

  const SetupTitle := "TRMNL Dashboard"
  const OptionsTitle := "config_flow.options_title"

  /** `async_step_user`: the first render, the add-a-group re-render, or the
      created entry together with the delivery it attempts. */
  function UserStep(prev: Stored, draft: Option<Draft>, registry: Registry, forecasts: ForecastService): Step<Payload> {
    if draft.None? then
      var n := InitialSlots(prev);
      Step(ShowForm("user", DynamicSchema(prev, draft, n), map[], NumberedGroups(n, false)), None)
    else
      var d := draft.value;
      var groups := KeptGroups(d, GroupCount(d), false, Builder(d));
      if AddRequested(d) then
        var n := |groups| + 1;
        Step(ShowForm("user", DynamicSchema(prev, draft, n), map[], NumberedGroups(n, false)), None)
      else
        var rec := Record(d, SetupUrl(prev, d), groups);
        Step(CreateEntry(SetupTitle, rec), DeliveryOf(rec, registry, forecasts))
  }

  /** `async_step_init`: as the setup step, with the removal pass, the
      options form and the draft's URL taken whenever present. */
  function InitStep(prev: Stored, draft: Option<Draft>, registry: Registry, forecasts: ForecastService): Step<Payload> {
    if draft.None? then
      var n := InitialSlots(prev);
      Step(ShowForm("init", DynamicOptionsSchema(prev, draft, n), map[], NumberedGroups(n, true)), None)
    else
      var d := draft.value;
      var groups := KeptGroups(d, GroupCount(d), true, Builder(d));
      if AddRequested(d) then
        var n := |groups| + 1;
        Step(ShowForm("init", DynamicOptionsSchema(prev, draft, n), map[], NumberedGroups(n, true)), None)
      else
        var rec := Record(d, OptionsUrl(prev, d), groups);
        Step(CreateEntry(OptionsTitle, rec), DeliveryOf(rec, registry, forecasts))
  }

  /** Builds the record and, when its URL is truthy, the expanded payload. */
  method Finish(d: Draft, webhookUrl: Value, groups: seq<Group>, title: string, registry: Registry, forecasts: ForecastService)
    returns (step: Step<Payload>)
    ensures step == Step(CreateEntry(title, Record(d, webhookUrl, groups)),
                         DeliveryOf(Record(d, webhookUrl, groups), registry, forecasts))
  {
    var data := Record(d, webhookUrl, groups);
    var delivery := None;
    if Truthy(webhookUrl) {
      var updatedGroups := ExpandGroupList(groups, registry);
      var updatedPills := ExpandEntityList(data.pills.value, registry);
      var updatedVisualizations := ExpandVisualizationList(data.visualizations.value, registry, forecasts);
      var webhookData := Payload(updatedGroups, updatedPills, updatedVisualizations,
        Configuration(data.layout.value, data.pillPosition.value, data.showTitleBar.value,
                      data.showEntityTitle.value, data.showEntityIcon.value, data.scale.value));
      delivery := Some(Delivery(webhookUrl, webhookData));
    }
    step := Step(CreateEntry(title, data), delivery);
  }

  method AsyncStepUser(prev: Stored, userInput: Option<Draft>, registry: Registry, forecasts: ForecastService)
    returns (step: Step<Payload>)
    ensures step == UserStep(prev, userInput, registry, forecasts)
  {
    if userInput.Some? {
      var d := userInput.value;
      var numGroups := CountGroups(d);
      var newGroups := MaterializeGroups(d, numGroups, false);
      if AddRequested(d) {
        numGroups := |newGroups| + 1;
        var schema := GetDynamicSchema(prev, userInput, numGroups);
        return Step(ShowForm("user", schema, map[], NumberedGroups(numGroups, false)), None);
      }
      var webhookUrl := if "webhook_url" in d && Truthy(d["webhook_url"]) then d["webhook_url"]
                        else prev.webhookUrl.GetOr(S(""));
      step := Finish(d, webhookUrl, newGroups, SetupTitle, registry, forecasts);
    } else {
      var numGroups := InitialSlots(prev);
      var schema := GetDynamicSchema(prev, userInput, numGroups);
      step := Step(ShowForm("user", schema, map[], NumberedGroups(numGroups, false)), None);
    }
  }

  method AsyncStepInit(prev: Stored, userInput: Option<Draft>, registry: Registry, forecasts: ForecastService)
    returns (step: Step<Payload>)
    ensures step == InitStep(prev, userInput, registry, forecasts)
  {
    if userInput.Some? {
      var d := userInput.value;
      var numGroups := CountGroups(d);
      var updatedGroups := MaterializeGroups(d, numGroups, true);
      if AddRequested(d) {
        numGroups := |updatedGroups| + 1;
        var schema := GetDynamicOptionsSchema(prev, userInput, numGroups);
        return Step(ShowForm("init", schema, map[], NumberedGroups(numGroups, true)), None);
      }
      var webhookUrl := Get(d, "webhook_url", prev.webhookUrl.GetOr(S("")));
      step := Finish(d, webhookUrl, updatedGroups, OptionsTitle, registry, forecasts);
    } else {
      var numGroups := InitialSlots(prev);
      var schema := GetDynamicOptionsSchema(prev, userInput, numGroups);
      step := Step(ShowForm("init", schema, map[], NumberedGroups(numGroups, true)), None);
    }
  }

  // ---------------------------------------------------------------------------
  // What the step handlers promise

  /** The setup step: with no draft, the form with the persisted group count
      (at least one slot); with add-a-group, the form again with one slot
      more than the draft's groups and nothing delivered; otherwise the entry,
      holding group k built from draft index k, with a delivery exactly when
      the URL is truthy. */
  lemma UserStepOutcomes(prev: Stored, draft: Option<Draft>, registry: Registry, forecasts: ForecastService)
    ensures draft.None? ==>
              && UserStep(prev, draft, registry, forecasts).outcome.ShowForm?
              && |UserStep(prev, draft, registry, forecasts).outcome.schema| == 10 + 2 * InitialSlots(prev)
              && UserStep(prev, draft, registry, forecasts).delivery.None?
    ensures draft.Some? && AddRequested(draft.value) ==>
              && UserStep(prev, draft, registry, forecasts).outcome.ShowForm?
              && UserStep(prev, draft, registry, forecasts).outcome.stepId == "user"
              && |UserStep(prev, draft, registry, forecasts).outcome.schema| == 10 + 2 * (GroupCount(draft.value) + 1)
              && UserStep(prev, draft, registry, forecasts).outcome.placeholders ==
                   NumberedGroups(GroupCount(draft.value) + 1, false)
              && UserStep(prev, draft, registry, forecasts).delivery.None?
    ensures draft.Some? && !AddRequested(draft.value) ==>
              && UserStep(prev, draft, registry, forecasts).outcome.CreateEntry?
              && UserStep(prev, draft, registry, forecasts).outcome.title == SetupTitle
              && |UserStep(prev, draft, registry, forecasts).outcome.data.groups.value| == GroupCount(draft.value)
              && (forall k :: 0 <= k < GroupCount(draft.value) ==>
                    UserStep(prev, draft, registry, forecasts).outcome.data.groups.value[k] == BuildGroup(draft.value, k))
              && (UserStep(prev, draft, registry, forecasts).delivery.Some? <==> Truthy(SetupUrl(prev, draft.value)))
  {
    if draft.Some? {
      var d := draft.value;
      KeptGroupsWithoutRemoval(d, GroupCount(d), Builder(d));
    }
  }

  /** The options step: the groups of the entry are the unflagged ones, built
      from their own indices in their original order; every index is either
      removed or kept; nothing is delivered unless the URL is truthy. */
  lemma InitStepRemoval(prev: Stored, d: Draft, registry: Registry, forecasts: ForecastService)
    requires !AddRequested(d)
    ensures InitStep(prev, Some(d), registry, forecasts).outcome.CreateEntry?
    ensures InitStep(prev, Some(d), registry, forecasts).outcome.title == OptionsTitle
    ensures |InitStep(prev, Some(d), registry, forecasts).outcome.data.groups.value|
            + |RemovedIndices(d, GroupCount(d))| == GroupCount(d)
    ensures |InitStep(prev, Some(d), registry, forecasts).outcome.data.groups.value|
            == |Survivors(d, GroupCount(d), true)|
    ensures forall k :: 0 <= k < |Survivors(d, GroupCount(d), true)| ==>
              InitStep(prev, Some(d), registry, forecasts).outcome.data.groups.value[k]
              == BuildGroup(d, Survivors(d, GroupCount(d), true)[k])
    ensures InitStep(prev, Some(d), registry, forecasts).delivery.Some? <==> Truthy(OptionsUrl(prev, d))
  {
    KeptGroupsAreSurvivors(d, GroupCount(d), true, Builder(d));
    SurvivorsCount(d, GroupCount(d));
  }

  /** The two steps read the URL differently: setup falls back to the
      persisted URL when the submitted one is empty, the options step keeps
      the empty one and then delivers nothing. */
  lemma UrlPrecedence(prev: Stored, d: Draft)
    requires "webhook_url" in d && d["webhook_url"] == S("")
    ensures SetupUrl(prev, d) == prev.webhookUrl.GetOr(S(""))
    ensures OptionsUrl(prev, d) == S("") && !Truthy(OptionsUrl(prev, d))
  {
  }

  /** Adding a group in the options step re-renders by raw draft index: the
      form has one slot more than the surviving groups, but slot j shows the
      draft's group j — a group flagged for removal included — with its
      removal toggle reset to false. */
  lemma InitAddRendersByRawIndex(prev: Stored, d: Draft, registry: Registry, forecasts: ForecastService)
    requires AddRequested(d)
    ensures InitStep(prev, Some(d), registry, forecasts).outcome.ShowForm?
    ensures InitStep(prev, Some(d), registry, forecasts).delivery.None?
    ensures InitStep(prev, Some(d), registry, forecasts).outcome.placeholders ==
              NumberedGroups(|Survivors(d, GroupCount(d), true)| + 1, true)
    ensures |InitStep(prev, Some(d), registry, forecasts).outcome.schema| ==
              10 + 3 * (|Survivors(d, GroupCount(d), true)| + 1)
    ensures forall j :: 0 <= j <= |Survivors(d, GroupCount(d), true)| && GroupNameKey(j) in d ==>
              && InitStep(prev, Some(d), registry, forecasts).outcome.schema[9 + 3 * j]
                 == Field(GroupNameKey(j), false, Text, Some(d[GroupNameKey(j)]))
              && InitStep(prev, Some(d), registry, forecasts).outcome.schema[11 + 3 * j] == RemoveField(j)
  {
    var n := |Survivors(d, GroupCount(d), true)| + 1;
    KeptGroupsAreSurvivors(d, GroupCount(d), true, Builder(d));
    assert "add_another_group" in d;
    DynamicOptionsSchemaShape(prev, Some(d), n);
  }

  /** After add-a-group, submitting the re-rendered setup form unchanged
      creates the entry with one group more than the draft had, and every
      group the draft named and filled comes back as it was. */
  lemma SetupAddGrowsByOne(prev: Stored, d: Draft, registry: Registry, forecasts: ForecastService)
    requires AddRequested(d)
    ensures var r := SubmitDefaults(DynamicSchema(prev, Some(d), GroupCount(d) + 1));
            && GroupCount(r) == GroupCount(d) + 1
            && !AddRequested(r)
            && UserStep(prev, Some(r), registry, forecasts).outcome.CreateEntry?
            && |UserStep(prev, Some(r), registry, forecasts).outcome.data.groups.value| == GroupCount(d) + 1
            && forall i :: 0 <= i < GroupCount(d) && GroupNameKey(i) in d && GroupEntitiesKey(i) in d ==>
                 UserStep(prev, Some(r), registry, forecasts).outcome.data.groups.value[i] == BuildGroup(d, i)
  {
    var m := GroupCount(d) + 1;
    var r := SubmitDefaults(DynamicSchema(prev, Some(d), m));
    ResubmittedGrowth(prev, d);
    UserStepOutcomes(prev, Some(r), registry, forecasts);
    forall i | 0 <= i < GroupCount(d) && GroupNameKey(i) in d && GroupEntitiesKey(i) in d
      ensures BuildGroup(r, i) == BuildGroup(d, i)
    {
      assert r[GroupNameKey(i)] == d[GroupNameKey(i)];
    }
  }

  /** The re-rendered setup form, submitted unchanged: m groups, no further
      add request, and the draft's own group fields kept. */
  lemma ResubmittedGrowth(prev: Stored, d: Draft)
    requires AddRequested(d)
    ensures var r := SubmitDefaults(DynamicSchema(prev, Some(d), GroupCount(d) + 1));
            && GroupCount(r) == GroupCount(d) + 1
            && !AddRequested(r)
            && forall i :: 0 <= i < GroupCount(d) + 1 ==>
                 && (GroupNameKey(i) in d ==> GroupNameKey(i) in r && r[GroupNameKey(i)] == d[GroupNameKey(i)])
                 && (GroupEntitiesKey(i) in d ==> GroupEntitiesKey(i) in r && r[GroupEntitiesKey(i)] == d[GroupEntitiesKey(i)])
  {
    var m := GroupCount(d) + 1;
    var head := [UrlField(SetupUrlDefault(prev, Some(d)))] + DisplayFields(prev, Some(d));
    var fs := DynamicSchema(prev, Some(d), m);
    assert "add_another_group" in d;
    FixedKeys(prev, Some(d), SetupUrlDefault(prev, Some(d)));
    SubmittedGroups(head, Some(d), StoredGroups(prev), m, false, [AddField]);
    var r := SubmitDefaults(fs);
    assert !HasGroup(r, m);
    GroupCountIsLongestPrefix(r, m);
    SubmitDefaultsHas(fs, |fs| - 1, "add_another_group", B(false));
  }

  // ---------------------------------------------------------------------------
  // Round trip: a persisted record, shown and submitted unchanged

  /** Non-empty references only. */
  predicate AllRefs(es: seq<Entity>) {
    forall k :: 0 <= k < |es| ==> es[k].Ref? && es[k].entityId != ""
  }

  /** A toggle in its persisted wire form. */
  predicate WireToggle(v: Option<Value>) {
    v == Some(S("true")) || v == Some(S("false"))
  }

  /** A record in the form the steps persist, with at least one group and
      every group carrying a truthy name. */
  predicate Persistable(rec: Stored) {
    && rec.webhookUrl.Some?
    && rec.groups.Some? && rec.groups.value != []
    && (forall k :: 0 <= k < |rec.groups.value| ==>
          rec.groups.value[k].name.Some? && Truthy(rec.groups.value[k].name.value)
          && AllRefs(rec.groups.value[k].entities))
    && rec.pills.Some? && AllRefs(rec.pills.value)
    && rec.visualizations.Some? && AllRefs(rec.visualizations.value)
    && rec.layout.Some? && rec.pillPosition.Some? && rec.scale.Some?
    && WireToggle(rec.showTitleBar) && WireToggle(rec.showEntityTitle) && WireToggle(rec.showEntityIcon)
  }

  /** The first render of the setup form or (with `withRemove`) of the
      options form. */
  function FirstRender(prev: Stored, n: nat, withRemove: bool): seq<Field> {
    if withRemove then DynamicOptionsSchema(prev, None, n) else DynamicSchema(prev, None, n)
  }

  /** The draft a first render comes back as when nothing is changed. */
  function Unchanged(prev: Stored, n: nat, withRemove: bool): Draft {
    SubmitDefaults(FirstRender(prev, n, withRemove))
  }

  lemma FirstRenderHead(prev: Stored, n: nat, withRemove: bool)
    ensures DistinctKeys(FirstRender(prev, n, withRemove))
    ensures |FirstRender(prev, n, withRemove)| >= 10
    ensures FirstRender(prev, n, withRemove)[..9] == [UrlField(PersistedUrl(prev))] + DisplayFields(prev, None)
    ensures FirstRender(prev, n, withRemove)[|FirstRender(prev, n, withRemove)| - 1] == AddField
  {
    if withRemove {
      DynamicOptionsSchemaKeys(prev, None, n);
    } else {
      DynamicSchemaKeys(prev, None, n);
    }
  }

  /** What the URL, the selects and `add_another_group` of an unchanged
      first render come back as. */
  lemma UnchangedSelects(prev: Stored, n: nat, withRemove: bool)
    ensures var r := Unchanged(prev, n, withRemove);
            && "webhook_url" in r && r["webhook_url"] == PersistedUrl(prev)
            && "layout" in r && r["layout"] == prev.layout.GetOr(S("groups"))
            && "pill_position" in r && r["pill_position"] == prev.pillPosition.GetOr(S("top"))
            && "scale" in r && r["scale"] == prev.scale.GetOr(S("normal"))
            && "add_another_group" in r && r["add_another_group"] == B(false)
  {
    var fs := FirstRender(prev, n, withRemove);
    FirstRenderHead(prev, n, withRemove);
    SubmitDefaultsAt(fs, 0);
    SubmitDefaultsAt(fs, 1);
    SubmitDefaultsAt(fs, 2);
    SubmitDefaultsAt(fs, 6);
    SubmitDefaultsAt(fs, |fs| - 1);
  }

  /** What the toggles and entity lists of an unchanged first render come
      back as. */
  lemma UnchangedToggles(prev: Stored, n: nat, withRemove: bool)
    ensures var r := Unchanged(prev, n, withRemove);
            && "show_title_bar" in r && r["show_title_bar"] == ToggleDefault(None, "show_title_bar", prev.showTitleBar)
            && "show_entity_title" in r
            && r["show_entity_title"] == ToggleDefault(None, "show_entity_title", prev.showEntityTitle)
            && "show_entity_icon" in r
            && r["show_entity_icon"] == ToggleDefault(None, "show_entity_icon", prev.showEntityIcon)
  {
    var fs := FirstRender(prev, n, withRemove);
    FirstRenderHead(prev, n, withRemove);
    SubmitDefaultsAt(fs, 3);
    SubmitDefaultsAt(fs, 4);
    SubmitDefaultsAt(fs, 5);
  }

  lemma UnchangedLists(prev: Stored, n: nat, withRemove: bool)
    ensures var r := Unchanged(prev, n, withRemove);
            && "pill_entities" in r && r["pill_entities"] == ListDefault(None, "pill_entities", prev.pills)
            && "visualization_entities" in r
            && r["visualization_entities"] == ListDefault(None, "visualization_entities", prev.visualizations)
  {
    var fs := FirstRender(prev, n, withRemove);
    FirstRenderHead(prev, n, withRemove);
    SubmitDefaultsAt(fs, 7);
    SubmitDefaultsAt(fs, 8);
  }

  /** What the group fields of an unchanged first render come back as, and
      that it holds no group past the n shown. */
  lemma UnchangedGroups(prev: Stored, n: nat, withRemove: bool)
    ensures var r := Unchanged(prev, n, withRemove);
            && (forall i :: 0 <= i < n ==>
                  && GroupNameKey(i) in r && r[GroupNameKey(i)] == NameDefault(None, StoredGroups(prev), i)
                  && GroupEntitiesKey(i) in r && r[GroupEntitiesKey(i)] == EntitiesDefault(None, StoredGroups(prev), i)
                  && (withRemove ==> RemoveGroupKey(i) in r && r[RemoveGroupKey(i)] == B(false)))
            && GroupNameKey(n) !in r && GroupEntitiesKey(n) !in r
  {
    var head := [UrlField(PersistedUrl(prev))] + DisplayFields(prev, None);
    assert FirstRender(prev, n, withRemove) == head + GroupFields(None, StoredGroups(prev), n, withRemove) + [AddField];
    FixedKeys(prev, None, PersistedUrl(prev));
    SubmittedGroups(head, None, StoredGroups(prev), n, withRemove, [AddField]);
  }

  /** The groups of a persistable record, shown and submitted unchanged, are
      counted and rebuilt as they were, and none is flagged for removal. */
  lemma RoundTripGroups(prev: Stored, withRemove: bool)
    requires Persistable(prev)
    ensures var r := Unchanged(prev, |prev.groups.value|, withRemove);
            && GroupCount(r) == |prev.groups.value|
            && (withRemove ==> forall k :: 0 <= k < |prev.groups.value| ==> !Flagged(r, k))
            && KeptGroups(r, |prev.groups.value|, false, Builder(r)) == prev.groups.value
  {
    var groups := prev.groups.value;
    var n := |groups|;
    var r := Unchanged(prev, n, withRemove);
    UnchangedGroups(prev, n, withRemove);
    assert HasGroup(r, 0);
    GroupCountIsLongestPrefix(r, n);
    KeptGroupsWithoutRemoval(r, n, Builder(r));
    forall k | 0 <= k < n
      ensures KeptGroups(r, n, false, Builder(r))[k] == groups[k]
    {
      RebuildStoredGroup(r, groups, k);
    }
  }

  /** Where the round trip stops: a group stored without a name (its
      submitted name was falsy) is shown as `Group {k+1}` and comes back
      under that name, so it is not rebuilt as it was stored. */
  lemma NamelessGroupRenamed(prev: Stored, withRemove: bool, k: nat)
    requires prev.groups.Some? && k < |prev.groups.value| && prev.groups.value[k].name.None?
    ensures var r := Unchanged(prev, |prev.groups.value|, withRemove);
            && GroupNameKey(k) in r && r[GroupNameKey(k)] == S(DefaultGroupName(k))
            && BuildGroup(r, k).name == Some(S(DefaultGroupName(k)))
            && BuildGroup(r, k) != prev.groups.value[k]
  {
    UnchangedGroups(prev, |prev.groups.value|, withRemove);
  }

  /** A record without groups is shown with one empty slot, and submitting
      either form unchanged stores that slot as `Group 1` with no entities. */
  lemma EmptyGroupsGainOne(prev: Stored, registry: Registry, forecasts: ForecastService)
    requires StoredGroups(prev) == []
    ensures UserStep(prev, Some(Unchanged(prev, InitialSlots(prev), false)), registry, forecasts).outcome.CreateEntry?
    ensures UserStep(prev, Some(Unchanged(prev, InitialSlots(prev), false)), registry, forecasts).outcome.data.groups
            == Some([Group(Some(S(DefaultGroupName(0))), [])])
    ensures InitStep(prev, Some(Unchanged(prev, InitialSlots(prev), true)), registry, forecasts).outcome.CreateEntry?
    ensures InitStep(prev, Some(Unchanged(prev, InitialSlots(prev), true)), registry, forecasts).outcome.data.groups
            == Some([Group(Some(S(DefaultGroupName(0))), [])])
  {
    var setup := Unchanged(prev, 1, false);
    SingleEmptySlot(prev, false);
    KeptGroupsWithoutRemoval(setup, 1, Builder(setup));
    assert KeptGroups(setup, 1, false, Builder(setup)) == [BuildGroup(setup, 0)];
    var options := Unchanged(prev, 1, true);
    SingleEmptySlot(prev, true);
    KeptGroupsNoFlags(options, 1, Builder(options));
    KeptGroupsWithoutRemoval(options, 1, Builder(options));
    assert KeptGroups(options, 1, true, Builder(options)) == [BuildGroup(options, 0)];
  }

  /** The one slot shown over a record without groups, submitted unchanged:
      one group named `Group 1` with no entities, no add request, and (in
      the options form) no removal flag. */
  lemma SingleEmptySlot(prev: Stored, withRemove: bool)
    requires StoredGroups(prev) == []
    ensures var r := Unchanged(prev, 1, withRemove);
            && GroupCount(r) == 1 && !AddRequested(r) && (withRemove ==> !Flagged(r, 0))
            && BuildGroup(r, 0) == Group(Some(S(DefaultGroupName(0))), [])
  {
    var r := Unchanged(prev, 1, withRemove);
    UnchangedGroups(prev, 1, withRemove);
    UnchangedSelects(prev, 1, withRemove);
    assert HasGroup(r, 0);
    GroupCountIsLongestPrefix(r, 1);
  }

  /** A draft holding a persistable group's own defaults rebuilds that group. */
  lemma RebuildStoredGroup(r: Draft, groups: seq<Group>, k: nat)
    requires k < |groups| && groups[k].name.Some? && Truthy(groups[k].name.value) && AllRefs(groups[k].entities)
    requires GroupNameKey(k) in r && r[GroupNameKey(k)] == NameDefault(None, groups, k)
    requires GroupEntitiesKey(k) in r && r[GroupEntitiesKey(k)] == EntitiesDefault(None, groups, k)
    ensures BuildGroup(r, k) == groups[k]
  {
    RefsOfRefs(groups[k].entities);
  }

  /** The other fields of a persistable record, shown and submitted
      unchanged, are rebuilt as they were; no group is added; both steps read
      back the persisted URL. */
  lemma RoundTripFields(prev: Stored, n: nat, withRemove: bool)
    requires Persistable(prev)
    ensures var r := Unchanged(prev, n, withRemove);
            && !AddRequested(r)
            && SetupUrl(prev, r) == prev.webhookUrl.value
            && OptionsUrl(prev, r) == prev.webhookUrl.value
            && Record(r, prev.webhookUrl.value, prev.groups.value) == prev
  {
    UnchangedSelects(prev, n, withRemove);
    UnchangedToggles(prev, n, withRemove);
    UnchangedLists(prev, n, withRemove);
    RefsOfRefs(prev.pills.value);
    RefsOfRefs(prev.visualizations.value);
  }

  /** A persistable record shown in the options form and submitted unchanged
      creates the very same record. */
  lemma OptionsRoundTrip(prev: Stored, registry: Registry, forecasts: ForecastService)
    requires Persistable(prev)
    ensures InitStep(prev, None, registry, forecasts).outcome.schema == FirstRender(prev, InitialSlots(prev), true)
    ensures InitStep(prev, Some(Unchanged(prev, InitialSlots(prev), true)), registry, forecasts).outcome
            == CreateEntry(OptionsTitle, prev)
  {
    var n := InitialSlots(prev);
    var r := Unchanged(prev, n, true);
    RoundTripGroups(prev, true);
    RoundTripFields(prev, n, true);
    KeptGroupsNoFlags(r, n, Builder(r));
  }

  /** The same holds for the setup form when it is shown over a persisted
      record. */
  lemma SetupRoundTrip(prev: Stored, registry: Registry, forecasts: ForecastService)
    requires Persistable(prev)
    ensures UserStep(prev, None, registry, forecasts).outcome.schema == FirstRender(prev, InitialSlots(prev), false)
    ensures UserStep(prev, Some(Unchanged(prev, InitialSlots(prev), false)), registry, forecasts).outcome
            == CreateEntry(SetupTitle, prev)
  {
    var n := InitialSlots(prev);
    RoundTripGroups(prev, false);
    RoundTripFields(prev, n, false);
  }
}
