/** The webhook integration's configuration flow: the same group-editing
    form as the dashboard without the display settings, entities kept only
    when the state registry knows them (stored as full state dictionaries),
    and a delivery attempted on every submission whose failure keeps the form
    open with an error. */
module Webhook {
  import opened Values
  import opened Groups
  import opened Schema
  import Dashboard

  /** The registry answers for an id with that id's own snapshot. */
  ghost predicate Consistent(registry: Registry) {
    forall id :: registry(id).Some? ==> registry(id).value.entityId == id
  }

  // ---------------------------------------------------------------------------
  // Entities: only known ones, as state dictionaries

  /** `state.as_dict()`. */
  function AsDict(snap: Snapshot): Entity {
    Expanded(snap.entityId, snap.state, snap.attributes, snap.lastChanged, snap.lastUpdated, None)
  }

  /** An id that is kept: non-empty and known to the registry. */
  function Known(registry: Registry): string -> bool {
    id => id != "" && registry(id).Some?
  }

  /** The state dictionaries of the non-empty ids the registry knows, in order. */
  function KnownStates(ids: seq<string>, registry: Registry): seq<Entity> {
    if ids == [] then []
    else
      var last := ids[|ids| - 1];
      KnownStates(ids[..|ids| - 1], registry)
      + (if last != "" && registry(last).Some? then [AsDict(registry(last).value)] else [])
  }

  /** The loop that keeps each truthy id whose state the registry returns. */
  method ValidEntities(ids: seq<string>, registry: Registry) returns (valid: seq<Entity>)
    ensures valid == KnownStates(ids, registry)
  {
    valid := [];
    for k := 0 to |ids|
      invariant valid == KnownStates(ids[..k], registry)
    {
      var ent := ids[k];
      assert ids[..k + 1][..k] == ids[..k];
      if ent != "" {
        var state := registry(ent);
        if state.Some? {
          valid := valid + [AsDict(state.value)];
        }
      }
    }
    assert ids[..|ids|] == ids;
  }

  /** Each kept entity is the registry's current state of the next non-empty
      known id, in order; unknown and empty ids are dropped. */
  lemma {:induction false} KnownStatesMeaning(ids: seq<string>, registry: Registry)
    ensures |KnownStates(ids, registry)| == |Keep(ids, Known(registry))|
    ensures forall k :: 0 <= k < |KnownStates(ids, registry)| ==>
              registry(Keep(ids, Known(registry))[k]).Some?
              && KnownStates(ids, registry)[k] == AsDict(registry(Keep(ids, Known(registry))[k]).value)
  {
    if ids != [] {
      var init := ids[..|ids| - 1];
      KnownStatesMeaning(init, registry);
      var kept := Keep(init, Known(registry));
      KeepMembers(init, Known(registry));
      assert forall k :: 0 <= k < |kept| ==> Known(registry)(kept[k]) by {
        forall k | 0 <= k < |kept| ensures Known(registry)(kept[k]) {
          assert kept[k] in kept;
        }
      }
    }
  }

  /** With a consistent registry the kept entities carry exactly the known
      non-empty ids, in order, so an unknown id never reaches the record. */
  lemma KnownStatesIds(ids: seq<string>, registry: Registry)
    requires Consistent(registry)
    ensures Ids(KnownStates(ids, registry)) == Keep(ids, Known(registry))
    ensures forall id :: registry(id).None? ==> id !in Ids(KnownStates(ids, registry))
    ensures forall e :: e in KnownStates(ids, registry) ==> e.Expanded? && e.forecast.None?
  {
    KnownStatesMeaning(ids, registry);
    var kept := Keep(ids, Known(registry));
    KeepMembers(ids, Known(registry));
    forall k | 0 <= k < |kept| ensures registry(kept[k]).Some? {
      assert kept[k] in kept;
    }
  }

  // ---------------------------------------------------------------------------
  // Materialising the groups of a draft

  /** Group `idx` of a draft: its submitted name (default `Group {idx+1}`),
      kept only when truthy, and the known states of its submitted ids. */
  function BuildGroup(d: Draft, idx: nat, registry: Registry): Group {
    var name := Get(d, GroupNameKey(idx), S(DefaultGroupName(idx)));
    Group(if Truthy(name) then Some(name) else None,
          KnownStates(Items(Get(d, GroupEntitiesKey(idx), L([]))), registry))
  }

  function Builder(d: Draft, registry: Registry): nat -> Group {
    (idx: nat) => BuildGroup(d, idx, registry)
  }

  /** A group without a name field is named `Group {idx+1}`; a submitted name
      is kept exactly when it is truthy; an entity is kept exactly when its id
      is non-empty and known. */
  lemma BuildGroupMeaning(d: Draft, idx: nat, registry: Registry)
    requires Consistent(registry)
    ensures GroupNameKey(idx) !in d ==> BuildGroup(d, idx, registry).name == Some(S(DefaultGroupName(idx)))
    ensures GroupNameKey(idx) in d ==>
              (BuildGroup(d, idx, registry).name.Some? <==> Truthy(d[GroupNameKey(idx)]))
              && (BuildGroup(d, idx, registry).name.Some? ==>
                    BuildGroup(d, idx, registry).name.value == d[GroupNameKey(idx)])
    ensures Ids(BuildGroup(d, idx, registry).entities) ==
              Keep(Items(Get(d, GroupEntitiesKey(idx), L([]))), Known(registry))
  {
    KnownStatesIds(Items(Get(d, GroupEntitiesKey(idx), L([]))), registry);
  }

  /** The group-building loops of both steps: with `removal`, the flagged
      indices are collected first and skipped. */
  method MaterializeGroups(d: Draft, numGroups: nat, removal: bool, registry: Registry) returns (groups: seq<Group>)
    ensures groups == KeptGroups(d, numGroups, removal, Builder(d, registry))
  {
    var removedIndices: seq<nat> := [];
    if removal {
      for idx := 0 to numGroups
        invariant forall k: nat :: k in removedIndices <==> k < idx && Flagged(d, k)
      {
        if RemoveGroupKey(idx) in d && Truthy(d[RemoveGroupKey(idx)]) {
          removedIndices := removedIndices + [idx];
        }
      }
    }
    groups := [];
    for idx := 0 to numGroups
      invariant forall k: nat :: k in removedIndices <==> removal && k < numGroups && Flagged(d, k)
      invariant groups == KeptGroups(d, idx, removal, Builder(d, registry))
    {
      if idx in removedIndices {
        continue;
      }
      var groupName := Get(d, GroupNameKey(idx), S(DefaultGroupName(idx)));
      var groupEntities := Items(Get(d, GroupEntitiesKey(idx), L([])));
      var validEntities := ValidEntities(groupEntities, registry);
      var group := Group(None, validEntities);
      if Truthy(groupName) {
        group := group.(name := Some(groupName));
      }
      groups := groups + [group];
    }
  }

  // ---------------------------------------------------------------------------
  // Schemas

  /** The setup form: URL, pills, the group blocks and `add_another_group`. */
  function DynamicSchema(prev: Stored, draft: Option<Draft>, n: nat): seq<Field> {
    [UrlField(SetupUrlDefault(prev, draft)), PillField(draft, prev)]
    + GroupFields(draft, StoredGroups(prev), n, false) + [AddField]
  }

  /** The options form: the persisted URL and a removal toggle per group. */
  function DynamicOptionsSchema(prev: Stored, draft: Option<Draft>, n: nat): seq<Field> {
    [UrlField(PersistedUrl(prev)), PillField(draft, prev)]
    + GroupFields(draft, StoredGroups(prev), n, true) + [AddField]
  }

  /** The older options form: as the options form without `add_another_group`. */
  function OptionsSchema(prev: Stored, draft: Option<Draft>, n: nat): seq<Field> {
    [UrlField(PersistedUrl(prev)), PillField(draft, prev)]
    + GroupFields(draft, StoredGroups(prev), n, true)
  }

  method GetDynamicSchema(prev: Stored, draft: Option<Draft>, numGroups: nat) returns (fields: seq<Field>)
    ensures fields == DynamicSchema(prev, draft, numGroups)
  {
    var urlDefault;
    if Submitted(draft) && "webhook_url" in draft.value {
      urlDefault := draft.value["webhook_url"];
    } else {
      urlDefault := prev.webhookUrl.GetOr(S(""));
    }
    fields := [UrlField(urlDefault), PillField(draft, prev)];
    fields := AppendGroupFields(fields, draft, StoredGroups(prev), numGroups, false);
    fields := fields + [AddField];
  }

  method GetDynamicOptionsSchema(prev: Stored, draft: Option<Draft>, numGroups: nat) returns (fields: seq<Field>)
    ensures fields == DynamicOptionsSchema(prev, draft, numGroups)
  {
    fields := [UrlField(prev.webhookUrl.GetOr(S(""))), PillField(draft, prev)];
    fields := AppendGroupFields(fields, draft, StoredGroups(prev), numGroups, true);
    fields := fields + [AddField];
  }

  method GetOptionsSchema(prev: Stored, draft: Option<Draft>, numGroups: nat) returns (fields: seq<Field>)
    ensures fields == OptionsSchema(prev, draft, numGroups)
  {
    fields := [UrlField(prev.webhookUrl.GetOr(S(""))), PillField(draft, prev)];
    fields := AppendGroupFields(fields, draft, StoredGroups(prev), numGroups, true);
  }

  /** The setup form holds the URL and the pills, then exactly n group blocks
      with the draft-then-persisted-then-default values, then
      `add_another_group`, and no field name twice. */
  lemma DynamicSchemaShape(prev: Stored, draft: Option<Draft>, n: nat)
    ensures |DynamicSchema(prev, draft, n)| == 3 + 2 * n
    ensures DynamicSchema(prev, draft, n)[..2] == [UrlField(SetupUrlDefault(prev, draft)), PillField(draft, prev)]
    ensures DynamicSchema(prev, draft, n)[2 + 2 * n] == AddField
    ensures forall i :: 0 <= i < n ==>
              && DynamicSchema(prev, draft, n)[2 + 2 * i] ==
                 Field(GroupNameKey(i), false, Text, Some(NameDefault(draft, StoredGroups(prev), i)))
              && DynamicSchema(prev, draft, n)[3 + 2 * i] ==
                 Field(GroupEntitiesKey(i), false, EntityPicker(None), Some(EntitiesDefault(draft, StoredGroups(prev), i)))
    ensures DistinctKeys(DynamicSchema(prev, draft, n))
    ensures forall j: nat :: j >= n ==>
              GroupNameKey(j) !in Keys(DynamicSchema(prev, draft, n))
              && GroupEntitiesKey(j) !in Keys(DynamicSchema(prev, draft, n))
  {
    var head := [UrlField(SetupUrlDefault(prev, draft)), PillField(draft, prev)];
    var groups := StoredGroups(prev);
    forall i | 0 <= i < n
      ensures DynamicSchema(prev, draft, n)[2 + 2 * i] ==
              Field(GroupNameKey(i), false, Text, Some(NameDefault(draft, groups, i)))
      ensures DynamicSchema(prev, draft, n)[3 + 2 * i] ==
              Field(GroupEntitiesKey(i), false, EntityPicker(None), Some(EntitiesDefault(draft, groups, i)))
    {
      AssembledAt(head, draft, groups, n, false, [AddField], i);
    }
    UrlPillKeys(prev, draft, SetupUrlDefault(prev, draft));
    AssembledKeys(head, draft, groups, n, false, [AddField]);
  }

  /** The options form: URL and pills, n group blocks each ending in its
      removal toggle (default false), `add_another_group`, no name twice. */
  lemma DynamicOptionsSchemaShape(prev: Stored, draft: Option<Draft>, n: nat)
    ensures |DynamicOptionsSchema(prev, draft, n)| == 3 + 3 * n
    ensures DynamicOptionsSchema(prev, draft, n)[..2] == [UrlField(PersistedUrl(prev)), PillField(draft, prev)]
    ensures DynamicOptionsSchema(prev, draft, n)[2 + 3 * n] == AddField
    ensures forall i :: 0 <= i < n ==>
              && DynamicOptionsSchema(prev, draft, n)[2 + 3 * i] ==
                 Field(GroupNameKey(i), false, Text, Some(NameDefault(draft, StoredGroups(prev), i)))
              && DynamicOptionsSchema(prev, draft, n)[3 + 3 * i] ==
                 Field(GroupEntitiesKey(i), false, EntityPicker(None), Some(EntitiesDefault(draft, StoredGroups(prev), i)))
              && DynamicOptionsSchema(prev, draft, n)[4 + 3 * i] == RemoveField(i)
    ensures DistinctKeys(DynamicOptionsSchema(prev, draft, n))
    ensures forall j: nat :: j >= n ==>
              GroupNameKey(j) !in Keys(DynamicOptionsSchema(prev, draft, n))
              && GroupEntitiesKey(j) !in Keys(DynamicOptionsSchema(prev, draft, n))
  {
    var head := [UrlField(PersistedUrl(prev)), PillField(draft, prev)];
    var groups := StoredGroups(prev);
    forall i | 0 <= i < n
      ensures DynamicOptionsSchema(prev, draft, n)[2 + 3 * i] ==
              Field(GroupNameKey(i), false, Text, Some(NameDefault(draft, groups, i)))
      ensures DynamicOptionsSchema(prev, draft, n)[3 + 3 * i] ==
              Field(GroupEntitiesKey(i), false, EntityPicker(None), Some(EntitiesDefault(draft, groups, i)))
      ensures DynamicOptionsSchema(prev, draft, n)[4 + 3 * i] == RemoveField(i)
    {
      AssembledAt(head, draft, groups, n, true, [AddField], i);
    }
    UrlPillKeys(prev, draft, PersistedUrl(prev));
    AssembledKeys(head, draft, groups, n, true, [AddField]);
  }

  /** The older options form is the options form without its last field. */
  lemma OptionsSchemaIsPrefix(prev: Stored, draft: Option<Draft>, n: nat)
    ensures OptionsSchema(prev, draft, n) + [AddField] == DynamicOptionsSchema(prev, draft, n)
    ensures DistinctKeys(OptionsSchema(prev, draft, n))
    ensures "add_another_group" !in Keys(OptionsSchema(prev, draft, n))
  {
    var head := [UrlField(PersistedUrl(prev)), PillField(draft, prev)];
    var g := GroupFields(draft, StoredGroups(prev), n, true);
    assert head + g + [] == head + g;
    UrlPillKeys(prev, draft, PersistedUrl(prev));
    AssembledKeys(head, draft, StoredGroups(prev), n, true, []);
    GroupFieldsKeys(draft, StoredGroups(prev), n, true);
    assert Keys(head + g) == Keys(head) + Keys(g);
  }

  // ---------------------------------------------------------------------------
  // The record and the step handlers

  const SetupTitle := "TRMNL Webhook"
  const OptionsTitle := "TRMNL Webhook Options"
  const SetupInfo := "Add pill entities and configure groups."
  const OptionsInfo := "Edit pill entities and configure groups."
  const WebhookFailed := map["base" := "webhook_failed"]

  /** The stored record: exactly the URL, the groups and the pills. */
  function Record(url: Value, groups: seq<Group>, pills: seq<Entity>): Stored {
    Stored(Some(url), Some(groups), Some(pills), None, None, None, None, None, None, None)
  }

  /** The pills of a draft: the known states of its `pill_entities` ids. */
  function PillsOf(d: Draft, registry: Registry): seq<Entity> {
    KnownStates(Items(Get(d, "pill_entities", L([]))), registry)
  }

  /** Setup: the draft's URL when truthy, else the persisted one. */
  function SetupUrl(prev: Stored, d: Draft): Value {
    if "webhook_url" in d && Truthy(d["webhook_url"]) then d["webhook_url"] else prev.webhookUrl.GetOr(S(""))
  }

  /** Options: the draft's URL whenever present, else the persisted one. */
  function OptionsUrl(prev: Stored, d: Draft): Value {
    Get(d, "webhook_url", prev.webhookUrl.GetOr(S("")))
  }

  /** `async_step_user`. `transportOk` says whether the POST of the record
      returned without raising. */
  function UserStep(prev: Stored, draft: Option<Draft>, registry: Registry, transportOk: bool): Step<Stored> {
    if draft.None? then
      Step(ShowForm("user", DynamicSchema(prev, draft, InitialSlots(prev)), map[], Info(SetupInfo)), None)
    else
      var d := draft.value;
      var groups := KeptGroups(d, GroupCount(d), false, Builder(d, registry));
      if AddRequested(d) then
        Step(ShowForm("user", DynamicSchema(prev, draft, |groups| + 1), map[], Info(SetupInfo)), None)
      else
        var rec := Record(SetupUrl(prev, d), groups, PillsOf(d, registry));
        Step(if transportOk then CreateEntry(SetupTitle, rec)
             else ShowForm("user", DynamicSchema(prev, draft, GroupCount(d)), WebhookFailed, Info(SetupInfo)),
             Some(Delivery(rec.webhookUrl.value, rec)))
  }

  /** `async_step_init`: as the setup step, with the removal pass, the
      options form, the draft's URL whenever present and no placeholders on
      the first render or after a failed delivery. */
  function InitStep(prev: Stored, draft: Option<Draft>, registry: Registry, transportOk: bool): Step<Stored> {
    if draft.None? then
      Step(ShowForm("init", DynamicOptionsSchema(prev, draft, InitialSlots(prev)), map[], NoPlaceholders), None)
    else
      var d := draft.value;
      var groups := KeptGroups(d, GroupCount(d), true, Builder(d, registry));
      if AddRequested(d) then
        Step(ShowForm("init", DynamicOptionsSchema(prev, draft, |groups| + 1), map[], Info(OptionsInfo)), None)
      else
        var rec := Record(OptionsUrl(prev, d), groups, PillsOf(d, registry));
        Step(if transportOk then CreateEntry(OptionsTitle, rec)
             else ShowForm("init", DynamicOptionsSchema(prev, draft, |groups|), WebhookFailed, NoPlaceholders),
             Some(Delivery(rec.webhookUrl.value, rec)))
  }

  method AsyncStepUser(prev: Stored, userInput: Option<Draft>, registry: Registry, transportOk: bool)
    returns (step: Step<Stored>)
    ensures step == UserStep(prev, userInput, registry, transportOk)
  {
    if userInput.Some? {
      var d := userInput.value;
      var numGroups := CountGroups(d);
      var newGroups := MaterializeGroups(d, numGroups, false, registry);
      if AddRequested(d) {
        var schema := GetDynamicSchema(prev, userInput, |newGroups| + 1);
        return Step(ShowForm("user", schema, map[], Info(SetupInfo)), None);
      }
      var webhookUrl := if "webhook_url" in d && Truthy(d["webhook_url"]) then d["webhook_url"]
                        else prev.webhookUrl.GetOr(S(""));
      var pillsObj := ValidEntities(Items(Get(d, "pill_entities", L([]))), registry);
      var data := Record(webhookUrl, newGroups, pillsObj);
      var delivery := Some(Delivery(webhookUrl, data));
      if transportOk {
        step := Step(CreateEntry(SetupTitle, data), delivery);
      } else {
        var schema := GetDynamicSchema(prev, userInput, numGroups);
        step := Step(ShowForm("user", schema, WebhookFailed, Info(SetupInfo)), delivery);
      }
    } else {
      var schema := GetDynamicSchema(prev, userInput, InitialSlots(prev));
      step := Step(ShowForm("user", schema, map[], Info(SetupInfo)), None);
    }
  }

  method AsyncStepInit(prev: Stored, userInput: Option<Draft>, registry: Registry, transportOk: bool)
    returns (step: Step<Stored>)
    ensures step == InitStep(prev, userInput, registry, transportOk)
  {
    if userInput.Some? {
      var d := userInput.value;
      var numGroups := CountGroups(d);
      var updatedGroups := MaterializeGroups(d, numGroups, true, registry);
      if AddRequested(d) {
        var schema := GetDynamicOptionsSchema(prev, userInput, |updatedGroups| + 1);
        return Step(ShowForm("init", schema, map[], Info(OptionsInfo)), None);
      }
      var webhookUrl := Get(d, "webhook_url", prev.webhookUrl.GetOr(S("")));
      var pillsObj := ValidEntities(Items(Get(d, "pill_entities", L([]))), registry);
      var data := Record(webhookUrl, updatedGroups, pillsObj);
      var delivery := Some(Delivery(webhookUrl, data));
      if transportOk {
        step := Step(CreateEntry(OptionsTitle, data), delivery);
      } else {
        var schema := GetDynamicOptionsSchema(prev, userInput, |updatedGroups|);
        step := Step(ShowForm("init", schema, WebhookFailed, NoPlaceholders), delivery);
      }
    } else {
      var schema := GetDynamicOptionsSchema(prev, userInput, InitialSlots(prev));
      step := Step(ShowForm("init", schema, map[], NoPlaceholders), None);
    }
  }

  // ---------------------------------------------------------------------------
  // What the step handlers promise

  /** The setup step: with no draft, the form with the persisted group count;
      with add-a-group, the form again with one slot more and nothing sent;
      otherwise the record (group k built from index k, known pills only) is
      always sent, whatever its URL, and becomes the entry exactly when the
      send succeeds — else the same form returns with `webhook_failed`. */
  lemma UserStepOutcomes(prev: Stored, draft: Option<Draft>, registry: Registry, transportOk: bool)
    ensures draft.None? ==>
              && UserStep(prev, draft, registry, transportOk).outcome ==
                 ShowForm("user", DynamicSchema(prev, draft, InitialSlots(prev)), map[], Info(SetupInfo))
              && |UserStep(prev, draft, registry, transportOk).outcome.schema| == 3 + 2 * InitialSlots(prev)
              && UserStep(prev, draft, registry, transportOk).delivery.None?
    ensures draft.Some? && AddRequested(draft.value) ==>
              && UserStep(prev, draft, registry, transportOk).outcome.ShowForm?
              && UserStep(prev, draft, registry, transportOk).outcome.errors == map[]
              && |UserStep(prev, draft, registry, transportOk).outcome.schema| == 3 + 2 * (GroupCount(draft.value) + 1)
              && UserStep(prev, draft, registry, transportOk).delivery.None?
    ensures draft.Some? && !AddRequested(draft.value) ==>
              var rec := UserStep(prev, draft, registry, transportOk).delivery.value.payload;
              && UserStep(prev, draft, registry, transportOk).delivery.Some?
              && UserStep(prev, draft, registry, transportOk).delivery.value.url == SetupUrl(prev, draft.value)
              && rec.webhookUrl == Some(SetupUrl(prev, draft.value))
              && rec.pills == Some(PillsOf(draft.value, registry))
              && |rec.groups.value| == GroupCount(draft.value)
              && (forall k :: 0 <= k < GroupCount(draft.value) ==>
                    rec.groups.value[k] == BuildGroup(draft.value, k, registry))
              && (UserStep(prev, draft, registry, transportOk).outcome.CreateEntry? <==> transportOk)
              && (transportOk ==> UserStep(prev, draft, registry, transportOk).outcome == CreateEntry(SetupTitle, rec))
              && (!transportOk ==>
                    && UserStep(prev, draft, registry, transportOk).outcome.errors == map["base" := "webhook_failed"]
                    && UserStep(prev, draft, registry, transportOk).outcome.stepId == "user"
                    && |UserStep(prev, draft, registry, transportOk).outcome.schema| == 3 + 2 * GroupCount(draft.value))
  {
    if draft.Some? {
      var d := draft.value;
      KeptGroupsWithoutRemoval(d, GroupCount(d), Builder(d, registry));
      DynamicSchemaShape(prev, draft, GroupCount(d) + 1);
      DynamicSchemaShape(prev, draft, GroupCount(d));
    } else {
      DynamicSchemaShape(prev, draft, InitialSlots(prev));
    }
  }

  /** The options step: the record holds the unflagged groups, built from
      their own indices in their original order, and is always sent; a failed
      send shows the options form with as many slots as survivors. */
  lemma InitStepRemoval(prev: Stored, d: Draft, registry: Registry, transportOk: bool)
    requires !AddRequested(d)
    ensures InitStep(prev, Some(d), registry, transportOk).delivery.Some?
    ensures var rec := InitStep(prev, Some(d), registry, transportOk).delivery.value.payload;
            && rec.webhookUrl == Some(OptionsUrl(prev, d))
            && rec.pills == Some(PillsOf(d, registry))
            && |rec.groups.value| + |RemovedIndices(d, GroupCount(d))| == GroupCount(d)
            && |rec.groups.value| == |Survivors(d, GroupCount(d), true)|
            && (forall k :: 0 <= k < |Survivors(d, GroupCount(d), true)| ==>
                  rec.groups.value[k] == BuildGroup(d, Survivors(d, GroupCount(d), true)[k], registry))
            && (transportOk ==> InitStep(prev, Some(d), registry, transportOk).outcome == CreateEntry(OptionsTitle, rec))
    ensures !transportOk ==>
              && InitStep(prev, Some(d), registry, transportOk).outcome.ShowForm?
              && InitStep(prev, Some(d), registry, transportOk).outcome.errors == map["base" := "webhook_failed"]
              && InitStep(prev, Some(d), registry, transportOk).outcome.placeholders == NoPlaceholders
              && |InitStep(prev, Some(d), registry, transportOk).outcome.schema| ==
                 3 + 3 * |Survivors(d, GroupCount(d), true)|
  {
    KeptGroupsAreSurvivors(d, GroupCount(d), true, Builder(d, registry));
    SurvivorsCount(d, GroupCount(d));
    DynamicOptionsSchemaShape(prev, Some(d), |Survivors(d, GroupCount(d), true)|);
  }

  /** Adding a group in the options step sends nothing and shows the options
      form again, with one slot more than the surviving groups and the
      options info text. */
  lemma InitAddRenders(prev: Stored, d: Draft, registry: Registry, transportOk: bool)
    requires AddRequested(d)
    ensures InitStep(prev, Some(d), registry, transportOk).outcome.ShowForm?
    ensures InitStep(prev, Some(d), registry, transportOk).outcome.stepId == "init"
    ensures InitStep(prev, Some(d), registry, transportOk).outcome.errors == map[]
    ensures InitStep(prev, Some(d), registry, transportOk).outcome.placeholders == Info(OptionsInfo)
    ensures |InitStep(prev, Some(d), registry, transportOk).outcome.schema| ==
              3 + 3 * (|Survivors(d, GroupCount(d), true)| + 1)
    ensures InitStep(prev, Some(d), registry, transportOk).delivery.None?
  {
    KeptGroupsAreSurvivors(d, GroupCount(d), true, Builder(d, registry));
    DynamicOptionsSchemaShape(prev, Some(d), |Survivors(d, GroupCount(d), true)| + 1);
  }

  /** After a failed send the options form is rebuilt from the raw draft by
      original index but sized by the survivors: slot j shows the draft's
      group j — a group flagged for removal included — with its removal
      toggle reset, and the last surviving groups lose their slots. */
  lemma InitFailureRendersByRawIndex(prev: Stored, d: Draft, registry: Registry)
    requires !AddRequested(d)
    ensures InitStep(prev, Some(d), registry, false).outcome.ShowForm?
    ensures |InitStep(prev, Some(d), registry, false).outcome.schema| == 3 + 3 * |Survivors(d, GroupCount(d), true)|
    ensures forall j :: 0 <= j < |Survivors(d, GroupCount(d), true)| ==>
              && InitStep(prev, Some(d), registry, false).outcome.schema[2 + 3 * j].default ==
                 Some(Get(d, GroupNameKey(j), StoredName(StoredGroups(prev), j)))
              && InitStep(prev, Some(d), registry, false).outcome.schema[4 + 3 * j] == RemoveField(j)
  {
    DynamicOptionsSchemaShape(prev, Some(d), |Survivors(d, GroupCount(d), true)|);
    KeptGroupsAreSurvivors(d, GroupCount(d), true, Builder(d, registry));
  }

  /** The two steps read the URL differently: setup falls back to the
      persisted URL when the submitted one is empty, the options step keeps
      the empty one and still sends to it. */
  lemma UrlPrecedence(prev: Stored, d: Draft, registry: Registry, transportOk: bool)
    requires "webhook_url" in d && d["webhook_url"] == S("") && !AddRequested(d)
    ensures UserStep(prev, Some(d), registry, transportOk).delivery.value.url == prev.webhookUrl.GetOr(S(""))
    ensures InitStep(prev, Some(d), registry, transportOk).delivery.value.url == S("")
  {
  }

  /** The re-rendered setup form, submitted unchanged: one more group, no
      further add request, and the draft's own group fields kept. */
  lemma ResubmittedGrowth(prev: Stored, d: Draft)
    requires AddRequested(d)
    ensures var r := SubmitDefaults(DynamicSchema(prev, Some(d), GroupCount(d) + 1));
            && GroupCount(r) == GroupCount(d) + 1
            && !AddRequested(r)
            && forall i :: 0 <= i < GroupCount(d) + 1 ==>
                 && (GroupNameKey(i) in d ==> GroupNameKey(i) in r && r[GroupNameKey(i)] == d[GroupNameKey(i)])
                 && (GroupEntitiesKey(i) in d ==> GroupEntitiesKey(i) in r && r[GroupEntitiesKey(i)] == d[GroupEntitiesKey(i)])
  {
    var m := GroupCount(d) + 1;
    var head := [UrlField(SetupUrlDefault(prev, Some(d))), PillField(Some(d), prev)];
    var fs := DynamicSchema(prev, Some(d), m);
    assert "add_another_group" in d;
    UrlPillKeys(prev, Some(d), SetupUrlDefault(prev, Some(d)));
    SubmittedGroups(head, Some(d), StoredGroups(prev), m, false, [AddField]);
    var r := SubmitDefaults(fs);
    assert !HasGroup(r, m);
    GroupCountIsLongestPrefix(r, m);
    SubmitDefaultsHas(fs, |fs| - 1, "add_another_group", B(false));
  }

  /** Adding a group and submitting the re-rendered form unchanged, with a
      working transport, creates an entry with one group more, the draft's
      fully submitted groups rebuilt as they were. */
  lemma SetupAddGrowsByOne(prev: Stored, d: Draft, registry: Registry)
    requires AddRequested(d)
    ensures var r := SubmitDefaults(DynamicSchema(prev, Some(d), GroupCount(d) + 1));
            && UserStep(prev, Some(r), registry, true).outcome.CreateEntry?
            && |UserStep(prev, Some(r), registry, true).outcome.data.groups.value| == GroupCount(d) + 1
            && forall i :: 0 <= i < GroupCount(d) && GroupNameKey(i) in d && GroupEntitiesKey(i) in d ==>
                 UserStep(prev, Some(r), registry, true).outcome.data.groups.value[i] == BuildGroup(d, i, registry)
  {
    var r := SubmitDefaults(DynamicSchema(prev, Some(d), GroupCount(d) + 1));
    ResubmittedGrowth(prev, d);
    UserStepOutcomes(prev, Some(r), registry, true);
    forall i | 0 <= i < GroupCount(d) && GroupNameKey(i) in d && GroupEntitiesKey(i) in d
      ensures BuildGroup(r, i, registry) == BuildGroup(d, i, registry)
    {
      assert r[GroupNameKey(i)] == d[GroupNameKey(i)];
    }
  }

  /** The two variants part ways on an id the registry does not know: the
      dashboard keeps it as a bare reference, the webhook drops it. */
  lemma UnknownIdsDiverge(ids: seq<string>, registry: Registry, id: string)
    requires Consistent(registry)
    requires id in ids && id != "" && registry(id).None?
    ensures id in Ids(Dashboard.RefsOf(ids))
    ensures id !in Ids(KnownStates(ids, registry))
  {
    Dashboard.RefsOfIds(ids);
    KnownStatesIds(ids, registry);
  }
}
