/** The authorization model assembled from action inputs, and what the floor makes of its actions. */
module AuthzModel {
  import opened Options
  import opened PolicyBundle
  import opened PolicyFloor
  import opened EntityGraph

  datatype AccessClass = ReadAccess | WriteAccess

  /** `access` and the declared `groups` and `resource` come from the governance stamp, if there is one. */
  datatype ActionInput = ActionInput(id: string, access: Option<AccessClass>, groups: seq<string>, resource: Option<string>)

  datatype ActionDef = ActionDef(id: string, groups: set<string>, resourceType: string, access: AccessClass)

  datatype Model = Model(actions: map<string, ActionDef>, groups: set<string>, entityTypes: set<string>)

  function AccessGroup(access: AccessClass): string {
    if access == ReadAccess then "reads" else "writes"
  }

  /** What the model must make of an input. */
  function Defined(input: ActionInput, defaultType: string): ActionDef {
    var access := if input.access.Some? then input.access.value else WriteAccess;
    ActionDef(input.id,
      (set g | g in input.groups) + {AccessGroup(access)},
      if input.resource.Some? then input.resource.value else defaultType,
      access)
  }

  predicate DistinctIds(inputs: seq<ActionInput>) {
    forall i, j :: 0 <= i < j < |inputs| ==> inputs[i].id != inputs[j].id
  }

  ghost predicate IsModel(inputs: seq<ActionInput>, defaultType: string, model: Model) {
    && (forall i :: 0 <= i < |inputs| ==> inputs[i].id in model.actions && model.actions[inputs[i].id] == Defined(inputs[i], defaultType))
    && (forall id :: id in model.actions ==> exists i :: 0 <= i < |inputs| && inputs[i].id == id)
    && (forall g :: g in model.groups <==> exists i :: 0 <= i < |inputs| && g in Defined(inputs[i], defaultType).groups)
    && (forall t :: t in model.entityTypes <==> exists i :: 0 <= i < |inputs| && Defined(inputs[i], defaultType).resourceType == t)
  }

  /** One action registered, with the groups and the resource type it brings. */
  method Register(ghost inputs: seq<ActionInput>, input: ActionInput, defaultType: string, model: Model) returns (more: Model)
    requires IsModel(inputs, defaultType, model) && input.id !in model.actions
    ensures IsModel(inputs + [input], defaultType, more)
  {
    var access := if input.access.Some? then input.access.value else WriteAccess;
    var groups := (set g | g in input.groups) + {AccessGroup(access)};
    var resourceType := if input.resource.Some? then input.resource.value else defaultType;
    more := Model(
      model.actions[input.id := ActionDef(input.id, groups, resourceType, access)],
      model.groups + groups,
      model.entityTypes + {resourceType});
    ModelOneMore(inputs, input, defaultType, model);
  }

  lemma KnownIff(inputs: seq<ActionInput>, defaultType: string, model: Model, k: nat)
    requires k < |inputs| && DistinctIds(inputs[..k]) && IsModel(inputs[..k], defaultType, model)
    ensures DistinctIds(inputs[..k + 1]) <==> inputs[k].id !in model.actions
  {
    if inputs[k].id in model.actions {
      var i :| 0 <= i < k && inputs[..k][i].id == inputs[k].id;
      assert inputs[..k + 1][i].id == inputs[..k + 1][k].id;
    } else {
      forall i | 0 <= i < k
        ensures inputs[i].id != inputs[k].id
      {
        assert inputs[..k][i].id in model.actions;
      }
    }
  }

  /** Refused exactly when two inputs share an id. */
  method BuildAuthzModel(inputs: seq<ActionInput>, defaultType: string) returns (model: Option<Model>)
    ensures model.Some? <==> DistinctIds(inputs)
    ensures model.Some? ==> IsModel(inputs, defaultType, model.value)
  {
    var built := Model(map[], {}, {});
    var k := 0;
    while k < |inputs|
      invariant 0 <= k <= |inputs|
      invariant DistinctIds(inputs[..k])
      invariant IsModel(inputs[..k], defaultType, built)
    {
      KnownIff(inputs, defaultType, built, k);
      if inputs[k].id in built.actions {
        return None;
      }
      built := Register(inputs[..k], inputs[k], defaultType, built);
      assert inputs[..k] + [inputs[k]] == inputs[..k + 1];
      k := k + 1;
    }
    assert inputs[..k] == inputs;
    model := Some(built);
  }

  lemma ModelOneMore(inputs: seq<ActionInput>, input: ActionInput, defaultType: string, model: Model)
    requires IsModel(inputs, defaultType, model) && input.id !in model.actions
    ensures var def := Defined(input, defaultType);
            IsModel(inputs + [input], defaultType,
              Model(model.actions[input.id := def], model.groups + def.groups, model.entityTypes + {def.resourceType}))
  {
    var more := inputs + [input];
    assert more[|inputs|] == input;
    assert forall i :: 0 <= i < |inputs| ==> more[i] == inputs[i];
  }

  /** AN ACTION OF THE MODEL, IN WORDS: of the access declared for it, else a write; in the groups declared for it and in that
      of its access, no other; on the resource type declared for it, else the default. The model's groups and types are
      those of its actions. */
  lemma ActionAsDeclared(inputs: seq<ActionInput>, defaultType: string, model: Model, i: nat)
    requires IsModel(inputs, defaultType, model) && i < |inputs|
    ensures inputs[i].id in model.actions
    ensures var input, def := inputs[i], model.actions[inputs[i].id];
            && def.id == input.id
            && def.access == (if input.access == Some(ReadAccess) then ReadAccess else WriteAccess)
            && (forall g :: g in def.groups <==> g in input.groups || g == if input.access == Some(ReadAccess) then "reads" else "writes")
            && def.resourceType == (if input.resource.Some? then input.resource.value else defaultType)
            && def.groups <= model.groups && def.resourceType in model.entityTypes
  {
    assert Defined(inputs[i], defaultType) == model.actions[inputs[i].id];
  }

  // ---- the hierarchy `in` walks when a call is decided ----

  function ActionRef(id: string): Uid {
    Uid(ActionType, id)
  }

  predicate IsNode(model: Model, uid: Uid) {
    uid.kind == ActionType && (uid.id in model.groups || uid.id in model.actions)
  }

  predicate IsEdge(model: Model, child: Uid, parent: Uid) {
    && child.kind == ActionType && parent.kind == ActionType
    && child.id in model.actions && parent.id in model.actions[child.id].groups
  }

  predicate IsListed(entities: seq<Entity>, uid: Uid) {
    exists i :: 0 <= i < |entities| && entities[i].uid == uid
  }

  /** Every group and every action, the actions under their groups, and nothing else. */
  ghost predicate IsHierarchy(entities: seq<Entity>, model: Model) {
    && (forall uid :: IsListed(entities, uid) <==> IsNode(model, uid))
    && (forall child, parent :: IsParent(entities, child, parent) <==> IsEdge(model, child, parent))
  }

  lemma ListedOneMore(entities: seq<Entity>, e: Entity)
    ensures forall uid :: IsListed(entities + [e], uid) <==> IsListed(entities, uid) || uid == e.uid
    ensures forall child, parent :: IsParent(entities + [e], child, parent) <==>
              IsParent(entities, child, parent) || (child == e.uid && parent in e.parents)
  {
    var more := entities + [e];
    assert more[|entities|] == e;
    assert forall i :: 0 <= i < |entities| ==> more[i] == entities[i];
  }

  method GroupRefs(groups: set<string>) returns (refs: seq<Uid>)
    ensures forall uid: Uid :: uid in refs <==> uid.kind == ActionType && uid.id in groups
  {
    refs := [];
    var rest := groups;
    while rest != {}
      invariant rest <= groups
      invariant forall uid: Uid :: uid in refs <==> uid.kind == ActionType && uid.id in groups - rest
      decreases |rest|
    {
      var g :| g in rest;
      refs := refs + [ActionRef(g)];
      rest := rest - {g};
    }
  }

  method GroupEntities(groups: set<string>) returns (entities: seq<Entity>)
    ensures forall uid :: IsListed(entities, uid) <==> uid.kind == ActionType && uid.id in groups
    ensures forall child, parent :: !IsParent(entities, child, parent)
  {
    entities := [];
    var rest := groups;
    while rest != {}
      invariant rest <= groups
      invariant forall uid :: IsListed(entities, uid) <==> uid.kind == ActionType && uid.id in groups - rest
      invariant forall child, parent :: !IsParent(entities, child, parent)
      decreases |rest|
    {
      var g :| g in rest;
      ListedOneMore(entities, Entity(ActionRef(g), map[], []));
      entities := entities + [Entity(ActionRef(g), map[], [])];
      rest := rest - {g};
    }
  }

  /** The hierarchy as entities, in whatever order. */
  method ActionEntitiesFromModel(model: Model) returns (entities: seq<Entity>)
    ensures IsHierarchy(entities, model)
  {
    entities := GroupEntities(model.groups);
    var rest := model.actions.Keys;
    while rest != {}
      invariant rest <= model.actions.Keys
      invariant forall uid :: IsListed(entities, uid) <==>
                  uid.kind == ActionType && (uid.id in model.groups || uid.id in model.actions.Keys - rest)
      invariant forall child, parent :: IsParent(entities, child, parent) <==> IsEdge(model, child, parent) && child.id !in rest
      decreases |rest|
    {
      var id :| id in rest;
      var parents := GroupRefs(model.actions[id].groups);
      ListedOneMore(entities, Entity(ActionRef(id), map[], parents));
      entities := entities + [Entity(ActionRef(id), map[], parents)];
      rest := rest - {id};
    }
  }

  /** What the decision may take an action to be within. */
  ghost predicate WalksTo(entities: seq<Entity>, action: string, within: set<string>) {
    forall id :: id in within <==> In(entities, ActionRef(action), ActionRef(id))
  }

  lemma {:induction false} WalkEndsAtGroup(entities: seq<Entity>, model: Model, path: seq<Uid>, n: nat)
    requires IsHierarchy(entities, model) && IsPath(entities, path) && n < |path|
    requires forall id :: id in model.actions ==> model.actions[id].groups !! model.actions.Keys
    ensures path[n] == path[0] || IsEdge(model, path[0], path[n])
  {
    if n > 0 {
      WalkEndsAtGroup(entities, model, path, n - 1);
      assert IsParent(entities, path[n - 1], path[n]);
    }
  }

  /** Where no action is named like a group, an action is within itself and its own groups, no further. */
  lemma WithinIff(entities: seq<Entity>, model: Model, action: string, id: string)
    requires IsHierarchy(entities, model) && action in model.actions
    requires forall other :: other in model.actions ==> model.actions[other].groups !! model.actions.Keys
    ensures In(entities, ActionRef(action), ActionRef(id)) <==> id == action || id in model.actions[action].groups
  {
    if In(entities, ActionRef(action), ActionRef(id)) {
      var path := WalkOf(entities, ActionRef(action), ActionRef(id));
      WalkEndsAtGroup(entities, model, path, |path| - 1);
    } else {
      InItself(entities, ActionRef(action));
      assert !IsParent(entities, ActionRef(action), ActionRef(id)) by {
        if IsParent(entities, ActionRef(action), ActionRef(id)) {
          InParent(entities, ActionRef(action), ActionRef(id));
        }
      }
    }
  }

  /** An action is write-class unless it is declared a read and in no group of writes. */
  predicate WriteClass(input: ActionInput) {
    input.access != Some(ReadAccess) || "writes" in input.groups
  }

  /** And it is within the writes exactly then, or when it is itself named so. */
  lemma InWritesIff(inputs: seq<ActionInput>, defaultType: string, model: Model, entities: seq<Entity>, i: nat)
    requires IsModel(inputs, defaultType, model) && IsHierarchy(entities, model) && i < |inputs|
    requires forall id :: id in model.actions ==> model.actions[id].groups !! model.actions.Keys
    ensures In(entities, ActionRef(inputs[i].id), ActionRef("writes")) <==> WriteClass(inputs[i]) || inputs[i].id == "writes"
  {
    WithinIff(entities, model, inputs[i].id, "writes");
  }

  lemma WriteIsInWrites(inputs: seq<ActionInput>, defaultType: string, model: Model, entities: seq<Entity>, i: nat)
    requires IsModel(inputs, defaultType, model) && IsHierarchy(entities, model) && i < |inputs| && WriteClass(inputs[i])
    ensures In(entities, ActionRef(inputs[i].id), ActionRef("writes"))
  {
    assert "writes" in Defined(inputs[i], defaultType).groups;
    InParent(entities, ActionRef(inputs[i].id), ActionRef("writes"));
  }

  /** UNDECLARED IS LOUDEST. Of any tools and any accepted slices: a call of an action not declared a read,
      whose run mode is absent or not interactive, is never simply permitted, whatever its context claims. */
  lemma UndeclaredActionIsSealed(inputs: seq<ActionInput>, defaultType: string, model: Model, entities: seq<Entity>, i: nat,
      parse: string -> Option<seq<Policy>>, system: NamedPolicies, slices: seq<Slice>, policies: map<string, Policy>,
      fails: Request -> bool, r: Request)
    requires IsModel(inputs, defaultType, model) && IsHierarchy(entities, model)
    requires i < |inputs| && inputs[i].access != Some(ReadAccess)
    requires IsPosture(system, parse) && Loads(system, slices) && IsNamedSet(parse, system + OfMode(slices, Enforce), policies)
    requires r.action == inputs[i].id && WalksTo(entities, r.action, r.within)
    requires "runMode" !in r.context || r.context["runMode"] != Text("interactive")
    ensures Authorize(policies, CONFIRMATION, fails, r) != Permitted
  {
    WriteIsInWrites(inputs, defaultType, model, entities, i);
    FloorIsLoaded(parse, system, slices, false, policies);
    FloorIsSealed(policies, fails, r);
  }
}
