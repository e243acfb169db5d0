/** Entities as Cedar takes them, and its `in`. */
module EntityGraph {
  datatype EntityType = PrincipalType | ResourceType | AccessType | ActionType
  datatype Uid = Uid(kind: EntityType, id: string)
  datatype Entity = Entity(uid: Uid, attrs: map<string, Uid>, parents: seq<Uid>)

  predicate IsParent(entities: seq<Entity>, child: Uid, parent: Uid) {
    exists i :: 0 <= i < |entities| && entities[i].uid == child && parent in entities[i].parents
  }

  /** A walk from child to parent to parent. */
  predicate IsPath(entities: seq<Entity>, path: seq<Uid>) {
    |path| > 0 && forall i :: 0 <= i < |path| - 1 ==> IsParent(entities, path[i], path[i + 1])
  }

  /** Cedar's `in`: reflexive and transitive over parents. */
  ghost predicate In(entities: seq<Entity>, a: Uid, b: Uid) {
    exists path :: IsPath(entities, path) && path[0] == a && path[|path| - 1] == b
  }

  predicate HasAttr(entities: seq<Entity>, uid: Uid, attr: string, value: Uid) {
    exists i :: 0 <= i < |entities| && entities[i].uid == uid && attr in entities[i].attrs && entities[i].attrs[attr] == value
  }

  lemma WalkOf(entities: seq<Entity>, a: Uid, b: Uid) returns (path: seq<Uid>)
    requires In(entities, a, b)
    ensures IsPath(entities, path) && path[0] == a && path[|path| - 1] == b
  {
    path :| IsPath(entities, path) && path[0] == a && path[|path| - 1] == b;
  }

  lemma InItself(entities: seq<Entity>, a: Uid)
    ensures In(entities, a, a)
  {
    assert IsPath(entities, [a]);
  }

  lemma InParent(entities: seq<Entity>, a: Uid, b: Uid)
    requires IsParent(entities, a, b)
    ensures In(entities, a, b)
  {
    assert IsPath(entities, [a, b]);
  }
}
