/**
 * The client's ResourceManager: a list of resource types, each with its
 * loaded resources (name, id, reference count, path). Loading a path already
 * loaded counts one more reference; a fresh load takes the next id; releasing
 * counts one reference down and unloads the resource when none is left.
 */
module ResourceManager {
  import opened Wrappers
  import ResourceTranslator

  datatype Resource = Resource(name: string, id: int, count: int, path: string)

  /** One registered type and the resources loaded for it (the create and release callbacks are external). */
  datatype ResourceList = ResourceList(kind: string, loaded: seq<Resource>)

  /** The table, the next id to hand out, and the names passed to the release callbacks so far. */
  datatype Registry = Registry(types: seq<ResourceList>, nextId: int, released: seq<string>)

  /** What a load gives: an id (-1 for an unregistered type), or the ResourceManagerException it throws. */
  datatype LoadOutcome = Id(id: int) | Thrown

  /** The index of the first list of type `kind`, `|types|` when there is none. */
  function TypeIndex(types: seq<ResourceList>, kind: string): (t: nat)
    ensures t <= |types|
    ensures t < |types| ==> types[t].kind == kind
    ensures forall i :: 0 <= i < t ==> types[i].kind != kind
  {
    if types == [] then 0
    else if types[0].kind == kind then 0
    else 1 + TypeIndex(types[1..], kind)
  }

  /** The index of the first resource loaded from `path`, `|rs|` when there is none. */
  function PathIndex(rs: seq<Resource>, path: string): (k: nat)
    ensures k <= |rs|
    ensures k < |rs| ==> rs[k].path == path
    ensures forall i :: 0 <= i < k ==> rs[i].path != path
  {
    if rs == [] then 0
    else if rs[0].path == path then 0
    else 1 + PathIndex(rs[1..], path)
  }

  /** The index of the first resource with id `id`, `|rs|` when there is none. */
  function IdIndex(rs: seq<Resource>, id: int): (k: nat)
    ensures k <= |rs|
    ensures k < |rs| ==> rs[k].id == id
    ensures forall i :: 0 <= i < k ==> rs[i].id != id
  {
    if rs == [] then 0
    else if rs[0].id == id then 0
    else 1 + IdIndex(rs[1..], id)
  }

  /** The first list holding a resource with id `id`, `|types|` when there is none. */
  function ListWithId(types: seq<ResourceList>, id: int): (t: nat)
    ensures t <= |types|
    ensures t < |types| ==> IdIndex(types[t].loaded, id) < |types[t].loaded|
    ensures forall i :: 0 <= i < t ==> IdIndex(types[i].loaded, id) == |types[i].loaded|
  {
    if types == [] then 0
    else if IdIndex(types[0].loaded, id) < |types[0].loaded| then 0
    else 1 + ListWithId(types[1..], id)
  }

  function Remove<T>(s: seq<T>, k: nat): (r: seq<T>)
    requires k < |s|
    ensures |r| == |s| - 1
    ensures forall i :: 0 <= i < k ==> r[i] == s[i]
    ensures forall i :: k <= i < |r| ==> r[i] == s[i + 1]
  {
    s[..k] + s[k + 1..]
  }

  /** `registerFunction`: a type registered twice is refused. */
  function Register(r: Registry, kind: string): (Registry, bool)
  {
    if TypeIndex(r.types, kind) < |r.types| then (r, false)
    else (r.(types := r.types + [ResourceList(kind, [])]), true)
  }

  /**
   * The body shared by `loadResource` and `loadModelTextureImpl`: `created` is
   * what the type's create callback returns, asked only for a path not yet loaded.
   */
  function Load(r: Registry, kind: string, name: string, path: string, created: bool): (Registry, LoadOutcome)
  {
    var t := TypeIndex(r.types, kind);
    if t == |r.types| then (r, Id(-1))
    else
      var rs := r.types[t].loaded;
      var k := PathIndex(rs, path);
      if k < |rs| then (r.(types := r.types[t := ResourceList(kind, rs[k := rs[k].(count := rs[k].count + 1)])]), Id(rs[k].id))
      else if created then
        (r.(types := r.types[t := ResourceList(kind, rs + [Resource(name, r.nextId, 1, path)])], nextId := r.nextId + 1), Id(r.nextId))
      else (r, Thrown)
  }

  /** The project directory joined with a translated path. */
  function JoinPath(dir: string, rel: string): string
  {
    dir + "/" + rel
  }

  /** `loadResource`: the name is translated first, and an untranslatable name throws before any lookup. */
  function LoadByName(r: Registry, dir: string, kind: string, name: string, created: bool): (Registry, LoadOutcome)
  {
    match ResourceTranslator.Translate(kind, name)
    case None => (r, Thrown)
    case Some(rel) => Load(r, kind, name, JoinPath(dir, rel), created)
  }

  /** `releaseResource`: one reference less; at none left the release callback runs and the entry is erased. */
  function Release(r: Registry, id: int): (Registry, bool)
  {
    var t := ListWithId(r.types, id);
    if t == |r.types| then (r, false)
    else (ReleaseAt(r, t, IdIndex(r.types[t].loaded, id)), true)
  }

  /** Release of the resource at position k of list t. */
  function ReleaseAt(r: Registry, t: nat, k: nat): Registry
    requires t < |r.types| && k < |r.types[t].loaded|
  {
    var rs := r.types[t].loaded;
    var c := rs[k].count - 1;
    if c <= 0 then r.(types := r.types[t := r.types[t].(loaded := Remove(rs, k))], released := r.released + [rs[k].name])
    else r.(types := r.types[t := r.types[t].(loaded := rs[k := rs[k].(count := c)])])
  }

  // ---------------------------------------------------------------------
  // The table's invariant and what each operation keeps.

  /** Types are registered once. */
  predicate KindsDistinct(types: seq<ResourceList>)
  {
    forall i, j :: 0 <= i < j < |types| ==> types[i].kind != types[j].kind
  }

  /**
   * A type's resources hold ids below the next one to hand out, in strictly
   * increasing order (each fresh load appends the next id), and each at least
   * one reference.
   */
  predicate ListValid(rs: seq<Resource>, nextId: int)
  {
    && (forall k :: 0 <= k < |rs| ==> 0 <= rs[k].id < nextId && rs[k].count >= 1)
    && (forall i, j :: 0 <= i < j < |rs| ==> rs[i].id < rs[j].id)
  }

  predicate Valid(r: Registry)
  {
    && 0 <= r.nextId
    && KindsDistinct(r.types)
    && forall t :: 0 <= t < |r.types| ==> ListValid(r.types[t].loaded, r.nextId)
  }

  const EMPTY := Registry([], 0, [])

  /** Ids loaded anywhere in the table. */
  predicate HasId(types: seq<ResourceList>, id: int)
  {
    exists t, k :: 0 <= t < |types| && 0 <= k < |types[t].loaded| && types[t].loaded[k].id == id
  }

  /** The reference count of the first resource with id `id`, 0 when none has it. */
  function CountOf(r: Registry, id: int): (c: int)
    ensures Valid(r) ==> (c >= 1 <==> HasId(r.types, id))
  {
    NoListWithId(r.types, id);
    var t := ListWithId(r.types, id);
    if t == |r.types| then 0 else r.types[t].loaded[IdIndex(r.types[t].loaded, id)].count
  }

  /** The name of the first resource with id `id`, empty when none has it. */
  function ResourceName(r: Registry, id: int): string
  {
    var t := ListWithId(r.types, id);
    if t == |r.types| then "" else r.types[t].loaded[IdIndex(r.types[t].loaded, id)].name
  }

  /** Registering a new type appends it with no resources; registering a known one changes nothing. */
  lemma RegisterSpec(r: Registry, kind: string)
    requires Valid(r)
    ensures Valid(Register(r, kind).0)
    ensures Register(r, kind).1 <==> forall i :: 0 <= i < |r.types| ==> r.types[i].kind != kind
    ensures !Register(r, kind).1 ==> Register(r, kind).0 == r
    ensures Register(r, kind).1 ==> Register(r, kind).0.types == r.types + [ResourceList(kind, [])]
  {
    var r' := Register(r, kind).0;
    if Register(r, kind).1 {
      assert forall t :: 0 <= t < |r.types| ==> r'.types[t] == r.types[t];
    }
  }

  /**
   * Loading a path already loaded for the type counts one more reference and
   * gives its id, whatever the create callback would say; nothing else changes.
   */
  lemma LoadExisting(r: Registry, kind: string, name: string, path: string, created: bool, t: nat, k: nat)
    requires t < |r.types| && r.types[t].kind == kind && k < |r.types[t].loaded| && r.types[t].loaded[k].path == path
    requires forall i :: 0 <= i < t ==> r.types[i].kind != kind
    requires forall i :: 0 <= i < k ==> r.types[t].loaded[i].path != path
    ensures Load(r, kind, name, path, created) == Load(r, kind, name, path, !created)
    ensures Load(r, kind, name, path, created).1 == Id(r.types[t].loaded[k].id)
    ensures Load(r, kind, name, path, created).0 ==
      r.(types := r.types[t := r.types[t].(loaded := r.types[t].loaded[k := r.types[t].loaded[k].(count := r.types[t].loaded[k].count + 1)])])
  {
    assert TypeIndex(r.types, kind) == t;
    assert PathIndex(r.types[t].loaded, path) == k;
  }

  /**
   * When the type has no resource from `path`: a successful create takes the
   * next id, with one reference, and the next id moves on; a failing create
   * throws and adds nothing; an unregistered type gives -1.
   */
  lemma LoadFresh(r: Registry, kind: string, name: string, path: string, created: bool)
    requires forall t, k :: 0 <= t < |r.types| && r.types[t].kind == kind && 0 <= k < |r.types[t].loaded| ==> r.types[t].loaded[k].path != path
    ensures var (r', out) := Load(r, kind, name, path, created);
      if forall t :: 0 <= t < |r.types| ==> r.types[t].kind != kind then r' == r && out == Id(-1)
      else if created then
        out == Id(r.nextId) && r'.nextId == r.nextId + 1 && r'.released == r.released
        && exists t :: 0 <= t < |r.types| && r.types[t].kind == kind &&
             r'.types == r.types[t := ResourceList(kind, r.types[t].loaded + [Resource(name, r.nextId, 1, path)])]
      else r' == r && out == Thrown
  {
    var t := TypeIndex(r.types, kind);
    if t < |r.types| {
      assert PathIndex(r.types[t].loaded, path) == |r.types[t].loaded|;
    }
  }

  /** A list valid below one id is valid below a larger one. */
  lemma ListValidLater(rs: seq<Resource>, nextId: int, later: int)
    requires ListValid(rs, nextId) && nextId <= later
    ensures ListValid(rs, later)
  {
  }

  /** Every load keeps the table valid; the next id never goes down, and an id handed out is below it. */
  lemma LoadValid(r: Registry, kind: string, name: string, path: string, created: bool)
    requires Valid(r)
    ensures Valid(Load(r, kind, name, path, created).0)
    ensures Load(r, kind, name, path, created).0.nextId >= r.nextId
    ensures Load(r, kind, name, path, created).1.Id? && Load(r, kind, name, path, created).1.id != -1 ==>
      0 <= Load(r, kind, name, path, created).1.id < Load(r, kind, name, path, created).0.nextId
  {
    var t := TypeIndex(r.types, kind);
    if t < |r.types| {
      var rs := r.types[t].loaded;
      var k := PathIndex(rs, path);
      var r' := Load(r, kind, name, path, created).0;
      if k < |rs| {
        assert ListValid(r'.types[t].loaded, r'.nextId);
      } else if created {
        assert ListValid(r'.types[t].loaded, r'.nextId);
        forall u | 0 <= u < |r'.types| && u != t
          ensures ListValid(r'.types[u].loaded, r'.nextId)
        {
          ListValidLater(r.types[u].loaded, r.nextId, r'.nextId);
        }
      }
    }
  }

  /** No list holds `id` exactly when it is loaded nowhere. */
  lemma NoListWithId(types: seq<ResourceList>, id: int)
    ensures ListWithId(types, id) == |types| <==> !HasId(types, id)
  {
    var t := ListWithId(types, id);
    if t == |types| {
      forall t2, k2 | 0 <= t2 < |types| && 0 <= k2 < |types[t2].loaded|
        ensures types[t2].loaded[k2].id != id
      {
        assert IdIndex(types[t2].loaded, id) == |types[t2].loaded|;
      }
    } else {
      assert types[t].loaded[IdIndex(types[t].loaded, id)].id == id;
    }
  }

  /** Releasing at a position keeps the table valid and never reuses an id. */
  lemma ReleaseAtValid(r: Registry, t: nat, k: nat)
    requires Valid(r) && t < |r.types| && k < |r.types[t].loaded|
    ensures Valid(ReleaseAt(r, t, k)) && ReleaseAt(r, t, k).nextId == r.nextId
  {
    var r' := ReleaseAt(r, t, k);
    assert ListValid(r'.types[t].loaded, r.nextId);
    assert forall u :: 0 <= u < |r.types| && u != t ==> r'.types[u] == r.types[u];
  }

  /**
   * Releasing keeps the table valid and never hands an id back; it returns
   * true exactly for a loaded id, and an id not loaded changes nothing.
   */
  lemma ReleaseValid(r: Registry, id: int)
    requires Valid(r)
    ensures Valid(Release(r, id).0) && Release(r, id).0.nextId == r.nextId
    ensures Release(r, id).1 <==> HasId(r.types, id)
    ensures !Release(r, id).1 ==> Release(r, id).0 == r
  {
    NoListWithId(r.types, id);
    var t := ListWithId(r.types, id);
    if t < |r.types| {
      ReleaseAtValid(r, t, IdIndex(r.types[t].loaded, id));
    }
  }

  /** Releasing one of several references counts down and keeps the resource. */
  lemma ReleaseCountDown(r: Registry, id: int)
    requires CountOf(r, id) > 1
    ensures Release(r, id).1
    ensures Release(r, id).0.released == r.released
    ensures CountOf(Release(r, id).0, id) == CountOf(r, id) - 1
  {
    var t := ListWithId(r.types, id);
    var rs := r.types[t].loaded;
    var k := IdIndex(rs, id);
    var r' := Release(r, id).0;
    var rs' := r'.types[t].loaded;
    assert forall i :: 0 <= i < |rs| ==> rs'[i].id == rs[i].id;
    assert IdIndex(rs', id) == k by {
      assert rs'[k].id == id;
    }
    assert forall u :: 0 <= u < |r.types| && u != t ==> r'.types[u] == r.types[u];
    ListWithIdSame(r.types, r'.types, id);
  }

  /**
   * Releasing the last reference hands the resource's name to the release
   * callback and erases its entry: its list is one shorter and holds the id
   * no more.
   */
  lemma ReleaseLast(r: Registry, id: int)
    requires Valid(r) && CountOf(r, id) == 1
    ensures Release(r, id).1
    ensures Release(r, id).0.released == r.released + [ResourceName(r, id)]
    ensures var t := ListWithId(r.types, id);
      && |Release(r, id).0.types[t].loaded| == |r.types[t].loaded| - 1
      && forall k :: 0 <= k < |Release(r, id).0.types[t].loaded| ==> Release(r, id).0.types[t].loaded[k].id != id
  {
    var t := ListWithId(r.types, id);
    var rs := r.types[t].loaded;
    var k := IdIndex(rs, id);
    assert ListValid(rs, r.nextId);
    var rs' := Release(r, id).0.types[t].loaded;
    assert rs' == Remove(rs, k);
  }

  /** Releasing one id leaves every other id's reference count as it was. */
  lemma ReleaseOthers(r: Registry, id: int, other: int)
    requires other != id
    ensures CountOf(Release(r, id).0, other) == CountOf(r, other)
  {
    var t := ListWithId(r.types, id);
    if t < |r.types| {
      ReleaseAtOthers(r, t, IdIndex(r.types[t].loaded, id), other);
    }
  }

  lemma ReleaseAtOthers(r: Registry, t: nat, k: nat, other: int)
    requires t < |r.types| && k < |r.types[t].loaded| && r.types[t].loaded[k].id != other
    ensures CountOf(ReleaseAt(r, t, k), other) == CountOf(r, other)
  {
    var rs := r.types[t].loaded;
    var r' := ReleaseAt(r, t, k);
    if rs[k].count - 1 <= 0 {
      RemovedOther(rs, k, other);
    } else {
      CountedOther(rs, k, other);
    }
    CountOfFrame(r, r', t, other);
  }

  /** A change confined to list t that keeps the first resource with `other` where it was keeps its count. */
  lemma CountOfFrame(r: Registry, r': Registry, t: nat, other: int)
    requires |r'.types| == |r.types| && t < |r.types|
    requires forall u :: 0 <= u < |r.types| && u != t ==> r'.types[u] == r.types[u]
    requires IdIndex(r'.types[t].loaded, other) < |r'.types[t].loaded| <==> IdIndex(r.types[t].loaded, other) < |r.types[t].loaded|
    requires IdIndex(r.types[t].loaded, other) < |r.types[t].loaded| ==>
      r'.types[t].loaded[IdIndex(r'.types[t].loaded, other)].count == r.types[t].loaded[IdIndex(r.types[t].loaded, other)].count
    ensures CountOf(r', other) == CountOf(r, other)
  {
    ListWithIdSame(r.types, r'.types, other);
  }

  /** Erasing a resource with another id leaves the first resource with `other` in place. */
  lemma RemovedOther(rs: seq<Resource>, k: nat, other: int)
    requires k < |rs| && rs[k].id != other
    ensures IdIndex(Remove(rs, k), other) < |Remove(rs, k)| <==> IdIndex(rs, other) < |rs|
    ensures IdIndex(rs, other) < |rs| ==> Remove(rs, k)[IdIndex(Remove(rs, k), other)] == rs[IdIndex(rs, other)]
  {
    var rs' := Remove(rs, k);
    var j := IdIndex(rs, other);
    var j' := IdIndex(rs', other);
    if j < |rs| {
      var expected := if j < k then j else j - 1;
      assert rs'[expected] == rs[j];
    }
  }

  /** Counting down a resource with another id leaves the first resource with `other` as it was. */
  lemma CountedOther(rs: seq<Resource>, k: nat, other: int)
    requires k < |rs| && rs[k].id != other
    ensures IdIndex(rs[k := rs[k].(count := rs[k].count - 1)], other) == IdIndex(rs, other)
    ensures IdIndex(rs, other) < |rs| ==> rs[k := rs[k].(count := rs[k].count - 1)][IdIndex(rs, other)] == rs[IdIndex(rs, other)]
  {
    var rs' := rs[k := rs[k].(count := rs[k].count - 1)];
    var j := IdIndex(rs, other);
    var j' := IdIndex(rs', other);
    assert forall i :: 0 <= i < |rs| ==> rs'[i].id == rs[i].id;
  }

  /** Lists that hold `id` where the other lists hold it are searched the same way. */
  lemma {:induction false} ListWithIdSame(types: seq<ResourceList>, types': seq<ResourceList>, id: int)
    requires |types| == |types'|
    requires forall i :: 0 <= i < |types| ==> (IdIndex(types[i].loaded, id) < |types[i].loaded| <==> IdIndex(types'[i].loaded, id) < |types'[i].loaded|)
    ensures ListWithId(types, id) == ListWithId(types', id)
  {
    if types != [] {
      ListWithIdSame(types[1..], types'[1..], id);
    }
  }

  // ---------------------------------------------------------------------
  // The manager itself.

  class Manager {
    var types: seq<ResourceList>
    var nextId: int
    var released: seq<string>
    const projectDirectory: string

    function State(): Registry
      reads this
    {
      Registry(types, nextId, released)
    }

    /** A new manager: no types, and the first id handed out is 0. */
    constructor (dir: string)
      ensures State() == EMPTY && Valid(State()) && projectDirectory == dir
    {
      types, nextId, released := [], 0, [];
      projectDirectory := dir;
    }

    /** `registerFunction`: the loop over the registered types, then the append. */
    method RegisterFunction(kind: string) returns (ok: bool)
      modifies this
      ensures (State(), ok) == Register(old(State()), kind)
    {
      var i := 0;
      while i < |types|
        invariant 0 <= i <= |types|
        invariant forall j :: 0 <= j < i ==> types[j].kind != kind
      {
        if types[i].kind == kind {
          assert TypeIndex(types, kind) == i;
          return false;
        }
        i := i + 1;
      }
      types := types + [ResourceList(kind, [])];
      return true;
    }

    /** `loadResource`, with `created` the create callback's answer. */
    method LoadResource(kind: string, name: string, created: bool) returns (out: LoadOutcome)
      modifies this
      ensures (State(), out) == LoadByName(old(State()), projectDirectory, kind, name, created)
    {
      var rel := ResourceTranslator.Translate(kind, name);
      if rel.None? {
        return Thrown;
      }
      out := LoadPath(kind, name, JoinPath(projectDirectory, rel.value), created);
    }

    /** `loadModelTextureImpl`: a texture loaded by the path it is given, with no translation. */
    method LoadModelTextureImpl(name: string, path: string, created: bool) returns (out: LoadOutcome)
      modifies this
      ensures (State(), out) == Load(old(State()), "texture", name, path, created)
    {
      out := LoadPath("texture", name, path, created);
    }

    /** The loops the two loaders share. */
    method LoadPath(kind: string, name: string, path: string, created: bool) returns (out: LoadOutcome)
      modifies this
      ensures (State(), out) == Load(old(State()), kind, name, path, created)
    {
      var t := 0;
      while t < |types| && types[t].kind != kind
        invariant 0 <= t <= TypeIndex(types, kind)
      {
        t := t + 1;
      }
      if t == |types| {
        return Id(-1);
      }
      var rs := types[t].loaded;
      var k := 0;
      while k < |rs| && rs[k].path != path
        invariant 0 <= k <= PathIndex(rs, path)
      {
        k := k + 1;
      }
      if k < |rs| {
        types := types[t := ResourceList(kind, rs[k := rs[k].(count := rs[k].count + 1)])];
        return Id(rs[k].id);
      }
      if !created {
        return Thrown;
      }
      var id := nextId;
      nextId := nextId + 1;
      types := types[t := ResourceList(kind, rs + [Resource(name, id, 1, path)])];
      return Id(id);
    }

    /** `releaseResource`: the nested search for the id, then the count down and, at none left, the erase. */
    method ReleaseResource(id: int) returns (found: bool)
      modifies this
      ensures (State(), found) == Release(old(State()), id)
    {
      var t := 0;
      while t < |types| && IdIndex(types[t].loaded, id) == |types[t].loaded|
        invariant 0 <= t <= ListWithId(types, id)
      {
        var rs := types[t].loaded;
        var k := 0;
        while k < |rs| && rs[k].id != id
          invariant 0 <= k <= IdIndex(rs, id)
        {
          k := k + 1;
        }
        if k < |rs| {
          break;
        }
        t := t + 1;
      }
      if t == |types| {
        return false;
      }
      var rs := types[t].loaded;
      var k := IdIndex(rs, id);
      var c := rs[k].count - 1;
      if c <= 0 {
        released := released + [rs[k].name];
        types := types[t := types[t].(loaded := Remove(rs, k))];
      } else {
        types := types[t := types[t].(loaded := rs[k := rs[k].(count := c)])];
      }
      return true;
    }
  }
}
