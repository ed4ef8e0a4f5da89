/** The catalogue of prefabs the server may ask the client to spawn
    (ServerObjects.cs), and its lookup by name. */
module ServerObjectCatalogue {
  import opened Wrappers
  import opened Geometry

  /** What the model keeps of a prefab: an asset identity, where a fresh
      instance stands, whether it carries a PlayerHealth component, and the
      serialised `maxHealth` of that component (ignored without one). */
  datatype Prefab = Prefab(asset: nat, origin: Vec3, hasPlayerHealth: bool, maxHealth: int)

  datatype ServerObjectData = ServerObjectData(name: string, prefab: Prefab)

  /** How many entries carry the given name. */
  function CountNamed(objects: seq<ServerObjectData>, name: string): nat
  {
    if |objects| == 0 then 0
    else (if objects[0].name == name then 1 else 0) + CountNamed(objects[1..], name)
  }

  /** An entry carrying the name is counted. */
  lemma {:induction false} CountNamedPositive(objects: seq<ServerObjectData>, name: string, i: nat)
    requires i < |objects| && objects[i].name == name
    ensures CountNamed(objects, name) >= 1
  {
    if i > 0 && objects[0].name != name {
      CountNamedPositive(objects[1..], name, i - 1);
    }
  }

  /** GetObjectByName is `Objects.SingleOrDefault(x => x.Name == name)`:
      null when no entry has the name, the entry when exactly one has it,
      and an InvalidOperationException when two or more have it. */
  function GetObjectByName(objects: seq<ServerObjectData>, name: string): (r: Result<Option<ServerObjectData>>)
    ensures r.Err? <==> CountNamed(objects, name) >= 2
    ensures r.Err? ==> r.fault == InvalidOperation
    ensures r == Ok(None) <==> CountNamed(objects, name) == 0
    ensures r.Ok? && r.value.Some? ==>
      r.value.value in objects && r.value.value.name == name && CountNamed(objects, name) == 1
  {
    if |objects| == 0 then Ok(None)
    else
      var rest := GetObjectByName(objects[1..], name);
      if objects[0].name != name then rest
      else if rest == Ok(None) then Ok(Some(objects[0]))
      else Err(InvalidOperation)
  }

  /** With exactly one entry of that name, the lookup returns that entry. */
  lemma {:induction false} GetObjectByNameFindsUnique(objects: seq<ServerObjectData>, name: string, i: nat)
    requires i < |objects| && objects[i].name == name
    requires CountNamed(objects, name) == 1
    ensures GetObjectByName(objects, name) == Ok(Some(objects[i]))
  {
    if i > 0 {
      if objects[0].name == name {
        CountNamedPositive(objects[1..], name, i - 1);
        assert false;
      } else {
        GetObjectByNameFindsUnique(objects[1..], name, i - 1);
      }
    }
  }
}
