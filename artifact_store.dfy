/**
 * The artifact service the examples save to, list and load from, stated as
 * the behaviour they rely on: every save of a name adds a new version of it,
 * numbered from 0; loading a name gives its latest version; listing gives the
 * saved names in the order they were first saved. Each kind of call can be
 * made to fail, to stand for a service that refuses it.
 */
module ArtifactStore {
  import opened Wrappers
  import opened Genai

  /** The saved versions of each name, and the names in order of first save. */
  datatype Artifacts = Artifacts(versions: map<string, seq<Option<Part>>>, names: seq<string>)

  predicate WellFormed(a: Artifacts) {
    && (forall n :: n in a.versions ==> n in a.names)
    && (forall n :: n in a.names ==> n in a.versions)
    && (forall i, j :: 0 <= i < j < |a.names| ==> a.names[i] != a.names[j])
    && (forall n :: n in a.versions ==> |a.versions[n]| > 0)
  }

  /** The store after one more version of `name` is saved. */
  function Stored(a: Artifacts, name: string, part: Option<Part>): (r: Artifacts)
    ensures WellFormed(a) ==> WellFormed(r)
    ensures name in r.versions && |r.versions[name]| > 0 && r.versions[name][|r.versions[name]| - 1] == part
    ensures |r.versions[name]| == NextVersion(a, name) + 1
    ensures forall n :: n != name ==> (n in r.versions <==> n in a.versions)
    ensures forall n :: n != name && n in a.versions ==> r.versions[n] == a.versions[n]
  {
    if name in a.versions then Artifacts(a.versions[name := a.versions[name] + [part]], a.names)
    else Artifacts(a.versions[name := [part]], a.names + [name])
  }

  /** The version number a save of `name` gets. */
  function NextVersion(a: Artifacts, name: string): nat {
    if name in a.versions then |a.versions[name]| else 0
  }

  /** The latest version of a name, when it was ever saved. */
  function Latest(a: Artifacts, name: string): Option<Option<Part>>
    requires WellFormed(a)
  {
    if name in a.versions then Some(a.versions[name][|a.versions[name]| - 1]) else None
  }

  /** Loading right after saving gives back what was saved. */
  lemma LoadAfterSave(a: Artifacts, name: string, part: Option<Part>)
    requires WellFormed(a)
    ensures Latest(Stored(a, name, part), name) == Some(part)
    ensures NextVersion(Stored(a, name, part), name) == NextVersion(a, name) + 1
  {
  }

  /** Saving one name leaves the latest version of every other name as it was. */
  lemma SaveKeepsOthers(a: Artifacts, name: string, part: Option<Part>, other: string)
    requires WellFormed(a) && other != name
    ensures Latest(Stored(a, name, part), other) == Latest(a, other)
  {
  }

  /** Saving never hides another name, and a new name is listed last. */
  lemma SaveKeepsListing(a: Artifacts, name: string, part: Option<Part>)
    requires WellFormed(a)
    ensures var r := Stored(a, name, part);
            && (forall n :: n in a.names ==> n in r.names)
            && name in r.names
            && (name !in a.names ==> r.names == a.names + [name])
            && (name in a.names ==> r.names == a.names)
  {
  }

  class Store {
    var data: Artifacts
    const failSave: Option<string>
    const failList: Option<string>
    const failLoad: Option<string>

    constructor (data: Artifacts, failSave: Option<string>, failList: Option<string>, failLoad: Option<string>)
      requires WellFormed(data)
      ensures this.data == data && Valid()
      ensures this.failSave == failSave && this.failList == failList && this.failLoad == failLoad
    {
      this.data := data;
      this.failSave := failSave;
      this.failList := failList;
      this.failLoad := failLoad;
    }

    predicate Valid()
      reads this
    {
      WellFormed(data)
    }

    /** Save: a new version of the name, and its number. */
    method Save(name: string, part: Option<Part>) returns (r: Result<nat>)
      requires Valid()
      modifies this
      ensures Valid()
      ensures failSave.Some? ==> r == Err(failSave.value) && data == old(data)
      ensures failSave.None? ==> r == Ok(NextVersion(old(data), name)) && data == Stored(old(data), name, part)
    {
      if failSave.Some? {
        return Err(failSave.value);
      }
      r := Ok(NextVersion(data, name));
      data := Stored(data, name, part);
    }

    /** List: the saved names, in order of first save. */
    function List(): (r: Result<seq<string>>)
      reads this
      ensures failList.Some? ==> r == Err(failList.value)
      ensures failList.None? ==> r == Ok(data.names)
    {
      if failList.Some? then Err(failList.value) else Ok(data.names)
    }

    /** Load: the latest version of the name; an unknown name is an error. */
    function Load(name: string): (r: Result<Option<Part>>)
      requires Valid()
      reads this
      ensures r.Ok? <==> failLoad.None? && name in data.versions
      ensures r.Ok? ==> Latest(data, name) == Some(r.value)
    {
      if failLoad.Some? then Err(failLoad.value)
      else if name !in data.versions then Err("artifact " + name + " not found")
      else Ok(data.versions[name][|data.versions[name]| - 1])
    }
  }
}
