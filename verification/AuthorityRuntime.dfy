/** The runtime object that owns the containers of a deployment, updated in
    place; the outcome of every file write and docker command is left open. */
module AuthorityRuntime {
  import opened Common
  import opened Ownership

  datatype Error =
    | DEPLOYMENT_CONFLICT | WRITE_FAILED | COMMAND_FAILED | STOP_UNCONFIRMED | CLEANUP_FAILED | CLEANUP_INCOMPLETE

  /** What the runtime shares with others: the file, and docker's containers
      (true: running) that carry the deployment's label. */
  class Deployment {
    var file: seq<Name>
    var live: map<Name, bool>

    constructor ()
      ensures file == [] && live == map[]
    {
      file, live := [], map[];
    }
  }

  const SELF: Id := Id("self")

  ghost function Alone(file: seq<Name>, names: seq<Name>, live: set<Name>): World {
    World(file, map[SELF := Instance(names, Nothing)], live)
  }

  /** What a save leaves of file and names, with nobody else at work. */
  function SavedFile(file: seq<Name>, names: seq<Name>, readable: bool, written: bool): seq<Name> {
    if readable && written then Merge(file, names) else file
  }

  function SavedNames(file: seq<Name>, names: seq<Name>, readable: bool): seq<Name> {
    if readable then Merge(file, names) else names
  }

  lemma SavedIs(file: seq<Name>, names: seq<Name>, live: set<Name>, readable: bool, written: bool)
    ensures Next(Next(Alone(file, names, live), Reads(SELF, readable)), Writes(SELF, written))
            == Alone(SavedFile(file, names, readable, written), SavedNames(file, names, readable), live)
  {
    hide Merge;
    var v := Next(Alone(file, names, live), Reads(SELF, readable));
    assert v.instances == map[SELF := Read(Alone(file, names, live), names, None, readable)];
    assert Next(v, Writes(SELF, written)).instances == map[SELF := Instance(SavedNames(file, names, readable), Nothing)];
  }

  /** A creation by the only instance of a world, in full. */
  lemma CreatedIs(file: seq<Name>, names: seq<Name>, live: set<Name>, name: Name, readable: bool, written: bool, created: bool)
    ensures Created(Alone(file, names, live), SELF, name, readable, written, created)
            == if name in names then Alone(file, names, if created then live + {name} else live)
               else Alone(SavedFile(file, names + [name], readable, written), SavedNames(file, names + [name], readable),
                          if readable && written && created then live + {name} else live)
  {
    hide Merge;
    var w := Alone(file, names, live);
    var i := Begin(w, Instance(names, Nothing), name, readable);
    var v := Next(w, Begins(SELF, name, readable));
    assert v.instances == map[SELF := i];
    var u := Next(v, Writes(SELF, written));
    assert u.instances == map[SELF := NextOf(v, i, Writes(SELF, written))];
    assert Next(u, Creates(SELF, created)).instances == map[SELF := NextOf(u, u.instances[SELF], Creates(SELF, created))];
  }

  class AuthorityRuntime {
    const deployment: Deployment
    var containers: seq<Name>

    constructor (deployment: Deployment)
      ensures this.deployment == deployment && containers == deployment.file
    {
      this.deployment := deployment;
      containers := deployment.file;
    }

    /** This runtime as the only instance of a world. */
    ghost function AsWorld(): World
      reads this, deployment
    {
      Alone(deployment.file, containers, deployment.live.Keys)
    }

    /** Reads the file, merges it into memory and writes the union back: the two
        events of a save, with the caller's lock keeping others out in between. */
    method Save() returns (out: Result<(), Error>, ghost readable: bool, ghost written: bool)
      modifies this, deployment`file
      ensures AsWorld() == Next(Next(old(AsWorld()), Reads(SELF, readable)), Writes(SELF, written))
      ensures deployment.file == SavedFile(old(deployment.file), old(containers), readable, written)
      ensures containers == SavedNames(old(deployment.file), old(containers), readable)
      ensures out.Ok? <==> readable && written
      ensures out.Ok? ==> deployment.file == containers
      ensures out != Err(CLEANUP_INCOMPLETE)
    {
      ghost var file, names := deployment.file, containers;
      var canRead: bool := *;
      var canWrite: bool := *;
      readable, written := canRead, canWrite;
      SavedIs(file, names, deployment.live.Keys, readable, written);
      hide Merge, Alone, Next;
      if !canRead { return Err(DEPLOYMENT_CONFLICT), readable, written; }
      containers := Merge(deployment.file, containers);
      if !canWrite { return Err(WRITE_FAILED), readable, written; }
      deployment.file := containers;
      return Ok(()), readable, written;
    }

    /** Records the name, then creates its container. Wherever this stops, a
        container that appeared is in the file, unless the name was in memory
        and not in the file when it began. */
    method CreateContainer(name: Name)
      returns (out: Result<(), Error>, ghost readable: bool, ghost written: bool, ghost created: bool)
      modifies this, deployment
      ensures AsWorld() == Created(old(AsWorld()), SELF, name, readable, written, created)
      ensures out.Ok? ==> created && name in deployment.live && name !in old(deployment.live)
      ensures name in deployment.live && name !in old(deployment.live) ==>
                name in deployment.file || (name in old(containers) && name !in old(deployment.file))
    {
      hide Merge, Alone, Created, Next;
      readable, written, created := true, true, false;
      ghost var file, names, live := deployment.file, containers, deployment.live.Keys;
      MergeMembers(file, names + [name]);
      if name !in containers {
        containers := containers + [name];
        var saved;
        saved, readable, written := Save();
        if saved.Err? {
          CreatedIs(file, names, live, name, readable, written, false);
          return Err(saved.error), readable, written, false;
        }
      }
      CreatedIs(file, names, live, name, readable, written, false);
      CreatedIs(file, names, live, name, readable, written, true);
      if name in deployment.live { return Err(COMMAND_FAILED), readable, written, false; }
      var accepted: bool := *;
      if !accepted { return Err(COMMAND_FAILED), readable, written, false; }
      deployment.live := deployment.live[name := false];
      created := true;
      assert deployment.live.Keys == live + {name};
      var confirmed: bool := *;
      out := if confirmed then Ok(()) else Err(COMMAND_FAILED);
    }

    /** Removes one container and confirms that it is gone; a container that is
        already gone is a success. Other containers are never touched. */
    method RemoveContainer(name: Name) returns (out: Result<(), Error>)
      modifies deployment`live
      ensures out.Ok? ==> deployment.live == old(deployment.live) - {name}
      ensures forall n :: n in deployment.live ==> n in old(deployment.live)
      ensures forall n :: n in old(deployment.live) && n != name ==>
                n in deployment.live && deployment.live[n] == old(deployment.live)[n]
      ensures out != Err(CLEANUP_INCOMPLETE)
    {
      var inspected: bool := *;
      if !inspected || name !in deployment.live {
        var listed: bool := *;
        if !listed || name in deployment.live { return Err(STOP_UNCONFIRMED); }
        assert deployment.live - {name} == deployment.live;
        return Ok(());
      }
      if deployment.live[name] {
        var accepted: bool := *;
        if !accepted { return Err(COMMAND_FAILED); }
        var stops: bool := *;
        if stops { deployment.live := deployment.live[name := false]; }
        var again: bool := *;
        if !again { return Err(STOP_UNCONFIRMED); }
      }
      if deployment.live[name] { return Err(STOP_UNCONFIRMED); }
      var removed: bool := *;
      if !removed { return Err(COMMAND_FAILED); }
      deployment.live := deployment.live - {name};
      var confirmed: bool := *;
      return if confirmed then Ok(()) else Err(CLEANUP_FAILED);
    }

    /** Tries every name, whatever happens to the others; the first failure counts. */
    method RemoveAll(names: seq<Name>) returns (failure: Option<Error>)
      modifies deployment`live
      ensures forall n :: n in deployment.live ==> n in old(deployment.live)
      ensures forall n :: n in old(deployment.live) && n !in names ==> n in deployment.live
      ensures failure.None? ==> forall n :: n in names ==> n !in deployment.live
      ensures failure != Some(CLEANUP_INCOMPLETE)
    {
      failure := None;
      var i := 0;
      while i < |names|
        invariant 0 <= i <= |names|
        invariant forall n :: n in deployment.live ==> n in old(deployment.live)
        invariant forall n :: n in old(deployment.live) && n !in names ==> n in deployment.live
        invariant failure.None? ==> forall j :: 0 <= j < i ==> names[j] !in deployment.live
        invariant failure != Some(CLEANUP_INCOMPLETE)
      {
        assert names[i] in names;
        var removed := RemoveContainer(names[i]);
        if removed.Err? && failure.None? { failure := Some(removed.error); }
        i := i + 1;
      }
    }

    /** Removes every recorded container, then looks for leftovers. If every live
        container was recorded when it began, the final look cannot find any; one
        that was not is left running, and reported. */
    method Cleanup() returns (out: Result<(), Error>)
      modifies this, deployment
      ensures forall n :: n in old(deployment.file) ==> n in deployment.file
      ensures out.Ok? ==> deployment.live == map[]
      ensures (forall n :: n in old(deployment.live) ==> n in old(deployment.file) || n in old(containers)) ==>
                out != Err(CLEANUP_INCOMPLETE)
      ensures forall n :: n in old(deployment.live) && n !in old(deployment.file) && n !in old(containers) ==>
                n in deployment.live && out.Err?
    {
      var readable: bool := *;
      if !readable { return Err(DEPLOYMENT_CONFLICT); }
      var names := Merge(containers, deployment.file);
      MergeMembers(containers, deployment.file);
      containers := names;
      MergeMembers(deployment.file, containers);
      var saved, _, _ := Save();
      if saved.Err? { return Err(saved.error); }
      hide Merge, SavedFile, SavedNames;
      var failure := RemoveAll(names);
      if failure.Some? { return Err(failure.value); }
      var listed: bool := *;
      if !listed { return Err(COMMAND_FAILED); }
      if deployment.live != map[] {
        assert exists n :: n in deployment.live;
        return Err(CLEANUP_INCOMPLETE);
      }
      return Ok(());
    }
  }
}
