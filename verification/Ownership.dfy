/** Write-ahead ownership of containers: a name is written to deployment.json
    before its container is created (tools/authority_runtime.py). A save reads and
    merges the file and later writes it; other instances may act in between. */
module Ownership {
  import opened Common

  /** The names a deployment may own: its broker, and clients with fresh ids. */
  datatype Name = Broker | Client(id: Id)

  /** What a runtime object is in the middle of: it has merged the file into its
      names and is about to write them, for a creation or not; or it is about to
      create a container. */
  datatype Doing = Nothing | Writing(creates: Option<Name>) | Creating(name: Name)

  datatype Instance = Instance(names: seq<Name>, doing: Doing)

  /** `live` are the containers that carry the deployment's label. */
  datatype World = World(file: seq<Name>, instances: map<Id, Instance>, live: set<Name>)

  const NEW_DEPLOYMENT: World := World([], map[], {})

  /** The names of both lists, in order, each once. */
  function Merge(a: seq<Name>, b: seq<Name>): seq<Name>
    decreases |b|
  {
    if b == [] then a
    else
      var rest := Merge(a, b[..|b| - 1]);
      if b[|b| - 1] in rest then rest else rest + [b[|b| - 1]]
  }

  lemma {:induction false} MergeMembers(a: seq<Name>, b: seq<Name>)
    ensures forall n :: n in Merge(a, b) <==> n in a || n in b
    ensures Distinct(a) ==> Distinct(Merge(a, b))
    ensures a <= Merge(a, b)
    decreases |b|
  {
    if b != [] {
      MergeMembers(a, b[..|b| - 1]);
      assert b == b[..|b| - 1] + [b[|b| - 1]];
    }
  }

  // ---------- events ----------

  datatype Event =
    | Opens(who: Id)
    | Crashes(who: Id)
    | Begins(who: Id, name: Name, readable: bool)  // _create up to its save's write
    | Reads(who: Id, readable: bool)               // any other save up to its write
    | Writes(who: Id, written: bool)               // the write of a save; it may fail
    | Creates(who: Id, created: bool)              // the docker command of _create; it may fail either way
    | Removes(name: Name, gone: bool)

  /** A save that cannot read the file fails and leaves the names as they are. */
  function Read(w: World, names: seq<Name>, creates: Option<Name>, readable: bool): Instance {
    if readable then Instance(Merge(w.file, names), Writing(creates)) else Instance(names, Nothing)
  }

  /** A name already in memory is not saved again. */
  function Begin(w: World, i: Instance, name: Name, readable: bool): Instance {
    if name in i.names then i.(doing := Creating(name)) else Read(w, i.names + [name], Some(name), readable)
  }

  /** What an instance does next. One that is in the middle of something goes on
      with that before it begins anything else. */
  function NextOf(w: World, i: Instance, e: Event): Instance {
    match e
    case Begins(_, name, readable) => if i.doing.Nothing? then Begin(w, i, name, readable) else i
    case Reads(_, readable) => if i.doing.Nothing? then Read(w, i.names, None, readable) else i
    case Writes(_, written) =>
      if !i.doing.Writing? then i
      else i.(doing := if written && i.doing.creates.Some? then Creating(i.doing.creates.value) else Nothing)
    case Creates(_, _) => if i.doing.Creating? then i.(doing := Nothing) else i
    case _ => i
  }

  predicate IsWrite(i: Instance, e: Event) { e.Writes? && e.written && i.doing.Writing? }

  predicate IsCreation(i: Instance, e: Event) { e.Creates? && e.created && i.doing.Creating? }

  function Turn(w: World, who: Id, i: Instance, e: Event): World {
    World(if IsWrite(i, e) then i.names else w.file,
          w.instances[who := NextOf(w, i, e)],
          if IsCreation(i, e) then w.live + {i.doing.name} else w.live)
  }

  function Next(w: World, e: Event): World {
    match e
    case Opens(who) =>
      if who in w.instances then w else w.(instances := w.instances[who := Instance(w.file, Nothing)])
    case Crashes(who) => w.(instances := w.instances - {who})
    case Removes(name, gone) => if gone then w.(live := w.live - {name}) else w
    case _ => if e.who in w.instances then Turn(w, e.who, w.instances[e.who], e) else w
  }

  function Run(w: World, events: seq<Event>): World
    decreases |events|
  {
    if events == [] then w else Next(Run(w, events[..|events| - 1]), events[|events| - 1])
  }

  // ---------- what holds at each event of a run ----------

  /** An instance writes only while no other one is between its read and its
      write: what the callers' lock on the deployment provides. */
  ghost predicate Excluded(w: World, e: Event) {
    e.Writes? && e.who in w.instances && IsWrite(w.instances[e.who], e) ==>
      forall i :: i in w.instances && i != e.who ==> !w.instances[i].doing.Writing?
  }

  /** What the caller of _create can look at: the name is new to this instance,
      or it is in the file. */
  ghost predicate Guarded(w: World, e: Event) {
    e.Begins? && e.who in w.instances && w.instances[e.who].doing.Nothing? ==>
      e.name !in w.instances[e.who].names || e.name in w.file
  }

  ghost predicate AllExcluded(w: World, events: seq<Event>) {
    forall k :: 0 <= k < |events| ==> Excluded(Run(w, events[..k]), events[k])
  }

  ghost predicate AllGuarded(w: World, events: seq<Event>) {
    forall k :: 0 <= k < |events| ==> Guarded(Run(w, events[..k]), events[k])
  }

  lemma PrefixExcluded(w: World, events: seq<Event>, n: nat)
    requires AllExcluded(w, events) && n <= |events|
    ensures AllExcluded(w, events[..n])
  {
    hide Excluded, Run;
    forall k | 0 <= k < n ensures Excluded(Run(w, events[..n][..k]), events[..n][k]) {
      assert events[..n][..k] == events[..k];
    }
  }

  lemma PrefixGuarded(w: World, events: seq<Event>, n: nat)
    requires AllGuarded(w, events) && n <= |events|
    ensures AllGuarded(w, events[..n])
  {
    hide Guarded, Run;
    forall k | 0 <= k < n ensures Guarded(Run(w, events[..n][..k]), events[..n][k]) {
      assert events[..n][..k] == events[..k];
    }
  }

  /** The lock the tools hold while they use a runtime object: none is opened
      while another one is open. */
  ghost predicate OneAtATime(w: World, events: seq<Event>) {
    forall k :: 0 <= k < |events| && events[k].Opens? ==> Run(w, events[..k]).instances == map[]
  }

  ghost predicate AtMostOne(w: World) { forall i, j :: i in w.instances && j in w.instances ==> i == j }

  lemma NextAlone(w: World, e: Event)
    requires AtMostOne(w) && (e.Opens? ==> w.instances == map[])
    ensures AtMostOne(Next(w, e)) && Excluded(w, e)
  {
    hide Merge, NextOf;
  }

  lemma {:induction false} LockedRunsExclude(w: World, events: seq<Event>)
    requires AtMostOne(w) && OneAtATime(w, events)
    ensures AllExcluded(w, events) && AtMostOne(Run(w, events))
    decreases |events|
  {
    hide Next, Excluded, AtMostOne;
    if events != [] {
      var n := |events| - 1;
      assert OneAtATime(w, events[..n]) by {
        hide Run;
        forall k | 0 <= k < n && events[..n][k].Opens? ensures Run(w, events[..n][..k]).instances == map[] {
          assert events[..n][..k] == events[..k];
        }
      }
      LockedRunsExclude(w, events[..n]);
      NextAlone(Run(w, events[..n]), events[n]);
      forall k | 0 <= k < |events| ensures Excluded(Run(w, events[..k]), events[k]) {
        if k < n { assert events[..n][..k] == events[..k] && events[..n][k] == events[k]; }
      }
    }
  }

  // ---------- recorded names are not lost ----------

  ghost predicate FileGrows(w: World, v: World) { forall n :: n in w.file ==> n in v.file }

  /** A list about to be written holds every name in the file. */
  ghost predicate MergesCurrent(w: World) {
    forall i, n :: i in w.instances && w.instances[i].doing.Writing? && n in w.file ==> n in w.instances[i].names
  }

  lemma NextGrows(w: World, e: Event)
    requires MergesCurrent(w) && Excluded(w, e)
    ensures FileGrows(w, Next(w, e)) && MergesCurrent(Next(w, e))
  {
    hide Merge;
    if e.Begins? && e.who in w.instances { MergeMembers(w.file, w.instances[e.who].names + [e.name]); }
    if e.Reads? && e.who in w.instances { MergeMembers(w.file, w.instances[e.who].names); }
  }

  /** Whatever crashes and whichever saves fail: while no instance writes between
      another one's read and write, a name in deployment.json stays there. */
  lemma {:induction false} RecordedNeverLost(w: World, events: seq<Event>)
    requires MergesCurrent(w) && AllExcluded(w, events)
    ensures FileGrows(w, Run(w, events)) && MergesCurrent(Run(w, events))
    decreases |events|
  {
    hide Next, Excluded, MergesCurrent;
    if events != [] {
      var n := |events| - 1;
      PrefixExcluded(w, events, n);
      RecordedNeverLost(w, events[..n]);
      NextGrows(Run(w, events[..n]), events[n]);
    }
  }

  /** Without the exclusion the second of two overlapping writes takes back the
      first exactly when the first had a name the second has not read. */
  lemma OverlapLosesExactly(w: World, first: Id, second: Id)
    requires first != second && first in w.instances && second in w.instances
    requires w.instances[first].doing.Writing? && w.instances[second].doing.Writing?
    ensures var v := Next(w, Writes(first, true));
            FileGrows(v, Next(v, Writes(second, true)))
            <==> forall n :: n in w.instances[first].names ==> n in w.instances[second].names
  {
    hide Merge;
  }

  // ---------- every live container is recorded ----------

  ghost predicate LiveRecorded(w: World) { forall n :: n in w.live ==> n in w.file }

  /** A name about to be created is in the file, or in the list about to be written. */
  ghost predicate PendingRecorded(w: World) {
    forall i :: i in w.instances ==>
      match w.instances[i].doing
      case Nothing => true
      case Creating(n) => n in w.file
      case Writing(n) => n.Some? ==> n.value in w.instances[i].names
  }

  lemma NextRecorded(w: World, e: Event)
    requires LiveRecorded(w) && PendingRecorded(w) && MergesCurrent(w) && Guarded(w, e) && Excluded(w, e)
    ensures LiveRecorded(Next(w, e)) && PendingRecorded(Next(w, e))
  {
    NextGrows(w, e);
    hide Merge, Excluded, MergesCurrent;
    if e.Begins? && e.who in w.instances { MergeMembers(w.file, w.instances[e.who].names + [e.name]); }
  }

  /** At every crash point of a run whose writes are excluded and whose creations
      are guarded, each live container is named in deployment.json. */
  lemma {:induction false} AlwaysRecorded(w: World, events: seq<Event>)
    requires LiveRecorded(w) && PendingRecorded(w) && MergesCurrent(w)
    requires AllExcluded(w, events) && AllGuarded(w, events)
    ensures LiveRecorded(Run(w, events)) && PendingRecorded(Run(w, events))
    decreases |events|
  {
    hide Next, Guarded, Excluded, LiveRecorded, PendingRecorded, MergesCurrent;
    if events != [] {
      var n := |events| - 1;
      PrefixExcluded(w, events, n);
      PrefixGuarded(w, events, n);
      AlwaysRecorded(w, events[..n]);
      RecordedNeverLost(w, events[..n]);
      assert Guarded(Run(w, events[..n]), events[n]) && Excluded(Run(w, events[..n]), events[n]);
      NextRecorded(Run(w, events[..n]), events[n]);
    }
  }

  // ---------- when the guard holds ----------

  /** Every name an instance knows is in the file, or in the save it is in. */
  ghost predicate MemoryRecorded(w: World) {
    forall i, n :: i in w.instances && !w.instances[i].doing.Writing? && n in w.instances[i].names ==> n in w.file
  }

  predicate SavesSucceed(e: Event) {
    match e
    case Begins(_, _, readable) => readable
    case Reads(_, readable) => readable
    case Writes(_, written) => written
    case _ => true
  }

  lemma NextMemory(w: World, e: Event)
    requires MemoryRecorded(w) && SavesSucceed(e) && MergesCurrent(w) && Excluded(w, e)
    ensures MemoryRecorded(Next(w, e)) && Guarded(w, e)
  {
    NextGrows(w, e);
    hide Merge, Excluded, MergesCurrent;
  }

  lemma {:induction false} RunMemory(w: World, events: seq<Event>)
    requires MemoryRecorded(w) && MergesCurrent(w) && AllExcluded(w, events)
    requires forall k :: 0 <= k < |events| ==> SavesSucceed(events[k])
    ensures MemoryRecorded(Run(w, events)) && AllGuarded(w, events)
    decreases |events|
  {
    hide Next, Guarded, Excluded, MemoryRecorded, MergesCurrent, SavesSucceed;
    if events != [] {
      var n := |events| - 1;
      PrefixExcluded(w, events, n);
      RunMemory(w, events[..n]);
      RecordedNeverLost(w, events[..n]);
      NextMemory(Run(w, events[..n]), events[n]);
      forall k | 0 <= k < |events| ensures Guarded(Run(w, events[..k]), events[k]) {
        if k < n { assert events[..n][..k] == events[..k] && events[..n][k] == events[k]; }
      }
    }
  }

  /** As long as no save fails and the lock is respected, every live container is
      recorded at every point, wherever the instances crash. */
  lemma RecordedWithoutFailedSaves(events: seq<Event>)
    requires forall k :: 0 <= k < |events| ==> SavesSucceed(events[k])
    requires AllExcluded(NEW_DEPLOYMENT, events)
    ensures LiveRecorded(Run(NEW_DEPLOYMENT, events))
  {
    RunMemory(NEW_DEPLOYMENT, events);
    AlwaysRecorded(NEW_DEPLOYMENT, events);
  }

  /** A whole _create, with no other instance at work in between. */
  function Created(w: World, who: Id, name: Name, readable: bool, written: bool, created: bool): World {
    Next(Next(Next(w, Begins(who, name, readable)), Writes(who, written)), Creates(who, created))
  }

  /** Exactly when an undisturbed _create is safe: for every outcome of its save
      and its docker command the container it leaves is recorded, if and only if
      the name is new to the instance or already in the file. */
  lemma CreationSafeExactly(w: World, who: Id, name: Name)
    requires LiveRecorded(w) && who in w.instances && w.instances[who].doing.Nothing?
    ensures (forall readable, written, created :: LiveRecorded(Created(w, who, name, readable, written, created)))
            <==> (name !in w.instances[who].names || name in w.file)
  {
    hide Merge;
    MergeMembers(w.file, w.instances[who].names + [name]);
    if !(name !in w.instances[who].names || name in w.file) {
      assert !LiveRecorded(Created(w, who, name, true, true, true)) by {
        assert name in Created(w, who, name, true, true, true).live;
      }
    }
  }

  /** Clients get fresh names, so their creation is safe. */
  lemma FreshNameIsSafe(w: World, who: Id, name: Name)
    requires LiveRecorded(w) && who in w.instances && w.instances[who].doing.Nothing?
    requires name !in w.instances[who].names
    ensures forall readable, written, created :: LiveRecorded(Created(w, who, name, readable, written, created))
  {
    CreationSafeExactly(w, who, name);
  }

  // ---------- the two ways a container goes unrecorded ----------

  /** The worlds a run goes through, written out. */
  ghost predicate Trace(ws: seq<World>, events: seq<Event>) {
    |ws| == |events| + 1 && forall k :: 0 <= k < |events| ==> ws[k + 1] == Next(ws[k], events[k])
  }

  lemma {:induction false} TraceRuns(ws: seq<World>, events: seq<Event>, n: nat)
    requires Trace(ws, events) && n <= |events|
    ensures Run(ws[0], events[..n]) == ws[n]
  {
    hide Next;
    if n > 0 {
      TraceRuns(ws, events, n - 1);
      assert events[..n][..n - 1] == events[..n - 1];
    }
  }

  lemma MergeOne(n: Name)
    ensures Merge([], [n]) == [n]
  {
    assert [n][..0] == [];
    assert Merge([], [n][..0]) == [];
  }

  /** Although writes are excluded: a prepare whose save fails, and a second one.
      The instance knows the name, so the second one saves nothing. */
  lemma UnrecordedBroker()
    ensures var who := Id("runtime");
            var failed := [Opens(who), Begins(who, Broker, true), Writes(who, false)];
            var again := failed + [Begins(who, Broker, true), Creates(who, true)];
            && AllExcluded(NEW_DEPLOYMENT, again) && LiveRecorded(Run(NEW_DEPLOYMENT, failed))
            && Broker in Run(NEW_DEPLOYMENT, again).live && Broker !in Run(NEW_DEPLOYMENT, again).file
  {
    var who := Id("runtime");
    var events := [Opens(who), Begins(who, Broker, true), Writes(who, false), Begins(who, Broker, true), Creates(who, true)];
    var ws := [NEW_DEPLOYMENT,
               World([], map[who := Instance([], Nothing)], {}),
               World([], map[who := Instance([Broker], Writing(Some(Broker)))], {}),
               World([], map[who := Instance([Broker], Nothing)], {}),
               World([], map[who := Instance([Broker], Creating(Broker))], {}),
               World([], map[who := Instance([Broker], Nothing)], {Broker})];
    assert Trace(ws, events) by {
      MergeOne(Broker);
      assert [] + [Broker] == [Broker];
    }
    TraceRuns(ws, events, 3);
    TraceRuns(ws, events, 5);
    hide Next, Run, Trace;
    assert events[..3] == [Opens(who), Begins(who, Broker, true), Writes(who, false)];
    assert events[..5] == events == events[..3] + [Begins(who, Broker, true), Creates(who, true)];
  }

  lemma BeginsFresh(w: World, who: Id, name: Name)
    requires w.file == [] && who in w.instances && w.instances[who] == Instance([], Nothing)
    ensures Next(w, Begins(who, name, true)) == w.(instances := w.instances[who := Instance([name], Writing(Some(name)))])
  {
    MergeOne(name);
    assert [] + [name] == [name];
  }

  function Overlap(a: Id, b: Id, c1: Name, c2: Name): seq<Event> {
    [Opens(a), Opens(b), Begins(a, c1, true), Begins(b, c2, true), Writes(a, true), Writes(b, true), Creates(a, true)]
  }

  function OverlapWorlds(a: Id, b: Id, c1: Name, c2: Name): seq<World> {
    var idle := Instance([], Nothing);
    var a1, b1 := Instance([c1], Writing(Some(c1))), Instance([c2], Writing(Some(c2)));
    var a2, b2 := Instance([c1], Creating(c1)), Instance([c2], Creating(c2));
    [NEW_DEPLOYMENT,
     World([], map[a := idle], {}),
     World([], map[a := idle, b := idle], {}),
     World([], map[a := a1, b := idle], {}),
     World([], map[a := a1, b := b1], {}),
     World([c1], map[a := a2, b := b1], {}),
     World([c2], map[a := a2, b := b2], {}),
     World([c2], map[a := Instance([c1], Nothing), b := b2], {c1})]
  }

  lemma OverlapReads(a: Id, b: Id, c1: Name, c2: Name, k: nat)
    requires a != b && k < 4
    ensures OverlapWorlds(a, b, c1, c2)[k + 1] == Next(OverlapWorlds(a, b, c1, c2)[k], Overlap(a, b, c1, c2)[k])
  {
    hide Merge;
    var ws := OverlapWorlds(a, b, c1, c2);
    if k == 2 {
      BeginsFresh(ws[2], a, c1);
      hide Next;
    } else if k == 3 {
      BeginsFresh(ws[3], b, c2);
      hide Next;
    }
  }

  lemma OverlapWrites(a: Id, b: Id, c1: Name, c2: Name, k: nat)
    requires a != b && 4 <= k < 7
    ensures OverlapWorlds(a, b, c1, c2)[k + 1] == Next(OverlapWorlds(a, b, c1, c2)[k], Overlap(a, b, c1, c2)[k])
  {
    hide Merge;
  }

  lemma OverlapTrace(a: Id, b: Id, c1: Name, c2: Name)
    requires a != b
    ensures Trace(OverlapWorlds(a, b, c1, c2), Overlap(a, b, c1, c2))
  {
    hide Next;
    forall k | 0 <= k < 7
      ensures OverlapWorlds(a, b, c1, c2)[k + 1] == Next(OverlapWorlds(a, b, c1, c2)[k], Overlap(a, b, c1, c2)[k])
    {
      hide *;
      if k < 4 { OverlapReads(a, b, c1, c2, k); } else { OverlapWrites(a, b, c1, c2, k); }
    }
  }

  /** Without the exclusion: two instances read the empty file, both write, and
      the first creates its container. Every creation was guarded and no save
      failed. */
  lemma UnrecordedClient(a: Id, b: Id, c1: Name, c2: Name)
    requires a != b && c1 != c2
    ensures var events := Overlap(a, b, c1, c2);
            && AllGuarded(NEW_DEPLOYMENT, events) && (forall k :: 0 <= k < |events| ==> SavesSucceed(events[k]))
            && c1 in Run(NEW_DEPLOYMENT, events).live && c1 !in Run(NEW_DEPLOYMENT, events).file
  {
    var ws, events := OverlapWorlds(a, b, c1, c2), Overlap(a, b, c1, c2);
    OverlapTrace(a, b, c1, c2);
    hide Next, Run, Trace;
    forall k | 0 <= k <= 7 ensures Run(NEW_DEPLOYMENT, events[..k]) == ws[k] { TraceRuns(ws, events, k); }
    assert events[..7] == events;
    forall k | 0 <= k < 7 ensures Guarded(Run(NEW_DEPLOYMENT, events[..k]), events[k]) {
      assert Run(NEW_DEPLOYMENT, events[..k]) == ws[k];
    }
  }
}
