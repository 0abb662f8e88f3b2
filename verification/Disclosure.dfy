/** Disclosure: a package staged beside its destination, digested, recorded and
    only then renamed into place, on a host where any step may fail, fall short
    or be the last before a crash. */
module Disclosures {
  import opened Wrappers
  import opened Hashing
  import opened Wire
  import opened Planes
  import opened Stores
  import opened WriterSpec
  import opened Packages

  datatype Path = Path(dir: nat, name: string)

  /** A register's entry for one package handed over. */
  datatype Act = Act(id: string, runs: seq<RunId>, cases: seq<CaseId>, recipient: string, checkpoint: Checkpoint,
                     package: Digest, actor: string, at: nat)

  datatype Request = Request(selection: Selection, recipient: string, actor: string, at: nat)

  /** What becomes of one step: it works, it fails, or the process dies, before
      the step took effect or after.  `amount` is how far a step that moves
      bytes gets. */
  datatype Event = Event(fails: bool, dies: bool, after: bool, amount: nat)

  datatype Step = Done | Refused | Died

  datatype Outcome = Delivered(act: Act) | NotWritten(why: Option<PackageError>) | Unrecorded | Crashed

  /** The files, those whose bytes are known to be on disk, the register of acts,
      and the fate of the steps to come.  Once the script runs out, every step
      works in full. */
  class Host {
    var files: map<Path, Bytes>
    var synced: set<Path>
    var folders: set<Path>
    var parents: set<nat>
    var register: seq<Act>
    var script: seq<Event>

    method Next() returns (e: Option<Event>)
      modifies this`script
      ensures script == (if old(script) == [] then [] else old(script[1..]))
      ensures e == (if old(script) == [] then None else Some(old(script)[0]))
    {
      e := None;
      if script != [] {
        e := Some(script[0]);
        script := script[1..];
      }
    }

    /** Create a file that must not exist yet. */
    method Create(path: Path) returns (r: Step)
      modifies this`files, this`synced, this`script
      ensures synced == old(synced) - {path}
      ensures files == old(files) || (path !in old(files) && files == old(files)[path := []])
      ensures r.Done? ==> path !in old(files) && files == old(files)[path := []]
      ensures r.Refused? ==> files == old(files)
      ensures old(script) == [] ==> script == [] && (r.Done? <==> path !in old(files)) && !r.Died?
    {
      var e := Next();
      synced := synced - {path};
      if path in files || (e.Some? && e.value.fails) {
        return Refused;
      }
      if e.Some? && e.value.dies && !e.value.after {
        return Died;
      }
      files := files[path := []];
      return if e.Some? && e.value.dies then Died else Done;
    }

    /** Bring a file up to `content`, of which it holds a prefix. */
    method Flush(path: Path, content: Bytes) returns (r: Step)
      requires path in files
      modifies this`files, this`synced, this`script
      ensures synced == old(synced) - {path}
      ensures path in files && files == old(files)[path := files[path]]
      ensures r.Done? ==> files[path] == content
      ensures old(script) == [] ==> script == [] && r.Done?
    {
      var e := Next();
      var whole := e.None? || (!e.value.fails && !(e.value.dies && !e.value.after));
      var reached := if whole then |content| else if e.value.amount < |content| then e.value.amount else |content|;
      files, synced := files[path := content[..reached]], synced - {path};
      assert content[..|content|] == content;
      return if e.Some? && e.value.dies then Died else if whole then Done else Refused;
    }

    /** Put a file's bytes on disk. */
    method Sync(path: Path) returns (r: Step)
      modifies this`synced, this`script
      ensures synced == (if r.Done? then old(synced) + {path} else old(synced))
      ensures old(script) == [] ==> script == [] && r.Done?
    {
      var e := Next();
      if e.Some? && (e.value.dies || e.value.fails) {
        return if e.value.dies then Died else Refused;
      }
      synced := synced + {path};
      return Done;
    }

    /** Keep one act. */
    method Record(act: Act) returns (r: Step)
      modifies this`register, this`script
      ensures register == old(register) || register == old(register) + [act]
      ensures r.Done? ==> register == old(register) + [act]
      ensures r.Refused? ==> register == old(register)
      ensures old(script) == [] ==> script == [] && r.Done?
    {
      var e := Next();
      if e.Some? && e.value.fails {
        return Refused;
      }
      if e.Some? && e.value.dies && !e.value.after {
        return Died;
      }
      register := register + [act];
      return if e.Some? && e.value.dies then Died else Done;
    }

    /** Move a file onto another in one step. */
    method Rename(from: Path, onto: Path) returns (r: Step)
      requires from in files && from != onto
      modifies this`files, this`synced, this`script
      ensures files != old(files) ==>
                synced == if from in old(synced) then old(synced) - {from} + {onto} else old(synced) - {from, onto}
      ensures files == old(files) ==> synced == old(synced)
      ensures files == old(files) || files == (old(files) - {from})[onto := old(files)[from]]
      ensures r.Done? ==> files == (old(files) - {from})[onto := old(files)[from]]
      ensures r.Refused? ==> files == old(files)
      ensures old(script) == [] ==> script == [] && (r.Done? <==> onto !in folders) && !r.Died?
    {
      var e := Next();
      if onto in folders || (e.Some? && e.value.fails) {
        return Refused;
      }
      if e.Some? && e.value.dies && !e.value.after {
        return Died;
      }
      files, synced := (files - {from})[onto := files[from]],
                       if from in synced then synced - {from} + {onto} else synced - {from, onto};
      assert from !in files;
      return if e.Some? && e.value.dies then Died else Done;
    }

    method Remove(path: Path) returns (r: Step)
      modifies this`files, this`script
      ensures files == old(files) || files == old(files) - {path}
      ensures r.Done? ==> files == old(files) - {path}
      ensures old(script) == [] ==> script == [] && r.Done?
    {
      var e := Next();
      if e.Some? && (e.value.fails || (e.value.dies && !e.value.after)) {
        return if e.value.dies then Died else Refused;
      }
      files := files - {path};
      return if e.Some? && e.value.dies then Died else Done;
    }
  }

  /** Between the package's writer and its file: `accepted` is what the file took
      and `hashed` what the digest covers, and every method keeps the two equal. */
  class Digesting {
    const host: Host
    const path: Path
    var accepted: Bytes
    var hashed: Bytes

    constructor (onto: Host, at: Path)
      ensures host == onto && path == at && accepted == [] && hashed == []
    {
      host, path, accepted, hashed := onto, at, [], [];
    }

    /** Pass on what the inner writer takes of `buf`, and digest that much. */
    method Write(buf: Bytes) returns (r: Step, n: nat)
      requires hashed == accepted
      modifies this, host`script
      ensures hashed == accepted && n <= |buf|
      ensures r.Done? ==> accepted == old(accepted) + buf[..n]
      ensures !r.Done? ==> n == 0 && accepted == old(accepted)
      ensures old(host.script) == [] ==> host.script == [] && r.Done? && n == |buf|
    {
      var e := host.Next();
      if e.Some? && (e.value.fails || e.value.dies) {
        return if e.value.dies then Died else Refused, 0;
      }
      n := if e.Some? && e.value.amount < |buf| then e.value.amount else |buf|;
      accepted := accepted + buf[..n];
      hashed := hashed + buf[..n];
      return Done, n;
    }

    /** Write until everything is taken; a writer that takes nothing fails. */
    method WriteAll(bytes: Bytes) returns (r: Step)
      requires hashed == accepted
      modifies this, host`script
      ensures hashed == accepted
      ensures r.Done? ==> accepted == old(accepted) + bytes
      ensures old(host.script) == [] ==> host.script == [] && r.Done?
    {
      var rest := bytes;
      while rest != []
        invariant hashed == accepted && accepted + rest == old(accepted) + bytes
        invariant old(host.script) == [] ==> host.script == []
        decreases |rest|
      {
        var step, n := Write(rest);
        if !step.Done? {
          return step;
        }
        if n == 0 {
          return Refused;
        }
        assert rest[..n] + rest[n..] == rest;
        rest := rest[n..];
      }
      return Done;
    }

    /** Flush, and hand over the digest of everything passed on. */
    method Finish(h: Hash) returns (r: Step, digest: Digest)
      requires hashed == accepted && path in host.files
      modifies host`files, host`synced, host`script
      ensures path in host.files && host.files == old(host.files)[path := host.files[path]]
      ensures r.Done? ==> host.files[path] == accepted && digest == h(host.files[path])
      ensures old(host.script) == [] ==> host.script == [] && r.Done?
    {
      digest := ZERO;
      r := host.Flush(path, accepted);
      if r.Done? {
        digest := h(hashed);
      }
    }
  }

  /** In the destination's directory, and never the destination. */
  function StagingPath(destination: Path, id: string): (staging: Path)
    ensures staging.dir == destination.dir && staging != destination
  {
    Path(destination.dir, "." + destination.name + "." + id + ".partial")
  }

  /** An act that records these bytes, and this package. */
  predicate Records(h: Hash, act: Act, id: string, request: Request, package: Package, bytes: Bytes) {
    act == Act(id, package.runs, package.cases, request.recipient, package.checkpoint, h(bytes), request.actor,
        request.at)
  }

  datatype Staged = Staged(step: Step, act: Act, package: Package, refused: Option<PackageError>, unrecorded: bool)

  const NoAct := Act("", [], [], "", Checkpoint("", 0, ZERO), ZERO, "", 0)
  const NoPackage := Package.Package(Checkpoint("", 0, ZERO), [], [], TrailerFields(None, None, None, None, []), [])

  /** Only the staging file may differ. */
  ghost predicate OnlyStaging(before: map<Path, Bytes>, after: map<Path, Bytes>, staging: Path) {
    forall p :: p != staging ==> (p in before <==> p in after) && (p in before ==> before[p] == after[p])
  }

  method StageAndRecord(store: Store, host: Host, request: Request, id: string, staging: Path,
                        render: seq<Line> -> Bytes)
    returns (s: Staged, ghost p0: Plane, ghost p1: Plane, ghost takens: seq<Taken>, ghost rows: seq<CaseRow>)
    requires Honest(store.c, store.View())
    modifies host`files, host`synced, host`register, host`script, store`runs, store`log, store`cases, store`schedule
    ensures Grown(old(store.View()), store.View()) && Honest(store.c, store.View())
    ensures OnlyStaging(old(host.files), host.files, staging)
    ensures host.register == old(host.register) || host.register == old(host.register) + [s.act]
    ensures s.step.Refused? ==> host.register == old(host.register)
    ensures s.step.Done? ==> host.register == old(host.register) + [s.act]
    ensures host.register != old(host.register) ==>
              staging in host.files && staging in host.synced && host.files[staging] == render(s.package.lines) &&
              Records(store.c.hash, s.act, id, request, s.package, host.files[staging]) &&
              Fit(store.c, request.selection, s.package, p0, p1, takens, rows)
    ensures old(host.script) == [] ==> host.script == [] && !s.step.Died?
    ensures old(host.script) == [] && old(store.schedule) == [] ==>
              (s.step.Done? <==> staging !in old(host.files) && Buildable(old(store.View()), request.selection))
  {
    hide Honest, Grown, Fit, Buildable, NamesOnly;
    s := Staged(Refused, NoAct, NoPackage, None, false);
    p0, p1, takens, rows := store.View(), store.View(), [], [];
    GrownIsReflexive(store.View());
    var step := host.Create(staging);
    if !step.Done? {
      s := s.(step := step);
      return;
    }
    var out_ := new Digesting(host, staging);
    var package;
    package, p0, p1, takens, rows := BuildPackage(store, request.selection);
    if package.Err? {
      s := s.(refused := Some(package.error));
      return;
    }
    var bytes := render(package.value.lines);
    step := out_.WriteAll(bytes);
    if !step.Done? {
      s := s.(step := step);
      return;
    }
    assert out_.accepted == bytes;
    var digest;
    step, digest := out_.Finish(store.c.hash);
    if !step.Done? {
      s := s.(step := step);
      return;
    }
    step := host.Sync(staging);
    if !step.Done? {
      s := s.(step := step);
      return;
    }
    var act := Act(id, package.value.runs, package.value.cases, request.recipient, package.value.checkpoint, digest,
                   request.actor, request.at);
    step := host.Record(act);
    s := Staged(step, act, package.value, None, step.Refused?);
  }

  /** A file may be put at the destination, by way of a staging file of its own. */
  predicate Deliverable(files: map<Path, Bytes>, folders: set<Path>, parents: set<nat>, destination: Path, id: string) {
    destination !in folders && destination.dir in parents && StagingPath(destination, id) !in files
  }

  /** Whatever fails, falls short or kills the process at whatever step: if the
      destination changed, it holds exactly the bytes of one package, and the
      register holds the act that records them, made before; every error leaves
      the destination as it was; and nothing but the staging file is touched
      besides.  When nothing fails and nobody else writes, the package is
      delivered exactly when the destination can take it and it can be built. */
  method Disclose(store: Store, host: Host, request: Request, destination: Path, id: string, render: seq<Line> -> Bytes)
    returns (r: Outcome, ghost act: Act, ghost package: Package, ghost p0: Plane, ghost p1: Plane,
             ghost takens: seq<Taken>, ghost rows: seq<CaseRow>)
    requires Honest(store.c, store.View())
    modifies host`files, host`synced, host`register, host`script, store`runs, store`log, store`cases, store`schedule
    ensures Grown(old(store.View()), store.View()) && Honest(store.c, store.View())
    ensures forall p :: p != destination && p != StagingPath(destination, id) ==>
              (p in old(host.files) <==> p in host.files) && (p in host.files ==> host.files[p] == old(host.files)[p])
    ensures host.register == old(host.register) || host.register == old(host.register) + [act]
    ensures !Same(old(host.files), host.files, destination) ==>
              host.register == old(host.register) + [act] && destination in host.files && destination in host.synced &&
              host.files[destination] == render(package.lines) &&
              Records(store.c.hash, act, id, request, package, host.files[destination]) &&
              Fit(store.c, request.selection, package, p0, p1, takens, rows)
    ensures r.NotWritten? || r.Unrecorded? ==> Same(old(host.files), host.files, destination)
    ensures r.Unrecorded? ==> host.register == old(host.register)
    ensures r.Delivered? ==>
              r.act == act && host.register == old(host.register) + [act] && destination in host.files &&
              host.files[destination] == render(package.lines) && StagingPath(destination, id) !in host.files &&
              Records(store.c.hash, act, id, request, package, host.files[destination])
    ensures old(host.script) == [] && !r.Delivered? && destination !in host.folders && destination.dir in host.parents ==>
              host.files == old(host.files) - {StagingPath(destination, id)}
    ensures destination in host.folders || destination.dir !in host.parents ==>
              r.NotWritten? && host.files == old(host.files) && host.register == old(host.register)
    ensures old(host.script) == [] && old(store.schedule) == [] ==>
              (r.Delivered? <==> Deliverable(old(host.files), host.folders, host.parents, destination, id) &&
                                 Buildable(old(store.View()), request.selection))
  {
    hide Honest, Grown, Fit, Buildable;
    act, package := NoAct, NoPackage;
    p0, p1, takens, rows := store.View(), store.View(), [], [];
    GrownIsReflexive(store.View());
    r := NotWritten(None);
    if destination in host.folders || destination.dir !in host.parents {
      return;
    }
    var staging := StagingPath(destination, id);
    var staged;
    staged, p0, p1, takens, rows := StageAndRecord(store, host, request, id, staging, render);
    act, package := staged.act, staged.package;
    if staged.step.Died? {
      r := Crashed;
      return;
    }
    if staged.step.Refused? {
      var removed := host.Remove(staging);
      r := if removed.Died? then Crashed else if staged.unrecorded then Unrecorded else NotWritten(staged.refused);
      return;
    }
    var renamed := host.Rename(staging, destination);
    if renamed.Done? {
      r := Delivered(staged.act);
    } else if renamed.Died? {
      r := Crashed;
    } else {
      var removed := host.Remove(staging);
      r := if removed.Died? then Crashed else NotWritten(None);
    }
  }

  /** A path holds what it held. */
  ghost predicate Same(before: map<Path, Bytes>, after: map<Path, Bytes>, p: Path) {
    (p in before <==> p in after) && (p in before ==> before[p] == after[p])
  }
}
