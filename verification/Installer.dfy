/**
 * The agent installer as a protocol over the file system: any set of steps may fail, and whatever
 * is claimed holds after every step, so also if the installer is interrupted there.
 */
module Installer {
  import opened Wrappers

  type Server = nat     // a canonical server URL

  datatype Config = Config(server: Server, identity: nat, extraPath: seq<nat>)

  /** A file that config.Load accepts, a regular file that it rejects, or something else. */
  datatype Entry = Loadable(cfg: Config) | Unloadable(content: nat) | Irregular(target: nat)

  datatype Path = Named(name: nat) | Previous(of: Path)

  type Files = map<Path, Entry>

  /** The configuration of an old single-agent install, and the default one for this server. */
  const LEGACY: Path := Named(0)
  const NAMESPACED: Path := Named(1)

  /** The steps that can fail. `StopService`: a failed service installation leaves no service running. */
  datatype Step =
    | InspectLegacy | InspectAdopted | SaveAdopted | InspectConfig | BackUp | SaveRepaired | Restore
    | RecordPath | SecurePath | SavePaired | CopyExecutable | StartService | StopService
    | StopLegacy | RemoveLegacy

  datatype Machine = Machine(files: Files, service: bool, legacyService: bool)

  datatype Outcome = Failed | Paired(cfg: Config, alreadyPaired: bool, replacedPrevious: bool)

  /** The entry that was at `path` is still there, or in its backup. */
  ghost predicate OldEntryKept(files: Files, path: Path, old_: Entry) {
    (path in files && files[path] == old_) || (Previous(path) in files && files[Previous(path)] == old_)
  }

  /** No path but these differs. */
  ghost predicate SameElsewhere(before: Files, after: Files, paths: set<Path>) {
    forall p :: p !in paths ==> ((p in before <==> p in after) && (p in before ==> before[p] == after[p]))
  }

  /** The same entry, up to a command path recorded where there was none. */
  predicate SameIdentity(before: Entry, after: Entry) {
    before == after
    || (before.Loadable? && after.Loadable? && before.cfg.extraPath == [] && before.cfg == after.cfg.(extraPath := []))
  }

  predicate BelongsTo(files: Files, path: Path, server: Server) {
    path in files && files[path].Loadable? && files[path].cfg.server == server
  }

  class Host {
    var files: Files
    var service: bool
    var legacyService: bool
    /** Every state of the machine so far. */
    ghost var history: seq<Machine>

    ghost function Now(): Machine
      reads this
    {
      Machine(files, service, legacyService)
    }

    ghost predicate Valid()
      reads this
    {
      history != [] && history[|history| - 1] == Now()
    }

    constructor (files: Files, service: bool, legacyService: bool)
      ensures Valid() && Now() == Machine(files, service, legacyService) && history == [Now()]
    {
      this.files, this.service, this.legacyService := files, service, legacyService;
      history := [Machine(files, service, legacyService)];
    }

    // ----- primitive steps ----------------------------------------------------------

    method Rename(from: Path, to: Path, works: bool) returns (ok: bool)
      requires Valid() && from != to
      modifies this`files, this`history
      ensures Valid() && history == old(history) + [Now()]
      ensures ok <==> works && from in old(files)
      ensures files == if ok then old(files)[to := old(files)[from]] - {from} else old(files)
    {
      ok := works && from in files;
      if ok { files := files[to := files[from]] - {from}; }
      history := history + [Now()];
    }

    /** Best effort. */
    method Remove(path: Path, works: bool)
      requires Valid()
      modifies this`files, this`history
      ensures Valid() && history == old(history) + [Now()]
      ensures files == if works then old(files) - {path} else old(files)
    {
      if works { files := files - {path}; }
      history := history + [Now()];
    }

    /** config.Save: an atomic replacement; securing the file afterwards may still fail. */
    method Save(path: Path, cfg: Config, renamed: bool, secured: bool) returns (ok: bool)
      requires Valid()
      modifies this`files, this`history
      ensures Valid() && history == old(history) + [Now()]
      ensures ok <==> renamed && secured
      ensures files == if renamed then old(files)[path := Loadable(cfg)] else old(files)
    {
      if renamed { files := files[path := Loadable(cfg)]; }
      ok := renamed && secured;
      history := history + [Now()];
    }

    /** config.SaveNew: links the finished file into place, which refuses an existing entry. */
    method SaveNew(path: Path, cfg: Config, works: bool) returns (ok: bool)
      requires Valid()
      modifies this`files, this`history
      ensures Valid() && history == old(history) + [Now()]
      ensures ok <==> works && path !in old(files)
      ensures files == if ok then old(files)[path := Loadable(cfg)] else old(files)
    {
      ok := works && path !in files;
      if ok { files := files[path := Loadable(cfg)]; }
      history := history + [Now()];
    }

    // ----- pairing ------------------------------------------------------------------

    /**
     * repair: the server has been asked first (`answer`: the identity it issued). A rejection
     * changes nothing; otherwise the old entry is always at the path or in its backup.
     */
    method Repair(server: Server, path: Path, extraPath: seq<nat>, answer: Option<nat>, fails: set<Step>) returns (r: Outcome)
      requires Valid() && path in files
      modifies this`files, this`history
      ensures Valid() && old(history) <= history
      ensures answer.None? ==> r.Failed? && files == old(files) && history == old(history)
      ensures forall i :: |old(history)| <= i < |history| ==>
                OldEntryKept(history[i].files, path, old(files)[path])
                && SameElsewhere(old(files), history[i].files, {path, Previous(path)})
                && history[i] == Now().(files := history[i].files)
      ensures r.Paired? ==> answer.Some? && r == Paired(Config(server, answer.value, extraPath), false, true)
      ensures r.Paired? ==> path in files && files[path] == Loadable(r.cfg)
      ensures r.Paired? ==> Previous(path) in files && files[Previous(path)] == old(files)[path]
      ensures r.Paired? <==> answer.Some? && BackUp !in fails && SaveRepaired !in fails
      ensures r.Failed? && path in files ==> files[path] == old(files)[path]
      ensures path !in files <==> answer.Some? && BackUp !in fails && {SaveRepaired, Restore} <= fails
    {
      if answer.None? { return Failed; }
      var cfg := Config(server, answer.value, extraPath);
      var moved := Rename(path, Previous(path), BackUp !in fails);
      if !moved { return Failed; }
      var saved := SaveNew(path, cfg, SaveRepaired !in fails);
      if !saved {
        var _ := Rename(Previous(path), path, Restore !in fails);
        return Failed;
      }
      return Paired(cfg, false, true);
    }

    /** What ensurePaired may do to its configuration file, at any moment. */
    static ghost predicate PairingStep(before: Files, after: Files, path: Path, code: bool, fresh_: Option<Config>) {
      && SameElsewhere(before, after, {path, Previous(path)})
      && (path in before && code ==> OldEntryKept(after, path, before[path]))
      && (path in before && !code ==> path in after && SameIdentity(before[path], after[path])
                                      && SameElsewhere(before, after, {path}))
      && (path !in before ==> (path in after ==> fresh_.Some? && after[path] == Loadable(fresh_.value))
                              && SameElsewhere(before, after, {path}))
    }

    /**
     * When pairing succeeds: with a code, if the server accepts it and the file can be written, over
     * a backup of what is there; without one, if there is a configuration for this server already,
     * and the command path can be recorded where it is missing.
     */
    static predicate CanPair(files: Files, server: Server, path: Path, code: bool, extraPath: seq<nat>, answer: Option<nat>,
                             fails: set<Step>) {
      && InspectConfig !in fails
      && (if code then answer.Some? else BelongsTo(files, path, server))
      && fails !! (if code && path in files then {BackUp, SaveRepaired}
                   else if code then {SavePaired}
                   else if files[path].cfg.extraPath == [] && extraPath != [] then {RecordPath, SecurePath}
                   else {})
    }

    /**
     * ensurePaired. Success means the file holds a configuration for this server; a rejected
     * pairing changes nothing; without a code an existing identity is never replaced.
     */
    method EnsurePaired(server: Server, path: Path, code: bool, extraPath: seq<nat>, answer: Option<nat>, fails: set<Step>)
      returns (r: Outcome)
      requires Valid()
      modifies this`files, this`history
      ensures Valid() && old(history) <= history
      ensures r.Paired? ==> BelongsTo(files, path, server) && files[path].cfg == r.cfg
      ensures (code || path !in old(files)) && answer.None? ==> r.Failed? && files == old(files) && history == old(history)
      ensures !code && !BelongsTo(old(files), path, server) ==> r.Failed? && files == old(files) && history == old(history)
      ensures r.Paired? ==> r.alreadyPaired == !code && r.replacedPrevious == (path in old(files) && code)
      ensures r.Paired? <==> CanPair(old(files), server, path, code, extraPath, answer, fails)
      ensures r.Paired? && code ==> r.cfg == Config(server, answer.value, extraPath)
      ensures r.Paired? && !code ==>
                var was := old(files)[path].cfg; r.cfg == was.(extraPath := if was.extraPath == [] then extraPath else was.extraPath)
      ensures forall i :: |old(history)| <= i < |history| ==>
                PairingStep(old(files), history[i].files, path, code,
                  if code && answer.Some? then Some(Config(server, answer.value, extraPath)) else None)
                && history[i] == Now().(files := history[i].files)
    {
      if InspectConfig in fails { return Failed; }
      if path in files {
        if code {
          r := Repair(server, path, extraPath, answer, fails);
          return;
        }
        if !files[path].Loadable? { return Failed; }
        var cfg := files[path].cfg;
        if cfg.server != server { return Failed; }
        if cfg.extraPath == [] && extraPath != [] {
          cfg := cfg.(extraPath := extraPath);
          var saved := Save(path, cfg, RecordPath !in fails, SecurePath !in fails);
          if !saved { return Failed; }
        }
        return Paired(cfg, true, false);
      }
      if !code { return Failed; }
      if answer.None? { return Failed; }
      var cfg := Config(server, answer.value, extraPath);
      var saved := SaveNew(path, cfg, SavePaired !in fails);
      if !saved { return Failed; }
      return Paired(cfg, false, false);
    }

    // ----- the legacy install -------------------------------------------------------

    /** adoptLegacyConfig: None on an error, else whether a legacy install is to be retired later. */
    method AdoptLegacy(server: Server, path: Path, fails: set<Step>) returns (r: Option<bool>)
      requires Valid() && path != LEGACY
      modifies this`files, this`history
      ensures Valid() && old(history) <= history
      ensures r == Some(true) ==> BelongsTo(old(files), LEGACY, server) && path in files
      ensures r.Some? <==> CanAdopt(old(files), path, server, fails)
      ensures r.Some? ==> r.value == BelongsTo(old(files), LEGACY, server)
      ensures files == if Adopts(old(files), path, server, fails) then old(files)[path := old(files)[LEGACY]] else old(files)
      ensures forall i :: |old(history)| <= i < |history| ==>
                SameElsewhere(old(files), history[i].files, {path}) && history[i] == Now().(files := history[i].files)
    {
      if InspectLegacy in fails { return None; }
      if LEGACY !in files { return Some(false); }
      if !files[LEGACY].Loadable? { return Some(false); }
      if files[LEGACY].cfg.server != server { return Some(false); }
      if path !in files {
        var saved := SaveNew(path, files[LEGACY].cfg, SaveAdopted !in fails);
        if !saved { return None; }
      } else if InspectAdopted in fails {
        return None;
      }
      return Some(true);
    }

    /** A legacy configuration of this server is copied to where there is none. */
    static predicate Adopts(files: Files, path: Path, server: Server, fails: set<Step>) {
      BelongsTo(files, LEGACY, server) && path !in files && InspectLegacy !in fails && SaveAdopted !in fails
    }

    /** When looking for a legacy install to adopt does not fail; most often there is none. */
    static predicate CanAdopt(files: Files, path: Path, server: Server, fails: set<Step>) {
      && InspectLegacy !in fails
      && (BelongsTo(files, LEGACY, server) ==> (if path in files then InspectAdopted else SaveAdopted) !in fails)
    }

    /** The files after the adoption. */
    static function Adopted(files: Files, path: Path, server: Server, fails: set<Step>): Files {
      if Adopts(files, path, server, fails) then files[path := files[LEGACY]] else files
    }

    /** installExecutable changes no configuration. */
    method InstallExecutable(works: bool) returns (ok: bool)
      ensures ok == works
    {
      ok := works;
    }

    /** installService: on success the service runs; on failure it may or may not. */
    method InstallService(fails: set<Step>) returns (ok: bool)
      requires Valid()
      modifies this`service, this`history
      ensures Valid() && history == old(history) + [Now()]
      ensures ok <==> StartService !in fails
      ensures ok ==> service
    {
      ok := StartService !in fails;
      service := ok || StopService !in fails;
      history := history + [Now()];
    }

    method RemoveLegacyService(works: bool)
      requires Valid()
      modifies this`legacyService, this`history
      ensures Valid() && history == old(history) + [Now()]
      ensures legacyService == (old(legacyService) && !works)
    {
      if works { legacyService := false; }
      history := history + [Now()];
    }

    /** With the default path, a legacy install of another server is left alone, and one of this
      * server goes only when the new service runs on a configuration of its own. */
    static ghost predicate LegacySafe(before: Machine, now: Machine, server: Server) {
      (SameElsewhere(before.files, now.files, {NAMESPACED, Previous(NAMESPACED)}) && now.legacyService == before.legacyService)
      || (BelongsTo(before.files, LEGACY, server) && now.service && BelongsTo(now.files, NAMESPACED, server)
          && SameElsewhere(before.files, now.files, {LEGACY, NAMESPACED, Previous(NAMESPACED)}))
    }

    /** Pairing, the executable, the service: install with an explicit path, and part of any other. */
    method PairAndServe(server: Server, path: Path, code: bool, extraPath: seq<nat>, answer: Option<nat>, fails: set<Step>)
      returns (ok: bool)
      requires Valid()
      modifies this`files, this`service, this`history
      ensures Valid() && old(history) <= history
      ensures ok ==> service && BelongsTo(files, path, server)
      ensures ok <==> CanPair(old(files), server, path, code, extraPath, answer, fails) && fails !! {CopyExecutable, StartService}
      ensures code && answer.None? ==> !ok && files == old(files)
      ensures forall i :: |old(history)| <= i < |history| ==>
                SameElsewhere(old(files), history[i].files, {path, Previous(path)}) && history[i].legacyService == legacyService
      ensures SameElsewhere(old(files), files, {path, Previous(path)})
    {
      var outcome := EnsurePaired(server, path, code, extraPath, answer, fails);
      if outcome.Failed? { return false; }
      var executable := InstallExecutable(CopyExecutable !in fails);
      if !executable { return false; }
      ok := InstallService(fails);
    }

    /** The legacy service goes first, then its configuration; failures are ignored. */
    method RetireLegacy(fails: set<Step>)
      requires Valid()
      modifies this`files, this`legacyService, this`history
      ensures Valid() && old(history) <= history
      ensures SameElsewhere(old(files), files, {LEGACY})
      ensures legacyService == (old(legacyService) && StopLegacy in fails)
      ensures LEGACY in files <==> LEGACY in old(files) && RemoveLegacy in fails
      ensures forall i :: |old(history)| <= i < |history| ==>
                SameElsewhere(old(files), history[i].files, {LEGACY}) && history[i].service == service
    {
      RemoveLegacyService(StopLegacy !in fails);
      Remove(LEGACY, RemoveLegacy !in fails);
    }

    /** install with the default path, from the adoption on; the checks before it touch nothing. */
    method InstallDefault(server: Server, code: bool, extraPath: seq<nat>, answer: Option<nat>, fails: set<Step>)
      returns (ok: bool)
      requires Valid()
      modifies this
      ensures Valid() && old(history) <= history
      ensures ok ==> service && BelongsTo(files, NAMESPACED, server)
      ensures ok <==>
                && CanAdopt(old(files), NAMESPACED, server, fails)
                && CanPair(Adopted(old(files), NAMESPACED, server, fails), server, NAMESPACED, code, extraPath, answer, fails)
                && fails !! {CopyExecutable, StartService}
      ensures ok && BelongsTo(old(files), LEGACY, server) ==>
                && legacyService == (old(legacyService) && StopLegacy in fails)
                && (LEGACY in files <==> RemoveLegacy in fails)
      ensures !ok || !BelongsTo(old(files), LEGACY, server) ==>
                legacyService == old(legacyService) && SameElsewhere(old(files), files, {NAMESPACED, Previous(NAMESPACED)})
      ensures code && answer.None? ==>
                !ok && files == if Adopts(old(files), NAMESPACED, server, fails)
                                then old(files)[NAMESPACED := old(files)[LEGACY]] else old(files)
      ensures forall i :: |old(history)| <= i < |history| ==> LegacySafe(old(Now()), history[i], server)
    {
      ghost var before := Now();
      var adoption := AdoptLegacy(server, NAMESPACED, fails);
      ghost var h1, files1 := |history|, files;
      SameWider(before.files, files1);
      if adoption.None? {
        return false;
      }
      ok := PairAndServe(server, NAMESPACED, code, extraPath, answer, fails);
      ghost var h2, files2 := |history|, files;
      forall i | h1 <= i < h2 ensures SameElsewhere(before.files, history[i].files, {NAMESPACED, Previous(NAMESPACED)}) {
        SameAgain(before.files, files1, history[i].files);
      }
      SameAgain(before.files, files1, files2);
      if ok && adoption.value {
        RetireLegacy(fails);
        forall i | h2 <= i < |history| ensures LegacySafe(before, history[i], server) {
          RetiredSafely(before.files, files2, history[i].files, server);
        }
        RetiredSafely(before.files, files2, files, server);
      }
    }
  }

  lemma SameWider(before: Files, after: Files)
    requires SameElsewhere(before, after, {NAMESPACED})
    ensures SameElsewhere(before, after, {NAMESPACED, Previous(NAMESPACED)})
  {
  }

  lemma SameAgain(a: Files, b: Files, c: Files)
    requires SameElsewhere(a, b, {NAMESPACED, Previous(NAMESPACED)}) && SameElsewhere(b, c, {NAMESPACED, Previous(NAMESPACED)})
    ensures SameElsewhere(a, c, {NAMESPACED, Previous(NAMESPACED)})
  {
  }

  lemma RetiredSafely(a: Files, b: Files, c: Files, server: Server)
    requires SameElsewhere(a, b, {NAMESPACED, Previous(NAMESPACED)}) && SameElsewhere(b, c, {LEGACY})
    requires BelongsTo(b, NAMESPACED, server)
    ensures SameElsewhere(a, c, {LEGACY, NAMESPACED, Previous(NAMESPACED)}) && BelongsTo(c, NAMESPACED, server)
  {
    assert NAMESPACED !in {LEGACY};
  }
}
