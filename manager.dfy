/** `Manager` of internal/service/manager.go: the reconciler that owns the
    service set, rewrites the nginx configuration and signals nginx to reload.
    The I/O each pass performs is given as a `World` of outcomes; its effects
    outside the process are kept in two ghost fields. */
module Manager {
  import opened Outcomes
  import opened ServiceModel
  import opened GoFmt
  import opened Reconcile

  class Manager {
    const servicesDir: string
    const nginxConfPath: string
    const nginxPidPath: string
    var services: ServiceConfig

    /** What this manager has left in the file at `nginxConfPath`; its text is `FileText(configFile)`. */
    ghost var configFile: ConfigFile
    /** The PIDs to which this manager has delivered SIGHUP, oldest first. */
    ghost var reloadSignals: seq<int>

    /** `NewManager`: the three paths and an empty service set. */
    constructor (servicesDir: string, nginxConfPath: string, nginxPidPath: string)
      ensures this.servicesDir == servicesDir && this.nginxConfPath == nginxConfPath
      ensures this.nginxPidPath == nginxPidPath
      ensures services == ServiceConfig([])
      ensures configFile == Untouched && reloadSignals == []
    {
      this.servicesDir := servicesDir;
      this.nginxConfPath := nginxConfPath;
      this.nginxPidPath := nginxPidPath;
      services := ServiceConfig([]);
      configFile := Untouched;
      reloadSignals := [];
    }

    /** One reconciliation pass. A listing error leaves everything as it was.
        Otherwise the set becomes exactly the valid records of this pass, in
        enumeration order, whatever happens afterwards; then the configuration
        is rendered from it and written, and nginx is signalled. */
    method LoadServices(world: World) returns (err: Option<Error>)
      modifies this
      ensures world.glob.GlobFailed? ==>
                services == old(services) && configFile == old(configFile) && reloadSignals == old(reloadSignals)
      ensures world.glob.Matched? ==>
                && services == ServiceConfig(Accepted(world.glob.files))
                && configFile == ConfigFileAfter(old(configFile), services, world.write)
                && reloadSignals == old(reloadSignals) + Signalled(world)
      ensures err == PassError(world)
    {
      if world.glob.GlobFailed? {
        return Some(ListFilesFailed);
      }
      var files := world.glob.files;

      services := services.(services := []);

      if |files| == 0 {
        err := GenerateConfig(world);
        return;
      }

      var accepted: seq<Service> := [];
      var i := 0;
      while i < |files|
        invariant 0 <= i <= |files|
        invariant accepted == Accepted(files[..i])
      {
        assert files[..i + 1][..i] == files[..i];
        match files[i] {
          case ReadFailed =>
          case ParseFailed =>
          case Parsed(service) =>
            if IsValid(service) {
              accepted := accepted + [service];
            }
        }
        i := i + 1;
      }
      assert files[..|files|] == files;

      services := services.(services := accepted);

      err := GenerateConfig(world);
      if err.Some? {
        err := Some(GenerateFailed(err.value));
      }
    }

    /** `generateConfig`: create (truncating) the configuration file, execute
        the template on the current set into it, and reload nginx once the
        whole text has been written. */
    method GenerateConfig(world: World) returns (err: Option<Error>)
      modifies this`configFile, this`reloadSignals
      ensures configFile == ConfigFileAfter(old(configFile), services, world.write)
      ensures reloadSignals == old(reloadSignals) + Signalled(world)
      ensures err == GenerateError(world)
    {
      err := WriteConfigFile(world.write);
      if err.Some? {
        return;
      }
      err := ReloadNginx(world);
    }

    /** `os.Create` then `tmpl.Execute`: creating the file truncates it, so
        only a create failure leaves the previous content; the error is that
        of the step that failed. */
    method WriteConfigFile(write: WriteOutcome) returns (err: Option<Error>)
      modifies this`configFile
      ensures configFile == ConfigFileAfter(old(configFile), services, write)
      ensures err.None? <==> write.Written?
      ensures write.CreateFailed? ==> err == Some(CreateConfigFailed)
      ensures write.ExecuteFailed? ==> err == Some(ExecuteTemplateFailed)
    {
      if write.CreateFailed? {
        return Some(CreateConfigFailed);
      }
      configFile := ConfigFileAfter(configFile, services, write);
      if write.ExecuteFailed? {
        return Some(ExecuteTemplateFailed);
      }
      return None;
    }

    /** `reloadNginx`: read the PID file, parse the PID, find the process and
        send it SIGHUP; the first stage that fails decides the error, and the
        signal is recorded only once it has been delivered. */
    method ReloadNginx(world: World) returns (err: Option<Error>)
      modifies this`reloadSignals
      ensures var r := Reload(world.pidFile, world.processFound, world.signalDelivered);
              && err == (if r.Success? then None else Some(r.error))
              && reloadSignals == old(reloadSignals) + (if r.Success? then [r.value] else [])
    {
      if world.pidFile.None? {
        return Some(ReadPidFailed);
      }
      var scanned := ScanInt(world.pidFile.value);
      if scanned.None? {
        return Some(ParsePidFailed);
      }
      var pid := scanned.value;
      if !world.processFound {
        return Some(FindProcessFailed);
      }
      if !world.signalDelivered {
        return Some(SignalFailed);
      }
      reloadSignals := reloadSignals + [pid];
      return None;
    }

    /** `GetServices`: the current set, in order. */
    method GetServices() returns (ss: seq<Service>)
      ensures ss == services.services
    {
      return services.services;
    }
  }
}
