/**
 * The imperative side of `src/pki.rs`: the associated functions of `Pki`
 * as methods of a machine holding the file system (a map from path to
 * contents, updated in place) and the outside world's answers (`env`).
 * `trace` records every side effect tried, in order.  Each method is
 * proved to do what `Issuance.Exec` says of its own steps, and `NewPki`
 * what `Issuance.NewSpec` says of a whole run.
 */
module Pki {
  import opened Paths
  import opened Ipv4
  import opened Documents
  import opened Issuance

  class Machine {
    const env: Env
    var dirs: set<Path>
    var files: map<Path, File>
    ghost var trace: seq<Step>

    function State(): Fs
      reads this
    {
      Fs(dirs, files)
    }

    constructor (env: Env, dirs: set<Path>, files: map<Path, File>)
      ensures this.env == env && State() == Fs(dirs, files) && trace == []
    {
      this.env := env;
      this.dirs := dirs;
      this.files := files;
      trace := [];
    }

    /** `create_dir_all`. */
    method CreateDirAll(dir: Path) returns (r: Result<()>)
      modifies this
      ensures var run := Exec(env, old(State()), [MakeDirAll(dir)]);
        State() == run.fs && trace == old(trace) + run.attempted && r == Finish(run, ())
    {
      ExecSingle(env, State(), MakeDirAll(dir));
      trace := trace + [MakeDirAll(dir)];
      if env.mkdirOk(dir) {
        dirs := dirs + {dir};
        r := Ok(());
      } else {
        r := Err(DirCreateFailed(dir));
      }
    }

    /** `fs::write` of a serialized document. */
    method WriteFile(dest: Path, doc: Document) returns (r: Result<()>)
      modifies this
      ensures var run := Exec(env, old(State()), [WriteDocument(dest, doc)]);
        State() == run.fs && trace == old(trace) + run.attempted && r == Finish(run, ())
    {
      ExecSingle(env, State(), WriteDocument(dest, doc));
      trace := trace + [WriteDocument(dest, doc)];
      if env.writeOk(dest, doc) {
        files := files[dest := Written(doc)];
        r := Ok(());
      } else {
        r := Err(WriteFailed(dest));
      }
    }

    /** `cfssl gencert ... | cfssljson -bare <bare>`: on success the PEM pair appears. */
    method RunSigner(call: Invocation) returns (r: Result<()>)
      modifies this
      ensures var run := Exec(env, old(State()), [RunEngine(call)]);
        State() == run.fs && trace == old(trace) + run.attempted && r == Finish(run, ())
    {
      ExecSingle(env, State(), RunEngine(call));
      trace := trace + [RunEngine(call)];
      if env.engineOk(call) {
        files := files[CertPath(call) := Certificate(call)][KeyPath(call) := PrivateKey(call)];
        r := Ok(());
      } else {
        r := Err(if call.InitCa? then CaGenerationFailed else CfsslFailed);
      }
    }

    /** `write_csr`: stores the CSR document for (`cn`, `o`) at `dest`. */
    method WriteCsr(cn: string, o: string, dest: Path) returns (r: Result<()>)
      modifies this
      ensures var run := Exec(env, old(State()), [WriteDocument(dest, Csr(cn, o))]);
        State() == run.fs && trace == old(trace) + run.attempted && r == Finish(run, ())
      ensures r.Ok? <==> env.writeOk(dest, Csr(cn, o))
      ensures dirs == old(dirs)
      ensures files == if r.Ok? then old(files)[dest := Written(Csr(cn, o))] else old(files)
    {
      ExecSingle(env, State(), WriteDocument(dest, Csr(cn, o)));
      r := WriteFile(dest, Csr(cn, o));
    }

    /** `write_ca_config`: stores the signing configuration and returns its path. */
    method WriteCaConfig(dir: Path) returns (r: Result<Path>)
      modifies this
      ensures var run := Exec(env, old(State()), ConfigSteps(dir));
        State() == run.fs && trace == old(trace) + run.attempted
        && r == Finish(run, Join(dir, "ca-config.json"))
    {
      var dest := Join(dir, "ca-config.json");
      var w := WriteFile(dest, CaConfig);
      if w.Err? {
        r := Err(w.error);
        return;
      }
      r := Ok(dest);
    }

    /** `setup_ca`: writes the CA's CSR and self-signs it. */
    method SetupCa(dir: Path) returns (r: Result<Pair>)
      modifies this
      ensures var run := Exec(env, old(State()), CaSteps(dir));
        State() == run.fs && trace == old(trace) + run.attempted
        && r == Finish(run, NewPair(dir, CaIdentity.name))
    {
      var name := "ca";
      var cn := "Kubernetes";
      var csr := Join(dir, "ca-csr.json");
      ghost var before, done := State(), trace;
      ghost var write, sign := CaSteps(dir)[0], CaSteps(dir)[1];
      assert CaSteps(dir) == [write] + [sign];
      var w := WriteCsr(cn, cn, csr);
      if w.Err? {
        SequenceFailed(env, before, [write], [sign]);
        r := Err(w.error);
        return;
      }
      SequenceOk(env, before, [write], [sign]);
      ThenTrace(done, Exec(env, before, [write]).attempted, Exec(env, State(), [sign]));
      var e := RunSigner(InitCa(csr, Join(dir, name)));
      if e.Err? {
        r := Err(e.error);
        return;
      }
      r := Ok(NewPair(dir, name));
    }

    /** `generate`: has the CSR at `csr` signed under the shared context, into `<dir>/<name>`. */
    method Generate(cfg: PkiConfig, name: string, csr: Path) returns (r: Result<Pair>)
      modifies this
      ensures var call := GenCert(cfg.ca, cfg.caConfig, "kubernetes", cfg.hostnames, csr, Join(cfg.dir, name));
        var run := Exec(env, old(State()), [RunEngine(call)]);
        State() == run.fs && trace == old(trace) + run.attempted && r == Finish(run, NewPair(cfg.dir, name))
    {
      var e := RunSigner(GenCert(cfg.ca, cfg.caConfig, "kubernetes", cfg.hostnames, csr, Join(cfg.dir, name)));
      if e.Err? {
        r := Err(e.error);
        return;
      }
      r := Ok(NewPair(cfg.dir, name));
    }

    /** `setup_kubelet`. */
    method SetupKubelet(cfg: PkiConfig, hostname: string) returns (r: Result<Pair>)
      modifies this
      ensures var run := Exec(env, old(State()), LeafSteps(cfg, Kubelet(hostname)));
        State() == run.fs && trace == old(trace) + run.attempted
        && r == Finish(run, LeafPair(cfg.dir, Kubelet(hostname)))
    {
      var name := "system:node:" + hostname;
      var csrFile := Join(cfg.dir, "node-csr.json");
      ghost var before, done := State(), trace;
      assert LeafSteps(cfg, Kubelet(hostname))
          == [LeafWrite(cfg, Kubelet(hostname))] + [RunEngine(LeafCall(cfg, Kubelet(hostname)))];
      var w := WriteCsr(name, "system:nodes", csrFile);
      if w.Err? {
        SequenceFailed(env, before, [LeafWrite(cfg, Kubelet(hostname))], [RunEngine(LeafCall(cfg, Kubelet(hostname)))]);
        r := Err(w.error);
        return;
      }
      SequenceOk(env, before, [LeafWrite(cfg, Kubelet(hostname))], [RunEngine(LeafCall(cfg, Kubelet(hostname)))]);
      ghost var x := Exec(env, before, [LeafWrite(cfg, Kubelet(hostname))]);
      ghost var y := Exec(env, State(), [RunEngine(LeafCall(cfg, Kubelet(hostname)))]);
      ThenTrace(done, x.attempted, y);
      r := Generate(cfg, hostname, csrFile);
    }

    /** `setup_admin`. */
    method SetupAdmin(cfg: PkiConfig) returns (r: Result<Pair>)
      modifies this
      ensures var run := Exec(env, old(State()), LeafSteps(cfg, Admin));
        State() == run.fs && trace == old(trace) + run.attempted
        && r == Finish(run, LeafPair(cfg.dir, Admin))
    {
      var name := "admin";
      var csrFile := Join(cfg.dir, "admin-csr.json");
      ghost var before, done := State(), trace;
      assert LeafSteps(cfg, Admin)
          == [LeafWrite(cfg, Admin)] + [RunEngine(LeafCall(cfg, Admin))];
      var w := WriteCsr(name, "system:masters", csrFile);
      if w.Err? {
        SequenceFailed(env, before, [LeafWrite(cfg, Admin)], [RunEngine(LeafCall(cfg, Admin))]);
        r := Err(w.error);
        return;
      }
      SequenceOk(env, before, [LeafWrite(cfg, Admin)], [RunEngine(LeafCall(cfg, Admin))]);
      ghost var x := Exec(env, before, [LeafWrite(cfg, Admin)]);
      ghost var y := Exec(env, State(), [RunEngine(LeafCall(cfg, Admin))]);
      ThenTrace(done, x.attempted, y);
      r := Generate(cfg, name, csrFile);
    }

    /** `setup_controller_manager`. */
    method SetupControllerManager(cfg: PkiConfig) returns (r: Result<Pair>)
      modifies this
      ensures var run := Exec(env, old(State()), LeafSteps(cfg, ControllerManager));
        State() == run.fs && trace == old(trace) + run.attempted
        && r == Finish(run, LeafPair(cfg.dir, ControllerManager))
    {
      var name := "kube-controller-manager";
      var cn := "system:kube-controller-manager";
      var csrFile := Join(cfg.dir, "kube-controller-manager-csr.json");
      ghost var before, done := State(), trace;
      assert LeafSteps(cfg, ControllerManager)
          == [LeafWrite(cfg, ControllerManager)] + [RunEngine(LeafCall(cfg, ControllerManager))];
      var w := WriteCsr(cn, cn, csrFile);
      if w.Err? {
        SequenceFailed(env, before, [LeafWrite(cfg, ControllerManager)], [RunEngine(LeafCall(cfg, ControllerManager))]);
        r := Err(w.error);
        return;
      }
      SequenceOk(env, before, [LeafWrite(cfg, ControllerManager)], [RunEngine(LeafCall(cfg, ControllerManager))]);
      ghost var x := Exec(env, before, [LeafWrite(cfg, ControllerManager)]);
      ghost var y := Exec(env, State(), [RunEngine(LeafCall(cfg, ControllerManager))]);
      ThenTrace(done, x.attempted, y);
      r := Generate(cfg, name, csrFile);
    }

    /** `setup_proxy`: note that it writes its CSR over the administrator's. */
    method SetupProxy(cfg: PkiConfig) returns (r: Result<Pair>)
      modifies this
      ensures var run := Exec(env, old(State()), LeafSteps(cfg, Proxy));
        State() == run.fs && trace == old(trace) + run.attempted
        && r == Finish(run, LeafPair(cfg.dir, Proxy))
    {
      var name := "kube-proxy";
      var csrFile := Join(cfg.dir, "admin-csr.json");
      ghost var before, done := State(), trace;
      assert LeafSteps(cfg, Proxy)
          == [LeafWrite(cfg, Proxy)] + [RunEngine(LeafCall(cfg, Proxy))];
      var w := WriteCsr("system:kube-proxy", "system:node-proxier", csrFile);
      if w.Err? {
        SequenceFailed(env, before, [LeafWrite(cfg, Proxy)], [RunEngine(LeafCall(cfg, Proxy))]);
        r := Err(w.error);
        return;
      }
      SequenceOk(env, before, [LeafWrite(cfg, Proxy)], [RunEngine(LeafCall(cfg, Proxy))]);
      ghost var x := Exec(env, before, [LeafWrite(cfg, Proxy)]);
      ghost var y := Exec(env, State(), [RunEngine(LeafCall(cfg, Proxy))]);
      ThenTrace(done, x.attempted, y);
      r := Generate(cfg, name, csrFile);
    }

    /** `setup_scheduler`. */
    method SetupScheduler(cfg: PkiConfig) returns (r: Result<Pair>)
      modifies this
      ensures var run := Exec(env, old(State()), LeafSteps(cfg, Scheduler));
        State() == run.fs && trace == old(trace) + run.attempted
        && r == Finish(run, LeafPair(cfg.dir, Scheduler))
    {
      var name := "kube-scheduler";
      var csrFile := Join(cfg.dir, "kube-scheduler-csr.json");
      var cn := "system:kube-scheduler";
      ghost var before, done := State(), trace;
      assert LeafSteps(cfg, Scheduler)
          == [LeafWrite(cfg, Scheduler)] + [RunEngine(LeafCall(cfg, Scheduler))];
      var w := WriteCsr(cn, cn, csrFile);
      if w.Err? {
        SequenceFailed(env, before, [LeafWrite(cfg, Scheduler)], [RunEngine(LeafCall(cfg, Scheduler))]);
        r := Err(w.error);
        return;
      }
      SequenceOk(env, before, [LeafWrite(cfg, Scheduler)], [RunEngine(LeafCall(cfg, Scheduler))]);
      ghost var x := Exec(env, before, [LeafWrite(cfg, Scheduler)]);
      ghost var y := Exec(env, State(), [RunEngine(LeafCall(cfg, Scheduler))]);
      ThenTrace(done, x.attempted, y);
      r := Generate(cfg, name, csrFile);
    }

    /** `setup_apiserver`. */
    method SetupApiServer(cfg: PkiConfig) returns (r: Result<Pair>)
      modifies this
      ensures var run := Exec(env, old(State()), LeafSteps(cfg, ApiServer));
        State() == run.fs && trace == old(trace) + run.attempted
        && r == Finish(run, LeafPair(cfg.dir, ApiServer))
    {
      var name := "kubernetes";
      var csrFile := Join(cfg.dir, "kubernetes-csr.json");
      ghost var before, done := State(), trace;
      assert LeafSteps(cfg, ApiServer)
          == [LeafWrite(cfg, ApiServer)] + [RunEngine(LeafCall(cfg, ApiServer))];
      var w := WriteCsr(name, name, csrFile);
      if w.Err? {
        SequenceFailed(env, before, [LeafWrite(cfg, ApiServer)], [RunEngine(LeafCall(cfg, ApiServer))]);
        r := Err(w.error);
        return;
      }
      SequenceOk(env, before, [LeafWrite(cfg, ApiServer)], [RunEngine(LeafCall(cfg, ApiServer))]);
      ghost var x := Exec(env, before, [LeafWrite(cfg, ApiServer)]);
      ghost var y := Exec(env, State(), [RunEngine(LeafCall(cfg, ApiServer))]);
      ThenTrace(done, x.attempted, y);
      r := Generate(cfg, name, csrFile);
    }

    /** `setup_service_account`. */
    method SetupServiceAccount(cfg: PkiConfig) returns (r: Result<Pair>)
      modifies this
      ensures var run := Exec(env, old(State()), LeafSteps(cfg, ServiceAccount));
        State() == run.fs && trace == old(trace) + run.attempted
        && r == Finish(run, LeafPair(cfg.dir, ServiceAccount))
    {
      var name := "service-account";
      var csrFile := Join(cfg.dir, "service-account-csr.json");
      ghost var before, done := State(), trace;
      assert LeafSteps(cfg, ServiceAccount)
          == [LeafWrite(cfg, ServiceAccount)] + [RunEngine(LeafCall(cfg, ServiceAccount))];
      var w := WriteCsr("service-accounts", "Kubernetes", csrFile);
      if w.Err? {
        SequenceFailed(env, before, [LeafWrite(cfg, ServiceAccount)], [RunEngine(LeafCall(cfg, ServiceAccount))]);
        r := Err(w.error);
        return;
      }
      SequenceOk(env, before, [LeafWrite(cfg, ServiceAccount)], [RunEngine(LeafCall(cfg, ServiceAccount))]);
      ghost var x := Exec(env, before, [LeafWrite(cfg, ServiceAccount)]);
      ghost var y := Exec(env, State(), [RunEngine(LeafCall(cfg, ServiceAccount))]);
      ThenTrace(done, x.attempted, y);
      r := Generate(cfg, name, csrFile);
    }

    /** The `setup_*` function of a leaf role. */
    method SetupLeaf(cfg: PkiConfig, role: Role) returns (r: Result<Pair>)
      modifies this
      ensures var run := Exec(env, old(State()), LeafSteps(cfg, role));
        State() == run.fs && trace == old(trace) + run.attempted
        && r == Finish(run, LeafPair(cfg.dir, role))
    {
      match role
      case Admin => r := SetupAdmin(cfg);
      case ApiServer => r := SetupApiServer(cfg);
      case ControllerManager => r := SetupControllerManager(cfg);
      case Kubelet(hostname) => r := SetupKubelet(cfg, hostname);
      case Proxy => r := SetupProxy(cfg);
      case Scheduler => r := SetupScheduler(cfg);
      case ServiceAccount => r := SetupServiceAccount(cfg);
    }

    /**
     * The field initialisers of the `Pki` literal: each leaf of `roles` in
     * turn, stopping at the first that fails (each initialiser's `?`).
     */
    method IssueLeaves(cfg: PkiConfig, roles: seq<Role>) returns (r: Result<seq<Pair>>)
      modifies this
      ensures var run := Exec(env, old(State()), LeavesPlan(cfg, roles));
        State() == run.fs && trace == old(trace) + run.attempted
        && r == Finish(run, LeafPairs(cfg.dir, roles))
      decreases |roles|
    {
      if |roles| == 0 {
        r := Ok([]);
        return;
      }
      ghost var before, done := State(), trace;
      ghost var rest := LeavesPlan(cfg, roles[1..]);
      var first := SetupLeaf(cfg, roles[0]);
      if first.Err? {
        SequenceFailed(env, before, LeafSteps(cfg, roles[0]), rest);
        r := Err(first.error);
        return;
      }
      SequenceOk(env, before, LeafSteps(cfg, roles[0]), rest);
      ghost var x := Exec(env, before, LeafSteps(cfg, roles[0]));
      ThenTrace(done, x.attempted, Exec(env, State(), rest));
      var others := IssueLeaves(cfg, roles[1..]);
      if others.Err? {
        r := Err(others.error);
        return;
      }
      r := Ok([first.value] + others.value);
    }

    /**
     * The second half of `Pki::new`: the CA, the signing configuration and
     * the `Pki` literal, for the directory `dir` and the joined host names.
     */
    method Issue(dir: Path, hostnames: string, hostname: string) returns (r: Result<Bundle>)
      modifies this
      ensures var run := Exec(env, old(State()), IssuancePlan(dir, hostnames, hostname));
        State() == run.fs && trace == old(trace) + run.attempted
        && r == Finish(run, ExpectedBundle(dir, hostname))
    {
      ghost var cfg := SharedConfig(dir, hostnames);
      ghost var leafPlan := LeavesPlan(cfg, LeafRoles(hostname));
      ghost var fs0 := State();
      var ca := SetupCa(dir);
      ghost var x := Exec(env, fs0, CaSteps(dir));
      if ca.Err? {
        SequenceFailed(env, fs0, CaSteps(dir), ConfigSteps(dir) + leafPlan);
        r := Err(ca.error);
        return;
      }
      SequenceOk(env, fs0, CaSteps(dir), ConfigSteps(dir) + leafPlan);
      ghost var fs1 := State();
      var caConfig := WriteCaConfig(dir);
      ghost var y := Exec(env, fs1, ConfigSteps(dir));
      if caConfig.Err? {
        SequenceFailed(env, fs1, ConfigSteps(dir), leafPlan);
        Regroup(old(trace), x.attempted, y.attempted);
        r := Err(caConfig.error);
        return;
      }
      SequenceOk(env, fs1, ConfigSteps(dir), leafPlan);
      var pkiConfig := PkiConfig(ca.value, caConfig.value, dir, hostnames);
      assert pkiConfig == cfg;
      ghost var fs2 := State();
      var leaves := IssueLeaves(pkiConfig, LeafRoles(hostname));
      ghost var z := Exec(env, fs2, leafPlan);
      Regroup4(old(trace), x.attempted, y.attempted, z.attempted);
      if leaves.Err? {
        r := Err(leaves.error);
        return;
      }
      LeafPairsInOrder(dir, hostname);
      r := Ok(Bundle(leaves.value[0], leaves.value[1], ca.value, leaves.value[2], leaves.value[3],
                     leaves.value[4], leaves.value[5], leaves.value[6]));
    }

    /**
     * `Pki::new`: creates the PKI directory, finds the first service
     * address, then issues the CA, the signing configuration and the seven
     * leaves in order, stopping at the first failure.
     */
    method NewPki(root: Path, pkiDir: Path, net: IpNetwork, ip: string, hostname: string)
      returns (r: Result<Bundle>)
      modifies this
      ensures var o := NewSpec(env, old(State()), root, pkiDir, net, ip, hostname);
        r == o.result && State() == o.fs && trace == old(trace) + o.trace
    {
      var dir := Join(root, pkiDir);
      var made := CreateDirAll(dir);
      ExecSingle(env, old(State()), MakeDirAll(dir));
      if made.Err? {
        r := Err(made.error);
        return;
      }
      var service := FirstServiceAddr(net);
      if service.None? {
        r := Err(NoFirstServiceAddr(net));
        return;
      }
      var hostnames := Hostnames(ip, service.value, hostname);
      ghost var fs0 := State();
      r := Issue(dir, hostnames, hostname);
      Regroup(old(trace), [MakeDirAll(dir)], Exec(env, fs0, IssuancePlan(dir, hostnames, hostname)).attempted);
    }
  }
}
