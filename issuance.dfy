/**
 * The certificate issuance workflow of `src/pki.rs` as data: the side
 * effects a run performs (`Step`), which of them succeed (`Env`, the
 * outside world as an oracle), the fail-fast execution of a list of steps
 * (`Exec`), the role table, the plan of a whole run and its outcome
 * (`NewSpec`).  The methods of `Pki.Machine` are proved to behave as these
 * functions say, and the lemmas here state what a run guarantees.
 */
module Issuance {
  import opened Options
  import opened Strings
  import opened Paths
  import opened Ipv4
  import opened Documents

  /**
   * One run of the signing engine, `cfssl gencert ... | cfssljson -bare <bare>`:
   * self-signing the CA from a CSR file, or signing a leaf CSR with the CA pair,
   * the signing configuration, a profile and the comma-joined host names.
   */
  datatype Invocation =
    | InitCa(csr: Path, bare: Path)
    | GenCert(ca: Pair, config: Path, profile: string, hostname: string, csr: Path, bare: Path)

  /** What a file holds: a document we wrote, or PEM output of an engine run. */
  datatype File =
    | Written(doc: Document)
    | Certificate(issuedBy: Invocation)
    | PrivateKey(issuedBy: Invocation)

  datatype Fs = Fs(dirs: set<Path>, files: map<Path, File>)

  /** The side effects of a run: `create_dir_all`, `fs::write` and one engine run. */
  datatype Step =
    | MakeDirAll(dir: Path)
    | WriteDocument(dest: Path, doc: Document)
    | RunEngine(call: Invocation)

  /**
   * The outside world: whether each directory creation, each write of a
   * document to a path, and each engine run succeeds.  An answer depends on
   * the step (the directory; the destination and the document; the
   * invocation), not on the file system at the time.  No step of a run is
   * repeated, so each of them can be the one that fails.
   */
  datatype Env = Env(mkdirOk: Path -> bool, writeOk: (Path, Document) -> bool, engineOk: Invocation -> bool)

  function StepOk(env: Env, s: Step): bool
  {
    match s
    case MakeDirAll(d) => env.mkdirOk(d)
    case WriteDocument(p, doc) => env.writeOk(p, doc)
    case RunEngine(call) => env.engineOk(call)
  }

  /** The certificate file `cfssljson -bare <bare>` writes. */
  function CertPath(call: Invocation): Path
  {
    call.bare + ".pem"
  }

  /** The private key file `cfssljson -bare <bare>` writes. */
  function KeyPath(call: Invocation): Path
  {
    call.bare + "-key.pem"
  }

  /** The effect of a step that succeeded. */
  function Apply(fs: Fs, s: Step): Fs
  {
    match s
    case MakeDirAll(d) => fs.(dirs := fs.dirs + {d})
    case WriteDocument(p, doc) => fs.(files := fs.files[p := Written(doc)])
    case RunEngine(call) =>
      fs.(files := fs.files[CertPath(call) := Certificate(call)][KeyPath(call) := PrivateKey(call)])
  }

  /** The effects of all the steps, in order. */
  function ApplyAll(fs: Fs, steps: seq<Step>): Fs
    decreases |steps|
  {
    if |steps| == 0 then fs else ApplyAll(Apply(fs, steps[0]), steps[1..])
  }

  /** The result of running steps: the new state, the steps tried, and the one that failed. */
  datatype Run = Run(fs: Fs, attempted: seq<Step>, failed: Option<Step>)

  /** Runs `steps` in order and stops at the first that fails (every `?` of the source). */
  function Exec(env: Env, fs: Fs, steps: seq<Step>): Run
    decreases |steps|
  {
    if |steps| == 0 then Run(fs, [], None)
    else if !StepOk(env, steps[0]) then Run(fs, [steps[0]], Some(steps[0]))
    else
      var rest := Exec(env, Apply(fs, steps[0]), steps[1..]);
      Run(rest.fs, [steps[0]] + rest.attempted, rest.failed)
  }

  /**
   * The steps a run tried are a prefix of its steps; all of them when
   * nothing failed, and otherwise ending with the one that failed.
   */
  lemma {:induction false} ExecShape(env: Env, fs: Fs, steps: seq<Step>)
    ensures var r := Exec(env, fs, steps);
      |r.attempted| <= |steps| && r.attempted == steps[..|r.attempted|]
      && (r.failed.None? ==> r.attempted == steps)
      && (r.failed.Some? ==>
            |r.attempted| >= 1 && r.failed.value == r.attempted[|r.attempted| - 1]
            && !StepOk(env, r.failed.value))
      && (forall k :: 0 <= k < |r.attempted| - 1 ==> StepOk(env, r.attempted[k]))
    decreases |steps|
  {
    if |steps| > 0 && StepOk(env, steps[0]) {
      var rest := Exec(env, Apply(fs, steps[0]), steps[1..]);
      ExecShape(env, Apply(fs, steps[0]), steps[1..]);
      assert steps == [steps[0]] + steps[1..];
      var r := Exec(env, fs, steps);
      assert r.attempted == [steps[0]] + rest.attempted;
      if rest.failed.Some? {
        assert r.attempted[|r.attempted| - 1] == rest.attempted[|rest.attempted| - 1];
      }
      forall k | 1 <= k < |r.attempted| - 1
        ensures StepOk(env, r.attempted[k])
      {
        assert r.attempted[k] == rest.attempted[k - 1];
      }
    }
  }

  /** Proof hint: a single step, unfolded. */
  lemma ExecSingle(env: Env, fs: Fs, s: Step)
    ensures Exec(env, fs, [s])
         == if StepOk(env, s) then Run(Apply(fs, s), [s], None) else Run(fs, [s], Some(s))
  {
    assert [s][1..] == [];
    if StepOk(env, s) {
      assert [s] + [] == [s];
    }
  }

  /** Running two steps is running the first and, if it succeeds, the second. */
  lemma ExecPair(env: Env, fs: Fs, a: Step, b: Step)
    ensures var x := Exec(env, fs, [a]);
      Exec(env, fs, [a, b]) == if x.failed.Some? then x else Then(x.attempted, Exec(env, x.fs, [b]))
  {
    ExecAppend(env, fs, [a], [b]);
    assert [a] + [b] == [a, b];
  }

  /** Running `p` then `q` from a method: the traces and states compose. */
  lemma SequenceOk(env: Env, fs: Fs, p: seq<Step>, q: seq<Step>)
    requires Exec(env, fs, p).failed.None?
    ensures Exec(env, fs, p + q) == Then(Exec(env, fs, p).attempted, Exec(env, Exec(env, fs, p).fs, q))
  {
    ExecAppend(env, fs, p, q);
  }

  /** Proof hints: regrouping the traces that consecutive method calls append. */
  lemma Regroup(a: seq<Step>, b: seq<Step>, c: seq<Step>)
    ensures (a + b) + c == a + (b + c)
  {
  }

  lemma Regroup4(a: seq<Step>, b: seq<Step>, c: seq<Step>, d: seq<Step>)
    ensures ((a + b) + c) + d == a + (b + (c + d))
  {
  }

  lemma Regroup5(a: seq<Step>, b: seq<Step>, c: seq<Step>, d: seq<Step>, e: seq<Step>)
    ensures (((a + b) + c) + d) + e == a + (b + (c + (d + e)))
  {
  }

  /** Proof hint: steps done before a run, then the run's own, are the trace a method leaves. */
  lemma ThenTrace(before: seq<Step>, done: seq<Step>, run: Run)
    ensures before + Then(done, run).attempted == (before + done) + run.attempted
  {
  }

  lemma SequenceFailed(env: Env, fs: Fs, p: seq<Step>, q: seq<Step>)
    requires Exec(env, fs, p).failed.Some?
    ensures Exec(env, fs, p + q) == Exec(env, fs, p)
  {
    ExecAppend(env, fs, p, q);
  }

  /** `run` preceded by steps already done. */
  function Then(done: seq<Step>, run: Run): Run
  {
    Run(run.fs, done + run.attempted, run.failed)
  }

  /**
   * `Exec` is the run that stops at the first failing step: if the first
   * `n` steps succeed and step `n` (if any) fails, exactly the first `n`
   * take effect and the steps up to `n` are tried.
   */
  lemma {:induction false} ExecFirstFailure(env: Env, fs: Fs, steps: seq<Step>, n: nat)
    requires n <= |steps|
    requires forall k :: 0 <= k < n ==> StepOk(env, steps[k])
    requires n < |steps| ==> !StepOk(env, steps[n])
    ensures Exec(env, fs, steps).fs == ApplyAll(fs, steps[..n])
    ensures Exec(env, fs, steps).attempted == if n < |steps| then steps[..n + 1] else steps
    ensures Exec(env, fs, steps).failed == if n < |steps| then Some(steps[n]) else None
    decreases |steps|
  {
    if n > 0 {
      var tail := steps[1..];
      forall k | 0 <= k < n - 1
        ensures StepOk(env, tail[k])
      {
        assert tail[k] == steps[k + 1];
      }
      ExecFirstFailure(env, Apply(fs, steps[0]), tail, n - 1);
      assert steps[..n][1..] == tail[..n - 1];
      if n < |steps| {
        assert [steps[0]] + tail[..n] == steps[..n + 1];
      } else {
        assert [steps[0]] + tail == steps;
      }
    }
  }

  /** A run succeeds exactly when every step does, and then all of them take effect. */
  lemma ExecAllSucceed(env: Env, fs: Fs, steps: seq<Step>)
    ensures Exec(env, fs, steps).failed.None? <==> forall k :: 0 <= k < |steps| ==> StepOk(env, steps[k])
    ensures Exec(env, fs, steps).failed.None? ==> Exec(env, fs, steps).fs == ApplyAll(fs, steps)
  {
    var r := Exec(env, fs, steps);
    if r.failed.None? {
      forall k | 0 <= k < |steps|
        ensures StepOk(env, steps[k])
      {
        var n := FirstFailing(env, steps);
        ExecFirstFailure(env, fs, steps, n);
      }
      ExecFirstFailure(env, fs, steps, |steps|);
      assert steps[..|steps|] == steps;
    } else {
      ExecShape(env, fs, steps);
      var i := |r.attempted| - 1;
      assert steps[i] == r.failed.value;
    }
  }

  /** The index of the first step that fails, or the number of steps. */
  function FirstFailing(env: Env, steps: seq<Step>): (n: nat)
    ensures n <= |steps|
    ensures forall k :: 0 <= k < n ==> StepOk(env, steps[k])
    ensures n < |steps| ==> !StepOk(env, steps[n])
  {
    if |steps| == 0 || !StepOk(env, steps[0]) then 0
    else
      var m := FirstFailing(env, steps[1..]);
      assert forall k :: 1 <= k < m + 1 ==> steps[k] == steps[1..][k - 1];
      m + 1
  }

  /** Running `p + q` is running `p`, then, if nothing failed, running `q`. */
  lemma {:induction false} ExecAppend(env: Env, fs: Fs, p: seq<Step>, q: seq<Step>)
    ensures var a := Exec(env, fs, p);
      Exec(env, fs, p + q) == if a.failed.Some? then a else Then(a.attempted, Exec(env, a.fs, q))
    decreases |p|
  {
    if |p| == 0 {
      assert p + q == q;
    } else {
      assert (p + q)[0] == p[0];
      assert (p + q)[1..] == p[1..] + q;
      if StepOk(env, p[0]) {
        ExecAppend(env, Apply(fs, p[0]), p[1..], q);
        var a := Exec(env, Apply(fs, p[0]), p[1..]);
        if a.failed.None? {
          var b := Exec(env, a.fs, q);
          assert [p[0]] + (a.attempted + b.attempted) == ([p[0]] + a.attempted) + b.attempted;
        }
      }
    }
  }

  lemma {:induction false} ApplyAllAppend(fs: Fs, p: seq<Step>, q: seq<Step>)
    ensures ApplyAll(fs, p + q) == ApplyAll(ApplyAll(fs, p), q)
    decreases |p|
  {
    if |p| == 0 {
      assert p + q == q;
    } else {
      assert (p + q)[0] == p[0];
      assert (p + q)[1..] == p[1..] + q;
      ApplyAllAppend(Apply(fs, p[0]), p[1..], q);
    }
  }

  /** The errors of `src/pki.rs`, one per way a run can stop. */
  datatype Error =
    | DirCreateFailed(dir: Path)
    | NoFirstServiceAddr(net: IpNetwork)
    | WriteFailed(dest: Path)
    | CaGenerationFailed
    | CfsslFailed

  function StepError(s: Step): Error
  {
    match s
    case MakeDirAll(d) => DirCreateFailed(d)
    case WriteDocument(p, _) => WriteFailed(p)
    case RunEngine(InitCa(_, _)) => CaGenerationFailed
    case RunEngine(GenCert(_, _, _, _, _, _)) => CfsslFailed
  }

  datatype Result<T> = Ok(value: T) | Err(error: Error)

  /** The value of a run that succeeded, or the error of the step that failed. */
  function Finish<T>(run: Run, value: T): Result<T>
  {
    if run.failed.None? then Ok(value) else Err(StepError(run.failed.value))
  }

  // ---------------------------------------------------------------------
  // The role table

  /** The seven leaf identities; the kubelet's carries the node's host name. */
  datatype Role =
    | Admin
    | ApiServer
    | ControllerManager
    | Kubelet(hostname: string)
    | Proxy
    | Scheduler
    | ServiceAccount

  /** Common name, organization, output name and CSR file of an identity. */
  datatype Identity = Identity(cn: string, org: string, name: string, csrFile: string)

  const CaIdentity: Identity := Identity("Kubernetes", "Kubernetes", "ca", "ca-csr.json")

  function IdentityOf(role: Role): Identity
  {
    match role
    case Admin => Identity("admin", "system:masters", "admin", "admin-csr.json")
    case ApiServer => Identity("kubernetes", "kubernetes", "kubernetes", "kubernetes-csr.json")
    case ControllerManager =>
      Identity("system:kube-controller-manager", "system:kube-controller-manager",
               "kube-controller-manager", "kube-controller-manager-csr.json")
    case Kubelet(h) => Identity("system:node:" + h, "system:nodes", h, "node-csr.json")
    case Proxy => Identity("system:kube-proxy", "system:node-proxier", "kube-proxy", "admin-csr.json")
    case Scheduler =>
      Identity("system:kube-scheduler", "system:kube-scheduler", "kube-scheduler", "kube-scheduler-csr.json")
    case ServiceAccount =>
      Identity("service-accounts", "Kubernetes", "service-account", "service-account-csr.json")
  }

  /** The leaves in the order `Pki::new` issues them. */
  function LeafRoles(hostname: string): (roles: seq<Role>)
    ensures |roles| == 7
  {
    [Admin, ApiServer, ControllerManager, Kubelet(hostname), Proxy, Scheduler, ServiceAccount]
  }

  /** The proxy reuses the administrator's CSR file; no other two roles share one. */
  lemma SharedCsrFile(hostname: string, r1: Role, r2: Role)
    requires r1 in LeafRoles(hostname) && r2 in LeafRoles(hostname)
    requires r1 != r2 && IdentityOf(r1).csrFile == IdentityOf(r2).csrFile
    ensures (r1 == Admin && r2 == Proxy) || (r1 == Proxy && r2 == Admin)
  {
    match r1
    case Admin =>
    case Proxy =>
    case _ =>
  }

  /** Output names are distinct unless the host name equals a fixed one. */
  lemma DistinctOutputNames(r1: Role, r2: Role)
    requires r1 != r2 && IdentityOf(r1).name == IdentityOf(r2).name
    ensures r1.Kubelet? || r2.Kubelet?
    ensures var h := if r1.Kubelet? then r1.hostname else r2.hostname;
      h in {"admin", "kubernetes", "kube-controller-manager", "kube-proxy", "kube-scheduler", "service-account"}
  {
  }

  // ---------------------------------------------------------------------
  // Host names

  /** The host names every leaf certificate is requested for, in order. */
  function SanList(ip: string, service: Addr, hostname: string): seq<string>
  {
    [ip, Render(service), Render(Localhost), hostname] + ClusterNames
  }

  /** The names the API server answers to inside the cluster. */
  const ClusterNames: seq<string> :=
    ["kubernetes", "kubernetes.default", "kubernetes.default.svc",
     "kubernetes.default.svc.cluster", "kubernetes.svc.cluster.local"]

  lemma ClusterNamesHaveNoComma()
    ensures forall i :: 0 <= i < |ClusterNames| ==> ',' !in ClusterNames[i]
  {
    assert ',' !in "kubernetes";
    assert ',' !in "kubernetes.default";
    assert ',' !in "kubernetes.default.svc";
    assert ',' !in "kubernetes.default.svc.cluster";
    assert ',' !in "kubernetes.svc.cluster.local";
  }

  /** `hostnames.join(",")`. */
  function Hostnames(ip: string, service: Addr, hostname: string): string
  {
    JoinWith(SanList(ip, service, hostname), ',')
  }

  lemma LocalhostText()
    ensures Render(Localhost) == "127.0.0.1"
  {
    assert Octets(Localhost) == [127, 0, 0, 1];
    assert Decimal(0) == "0";
    assert Decimal(1) == "1";
    assert Decimal(127) == "127" by {
      assert Decimal(12) == Decimal(1) + "2";
    }
    var parts := ["127", "0", "0", "1"];
    assert JoinWith(parts[3..], '.') == "1";
    assert JoinWith(parts[2..], '.') == "0.1";
    assert JoinWith(parts[1..], '.') == "0.0.1";
    assert JoinWith(parts, '.') == "127.0.0.1";
  }

  /**
   * The joined host names are nine comma-separated entries: the node address,
   * the first service address, loopback, the host name and the five cluster
   * names, in that order (when the node address and host name hold no comma).
   */
  lemma HostnamesEntries(ip: string, service: Addr, hostname: string)
    requires ',' !in ip && ',' !in hostname
    ensures Split(Hostnames(ip, service, hostname), ',')
         == [ip, Render(service), "127.0.0.1", hostname,
             "kubernetes", "kubernetes.default", "kubernetes.default.svc",
             "kubernetes.default.svc.cluster", "kubernetes.svc.cluster.local"]
  {
    LocalhostText();
    var sans := SanList(ip, service, hostname);
    ClusterNamesHaveNoComma();
    forall i | 0 <= i < |sans|
      ensures ',' !in sans[i]
    {
      if i >= 4 {
        assert sans[i] == ClusterNames[i - 4];
      }
    }
    SplitJoin(sans, ',');
  }

  // ---------------------------------------------------------------------
  // The plan of a run

  /** `PkiConfig`: the context every leaf issuance shares. */
  datatype PkiConfig = PkiConfig(ca: Pair, caConfig: Path, dir: Path, hostnames: string)

  /** The context `Pki::new` builds once the CA exists and the configuration is written. */
  function SharedConfig(dir: Path, hostnames: string): PkiConfig
  {
    PkiConfig(NewPair(dir, CaIdentity.name), Join(dir, "ca-config.json"), dir, hostnames)
  }

  function CaCall(dir: Path): Invocation
  {
    InitCa(Join(dir, CaIdentity.csrFile), Join(dir, CaIdentity.name))
  }

  /** `setup_ca`: write the CA's CSR, then self-sign it. */
  function CaSteps(dir: Path): seq<Step>
  {
    [WriteDocument(Join(dir, CaIdentity.csrFile), Csr(CaIdentity.cn, CaIdentity.org)),
     RunEngine(CaCall(dir))]
  }

  /** `write_ca_config`. */
  function ConfigSteps(dir: Path): seq<Step>
  {
    [WriteDocument(Join(dir, "ca-config.json"), CaConfig)]
  }

  /** The engine run of `generate` for a role. */
  function LeafCall(cfg: PkiConfig, role: Role): Invocation
  {
    GenCert(cfg.ca, cfg.caConfig, "kubernetes", cfg.hostnames,
            Join(cfg.dir, IdentityOf(role).csrFile), Join(cfg.dir, IdentityOf(role).name))
  }

  /** The CSR write that opens a leaf's steps. */
  function LeafWrite(cfg: PkiConfig, role: Role): Step
  {
    var id := IdentityOf(role);
    WriteDocument(Join(cfg.dir, id.csrFile), Csr(id.cn, id.org))
  }

  /** A `setup_*` function for a leaf: write its CSR, then have it signed. */
  function LeafSteps(cfg: PkiConfig, role: Role): seq<Step>
  {
    [LeafWrite(cfg, role), RunEngine(LeafCall(cfg, role))]
  }

  /** The steps of the leaves `roles`, one after the other. */
  function LeavesPlan(cfg: PkiConfig, roles: seq<Role>): seq<Step>
    decreases |roles|
  {
    if |roles| == 0 then [] else LeafSteps(cfg, roles[0]) + LeavesPlan(cfg, roles[1..])
  }

  /**
   * Every step of `Pki::new` after the directory and the address, in order:
   * the CA, the signing configuration, then the seven leaves in the order
   * the `Pki` literal names them.
   */
  function IssuancePlan(dir: Path, hostnames: string, hostname: string): seq<Step>
  {
    CaSteps(dir) + (ConfigSteps(dir) + LeavesPlan(SharedConfig(dir, hostnames), LeafRoles(hostname)))
  }

  /** `Pki`: the CA pair and the seven leaf pairs. */
  datatype Bundle = Bundle(admin: Pair, apiserver: Pair, ca: Pair, controllerManager: Pair,
                           kubelet: Pair, proxy: Pair, scheduler: Pair, serviceAccount: Pair)

  function LeafPair(dir: Path, role: Role): Pair
  {
    NewPair(dir, IdentityOf(role).name)
  }

  /** The pairs of the leaves `roles`, in order. */
  function LeafPairs(dir: Path, roles: seq<Role>): seq<Pair>
    decreases |roles|
  {
    if |roles| == 0 then [] else [LeafPair(dir, roles[0])] + LeafPairs(dir, roles[1..])
  }

  /** `LeafPairs` is the pair of each role, position by position. */
  lemma {:induction false} LeafPairsAt(dir: Path, roles: seq<Role>)
    ensures |LeafPairs(dir, roles)| == |roles|
    ensures forall i :: 0 <= i < |roles| ==> LeafPairs(dir, roles)[i] == LeafPair(dir, roles[i])
    decreases |roles|
  {
    if |roles| > 0 {
      LeafPairsAt(dir, roles[1..]);
      forall i | 1 <= i < |roles|
        ensures LeafPairs(dir, roles)[i] == LeafPair(dir, roles[i])
      {
        assert roles[1..][i - 1] == roles[i];
      }
    }
  }

  lemma LeafPairsInOrder(dir: Path, hostname: string)
    ensures LeafPairs(dir, LeafRoles(hostname))
         == [LeafPair(dir, Admin), LeafPair(dir, ApiServer), LeafPair(dir, ControllerManager),
             LeafPair(dir, Kubelet(hostname)), LeafPair(dir, Proxy), LeafPair(dir, Scheduler),
             LeafPair(dir, ServiceAccount)]
  {
    LeafPairsAt(dir, LeafRoles(hostname));
  }

  function ExpectedBundle(dir: Path, hostname: string): Bundle
  {
    Bundle(LeafPair(dir, Admin), LeafPair(dir, ApiServer), NewPair(dir, CaIdentity.name),
           LeafPair(dir, ControllerManager), LeafPair(dir, Kubelet(hostname)), LeafPair(dir, Proxy),
           LeafPair(dir, Scheduler), LeafPair(dir, ServiceAccount))
  }

  /** The result of `Pki::new`, the file system after it, and every step it tried. */
  datatype Outcome = Outcome(result: Result<Bundle>, fs: Fs, trace: seq<Step>)

  /** The whole of `Pki::new`. */
  function NewSpec(env: Env, fs: Fs, root: Path, pkiDir: Path, net: IpNetwork,
                   ip: string, hostname: string): Outcome
  {
    var dir := Join(root, pkiDir);
    if !StepOk(env, MakeDirAll(dir)) then Outcome(Err(DirCreateFailed(dir)), fs, [MakeDirAll(dir)])
    else
      var made := Apply(fs, MakeDirAll(dir));
      match FirstServiceAddr(net)
      case None => Outcome(Err(NoFirstServiceAddr(net)), made, [MakeDirAll(dir)])
      case Some(service) =>
        var run := Exec(env, made, IssuancePlan(dir, Hostnames(ip, service, hostname), hostname));
        Outcome(Finish(run, ExpectedBundle(dir, hostname)), run.fs, [MakeDirAll(dir)] + run.attempted)
  }
}
