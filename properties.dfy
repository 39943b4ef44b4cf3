/**
 * What a run of `Pki::new` guarantees, stated over `Issuance.NewSpec` (which
 * `Pki.Machine.NewPki` is proved to follow): the layout of the plan, the
 * signing engine's inputs, the fail-fast outcome, the CA coming before every
 * leaf, and the proxy's CSR replacing the administrator's.
 */
module Properties {
  import opened Options
  import opened Strings
  import opened Paths
  import opened Ipv4
  import opened Documents
  import opened Issuance

  // ---------------------------------------------------------------------
  // The plan

  /** Two steps per leaf. */
  lemma {:induction false} LeavesPlanLength(cfg: PkiConfig, roles: seq<Role>)
    ensures |LeavesPlan(cfg, roles)| == 2 * |roles|
    decreases |roles|
  {
    if |roles| > 0 {
      LeavesPlanLength(cfg, roles[1..]);
    }
  }

  /** The steps of leaf `i`: its CSR write at `2 * i`, then its engine run. */
  lemma {:induction false} LeavesPlanIndex(cfg: PkiConfig, roles: seq<Role>, i: nat)
    requires i < |roles|
    ensures 2 * i + 1 < |LeavesPlan(cfg, roles)|
    ensures LeavesPlan(cfg, roles)[2 * i] == LeafWrite(cfg, roles[i])
    ensures LeavesPlan(cfg, roles)[2 * i + 1] == RunEngine(LeafCall(cfg, roles[i]))
    decreases i
  {
    LeavesPlanLength(cfg, roles);
    var plan := LeavesPlan(cfg, roles);
    var rest := LeavesPlan(cfg, roles[1..]);
    assert plan == LeafSteps(cfg, roles[0]) + rest;
    if i > 0 {
      LeavesPlanIndex(cfg, roles[1..], i - 1);
      var j := 2 * i - 2;
      assert roles[1..][i - 1] == roles[i];
      assert plan[j + 2] == rest[j] && plan[j + 3] == rest[j + 1];
    }
  }

  /** The leaves' steps: each role's CSR write, then its engine run, role by role. */
  lemma LeavesPlanAt(cfg: PkiConfig, roles: seq<Role>)
    ensures |LeavesPlan(cfg, roles)| == 2 * |roles|
    ensures forall i :: 0 <= i < |roles| ==>
      LeavesPlan(cfg, roles)[2 * i] == LeafWrite(cfg, roles[i])
      && LeavesPlan(cfg, roles)[2 * i + 1] == RunEngine(LeafCall(cfg, roles[i]))
  {
    LeavesPlanLength(cfg, roles);
    forall i | 0 <= i < |roles|
      ensures LeavesPlan(cfg, roles)[2 * i] == LeafWrite(cfg, roles[i])
      ensures LeavesPlan(cfg, roles)[2 * i + 1] == RunEngine(LeafCall(cfg, roles[i]))
    {
      LeavesPlanIndex(cfg, roles, i);
    }
  }

  /** The plan opens with the CA's CSR, its self-signing and the signing configuration. */
  lemma PlanHead(dir: Path, hostnames: string, hostname: string)
    ensures var plan := IssuancePlan(dir, hostnames, hostname);
      |plan| == 17
      && plan[0] == WriteDocument(Join(dir, "ca-csr.json"), Csr("Kubernetes", "Kubernetes"))
      && plan[1] == RunEngine(InitCa(Join(dir, "ca-csr.json"), Join(dir, "ca")))
      && plan[2] == WriteDocument(Join(dir, "ca-config.json"), CaConfig)
  {
    LeavesPlanAt(SharedConfig(dir, hostnames), LeafRoles(hostname));
  }

  /**
   * The seventeen steps after the directory: the CA's CSR and its
   * self-signing, the signing configuration, then for each leaf in the
   * order of the `Pki` literal its CSR and its signing.
   */
  lemma PlanLayout(dir: Path, hostnames: string, hostname: string)
    ensures var plan := IssuancePlan(dir, hostnames, hostname);
      var cfg := SharedConfig(dir, hostnames);
      var roles := LeafRoles(hostname);
      |plan| == 17
      && plan[0] == WriteDocument(Join(dir, "ca-csr.json"), Csr("Kubernetes", "Kubernetes"))
      && plan[1] == RunEngine(InitCa(Join(dir, "ca-csr.json"), Join(dir, "ca")))
      && plan[2] == WriteDocument(Join(dir, "ca-config.json"), CaConfig)
      && forall i :: 0 <= i < 7 ==>
           plan[3 + 2 * i] == LeafWrite(cfg, roles[i]) && plan[4 + 2 * i] == RunEngine(LeafCall(cfg, roles[i]))
  {
    var plan := IssuancePlan(dir, hostnames, hostname);
    var cfg := SharedConfig(dir, hostnames);
    var roles := LeafRoles(hostname);
    var leaves := LeavesPlan(cfg, roles);
    LeavesPlanAt(cfg, roles);
    assert plan == CaSteps(dir) + ConfigSteps(dir) + leaves;
    forall i | 0 <= i < 7
      ensures plan[3 + 2 * i] == LeafWrite(cfg, roles[i])
      ensures plan[4 + 2 * i] == RunEngine(LeafCall(cfg, roles[i]))
    {
      assert plan[3 + 2 * i] == leaves[2 * i];
      assert plan[4 + 2 * i] == leaves[2 * i + 1];
    }
  }

  /**
   * The proxy writes its CSR where the administrator's was written, after
   * the administrator's certificate was signed from it.
   */
  lemma ProxyReusesAdminCsr(dir: Path, hostnames: string, hostname: string)
    ensures var plan := IssuancePlan(dir, hostnames, hostname);
      |plan| == 17
      && plan[3] == WriteDocument(Join(dir, "admin-csr.json"), Csr("admin", "system:masters"))
      && plan[4].RunEngine? && plan[4].call.csr == Join(dir, "admin-csr.json")
      && plan[11] == WriteDocument(Join(dir, "admin-csr.json"), Csr("system:kube-proxy", "system:node-proxier"))
      && plan[12].RunEngine? && plan[12].call.csr == Join(dir, "admin-csr.json")
  {
    PlanLayout(dir, hostnames, hostname);
    var roles := LeafRoles(hostname);
    assert roles[0] == Admin && roles[4] == Proxy;
  }

  /**
   * The role table as the plan carries it: each leaf's CSR, with its common
   * name and organization, written to its own file name, the proxy's being
   * the administrator's.
   */
  lemma LeafRequests(dir: Path, hostnames: string, hostname: string)
    ensures var plan := IssuancePlan(dir, hostnames, hostname);
      |plan| == 17
      && plan[3] == WriteDocument(Join(dir, "admin-csr.json"), Csr("admin", "system:masters"))
      && plan[5] == WriteDocument(Join(dir, "kubernetes-csr.json"), Csr("kubernetes", "kubernetes"))
      && plan[7] == WriteDocument(Join(dir, "kube-controller-manager-csr.json"),
                                  Csr("system:kube-controller-manager", "system:kube-controller-manager"))
      && plan[9] == WriteDocument(Join(dir, "node-csr.json"), Csr("system:node:" + hostname, "system:nodes"))
      && plan[11] == WriteDocument(Join(dir, "admin-csr.json"), Csr("system:kube-proxy", "system:node-proxier"))
      && plan[13] == WriteDocument(Join(dir, "kube-scheduler-csr.json"),
                                   Csr("system:kube-scheduler", "system:kube-scheduler"))
      && plan[15] == WriteDocument(Join(dir, "service-account-csr.json"), Csr("service-accounts", "Kubernetes"))
  {
    var plan := IssuancePlan(dir, hostnames, hostname);
    var cfg := SharedConfig(dir, hostnames);
    var roles := LeafRoles(hostname);
    PlanLayout(dir, hostnames, hostname);
    assert plan[3] == LeafWrite(cfg, roles[0]) && plan[5] == LeafWrite(cfg, roles[1]);
    assert plan[7] == LeafWrite(cfg, roles[2]) && plan[9] == LeafWrite(cfg, roles[3]);
    assert plan[11] == LeafWrite(cfg, roles[4]) && plan[13] == LeafWrite(cfg, roles[5]);
    assert plan[15] == LeafWrite(cfg, roles[6]);
  }

  /** Each leaf's engine run writes into `<dir>/<name>`, the kubelet's under the host name. */
  lemma LeafOutputs(dir: Path, hostnames: string, hostname: string)
    ensures var plan := IssuancePlan(dir, hostnames, hostname);
      |plan| == 17
      && plan[4].RunEngine? && plan[4].call.bare == Join(dir, "admin")
      && plan[6].RunEngine? && plan[6].call.bare == Join(dir, "kubernetes")
      && plan[8].RunEngine? && plan[8].call.bare == Join(dir, "kube-controller-manager")
      && plan[10].RunEngine? && plan[10].call.bare == Join(dir, hostname)
      && plan[12].RunEngine? && plan[12].call.bare == Join(dir, "kube-proxy")
      && plan[14].RunEngine? && plan[14].call.bare == Join(dir, "kube-scheduler")
      && plan[16].RunEngine? && plan[16].call.bare == Join(dir, "service-account")
  {
    var plan := IssuancePlan(dir, hostnames, hostname);
    var cfg := SharedConfig(dir, hostnames);
    var roles := LeafRoles(hostname);
    PlanLayout(dir, hostnames, hostname);
    assert plan[4] == RunEngine(LeafCall(cfg, roles[0])) && plan[6] == RunEngine(LeafCall(cfg, roles[1]));
    assert plan[8] == RunEngine(LeafCall(cfg, roles[2])) && plan[10] == RunEngine(LeafCall(cfg, roles[3]));
    assert plan[12] == RunEngine(LeafCall(cfg, roles[4])) && plan[14] == RunEngine(LeafCall(cfg, roles[5]));
    assert plan[16] == RunEngine(LeafCall(cfg, roles[6]));
  }

  /**
   * The bundle of a successful run: the CA pair `setup_ca` returns and each
   * leaf's pair under its output name, the kubelet's under the host name.
   */
  lemma BundleNames(dir: Path, hostname: string)
    ensures ExpectedBundle(dir, hostname)
         == Bundle(NewPair(dir, "admin"), NewPair(dir, "kubernetes"), NewPair(dir, "ca"),
                   NewPair(dir, "kube-controller-manager"), NewPair(dir, hostname), NewPair(dir, "kube-proxy"),
                   NewPair(dir, "kube-scheduler"), NewPair(dir, "service-account"))
  {
  }

  // ---------------------------------------------------------------------
  // The signing engine's inputs

  /** The engine runs among `steps`, in order. */
  function EngineCalls(steps: seq<Step>): seq<Invocation>
    decreases |steps|
  {
    if |steps| == 0 then []
    else (if steps[0].RunEngine? then [steps[0].call] else []) + EngineCalls(steps[1..])
  }

  lemma {:induction false} EngineCallsAppend(p: seq<Step>, q: seq<Step>)
    ensures EngineCalls(p + q) == EngineCalls(p) + EngineCalls(q)
    decreases |p|
  {
    if |p| == 0 {
      assert p + q == q;
    } else {
      var head := if p[0].RunEngine? then [p[0].call] else [];
      assert (p + q)[0] == p[0];
      assert (p + q)[1..] == p[1..] + q;
      EngineCallsAppend(p[1..], q);
      assert EngineCalls(p + q) == head + (EngineCalls(p[1..]) + EngineCalls(q));
      assert head + (EngineCalls(p[1..]) + EngineCalls(q)) == (head + EngineCalls(p[1..])) + EngineCalls(q);
    }
  }

  lemma {:induction false} LeavesEngineCalls(cfg: PkiConfig, roles: seq<Role>)
    ensures |EngineCalls(LeavesPlan(cfg, roles))| == |roles|
    ensures forall i :: 0 <= i < |roles| ==> EngineCalls(LeavesPlan(cfg, roles))[i] == LeafCall(cfg, roles[i])
    decreases |roles|
  {
    if |roles| > 0 {
      var rest := LeavesPlan(cfg, roles[1..]);
      EngineCallsAppend(LeafSteps(cfg, roles[0]), rest);
      assert EngineCalls(LeafSteps(cfg, roles[0])) == [LeafCall(cfg, roles[0])] by {
        var s := LeafSteps(cfg, roles[0]);
        assert s[1..][1..] == [];
      }
      LeavesEngineCalls(cfg, roles[1..]);
      forall i | 1 <= i < |roles|
        ensures EngineCalls(LeavesPlan(cfg, roles))[i] == LeafCall(cfg, roles[i])
      {
        assert roles[1..][i - 1] == roles[i];
      }
    }
  }

  /**
   * The engine runs eight times: first to self-sign the CA from its CSR, then
   * once per leaf in order, every time with the same CA pair, configuration
   * file, profile `kubernetes` and host names, from the leaf's CSR file into
   * `<dir>/<name>`.
   */
  lemma PlanEngineCalls(dir: Path, hostnames: string, hostname: string)
    ensures var calls := EngineCalls(IssuancePlan(dir, hostnames, hostname));
      var roles := LeafRoles(hostname);
      |calls| == 8
      && calls[0] == InitCa(Join(dir, "ca-csr.json"), Join(dir, "ca"))
      && forall i :: 0 <= i < 7 ==>
           calls[i + 1] == GenCert(NewPair(dir, "ca"), Join(dir, "ca-config.json"), "kubernetes", hostnames,
                                   Join(dir, IdentityOf(roles[i]).csrFile), Join(dir, IdentityOf(roles[i]).name))
  {
    var cfg := SharedConfig(dir, hostnames);
    var roles := LeafRoles(hostname);
    var leaves := LeavesPlan(cfg, roles);
    EngineCallsAppend(CaSteps(dir), ConfigSteps(dir) + leaves);
    EngineCallsAppend(ConfigSteps(dir), leaves);
    assert EngineCalls(CaSteps(dir)) == [CaCall(dir)] by {
      assert CaSteps(dir)[1..][1..] == [];
    }
    assert EngineCalls(ConfigSteps(dir)) == [] by {
      assert ConfigSteps(dir)[1..] == [];
    }
    LeavesEngineCalls(cfg, roles);
    var calls := EngineCalls(IssuancePlan(dir, hostnames, hostname));
    assert calls == [CaCall(dir)] + EngineCalls(leaves);
  }

  // ---------------------------------------------------------------------
  // The outcome of a run

  /**
   * Every run starts by creating the directory and then, once the address is
   * found, tries a prefix of the plan; every step it tried succeeded except
   * possibly the last.
   */
  lemma NewPkiTrace(env: Env, fs: Fs, root: Path, pkiDir: Path, net: IpNetwork, ip: string, hostname: string)
    ensures var dir := Join(root, pkiDir);
      var trace := NewSpec(env, fs, root, pkiDir, net, ip, hostname).trace;
      1 <= |trace| && trace[0] == MakeDirAll(dir)
      && (forall k :: 0 <= k < |trace| - 1 ==> StepOk(env, trace[k]))
      && (|trace| > 1 ==>
            env.mkdirOk(dir) && FirstServiceAddr(net).Some?
            && var plan := IssuancePlan(dir, Hostnames(ip, FirstServiceAddr(net).value, hostname), hostname);
               |trace| - 1 <= |plan| && trace[1..] == plan[..|trace| - 1])
  {
    var dir := Join(root, pkiDir);
    if env.mkdirOk(dir) && FirstServiceAddr(net).Some? {
      var plan := IssuancePlan(dir, Hostnames(ip, FirstServiceAddr(net).value, hostname), hostname);
      var made := Apply(fs, MakeDirAll(dir));
      var run := Exec(env, made, plan);
      assert NewSpec(env, fs, root, pkiDir, net, ip, hostname).trace == [MakeDirAll(dir)] + run.attempted;
      ExecShape(env, made, plan);
      TraceAfterDirectory(env, MakeDirAll(dir), run.attempted);
    }
  }

  /**
   * Once the directory exists and the address is found, a run succeeds
   * exactly when every step of the plan does, and then the result is the
   * expected bundle, the trace is the whole plan and the files are the
   * plan's effects.  Otherwise the trace ends with the first step that
   * failed, and the error is that step's.
   */
  lemma NewPkiOutcome(env: Env, fs: Fs, root: Path, pkiDir: Path, net: IpNetwork,
                      ip: string, hostname: string, service: Addr)
    requires env.mkdirOk(Join(root, pkiDir)) && FirstServiceAddr(net) == Some(service)
    ensures var dir := Join(root, pkiDir);
      var o := NewSpec(env, fs, root, pkiDir, net, ip, hostname);
      var plan := IssuancePlan(dir, Hostnames(ip, service, hostname), hostname);
      (o.result.Ok? <==> forall k :: 0 <= k < |plan| ==> StepOk(env, plan[k]))
      && (o.result.Ok? ==>
            o.result.value == ExpectedBundle(dir, hostname) && o.trace == [MakeDirAll(dir)] + plan
            && o.fs == ApplyAll(Apply(fs, MakeDirAll(dir)), plan))
      && (o.result.Err? ==>
            |o.trace| >= 2 && !StepOk(env, o.trace[|o.trace| - 1])
            && o.result.error == StepError(o.trace[|o.trace| - 1]))
  {
    var dir := Join(root, pkiDir);
    var o := NewSpec(env, fs, root, pkiDir, net, ip, hostname);
    var plan := IssuancePlan(dir, Hostnames(ip, service, hostname), hostname);
    var made := Apply(fs, MakeDirAll(dir));
    var run := Exec(env, made, plan);
    assert o == Outcome(Finish(run, ExpectedBundle(dir, hostname)), run.fs, [MakeDirAll(dir)] + run.attempted);
    ExecShape(env, made, plan);
    ExecAllSucceed(env, made, plan);
  }

  /**
   * Fail-fast: when some step of the plan fails, the run tries exactly the
   * steps up to the first failing one, keeps the effects of those before it,
   * and reports that step's error; no later step is attempted.
   */
  lemma StopsAtFirstFailure(env: Env, fs: Fs, root: Path, pkiDir: Path, net: IpNetwork,
                            ip: string, hostname: string, service: Addr)
    requires env.mkdirOk(Join(root, pkiDir)) && FirstServiceAddr(net) == Some(service)
    ensures var dir := Join(root, pkiDir);
      var o := NewSpec(env, fs, root, pkiDir, net, ip, hostname);
      var plan := IssuancePlan(dir, Hostnames(ip, service, hostname), hostname);
      var n := FirstFailing(env, plan);
      n < |plan| ==>
        o.result == Err(StepError(plan[n])) && o.trace == [MakeDirAll(dir)] + plan[..n + 1]
        && o.fs == ApplyAll(Apply(fs, MakeDirAll(dir)), plan[..n])
  {
    var dir := Join(root, pkiDir);
    var plan := IssuancePlan(dir, Hostnames(ip, service, hostname), hostname);
    ExecFirstFailure(env, Apply(fs, MakeDirAll(dir)), plan, FirstFailing(env, plan));
  }

  /** An outside world that refuses only the write of the proxy's request. */
  function RefuseProxyCsr(): Env
  {
    Env(d => true, (p, doc) => doc != Csr("system:kube-proxy", "system:node-proxier"), c => true)
  }

  /** Under `RefuseProxyCsr`, the plan's steps before the proxy's CSR write all succeed and that write fails. */
  lemma PlanRefusedAtProxyCsr(dir: Path, hostnames: string, hostname: string)
    ensures var plan := IssuancePlan(dir, hostnames, hostname);
      |plan| == 17 && (forall k :: 0 <= k < 11 ==> StepOk(RefuseProxyCsr(), plan[k]))
      && !StepOk(RefuseProxyCsr(), plan[11])
  {
    var plan := IssuancePlan(dir, hostnames, hostname);
    var proxyCsr := Csr("system:kube-proxy", "system:node-proxier");
    PlanHead(dir, hostnames, hostname);
    LeafRequests(dir, hostnames, hostname);
    LeafOutputs(dir, hostnames, hostname);
    forall k | 0 <= k < 11
      ensures StepOk(RefuseProxyCsr(), plan[k])
    {
      if k == 0 || k == 2 || k == 3 || k == 5 || k == 7 || k == 9 {
        assert plan[k].WriteDocument? && plan[k].doc != proxyCsr;
      } else {
        assert plan[k].RunEngine?;
      }
    }
  }

  /**
   * A run whose first failing plan step is the proxy's CSR write self-signs
   * the CA and issues four leaves, then stops after thirteen steps with the
   * write error of `admin-csr.json`.
   */
  lemma FailsAtProxyCsr(env: Env, fs: Fs, root: Path, pkiDir: Path, net: IpNetwork,
                        ip: string, hostname: string, service: Addr)
    requires env.mkdirOk(Join(root, pkiDir)) && FirstServiceAddr(net) == Some(service)
    requires FirstFailing(env, IssuancePlan(Join(root, pkiDir), Hostnames(ip, service, hostname), hostname)) == 11
    ensures var dir := Join(root, pkiDir);
      var o := NewSpec(env, fs, root, pkiDir, net, ip, hostname);
      o.result == Err(WriteFailed(Join(dir, "admin-csr.json"))) && |o.trace| == 13
      && o.trace[12] == WriteDocument(Join(dir, "admin-csr.json"), Csr("system:kube-proxy", "system:node-proxier"))
  {
    ProxyReusesAdminCsr(Join(root, pkiDir), Hostnames(ip, service, hostname), hostname);
    StopsAtFirstFailure(env, fs, root, pkiDir, net, ip, hostname, service);
  }

  /**
   * The proxy's CSR write can be the step that fails, although the same file
   * was written for the administrator before: refusing only that write stops
   * the run there, with the CA and four leaves issued.
   */
  lemma ProxyWriteCanFail(fs: Fs, root: Path, pkiDir: Path, net: IpNetwork,
                          ip: string, hostname: string, service: Addr)
    requires FirstServiceAddr(net) == Some(service)
    ensures var dir := Join(root, pkiDir);
      var o := NewSpec(RefuseProxyCsr(), fs, root, pkiDir, net, ip, hostname);
      o.result == Err(WriteFailed(Join(dir, "admin-csr.json"))) && |o.trace| == 13
      && o.trace[12] == WriteDocument(Join(dir, "admin-csr.json"), Csr("system:kube-proxy", "system:node-proxier"))
  {
    var hostnames := Hostnames(ip, service, hostname);
    var plan := IssuancePlan(Join(root, pkiDir), hostnames, hostname);
    PlanRefusedAtProxyCsr(Join(root, pkiDir), hostnames, hostname);
    FirstFailingIs(RefuseProxyCsr(), plan, 11);
    FailsAtProxyCsr(RefuseProxyCsr(), fs, root, pkiDir, net, ip, hostname, service);
  }

  /** `FirstFailing` is the index of a failing step all of whose predecessors succeed. */
  lemma FirstFailingIs(env: Env, steps: seq<Step>, n: nat)
    requires n < |steps| && !StepOk(env, steps[n])
    requires forall k :: 0 <= k < n ==> StepOk(env, steps[k])
    ensures FirstFailing(env, steps) == n
  {
    var m := FirstFailing(env, steps);
    if m < n {
      assert false;
    } else if m > n {
      assert false;
    }
  }

  /**
   * `write_csr` either stores the request for (`cn`, `o`) at `dest` and
   * changes nothing else, or fails and changes nothing.
   */
  lemma WriteCsrEffect(env: Env, fs: Fs, cn: string, o: string, dest: Path)
    ensures var run := Exec(env, fs, [WriteDocument(dest, Csr(cn, o))]);
      (run.failed.None? <==> env.writeOk(dest, Csr(cn, o)))
      && run.fs.dirs == fs.dirs
      && (run.failed.None? ==> dest in run.fs.files && run.fs.files[dest] == Written(Csr(cn, o)))
      && (forall p :: p != dest ==> (p in run.fs.files <==> p in fs.files))
      && (forall p :: p != dest && p in fs.files ==> run.fs.files[p] == fs.files[p])
      && (run.failed.Some? ==> run.fs == fs)
  {
    ExecSingle(env, fs, WriteDocument(dest, Csr(cn, o)));
  }

  /** A trace that starts with a directory creation that succeeded, then the steps of a run. */
  lemma TraceAfterDirectory(env: Env, mk: Step, attempted: seq<Step>)
    requires StepOk(env, mk)
    requires forall k :: 0 <= k < |attempted| - 1 ==> StepOk(env, attempted[k])
    ensures var t := [mk] + attempted;
      |t| >= 1 && t[|t| - 1] == (if |attempted| == 0 then mk else attempted[|attempted| - 1])
      && forall k :: 0 <= k < |t| - 1 ==> StepOk(env, t[k])
  {
    var t := [mk] + attempted;
    forall k | 0 <= k < |t| - 1
      ensures StepOk(env, t[k])
    {
      if k > 0 {
        assert t[k] == attempted[k - 1];
      }
    }
  }

  /** A run whose directory cannot be created stops there, before any document or engine run. */
  lemma DirectoryFirst(env: Env, fs: Fs, root: Path, pkiDir: Path, net: IpNetwork, ip: string, hostname: string)
    requires !env.mkdirOk(Join(root, pkiDir))
    ensures var o := NewSpec(env, fs, root, pkiDir, net, ip, hostname);
      o.result == Err(DirCreateFailed(Join(root, pkiDir))) && o.fs == fs
      && o.trace == [MakeDirAll(Join(root, pkiDir))]
  {
  }

  /**
   * A single-address service network has no first service address: the run
   * fails after creating the directory, without writing a document or
   * running the engine.
   */
  lemma SingleAddressNetworkFails(env: Env, fs: Fs, root: Path, pkiDir: Path, base: Addr,
                                  ip: string, hostname: string)
    requires env.mkdirOk(Join(root, pkiDir))
    ensures var o := NewSpec(env, fs, root, pkiDir, V4(base, 32), ip, hostname);
      o.result == Err(NoFirstServiceAddr(V4(base, 32)))
      && o.trace == [MakeDirAll(Join(root, pkiDir))]
      && o.fs == Fs(fs.dirs + {Join(root, pkiDir)}, fs.files)
  {
    FirstServiceAddrMeaning(V4(base, 32));
  }

  /**
   * A trace made of a first step that is not an engine run and then a prefix
   * of `plan`, whose steps all succeeded but the last, cannot sign a leaf
   * before plan steps 0 to 2 were tried and succeeded, when none of those
   * signs one.
   */
  lemma SignedOnlyAfter(env: Env, plan: seq<Step>, trace: seq<Step>)
    requires |plan| >= 3 && !plan[0].RunEngine? && !(plan[1].RunEngine? && plan[1].call.GenCert?)
    requires !plan[2].RunEngine?
    requires 1 <= |trace| && !trace[0].RunEngine?
    requires forall k :: 0 <= k < |trace| - 1 ==> StepOk(env, trace[k])
    requires |trace| > 1 ==> |trace| - 1 <= |plan| && trace[1..] == plan[..|trace| - 1]
    ensures forall i :: 0 <= i < |trace| && trace[i].RunEngine? && trace[i].call.GenCert? ==>
      3 < i && trace[2] == plan[1] && StepOk(env, trace[2]) && trace[3] == plan[2] && StepOk(env, trace[3])
  {
    forall i | 0 <= i < |trace| && trace[i].RunEngine? && trace[i].call.GenCert?
      ensures 3 < i && trace[2] == plan[1] && trace[3] == plan[2]
    {
      assert i > 0;
      assert trace[i] == trace[1..][i - 1] == plan[i - 1];
      assert trace[2] == trace[1..][1] && trace[3] == trace[1..][2];
    }
  }

  /**
   * In every run, a leaf is signed only after the CA was self-signed and the
   * signing configuration written, both successfully: the trace holds them
   * at positions 2 and 3, before any leaf signing.
   */
  lemma CaBeforeLeaves(env: Env, fs: Fs, root: Path, pkiDir: Path, net: IpNetwork, ip: string, hostname: string)
    ensures var dir := Join(root, pkiDir);
      var o := NewSpec(env, fs, root, pkiDir, net, ip, hostname);
      forall i :: 0 <= i < |o.trace| && o.trace[i].RunEngine? && o.trace[i].call.GenCert? ==>
        3 < i && o.trace[2] == RunEngine(CaCall(dir)) && StepOk(env, o.trace[2])
        && o.trace[3] == WriteDocument(Join(dir, "ca-config.json"), CaConfig) && StepOk(env, o.trace[3])
  {
    var dir := Join(root, pkiDir);
    var trace := NewSpec(env, fs, root, pkiDir, net, ip, hostname).trace;
    if env.mkdirOk(dir) && FirstServiceAddr(net).Some? {
      var hostnames := Hostnames(ip, FirstServiceAddr(net).value, hostname);
      var plan := IssuancePlan(dir, hostnames, hostname);
      NewPkiTrace(env, fs, root, pkiDir, net, ip, hostname);
      PlanHead(dir, hostnames, hostname);
      assert !plan[0].RunEngine? && plan[1].call.InitCa? && !plan[2].RunEngine?;
      SignedOnlyAfter(env, plan, trace);
    } else {
      assert trace == [MakeDirAll(dir)];
    }
  }

  // ---------------------------------------------------------------------
  // The administrator's CSR file

  /** The files a step writes. */
  predicate Writes(s: Step, p: Path)
  {
    match s
    case MakeDirAll(_) => false
    case WriteDocument(dest, _) => dest == p
    case RunEngine(call) => p == CertPath(call) || p == KeyPath(call)
  }

  /** Steps that write nothing at `p` leave the file at `p` as it was. */
  lemma {:induction false} ApplyAllElsewhere(fs: Fs, steps: seq<Step>, p: Path)
    requires forall k :: 0 <= k < |steps| ==> !Writes(steps[k], p)
    ensures (p in ApplyAll(fs, steps).files) == (p in fs.files)
    ensures p in fs.files ==> ApplyAll(fs, steps).files[p] == fs.files[p]
    decreases |steps|
  {
    if |steps| > 0 {
      forall k | 0 <= k < |steps| - 1
        ensures !Writes(steps[1..][k], p)
      {
        assert steps[1..][k] == steps[k + 1];
      }
      ApplyAllElsewhere(Apply(fs, steps[0]), steps[1..], p);
    }
  }

  /** A joined path ends with the last character of the file name joined. */
  lemma JoinLastChar(dir: Path, file: Path)
    requires |file| > 0
    ensures |Join(dir, file)| > 0 && Join(dir, file)[|Join(dir, file)| - 1] == file[|file| - 1]
  {
    JoinEndsWithFile(dir, file);
    var j := Join(dir, file);
    assert j[|j| - |file|..][|file| - 1] == file[|file| - 1];
  }

  /** No engine output lands on a `.json` file under the directory. */
  lemma EngineOutputIsNotJson(dir: Path, file: Path, cfg: PkiConfig, role: Role)
    requires |file| > 0 && file[|file| - 1] == 'n'
    ensures !Writes(RunEngine(LeafCall(cfg, role)), Join(dir, file))
  {
    JoinLastChar(dir, file);
  }

  /** Running `steps` leaves at `p` what step `j` wrote there when no later step writes `p`. */
  lemma LastWriteWins(fs: Fs, steps: seq<Step>, j: nat, p: Path, doc: Document)
    requires j < |steps| && steps[j] == WriteDocument(p, doc)
    requires forall k :: j < k < |steps| ==> !Writes(steps[k], p)
    ensures p in ApplyAll(fs, steps).files && ApplyAll(fs, steps).files[p] == Written(doc)
  {
    var front, tail := steps[..j + 1], steps[j + 1..];
    assert steps == front + tail;
    ApplyAllAppend(fs, front, tail);
    assert front == steps[..j] + [steps[j]];
    ApplyAllAppend(fs, steps[..j], [steps[j]]);
    assert [steps[j]][1..] == [];
    forall k | 0 <= k < |tail|
      ensures !Writes(tail[k], p)
    {
      assert tail[k] == steps[j + 1 + k];
    }
    ApplyAllElsewhere(ApplyAll(fs, front), tail, p);
  }

  /** Nothing after the proxy's CSR write touches the administrator's CSR file. */
  lemma NothingWritesAdminCsrAfterProxy(dir: Path, hostnames: string, hostname: string)
    ensures var plan := IssuancePlan(dir, hostnames, hostname);
      |plan| == 17 && forall k :: 11 < k < 17 ==> !Writes(plan[k], Join(dir, "admin-csr.json"))
  {
    var plan := IssuancePlan(dir, hostnames, hostname);
    var cfg := SharedConfig(dir, hostnames);
    var roles := LeafRoles(hostname);
    var p := Join(dir, "admin-csr.json");
    PlanLayout(dir, hostnames, hostname);
    forall k | 11 < k < 17
      ensures !Writes(plan[k], p)
    {
      if k == 12 {
        assert plan[k] == RunEngine(LeafCall(cfg, roles[4]));
        EngineOutputIsNotJson(dir, "admin-csr.json", cfg, roles[4]);
      } else if k == 13 {
        assert plan[k] == LeafWrite(cfg, roles[5]);
        if Join(dir, "kube-scheduler-csr.json") == p {
          JoinInjective(dir, "kube-scheduler-csr.json", "admin-csr.json");
        }
      } else if k == 14 {
        assert plan[k] == RunEngine(LeafCall(cfg, roles[5]));
        EngineOutputIsNotJson(dir, "admin-csr.json", cfg, roles[5]);
      } else if k == 15 {
        assert plan[k] == LeafWrite(cfg, roles[6]);
        if Join(dir, "service-account-csr.json") == p {
          JoinInjective(dir, "service-account-csr.json", "admin-csr.json");
        }
      } else {
        assert plan[k] == RunEngine(LeafCall(cfg, roles[6]));
        EngineOutputIsNotJson(dir, "admin-csr.json", cfg, roles[6]);
      }
    }
  }

  /**
   * After a successful run the administrator's CSR file holds the proxy's
   * request, not the administrator's: `setup_proxy` wrote over it and
   * nothing wrote there afterwards.
   */
  lemma AdminCsrOverwritten(env: Env, fs: Fs, root: Path, pkiDir: Path, net: IpNetwork, ip: string, hostname: string)
    requires NewSpec(env, fs, root, pkiDir, net, ip, hostname).result.Ok?
    ensures var o := NewSpec(env, fs, root, pkiDir, net, ip, hostname);
      var p := Join(Join(root, pkiDir), "admin-csr.json");
      p in o.fs.files && o.fs.files[p] == Written(Csr("system:kube-proxy", "system:node-proxier"))
  {
    var dir := Join(root, pkiDir);
    var service := FirstServiceAddr(net).value;
    var hostnames := Hostnames(ip, service, hostname);
    NewPkiOutcome(env, fs, root, pkiDir, net, ip, hostname, service);
    ProxyReusesAdminCsr(dir, hostnames, hostname);
    NothingWritesAdminCsrAfterProxy(dir, hostnames, hostname);
    LastWriteWins(Apply(fs, MakeDirAll(dir)), IssuancePlan(dir, hostnames, hostname), 11,
                  Join(dir, "admin-csr.json"), Csr("system:kube-proxy", "system:node-proxier"));
  }

  // ---------------------------------------------------------------------
  // Examples

  /** The service network 10.32.0.0/24 gives 10.32.0.1 as its first service address. */
  lemma ServiceAddrExample()
    ensures FirstServiceAddr(V4(FromOctets(10, 32, 0, 0), 24)) == Some(FromOctets(10, 32, 0, 1))
  {
    var net := FromOctets(10, 32, 0, 0);
    assert net == 169869312;
    assert ClearLow(663552, 0) == 663552;
    assert ClearLow(1327104, 1) == 1327104;
    assert ClearLow(2654208, 2) == 2654208;
    assert ClearLow(5308416, 3) == 5308416;
    assert ClearLow(10616832, 4) == 10616832;
    assert ClearLow(21233664, 5) == 21233664;
    assert ClearLow(42467328, 6) == 42467328;
    assert ClearLow(84934656, 7) == 84934656;
    assert ClearLow(169869312, 8) == 169869312;
    FirstServiceAddrMeaning(V4(net, 24));
  }

  /** 10.32.0.1 renders as "10.32.0.1". */
  lemma RenderExample()
    ensures Render(FromOctets(10, 32, 0, 1)) == "10.32.0.1"
  {
    assert Octets(FromOctets(10, 32, 0, 1)) == [10, 32, 0, 1];
    assert Decimal(0) == "0";
    assert Decimal(1) == "1";
    assert Decimal(10) == "10" by {
      assert Decimal(1) == "1";
    }
    assert Decimal(32) == "32" by {
      assert Decimal(3) == "3";
    }
    var parts := ["10", "32", "0", "1"];
    assert JoinWith(parts[3..], '.') == "1";
    assert JoinWith(parts[2..], '.') == "0.1";
    assert JoinWith(parts[1..], '.') == "32.0.1";
    assert JoinWith(parts, '.') == "10.32.0.1";
  }
}
