# kubernix PKI bootstrap, modelled in Dafny

This project models `src/pki.rs` of kubernix. That file bootstraps a private
certificate authority for a Kubernetes control plane and then issues seven
leaf certificates: administrator, API server, controller manager, kubelet,
proxy, scheduler and service-account signer. Each leaf has its own
identity, and all of them share one list of subject alternative names
(SANs). The signing itself is done by the external tools
`cfssl gencert | cfssljson -bare`.

The project has seven modules:

- **Options** and **Strings**: `Option`, joining and splitting on a separator, and decimal digits.
- **Paths**: `Path::join`, following Unix `PathBuf::push` rules. An absolute file name replaces the directory. Otherwise a `/` is inserted unless the directory is empty or already ends in `/`.
  - It also holds `Pair` and `Pair::new`. The `cert()` and `key()` accessors are the datatype's fields.
- **Ipv4**: 32-bit addresses, the network base, `Ipv4Network::nth` and the first service address.
  - Also `Ipv4Addr`'s dotted-decimal `Display`, with a parser that proves the rendering is unambiguous.
- **Documents**: the two `json!` values that `write_csr` and `write_ca_config` build, plus typed readers. The readers give the view a consumer of each document takes.
- **Issuance**: the workflow as data.
  - The side effects of a run are `Step`s: create a directory, write a document, run the engine.
  - Whether each step succeeds is decided by an oracle, `Env`, which stands for the file system and the signing engine.
  - `Exec` is the fail-fast execution of a list of steps; it is what every `?` in the source does.
  - It also holds the role table, the SAN list, the flat plan of a whole run (`IssuancePlan`) and the whole of `Pki::new` as a function (`NewSpec`).
- **Pki**: class `Machine`. It holds the directories and the file map, which are updated in place, and a ghost trace of the steps tried.
  - Its methods are the associated functions of `Pki`: `NewPki`, `SetupCa`, the seven `setup_*` functions, `Generate`, `WriteCsr` and `WriteCaConfig`.
  - Each method is proved to leave the state, trace and result that `Exec` gives for its own steps.
  - `NewPki` is proved equal to `NewSpec`.
- **Properties**: what a run guarantees, stated over `NewSpec`:
  - the layout of the plan and the role table within it;
  - the engine's inputs;
  - fail-fast outcomes;
  - the CA before every leaf;
  - the proxy's CSR replacing the administrator's.

Two behaviours of the source are kept as written:

- `setup_proxy` writes its CSR to `admin-csr.json` (src/pki.rs:164). This happens after the administrator's certificate has already been signed from that file. So after a successful run, that file holds the proxy's request (`AdminCsrOverwritten`).
- The kubelet's output name is the host name. A host name such as `admin` therefore gives the kubelet the same output files as another leaf (`DistinctOutputNames`). The leaves do not always write disjoint paths.

A /31 service network has a first service address in the code: `nth(1)` is defined whenever the network holds more than one address. The model follows the code. Only a /32 fails (`FirstServiceAddrMeaning`, `SingleAddressNetworkFails`).

## Model

| member | source | states |
|---|---|---|
| Paths.Join | src/pki.rs:33-34 | `Path::join` under Unix rules (no contract of its own; see `Paths.JoinEndsWithFile`, `Paths.JoinAppend`) |
| Paths.NewPair | src/pki.rs:32-36 | `Pair::new` (no contract of its own; see `Paths.NewPairShape`) |
| Paths.NewPairShape | src/pki.rs:32-36 | The certificate is `<dir>/<name>` plus `.pem` and the key is the same plus `-key.pem`; the two paths always differ |
| Paths.JoinEndsWithFile | src/pki.rs:33-34 | A joined path ends with the file name; a relative name lands under the directory's prefix |
| Paths.JoinAppend | src/pki.rs:33-34 | Joining `name + suffix` is joining `name` and then appending `suffix` |
| Ipv4.Nth | src/pki.rs:65 | `nth(n)` is defined exactly when `n` is below the network size; it is the base plus `n` and lies in the same network |
| Ipv4.FirstServiceAddr | src/pki.rs:63-72 | The `match` on the service network (no contract of its own; see `Ipv4.FirstServiceAddrMeaning`) |
| Ipv4.FirstServiceAddrMeaning | src/pki.rs:63-72 | An IPv4 network has a first service address iff its prefix is below 32, and it is the network base plus one; any other network gives 127.0.0.1 |
| Ipv4.Render | src/pki.rs:77 | `Ipv4Addr`'s `Display`; the text holds no comma (see `Ipv4.ParseRender` for its meaning) |
| Ipv4.ParseRender | src/pki.rs:77 | Reading back the dotted-decimal text of an address gives the address |
| Ipv4.RenderInjective | src/pki.rs:77 | Different addresses render differently |
| Issuance.LocalhostText | src/pki.rs:78 | Loopback renders as `127.0.0.1` |
| Strings.SplitJoin | src/pki.rs:92 | Splitting a comma-joined list of comma-free entries gives back the list |
| Issuance.SanList | src/pki.rs:75-85 | The host-name array (no contract of its own; see `Issuance.HostnamesEntries`) |
| Issuance.Hostnames | src/pki.rs:92 | `hostnames.join(",")` (no contract of its own; see `Issuance.HostnamesEntries`) |
| Issuance.HostnamesEntries | src/pki.rs:75-92 | The joined host names are exactly nine entries in order: node address, service address, `127.0.0.1`, host name, then the five cluster names |
| Properties.ServiceAddrExample | src/pki.rs:64-65 | 10.32.0.0/24 gives 10.32.0.1 |
| Properties.RenderExample | src/pki.rs:77 | 10.32.0.1 renders as `10.32.0.1` |
| Documents.CsrJson | src/pki.rs:226-241 | The `json!` value of `write_csr` (no contract of its own; see `Documents.CsrDocumentContents`) |
| Documents.CaConfigJson | src/pki.rs:247-264 | The `json!` value of `write_ca_config` (no contract of its own; see `Documents.CaConfigContents`) |
| Documents.CsrDocumentContents | src/pki.rs:225-241 | The CSR has CN `cn`, an RSA 2048 key, and exactly one subject entry: US, Portland, organization `o`, OU Kubernetes, Oregon |
| Documents.CaConfigContents | src/pki.rs:247-264 | The configuration has default expiry 8760h and one profile, `kubernetes`. That profile has expiry 8760h and exactly the usages signing, key encipherment, server auth, client auth, in that order |
| Documents.ToJsonInjective | src/pki.rs:226-264 | Two documents with the same JSON value are the same document |
| Properties.WriteCsrEffect | src/pki.rs:242 | The CSR write succeeds iff the oracle allows writing the request to `dest`. On success `dest` holds the request and nothing else changes; on failure nothing changes (the model does not truncate; see "## Left out") |
| Pki.Machine.CreateDirAll | src/pki.rs:61 | Adds the directory when the oracle allows it; otherwise returns the directory error; records the step |
| Pki.Machine.WriteFile | src/pki.rs:242 | Stores the document at the path when allowed; otherwise returns the write error; records the step |
| Pki.Machine.RunSigner | src/pki.rs:114-135 | On success adds `<bare>.pem` and `<bare>-key.pem`. On failure returns the error value `CaGenerationFailed` for the CA ("CA certificate generation failed") and `CfsslFailed` for a leaf ("cfssl command failed") |
| Pki.Machine.WriteCsr | src/pki.rs:225-244 | Ok iff the oracle allows writing the request to `dest`. Directories are unchanged. Files gain exactly `dest` := the request on success and are unchanged on failure (the model does not truncate; see "## Left out") |
| Pki.Machine.WriteCaConfig | src/pki.rs:246-268 | Writes the configuration to `<dir>/ca-config.json` and returns that path, or returns the write error |
| Pki.Machine.SetupCa | src/pki.rs:107-138 | Writes the CA's CSR (Kubernetes/Kubernetes) to `ca-csr.json`, then self-signs it into `<dir>/ca`, stopping at the first failure; returns `Pair::new(dir, "ca")` |
| Pki.Machine.Generate | src/pki.rs:191-223 | Runs the engine once with the shared CA pair, configuration, profile `kubernetes`, host names and the given CSR, into `<dir>/<name>`; returns `Pair::new(dir, name)` or the engine error |
| Pki.Machine.SetupKubelet | src/pki.rs:140-145 | Writes `system:node:<host>`/`system:nodes` to `node-csr.json`, then signs it under the host name |
| Pki.Machine.SetupAdmin | src/pki.rs:147-152 | Writes `admin`/`system:masters` to `admin-csr.json`, then signs it as `admin` |
| Pki.Machine.SetupControllerManager | src/pki.rs:154-160 | Writes `system:kube-controller-manager` twice to its CSR file, then signs it as `kube-controller-manager` |
| Pki.Machine.SetupProxy | src/pki.rs:162-167 | Writes `system:kube-proxy`/`system:node-proxier` to `admin-csr.json`, then signs it as `kube-proxy` |
| Pki.Machine.SetupScheduler | src/pki.rs:169-175 | Writes `system:kube-scheduler` twice to its CSR file, then signs it as `kube-scheduler` |
| Pki.Machine.SetupApiServer | src/pki.rs:177-182 | Writes `kubernetes`/`kubernetes` to `kubernetes-csr.json`, then signs it as `kubernetes` |
| Pki.Machine.SetupServiceAccount | src/pki.rs:184-189 | Writes `service-accounts`/`Kubernetes` to `service-account-csr.json`, then signs it as `service-account` |
| Pki.Machine.SetupLeaf | src/pki.rs:96-102 | Each leaf role is issued by its own `setup_*` function |
| Pki.Machine.IssueLeaves | src/pki.rs:95-104 | Issues the leaves of the list in order and stops at the first failure; on success returns their pairs in order |
| Pki.Machine.Issue | src/pki.rs:87-104 | The CA, then the configuration, then the seven leaves in literal order, fail-fast. On success the bundle holds the CA pair from `setup_ca` |
| Pki.Machine.NewPki | src/pki.rs:56-105 | Behaves as `NewSpec`: directory, then first service address, then the plan; result, files and trace all agree |
| Issuance.Exec | src/pki.rs:87-104 | Fail-fast execution of steps, every `?` of the source (no contract of its own; see `Issuance.ExecShape`, `Issuance.ExecFirstFailure`, `Issuance.ExecAllSucceed`, `Issuance.ExecAppend`) |
| Issuance.ExecShape | src/pki.rs:87-102 | The steps tried are a prefix of the plan; all of it when nothing failed; otherwise they end with the failing step; each earlier step succeeded |
| Issuance.ExecFirstFailure | src/pki.rs:95-102 | When step `n` is the first to fail, exactly the steps before it take effect and the steps up to it are tried |
| Issuance.ExecAllSucceed | src/pki.rs:95-104 | A run succeeds iff every step does, and then all of them take effect |
| Issuance.ExecAppend | src/pki.rs:87-104 | Running `p + q` is running `p` and, only if it succeeded, `q` |
| Issuance.IdentityOf | src/pki.rs:140-189 | The role table: common name, organization, output name and CSR file of each leaf (no contract of its own; see `Properties.LeafRequests`, `Properties.LeafOutputs`, `Issuance.SharedCsrFile`, `Issuance.DistinctOutputNames`) |
| Issuance.SharedCsrFile | src/pki.rs:164 | The only two leaf roles sharing a CSR file are the administrator and the proxy |
| Issuance.DistinctOutputNames | src/pki.rs:140-189 | Two leaf roles share an output name only if one is the kubelet and the host name equals a fixed name |
| Issuance.LeafPairsInOrder | src/pki.rs:95-102 | The leaf pairs come in the order administrator, API server, controller manager, kubelet, proxy, scheduler, service account |
| Issuance.IssuancePlan | src/pki.rs:87-104 | The steps after the directory and the address (no contract of its own; see `Properties.PlanHead`, `Properties.PlanLayout`) |
| Issuance.NewSpec | src/pki.rs:56-104 | The whole of `Pki::new` as a function (no contract of its own; `Pki.Machine.NewPki` follows it; see `Properties.NewPkiOutcome` and the lemmas after it) |
| Properties.LeavesPlanAt | src/pki.rs:95-102 | The leaves' steps alternate each role's CSR write and its signing, role by role |
| Properties.PlanHead | src/pki.rs:87-93 | The plan has 17 steps and opens with the CA's CSR, its self-signing and the configuration write |
| Properties.PlanLayout | src/pki.rs:87-104 | After those three come, for each leaf in literal order, its CSR write and then its signing |
| Properties.LeafRequests | src/pki.rs:140-189 | Each leaf's CSR has its fixed common name and organization and goes to its own fixed file, except that the proxy's goes to `admin-csr.json` |
| Properties.LeafOutputs | src/pki.rs:140-189 | Each leaf is signed into `<dir>/<name>`: admin, kubernetes, kube-controller-manager, the host name, kube-proxy, kube-scheduler, service-account |
| Properties.BundleNames | src/pki.rs:95-104 | The bundle holds `Pair::new(dir, "ca")` and each leaf's pair under its output name |
| Properties.ProxyReusesAdminCsr | src/pki.rs:162-167 | The administrator is signed from `admin-csr.json`; later the proxy writes its own request to that same file and is signed from it |
| Properties.PlanEngineCalls | src/pki.rs:191-223 | The engine runs eight times: the CA first, then each leaf in order. Every leaf run uses the same CA pair, configuration, profile and host names |
| Properties.LeavesEngineCalls | src/pki.rs:194-212 | The engine runs of the leaves are the roles' calls, one per role, in order |
| Properties.NewPkiTrace | src/pki.rs:56-104 | Every run starts by creating the directory and then tries a prefix of the plan; every step tried succeeded except possibly the last |
| Properties.NewPkiOutcome | src/pki.rs:87-104 | A run succeeds iff every plan step does. On success it returns the expected bundle, the whole plan was run and the files are its effects. On failure the error is that of the last step tried, which failed |
| Properties.StopsAtFirstFailure | src/pki.rs:87-102 | When a plan step fails, the run tries exactly the steps up to the first failing one, keeps only their effects and returns that step's error (a failed write truncates nothing in the model; see "## Left out") |
| Properties.FailsAtProxyCsr | src/pki.rs:162-165 | When the proxy's CSR write is the first failing step, the run returns the write error of `admin-csr.json` after thirteen steps |
| Properties.ProxyWriteCanFail | src/pki.rs:162-165 | An oracle refusing only the proxy's request makes that write fail, though the administrator's write to the same file succeeded |
| Properties.DirectoryFirst | src/pki.rs:60-61 | If the directory cannot be created, the run fails with that error and nothing else is tried or changed |
| Properties.SingleAddressNetworkFails | src/pki.rs:64-70 | A /32 service network fails after the directory, with nothing written or signed |
| Properties.CaBeforeLeaves | src/pki.rs:87-102 | A leaf is signed only after the CA's self-signing and the configuration write, both successful, are in the trace |
| Properties.NothingWritesAdminCsrAfterProxy | src/pki.rs:164-189 | No step after the proxy's CSR write touches `admin-csr.json` |
| Properties.AdminCsrOverwritten | src/pki.rs:162-167 | After a successful run, `admin-csr.json` holds the proxy's request |

## Left out

- Process spawning, the stdout pipe, `output()` and exit statuses of `cfssl`/`cfssljson` (src/pki.rs:114-135, 194-219). These become the oracle `Env.engineOk`. A failed spawn or a missing pipe is folded into the same failure as a non-zero exit.
- X.509 and RSA: the certificate and key files hold which engine run produced them, not bytes.
- `to_string_pretty` text. Files hold `Document` values, and `ToJson` gives their JSON values, not the serialized text. An object is a map keyed by name.
- `create_dir_all` needs no existing parent in the model. It succeeds or fails as the oracle says, and adds only the directory itself.
- The IPv6 variant's contents: any non-IPv4 network yields loopback. The internals of `ipnetwork` are replaced by the definition of `nth`.
- Logging (`info!`, `debug!`) and the `String::from_utf8` of diagnostics (src/pki.rs:132-133, 216-217). A diagnostic that is not UTF-8 would change the error message only.
- `crate::Config` is not part of this model. `root`, `pki.dir` and the service network are parameters of `NewPki`.
- Outputs of `cfssljson` other than the PEM pair, such as the `.csr` file. A failed engine run is modelled as writing nothing.
- Outcomes of steps depend only on the step: the directory, the destination together with the document, or the engine invocation. A failure caused by the file system's state at that moment, such as a missing permission or a full disk, is a refusal of that step; what a refused write leaves behind is the next line. Every step of a run's plan differs from the others, so any of them can be the first to fail (`ProxyWriteCanFail` shows this for the proxy's write to `admin-csr.json`).
- A refused write is modelled as leaving its destination exactly as it was. `fs::write` (src/pki.rs:242, 266) creates or truncates the file before writing, so a write that fails part-way, on a full disk say, can leave `dest` empty or partial: a first run can leave an empty `ca-csr.json`, and a failed proxy write can leave `admin-csr.json` without the administrator's request. The lines below name the contracts this affects.
- Properties.WriteCsrEffect: states `run.fs == fs` after a refused CSR write, where the real file may have been truncated.
- Pki.Machine.WriteCsr: states `files == old(files)` after a refused write, where the real `dest` may have been truncated.
- Properties.StopsAtFirstFailure: states that the files after a failure are exactly the effects of the steps before it. If the failing step is a write, its destination may in fact have been truncated as well.
- Paths are compared as text, with no normalisation; `.` and `..` are not resolved.
- Pki.Machine.IssueLeaves: the seven field initialisers of the `Pki` literal (src/pki.rs:96-102) are one recursion over the role list in literal order, not seven statements.
- Pki.Machine.NewPki: the `Result` error values carry the failing path or network. The exact message texts are not modelled.
