/**
 * The two JSON documents `src/pki.rs` writes for the signing engine: the
 * certificate signing request of `write_csr` and the signing profile of
 * `write_ca_config`.  A document is the value the `json!` macro builds;
 * objects are maps, since serde_json keeps object members keyed by name.
 * The readers give the typed view the engine takes from each document.
 */
module Documents {
  import opened Options

  datatype Json =
    | JString(str: string)
    | JNumber(num: int)
    | JArray(items: seq<Json>)
    | JObject(members: map<string, Json>)

  /** The two kinds of document a run writes, by what determines them. */
  datatype Document = Csr(cn: string, org: string) | CaConfig

  /** The JSON value of a document, as the `json!` macro builds it. */
  function ToJson(d: Document): Json
  {
    match d
    case Csr(cn, org) => CsrJson(cn, org)
    case CaConfig => CaConfigJson()
  }

  /** The document `write_csr(cn, o, _)` writes. */
  function CsrJson(cn: string, o: string): Json
  {
    JObject(map[
      "CN" := JString(cn),
      "key" := JObject(map["algo" := JString("rsa"), "size" := JNumber(2048)]),
      "names" := JArray([
        JObject(map[
          "C" := JString("US"),
          "L" := JString("Portland"),
          "O" := JString(o),
          "OU" := JString("Kubernetes"),
          "ST" := JString("Oregon")])])])
  }

  /** The document `write_ca_config` writes. */
  function CaConfigJson(): Json
  {
    JObject(map[
      "signing" := JObject(map[
        "default" := JObject(map["expiry" := JString("8760h")]),
        "profiles" := JObject(map[
          "kubernetes" := JObject(map[
            "usages" := JArray([
              JString("signing"),
              JString("key encipherment"),
              JString("server auth"),
              JString("client auth")]),
            "expiry" := JString("8760h")])])])])
  }

  datatype KeyPolicy = KeyPolicy(algo: string, size: int)
  datatype NameEntry = NameEntry(country: string, locality: string, organization: string,
                                 unit: string, state: string)
  datatype CsrRequest = CsrRequest(cn: string, key: KeyPolicy, names: seq<NameEntry>)

  datatype Profile = Profile(usages: seq<string>, expiry: string)
  datatype SigningPolicy = SigningPolicy(defaultExpiry: string, profiles: map<string, Profile>)

  function StringMember(m: map<string, Json>, k: string): Option<string>
  {
    if k in m && m[k].JString? then Some(m[k].str) else None
  }

  function ReadKey(j: Json): Option<KeyPolicy>
  {
    match j
    case JObject(m) =>
      if m.Keys == {"algo", "size"} && m["algo"].JString? && m["size"].JNumber?
      then Some(KeyPolicy(m["algo"].str, m["size"].num))
      else None
    case _ => None
  }

  function ReadName(j: Json): Option<NameEntry>
  {
    match j
    case JObject(m) =>
      if m.Keys == {"C", "L", "O", "OU", "ST"}
         && StringMember(m, "C").Some? && StringMember(m, "L").Some?
         && StringMember(m, "O").Some? && StringMember(m, "OU").Some?
         && StringMember(m, "ST").Some?
      then Some(NameEntry(m["C"].str, m["L"].str, m["O"].str, m["OU"].str, m["ST"].str))
      else None
    case _ => None
  }

  function ReadNames(items: seq<Json>): (r: Option<seq<NameEntry>>)
    ensures r.Some? ==> |r.value| == |items|
  {
    if |items| == 0 then Some([])
    else
      var first := ReadName(items[0]);
      var rest := ReadNames(items[1..]);
      if first.Some? && rest.Some? then Some([first.value] + rest.value) else None
  }

  /** The signing request a CSR document describes, if it has the CSR shape. */
  function ReadCsr(j: Json): Option<CsrRequest>
  {
    match j
    case JObject(m) =>
      if m.Keys == {"CN", "key", "names"} && m["CN"].JString? && m["names"].JArray? then
        var key := ReadKey(m["key"]);
        var names := ReadNames(m["names"].items);
        if key.Some? && names.Some? then Some(CsrRequest(m["CN"].str, key.value, names.value))
        else None
      else None
    case _ => None
  }

  function ReadStrings(items: seq<Json>): (r: Option<seq<string>>)
    ensures r.Some? ==> |r.value| == |items|
  {
    if |items| == 0 then Some([])
    else if items[0].JString? then
      match ReadStrings(items[1..])
      case Some(rest) => Some([items[0].str] + rest)
      case None => None
    else None
  }

  function ReadProfile(j: Json): Option<Profile>
  {
    match j
    case JObject(m) =>
      if m.Keys == {"usages", "expiry"} && m["usages"].JArray? && m["expiry"].JString? then
        match ReadStrings(m["usages"].items)
        case Some(us) => Some(Profile(us, m["expiry"].str))
        case None => None
      else None
    case _ => None
  }

  function ReadProfiles(m: map<string, Json>): Option<map<string, Profile>>
  {
    if forall k :: k in m ==> ReadProfile(m[k]).Some?
    then Some(map k | k in m :: ReadProfile(m[k]).value)
    else None
  }

  /** The signing policy a configuration document describes, if it has that shape. */
  function ReadSigningConfig(j: Json): Option<SigningPolicy>
  {
    match j
    case JObject(top) =>
      if top.Keys == {"signing"} && top["signing"].JObject? then
        var s := top["signing"].members;
        if s.Keys == {"default", "profiles"} && s["default"].JObject? && s["profiles"].JObject? then
          var d := s["default"].members;
          if d.Keys == {"expiry"} && d["expiry"].JString? then
            match ReadProfiles(s["profiles"].members)
            case Some(ps) => Some(SigningPolicy(d["expiry"].str, ps))
            case None => None
          else None
        else None
      else None
    case _ => None
  }

  lemma ReadNamesSingle(j: Json)
    ensures ReadNames([j]) == if ReadName(j).Some? then Some([ReadName(j).value]) else None
  {
    assert [j][1..] == [];
    assert ReadNames([]) == Some([]);
    if ReadName(j).Some? {
      assert [ReadName(j).value] + [] == [ReadName(j).value];
    }
  }

  lemma ReadStringsCons(x: string, rest: seq<Json>)
    ensures ReadStrings([JString(x)] + rest)
         == if ReadStrings(rest).Some? then Some([x] + ReadStrings(rest).value) else None
  {
    assert ([JString(x)] + rest)[1..] == rest;
  }

  /**
   * The CSR document names `cn` as its common name, asks for a 2048-bit RSA
   * key and carries exactly one subject entry, whose organization is `o`.
   */
  lemma CsrDocumentContents(cn: string, o: string)
    ensures ReadCsr(CsrJson(cn, o))
         == Some(CsrRequest(cn, KeyPolicy("rsa", 2048),
                            [NameEntry("US", "Portland", o, "Kubernetes", "Oregon")]))
  {
    var m := CsrJson(cn, o).members;
    assert m.Keys == {"CN", "key", "names"};
    var key := m["key"].members;
    assert key.Keys == {"algo", "size"};
    assert ReadKey(m["key"]) == Some(KeyPolicy("rsa", 2048));
    var names := m["names"].items;
    var entry := names[0].members;
    assert entry.Keys == {"C", "L", "O", "OU", "ST"};
    assert ReadName(names[0]) == Some(NameEntry("US", "Portland", o, "Kubernetes", "Oregon"));
    ReadNamesSingle(names[0]);
    assert names == [names[0]];
  }

  /** Different documents have different JSON values. */
  lemma ToJsonInjective(d: Document, e: Document)
    requires ToJson(d) == ToJson(e)
    ensures d == e
  {
    if d.Csr? && e.Csr? {
      CsrDocumentContents(d.cn, d.org);
      CsrDocumentContents(e.cn, e.org);
    } else if d.Csr? {
      CsrIsNotCaConfig(d.cn, d.org);
    } else if e.Csr? {
      CsrIsNotCaConfig(e.cn, e.org);
    }
  }

  lemma CsrIsNotCaConfig(cn: string, o: string)
    ensures ToJson(Csr(cn, o)) != ToJson(CaConfig)
  {
    assert "signing" in CaConfigJson().members;
  }

  const KubernetesUsages: seq<string> := ["signing", "key encipherment", "server auth", "client auth"]

  /**
   * The configuration document sets a default expiry of 8760h and one profile,
   * "kubernetes", with expiry 8760h and exactly the four usages, in order.
   */
  lemma CaConfigContents()
    ensures ReadSigningConfig(CaConfigJson())
         == Some(SigningPolicy("8760h", map["kubernetes" := Profile(KubernetesUsages, "8760h")]))
  {
    var usages := [JString("signing"), JString("key encipherment"),
                   JString("server auth"), JString("client auth")];
    ReadStringsCons("client auth", []);
    assert ReadStrings([]) == Some([]);
    assert [JString("client auth")] + [] == usages[3..];
    assert ["client auth"] + [] == KubernetesUsages[3..];
    assert ReadStrings(usages[3..]) == Some(KubernetesUsages[3..]);
    ReadStringsCons("server auth", usages[3..]);
    assert [JString("server auth")] + usages[3..] == usages[2..];
    assert [KubernetesUsages[2]] + KubernetesUsages[3..] == KubernetesUsages[2..];
    assert ReadStrings(usages[2..]) == Some(KubernetesUsages[2..]);
    ReadStringsCons("key encipherment", usages[2..]);
    assert [JString("key encipherment")] + usages[2..] == usages[1..];
    assert [KubernetesUsages[1]] + KubernetesUsages[2..] == KubernetesUsages[1..];
    assert ReadStrings(usages[1..]) == Some(KubernetesUsages[1..]);
    ReadStringsCons("signing", usages[1..]);
    assert [JString("signing")] + usages[1..] == usages;
    assert [KubernetesUsages[0]] + KubernetesUsages[1..] == KubernetesUsages;
    assert ReadStrings(usages) == Some(KubernetesUsages);
    var top := CaConfigJson().members;
    assert top.Keys == {"signing"};
    var signing := top["signing"].members;
    assert signing.Keys == {"default", "profiles"};
    assert signing["default"].members.Keys == {"expiry"};
    var profiles := signing["profiles"].members;
    assert profiles.Keys == {"kubernetes"};
    var profile := profiles["kubernetes"];
    assert profile.members.Keys == {"usages", "expiry"};
    assert profile.members["usages"].items == usages;
    assert ReadProfile(profile) == Some(Profile(KubernetesUsages, "8760h"));
    var expected := map["kubernetes" := Profile(KubernetesUsages, "8760h")];
    assert forall k :: k in profiles ==> k == "kubernetes";
    assert forall k :: k in profiles ==> ReadProfile(profiles[k]).Some?;
    var read := map k | k in profiles :: ReadProfile(profiles[k]).value;
    assert read.Keys == expected.Keys;
    assert read["kubernetes"] == expected["kubernetes"];
    assert read == expected;
    assert ReadProfiles(profiles) == Some(expected);
  }
}
