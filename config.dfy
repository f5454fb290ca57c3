/**
 * The run's configuration: its defaults, the helpers that derive values from
 * the environment, and the order in which `Load` builds the configuration.
 *
 * Durations are whole seconds. Only the fields the rest of the model reads,
 * and the ones `Load` treats specially, are kept.
 */
module Config {

  import opened Wrappers
  import opened Strings

  const MasterServersCount: int := 3
  const WorkersCount: int := 20
  const LoadBalancerDefaultPort: int := 6443
  /** Seconds between two attempts of a retry loop. */
  const WaitTimeInRetry: nat := 3
  const RetryTimeLimit: int := 20
  const SecretString: string := "<secret>"
  const LocationFalkenstein: string := "fsn1"
  const LocationNuremberg: string := "nbg1"
  const LocationHelsinki: string := "hel1"
  const DefaultLocation: string := LocationFalkenstein
  const DefaultDatacenter: string := LocationFalkenstein + "-dc14"
  /** The comma-separated instance list "cpx11,cpx21,cx22,cpx31,cx32,cpx41,cx42,cx52,cpx51", built from its pieces. */
  const DefaultAutoscalerInstances: string := Join(ServerTypes, ',')
  const DefaultIPRange: string := "10.0.0.0/16"
  const ArchivePrefix: string := "https://github.com/maksim-paskal/hcloud-k8s-ctl/archive/refs/heads/"
  const FolderPrefix: string := "hcloud-k8s-ctl-"

  /** Where a server fetches the provisioning scripts from. */
  datatype InitParams = InitParams(tarGz: string, folder: string)

  datatype MasterServers = MasterServers(
    namePattern: string,
    placementGroupName: string,
    serverType: string,
    labels: map<string, string>,
    waitTimeInRetry: nat,
    retryTimeLimit: int,
    initParams: InitParams)

  datatype MasterLoadBalancer = MasterLoadBalancer(loadBalancerType: string, listenPort: int, destinationPort: int)

  /** One group of the cluster autoscaler's values. */
  datatype AutoscalingGroup = AutoscalingGroup(name: string, minSize: int, maxSize: int)

  /** The configuration (`Type`). */
  datatype Settings = Settings(
    clusterName: string,
    kubeConfigPath: string,
    hetznerToken: string,
    ipRange: string,
    ipRangeSubnet: string,
    sshPrivateKey: string,
    sshPublicKey: string,
    masterCount: int,
    location: string,
    datacenter: string,
    masterServers: MasterServers,
    masterLoadBalancer: MasterLoadBalancer,
    clusterAutoscaler: seq<AutoscalingGroup>)

  datatype ConfigError =
    | NoHetznerToken
    | ReadFailed          // "failed to read config file"
    | UnmarshalFailed     // "failed to unmarshal config file"
    | ExpandFailed(field: string)
    | BadIPRange          // "failed to parse ip range"
    | BadIPRangeSubnet    // "failed to parse ip range subnet"

  /** `os.Getenv`: the variable's value, or "" when it is unset. */
  function Getenv(env: map<string, string>, name: string): string {
    if name in env then env[name] else ""
  }

  /** `envDefault`: the variable's value when it is set and non-empty, else the default. */
  function EnvDefault(env: map<string, string>, name: string, defaultValue: string): (r: string)
    ensures name in env && |env[name]| > 0 ==> r == env[name]
    ensures !(name in env && |env[name]| > 0) ==> r == defaultValue
  {
    var e := Getenv(env, name);
    if |e| > 0 then e else defaultValue
  }

  /** `envDefault` yields an empty string only when both sources are empty. */
  lemma EnvDefaultEmpty(env: map<string, string>, name: string, defaultValue: string)
    ensures |EnvDefault(env, name, defaultValue)| == 0 <==> |Getenv(env, name)| == 0 && |defaultValue| == 0
  {
  }

  /** `getDefaultMasterServersInitParams`: the archive and folder of a branch. */
  function DefaultMasterServersInitParams(branch: string): (r: InitParams)
    ensures HasPrefix(r.tarGz, ArchivePrefix) && HasSuffix(r.tarGz, ".tar.gz")
    ensures |r.tarGz| == |ArchivePrefix| + |branch| + 7
    ensures HasPrefix(r.folder, FolderPrefix)
  {
    InitParams(ArchivePrefix + branch + ".tar.gz", FolderPrefix + branch)
  }

  /** The branch can be read back from either field, so distinct branches give distinct parameters. */
  lemma InitParamsBranch(branch: string)
    ensures TrimPrefix(DefaultMasterServersInitParams(branch).folder, FolderPrefix) == branch
    ensures var t := DefaultMasterServersInitParams(branch).tarGz;
      t[|ArchivePrefix|..|t| - 7] == branch
  {
    var p := DefaultMasterServersInitParams(branch);
    assert HasPrefix(p.folder, FolderPrefix);
    assert (FolderPrefix + branch)[|FolderPrefix|..] == branch;
    var t := p.tarGz;
    assert t == ArchivePrefix + branch + ".tar.gz";
    assert t[|ArchivePrefix|..|t| - 7] == branch;
  }

  lemma InitParamsInjective(b1: string, b2: string)
    requires DefaultMasterServersInitParams(b1) == DefaultMasterServersInitParams(b2)
    ensures b1 == b2
  {
    InitParamsBranch(b1);
    InitParamsBranch(b2);
  }

  /** The autoscaler's default locations, in the source's order. */
  const DefaultLocations: seq<string> := [LocationFalkenstein, LocationNuremberg, LocationHelsinki]

  /** The server types of `DefaultAutoscalerInstances`, one by one. */
  const ServerTypes: seq<string> := ["cpx11", "cpx21", "cx22", "cpx31", "cx32", "cpx41", "cx42", "cx52", "cpx51"]

  /** Splitting the instance list on ',' yields the nine server types. */
  lemma DefaultServersSplit()
    ensures Split(DefaultAutoscalerInstances, ',') == ServerTypes
  {
    forall k | 0 <= k < |ServerTypes|
      ensures ',' !in ServerTypes[k]
    {
    }
    JoinSplit(ServerTypes, ',');
  }

  /** The group name `UPPER(server):UPPER(location):server-location`. */
  function GroupName(server: string, location: string): string {
    ToUpper(server) + [':'] + (ToUpper(location) + [':'] + (server + ['-'] + location))
  }

  /** The group of a server type in a location: from 0 up to `WorkersCount` nodes. */
  function Group(server: string, location: string): AutoscalingGroup {
    AutoscalingGroup(GroupName(server, location), 0, WorkersCount)
  }

  /** One location's groups: every server type in list order. */
  function Row(servers: seq<string>, location: string): (r: seq<AutoscalingGroup>)
    ensures |r| == |servers|
    ensures forall k :: 0 <= k < |r| ==> r[k] == Group(servers[k], location)
  {
    seq(|servers|, k requires 0 <= k < |servers| => Group(servers[k], location))
  }

  /** Growing a row by one server type, after any groups already collected. */
  lemma RowExtend(done: seq<AutoscalingGroup>, servers: seq<string>, i: nat, location: string)
    requires i < |servers|
    ensures done + Row(servers[..i + 1], location) == done + Row(servers[..i], location) + [Group(servers[i], location)]
  {
    assert Row(servers[..i + 1], location) == Row(servers[..i], location) + [Group(servers[i], location)];
  }

  /** The groups of every location in turn (location-major), each location's row in server order. */
  function GroupTable(servers: seq<string>, locations: seq<string>): seq<AutoscalingGroup>
    decreases |locations|
  {
    if |locations| == 0 then []
    else GroupTable(servers, locations[..|locations| - 1]) + Row(servers, locations[|locations| - 1])
  }

  lemma TableExtend(servers: seq<string>, locations: seq<string>, i: nat)
    requires i < |locations|
    ensures GroupTable(servers, locations[..i + 1]) ==
      GroupTable(servers, locations[..i]) + Row(servers[..|servers|], locations[i])
  {
    assert servers[..|servers|] == servers;
    assert locations[..i + 1][..i] == locations[..i];
  }

  /** For nine server types, entry `i` of the table is type `i % 9` in location `i / 9`. */
  lemma {:induction false} GroupTableIndex(servers: seq<string>, locations: seq<string>)
    requires |servers| == 9
    ensures |GroupTable(servers, locations)| == 9 * |locations|
    ensures forall i :: 0 <= i < 9 * |locations| ==>
      GroupTable(servers, locations)[i] == Group(servers[i % 9], locations[i / 9])
    decreases |locations|
  {
    if |locations| > 0 {
      var n := |locations| - 1;
      var front := locations[..n];
      GroupTableIndex(servers, front);
      var r := GroupTable(servers, locations);
      forall i | 0 <= i < 9 * |locations|
        ensures r[i] == Group(servers[i % 9], locations[i / 9])
      {
        if i < 9 * n {
          assert i / 9 < n;
          assert front[i / 9] == locations[i / 9];
        } else {
          TablePosition(n, i - 9 * n);
        }
      }
    }
  }

  /** Position `9 * li + si` of the table holds server type `si` in location `li`. */
  lemma TablePosition(li: nat, si: nat)
    requires si < 9
    ensures (9 * li + si) / 9 == li && (9 * li + si) % 9 == si
  {
  }

  /** The default autoscaling groups: the table of the nine server types over the three locations. */
  function DefaultAutoscalingGroups(): (r: seq<AutoscalingGroup>)
    ensures |r| == |DefaultLocations| * |ServerTypes| == 27
    ensures forall i :: 0 <= i < |r| ==>
      r[i] == Group(ServerTypes[i % |ServerTypes|], DefaultLocations[i / |ServerTypes|])
  {
    GroupTableIndex(ServerTypes, DefaultLocations);
    GroupTable(ServerTypes, DefaultLocations)
  }

  /** Splitting on the first occurrence of a character no prefix contains. */
  lemma CutAt(a: string, b: string, c: string, d: string, sep: char)
    requires sep !in a && sep !in c
    requires a + [sep] + b == c + [sep] + d
    ensures a == c && b == d
  {
    var s := a + [sep] + b;
    var t := c + [sep] + d;
    assert forall k :: 0 <= k < |a| ==> s[k] == a[k];
    assert forall k :: 0 <= k < |c| ==> t[k] == c[k];
    assert s[|a|] == sep && t[|c|] == sep;
    assert |a| == |c|;
    assert a == s[..|a|];
    assert c == t[..|c|];
    assert b == s[|a| + 1..];
    assert d == t[|c| + 1..];
  }

  /** Upper-casing introduces no character that is not a letter. */
  lemma UpperKeeps(s: string, ch: char)
    requires ch !in s && !('a' <= ch <= 'z') && !('A' <= ch <= 'Z')
    ensures ch !in ToUpper(s)
  {
    forall k | 0 <= k < |s|
      ensures ToUpper(s)[k] != ch
    {
    }
  }

  /**
   * Group names identify their server type and location when neither holds a
   * ':' and the server type holds no '-'.
   */
  lemma GroupNameInjective(s1: string, l1: string, s2: string, l2: string)
    requires ':' !in s1 && ':' !in s2 && ':' !in l1 && ':' !in l2
    requires '-' !in s1 && '-' !in s2
    ensures GroupName(s1, l1) == GroupName(s2, l2) ==> s1 == s2 && l1 == l2
  {
    if GroupName(s1, l1) == GroupName(s2, l2) {
      UpperKeeps(s1, ':');
      UpperKeeps(s2, ':');
      CutAt(ToUpper(s1), ToUpper(l1) + [':'] + (s1 + ['-'] + l1),
            ToUpper(s2), ToUpper(l2) + [':'] + (s2 + ['-'] + l2), ':');
      UpperKeeps(l1, ':');
      UpperKeeps(l2, ':');
      CutAt(ToUpper(l1), s1 + ['-'] + l1, ToUpper(l2), s2 + ['-'] + l2, ':');
      CutAt(s1, l1, s2, l2, '-');
    }
  }

  /** Distinct positions of the 27-element table differ in server type or in location. */
  lemma GroupIndexDistinct(i: int, j: int)
    requires 0 <= i < j
    ensures i % 9 != j % 9 || i / 9 != j / 9
  {
    assert i == (i / 9) * 9 + i % 9;
    assert j == (j / 9) * 9 + j % 9;
  }

  /** No server type holds a ':' or a '-'. */
  lemma ServerTypesPlain()
    ensures forall a :: 0 <= a < |ServerTypes| ==> ':' !in ServerTypes[a] && '-' !in ServerTypes[a]
  {
  }

  /** The nine server types are pairwise distinct. */
  lemma ServerTypesDistinct()
    ensures forall a, b :: 0 <= a < |ServerTypes| && 0 <= b < |ServerTypes| && ServerTypes[a] == ServerTypes[b] ==> a == b
  {
  }

  /** The three locations are pairwise distinct and hold no ':'. */
  lemma LocationsPlain()
    ensures forall a :: 0 <= a < |DefaultLocations| ==> ':' !in DefaultLocations[a]
    ensures forall a, b ::
      0 <= a < |DefaultLocations| && 0 <= b < |DefaultLocations| && DefaultLocations[a] == DefaultLocations[b] ==> a == b
  {
  }

  /** The 27 default groups have pairwise distinct names and sizes 0..20. */
  lemma DefaultGroupsDistinct()
    ensures forall i, j :: 0 <= i < j < |DefaultAutoscalingGroups()| ==>
      DefaultAutoscalingGroups()[i].name != DefaultAutoscalingGroups()[j].name
    ensures forall i :: 0 <= i < |DefaultAutoscalingGroups()| ==>
      DefaultAutoscalingGroups()[i].minSize == 0 && DefaultAutoscalingGroups()[i].maxSize == WorkersCount
  {
    var r := DefaultAutoscalingGroups();
    ServerTypesPlain();
    ServerTypesDistinct();
    LocationsPlain();
    forall i, j | 0 <= i < j < |r| ensures r[i].name != r[j].name {
      GroupNameInjective(ServerTypes[i % 9], DefaultLocations[i / 9], ServerTypes[j % 9], DefaultLocations[j / 9]);
      GroupIndexDistinct(i, j);
    }
  }

  /**
   * `getDefaultClusterAutoscaler`: for each default location, for each server
   * type of the instance list, append that location's group for that type.
   */
  method GetDefaultClusterAutoscaler() returns (result: seq<AutoscalingGroup>)
    ensures result == DefaultAutoscalingGroups()
  {
    var servers := Split(DefaultAutoscalerInstances, ',');
    result := CollectGroups(servers, DefaultLocations);
    DefaultServersSplit();
  }

  /** The nested loops of `getDefaultClusterAutoscaler`, over the server types and locations given. */
  method CollectGroups(servers: seq<string>, locations: seq<string>) returns (result: seq<AutoscalingGroup>)
    ensures result == GroupTable(servers, locations)
  {
    result := [];
    var li := 0;
    while li < |locations|
      invariant 0 <= li <= |locations|
      invariant result == GroupTable(servers, locations[..li])
    {
      var si := 0;
      while si < |servers|
        invariant 0 <= si <= |servers|
        invariant result == GroupTable(servers, locations[..li]) + Row(servers[..si], locations[li])
      {
        RowExtend(GroupTable(servers, locations[..li]), servers, si, locations[li]);
        result := result + [Group(servers[si], locations[li])];
        si := si + 1;
      }
      TableExtend(servers, locations, li);
      li := li + 1;
    }
    assert locations[..li] == locations;
  }

  /** `hideSensitiveData`: every occurrence of `sensitive` masked, unless it is empty. */
  function HideSensitiveData(out: string, sensitive: string): (r: string)
    ensures |sensitive| == 0 ==> r == out
  {
    if |sensitive| == 0 then out else ReplaceAll(out, sensitive, SecretString)
  }

  /**
   * Masking leaves output without the secret unchanged, and changes the length
   * by the number of masked occurrences times the difference in length.
   */
  lemma HideSensitiveDataEffect(out: string, sensitive: string)
    requires |sensitive| > 0
    ensures !Contains(out, sensitive) ==> HideSensitiveData(out, sensitive) == out
    ensures |HideSensitiveData(out, sensitive)| ==
      |out| + Replaced(out, sensitive) * (|SecretString| - |sensitive|)
    ensures Contains(out, sensitive) && |sensitive| != |SecretString| ==>
      HideSensitiveData(out, sensitive) != out
  {
    ReplaceAllLength(out, sensitive, SecretString);
    if Contains(out, sensitive) {
      ReplacedPositive(out, sensitive);
      ProductNonZero(Replaced(out, sensitive), |SecretString| - |sensitive|);
    } else {
      ReplaceAllAbsent(out, sensitive, SecretString);
    }
  }

  lemma ProductNonZero(n: int, d: int)
    ensures n > 0 && d != 0 ==> n * d != 0
  {
  }

  /**
   * `expand`: a path starting with '~' has it replaced by the home directory
   * (`None` when the current user cannot be looked up); any other path is
   * returned as it is.
   */
  function Expand(path: string, home: Option<string>): (r: Result<string, ConfigError>)
    ensures (|path| == 0 || path[0] != '~') ==> r == Ok(path)
    ensures |path| > 0 && path[0] == '~' && home.None? ==> r.Err?
    ensures |path| > 0 && path[0] == '~' && home.Some? ==> r == Ok(JoinPath(home.value, path[1..]))
  {
    if |path| == 0 || path[0] != '~' then Ok(path)
    else if home.None? then Err(ExpandFailed(path))
    else Ok(JoinPath(home.value, path[1..]))
  }

  /** Expanding an expanded path changes nothing, for a home that does not start with '~'. */
  lemma ExpandIdempotent(path: string, home: string)
    requires |home| > 0 && home[0] != '~'
    ensures Expand(path, Some(home)).Ok?
    ensures Expand(Expand(path, Some(home)).value, Some(home)) == Expand(path, Some(home))
  {
  }

  /** `Check`: a configuration without a token is refused. */
  function Check(c: Settings): (r: Option<ConfigError>)
    ensures r.Some? <==> |c.hetznerToken| == 0
    ensures r.Some? ==> r.value == NoHetznerToken
  {
    if |c.hetznerToken| == 0 then Some(NoHetznerToken) else None
  }

  /** `defaultConfig`: the built-in values, with the token taken from `HCLOUD_TOKEN`. */
  function DefaultConfig(env: map<string, string>): (c: Settings)
    ensures c.hetznerToken == Getenv(env, "HCLOUD_TOKEN")
    ensures c.masterCount == MasterServersCount == 3
    ensures c.masterServers.retryTimeLimit == RetryTimeLimit == 20
    ensures c.masterServers.waitTimeInRetry == WaitTimeInRetry == 3
    ensures c.masterServers.labels == map["role" := "master"]
    ensures c.masterServers.namePattern == "master-%d"
    ensures c.masterServers.initParams == DefaultMasterServersInitParams("main")
    ensures c.masterLoadBalancer.listenPort == c.masterLoadBalancer.destinationPort == 6443
    ensures c.ipRange == DefaultIPRange && c.ipRangeSubnet == ""
    ensures c.clusterAutoscaler == DefaultAutoscalingGroups()
  {
    var privateKey := "~/.ssh/id_rsa";
    Settings(
      clusterName := "k8s",
      kubeConfigPath := "~/.kube/hcloud",
      hetznerToken := Getenv(env, "HCLOUD_TOKEN"),
      ipRange := DefaultIPRange,
      ipRangeSubnet := "",
      sshPrivateKey := privateKey,
      sshPublicKey := privateKey + ".pub",
      masterCount := MasterServersCount,
      location := DefaultLocation,
      datacenter := DefaultDatacenter,
      masterServers := MasterServers(
        namePattern := "master-%d",
        placementGroupName := "master-placement-group",
        serverType := "cx21",
        labels := map["role" := "master"],
        waitTimeInRetry := WaitTimeInRetry,
        retryTimeLimit := RetryTimeLimit,
        initParams := DefaultMasterServersInitParams("main")),
      masterLoadBalancer := MasterLoadBalancer("lb11", LoadBalancerDefaultPort, LoadBalancerDefaultPort),
      clusterAutoscaler := DefaultAutoscalingGroups())
  }

  /** The default configuration holds a token exactly when `HCLOUD_TOKEN` is non-empty. */
  lemma DefaultConfigChecked(env: map<string, string>)
    ensures Check(DefaultConfig(env)).None? <==> "HCLOUD_TOKEN" in env && |env["HCLOUD_TOKEN"]| > 0
  {
  }

  /**
   * The `masterServers` keys a configuration file sets (`None`: the key is
   * absent). Decoding a mapping into a struct or a map that is already
   * there changes only the keys the file names, so `labels` is merged into
   * the labels already set.
   */
  datatype MasterServersOverlay = MasterServersOverlay(
    namePattern: Option<string>,
    placementGroupName: Option<string>,
    serverType: Option<string>,
    labels: map<string, string>,
    waitTimeInRetry: Option<nat>,
    retryTimeLimit: Option<int>,
    tarGz: Option<string>,
    folder: Option<string>)

  /** The `masterLoadBalancer` keys a configuration file sets. */
  datatype LoadBalancerOverlay = LoadBalancerOverlay(
    loadBalancerType: Option<string>,
    listenPort: Option<int>,
    destinationPort: Option<int>)

  /**
   * The values a configuration file sets (`None`: the key is absent).
   * `autoscalingGroups` is the list under `cluster-autoscaler`'s
   * `autoscalingGroups` key, which replaces the default list as a whole.
   */
  datatype Overlay = Overlay(
    clusterName: Option<string>,
    kubeConfigPath: Option<string>,
    hetznerToken: Option<string>,
    ipRange: Option<string>,
    ipRangeSubnet: Option<string>,
    sshPrivateKey: Option<string>,
    sshPublicKey: Option<string>,
    masterCount: Option<int>,
    location: Option<string>,
    datacenter: Option<string>,
    masterServers: MasterServersOverlay,
    masterLoadBalancer: LoadBalancerOverlay,
    autoscalingGroups: Option<seq<AutoscalingGroup>>)

  /** A file that sets no key at all. */
  const NoKeys: Overlay := Overlay(
    None, None, None, None, None, None, None, None, None, None,
    MasterServersOverlay(None, None, None, map[], None, None, None, None),
    LoadBalancerOverlay(None, None, None),
    None)

  /** What reading and decoding the configuration file gave. */
  datatype ConfigFile = Unreadable | Malformed | Parsed(overlay: Overlay)

  function Pick<T>(o: Option<T>, v: T): T {
    if o.Some? then o.value else v
  }

  /** `after` is what decoding left in a field whose key the file sets to `key`, or does not set. */
  predicate Decoded<T(==)>(key: Option<T>, before: T, after: T) {
    (key.Some? ==> after == key.value) && (key.None? ==> after == before)
  }

  /** The file's labels are added to `before`, replacing the values of the labels it names. */
  predicate LabelsMerged(before: map<string, string>, file: map<string, string>, after: map<string, string>) {
    && after.Keys == before.Keys + file.Keys
    && (forall k :: k in file ==> after[k] == file[k])
    && (forall k :: k in before && k !in file ==> after[k] == before[k])
  }

  /**
   * `yaml.Unmarshal` into an existing configuration: every key present in
   * the file wins, every absent key keeps the value already there, nested
   * keys included, and labels are merged.
   */
  function Overlaid(c: Settings, o: Overlay): (r: Settings)
    ensures Decoded(o.clusterName, c.clusterName, r.clusterName)
    ensures Decoded(o.kubeConfigPath, c.kubeConfigPath, r.kubeConfigPath)
    ensures Decoded(o.hetznerToken, c.hetznerToken, r.hetznerToken)
    ensures Decoded(o.ipRange, c.ipRange, r.ipRange)
    ensures Decoded(o.ipRangeSubnet, c.ipRangeSubnet, r.ipRangeSubnet)
    ensures Decoded(o.sshPrivateKey, c.sshPrivateKey, r.sshPrivateKey)
    ensures Decoded(o.sshPublicKey, c.sshPublicKey, r.sshPublicKey)
    ensures Decoded(o.masterCount, c.masterCount, r.masterCount)
    ensures Decoded(o.location, c.location, r.location)
    ensures Decoded(o.datacenter, c.datacenter, r.datacenter)
    ensures Decoded(o.masterServers.namePattern, c.masterServers.namePattern, r.masterServers.namePattern)
    ensures Decoded(o.masterServers.placementGroupName, c.masterServers.placementGroupName,
                    r.masterServers.placementGroupName)
    ensures Decoded(o.masterServers.serverType, c.masterServers.serverType, r.masterServers.serverType)
    ensures LabelsMerged(c.masterServers.labels, o.masterServers.labels, r.masterServers.labels)
    ensures Decoded(o.masterServers.waitTimeInRetry, c.masterServers.waitTimeInRetry, r.masterServers.waitTimeInRetry)
    ensures Decoded(o.masterServers.retryTimeLimit, c.masterServers.retryTimeLimit, r.masterServers.retryTimeLimit)
    ensures Decoded(o.masterServers.tarGz, c.masterServers.initParams.tarGz, r.masterServers.initParams.tarGz)
    ensures Decoded(o.masterServers.folder, c.masterServers.initParams.folder, r.masterServers.initParams.folder)
    ensures Decoded(o.masterLoadBalancer.loadBalancerType, c.masterLoadBalancer.loadBalancerType,
                    r.masterLoadBalancer.loadBalancerType)
    ensures Decoded(o.masterLoadBalancer.listenPort, c.masterLoadBalancer.listenPort, r.masterLoadBalancer.listenPort)
    ensures Decoded(o.masterLoadBalancer.destinationPort, c.masterLoadBalancer.destinationPort,
                    r.masterLoadBalancer.destinationPort)
    ensures Decoded(o.autoscalingGroups, c.clusterAutoscaler, r.clusterAutoscaler)
  {
    var ms := c.masterServers;
    var mo := o.masterServers;
    var lb := c.masterLoadBalancer;
    var lo := o.masterLoadBalancer;
    Settings(
      clusterName := Pick(o.clusterName, c.clusterName),
      kubeConfigPath := Pick(o.kubeConfigPath, c.kubeConfigPath),
      hetznerToken := Pick(o.hetznerToken, c.hetznerToken),
      ipRange := Pick(o.ipRange, c.ipRange),
      ipRangeSubnet := Pick(o.ipRangeSubnet, c.ipRangeSubnet),
      sshPrivateKey := Pick(o.sshPrivateKey, c.sshPrivateKey),
      sshPublicKey := Pick(o.sshPublicKey, c.sshPublicKey),
      masterCount := Pick(o.masterCount, c.masterCount),
      location := Pick(o.location, c.location),
      datacenter := Pick(o.datacenter, c.datacenter),
      masterServers := MasterServers(
        namePattern := Pick(mo.namePattern, ms.namePattern),
        placementGroupName := Pick(mo.placementGroupName, ms.placementGroupName),
        serverType := Pick(mo.serverType, ms.serverType),
        labels := ms.labels + mo.labels,
        waitTimeInRetry := Pick(mo.waitTimeInRetry, ms.waitTimeInRetry),
        retryTimeLimit := Pick(mo.retryTimeLimit, ms.retryTimeLimit),
        initParams := InitParams(Pick(mo.tarGz, ms.initParams.tarGz), Pick(mo.folder, ms.initParams.folder))),
      masterLoadBalancer := MasterLoadBalancer(
        Pick(lo.loadBalancerType, lb.loadBalancerType),
        Pick(lo.listenPort, lb.listenPort),
        Pick(lo.destinationPort, lb.destinationPort)),
      clusterAutoscaler := Pick(o.autoscalingGroups, c.clusterAutoscaler))
  }

  /** A file that sets no key leaves the configuration as it was. */
  lemma OverlaidNoKeys(c: Settings)
    ensures Overlaid(c, NoKeys) == c
  {
  }

  /** Decoding the same file a second time changes nothing more. */
  lemma OverlaidIdempotent(c: Settings, o: Overlay)
    ensures Overlaid(Overlaid(c, o), o) == Overlaid(c, o)
  {
  }

  /**
   * The configuration `Load` has built before it decodes the file: the
   * defaults, the token from `.hcloudauth` (`None`: unreadable) when the
   * environment gave none, and the subnet defaulted to the range.
   */
  function Prepared(env: map<string, string>, hcloudAuth: Option<string>): (c: Settings)
    ensures c.ipRangeSubnet == DefaultIPRange
    ensures |Getenv(env, "HCLOUD_TOKEN")| > 0 ==> c.hetznerToken == Getenv(env, "HCLOUD_TOKEN")
    ensures |Getenv(env, "HCLOUD_TOKEN")| == 0 && hcloudAuth.Some? ==> c.hetznerToken == hcloudAuth.value
  {
    var c0 := DefaultConfig(env);
    var c1 := if |c0.hetznerToken| == 0 && hcloudAuth.Some? then c0.(hetznerToken := hcloudAuth.value) else c0;
    if |c1.ipRangeSubnet| == 0 then c1.(ipRangeSubnet := c1.ipRange) else c1
  }

  /** The configuration and error `Load` leaves behind. */
  datatype LoadState = LoadState(config: Settings, err: Option<ConfigError>)

  /** One path expansion of `Load`: on failure the field is left empty. */
  function ExpandStep(path: string, home: Option<string>): (string, bool)
  {
    match Expand(path, home)
    case Ok(p) => (p, true)
    case Err(_) => ("", false)
  }

  /** A path that no longer starts with '~'. */
  predicate Expanded(path: string) {
    |path| == 0 || path[0] != '~'
  }

  /**
   * The tail of `Load` once the file is decoded: expand the three paths in
   * turn, stopping at the first that fails, then check both ranges.
   */
  function ExpandPaths(c1: Settings, home: Option<string>, validCidr: string -> bool): (s: LoadState)
    ensures s.config == c1.(kubeConfigPath := s.config.kubeConfigPath,
                            sshPrivateKey := s.config.sshPrivateKey,
                            sshPublicKey := s.config.sshPublicKey)
    ensures s.err.None? ==> validCidr(c1.ipRange) && validCidr(c1.ipRangeSubnet)
    ensures s.err.None? && home.Some? && |home.value| > 0 && home.value[0] != '~' ==>
      Expanded(s.config.kubeConfigPath) && Expanded(s.config.sshPrivateKey) && Expanded(s.config.sshPublicKey)
  {
    var (kube, okKube) := ExpandStep(c1.kubeConfigPath, home);
    var c2 := c1.(kubeConfigPath := kube);
    if !okKube then LoadState(c2, Some(ExpandFailed("kubeConfigPath"))) else
    var (priv, okPriv) := ExpandStep(c2.sshPrivateKey, home);
    var c3 := c2.(sshPrivateKey := priv);
    if !okPriv then LoadState(c3, Some(ExpandFailed("sshPrivateKey"))) else
    var (pub, okPub) := ExpandStep(c3.sshPublicKey, home);
    var c4 := c3.(sshPublicKey := pub);
    if !okPub then LoadState(c4, Some(ExpandFailed("sshPublicKey")))
    else if !validCidr(c4.ipRange) then LoadState(c4, Some(BadIPRange))
    else if !validCidr(c4.ipRangeSubnet) then LoadState(c4, Some(BadIPRangeSubnet))
    else LoadState(c4, None)
  }

  /** The result of `Load`, step by step, from the configuration `c0` held before. */
  function Loaded(c0: Settings, file: ConfigFile, env: map<string, string>, hcloudAuth: Option<string>,
                  home: Option<string>, validCidr: string -> bool): LoadState
  {
    match file
    case Unreadable => LoadState(c0, Some(ReadFailed))
    case Malformed => LoadState(Prepared(env, hcloudAuth), Some(UnmarshalFailed))
    case Parsed(o) => ExpandPaths(Overlaid(Prepared(env, hcloudAuth), o), home, validCidr)
  }

  /**
   * The subnet is defaulted from the built-in range before the file is
   * decoded: a file that sets the range but not the subnet keeps the subnet
   * at the built-in range.
   */
  lemma SubnetKeepsDefault(c0: Settings, o: Overlay, env: map<string, string>, hcloudAuth: Option<string>,
                           home: Option<string>, validCidr: string -> bool)
    requires o.ipRangeSubnet.None?
    ensures Loaded(c0, Parsed(o), env, hcloudAuth, home, validCidr).config.ipRangeSubnet == DefaultIPRange
  {
  }

  /**
   * Token precedence: a token in the file wins; otherwise a non-empty
   * `HCLOUD_TOKEN`; otherwise the contents of `.hcloudauth`.
   */
  lemma TokenPrecedence(c0: Settings, o: Overlay, env: map<string, string>, hcloudAuth: Option<string>,
                        home: Option<string>, validCidr: string -> bool)
    ensures var t := Loaded(c0, Parsed(o), env, hcloudAuth, home, validCidr).config.hetznerToken;
      && (o.hetznerToken.Some? ==> t == o.hetznerToken.value)
      && (o.hetznerToken.None? && |Getenv(env, "HCLOUD_TOKEN")| > 0 ==> t == Getenv(env, "HCLOUD_TOKEN"))
      && (o.hetznerToken.None? && |Getenv(env, "HCLOUD_TOKEN")| == 0 && hcloudAuth.Some? ==> t == hcloudAuth.value)
  {
  }

  /**
   * Whatever the load's outcome after decoding, the choices the file makes
   * about where and what to run are those of the loaded configuration: the
   * steps after decoding only touch the three paths.
   */
  lemma FileChoicesLoaded(c0: Settings, o: Overlay, env: map<string, string>, hcloudAuth: Option<string>,
                          home: Option<string>, validCidr: string -> bool)
    ensures var c := Loaded(c0, Parsed(o), env, hcloudAuth, home, validCidr).config;
      && (o.location.Some? ==> c.location == o.location.value)
      && (o.datacenter.Some? ==> c.datacenter == o.datacenter.value)
      && (o.masterCount.Some? ==> c.masterCount == o.masterCount.value)
      && (o.masterServers.serverType.Some? ==> c.masterServers.serverType == o.masterServers.serverType.value)
      && (o.masterServers.serverType.None? ==> c.masterServers.serverType == "cx21")
      && (forall k :: k in o.masterServers.labels ==> k in c.masterServers.labels
                                                      && c.masterServers.labels[k] == o.masterServers.labels[k])
      && (o.masterLoadBalancer.loadBalancerType.Some? ==>
            c.masterLoadBalancer.loadBalancerType == o.masterLoadBalancer.loadBalancerType.value)
      && (o.autoscalingGroups.Some? ==> c.clusterAutoscaler == o.autoscalingGroups.value)
      && (o.autoscalingGroups.None? ==> c.clusterAutoscaler == DefaultAutoscalingGroups())
  {
    var p := Prepared(env, hcloudAuth);
    var r := Overlaid(p, o);
    assert Loaded(c0, Parsed(o), env, hcloudAuth, home, validCidr) == ExpandPaths(r, home, validCidr);
  }

  /**
   * A successful load has expanded every '~' path and validated both ranges;
   * an unreadable file changes nothing.
   */
  lemma LoadOutcome(c0: Settings, file: ConfigFile, env: map<string, string>, hcloudAuth: Option<string>,
                    home: string, validCidr: string -> bool)
    requires |home| > 0 && home[0] != '~'
    ensures var s := Loaded(c0, file, env, hcloudAuth, Some(home), validCidr);
      && (file.Unreadable? ==> s == LoadState(c0, Some(ReadFailed)))
      && (s.err.None? ==>
            && validCidr(s.config.ipRange) && validCidr(s.config.ipRangeSubnet)
            && Expanded(s.config.kubeConfigPath) && Expanded(s.config.sshPrivateKey)
            && Expanded(s.config.sshPublicKey))
  {
  }

  /** The process-wide configuration that `Get` hands out. */
  class ConfigStore {
    var config: Settings

    constructor (initial: Settings)
      ensures config == initial
    {
      config := initial;
    }

    /** `SetBranch`: point the provisioning scripts at another branch. */
    method SetBranch(branch: string)
      modifies this
      ensures config == old(config).(masterServers := old(config).masterServers.(
        initParams := DefaultMasterServersInitParams(branch)))
    {
      config := config.(masterServers := config.masterServers.(
        initParams := DefaultMasterServersInitParams(branch)));
    }

    /**
     * `Load`: read the file, reset to the defaults, take the token from
     * `.hcloudauth` if the environment gave none, default the subnet to the
     * range, decode the file over that, expand the three paths, and check
     * both ranges, returning the first error.
     */
    method Load(file: ConfigFile, env: map<string, string>, hcloudAuth: Option<string>,
                home: Option<string>, validCidr: string -> bool) returns (err: Option<ConfigError>)
      modifies this
      ensures LoadState(config, err) == Loaded(old(config), file, env, hcloudAuth, home, validCidr)
    {
      if file.Unreadable? {
        return Some(ReadFailed);
      }
      Reset(env, hcloudAuth);
      if file.Malformed? {
        return Some(UnmarshalFailed);
      }
      config := Overlaid(config, file.overlay);
      err := ExpandAndCheck(home, validCidr);
    }

    /**
     * The first steps of `Load`: the defaults, then the token from
     * `.hcloudauth` when none is set, then the subnet from the range when
     * none is set.
     */
    method Reset(env: map<string, string>, hcloudAuth: Option<string>)
      modifies this
      ensures config == Prepared(env, hcloudAuth)
    {
      config := DefaultConfig(env);
      if |config.hetznerToken| == 0 && hcloudAuth.Some? {
        config := config.(hetznerToken := hcloudAuth.value);
      }
      if |config.ipRangeSubnet| == 0 {
        config := config.(ipRangeSubnet := config.ipRange);
      }
    }

    /** The last steps of `Load`: expand the three paths, then parse both ranges. */
    method ExpandAndCheck(home: Option<string>, validCidr: string -> bool) returns (err: Option<ConfigError>)
      modifies this
      ensures LoadState(config, err) == ExpandPaths(old(config), home, validCidr)
    {
      var kubePath := ExpandStep(config.kubeConfigPath, home);
      config := config.(kubeConfigPath := kubePath.0);
      if !kubePath.1 {
        return Some(ExpandFailed("kubeConfigPath"));
      }
      var privatePath := ExpandStep(config.sshPrivateKey, home);
      config := config.(sshPrivateKey := privatePath.0);
      if !privatePath.1 {
        return Some(ExpandFailed("sshPrivateKey"));
      }
      var publicPath := ExpandStep(config.sshPublicKey, home);
      config := config.(sshPublicKey := publicPath.0);
      if !publicPath.1 {
        return Some(ExpandFailed("sshPublicKey"));
      }
      if !validCidr(config.ipRange) {
        return Some(BadIPRange);
      }
      if !validCidr(config.ipRangeSubnet) {
        return Some(BadIPRangeSubnet);
      }
      err := None;
    }
  }
}
