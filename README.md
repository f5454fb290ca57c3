# hcloud-k8s-ctl, modelled in Dafny

hcloud-k8s-ctl creates and deletes Kubernetes clusters on Hetzner Cloud. This
project models four parts of it and proves what each one promises.

- **Cluster drain reconciler** (`pkg/drain/drain.go`, module `Drain`, file
  `drain.dfy`). The `ClusterDrainer` deletes every kind of cluster-owned
  resource in a fixed order: network, SSH key, load balancers, servers,
  placement group, firewalls, volumes. Each kind's loop looks up what is left
  and deletes it, until a lookup comes back empty or the context is cancelled.
  The outer `DeleteCluster` repeats whole passes, pausing between them, until
  one pass succeeds or the context is cancelled.
- **Provisioning pipeline** (`pkg/api/api.go`, module `Api`, file `api.dfy`).
  `ApplicationAPI` builds the command texts it sends to the servers. It runs
  three bounded retry loops (`joinToMasterNodes`, `postInstall`,
  `initFirstMasterNode`), the server creation loop, the `NewCluster` stage
  sequence and the legacy one-pass `DeleteCluster`.
- **Configuration** (`pkg/config/config.go`, module `Config`, file
  `config.dfy`). It covers:
  - the defaults and the 27-entry autoscaler table;
  - `~` expansion, secret masking and environment defaulting;
  - the token check;
  - the order in which `Load` builds the configuration.
- **README generator** (`utils/main.go`, module `Readme`, file `readme.dfy`).
  It turns every example configuration into a `<details>` block and splices
  the blocks between two markers of the README.

Supporting modules:

- `Strings` models the Go `strings` and `path/filepath` functions the code
  calls.
- `Fmt` models the part of `fmt.Sprintf` the code relies on, including Go's
  `%!(EXTRA …)` text for arguments no verb consumes.
- `Cloud` models the cloud account as a class `Provider`. It holds the
  resources of every kind and a trace of every lookup and deletion.
  - A lookup or deletion may fail nondeterministically.
  - A successful deletion removes the resource.
  - Label selectors are abstract: a resource matches selector `s` exactly
    when `s` is among its labels.
- `Cloud.Context` holds a cancellation flag. The environment may set it at any
  time, and once set it stays set.
- `Wrappers` holds `Option` and `Result`.

The provisioning side talks to the provider and to the servers through an
`Api.Remote`. Its answers are oracles: server and balancer lookups, SSH
command results and creation calls. Every call it receives, including each
sleep, is appended to its trace. This is how ordering, attempt counts and
pauses are stated.

## Model

| member | source | states |
|---|---|---|
| Drain.ClusterDrainer.constructor | pkg/drain/drain.go:34-39 | a new drainer pauses 3 seconds between passes and has empty selectors |
| Drain.ClusterDrainer.DeleteFound | pkg/drain/drain.go:138-143 | deletes the found resources in order; stops at the first failed delete and tries none after it; removes exactly the resources it deleted, all of one kind |
| Drain.ClusterDrainer.DrainStep | pkg/drain/drain.go:119-143 | one lookup-then-delete round. An empty answer changes nothing and leaves the kind settled. Otherwise the round shrinks the kind or ends on a failed delete. A failed lookup counts as finding nothing |
| Drain.ClusterDrainer.DrainLoop | pkg/drain/drain.go:117-147 | a kind's loop returns nil only after a lookup that found nothing. A failed delete returns that kind's error at once. It touches only its own kind. A context cancelled on entry gives a cancel error with no call made, never nil |
| Drain.ClusterDrainer.DrainKind | pkg/drain/drain.go:85-238 | the same guarantees for each of the seven loops with its fixed targets: by name; the named balancer plus those labelled `hcloud-ccm/service-uid`; both server selectors; `cluster=` + name; every volume. On an account where none of them matches, the loop makes no delete |
| Drain.OrderExtended | pkg/drain/drain.go:53-83 | calls about the next kind in the drain order keep the trace in drain order |
| Drain.SettledSkips | pkg/drain/drain.go:53-83 | loops for later kinds do not disturb a kind that is already settled |
| Drain.ClusterDrainer.SettledKept | pkg/drain/drain.go:53-83 | draining the next kind keeps every earlier kind settled |
| Drain.ClusterDrainer.VisitKind | pkg/drain/drain.go:53-80 | one step of a pass: on nil, the kinds so far are visited in order and settled; on failure, the pass stops at exactly that kind |
| Drain.ClusterDrainer.PassCompleted | pkg/drain/drain.go:53-83 | a pass that returned nil leaves every kind settled |
| Drain.ClusterDrainer.PassStopped | pkg/drain/drain.go:53-83 | a pass that failed at a kind made no call about later kinds and left their resources unchanged, and every earlier kind is settled |
| Drain.ClusterDrainer.SettledStays | pkg/drain/drain.go:53-83 | a kind's loop, whether it returns nil or an error, keeps every earlier kind settled |
| Drain.ClusterDrainer.ProcessDeleteCluster | pkg/drain/drain.go:53-83 | visits the kinds in the fixed order and returns the first failing kind's error without starting later kinds; every kind before the failing one is settled. On nil, every kind is settled. On an account where nothing matches, the pass deletes nothing and can only return nil or a cancel error. A context cancelled on entry never gives nil |
| Drain.ClusterDrainer.Attempt | pkg/drain/drain.go:42-47 | one turn of the outer loop: stops on a cancelled context, converges when the pass returns nil, and otherwise goes on |
| Drain.ClusterDrainer.DeleteCluster | pkg/drain/drain.go:41-51 | repeats passes until one converges or the context is cancelled, and returns how many passes failed. Each failed pass is followed by exactly one pause of `waitTime`, so the pauses number the failed passes. Convergence leaves every kind settled. It never reports an error to its caller |
| Cloud.Provider.Lookup | pkg/drain/drain.go:121-132 | a lookup answers only resources its queries select. When no call failed, it answers all of them |
| Cloud.Provider.Delete | pkg/drain/drain.go:139-142 | a successful delete removes exactly that resource; a failed one changes nothing |
| Cloud.Context.Err | pkg/drain/drain.go:42 | a fired cancellation signal stays fired |
| Cloud.SelectMeaning | pkg/drain/drain.go:121-132 | a name lookup gives at most one resource, and nothing only when no resource has that name. A selector gives exactly the resources labelled with it. An unfiltered list gives everything |
| Cloud.RemoveAllMembers | pkg/drain/drain.go:138-143 | after a run of deletions, exactly the resources whose id was not deleted remain |
| Cloud.RemoveAllShrinks | pkg/drain/drain.go:138-143 | deleting never grows the account, and deleting a present resource shrinks it |
| Api.ApplicationAPI.constructor | pkg/api/api.go:40-52 | a new API holds the configuration and starts with no join command and no kubeconfig |
| Api.CommonExecIsSprintf | pkg/api/api.go:92-97 | the script command is what `Sprintf` makes of the verb-free script and its two arguments: the script followed by `%!(EXTRA string=…, string=…)` |
| Api.PostInstallIsSprintf | pkg/api/api.go:248 | the post-install command is `Sprintf("VALUES=%s …", values)` |
| Api.DefaultServerName | pkg/api/api.go:445 | with the default pattern, master `i` is named `master-i` |
| Api.ServerNameInjective | pkg/api/api.go:445 | a pattern with one `%d` names different masters differently |
| Api.InitMasterCommandInjective | pkg/api/api.go:107-115 | the init command determines the balancer address exported as `MASTER_LB` |
| Api.ServerWaited | pkg/api/api.go:139-164 | the wait succeeds exactly when the server is nil or its address answers `date`. A found server whose address answers `date` yields that address. An unset address marshals to the empty text and is probed like any other. A nil server yields the empty address and no error |
| Api.BalancerWaited | pkg/api/api.go:117-137 | the wait fails only on a lookup error or an address that cannot be marshalled. A nil balancer yields the empty address and no error |
| Api.ApplicationAPI.WaitForServer | pkg/api/api.go:139-164 | looks the server up, runs `date` on its address unless the lookup failed, found nothing or the address cannot be marshalled, and returns `ServerWaited` of what it saw |
| Api.ApplicationAPI.WaitForLoadBalancer | pkg/api/api.go:117-137 | one lookup, whose result is `BalancerWaited` |
| Api.ApplicationAPI.ExecCommand | pkg/api/api.go:657-700 | the command goes verbatim to the address, as user `root` |
| Api.PacedCounts | pkg/api/api.go:172-208 | `n` attempts make exactly `n` server lookups and `n - 1` sleeps; the first call is a lookup, not a sleep |
| Api.PacedStep | pkg/api/api.go:179-182 | one more attempt adds a sleep before it unless it is the first |
| Api.AttemptsAreProbes | pkg/api/api.go:172-208 | every attempt of a wait-then-run loop is one lookup followed by no lookup and no sleep |
| Api.ApplicationAPI.JoinToMasterNodes | pkg/api/api.go:166-209 | at most `RetryTimeLimit + 1` attempts, paced by one sleep before each later one. A failed wait or a failed join command is retried. It returns nil after the first successful join, otherwise `errRetryLimitReached` after exactly `RetryTimeLimit + 1` attempts |
| Api.PostCommandsChoice | pkg/api/api.go:237-266 | `postInstall` fetches the scripts again exactly when asked, always runs the post-install script, and runs one-master mode exactly when there is one master |
| Api.ApplicationAPI.RunPostCommands | pkg/api/api.go:237-266 | runs those commands in order as root and stops at the first failure, which is fatal |
| Api.ApplicationAPI.TryPostInstall | pkg/api/api.go:228-268 | one attempt: wait for the first master; a failed wait is retried; otherwise run the commands |
| Api.ApplicationAPI.PostInstall | pkg/api/api.go:211-272 | the retry discipline of `postInstall`: at most `RetryTimeLimit + 1` attempts, paced by sleeps. It gives `errRetryLimitReached` only after all of them |
| Api.InitWaitFailed | pkg/api/api.go:293-311 | an init attempt whose server or balancer wait failed is retried with nothing run |
| Api.InitWaitSucceeded | pkg/api/api.go:300-320 | an init attempt whose waits succeeded runs the init script with the balancer's address, or with the server's own address when there is one master |
| Api.ApplicationAPI.WaitForInit | pkg/api/api.go:293-311 | waits for the server, and for the balancer only when `MasterCount > 1`. Otherwise the server address serves as `MASTER_LB` |
| Api.ApplicationAPI.RunInitCommands | pkg/api/api.go:313-341 | runs the init script, then reads the join command and the kubeconfig, storing each as it arrives. A failed init script is retried and leaves both fields unchanged. A failed read is fatal |
| Api.ApplicationAPI.TryInitFirstMasterNode | pkg/api/api.go:291-343 | one init attempt. A retried attempt leaves both fields unchanged. A successful one stores the two `cat` outputs |
| Api.InitAttemptsAreProbes | pkg/api/api.go:279-346 | every init attempt is one server lookup followed by no lookup and no sleep |
| Api.ApplicationAPI.InitRound | pkg/api/api.go:281-343 | one turn of the init loop: a sleep unless it is the first turn, then an attempt |
| Api.ApplicationAPI.InitFirstMasterNode | pkg/api/api.go:274-347 | at most `RetryTimeLimit + 1` paced attempts. On nil, the last attempt read the stored join command and kubeconfig. `errRetryLimitReached` comes only after every attempt was retried |
| Api.ServerOpsAt | pkg/api/api.go:444-465 | server `i` of `1..MasterCount` is named from the pattern, and only servers after the first carry the install script as user data |
| Api.FailedAttaches | pkg/api/api.go:477-483 | failed attaches create no server |
| Api.ApplicationAPI.AttachLoop | pkg/api/api.go:470-488 | the counter never grows, so the limit is reached only when it is negative. With one master nothing is attached. With several masters, failed attaches are retried, each after a sleep, and the loop creates no server |
| Api.ApplicationAPI.CreateMaster | pkg/api/api.go:444-488 | fixes the calls made for master `i` in every case. A failed creation is the only call and is the error. With a negative limit, the creation alone is made and the limit error follows. With one master, the creation alone is made and the result is nil. With several masters, the creation is followed by the failed attaches of that server, each with its sleep, and then, on nil, the attach that succeeded. So nil means the calls are `MasterRun(i, failures)` |
| Api.ApplicationAPI.MasterRunEffect | pkg/api/api.go:444-488 | a master's run creates that master, with the install script for `i > 1`, and attaches that master exactly once when there are several masters; with one master it attaches nothing |
| Api.ApplicationAPI.MasterRunsCreate | pkg/api/api.go:444-488 | the runs of masters `1..k` create those masters in order |
| Api.ApplicationAPI.MasterRunsAttach | pkg/api/api.go:444-488 | with several masters, the runs of masters `1..k` attach masters `1..k` to the balancer in order, each inside its own run after its creation; with one master nothing is attached |
| Api.ApplicationAPI.CreateServers | pkg/api/api.go:409-492 | first prepares the servers, and a failed preparation ends it with that error and nothing else called. Then it creates masters `1..MasterCount` in order and stops at the first failure. The servers created are a prefix of them, and all of them on nil. The masters that finished are the runs `MasterRuns(fails)` right after the preparation. On nil, the calls are exactly the preparation followed by every master's run. With several masters, every master was attached to the balancer, in order; with one master, none was |
| Api.ApplicationAPI.ServersStage | pkg/api/api.go:409-492 | the calls of `createServer` form one servers stage as `StageRan` describes it |
| Api.PlanEnds | pkg/api/api.go:545-599 | `NewCluster` starts with the network and then the key, and ends with post-install |
| Api.PlanBalancer | pkg/api/api.go:558-563 | the balancer stage is in the plan exactly when `MasterCount > 1` |
| Api.PlanJoins | pkg/api/api.go:580-589 | the join stages are exactly one per master `2..MasterCount` |
| Api.Provide | pkg/api/api.go:548-563 | a stage made of one provider call records that call, and fails exactly when the call failed, with the provider's error |
| Api.EndedByMeans | pkg/api/api.go:545-599 | a run of stages ends with an error exactly when one of its aborting stages failed |
| Api.ApplicationAPI.ServersRan | pkg/api/api.go:409-492 | the calls of `createServer` make a servers stage as `StageRan` describes it: preparation first, the servers created a prefix of the masters, and on nil the preparation followed by every master's run to the end (`RanAllMasters`) |
| Api.ApplicationAPI.ServersAttached | pkg/api/api.go:470-485 | a servers stage that succeeded attached every master to the balancer in order when there are several masters, and attached none with one master |
| Api.ApplicationAPI.InitRan | pkg/api/api.go:274-347 | the attempts of `initFirstMasterNode`, paced by sleeps, make an init stage; on nil its last attempt read the join command and kubeconfig that the stages after it use |
| Api.ApplicationAPI.JoinRan | pkg/api/api.go:166-209 | the attempts of `joinToMasterNodes`, paced by sleeps, make a join stage for that server that succeeded or ran out of attempts |
| Api.ApplicationAPI.PostRan | pkg/api/api.go:211-272 | the attempts of `postInstall(false)`, paced by sleeps, make the post-install stage |
| Api.ApplicationAPI.ProvidedGrow | pkg/api/api.go:548-577 | one more provider-call stage, the next of the plan, extends the trace by its call and keeps the stages run a prefix of the plan |
| Api.ApplicationAPI.MastersAfter | pkg/api/api.go:545-571 | the servers and first-master stages after the resources' stages keep the stages a prefix of the plan, with the kubeconfig save next |
| Api.ApplicationAPI.CreateResources | pkg/api/api.go:548-563 | the network, then the key, then the balancer with several masters. Each is one provider call, and the calls made are exactly those of the stages run. The first failure ends the run, wrapped with its stage's context |
| Api.ApplicationAPI.CreateMasters | pkg/api/api.go:565-573 | the servers stage, then the first-master stage unless server creation failed. The calls made are those of the stages, each as `StageRan` describes it, and a failure ends the run wrapped with its context |
| Api.ApplicationAPI.CreateCluster | pkg/api/api.go:545-578 | the stages before the joins, run as a prefix of the plan; the calls made are exactly those of the stages run. A failure of any stage except the kubeconfig save ends the run with that error wrapped; on nil every stage of the head ran |
| Api.ApplicationAPI.JoinMasters | pkg/api/api.go:580-589 | joins masters `2..MasterCount` in order. The calls made are exactly those of the join stages, each of which succeeded or used up its attempts, and failures are only logged |
| Api.ApplicationAPI.NewClusterEnd | pkg/api/api.go:580-599 | after the head and the joins, the post-install stage completes the plan, and only its own failure can end the run with an error |
| Api.ApplicationAPI.NewCluster | pkg/api/api.go:545-599 | runs a prefix of the plan, and the calls sent are exactly those of the stages run, each stage's calls as `StageRan` states them. On nil it ran the whole plan. It returns an error exactly when an aborting stage failed; that stage is the last one run, and the error is wrapped with its context |
| Api.EmptySweep | pkg/api/api.go:604-610 | a lookup that found nothing is followed by no deletion |
| Api.SurvivorsMembers | pkg/api/api.go:635-640 | after deleting some targets, exactly the resources whose id no successful deletion named remain |
| Api.ApplicationAPI.DeleteAll | pkg/api/api.go:635-640 | tries every target once, in order. The kind's resources become the survivors of the successful deletions, and other kinds are untouched |
| Api.ApplicationAPI.SweepOnce | pkg/api/api.go:604-610 | one lookup, then one deletion attempt per resource found; a failed lookup counts as nothing found. The kind keeps exactly the survivors |
| Api.DeletedByStep | pkg/api/api.go:601-655 | one more sweep deletes what the earlier sweeps deleted plus what it deleted itself |
| Api.SweptItems | pkg/api/api.go:601-655 | after a run of sweeps, a resource remains exactly when it was there and no sweep of its kind deleted it |
| Api.ApplicationAPI.DeleteCluster | pkg/api/api.go:601-655 | exactly five sweeps, in order: network, key, balancer, `role=master` servers, `hcloud/node-group` servers. Each sweep tries each of its targets once, and no error is returned. Afterwards a resource remains exactly when it was there before and no sweep deleted it |
| Config.EnvDefault | pkg/config/config.go:350-356 | the variable's value when it is set and non-empty, otherwise the default |
| Config.EnvDefaultEmpty | pkg/config/config.go:350-356 | the result is empty exactly when both the variable and the default are |
| Config.DefaultMasterServersInitParams | pkg/config/config.go:100-105 | the archive URL is the heads prefix, the branch and `.tar.gz`; the folder is `hcloud-k8s-ctl-` and the branch |
| Config.InitParamsBranch | pkg/config/config.go:100-105 | the branch can be read back from either field |
| Config.InitParamsInjective | pkg/config/config.go:100-105 | different branches give different parameters |
| Config.DefaultServersSplit | pkg/config/const.go:26 | the instance list splits on ',' into the nine server types |
| Config.GroupNameInjective | pkg/config/config.go:120-126 | a group name determines its server type and location |
| Config.DefaultAutoscalingGroups | pkg/config/config.go:107-136 | 27 groups, location-major (fsn1, nbg1, hel1) and in instance order within a location: entry `i` is the group of server type `i % 9` in location `i / 9`, named `UPPER(server):UPPER(location):server-location` |
| Config.DefaultGroupsDistinct | pkg/config/config.go:117-131 | the 27 group names are pairwise distinct, and every group has `MinSize` 0 and `MaxSize` 20 |
| Config.CollectGroups | pkg/config/config.go:117-131 | the nested loops append, for each location, every server type's group in order |
| Config.GetDefaultClusterAutoscaler | pkg/config/config.go:107-136 | the result is the default 27-group table |
| Config.HideSensitiveData | pkg/config/config.go:313-319 | an empty secret leaves the output unchanged |
| Config.HideSensitiveDataEffect | pkg/config/config.go:313-319 | output without the secret is unchanged. Otherwise each masked occurrence changes the length by the difference between `<secret>` and the secret |
| Config.Expand | pkg/config/config.go:337-348 | a path that is empty or does not start with `~` is returned unchanged. Otherwise the result is the home joined with the rest, or an error when the user is unknown |
| Config.ExpandIdempotent | pkg/config/config.go:337-348 | expanding an expanded path changes nothing |
| Config.Check | pkg/config/config.go:301-307 | fails with `errNoHetznerToken` exactly when the token is empty |
| Config.DefaultConfig | pkg/config/config.go:191-245 | the default holds: token from `HCLOUD_TOKEN`, 3 masters, retry limit 20, 3-second retry pause, labels `{role: master}`, ports 6443, range `10.0.0.0/16` with an empty subnet, and the 27 autoscaler groups |
| Config.DefaultConfigChecked | pkg/config/config.go:191-307 | the default passes `Check` exactly when `HCLOUD_TOKEN` is non-empty |
| Config.Overlaid | pkg/config/config.go:268 | for every modelled key, the top-level ones, `location` and `datacenter` included, and each key inside `masterServers` and `masterLoadBalancer`: a key present in the file wins, and an absent key keeps the value already there. The file's labels are merged into the labels already there. An `autoscalingGroups` list in the file replaces the default groups |
| Config.OverlaidNoKeys | pkg/config/config.go:268 | a file that sets no key leaves the configuration unchanged |
| Config.OverlaidIdempotent | pkg/config/config.go:268 | decoding the same file over its own result changes nothing more |
| Config.Prepared | pkg/config/config.go:253-266 | before decoding, the subnet is the default range. The token comes from the environment, else from `.hcloudauth` |
| Config.ExpandPaths | pkg/config/config.go:273-296 | expands the three paths in turn, stopping at the first that fails; success means both ranges are valid and every path is expanded |
| Config.SubnetKeepsDefault | pkg/config/config.go:264-268 | a file that sets no subnet keeps the subnet at `10.0.0.0/16`, whatever range it sets |
| Config.TokenPrecedence | pkg/config/config.go:253-268 | a token in the file wins, then a non-empty `HCLOUD_TOKEN`, then `.hcloudauth` |
| Config.FileChoicesLoaded | pkg/config/config.go:247-299 | after a file is decoded, whatever `Load` returns, the loaded configuration has the file's location, datacenter, master count, server type, labels, balancer type and autoscaling groups. Without a server type it keeps `cx21`, and without a group list it keeps the 27 default groups |
| Config.LoadOutcome | pkg/config/config.go:247-299 | an unreadable file changes nothing; a successful load has expanded every `~` path and validated both ranges |
| Config.ConfigStore.SetBranch | pkg/config/config.go:187-189 | only the scripts' archive and folder change, to those of the branch |
| Config.ConfigStore.Reset | pkg/config/config.go:253-266 | the configuration becomes `Prepared` |
| Config.ConfigStore.ExpandAndCheck | pkg/config/config.go:273-298 | the state and error are those of `ExpandPaths` |
| Config.ConfigStore.Load | pkg/config/config.go:247-299 | the state and error are those of `Loaded`, the step-by-step specification the lemmas above are about |
| Readme.Header | utils/main.go:35-37 | a prefix of the text without a newline, ending where the text ends or at its first newline |
| Readme.Content | utils/main.go:48-50 | `Header + Content` is the whole text, and the content is empty or starts with a newline |
| Readme.FormattedHeaderIsSprintf | utils/main.go:39-46 | the summary line is `Sprintf("Kubernetes: %s, Arch: %s, Ubuntu: %s, Region: %s")` of fields 0, 1, 3 and 4; field 2 plays no part |
| Readme.HeaderFilled | utils/main.go:39-46 | the summary line fills the four labels with fields 0, 1, 3 and 4 |
| Readme.Fields | utils/main.go:71 | the fields rejoined with '-' give the base name without `.yaml`, and no field holds a '-' |
| Readme.DetailsOfKept | utils/main.go:61-63 | files whose path ends in `full.yaml` make no difference, wherever they stand |
| Readme.DetailsError | utils/main.go:65-77 | the generator fails exactly when some file cannot be read or has fewer than five fields, and it reports the first such file |
| Readme.DetailsErrorStays | utils/main.go:60-87 | files after the first failing one are never looked at |
| Readme.DetailsStep | utils/main.go:60-87 | each file adds nothing when skipped, adds its block when it renders, and otherwise gives its error |
| Readme.Splice | utils/main.go:101-106 | fails exactly when a marker is missing, where the slice expression would fail |
| Readme.SpliceFramed | utils/main.go:101-106 | in a framed README, the text from the start marker through the end marker becomes the section, and the rest is kept |
| Readme.SpliceIdempotent | utils/main.go:101-106 | splicing a second time with the same body changes nothing, when each marker occurs once in order and the body holds no end marker |
| Readme.UpdateReadme | utils/main.go:52-113 | the text written back is `UpdatedReadme`: the blocks in glob order, spliced between the markers |
| Readme.UpdateIdempotent | utils/main.go:52-113 | regenerating a framed README from the same files leaves it as the first run wrote it |
| Fmt.SprintfTemplate | utils/main.go:40-45 | a format of verb-free texts, each followed by `%s`, given one string per verb, yields the texts with the strings filled in |
| Fmt.SprintfPlain | pkg/api/api.go:93-96 | a format without verbs prints itself, followed by `%!(EXTRA …)` listing every argument |
| Strings.SplitJoin | utils/main.go:71 | splitting and rejoining on the same separator gives back the text |
| Strings.JoinSplit | pkg/config/config.go:115 | joining separator-free pieces and splitting again gives back the pieces |
| Strings.SplitFirstPiece | utils/main.go:36 | the first piece of a split is the longest separator-free prefix |
| Strings.IndexIsFirst | utils/main.go:102-103 | `Index` finds exactly the first occurrence |
| Strings.ReplaceAllAbsent | utils/main.go:106 | `ReplaceAll` leaves text without the pattern unchanged |
| Strings.ReplaceAllLength | pkg/config/config.go:318 | `ReplaceAll` changes the length by the length difference once per replaced occurrence |
| Strings.ReplaceAllKeepsPrefix | utils/main.go:106 | a prefix in which no occurrence starts is copied through unchanged |

## Left out

- The hcloud-go client is modelled by `Cloud.Provider` and `Api.Remote`, and the SSH connection of `execCommand` by `Api.Remote.Exec`. Their answers are oracles: pagination and the provider's own label-selector matching are not modelled.
- `validateConfig` and `NewApplicationAPI`'s client construction: `Api.ApplicationAPI.constructor` takes the configuration as given and does not look up the location or the datacenter.
- `saveKubeconfig` writes a file. The model records only whether it failed, and a failure is only logged.
- `ListConfigurations`: YAML output of provider listings; pure I/O.
- `getDeploymentValues` (YAML marshalling and base64) is a field of `Api.ApplicationAPI` given to the constructor.
- `createNetwork`, `createSSHKey`, `createLoadBalancer` and the lookups at the head of `createServer` are provider calls whose only modelled effect is success or failure. CIDR parsing, reading the public key file and the request options are not modelled.
- `PatchClusterDeployment`: a `log.Fatal` wrapper around `postInstall(true)`, which is modelled.
- `log.Fatal` in `postInstall` and `initFirstMasterNode` ends the loop with a fatal outcome instead of exiting the process.
- `time.Sleep` and `utils.SleepContext` do not wait: each sleep is recorded, in the `Remote` trace or in the drainer's `slept`.
- The context is a flag the environment may set between calls. A call cut short by cancellation appears as a failed call.
- Drain.ClusterDrainer.DeleteCluster: the source loops without bound. The model takes a `maxRounds` bound on the failed passes and reports `RoundsExhausted` once that many passes have failed; with unbounded rounds that outcome does not exist.
- Api.ApplicationAPI.AttachLoop: the source retries a failing attach forever when the limit is not negative. The model takes a `fuel` bound, shared with Api.ApplicationAPI.CreateServers, Api.ApplicationAPI.CreateMaster, Api.ApplicationAPI.CreateMasters, Api.ApplicationAPI.CreateCluster and Api.ApplicationAPI.NewCluster, and stops with an out-of-fuel error when it runs out.
- The stage runs of `NewCluster` (`Api.StageRun`) are ghost: the source keeps no such record. They name which calls of the trace belong to which stage.
- The texts of `errors.Wrap` are modelled as error constructors carrying the stage or kind, not as strings.
- Commands are identified by a `Script` value whose `Text` is the command sent. The script in `pkg/api/const.go` is kept as a verb-free template split into short lines, but the script bodies themselves are opaque.
- `Config.Settings` leaves out the component versions (`serverComponents`), `networkZone`, `cliArgs`, `deployments`, the pre- and post-start scripts and the Helm values maps other than the autoscaling groups. A configuration file that sets these keys has no effect in the model.
- Config.Overlaid: the file is modelled by the values it sets for every field of `Config.Settings`: the eight scalar top-level keys, `location`, `datacenter`, each key of `masterServers` (with its init parameters) and `masterLoadBalancer`, the `masterServers` labels, merged into the default labels, and the list under `cluster-autoscaler`'s `autoscalingGroups` key. The other keys under `cluster-autoscaler` are not modelled. The model has no null values, no type errors and no duration syntax: `waitTimeInRetry` is read as whole seconds. A malformed file leaves the prepared defaults in place, where `yaml.Unmarshal` may already have decoded part of it.
- `user.Current`, `net.ParseCIDR` and reading `.hcloudauth` are parameters: an optional home directory, a validity predicate and an optional file text.
- `filepath.Join` is modelled as joining with one '/' without cleaning the path. `filepath.Base` works on '/'-separated paths only.
- `Config.String` and `SaveConfig` encode YAML and apply a regular expression; they are not modelled. `HideSensitiveData`, which `String` applies, is modelled.
- `cliArguments` and flag parsing are not modelled.
- Readme.UpdateReadme: `filepath.Glob` and the file reads are parameters, as the list of matched paths with their text or a read failure. Writing README.md back is the returned text, and a write failure is not modelled.
- Readme.Splice: a missing marker makes the Go slice expression fail at run time. The model returns a `MissingMarker` error instead. A start marker after the end marker is not an error, in the code or in the model.
- The blocks are appended as one text per file rather than through eight `WriteString` calls; the text is the same.
- Helpers split out of one source function for proof are not separate operations of the source: `WaitForInit`, `RunInitCommands`, `TryInitFirstMasterNode` and `InitRound` of `initFirstMasterNode`; `RunPostCommands` and `TryPostInstall` of `postInstall`; `CreateMaster`, `AttachLoop` and `ServersStage` of `createServer`; `CreateResources`, `CreateMasters`, `CreateCluster` and `JoinMasters` of `NewCluster`; `DeleteAll` and `SweepOnce` of the legacy `DeleteCluster`; `VisitKind` and `Attempt` of the drainer.
- `Strings.ToUpper` and the Go string functions work on characters, with ASCII upper-casing only; there is no Unicode handling.
