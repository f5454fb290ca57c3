/**
 * The provisioning side: the command texts sent to the servers, the three
 * bounded retry loops, server creation, the `NewCluster` pipeline and the
 * single-pass `DeleteCluster`.
 *
 * The hcloud API and the SSH connections are a `Remote` whose answers are
 * oracles; every call it receives is recorded in its trace, so that the
 * order of calls, the number of attempts and the sleeps between them can be
 * stated.
 */
module Api {

  import opened Wrappers
  import opened Strings
  import opened Fmt
  import opened Config
  import Cloud

  /** The user every command runs as. */
  const Root: string := "root"

  /**
   * The script that empties `/root` and fetches the scripts archive of the
   * `main` branch, in pieces of at most a line. Each piece is `Plain` (holds
   * no '%'), so the script holds no formatting verb.
   */
  const ScriptShell: Plain := "#!/bin/bash\nset -ex\n\n"
  const ScriptEnv: Plain := "export DEBIAN_FRONTEND="
  const ScriptEnvValue: Plain := "noninteractive\n\n"
  const ScriptClean: Plain := "cd /root\nrm -rf *\n"
  const ScriptCurl: Plain := "curl -sSL -o scripts.tar.gz \\\n"
  const ScriptHost: Plain := "https://github.com/"
  const ScriptRepo: Plain := "maksim-paskal/hcloud-k8s-ctl/"
  const ScriptArchive: Plain := "archive/refs/heads/main.tar.gz\n"
  const ScriptUnpack: Plain := "\ntar -xvf scripts.tar.gz\n"
  const ScriptMove: Plain := "mv ./hcloud-k8s-ctl-main/"
  const ScriptMoveTo: Plain := "scripts ./scripts\n"

  const CommonExecTemplate: string :=
    ScriptShell + ScriptEnv + ScriptEnvValue + ScriptClean + ScriptCurl + ScriptHost + ScriptRepo
    + ScriptArchive + ScriptUnpack + ScriptMove + ScriptMoveTo

  const DateCommand: string := "date"
  const JoinMasterCat: string := "cat /root/scripts/join-master.sh"
  const AdminConfCat: string := "cat /etc/kubernetes/admin.conf"
  const OneMasterModeCommand: string := "/root/scripts/one-master-mode.sh"
  const PostInstallVar: Plain := "VALUES="
  const PostInstallScript: Plain := " /root/scripts/post-install.sh"
  const PostInstallFormat: string := PostInstallVar + "%s" + PostInstallScript

  // ---------------------------------------------------------------------
  // Command texts
  // ---------------------------------------------------------------------

  /**
   * `getCommonExecCommand`: the script, formatted with the archive and the
   * folder. The script has no verb, so Go appends both arguments as its
   * `%!(EXTRA …)` text instead of substituting them (`CommonExecIsSprintf`).
   */
  function CommonExecCommand(p: InitParams): string {
    CommonExecTemplate + ("%!(EXTRA " + ("string=" + p.tarGz) + ", " + ("string=" + p.folder) + ")")
  }

  /** `getCommonInstallCommand`: fetch the scripts, then run `common-install.sh`. */
  function CommonInstallCommand(p: InitParams): string {
    CommonExecCommand(p) + "\n\n/root/scripts/common-install.sh\n\n"
  }

  /** `getInitMasterCommand`: fetch the scripts, export the token and the balancer address, run `init-master.sh`. */
  function InitMasterCommand(p: InitParams, token: string, balancer: string): string {
    CommonExecCommand(p) + "\n\nexport HCLOUD_TOKEN=" + token + "\nexport MASTER_LB=" + balancer
    + "\n\n/root/scripts/init-master.sh\n"
  }

  /** The command `postInstall` runs: the deployment values in `VALUES` (`PostInstallIsSprintf`). */
  function PostInstallCommand(values: string): string {
    PostInstallVar + values + PostInstallScript
  }

  /** The name of master `i`: `NamePattern` formatted with `i`. */
  function ServerName(pattern: string, i: nat): string {
    Sprintf(pattern, [Nat(i)])
  }

  lemma TemplateHasNoVerbs()
    ensures '%' !in CommonExecTemplate
  {
  }

  /** The script command is what Go's `Sprintf` makes of the script and the two arguments. */
  lemma CommonExecIsSprintf(p: InitParams)
    ensures CommonExecCommand(p) == Sprintf(CommonExecTemplate, [Str(p.tarGz), Str(p.folder)])
  {
    TemplateHasNoVerbs();
    SprintfTwoExtra(CommonExecTemplate, p.tarGz, p.folder);
  }

  /** The post-install command is what Go's `Sprintf` makes of its format and the values. */
  lemma PostInstallIsSprintf(values: string)
    ensures PostInstallCommand(values) == Sprintf(PostInstallFormat, [Str(values)])
  {
    assert "%s" == ['%', 's'];
    SprintfOneVerb(PostInstallVar, 's', PostInstallScript, Str(values));
  }

  /** With the default pattern, master `i` is `master-i`. */
  lemma DefaultServerName(i: nat)
    ensures ServerName("master-%d", i) == "master-" + Itoa(i)
  {
    assert "master-%d" == "master-" + ['%', 'd'] + "";
    SprintfOneVerb("master-", 'd', "", Nat(i));
  }

  /** A pattern with one `%d` and no other verb names different masters differently. */
  lemma ServerNameInjective(p: string, q: string, i: nat, j: nat)
    requires '%' !in p && '%' !in q
    ensures ServerName(p + "%d" + q, i) == ServerName(p + "%d" + q, j) ==> i == j
  {
    assert p + "%d" + q == p + ['%', 'd'] + q;
    SprintfOneVerb(p, 'd', q, Nat(i));
    SprintfOneVerb(p, 'd', q, Nat(j));
    var a, b := Itoa(i), Itoa(j);
    if p + a + q == p + b + q {
      assert |a| == |b|;
      assert a == (p + a + q)[|p|..|p| + |a|];
      assert b == (p + b + q)[|p|..|p| + |b|];
      ItoaInjective(i, j);
    }
  }

  /** The init command determines the balancer address it was built with. */
  lemma InitMasterCommandInjective(p: InitParams, token: string, lb1: string, lb2: string)
    ensures InitMasterCommand(p, token, lb1) == InitMasterCommand(p, token, lb2) ==> lb1 == lb2
  {
    InfixInjective(CommonExecCommand(p) + "\n\nexport HCLOUD_TOKEN=" + token + "\nexport MASTER_LB=", lb1, lb2,
                   "\n\n/root/scripts/init-master.sh\n");
  }

  // ---------------------------------------------------------------------
  // The remote side: hcloud lookups and SSH commands as oracles
  // ---------------------------------------------------------------------

  /**
   * What marshalling a resource's public IPv4 address gives. An address that
   * is not set marshals to the empty text without error, never to nil, so the
   * source's nil checks after marshalling never fire: it is `IP("")`.
   */
  datatype Addr = Unmarshalable | IP(ip: string)

  /** What a `Get` by name answers: an error, nil, or the resource (through its address). */
  datatype Reply = GetFailed | Missing | Found(addr: Addr)

  /** What running one command over SSH gives: whether it succeeded, and its stdout. */
  datatype ExecReply = ExecReply(ok: bool, stdout: string)

  /**
   * A script the program sends to a server: a command over SSH, or the
   * cloud-init user data of a new master. `Text` is what is sent.
   */
  datatype Script =
    | DateProbe
    | CommonExec(params: InitParams)
    | CommonInstall(params: InitParams)
    | InitMaster(params: InitParams, token: string, balancer: string)
    | ReadJoinCommand
    | ReadAdminConf
    | PostInstallRun(values: string)
    | OneMasterMode
    | JoinMaster(join: string)       // the join command read from the first master, run as it is

  function Text(c: Script): string {
    match c
    case DateProbe => DateCommand
    case CommonExec(p) => CommonExecCommand(p)
    case CommonInstall(p) => CommonInstallCommand(p)
    case InitMaster(p, token, balancer) => InitMasterCommand(p, token, balancer)
    case ReadJoinCommand => JoinMasterCat
    case ReadAdminConf => AdminConfCat
    case PostInstallRun(values) => PostInstallCommand(values)
    case OneMasterMode => OneMasterModeCommand
    case JoinMaster(join) => join
  }

  /** A provider call the model does not look into beyond its success. */
  datatype Op =
    | CreateNetwork                                  // parse the range, create the network, add its subnet
    | CreateSSHKey                                   // read the public key, create the key
    | CreateLoadBalancer                             // look up type, location, network; create the balancer
    | PrepareServers                                 // look up server type, image, network, key, datacenter, balancer
    | CreateServer(name: string, userData: Option<Script>)
    | AttachToBalancer(server: string)
    | SaveKubeconfig(path: string, contents: string)  // the local file write

  /** One call the remote side received. */
  datatype Call =
    | Sleep(seconds: nat)
    | ServerGet(name: string, answer: Reply)
    | LoadBalancerGet(name: string, answer: Reply)
    | Exec(ip: string, user: string, command: Script, result: ExecReply)
    | Provision(op: Op, ok: bool)

  class Remote {
    var trace: seq<Call>

    constructor ()
      ensures trace == []
    {
      trace := [];
    }

    method Sleep(seconds: nat)
      modifies this
      ensures trace == old(trace) + [Call.Sleep(seconds)]
    {
      trace := trace + [Call.Sleep(seconds)];
    }

    method GetServer(name: string) returns (answer: Reply)
      modifies this
      ensures trace == old(trace) + [ServerGet(name, answer)]
    {
      answer := *;
      trace := trace + [ServerGet(name, answer)];
    }

    method GetLoadBalancer(name: string) returns (answer: Reply)
      modifies this
      ensures trace == old(trace) + [LoadBalancerGet(name, answer)]
    {
      answer := *;
      trace := trace + [LoadBalancerGet(name, answer)];
    }

    method Exec(ip: string, user: string, command: Script) returns (result: ExecReply)
      modifies this
      ensures trace == old(trace) + [Call.Exec(ip, user, command, result)]
    {
      result := *;
      trace := trace + [Call.Exec(ip, user, command, result)];
    }

    method Provision(op: Op) returns (ok: bool)
      modifies this
      ensures trace == old(trace) + [Call.Provision(op, ok)]
    {
      ok := *;
      trace := trace + [Call.Provision(op, ok)];
    }
  }

  /** The errors of this package, with the text `errors.Wrap` puts in front. */
  datatype ApiError =
    | Failed(context: string)       // an hcloud or SSH error, wrapped with `context`
    | ProviderError(op: Op)         // an hcloud error returned as is
    | RetryLimitReached             // `errRetryLimitReached`
    | Fatal(command: Script)        // `log.Fatal` after `command` failed: the process ends
    | OutOfFuel                     // the model's bound on a loop the source does not bound
    | Wrapped(context: string, cause: ApiError)

  /**
   * `waitForServer`'s result from the lookup and the `date` probe. A nil
   * server is not an error: `errors.Wrap(nil, …)` is nil, so the caller goes
   * on with the empty address. A server without an address is probed on the
   * empty address like any other.
   */
  function ServerWaited(answer: Reply, date: bool): (r: Result<string, ApiError>)
    ensures r.Ok? <==> answer.Missing? || (answer.Found? && answer.addr.IP? && date)
    ensures r.Ok? && r.value != "" ==> answer == Found(IP(r.value)) && date
    ensures answer.Found? && answer.addr.IP? && date ==> r == Ok(answer.addr.ip)
    ensures answer.Missing? ==> r == Ok("")
  {
    match answer
    case GetFailed => Err(Failed("error in server get"))
    case Missing => Ok("")
    case Found(Unmarshalable) => Err(Failed("masterServer ip get"))
    case Found(IP(ip)) => if date then Ok(ip) else Err(Failed("error executing command"))
  }

  /** The calls `waitForServer` makes: the lookup, then `date` on the address when the lookup gave one that marshals. */
  function WaitEvents(name: string, answer: Reply, date: ExecReply): seq<Call> {
    [ServerGet(name, answer)]
    + (if answer.Found? && answer.addr.IP? then [Call.Exec(answer.addr.ip, Root, DateProbe, date)] else [])
  }

  /** `waitForLoadBalancer`'s result from the lookup; as for servers, nil is not an error. */
  function BalancerWaited(answer: Reply): (r: Result<string, ApiError>)
    ensures r.Ok? <==> answer != GetFailed && answer != Found(Unmarshalable)
    ensures r.Ok? && r.value != "" ==> answer == Found(IP(r.value))
    ensures answer.Missing? ==> r == Ok("")
  {
    match answer
    case GetFailed => Err(Failed("error in loadBalancer get"))
    case Missing => Ok("")
    case Found(Unmarshalable) => Err(Failed("loadBalancer IP get"))
    case Found(IP(ip)) => Ok(ip)
  }

  // ---------------------------------------------------------------------
  // Attempts of the retry loops
  // ---------------------------------------------------------------------

  /** How many attempts a loop that gives up once its counter exceeds `limit` makes at most. */
  function Tries(limit: int): nat {
    if limit < 0 then 0 else limit + 1
  }

  /** The attempts, in order, with one sleep of `wait` before every attempt but the first. */
  function Paced(attempts: seq<seq<Call>>, wait: nat): seq<Call>
    decreases |attempts|
  {
    if |attempts| == 0 then []
    else
      Paced(attempts[..|attempts| - 1], wait) + (if |attempts| > 1 then [Call.Sleep(wait)] else [])
      + attempts[|attempts| - 1]
  }

  /**
   * One more attempt `a` extends a trace ending with the earlier ones by a
   * sleep, when it is not the first, and the attempt.
   */
  lemma PacedStep(t0: seq<Call>, attempts: seq<seq<Call>>, wait: nat, a: seq<Call>, t: seq<Call>)
    requires t == (if |attempts| > 0 then t0 + Paced(attempts, wait) + [Call.Sleep(wait)] else t0 + Paced(attempts, wait)) + a
    ensures t == t0 + Paced(attempts + [a], wait)
  {
    var gap: seq<Call> := if |attempts| > 0 then [Call.Sleep(wait)] else [];
    var p := Paced(attempts, wait);
    assert Paced(attempts + [a], wait) == p + gap + a by {
      assert (attempts + [a])[..|attempts|] == attempts;
    }
    Regroup(t0, p + gap, a);
    Regroup(t0, p, gap);
    if |attempts| == 0 {
      AppendNothing(t0 + p);
    }
  }

  /** The number of sleeps in `t`. */
  function Sleeps(t: seq<Call>): nat
    decreases |t|
  {
    if |t| == 0 then 0 else Sleeps(t[..|t| - 1]) + (if t[|t| - 1].Sleep? then 1 else 0)
  }

  /** The number of server lookups in `t`: each attempt of a loop starts with one. */
  function Probes(t: seq<Call>): nat
    decreases |t|
  {
    if |t| == 0 then 0 else Probes(t[..|t| - 1]) + (if t[|t| - 1].ServerGet? then 1 else 0)
  }

  lemma {:induction false} CountsAppend(a: seq<Call>, b: seq<Call>)
    ensures Sleeps(a + b) == Sleeps(a) + Sleeps(b)
    ensures Probes(a + b) == Probes(a) + Probes(b)
    decreases |b|
  {
    if |b| == 0 {
      assert a + b == a;
    } else {
      var c := b[..|b| - 1];
      assert (a + b)[..|a + b| - 1] == a + c;
      CountsAppend(a, c);
    }
  }

  /** One attempt: a server lookup first, no further lookup and no sleep after it. */
  predicate Probe(a: seq<Call>) {
    |a| > 0 && a[0].ServerGet? && forall j :: 1 <= j < |a| ==> !a[j].ServerGet? && !a[j].Sleep?
  }

  lemma {:induction false} ProbeCounts(a: seq<Call>)
    requires Probe(a)
    ensures Sleeps(a) == 0 && Probes(a) == 1
    decreases |a|
  {
    if |a| > 1 {
      ProbeCounts(a[..|a| - 1]);
    } else {
      assert a[..0] == [];
    }
  }

  /**
   * The retry discipline: `n` attempts make exactly `n` lookups and `n - 1`
   * sleeps, and the first call is a lookup, not a sleep.
   */
  lemma {:induction false} PacedCounts(attempts: seq<seq<Call>>, wait: nat)
    requires forall i :: 0 <= i < |attempts| ==> Probe(attempts[i])
    ensures Probes(Paced(attempts, wait)) == |attempts|
    ensures Sleeps(Paced(attempts, wait)) == if |attempts| == 0 then 0 else |attempts| - 1
    ensures |attempts| > 0 ==> Paced(attempts, wait)[0].ServerGet?
    decreases |attempts|
  {
    if |attempts| > 0 {
      var front := attempts[..|attempts| - 1];
      var last := attempts[|attempts| - 1];
      var gap: seq<Call> := if |attempts| > 1 then [Call.Sleep(wait)] else [];
      PacedCounts(front, wait);
      ProbeCounts(last);
      CountsAppend(Paced(front, wait), gap);
      CountsAppend(Paced(front, wait) + gap, last);
      assert Sleeps(gap) == |gap| by {
        if |gap| == 1 {
          assert gap[..0] == [];
        }
      }
      assert Probes(gap) == 0 by {
        if |gap| == 1 {
          assert gap[..0] == [];
        }
      }
      if |attempts| == 1 {
        assert Paced(attempts, wait) == last;
      } else {
        assert |Paced(front, wait)| > 0;
      }
    }
  }

  /** What an attempt leads to: another attempt, or the end of the loop with this result. */
  datatype Attempted = Retry | Finish(err: Option<ApiError>)

  /**
   * `a` ran the commands `cmds` in order on `ip` as root, stopping at the
   * first that failed.
   */
  predicate Ran(ip: string, cmds: seq<Script>, a: seq<Call>) {
    && |a| <= |cmds|
    && (forall j :: 0 <= j < |a| ==> a[j].Exec? && a[j].ip == ip && a[j].user == Root && a[j].command == cmds[j])
    && (forall j :: 0 <= j < |a| - 1 ==> a[j].result.ok)
    && (|a| < |cmds| ==> |a| > 0 && !a[|a| - 1].result.ok)
  }

  /** Every call in `a` is a command that succeeded. */
  predicate Succeeded(a: seq<Call>) {
    forall j :: 0 <= j < |a| ==> a[j].Exec? && a[j].result.ok
  }

  /**
   * How a run of commands ends an attempt: all succeeded ends the loop with
   * nil; a failure among the first `retried` commands is retried; a later
   * failure is fatal.
   */
  function Settle(rest: seq<Call>, retried: nat): Attempted
    requires forall j :: 0 <= j < |rest| ==> rest[j].Exec?
  {
    if Succeeded(rest) then Finish(None)
    else if |rest| <= retried then Retry
    else Finish(Some(Fatal(rest[|rest| - 1].command)))
  }

  /**
   * An attempt of a loop that waits for server `name`, then runs `cmds` on it:
   * `a` is the wait's calls followed, when the wait succeeded, by the run.
   */
  ghost predicate WaitThenRun(name: string, cmds: seq<Script>, retried: nat, a: seq<Call>, outcome: Attempted) {
    exists answer: Reply, date: ExecReply {:trigger WaitEvents(name, answer, date)} ::
      var w := WaitEvents(name, answer, date);
      var res := ServerWaited(answer, date.ok);
      && |w| <= |a| && a[..|w|] == w
      && (res.Err? ==> a == w && outcome == Retry)
      && (res.Ok? ==> Ran(res.value, cmds, a[|w|..]) && outcome == Settle(a[|w|..], retried))
  }

  /** Calls that begin with a wait and go on with commands make one attempt in the sense of `Probe`. */
  lemma WaitProbe(a: seq<Call>, w: seq<Call>)
    requires 0 < |w| <= |a| && a[..|w|] == w
    requires w[0].ServerGet? && forall j :: 1 <= j < |w| ==> w[j].Exec? || w[j].LoadBalancerGet?
    requires forall j :: |w| <= j < |a| ==> a[j].Exec?
    ensures Probe(a)
  {
    assert forall j :: 0 <= j < |w| ==> a[j] == w[j];
  }

  /** The calls of a server wait: a lookup, then at most a probe. */
  lemma WaitEventsShape(name: string, answer: Reply, date: ExecReply)
    ensures var w := WaitEvents(name, answer, date);
      0 < |w| && w[0].ServerGet? && forall j :: 1 <= j < |w| ==> w[j].Exec?
  {
  }

  /** The calls of the waits of an attempt: a server lookup, then probes and balancer lookups. */
  lemma InitEventsShape(name: string, cluster: string, masterCount: int, answer: Reply, date: ExecReply, lb: Reply)
    ensures var w := InitEvents(name, cluster, masterCount, answer, date, lb);
      0 < |w| && w[0].ServerGet? && forall j :: 1 <= j < |w| ==> w[j].Exec? || w[j].LoadBalancerGet?
  {
  }

  /** Every attempt of a wait-then-run loop is one lookup followed by neither lookups nor sleeps. */
  lemma WaitThenRunIsProbe(name: string, cmds: seq<Script>, retried: nat, a: seq<Call>, outcome: Attempted)
    requires WaitThenRun(name, cmds, retried, a, outcome)
    ensures Probe(a)
  {
    var answer: Reply, date: ExecReply :|
      var w := WaitEvents(name, answer, date);
      |w| <= |a| && a[..|w|] == w && forall j :: |w| <= j < |a| ==> a[j].Exec?;
    WaitEventsShape(name, answer, date);
    WaitProbe(a, WaitEvents(name, answer, date));
  }

  /** Each of `attempts` was retried, except the last, which led to `last`. */
  ghost predicate Attempts(name: string, cmds: seq<Script>, retried: nat, attempts: seq<seq<Call>>, last: Attempted)
    decreases |attempts|
  {
    |attempts| == 0 ||
    (Attempts(name, cmds, retried, attempts[..|attempts| - 1], Retry)
     && WaitThenRun(name, cmds, retried, attempts[|attempts| - 1], last))
  }

  lemma AttemptsStep(name: string, cmds: seq<Script>, retried: nat, attempts: seq<seq<Call>>, a: seq<Call>, last: Attempted)
    requires Attempts(name, cmds, retried, attempts, Retry)
    requires WaitThenRun(name, cmds, retried, a, last)
    ensures Attempts(name, cmds, retried, attempts + [a], last)
  {
    assert (attempts + [a])[..|attempts|] == attempts;
  }

  /** Attempts that are all probes, up to the last, and a last one that is. */
  lemma ProbesGrow(attempts: seq<seq<Call>>, front: seq<seq<Call>>)
    requires |attempts| > 0 && front == attempts[..|attempts| - 1] && Probe(attempts[|attempts| - 1])
    requires forall i :: 0 <= i < |front| ==> Probe(front[i])
    ensures forall i :: 0 <= i < |attempts| ==> Probe(attempts[i])
  {
    forall i | 0 <= i < |front| ensures Probe(attempts[i]) {
      assert front[i] == attempts[i];
    }
  }

  /** Hence, by `PacedCounts`, `n` attempts of such a loop make `n` lookups and `n - 1` sleeps. */
  lemma {:induction false} AttemptsAreProbes(name: string, cmds: seq<Script>, retried: nat, attempts: seq<seq<Call>>, last: Attempted)
    requires Attempts(name, cmds, retried, attempts, last)
    ensures forall i :: 0 <= i < |attempts| ==> Probe(attempts[i])
    decreases |attempts|
  {
    if |attempts| > 0 {
      var front := attempts[..|attempts| - 1];
      AttemptsAreProbes(name, cmds, retried, front, Retry);
      WaitThenRunIsProbe(name, cmds, retried, attempts[|attempts| - 1], last);
      ProbesGrow(attempts, front);
    }
  }

  /** An attempt whose wait failed is retried, with nothing run. */
  lemma WaitFailed(name: string, cmds: seq<Script>, retried: nat, answer: Reply, date: ExecReply)
    requires ServerWaited(answer, date.ok).Err?
    ensures WaitThenRun(name, cmds, retried, WaitEvents(name, answer, date), Retry)
  {
    var w := WaitEvents(name, answer, date);
    assert w[..|w|] == w;
  }

  /** An attempt whose wait succeeded is the wait's calls followed by the run. */
  lemma WaitSucceeded(name: string, cmds: seq<Script>, retried: nat, answer: Reply, date: ExecReply, run: seq<Call>)
    requires ServerWaited(answer, date.ok).Ok?
    requires Ran(ServerWaited(answer, date.ok).value, cmds, run)
    ensures WaitThenRun(name, cmds, retried, WaitEvents(name, answer, date) + run, Settle(run, retried))
  {
    var w := WaitEvents(name, answer, date);
    assert (w + run)[..|w|] == w && (w + run)[|w|..] == run;
  }

  /** Running one command: a failure is retried when `retried` allows it. */
  lemma RanOne(ip: string, command: Script, out: ExecReply)
    ensures Ran(ip, [command], [Call.Exec(ip, Root, command, out)])
    ensures Settle([Call.Exec(ip, Root, command, out)], 1) == if out.ok then Finish(None) else Retry
  {
    var run := [Call.Exec(ip, Root, command, out)];
    assert run[0].result == out;
  }

  /** `run` ran the first `|run|` of `cmds` on `ip` as root, and all of them succeeded. */
  predicate RanSoFar(ip: string, cmds: seq<Script>, run: seq<Call>) {
    && |run| <= |cmds|
    && forall j :: 0 <= j < |run| ==>
         run[j].Exec? && run[j].ip == ip && run[j].user == Root && run[j].command == cmds[j] && run[j].result.ok
  }

  /** Running the next command: its success keeps the run going, its failure ends it. */
  lemma ExecNext(ip: string, cmds: seq<Script>, run: seq<Call>, out: ExecReply, retried: nat)
    requires RanSoFar(ip, cmds, run) && |run| < |cmds|
    ensures var next := run + [Call.Exec(ip, Root, cmds[|run|], out)];
      && (out.ok ==> RanSoFar(ip, cmds, next))
      && (!out.ok ==> Ran(ip, cmds, next)
                      && Settle(next, retried)
                         == if |next| <= retried then Retry else Finish(Some(Fatal(cmds[|run|]))))
  {
    var next := run + [Call.Exec(ip, Root, cmds[|run|], out)];
    assert next[|run|].result == out;
  }

  /** A run that got through all the commands ends the loop with nil. */
  lemma RanAll(ip: string, cmds: seq<Script>, run: seq<Call>, retried: nat)
    requires RanSoFar(ip, cmds, run) && |run| == |cmds|
    ensures Ran(ip, cmds, run) && Settle(run, retried) == Finish(None)
  {
  }

  /** The commands `postInstall` runs on the first master, in order. */
  function PostCommands(copy: bool, p: InitParams, values: string, masterCount: int): seq<Script> {
    (if copy then [CommonExec(p)] else []) + [PostInstallRun(values)]
    + (if masterCount == 1 then [OneMasterMode] else [])
  }

  /**
   * `postInstall` fetches the scripts again exactly when asked to, always runs
   * the post-install script, and switches to one-master mode exactly when
   * there is one master.
   */
  lemma PostCommandsChoice(copy: bool, p: InitParams, values: string, masterCount: int)
    ensures CommonExec(p) in PostCommands(copy, p, values, masterCount) <==> copy
    ensures OneMasterMode in PostCommands(copy, p, values, masterCount) <==> masterCount == 1
    ensures PostInstallRun(values) in PostCommands(copy, p, values, masterCount)
  {
  }

  /** The calls of an `initFirstMasterNode` attempt before its commands: the server wait, then the balancer lookup when there are several masters. */
  function InitEvents(name: string, cluster: string, masterCount: int, answer: Reply, date: ExecReply, lb: Reply): seq<Call> {
    WaitEvents(name, answer, date)
    + (if ServerWaited(answer, date.ok).Ok? && masterCount > 1 then [LoadBalancerGet(cluster, lb)] else [])
  }

  /**
   * An attempt of `initFirstMasterNode`: wait for the server; with several
   * masters wait for the balancer, whose address becomes `MASTER_LB`, and with
   * one master use the server's own address; run the init script (a failure
   * is retried), then read the join command and the kubeconfig (a failure is
   * fatal).
   */
  ghost predicate InitAttempt(name: string, cluster: string, masterCount: int, p: InitParams, token: string,
                              a: seq<Call>, outcome: Attempted) {
    exists answer: Reply, date: ExecReply, lb: Reply {:trigger InitEvents(name, cluster, masterCount, answer, date, lb)} ::
      var w := InitEvents(name, cluster, masterCount, answer, date, lb);
      var res := ServerWaited(answer, date.ok);
      var addr := if masterCount > 1 then BalancerWaited(lb) else res;
      && |w| <= |a| && a[..|w|] == w
      && (res.Err? || addr.Err? ==> a == w && outcome == Retry)
      && (res.Ok? && addr.Ok? ==>
            && Ran(res.value, InitCommands(p, token, addr.value), a[|w|..])
            && outcome == Settle(a[|w|..], 1))
  }

  /** The commands an `initFirstMasterNode` attempt runs once the addresses are known. */
  function InitCommands(p: InitParams, token: string, balancer: string): seq<Script> {
    [InitMaster(p, token, balancer), ReadJoinCommand, ReadAdminConf]
  }

  /** An attempt whose server or balancer wait failed is retried, with nothing run. */
  lemma InitWaitFailed(name: string, cluster: string, masterCount: int, p: InitParams, token: string,
                       answer: Reply, date: ExecReply, lb: Reply, a: seq<Call>)
    requires ServerWaited(answer, date.ok).Err? || (masterCount > 1 && BalancerWaited(lb).Err?)
    requires a == InitEvents(name, cluster, masterCount, answer, date, lb)
    ensures InitAttempt(name, cluster, masterCount, p, token, a, Retry)
  {
    assert a[..|a|] == a;
  }

  /** An attempt whose waits succeeded is the waits' calls followed by the run. */
  lemma InitWaitSucceeded(name: string, cluster: string, masterCount: int, p: InitParams, token: string,
                          answer: Reply, date: ExecReply, lb: Reply, run: seq<Call>, a: seq<Call>)
    requires ServerWaited(answer, date.ok).Ok?
    requires masterCount > 1 ==> BalancerWaited(lb).Ok?
    requires
      var ip := ServerWaited(answer, date.ok).value;
      Ran(ip, InitCommands(p, token, if masterCount > 1 then BalancerWaited(lb).value else ip), run)
    requires a == InitEvents(name, cluster, masterCount, answer, date, lb) + run
    ensures InitAttempt(name, cluster, masterCount, p, token, a, Settle(run, 1))
  {
    var w := InitEvents(name, cluster, masterCount, answer, date, lb);
    assert (w + run)[..|w|] == w && (w + run)[|w|..] == run;
  }

  /**
   * `a` ends by reading the join command `join` and then the kubeconfig
   * `kube`, both successfully.
   */
  predicate KeysRead(a: seq<Call>, join: string, kube: string) {
    && |a| >= 2
    && a[|a| - 2].Exec? && a[|a| - 2].command == ReadJoinCommand && a[|a| - 2].result == ExecReply(true, join)
    && a[|a| - 1].Exec? && a[|a| - 1].command == ReadAdminConf && a[|a| - 1].result == ExecReply(true, kube)
  }

  /** Each of `attempts` of `initFirstMasterNode` was retried, except the last, which led to `last`. */
  ghost predicate InitAttempts(name: string, cluster: string, masterCount: int, p: InitParams, token: string,
                               attempts: seq<seq<Call>>, last: Attempted)
    decreases |attempts|
  {
    |attempts| == 0 ||
    (InitAttempts(name, cluster, masterCount, p, token, attempts[..|attempts| - 1], Retry)
     && InitAttempt(name, cluster, masterCount, p, token, attempts[|attempts| - 1], last))
  }

  lemma InitAttemptsStep(name: string, cluster: string, masterCount: int, p: InitParams, token: string,
                         attempts: seq<seq<Call>>, a: seq<Call>, last: Attempted)
    requires InitAttempts(name, cluster, masterCount, p, token, attempts, Retry)
    requires InitAttempt(name, cluster, masterCount, p, token, a, last)
    ensures InitAttempts(name, cluster, masterCount, p, token, attempts + [a], last)
  {
    assert (attempts + [a])[..|attempts|] == attempts;
  }

  /** Every attempt of `initFirstMasterNode` is one server lookup followed by neither lookups nor sleeps. */
  lemma InitAttemptIsProbe(name: string, cluster: string, masterCount: int, p: InitParams, token: string,
                           a: seq<Call>, outcome: Attempted)
    requires InitAttempt(name, cluster, masterCount, p, token, a, outcome)
    ensures Probe(a)
  {
    var answer: Reply, date: ExecReply, lb: Reply :|
      var w := InitEvents(name, cluster, masterCount, answer, date, lb);
      |w| <= |a| && a[..|w|] == w && forall j :: |w| <= j < |a| ==> a[j].Exec?;
    var w := InitEvents(name, cluster, masterCount, answer, date, lb);
    InitEventsShape(name, cluster, masterCount, answer, date, lb);
    WaitProbe(a, w);
  }

  /** Hence, by `PacedCounts`, `n` attempts of `initFirstMasterNode` make `n` lookups and `n - 1` sleeps. */
  lemma {:induction false} InitAttemptsAreProbes(name: string, cluster: string, masterCount: int, p: InitParams, token: string,
                                                 attempts: seq<seq<Call>>, last: Attempted)
    requires InitAttempts(name, cluster, masterCount, p, token, attempts, last)
    ensures forall i :: 0 <= i < |attempts| ==> Probe(attempts[i])
    decreases |attempts|
  {
    if |attempts| > 0 {
      var front := attempts[..|attempts| - 1];
      InitAttemptsAreProbes(name, cluster, masterCount, p, token, front, Retry);
      InitAttemptIsProbe(name, cluster, masterCount, p, token, attempts[|attempts| - 1], last);
      ProbesGrow(attempts, front);
    }
  }

  /** The stages of `NewCluster`, in the order it may run them. */
  datatype Step =
    | NetworkStep | SSHKeyStep | BalancerStep | ServersStep | InitMasterStep | SaveKubeconfigStep
    | JoinStep(server: string)
    | PostInstallStep

  /** A stage whose failure ends `NewCluster`; the others' failures are only logged. */
  predicate Aborts(s: Step) {
    !s.SaveKubeconfigStep? && !s.JoinStep?
  }

  /** The text `NewCluster` wraps a stage's error with. */
  function StepContext(s: Step): string {
    match s
    case NetworkStep => "error in create network"
    case SSHKeyStep => "error in create sshkey"
    case BalancerStep => "error in create loadbalancer"
    case ServersStep => "error in create server"
    case InitMasterStep => "error in init first master nodes"
    case PostInstallStep => "error in postInstall"
    case SaveKubeconfigStep => "error in saving kubeconfig"
    case JoinStep(_) => "error in join"
  }

  /** The stages before the joins: the balancer only with several masters. */
  function Head(masterCount: int): seq<Step> {
    [NetworkStep, SSHKeyStep] + (if masterCount > 1 then [BalancerStep] else [])
    + [ServersStep, InitMasterStep, SaveKubeconfigStep]
  }

  /** One join stage per master `2..masterCount`, in order. */
  function Joins(pattern: string, masterCount: int): seq<Step> {
    var n := if masterCount < 1 then 0 else masterCount - 1;
    seq(n, j requires 0 <= j < n => JoinStep(ServerName(pattern, j + 2)))
  }

  /** Every stage of a `NewCluster` run that goes through to the end. */
  function Plan(pattern: string, masterCount: int): seq<Step> {
    Head(masterCount) + Joins(pattern, masterCount) + [PostInstallStep]
  }

  /**
   * `NewCluster` starts with the network and then the key, ends with
   * post-install, and has six stages besides the balancer and the joins.
   */
  lemma PlanEnds(pattern: string, masterCount: int)
    ensures var plan := Plan(pattern, masterCount);
      && |plan| == 6 + (if masterCount > 1 then masterCount else 0)
      && plan[0] == NetworkStep && plan[1] == SSHKeyStep && plan[|plan| - 1] == PostInstallStep
  {
  }

  /** The balancer is created exactly when there are several masters. */
  lemma PlanBalancer(pattern: string, masterCount: int)
    ensures BalancerStep in Plan(pattern, masterCount) <==> masterCount > 1
  {
    var joins := Joins(pattern, masterCount);
    assert Plan(pattern, masterCount) == Head(masterCount) + joins + [PostInstallStep];
    assert forall j :: 0 <= j < |joins| ==> joins[j].JoinStep?;
    if masterCount > 1 {
      assert Plan(pattern, masterCount)[2] == BalancerStep;
    }
  }

  /** The join stages are exactly one for each master `2..masterCount`. */
  lemma PlanJoins(pattern: string, masterCount: int, s: Step)
    ensures s in Plan(pattern, masterCount) && s.JoinStep?
            <==> exists i :: 2 <= i <= masterCount && s == JoinStep(ServerName(pattern, i))
  {
    if s in Plan(pattern, masterCount) && s.JoinStep? {
      JoinInPlan(pattern, masterCount, s);
      JoinsNamed(pattern, masterCount, s);
    }
    if exists i :: 2 <= i <= masterCount && s == JoinStep(ServerName(pattern, i)) {
      var i :| 2 <= i <= masterCount && s == JoinStep(ServerName(pattern, i));
      JoinsAt(pattern, masterCount, i);
      JoinsInPlan(pattern, masterCount, s);
    }
  }

  /** The only join stages of the plan are those of `Joins`. */
  lemma JoinInPlan(pattern: string, masterCount: int, s: Step)
    requires s in Plan(pattern, masterCount) && s.JoinStep?
    ensures s in Joins(pattern, masterCount)
  {
    assert s !in Head(masterCount);
  }

  /** `Joins` only holds stages of `Plan`. */
  lemma JoinsInPlan(pattern: string, masterCount: int, s: Step)
    requires s in Joins(pattern, masterCount)
    ensures s in Plan(pattern, masterCount)
  {
  }

  /** Each stage of `Joins` joins one master `2..masterCount`. */
  lemma JoinsNamed(pattern: string, masterCount: int, s: Step)
    requires s in Joins(pattern, masterCount)
    ensures exists i :: 2 <= i <= masterCount && s == JoinStep(ServerName(pattern, i))
  {
    var joins := Joins(pattern, masterCount);
    var j :| 0 <= j < |joins| && joins[j] == s;
    assert 2 <= j + 2 <= masterCount && s == JoinStep(ServerName(pattern, j + 2));
  }

  lemma JoinsAt(pattern: string, masterCount: int, i: int)
    requires 2 <= i <= masterCount
    ensures JoinStep(ServerName(pattern, i)) in Joins(pattern, masterCount)
  {
    assert Joins(pattern, masterCount)[i - 2] == JoinStep(ServerName(pattern, i));
  }

  /** A prefix followed by the next element is still a prefix. */
  lemma PrefixGrow<T>(s: seq<T>, t: seq<T>, x: T)
    requires s <= t && |s| < |t| && t[|s|] == x
    ensures s + [x] <= t
  {
    assert t[..|s| + 1] == t[..|s|] + [t[|s|]];
  }

  /** A prefix of a sequence is a prefix of anything that extends it. */
  lemma PrefixOfConcat<T>(s: seq<T>, a: seq<T>, b: seq<T>)
    requires s <= a
    ensures s <= a + b
  {
    assert (a + b)[..|a|] == a;
  }

  /** After the network, the key and the balancer come the servers, the first master and the kubeconfig. */
  lemma HeadRest(masterCount: int, done: seq<Step>)
    requires done <= Head(masterCount) && |done| == 2 + (if masterCount > 1 then 1 else 0)
    ensures done + [ServersStep] <= Head(masterCount)
    ensures done + [ServersStep, InitMasterStep] <= Head(masterCount)
    ensures done + [ServersStep, InitMasterStep, SaveKubeconfigStep] == Head(masterCount)
  {
    var rest := [ServersStep, InitMasterStep, SaveKubeconfigStep];
    assert done == Head(masterCount)[..|done|];
    assert Head(masterCount) == done + rest;
    assert (done + rest)[..|done| + 1] == done + [ServersStep];
    assert (done + rest)[..|done| + 2] == done + [ServersStep, InitMasterStep];
  }

  /** A prefix of the stages before the joins is a prefix of the plan. */
  lemma PlanPrefix(pattern: string, masterCount: int, done: seq<Step>)
    requires done <= Head(masterCount)
    ensures done <= Plan(pattern, masterCount)
  {
    PrefixOfConcat(done, Head(masterCount), Joins(pattern, masterCount));
    PrefixOfConcat(done, Head(masterCount) + Joins(pattern, masterCount), [PostInstallStep]);
  }

  /**
   * What one stage of `NewCluster` did: its calls, the attempts of a stage
   * that retries, and the stage's own error before `NewCluster` wraps it.
   */
  datatype StageRun = StageRun(step: Step, calls: seq<Call>, tries: seq<seq<Call>>, err: Option<ApiError>)

  /** The stages `runs` went through, in order. */
  function Steps(runs: seq<StageRun>): (r: seq<Step>)
    ensures |r| == |runs| && forall i {:trigger r[i]} :: 0 <= i < |runs| ==> r[i] == runs[i].step
  {
    seq(|runs|, i requires 0 <= i < |runs| => runs[i].step)
  }

  /** The calls of `runs`, one stage after the other. */
  function Calls(runs: seq<StageRun>): seq<Call>
    decreases |runs|
  {
    if |runs| == 0 then [] else Calls(runs[..|runs| - 1]) + runs[|runs| - 1].calls
  }

  /** One more join stage, for master `i`, extends the joins done so far. */
  lemma {:induction false} JoinsGrow(pattern: string, masterCount: int, runs: seq<StageRun>, r: StageRun, i: nat)
    requires 2 <= i <= masterCount && Steps(runs) == Joins(pattern, masterCount)[..i - 2]
    requires r.step == JoinStep(ServerName(pattern, i))
    ensures Steps(runs + [r]) == Joins(pattern, masterCount)[..i - 1]
  {
    var joins := Joins(pattern, masterCount);
    assert joins[i - 2] == r.step;
    assert joins[..i - 1] == joins[..i - 2] + [r.step];
    StepsAppend(runs, [r]);
    assert Steps([r]) == [r.step];
  }

  /** Once the loop has passed the last master, the joins are all done. */
  lemma JoinsAll(pattern: string, masterCount: int, runs: seq<StageRun>, i: nat)
    requires i == (if masterCount < 2 then 2 else masterCount + 1)
    requires Steps(runs) == Joins(pattern, masterCount)[..i - 2]
    ensures Steps(runs) == Joins(pattern, masterCount)
  {
    assert Joins(pattern, masterCount)[..i - 2] == Joins(pattern, masterCount);
  }

  /** A stage run after `runs` extends their calls by its own. */
  lemma TraceGrows(t0: seq<Call>, runs: seq<StageRun>, r: StageRun, t1: seq<Call>, t: seq<Call>)
    requires t1 == t0 + Calls(runs) && t == t1 + r.calls
    ensures t == t0 + Calls(runs + [r])
  {
    CallsStep(runs, r);
  }

  /** Stage runs after `a` extend their calls by their own. */
  lemma TraceAppend(t0: seq<Call>, a: seq<StageRun>, t1: seq<Call>, b: seq<StageRun>, t: seq<Call>)
    requires t1 == t0 + Calls(a) && t == t1 + Calls(b)
    ensures t == t0 + Calls(a + b)
  {
    CallsAppend(a, b);
  }

  /** The stages of `a + b` are those of `a`, then those of `b`. */
  lemma StepsAppend(a: seq<StageRun>, b: seq<StageRun>)
    ensures Steps(a + b) == Steps(a) + Steps(b)
  {
  }

  /** One more stage, the next one of `plan`, keeps the stages a prefix of `plan`. */
  lemma StepsGrow(runs: seq<StageRun>, r: StageRun, plan: seq<Step>)
    requires Steps(runs) <= plan && |runs| < |plan| && plan[|runs|] == r.step
    ensures Steps(runs + [r]) <= plan
  {
    assert Steps(runs + [r]) == Steps(runs) + [r.step];
    PrefixGrow(Steps(runs), plan, r.step);
  }

  /** The run of a stage that makes the one provider call `op`, which answered `ok`. */
  function Provide(step: Step, op: Op, ok: bool): (r: StageRun)
    ensures Provided(r, op) && r.step == step && (r.err.None? <==> ok)
  {
    StageRun(step, [Provision(op, ok)], [], if ok then None else Some(ProviderError(op)))
  }

  lemma CallsStep(runs: seq<StageRun>, r: StageRun)
    ensures Calls(runs + [r]) == Calls(runs) + r.calls
  {
    assert (runs + [r])[..|runs|] == runs;
  }

  lemma {:induction false} CallsAppend(a: seq<StageRun>, b: seq<StageRun>)
    ensures Calls(a + b) == Calls(a) + Calls(b)
    decreases |b|
  {
    if |b| > 0 {
      var front := b[..|b| - 1];
      CallsAppend(a, front);
      assert a + b == (a + front) + [b[|b| - 1]];
      CallsStep(a + front, b[|b| - 1]);
      CallsStep(front, b[|b| - 1]);
      assert front + [b[|b| - 1]] == b;
    } else {
      assert a + b == a;
    }
  }

  /** A stage that only makes the provider call `op`, failing with the provider's error. */
  predicate Provided(r: StageRun, op: Op) {
    r.calls == [Provision(op, r.err.None?)] && r.tries == [] && (r.err.Some? ==> r.err == Some(ProviderError(op)))
  }

  /** One of the stages before the first master is initialised, whose calls do not depend on what it reads. */
  predicate Early(s: Step) {
    s.NetworkStep? || s.SSHKeyStep? || s.BalancerStep? || s.ServersStep?
  }

  /** Every stage of `runs` before the last that would have ended the run on failure succeeded. */
  predicate GoneOn(runs: seq<StageRun>) {
    forall i {:trigger Aborts(runs[i].step)} :: 0 <= i < |runs| - 1 && Aborts(runs[i].step) ==> runs[i].err.None?
  }

  /**
   * `err` is how a run of `NewCluster` through the stages `runs` ends: with
   * the last stage's error, wrapped with its context, exactly when that
   * stage failed and its failure ends the run.
   */
  predicate EndedBy(runs: seq<StageRun>, err: Option<ApiError>) {
    && 0 < |runs| && GoneOn(runs)
    && (err.Some? <==> Aborts(runs[|runs| - 1].step) && runs[|runs| - 1].err.Some?)
    && (err.Some? ==> err == Some(Wrapped(StepContext(runs[|runs| - 1].step), runs[|runs| - 1].err.value)))
  }

  /** A run of `NewCluster` fails exactly when one of its stages failed and that stage ends the run. */
  lemma EndedByMeans(runs: seq<StageRun>, err: Option<ApiError>)
    requires EndedBy(runs, err)
    ensures err.Some? <==> exists i :: 0 <= i < |runs| && Aborts(runs[i].step) && runs[i].err.Some?
  {
    if exists i :: 0 <= i < |runs| && Aborts(runs[i].step) && runs[i].err.Some? {
      var i :| 0 <= i < |runs| && Aborts(runs[i].step) && runs[i].err.Some?;
      assert i == |runs| - 1;
    }
  }

  /** One more stage keeps `GoneOn` when the stage before it went on. */
  lemma GoneOnStep(runs: seq<StageRun>, r: StageRun)
    requires GoneOn(runs)
    requires 0 < |runs| && Aborts(runs[|runs| - 1].step) ==> runs[|runs| - 1].err.None?
    ensures GoneOn(runs + [r])
  {
    forall i | 0 <= i < |runs + [r]| - 1 && Aborts((runs + [r])[i].step)
      ensures (runs + [r])[i].err.None?
    {
      assert (runs + [r])[i] == runs[i];
    }
  }

  /** Stages that do not end the run on failure, after stages that went on, keep `GoneOn`. */
  lemma GoneOnAppend(runs: seq<StageRun>, more: seq<StageRun>)
    requires GoneOn(runs) && 0 < |runs| && (Aborts(runs[|runs| - 1].step) ==> runs[|runs| - 1].err.None?)
    requires forall i :: 0 <= i < |more| ==> !Aborts(more[i].step)
    ensures GoneOn(runs + more)
  {
    forall i | 0 <= i < |runs + more| - 1 && Aborts((runs + more)[i].step)
      ensures (runs + more)[i].err.None?
    {
      if i < |runs| {
        assert (runs + more)[i] == runs[i];
      }
    }
  }

  /** The servers `t` created, in order: its successful creation calls. */
  function Creations(t: seq<Call>): seq<Op>
    decreases |t|
  {
    if |t| == 0 then []
    else
      Creations(t[..|t| - 1])
      + (if t[|t| - 1].Provision? && t[|t| - 1].op.CreateServer? && t[|t| - 1].ok then [t[|t| - 1].op] else [])
  }

  lemma {:induction false} CreationsAppend(a: seq<Call>, b: seq<Call>)
    ensures Creations(a + b) == Creations(a) + Creations(b)
    decreases |b|
  {
    if |b| == 0 {
      assert a + b == a;
    } else {
      assert (a + b)[..|a + b| - 1] == a + b[..|b| - 1];
      CreationsAppend(a, b[..|b| - 1]);
    }
  }

  /**
   * The servers `createServer` creates, in order: masters `1..masterCount`
   * named from `pattern`; all but the first get the install script as user
   * data.
   */
  function ServerOps(pattern: string, masterCount: int, p: InitParams): seq<Op> {
    var n := if masterCount < 0 then 0 else masterCount;
    seq(n, j requires 0 <= j < n =>
      CreateServer(ServerName(pattern, j + 1), if j > 0 then Some(CommonInstall(p)) else None))
  }

  lemma ServerOpsAt(pattern: string, masterCount: int, p: InitParams, i: nat)
    requires 1 <= i <= masterCount
    ensures |ServerOps(pattern, masterCount, p)| == masterCount
    ensures ServerOps(pattern, masterCount, p)[i - 1]
            == CreateServer(ServerName(pattern, i), if i > 1 then Some(CommonInstall(p)) else None)
  {
  }

  /** The creations of one call. */
  lemma CreationOf(x: Call)
    ensures Creations([x]) == if x.Provision? && x.op.CreateServer? && x.ok then [x.op] else []
  {
    assert [x][..0] == [];
  }

  /** `n` failed attaches of `server`, each followed by a sleep of `wait`. */
  function FailedAttaches(server: string, n: nat, wait: nat): (t: seq<Call>)
    ensures Creations(t) == []
  {
    if n == 0 then []
    else
      var t := FailedAttaches(server, n - 1, wait) + [Provision(AttachToBalancer(server), false), Call.Sleep(wait)];
      CreationsAppend(FailedAttaches(server, n - 1, wait), [Provision(AttachToBalancer(server), false), Call.Sleep(wait)]);
      assert Creations([Provision(AttachToBalancer(server), false), Call.Sleep(wait)]) == [] by {
        var u: seq<Call> := [Provision(AttachToBalancer(server), false), Call.Sleep(wait)];
        assert u[..1][..0] == [] && u[..1] == [u[0]];
        assert Creations(u[..1]) == [];
      }
      t
  }

  /** A successful attach creates no server. */
  lemma AttachCreatesNothing(t: seq<Call>, name: string)
    requires Creations(t) == []
    ensures Creations(t + [Provision(AttachToBalancer(name), true)]) == []
  {
    assert (t + [Provision(AttachToBalancer(name), true)])[..|t|] == t;
  }

  lemma Regroup<T>(x: seq<T>, y: seq<T>, z: seq<T>)
    ensures x + y + z == x + (y + z)
  {
  }

  lemma AppendNothing<T>(x: seq<T>)
    ensures x + [] == x
  {
  }

  lemma TakeOneMore<T>(s: seq<T>, k: nat)
    requires k < |s|
    ensures s[..k + 1] == s[..k] + [s[k]]
  {
  }

  /** The servers `t` attached to the balancer, in order: its successful attach calls. */
  function Attached(t: seq<Call>): seq<string>
    decreases |t|
  {
    if |t| == 0 then []
    else
      Attached(t[..|t| - 1])
      + (if t[|t| - 1].Provision? && t[|t| - 1].op.AttachToBalancer? && t[|t| - 1].ok then [t[|t| - 1].op.server] else [])
  }

  lemma {:induction false} AttachedAppend(a: seq<Call>, b: seq<Call>)
    ensures Attached(a + b) == Attached(a) + Attached(b)
    decreases |b|
  {
    if |b| == 0 {
      assert a + b == a;
    } else {
      assert (a + b)[..|a + b| - 1] == a + b[..|b| - 1];
      AttachedAppend(a, b[..|b| - 1]);
    }
  }

  /** The attaches of one call. */
  lemma AttachedOf(x: Call)
    ensures Attached([x]) == if x.Provision? && x.op.AttachToBalancer? && x.ok then [x.op.server] else []
  {
    assert [x][..0] == [];
  }

  /** Failed attaches attach nothing. */
  lemma {:induction false} FailedAttachesAttachNothing(server: string, n: nat, wait: nat)
    ensures Attached(FailedAttaches(server, n, wait)) == []
  {
    if n > 0 {
      var u: seq<Call> := [Provision(AttachToBalancer(server), false), Call.Sleep(wait)];
      FailedAttachesAttachNothing(server, n - 1, wait);
      AttachedAppend(FailedAttaches(server, n - 1, wait), u);
      AttachedAppend([u[0]], [u[1]]);
      assert [u[0]] + [u[1]] == u;
      AttachedOf(u[0]);
      AttachedOf(u[1]);
    }
  }

  /** The names of masters `1..n`, formatted from `pattern`. */
  function MasterNames(pattern: string, n: nat): seq<string> {
    seq(n, j requires 0 <= j < n => ServerName(pattern, j + 1))
  }

  lemma MasterNamesGrow(pattern: string, n: nat)
    requires n > 0
    ensures MasterNames(pattern, n) == MasterNames(pattern, n - 1) + [ServerName(pattern, n)]
  {
  }

  lemma ServerOpsGrow(pattern: string, n: nat, p: InitParams)
    requires n > 0
    ensures ServerOps(pattern, n, p)
            == ServerOps(pattern, n - 1, p) + [CreateServer(ServerName(pattern, n), if n > 1 then Some(CommonInstall(p)) else None)]
  {
  }

  // ---------------------------------------------------------------------
  // The single-pass DeleteCluster
  // ---------------------------------------------------------------------

  /**
   * One lookup of the legacy `DeleteCluster` and the deletions after it:
   * what the lookup found, whether it failed somewhere, and whether each
   * deletion succeeded.
   */
  datatype Sweep = Sweep(kind: Cloud.Kind, query: Cloud.Query, found: seq<Cloud.Resource>, complete: bool, oks: seq<bool>)

  /** What a sweep deletes: the resource a `Get` returned, or all that a `List` returned. */
  function Targets(s: Sweep): seq<Cloud.Resource> {
    if s.query.ByName? then (if |s.found| > 0 then [s.found[0]] else []) else s.found
  }

  /** A sweep that tried to delete each of its targets once. */
  predicate Complete(s: Sweep) {
    |s.oks| == |Targets(s)|
  }

  /** Deleting `rs` of `kind` one by one, the `j`th with outcome `oks[j]`, as far as both go. */
  function DeleteEvents(kind: Cloud.Kind, rs: seq<Cloud.Resource>, oks: seq<bool>): seq<Cloud.Event> {
    var n := if |oks| < |rs| then |oks| else |rs|;
    seq(n, j requires 0 <= j < n => Cloud.DeleteCall(kind, rs[j].id, oks[j]))
  }

  lemma DeleteEventsStep(kind: Cloud.Kind, rs: seq<Cloud.Resource>, oks: seq<bool>, i: nat, ok: bool)
    requires i < |rs| && |oks| == i
    ensures DeleteEvents(kind, rs[..i + 1], oks + [ok])
            == DeleteEvents(kind, rs[..i], oks) + [Cloud.DeleteCall(kind, rs[i].id, ok)]
  {
  }

  /** What is left of `xs` after deleting `rs` one by one, the `j`th succeeding when `oks[j]` holds. */
  function Survivors(xs: seq<Cloud.Resource>, rs: seq<Cloud.Resource>, oks: seq<bool>): seq<Cloud.Resource>
    requires |oks| == |rs|
    decreases |rs|
  {
    if |rs| == 0 then xs
    else
      var front := Survivors(xs, rs[..|rs| - 1], oks[..|oks| - 1]);
      if oks[|oks| - 1] then Cloud.Remove(front, rs[|rs| - 1].id) else front
  }

  lemma SurvivorsStep(xs: seq<Cloud.Resource>, rs: seq<Cloud.Resource>, oks: seq<bool>, i: nat, ok: bool)
    requires i < |rs| && |oks| == i
    ensures Survivors(xs, rs[..i + 1], oks + [ok])
            == if ok then Cloud.Remove(Survivors(xs, rs[..i], oks), rs[i].id) else Survivors(xs, rs[..i], oks)
  {
    assert rs[..i + 1][..i] == rs[..i];
    assert (oks + [ok])[..i] == oks;
  }

  /** A resource survives exactly when it was there and no successful deletion named its id. */
  lemma {:induction false} SurvivorsMembers(xs: seq<Cloud.Resource>, rs: seq<Cloud.Resource>, oks: seq<bool>)
    requires |oks| == |rs|
    ensures forall x :: x in Survivors(xs, rs, oks) <==>
      x in xs && forall j :: 0 <= j < |rs| && oks[j] ==> x.id != rs[j].id
    decreases |rs|
  {
    if |rs| > 0 {
      var front, okf := rs[..|rs| - 1], oks[..|oks| - 1];
      SurvivorsMembers(xs, front, okf);
      Cloud.RemoveMembers(Survivors(xs, front, okf), rs[|rs| - 1].id);
      assert forall j :: 0 <= j < |front| ==> front[j] == rs[j] && okf[j] == oks[j];
    }
  }

  /** The calls of one sweep: its lookup, then one deletion per target. */
  function SweepEvents(s: Sweep): seq<Cloud.Event> {
    [Cloud.LookupCall(s.kind, s.found, s.complete)] + DeleteEvents(s.kind, Targets(s), s.oks)
  }

  /** What the legacy `DeleteCluster` looks up, in order. */
  function LegacyQueries(cluster: string): seq<(Cloud.Kind, Cloud.Query)> {
    [ (Cloud.Network, Cloud.ByName(cluster)),
      (Cloud.SSHKey, Cloud.ByName(cluster)),
      (Cloud.LoadBalancer, Cloud.ByName(cluster)),
      (Cloud.Server, Cloud.BySelector("role=master")),
      (Cloud.Server, Cloud.BySelector("hcloud/node-group")) ]
  }

  /** A sweep whose lookup found nothing deletes nothing. */
  lemma EmptySweep(s: Sweep)
    requires s.found == []
    ensures SweepEvents(s) == [Cloud.LookupCall(s.kind, [], s.complete)]
  {
    assert DeleteEvents(s.kind, Targets(s), s.oks) == [];
  }

  /** The calls of `sweeps`, one after the other. */
  function Swept(sweeps: seq<Sweep>): seq<Cloud.Event>
    decreases |sweeps|
  {
    if |sweeps| == 0 then []
    else Swept(sweeps[..|sweeps| - 1]) + SweepEvents(sweeps[|sweeps| - 1])
  }

  lemma SweptStep(sweeps: seq<Sweep>, s: Sweep)
    ensures Swept(sweeps + [s]) == Swept(sweeps) + SweepEvents(s)
  {
    assert (sweeps + [s])[..|sweeps|] == sweeps;
  }

  /** The account after `sweeps`, each deleting what it deleted successfully from its kind. */
  function AfterSweeps(items0: map<Cloud.Kind, seq<Cloud.Resource>>, sweeps: seq<Sweep>): map<Cloud.Kind, seq<Cloud.Resource>>
    decreases |sweeps|
  {
    if |sweeps| == 0 then items0
    else
      var items := AfterSweeps(items0, sweeps[..|sweeps| - 1]);
      var s := sweeps[|sweeps| - 1];
      if s.kind in items && Complete(s) then items[s.kind := Survivors(items[s.kind], Targets(s), s.oks)] else items
  }

  lemma AfterSweepsStep(items0: map<Cloud.Kind, seq<Cloud.Resource>>, sweeps: seq<Sweep>, s: Sweep)
    ensures AfterSweeps(items0, sweeps + [s])
            == var items := AfterSweeps(items0, sweeps);
               if s.kind in items && Complete(s) then items[s.kind := Survivors(items[s.kind], Targets(s), s.oks)] else items
  {
    assert (sweeps + [s])[..|sweeps|] == sweeps;
  }

  /** Some sweep of `kind` deleted a target with this `id` successfully. */
  ghost predicate DeletedBy(sweeps: seq<Sweep>, kind: Cloud.Kind, id: nat) {
    exists j, m :: 0 <= j < |sweeps| && sweeps[j].kind == kind && Complete(sweeps[j])
      && 0 <= m < |sweeps[j].oks| && sweeps[j].oks[m] && Targets(sweeps[j])[m].id == id
  }

  /**
   * After the sweeps, a resource is in the account exactly when it was there
   * before and no successful deletion of its kind named its id.
   */
  lemma {:induction false} SweptItems(items0: map<Cloud.Kind, seq<Cloud.Resource>>, sweeps: seq<Sweep>,
                                      kind: Cloud.Kind, x: Cloud.Resource)
    requires kind in items0
    ensures kind in AfterSweeps(items0, sweeps)
    ensures x in AfterSweeps(items0, sweeps)[kind] <==> x in items0[kind] && !DeletedBy(sweeps, kind, x.id)
    decreases |sweeps|
  {
    if |sweeps| > 0 {
      var front, s := sweeps[..|sweeps| - 1], sweeps[|sweeps| - 1];
      SweptItems(items0, front, kind, x);
      assert sweeps == front + [s];
      AfterSweepsStep(items0, front, s);
      var items := AfterSweeps(items0, front);
      if s.kind == kind && Complete(s) {
        SurvivorsMembers(items[kind], Targets(s), s.oks);
      }
      DeletedByStep(front, s, kind, x.id);
    }
  }

  /** What one more sweep deletes adds to what the sweeps before it deleted. */
  lemma DeletedByStep(front: seq<Sweep>, s: Sweep, kind: Cloud.Kind, id: nat)
    ensures DeletedBy(front + [s], kind, id) <==>
      DeletedBy(front, kind, id)
      || (s.kind == kind && Complete(s) && exists m :: 0 <= m < |s.oks| && s.oks[m] && Targets(s)[m].id == id)
  {
    var sweeps := front + [s];
    if DeletedBy(sweeps, kind, id) {
      var j, m :| 0 <= j < |sweeps| && sweeps[j].kind == kind && Complete(sweeps[j])
        && 0 <= m < |sweeps[j].oks| && sweeps[j].oks[m] && Targets(sweeps[j])[m].id == id;
      if j < |front| {
        assert front[j] == sweeps[j];
      }
    }
    if DeletedBy(front, kind, id) {
      var j, m :| 0 <= j < |front| && front[j].kind == kind && Complete(front[j])
        && 0 <= m < |front[j].oks| && front[j].oks[m] && Targets(front[j])[m].id == id;
      assert sweeps[j] == front[j];
    }
    if s.kind == kind && Complete(s) && exists m :: 0 <= m < |s.oks| && s.oks[m] && Targets(s)[m].id == id {
      assert sweeps[|front|] == s;
    }
  }

  /** Every resource of `items` was already in `items0`: deleting only takes resources away. */
  ghost predicate Shrunk(items: map<Cloud.Kind, seq<Cloud.Resource>>, items0: map<Cloud.Kind, seq<Cloud.Resource>>) {
    forall k, x :: k in items && x in items[k] ==> k in items0 && x in items0[k]
  }

  /** Taking resources away twice only takes resources away. */
  lemma ShrunkTrans(items: map<Cloud.Kind, seq<Cloud.Resource>>, mid: map<Cloud.Kind, seq<Cloud.Resource>>,
                    items0: map<Cloud.Kind, seq<Cloud.Resource>>)
    requires Shrunk(items, mid) && Shrunk(mid, items0)
    ensures Shrunk(items, items0)
  {
  }

  /** A deletion by id only takes resources away. */
  lemma ShrunkByDelete(items: map<Cloud.Kind, seq<Cloud.Resource>>, items0: map<Cloud.Kind, seq<Cloud.Resource>>,
                       kind: Cloud.Kind, id: nat)
    requires Shrunk(items, items0) && kind in items
    ensures Shrunk(items[kind := Cloud.Remove(items[kind], id)], items0)
  {
    Cloud.RemoveMembers(items[kind], id);
  }

  /**
   * `s` is a whole sweep for the lookup `kq` on the account `items0`: it tried
   * each target once, and found only resources of that kind that answer the
   * query.
   */
  ghost predicate SweepOf(s: Sweep, kq: (Cloud.Kind, Cloud.Query), items0: map<Cloud.Kind, seq<Cloud.Resource>>) {
    && s.kind == kq.0 && s.query == kq.1 && Complete(s)
    && forall x :: x in s.found ==> s.kind in items0 && x in items0[s.kind] && Cloud.Matches(x, s.query)
  }

  /** A sweep of an account is also one of any account that held at least as much. */
  lemma SweepOfEarlier(s: Sweep, kq: (Cloud.Kind, Cloud.Query), items: map<Cloud.Kind, seq<Cloud.Resource>>,
                       items0: map<Cloud.Kind, seq<Cloud.Resource>>)
    requires SweepOf(s, kq, items) && Shrunk(items, items0)
    ensures SweepOf(s, kq, items0)
  {
  }

  /** One more sweep of the next lookup keeps every sweep the one of its lookup. */
  lemma SweepsGrow(sweeps: seq<Sweep>, s: Sweep, qs: seq<(Cloud.Kind, Cloud.Query)>,
                   items0: map<Cloud.Kind, seq<Cloud.Resource>>)
    requires |sweeps| < |qs| && SweepOf(s, qs[|sweeps|], items0)
    requires forall j :: 0 <= j < |sweeps| ==> SweepOf(sweeps[j], qs[j], items0)
    ensures forall j :: 0 <= j < |sweeps| + 1 ==> SweepOf((sweeps + [s])[j], qs[j], items0)
  {
    forall j | 0 <= j < |sweeps| + 1
      ensures SweepOf((sweeps + [s])[j], qs[j], items0)
    {
      if j < |sweeps| {
        assert (sweeps + [s])[j] == sweeps[j];
      }
    }
  }

  class ApplicationAPI {
    const config: Settings
    /** `getDeploymentValues`: the configuration as YAML, base64-encoded. */
    const deploymentValues: string
    const remote: Remote
    var masterClusterJoin: string
    var clusterKubeConfig: string

    /** `NewApplicationAPI`, without the location and datacenter validation. */
    constructor (config: Settings, deploymentValues: string, remote: Remote)
      ensures this.config == config && this.deploymentValues == deploymentValues && this.remote == remote
      ensures masterClusterJoin == "" && clusterKubeConfig == ""
    {
      this.config := config;
      this.deploymentValues := deploymentValues;
      this.remote := remote;
      masterClusterJoin := "";
      clusterKubeConfig := "";
    }

    function Wait(): nat {
      config.masterServers.waitTimeInRetry
    }

    function Limit(): int {
      config.masterServers.retryTimeLimit
    }

    function Params(): InitParams {
      config.masterServers.initParams
    }

    function FirstMaster(): string {
      ServerName(config.masterServers.namePattern, 1)
    }

    /** `execCommand`: the command, verbatim, as root on `ip`. */
    method ExecCommand(ip: string, command: Script) returns (result: ExecReply)
      modifies remote
      ensures remote.trace == old(remote.trace) + [Call.Exec(ip, Root, command, result)]
    {
      result := remote.Exec(ip, Root, command);
    }

    /** `waitForServer`: look the server up, then check that `date` runs on its address. */
    method WaitForServer(name: string) returns (r: Result<string, ApiError>, ghost answer: Reply, ghost date: ExecReply)
      modifies remote
      ensures remote.trace == old(remote.trace) + WaitEvents(name, answer, date)
      ensures r == ServerWaited(answer, date.ok)
    {
      var got := remote.GetServer(name);
      answer, date := got, ExecReply(false, "");
      match got
      case GetFailed =>
        r := Err(Failed("error in server get"));
      case Missing =>
        r := Ok("");
      case Found(Unmarshalable) =>
        r := Err(Failed("masterServer ip get"));
      case Found(IP(ip)) =>
        var probe := ExecCommand(ip, DateProbe);
        date := probe;
        r := if probe.ok then Ok(ip) else Err(Failed("error executing command"));
    }

    /** `waitForLoadBalancer`: look the balancer up and take its address. */
    method WaitForLoadBalancer(name: string) returns (r: Result<string, ApiError>, ghost answer: Reply)
      modifies remote
      ensures remote.trace == old(remote.trace) + [LoadBalancerGet(name, answer)]
      ensures r == BalancerWaited(answer)
    {
      var got := remote.GetLoadBalancer(name);
      answer := got;
      match got
      case GetFailed =>
        r := Err(Failed("error in loadBalancer get"));
      case Missing =>
        r := Ok("");
      case Found(Unmarshalable) =>
        r := Err(Failed("loadBalancer IP get"));
      case Found(IP(ip)) =>
        r := Ok(ip);
    }

    /**
     * `joinToMasterNodes`: until the limit, wait for the server and run the
     * join command on it; a failure of either is retried after a sleep.
     */
    method JoinToMasterNodes(server: string) returns (err: Option<ApiError>, ghost attempts: seq<seq<Call>>)
      modifies remote
      ensures remote.trace == old(remote.trace) + Paced(attempts, Wait())
      ensures |attempts| <= Tries(Limit())
      ensures Attempts(server, [JoinMaster(masterClusterJoin)], 1, attempts, if err.None? then Finish(None) else Retry)
      ensures err.None? || (err == Some(RetryLimitReached) && |attempts| == Tries(Limit()))
      ensures err.None? ==> |attempts| > 0
    {
      var join := JoinMaster(masterClusterJoin);
      ghost var t0 := remote.trace;
      attempts := [];
      var retryCount := 0;
      while retryCount <= Limit()
        invariant 0 <= retryCount == |attempts| <= Tries(Limit())
        invariant remote.trace == t0 + Paced(attempts, Wait())
        invariant Attempts(server, [join], 1, attempts, Retry)
        decreases Limit() - retryCount
      {
        if retryCount > 0 {
          remote.Sleep(Wait());
        }
        retryCount := retryCount + 1;
        ghost var pre := remote.trace;
        var res, answer, date := WaitForServer(server);
        ghost var w := WaitEvents(server, answer, date);
        ghost var a := w;
        var joined := false;
        if res.Ok? {
          var out := ExecCommand(res.value, join);
          ghost var run := [Call.Exec(res.value, Root, join, out)];
          RanOne(res.value, join, out);
          WaitSucceeded(server, [join], 1, answer, date, run);
          Regroup(pre, w, run);
          a := w + run;
          joined := out.ok;
        } else {
          WaitFailed(server, [join], 1, answer, date);
        }
        AttemptsStep(server, [join], 1, attempts, a, if joined then Finish(None) else Retry);
        PacedStep(t0, attempts, Wait(), a, remote.trace);
        attempts := attempts + [a];
        if joined {
          return None, attempts;
        }
      }
      return Some(RetryLimitReached), attempts;
    }
    /**
     * The part of a `postInstall` attempt after the wait: the commands, in
     * order, on `ip`, stopping at the first that fails.
     */
    method RunPostCommands(ip: string, copy: bool) returns (failed: Option<ApiError>, ghost run: seq<Call>)
      modifies remote
      ensures remote.trace == old(remote.trace) + run
      ensures Ran(ip, PostCommands(copy, Params(), deploymentValues, config.masterCount), run)
      ensures Settle(run, 0) == Finish(failed)
    {
      ghost var cmds := PostCommands(copy, Params(), deploymentValues, config.masterCount);
      ghost var mark := remote.trace;
      run := [];
      AppendNothing(mark);
      failed := None;
      if copy {
        var command := CommonExec(Params());
        var out := ExecCommand(ip, command);
        ExecNext(ip, cmds, run, out, 0);
        Regroup(mark, run, [Call.Exec(ip, Root, command, out)]);
        run := run + [Call.Exec(ip, Root, command, out)];
        if !out.ok {
          failed := Some(Fatal(command));
        }
      }
      if failed.None? {
        var command := PostInstallRun(deploymentValues);
        assert cmds[|run|] == command;
        var out := ExecCommand(ip, command);
        ExecNext(ip, cmds, run, out, 0);
        Regroup(mark, run, [Call.Exec(ip, Root, command, out)]);
        run := run + [Call.Exec(ip, Root, command, out)];
        if !out.ok {
          failed := Some(Fatal(command));
        }
      }
      if failed.None? && config.masterCount == 1 {
        var command := OneMasterMode;
        assert cmds[|run|] == command;
        var out := ExecCommand(ip, command);
        ExecNext(ip, cmds, run, out, 0);
        Regroup(mark, run, [Call.Exec(ip, Root, command, out)]);
        run := run + [Call.Exec(ip, Root, command, out)];
        if !out.ok {
          failed := Some(Fatal(command));
        }
      }
      if failed.None? {
        RanAll(ip, cmds, run, 0);
      }
    }

    /** One try of `postInstall`'s loop: wait for the first master, then run the commands on it. */
    method TryPostInstall(serverName: string, copy: bool) returns (outcome: Attempted, ghost a: seq<Call>)
      modifies remote
      ensures remote.trace == old(remote.trace) + a
      ensures WaitThenRun(serverName, PostCommands(copy, Params(), deploymentValues, config.masterCount), 0, a, outcome)
    {
      var res, answer, date := WaitForServer(serverName);
      ghost var w := WaitEvents(serverName, answer, date);
      ghost var cmds := PostCommands(copy, Params(), deploymentValues, config.masterCount);
      if res.Err? {
        WaitFailed(serverName, cmds, 0, answer, date);
        return Retry, w;
      }
      var failed, run := RunPostCommands(res.value, copy);
      WaitSucceeded(serverName, cmds, 0, answer, date, run);
      Regroup(old(remote.trace), w, run);
      return Finish(failed), w + run;
    }

    /**
     * `postInstall`: until the limit, wait for the first master, then run the
     * post-install commands on it; a failed wait is retried after a sleep, a
     * failed command is fatal.
     */
    method PostInstall(copy: bool) returns (err: Option<ApiError>, ghost attempts: seq<seq<Call>>)
      modifies remote
      ensures remote.trace == old(remote.trace) + Paced(attempts, Wait())
      ensures |attempts| <= Tries(Limit())
      ensures Attempts(FirstMaster(), PostCommands(copy, Params(), deploymentValues, config.masterCount), 0, attempts,
                       if err == Some(RetryLimitReached) then Retry else Finish(err))
      ensures err == Some(RetryLimitReached) ==> |attempts| == Tries(Limit())
      ensures err != Some(RetryLimitReached) ==> |attempts| > 0
    {
      var serverName := ServerName(config.masterServers.namePattern, 1);
      ghost var cmds := PostCommands(copy, Params(), deploymentValues, config.masterCount);
      ghost var t0 := remote.trace;
      attempts := [];
      var retryCount := 0;
      while retryCount <= Limit()
        invariant 0 <= retryCount == |attempts| <= Tries(Limit())
        invariant remote.trace == t0 + Paced(attempts, Wait())
        invariant Attempts(serverName, cmds, 0, attempts, Retry)
        decreases Limit() - retryCount
      {
        if retryCount > 0 {
          remote.Sleep(Wait());
        }
        retryCount := retryCount + 1;
        var outcome, a := TryPostInstall(serverName, copy);
        AttemptsStep(serverName, cmds, 0, attempts, a, outcome);
        PacedStep(t0, attempts, Wait(), a, remote.trace);
        attempts := attempts + [a];
        if outcome.Finish? {
          return outcome.err, attempts;
        }
      }
      return Some(RetryLimitReached), attempts;
    }

    /**
     * The part of an `initFirstMasterNode` attempt after the waits: run the
     * init script on `ip` with `balancer` as `MASTER_LB`, then read the join
     * command and the kubeconfig, keeping each as it arrives.
     */
    method RunInitCommands(ip: string, balancer: string) returns (outcome: Attempted, ghost run: seq<Call>)
      modifies this, remote
      ensures remote.trace == old(remote.trace) + run
      ensures Ran(ip, InitCommands(Params(), config.hetznerToken, balancer), run)
      ensures outcome == Settle(run, 1)
      ensures masterClusterJoin == if |run| >= 2 && run[1].result.ok then run[1].result.stdout else old(masterClusterJoin)
      ensures clusterKubeConfig == if |run| == 3 && run[2].result.ok then run[2].result.stdout else old(clusterKubeConfig)
      ensures outcome == Retry ==> masterClusterJoin == old(masterClusterJoin) && clusterKubeConfig == old(clusterKubeConfig)
      ensures outcome == Finish(None) ==>
        && |run| == 3
        && run[1].command == ReadJoinCommand && run[1].result == ExecReply(true, masterClusterJoin)
        && run[2].command == ReadAdminConf && run[2].result == ExecReply(true, clusterKubeConfig)
    {
      ghost var cmds := InitCommands(Params(), config.hetznerToken, balancer);
      ghost var mark := remote.trace;
      run := [];
      AppendNothing(mark);
      var out := ExecCommand(ip, InitMaster(Params(), config.hetznerToken, balancer));
      ExecNext(ip, cmds, run, out, 1);
      Regroup(mark, run, [Call.Exec(ip, Root, cmds[0], out)]);
      run := run + [Call.Exec(ip, Root, cmds[0], out)];
      if !out.ok {
        return Retry, run;
      }
      out := ExecCommand(ip, ReadJoinCommand);
      ExecNext(ip, cmds, run, out, 1);
      Regroup(mark, run, [Call.Exec(ip, Root, cmds[1], out)]);
      run := run + [Call.Exec(ip, Root, cmds[1], out)];
      if !out.ok {
        return Finish(Some(Fatal(ReadJoinCommand))), run;
      }
      masterClusterJoin := out.stdout;
      out := ExecCommand(ip, ReadAdminConf);
      ExecNext(ip, cmds, run, out, 1);
      Regroup(mark, run, [Call.Exec(ip, Root, cmds[2], out)]);
      run := run + [Call.Exec(ip, Root, cmds[2], out)];
      if !out.ok {
        return Finish(Some(Fatal(ReadAdminConf))), run;
      }
      clusterKubeConfig := out.stdout;
      RanAll(ip, cmds, run, 1);
      return Finish(None), run;
    }

    /**
     * The waits of an `initFirstMasterNode` attempt: the first master's
     * address, and the balancer's with several masters (else the master's
     * own), or the error that makes the attempt retry.
     */
    method WaitForInit(serverName: string) returns (r: Result<(string, string), ApiError>,
                                                   ghost answer: Reply, ghost date: ExecReply, ghost lb: Reply)
      modifies remote
      ensures remote.trace == old(remote.trace) + InitEvents(serverName, config.clusterName, config.masterCount, answer, date, lb)
      ensures var res := ServerWaited(answer, date.ok);
        var addr := if config.masterCount > 1 then BalancerWaited(lb) else res;
        && (r.Err? <==> res.Err? || addr.Err?)
        && (r.Ok? ==> r.value == (res.value, addr.value))
    {
      var res;
      res, answer, date := WaitForServer(serverName);
      lb := Missing;
      if res.Err? {
        AppendNothing(WaitEvents(serverName, answer, date));
        return Err(res.error), answer, date, lb;
      }
      if config.masterCount > 1 {
        var found;
        found, lb := WaitForLoadBalancer(config.clusterName);
        if found.Err? {
          return Err(found.error), answer, date, lb;
        }
        return Ok((res.value, found.value)), answer, date, lb;
      }
      AppendNothing(WaitEvents(serverName, answer, date));
      return Ok((res.value, res.value)), answer, date, lb;
    }

    /**
     * One try of `initFirstMasterNode`'s loop: wait for the first master and,
     * with several masters, for the balancer; then run the commands.
     */
    method TryInitFirstMasterNode(serverName: string) returns (outcome: Attempted, ghost a: seq<Call>)
      modifies this, remote
      ensures remote.trace == old(remote.trace) + a
      ensures InitAttempt(serverName, config.clusterName, config.masterCount, Params(), config.hetznerToken, a, outcome)
      ensures outcome == Retry ==> masterClusterJoin == old(masterClusterJoin) && clusterKubeConfig == old(clusterKubeConfig)
      ensures outcome == Finish(None) ==> KeysRead(a, masterClusterJoin, clusterKubeConfig)
      ensures outcome != Finish(Some(RetryLimitReached))
    {
      var addrs, answer, date, lb := WaitForInit(serverName);
      ghost var w := InitEvents(serverName, config.clusterName, config.masterCount, answer, date, lb);
      if addrs.Err? {
        InitWaitFailed(serverName, config.clusterName, config.masterCount, Params(), config.hetznerToken, answer, date, lb, w);
        return Retry, w;
      }
      ghost var run;
      outcome, run := RunInitCommands(addrs.value.0, addrs.value.1);
      Regroup(old(remote.trace), w, run);
      a := w + run;
      InitWaitSucceeded(serverName, config.clusterName, config.masterCount, Params(), config.hetznerToken,
                        answer, date, lb, run, a);
      if outcome == Finish(None) {
        assert a[|a| - 2] == run[1] && a[|a| - 1] == run[2];
      }
    }

    /**
     * One turn of `initFirstMasterNode`'s loop: the pause after a failed
     * attempt, then the next attempt, which extends the attempts so far.
     */
    method InitRound(serverName: string, pause: bool, ghost t0: seq<Call>, ghost attempts: seq<seq<Call>>)
      returns (outcome: Attempted, ghost a: seq<Call>)
      requires pause <==> |attempts| > 0
      requires remote.trace == t0 + Paced(attempts, Wait())
      requires InitAttempts(serverName, config.clusterName, config.masterCount, Params(), config.hetznerToken, attempts, Retry)
      modifies this, remote
      ensures remote.trace == t0 + Paced(attempts + [a], Wait())
      ensures InitAttempts(serverName, config.clusterName, config.masterCount, Params(), config.hetznerToken, attempts + [a], outcome)
      ensures outcome == Retry ==> masterClusterJoin == old(masterClusterJoin) && clusterKubeConfig == old(clusterKubeConfig)
      ensures outcome == Finish(None) ==> KeysRead(a, masterClusterJoin, clusterKubeConfig)
      ensures outcome != Finish(Some(RetryLimitReached))
    {
      if pause {
        remote.Sleep(Wait());
      }
      ghost var mid := remote.trace;
      assert mid == if |attempts| > 0 then t0 + Paced(attempts, Wait()) + [Call.Sleep(Wait())] else t0 + Paced(attempts, Wait());
      outcome, a := TryInitFirstMasterNode(serverName);
      assert remote.trace == mid + a;
      InitAttemptsStep(serverName, config.clusterName, config.masterCount, Params(), config.hetznerToken, attempts, a, outcome);
      PacedStep(t0, attempts, Wait(), a, remote.trace);
    }

    /**
     * `initFirstMasterNode`: until the limit, wait for the first master and,
     * with several masters, for the balancer; run the init script, retried on
     * failure; then keep the join command and the kubeconfig it produced.
     */
    method InitFirstMasterNode() returns (err: Option<ApiError>, ghost attempts: seq<seq<Call>>)
      modifies this, remote
      ensures remote.trace == old(remote.trace) + Paced(attempts, Wait())
      ensures |attempts| <= Tries(Limit())
      ensures InitAttempts(FirstMaster(), config.clusterName, config.masterCount, Params(), config.hetznerToken, attempts,
                           if err == Some(RetryLimitReached) then Retry else Finish(err))
      ensures err == Some(RetryLimitReached) ==> |attempts| == Tries(Limit())
      ensures err == Some(RetryLimitReached) ==>
        masterClusterJoin == old(masterClusterJoin) && clusterKubeConfig == old(clusterKubeConfig)
      ensures err != Some(RetryLimitReached) ==> |attempts| > 0
      ensures err.None? ==> KeysRead(attempts[|attempts| - 1], masterClusterJoin, clusterKubeConfig)
    {
      var serverName := ServerName(config.masterServers.namePattern, 1);
      ghost var t0 := remote.trace;
      attempts := [];
      var retryCount := 0;
      while retryCount <= Limit()
        invariant 0 <= retryCount == |attempts| <= Tries(Limit())
        invariant remote.trace == t0 + Paced(attempts, Wait())
        invariant InitAttempts(serverName, config.clusterName, config.masterCount, Params(), config.hetznerToken, attempts, Retry)
        invariant masterClusterJoin == old(masterClusterJoin) && clusterKubeConfig == old(clusterKubeConfig)
        decreases Limit() - retryCount
      {
        var outcome, a := InitRound(serverName, retryCount > 0, t0, attempts);
        retryCount := retryCount + 1;
        attempts := attempts + [a];
        if outcome.Finish? {
          assert attempts[|attempts| - 1] == a && outcome == Finish(outcome.err);
          return outcome.err, attempts;
        }
      }
      return Some(RetryLimitReached), attempts;
    }

    function Servers(): seq<Op> {
      ServerOps(config.masterServers.namePattern, config.masterCount, Params())
    }

    /**
     * The attach loop of `createServer` for one new server. Its counter is
     * never incremented, so the limit only matters when it is negative, and
     * with several masters a failing attach is retried after a sleep for as
     * long as it fails; the model gives up after `fuel` failures.
     */
    method AttachLoop(name: string, fuel: nat) returns (err: Option<ApiError>, ghost added: seq<Call>, failures: nat)
      modifies remote
      ensures remote.trace == old(remote.trace) + added
      ensures Creations(added) == []
      ensures Limit() < 0 ==> err == Some(RetryLimitReached) && added == []
      ensures Limit() >= 0 && config.masterCount <= 1 ==> err.None? && added == []
      ensures Limit() >= 0 && config.masterCount > 1 ==>
        && added == FailedAttaches(name, failures, Wait())
                    + (if err.None? then [Provision(AttachToBalancer(name), true)] else [])
        && (err.None? || (err == Some(OutOfFuel) && failures == fuel))
    {
      ghost var t0 := remote.trace;
      AppendNothing(t0);
      var retryCount := 0;
      failures := 0;
      while true
        invariant failures <= fuel
        invariant remote.trace == t0 + FailedAttaches(name, failures, Wait())
        invariant failures > 0 ==> Limit() >= 0 && config.masterCount > 1
        decreases fuel - failures
      {
        if retryCount > Limit() {
          return Some(RetryLimitReached), [], failures;
        }
        if config.masterCount <= 1 {
          return None, [], failures;
        }
        if failures == fuel {
          return Some(OutOfFuel), FailedAttaches(name, failures, Wait()), failures;
        }
        var ok := remote.Provision(AttachToBalancer(name));
        if ok {
          Regroup(t0, FailedAttaches(name, failures, Wait()), [Provision(AttachToBalancer(name), true)]);
          AttachCreatesNothing(FailedAttaches(name, failures, Wait()), name);
          return None, FailedAttaches(name, failures, Wait()) + [Provision(AttachToBalancer(name), true)], failures;
        }
        remote.Sleep(Wait());
        Regroup(t0, FailedAttaches(name, failures, Wait()), [Provision(AttachToBalancer(name), false), Call.Sleep(Wait())]);
        assert FailedAttaches(name, failures + 1, Wait())
            == FailedAttaches(name, failures, Wait()) + [Provision(AttachToBalancer(name), false), Call.Sleep(Wait())];
        failures := failures + 1;
      }
    }

    /**
     * The calls `createServer` makes for master `i` when all goes well: its
     * creation and, with several masters, `failures` failed attaches, each
     * followed by a sleep, and then the attach that succeeds.
     */
    function MasterRun(i: nat, failures: nat): seq<Call> {
      var name := ServerName(config.masterServers.namePattern, i);
      [Provision(CreateServer(name, if i > 1 then Some(CommonInstall(Params())) else None), true)]
      + (if config.masterCount > 1
         then FailedAttaches(name, failures, Wait()) + [Provision(AttachToBalancer(name), true)]
         else [])
    }

    /** The runs of masters `1..|fails|` in turn, master `j + 1` with `fails[j]` failed attaches. */
    function MasterRuns(fails: seq<nat>): seq<Call>
      decreases |fails|
    {
      if |fails| == 0 then [] else MasterRuns(fails[..|fails| - 1]) + MasterRun(|fails|, fails[|fails| - 1])
    }

    /** Master `i`'s run creates that master and, with several masters, attaches it once. */
    lemma MasterRunEffect(i: nat, failures: nat)
      ensures Creations(MasterRun(i, failures))
              == [CreateServer(ServerName(config.masterServers.namePattern, i), if i > 1 then Some(CommonInstall(Params())) else None)]
      ensures Attached(MasterRun(i, failures))
              == if config.masterCount > 1 then [ServerName(config.masterServers.namePattern, i)] else []
    {
      var name := ServerName(config.masterServers.namePattern, i);
      var c := Provision(CreateServer(name, if i > 1 then Some(CommonInstall(Params())) else None), true);
      var tail: seq<Call> := if config.masterCount > 1
        then FailedAttaches(name, failures, Wait()) + [Provision(AttachToBalancer(name), true)]
        else [];
      assert MasterRun(i, failures) == [c] + tail;
      CreationsAppend([c], tail);
      AttachedAppend([c], tail);
      CreationOf(c);
      AttachedOf(c);
      if config.masterCount > 1 {
        FailedAttachesAttachNothing(name, failures, Wait());
        AttachedAppend(FailedAttaches(name, failures, Wait()), [Provision(AttachToBalancer(name), true)]);
        AttachedOf(Provision(AttachToBalancer(name), true));
        AttachCreatesNothing(FailedAttaches(name, failures, Wait()), name);
      } else {
        assert Creations(tail) == [] && Attached(tail) == [];
      }
    }

    /** Masters that ran to the end were created in order: masters `1..|fails|`. */
    lemma {:induction false} MasterRunsCreate(fails: seq<nat>)
      ensures Creations(MasterRuns(fails)) == ServerOps(config.masterServers.namePattern, |fails|, Params())
      decreases |fails|
    {
      if |fails| > 0 {
        var n := |fails|;
        var done, last := MasterRuns(fails[..n - 1]), MasterRun(n, fails[n - 1]);
        assert MasterRuns(fails) == done + last;
        MasterRunsCreate(fails[..n - 1]);
        MasterRunEffect(n, fails[n - 1]);
        CreationsAppend(done, last);
        ServerOpsGrow(config.masterServers.namePattern, n, Params());
      }
    }

    /**
     * With several masters, the masters that ran to the end were attached
     * to the balancer in order, each in its own run after its creation;
     * with one master nothing is attached.
     */
    lemma {:induction false} MasterRunsAttach(fails: seq<nat>)
      ensures Attached(MasterRuns(fails))
              == if config.masterCount > 1 then MasterNames(config.masterServers.namePattern, |fails|) else []
      decreases |fails|
    {
      if |fails| > 0 {
        var n := |fails|;
        var done, last := MasterRuns(fails[..n - 1]), MasterRun(n, fails[n - 1]);
        assert MasterRuns(fails) == done + last;
        MasterRunsAttach(fails[..n - 1]);
        MasterRunEffect(n, fails[n - 1]);
        AttachedAppend(done, last);
        if config.masterCount > 1 {
          MasterNamesGrow(config.masterServers.namePattern, n);
        }
      }
    }

    /**
     * One pass of `createServer`'s loop: create master `i`, then run its
     * attach loop; `made` tells whether the server was created, and
     * `failures` counts the failed attaches.
     */
    method CreateMaster(i: nat, fuel: nat) returns (err: Option<ApiError>, ghost added: seq<Call>, ghost made: bool,
                                                    ghost failures: nat)
      requires 1 <= i <= config.masterCount
      modifies remote
      ensures remote.trace == old(remote.trace) + added
      ensures Creations(added) == if made then [Servers()[i - 1]] else []
      ensures !made ==> added == [Provision(Servers()[i - 1], false)] && err == Some(ProviderError(Servers()[i - 1]))
      ensures made && Limit() < 0 ==> added == [Provision(Servers()[i - 1], true)] && err == Some(RetryLimitReached)
      ensures made && Limit() >= 0 && config.masterCount <= 1 ==> added == [Provision(Servers()[i - 1], true)] && err.None?
      ensures made && Limit() >= 0 && config.masterCount > 1 ==>
        && added == [Provision(Servers()[i - 1], true)]
                    + FailedAttaches(ServerName(config.masterServers.namePattern, i), failures, Wait())
                    + (if err.None? then [Provision(AttachToBalancer(ServerName(config.masterServers.namePattern, i)), true)]
                       else [])
        && (err.None? || (err == Some(OutOfFuel) && failures == fuel))
      ensures err.None? ==> made && added == MasterRun(i, failures)
      ensures err == Some(RetryLimitReached) ==> Limit() < 0 && made
      ensures Limit() < 0 ==> err.Some?
    {
      var name := ServerName(config.masterServers.namePattern, i);
      var userData := if i > 1 then Some(CommonInstall(Params())) else None;
      ServerOpsAt(config.masterServers.namePattern, config.masterCount, Params(), i);
      var ok := remote.Provision(CreateServer(name, userData));
      CreationOf(Provision(CreateServer(name, userData), ok));
      failures := 0;
      if !ok {
        return Some(ProviderError(CreateServer(name, userData))), [Provision(CreateServer(name, userData), ok)], false, failures;
      }
      ghost var attach;
      err, attach, failures := AttachLoop(name, fuel);
      CreationsAppend([Provision(CreateServer(name, userData), ok)], attach);
      AppendNothing([Servers()[i - 1]]);
      AppendNothing([Provision(CreateServer(name, userData), ok)]);
      Regroup(old(remote.trace), [Provision(CreateServer(name, userData), ok)], attach);
      if config.masterCount > 1 && Limit() >= 0 {
        Regroup([Provision(CreateServer(name, userData), ok)], FailedAttaches(name, failures, Wait()),
                if err.None? then [Provision(AttachToBalancer(name), true)] else []);
      }
      return err, [Provision(CreateServer(name, userData), ok)] + attach, true, failures;
    }

    /**
     * `createServer`: look up what the servers need, then create the masters
     * one by one, each followed by its attach loop; the first failure ends it.
     * The masters that ran to the end are `fails`' runs, after the lookup.
     */
    method CreateServers(fuel: nat) returns (err: Option<ApiError>, ghost added: seq<Call>, ghost created: nat,
                                             ghost fails: seq<nat>)
      modifies remote
      ensures remote.trace == old(remote.trace) + added
      ensures 0 < |added| && added[0].Provision? && added[0].op == PrepareServers
      ensures !added[0].ok ==> added == [added[0]] && err == Some(ProviderError(PrepareServers))
      ensures created <= |Servers()| && Creations(added) == Servers()[..created]
      ensures added[0].ok ==> [Provision(PrepareServers, true)] + MasterRuns(fails) <= added
      ensures err.None? ==> created == |Servers()| == |fails| && added == [Provision(PrepareServers, true)] + MasterRuns(fails)
      ensures err.None? ==>
        Attached(added) == if config.masterCount > 1 then MasterNames(config.masterServers.namePattern, config.masterCount) else []
      ensures err == Some(RetryLimitReached) ==> Limit() < 0 && created == 1
      ensures Limit() < 0 && |Servers()| > 0 ==> err.Some?
    {
      ghost var t0 := remote.trace;
      var ok := remote.Provision(PrepareServers);
      added := [Provision(PrepareServers, ok)];
      created := 0;
      fails := [];
      err := None;
      CreationOf(Provision(PrepareServers, ok));
      if !ok {
        return Some(ProviderError(PrepareServers)), added, created, fails;
      }
      AppendNothing(added);
      var i := 1;
      while i <= config.masterCount
        invariant 1 <= i && created == i - 1 == |fails| <= |Servers()|
        invariant remote.trace == t0 + added
        invariant added == [Provision(PrepareServers, true)] + MasterRuns(fails)
        invariant Creations(added) == Servers()[..created]
        invariant i > 1 ==> Limit() >= 0
        invariant err.None?
        decreases config.masterCount - i
      {
        ghost var more, made, f;
        err, more, made, f := CreateMaster(i, fuel);
        CreationsAppend(added, more);
        Regroup(t0, added, more);
        if made {
          TakeOneMore(Servers(), created);
          created := created + 1;
        } else {
          AppendNothing(Servers()[..created]);
        }
        if err.Some? {
          return err, added + more, created, fails;
        }
        assert (fails + [f])[..|fails|] == fails;
        Regroup([Provision(PrepareServers, true)], MasterRuns(fails), more);
        added := added + more;
        fails := fails + [f];
        i := i + 1;
      }
      MasterRunsAttach(fails);
      AttachedAppend([Provision(PrepareServers, true)], MasterRuns(fails));
      AttachedOf(Provision(PrepareServers, true));
    }

    function ClusterPlan(): seq<Step> {
      Plan(config.masterServers.namePattern, config.masterCount)
    }

    /** `calls` are the lookup that succeeded and then a run to the end of every master. */
    ghost predicate RanAllMasters(calls: seq<Call>) {
      exists fails :: |fails| == |Servers()| && calls == [Provision(PrepareServers, true)] + MasterRuns(fails)
    }

    /**
     * `r` is a run of its stage, where `join` is the join command and `kube`
     * the kubeconfig the first master's initialisation read: the calls it
     * made, and how they decide its error.
     */
    ghost predicate StageRan(r: StageRun, join: string, kube: string) {
      match r.step
      case NetworkStep => Provided(r, CreateNetwork)
      case SSHKeyStep => Provided(r, CreateSSHKey)
      case BalancerStep => Provided(r, CreateLoadBalancer)
      case ServersStep =>
        && 0 < |r.calls| && r.calls[0].Provision? && r.calls[0].op == PrepareServers && r.tries == []
        && (!r.calls[0].ok ==> r.calls == [r.calls[0]] && r.err == Some(ProviderError(PrepareServers)))
        && Creations(r.calls) <= Servers()
        && (r.err.None? ==> Creations(r.calls) == Servers())
        && (r.err.None? ==> RanAllMasters(r.calls))
        && (r.err == Some(RetryLimitReached) ==> Limit() < 0 && |Creations(r.calls)| == 1)
        && (Limit() < 0 && |Servers()| > 0 ==> r.err.Some?)
      case InitMasterStep =>
        && r.calls == Paced(r.tries, Wait()) && |r.tries| <= Tries(Limit())
        && InitAttempts(FirstMaster(), config.clusterName, config.masterCount, Params(), config.hetznerToken, r.tries,
                        if r.err == Some(RetryLimitReached) then Retry else Finish(r.err))
        && (r.err == Some(RetryLimitReached) ==> |r.tries| == Tries(Limit()))
        && (r.err.None? ==> 0 < |r.tries| && KeysRead(r.tries[|r.tries| - 1], join, kube))
      case SaveKubeconfigStep => Provided(r, SaveKubeconfig(config.kubeConfigPath, kube))
      case JoinStep(server) =>
        && r.calls == Paced(r.tries, Wait()) && |r.tries| <= Tries(Limit())
        && Attempts(server, [JoinMaster(join)], 1, r.tries, if r.err.None? then Finish(None) else Retry)
        && (r.err.None? || (r.err == Some(RetryLimitReached) && |r.tries| == Tries(Limit())))
      case PostInstallStep =>
        && r.calls == Paced(r.tries, Wait()) && |r.tries| <= Tries(Limit())
        && Attempts(FirstMaster(), PostCommands(false, Params(), deploymentValues, config.masterCount), 0, r.tries,
                    if r.err == Some(RetryLimitReached) then Retry else Finish(r.err))
        && (r.err == Some(RetryLimitReached) ==> |r.tries| == Tries(Limit()))
    }

    /** Each of `runs` is a run of its stage. */
    ghost predicate StagesRan(runs: seq<StageRun>, join: string, kube: string) {
      forall i {:trigger StageRan(runs[i], join, kube)} :: 0 <= i < |runs| ==> StageRan(runs[i], join, kube)
    }

    lemma StagesRanStep(runs: seq<StageRun>, r: StageRun, join: string, kube: string)
      requires StagesRan(runs, join, kube) && StageRan(r, join, kube)
      ensures StagesRan(runs + [r], join, kube)
    {
      forall i | 0 <= i < |runs| + 1 ensures StageRan((runs + [r])[i], join, kube) {
        if i < |runs| {
          assert (runs + [r])[i] == runs[i];
        }
      }
    }

    lemma StagesRanAppend(a: seq<StageRun>, b: seq<StageRun>, join: string, kube: string)
      requires StagesRan(a, join, kube) && StagesRan(b, join, kube)
      ensures StagesRan(a + b, join, kube)
    {
      forall i | 0 <= i < |a| + |b| ensures StageRan((a + b)[i], join, kube) {
        if i < |a| {
          assert (a + b)[i] == a[i];
        } else {
          assert (a + b)[i] == b[i - |a|];
        }
      }
    }

    /** What the first master reads does not change how the stages before it ran. */
    lemma StagesRanEarly(runs: seq<StageRun>, join: string, kube: string, join': string, kube': string)
      requires StagesRan(runs, join, kube)
      requires forall i :: 0 <= i < |runs| ==> Early(runs[i].step)
      ensures StagesRan(runs, join', kube')
    {
      forall i | 0 <= i < |runs| ensures StageRan(runs[i], join', kube') {
        assert StageRan(runs[i], join, kube);
      }
    }

    /** A run of `joinToMasterNodes` for `server` is a run of that server's join stage. */
    lemma JoinRan(server: string, attempts: seq<seq<Call>>, e: Option<ApiError>, join: string, kube: string)
      requires |attempts| <= Tries(Limit())
      requires Attempts(server, [JoinMaster(join)], 1, attempts, if e.None? then Finish(None) else Retry)
      requires e.None? || (e == Some(RetryLimitReached) && |attempts| == Tries(Limit()))
      ensures StageRan(StageRun(JoinStep(server), Paced(attempts, Wait()), attempts, e), join, kube)
    {
    }

    /** A run of `createServer` is a run of the servers stage. */
    lemma ServersRan(added: seq<Call>, e: Option<ApiError>, created: nat, fails: seq<nat>, join: string, kube: string)
      requires 0 < |added| && added[0].Provision? && added[0].op == PrepareServers
      requires !added[0].ok ==> added == [added[0]] && e == Some(ProviderError(PrepareServers))
      requires created <= |Servers()| && Creations(added) == Servers()[..created]
      requires e.None? ==> created == |Servers()| == |fails| && added == [Provision(PrepareServers, true)] + MasterRuns(fails)
      requires e == Some(RetryLimitReached) ==> Limit() < 0 && created == 1
      requires Limit() < 0 && |Servers()| > 0 ==> e.Some?
      ensures StagesRan([StageRun(ServersStep, added, [], e)], join, kube)
    {
      assert Servers()[..created] <= Servers();
      if e.None? {
        assert Servers()[..created] == Servers();
      }
    }

    /**
     * A servers stage that succeeded attached, with several masters, every
     * master to the balancer in order, each right after its own creation
     * and failed attaches; with one master it attached nothing.
     */
    lemma ServersAttached(r: StageRun, join: string, kube: string)
      requires r.step == ServersStep && StageRan(r, join, kube) && r.err.None?
      ensures Attached(r.calls)
              == if config.masterCount > 1 then MasterNames(config.masterServers.namePattern, config.masterCount) else []
    {
      var fails :| |fails| == |Servers()| && r.calls == [Provision(PrepareServers, true)] + MasterRuns(fails);
      MasterRunsAttach(fails);
      AttachedAppend([Provision(PrepareServers, true)], MasterRuns(fails));
      AttachedOf(Provision(PrepareServers, true));
    }

    /** A run of `initFirstMasterNode` after the stages `before` is a run of the first master's stage. */
    lemma InitRan(before: seq<StageRun>, join0: string, kube0: string,
                  attempts: seq<seq<Call>>, e: Option<ApiError>, join: string, kube: string)
      requires StagesRan(before, join0, kube0) && forall i :: 0 <= i < |before| ==> Early(before[i].step)
      requires |attempts| <= Tries(Limit())
      requires InitAttempts(FirstMaster(), config.clusterName, config.masterCount, Params(), config.hetznerToken, attempts,
                            if e == Some(RetryLimitReached) then Retry else Finish(e))
      requires e == Some(RetryLimitReached) ==> |attempts| == Tries(Limit())
      requires e != Some(RetryLimitReached) ==> |attempts| > 0
      requires e.None? ==> KeysRead(attempts[|attempts| - 1], join, kube)
      ensures StagesRan(before + [StageRun(InitMasterStep, Paced(attempts, Wait()), attempts, e)], join, kube)
    {
      StagesRanEarly(before, join0, kube0, join, kube);
      StagesRanStep(before, StageRun(InitMasterStep, Paced(attempts, Wait()), attempts, e), join, kube);
    }

    /** A run of `postInstall(false)` is a run of the post-install stage. */
    lemma PostRan(attempts: seq<seq<Call>>, e: Option<ApiError>, join: string, kube: string)
      requires |attempts| <= Tries(Limit())
      requires Attempts(FirstMaster(), PostCommands(false, Params(), deploymentValues, config.masterCount), 0, attempts,
                        if e == Some(RetryLimitReached) then Retry else Finish(e))
      requires e == Some(RetryLimitReached) ==> |attempts| == Tries(Limit())
      ensures StageRan(StageRun(PostInstallStep, Paced(attempts, Wait()), attempts, e), join, kube)
    {
    }

    /** The one provider call of a stage that makes only that call. */
    function OpOf(s: Step, kube: string): Option<Op> {
      match s
      case NetworkStep => Some(CreateNetwork)
      case SSHKeyStep => Some(CreateSSHKey)
      case BalancerStep => Some(CreateLoadBalancer)
      case SaveKubeconfigStep => Some(SaveKubeconfig(config.kubeConfigPath, kube))
      case _ => None
    }

    /**
     * One provider-call stage after `runs`, which went on: the calls, the
     * stages and the stage runs all grow by it.
     */
    lemma {:induction false} ProvidedGrow(t0: seq<Call>, runs: seq<StageRun>, r: StageRun, op: Op, t1: seq<Call>, t: seq<Call>,
                       plan: seq<Step>, join: string, kube: string)
      requires t1 == t0 + Calls(runs) && t == t1 + r.calls
      requires Steps(runs) <= plan && |runs| < |plan| && plan[|runs|] == r.step
      requires StagesRan(runs, join, kube) && GoneOn(runs)
      requires 0 < |runs| && Aborts(runs[|runs| - 1].step) ==> runs[|runs| - 1].err.None?
      requires Provided(r, op) && OpOf(r.step, kube) == Some(op)
      ensures t == t0 + Calls(runs + [r]) && Steps(runs + [r]) <= plan
      ensures |runs| + 1 == |plan| ==> Steps(runs + [r]) == plan
      ensures StagesRan(runs + [r], join, kube) && GoneOn(runs + [r])
    {
      assert StageRan(r, join, kube);
      TraceGrows(t0, runs, r, t1, t);
      StepsGrow(runs, r, plan);
      StagesRanStep(runs, r, join, kube);
      GoneOnStep(runs, r);
    }

    /**
     * The first stages of `NewCluster`: the network, the key and, with
     * several masters, the balancer; the first failure ends the run.
     */
    method CreateResources() returns (err: Option<ApiError>, ghost runs: seq<StageRun>)
      modifies remote
      ensures remote.trace == old(remote.trace) + Calls(runs)
      ensures StagesRan(runs, masterClusterJoin, clusterKubeConfig) && EndedBy(runs, err)
      ensures Steps(runs) <= Head(config.masterCount) && forall i :: 0 <= i < |runs| ==> Early(runs[i].step)
      ensures err.None? ==> |runs| == 2 + (if config.masterCount > 1 then 1 else 0)
    {
      ghost var head := Head(config.masterCount);
      ghost var t0 := remote.trace;
      runs := [];
      AppendNothing(t0);
      var ok := remote.Provision(CreateNetwork);
      ghost var r := Provide(NetworkStep, CreateNetwork, ok);
      ProvidedGrow(t0, runs, r, CreateNetwork, t0, remote.trace, head, masterClusterJoin, clusterKubeConfig);
      runs := runs + [r];
      if !ok {
        return Some(Wrapped(StepContext(NetworkStep), ProviderError(CreateNetwork))), runs;
      }
      ghost var t1 := remote.trace;
      ok := remote.Provision(CreateSSHKey);
      r := Provide(SSHKeyStep, CreateSSHKey, ok);
      ProvidedGrow(t0, runs, r, CreateSSHKey, t1, remote.trace, head, masterClusterJoin, clusterKubeConfig);
      runs := runs + [r];
      if !ok {
        return Some(Wrapped(StepContext(SSHKeyStep), ProviderError(CreateSSHKey))), runs;
      }
      if config.masterCount > 1 {
        t1 := remote.trace;
        ok := remote.Provision(CreateLoadBalancer);
        r := Provide(BalancerStep, CreateLoadBalancer, ok);
        ProvidedGrow(t0, runs, r, CreateLoadBalancer, t1, remote.trace, head, masterClusterJoin, clusterKubeConfig);
        runs := runs + [r];
        if !ok {
          return Some(Wrapped(StepContext(BalancerStep), ProviderError(CreateLoadBalancer))), runs;
        }
      }
      return None, runs;
    }

    /** `createServer` as the servers stage of the run. */
    method ServersStage(fuel: nat, ghost join: string, ghost kube: string) returns (err: Option<ApiError>, ghost r: StageRun)
      modifies remote
      ensures remote.trace == old(remote.trace) + r.calls
      ensures r.step == ServersStep && r.err == err && StagesRan([r], join, kube)
    {
      ghost var added, created, fails;
      err, added, created, fails := CreateServers(fuel);
      r := StageRun(ServersStep, added, [], err);
      ServersRan(added, err, created, fails, join, kube);
    }

    /** The servers stage and the first master's, after the resources `runs`, which went on. */
    method CreateMasters(fuel: nat, ghost runs: seq<StageRun>) returns (err: Option<ApiError>, ghost more: seq<StageRun>)
      requires 0 < |runs| && GoneOn(runs) && runs[|runs| - 1].err.None?
      modifies this, remote
      ensures remote.trace == old(remote.trace) + Calls(more)
      ensures StagesRan(more, masterClusterJoin, clusterKubeConfig) && EndedBy(runs + more, err)
      ensures Steps(more) == [ServersStep] || Steps(more) == [ServersStep, InitMasterStep]
      ensures err.None? ==> Steps(more) == [ServersStep, InitMasterStep]
    {
      ghost var t0 := remote.trace;
      ghost var join, kube := masterClusterJoin, clusterKubeConfig;
      var e, r := ServersStage(fuel, join, kube);
      AppendNothing(t0);
      TraceGrows(t0, [], r, t0, remote.trace);
      GoneOnStep(runs, r);
      more := [r];
      assert [] + [r] == more;
      if e.Some? {
        return Some(Wrapped(StepContext(ServersStep), e.value)), more;
      }
      ghost var t1 := remote.trace;
      ghost var attempts;
      e, attempts := InitFirstMasterNode();
      ghost var s := StageRun(InitMasterStep, Paced(attempts, Wait()), attempts, e);
      InitRan(more, join, kube, attempts, e, masterClusterJoin, clusterKubeConfig);
      TraceGrows(t0, more, s, t1, remote.trace);
      GoneOnStep(runs + more, s);
      assert runs + more + [s] == runs + (more + [s]);
      more := more + [s];
      assert Steps(more) == [ServersStep, InitMasterStep];
      if e.Some? {
        return Some(Wrapped(StepContext(InitMasterStep), e.value)), more;
      }
      return None, more;
    }

    /** The stages of the servers and the first master, after the resources' stages. */
    lemma {:induction false} MastersAfter(runs: seq<StageRun>, more: seq<StageRun>, join0: string, kube0: string, join: string, kube: string)
      requires StagesRan(runs, join0, kube0) && forall i :: 0 <= i < |runs| ==> Early(runs[i].step)
      requires StagesRan(more, join, kube)
      requires Steps(runs) <= Head(config.masterCount) && |runs| == 2 + (if config.masterCount > 1 then 1 else 0)
      requires Steps(more) == [ServersStep] || Steps(more) == [ServersStep, InitMasterStep]
      ensures StagesRan(runs + more, join, kube)
      ensures Steps(runs + more) <= Head(config.masterCount)
      ensures Steps(more) == [ServersStep, InitMasterStep] ==>
        |runs + more| + 1 == |Head(config.masterCount)| && Head(config.masterCount)[|runs + more|] == SaveKubeconfigStep
    {
      StagesRanEarly(runs, join0, kube0, join, kube);
      StagesRanAppend(runs, more, join, kube);
      StepsAppend(runs, more);
      HeadRest(config.masterCount, Steps(runs));
    }

    /**
     * The stages of `NewCluster` before the joins, as in `Head`: a failure of
     * any but the kubeconfig save ends the run, wrapped with its context.
     */
    method CreateCluster(fuel: nat) returns (err: Option<ApiError>, ghost runs: seq<StageRun>)
      modifies this, remote
      ensures remote.trace == old(remote.trace) + Calls(runs)
      ensures StagesRan(runs, masterClusterJoin, clusterKubeConfig) && EndedBy(runs, err)
      ensures Steps(runs) <= Head(config.masterCount)
      ensures err.None? ==> Steps(runs) == Head(config.masterCount)
    {
      ghost var t0 := remote.trace;
      err, runs := CreateResources();
      if err.Some? {
        return err, runs;
      }
      ghost var join, kube := masterClusterJoin, clusterKubeConfig;
      ghost var t1 := remote.trace;
      ghost var more;
      err, more := CreateMasters(fuel, runs);
      MastersAfter(runs, more, join, kube, masterClusterJoin, clusterKubeConfig);
      TraceAppend(t0, runs, t1, more, remote.trace);
      if err.Some? {
        return err, runs + more;
      }
      runs := runs + more;
      ghost var t2 := remote.trace;
      var saved := remote.Provision(SaveKubeconfig(config.kubeConfigPath, clusterKubeConfig));
      ghost var r := Provide(SaveKubeconfigStep, SaveKubeconfig(config.kubeConfigPath, clusterKubeConfig), saved);
      ProvidedGrow(t0, runs, r, SaveKubeconfig(config.kubeConfigPath, clusterKubeConfig), t2, remote.trace,
                   Head(config.masterCount), masterClusterJoin, clusterKubeConfig);
      runs := runs + [r];
      return None, runs;
    }

    /** The joins of `NewCluster`: masters `2..masterCount` in order, a failure only logged. */
    method JoinMasters() returns (ghost runs: seq<StageRun>)
      modifies remote
      ensures remote.trace == old(remote.trace) + Calls(runs)
      ensures StagesRan(runs, masterClusterJoin, clusterKubeConfig)
      ensures Steps(runs) == Joins(config.masterServers.namePattern, config.masterCount)
    {
      var pattern := config.masterServers.namePattern;
      runs := [];
      AppendNothing(remote.trace);
      var i := 2;
      while i <= config.masterCount
        invariant 2 <= i <= (if config.masterCount < 2 then 2 else config.masterCount + 1)
        invariant Steps(runs) == Joins(pattern, config.masterCount)[..i - 2]
        invariant remote.trace == old(remote.trace) + Calls(runs)
        invariant StagesRan(runs, masterClusterJoin, clusterKubeConfig)
        decreases config.masterCount - i
      {
        var name := ServerName(pattern, i);
        ghost var t1 := remote.trace;
        var e, attempts := JoinToMasterNodes(name);
        ghost var r := StageRun(JoinStep(name), Paced(attempts, Wait()), attempts, e);
        TraceGrows(old(remote.trace), runs, r, t1, remote.trace);
        JoinsGrow(pattern, config.masterCount, runs, r, i);
        JoinRan(name, attempts, e, masterClusterJoin, clusterKubeConfig);
        StagesRanStep(runs, r, masterClusterJoin, clusterKubeConfig);
        runs := runs + [r];
        i := i + 1;
      }
      JoinsAll(pattern, config.masterCount, runs, i);
    }

    /**
     * `NewCluster`: the stages in the order of `Plan`; a failure of a stage
     * that `Aborts` ends it with that error, wrapped with the stage's context,
     * while a failure to save the kubeconfig or to join a master is only
     * logged.
     */
    method NewCluster(fuel: nat) returns (err: Option<ApiError>, ghost runs: seq<StageRun>)
      modifies this, remote
      ensures remote.trace == old(remote.trace) + Calls(runs)
      ensures StagesRan(runs, masterClusterJoin, clusterKubeConfig) && EndedBy(runs, err)
      ensures Steps(runs) <= ClusterPlan()
      ensures err.None? ==> Steps(runs) == ClusterPlan()
    {
      ghost var t0 := remote.trace;
      err, runs := CreateCluster(fuel);
      PlanPrefix(config.masterServers.namePattern, config.masterCount, Steps(runs));
      if err.Some? {
        return err, runs;
      }
      ghost var t1 := remote.trace;
      ghost var joins := JoinMasters();
      ghost var t2 := remote.trace;
      var e, attempts := PostInstall(false);
      ghost var r := StageRun(PostInstallStep, Paced(attempts, Wait()), attempts, e);
      PostRan(attempts, e, masterClusterJoin, clusterKubeConfig);
      NewClusterEnd(runs, joins, r, err, e);
      TraceAppend(t0, runs, t1, joins, t2);
      TraceGrows(t0, runs + joins, r, t2, remote.trace);
      StagesRanAppend(runs, joins, masterClusterJoin, clusterKubeConfig);
      StagesRanStep(runs + joins, r, masterClusterJoin, clusterKubeConfig);
      runs := runs + joins + [r];
      if e.Some? {
        return Some(Wrapped(StepContext(PostInstallStep), e.value)), runs;
      }
    }

    /** The stages of a `NewCluster` run that reaches post-install follow `Plan`, and it ends as post-install does. */
    lemma NewClusterEnd(runs: seq<StageRun>, joins: seq<StageRun>, r: StageRun, err: Option<ApiError>, e: Option<ApiError>)
      requires EndedBy(runs, err) && err.None? && Steps(runs) == Head(config.masterCount)
      requires Steps(joins) == Joins(config.masterServers.namePattern, config.masterCount)
      requires r.step == PostInstallStep && r.err == e
      ensures Steps(runs + joins + [r]) == ClusterPlan()
      ensures EndedBy(runs + joins + [r], if e.Some? then Some(Wrapped(StepContext(PostInstallStep), e.value)) else None)
    {
      assert Steps(runs + joins + [r]) == Steps(runs) + Steps(joins) + [PostInstallStep];
      forall i | 0 <= i < |joins| ensures !Aborts(joins[i].step) {
        assert Steps(joins)[i] == joins[i].step;
      }
      GoneOnAppend(runs, joins);
      var before := runs + joins;
      assert !Aborts(before[|before| - 1].step) by {
        if |joins| > 0 {
          assert before[|before| - 1] == joins[|joins| - 1];
        } else {
          assert before[|before| - 1] == runs[|runs| - 1];
          assert Steps(runs)[|runs| - 1] == SaveKubeconfigStep;
        }
      }
      GoneOnStep(before, r);
    }

    /** Deletes `targets` of `kind` one by one, as `DeleteCluster` does with each lookup's result. */
    method DeleteAll(cloud: Cloud.Provider, kind: Cloud.Kind, targets: seq<Cloud.Resource>) returns (ghost oks: seq<bool>)
      requires cloud.Valid()
      modifies cloud
      ensures cloud.Valid() && |oks| == |targets|
      ensures Shrunk(cloud.items, old(cloud.items))
      ensures cloud.items == old(cloud.items)[kind := Survivors(old(cloud.items)[kind], targets, oks)]
      ensures cloud.trace == old(cloud.trace) + DeleteEvents(kind, targets, oks)
    {
      ghost var t0 := cloud.trace;
      oks := [];
      AppendNothing(t0);
      var i := 0;
      while i < |targets|
        invariant cloud.Valid() && 0 <= i <= |targets| && |oks| == i
        invariant cloud.trace == t0 + DeleteEvents(kind, targets[..i], oks)
        invariant Shrunk(cloud.items, old(cloud.items))
        invariant cloud.items == old(cloud.items)[kind := Survivors(old(cloud.items)[kind], targets[..i], oks)]
      {
        ghost var before := cloud.items;
        var ok := cloud.Delete(kind, targets[i]);
        ShrunkByDelete(before, old(cloud.items), kind, targets[i].id);
        SurvivorsStep(old(cloud.items)[kind], targets, oks, i, ok);
        DeleteEventsStep(kind, targets, oks, i, ok);
        Regroup(t0, DeleteEvents(kind, targets[..i], oks), [Cloud.DeleteCall(kind, targets[i].id, ok)]);
        oks := oks + [ok];
        i := i + 1;
      }
      assert targets[..i] == targets;
    }

    /**
     * One lookup of the legacy `DeleteCluster` and the deletion of what it
     * found; a failed lookup counts as finding nothing and a failed deletion
     * is only logged.
     */
    method SweepOnce(cloud: Cloud.Provider, kind: Cloud.Kind, q: Cloud.Query) returns (ghost s: Sweep)
      requires cloud.Valid()
      modifies cloud
      ensures cloud.Valid()
      ensures SweepOf(s, (kind, q), old(cloud.items))
      ensures Shrunk(cloud.items, old(cloud.items))
      ensures cloud.items == old(cloud.items)[kind := Survivors(old(cloud.items)[kind], Targets(s), s.oks)]
      ensures cloud.trace == old(cloud.trace) + SweepEvents(s)
    {
      var found, complete := cloud.Lookup(kind, [q]);
      assert Cloud.SelectAll(cloud.items[kind], [q]) == Cloud.Select(cloud.items[kind], q) + [] by {
        assert [q][1..] == [];
      }
      AppendNothing(Cloud.Select(cloud.items[kind], q));
      Cloud.SelectMatches(cloud.items[kind], q);
      var targets := if q.ByName? then (if |found| > 0 then [found[0]] else []) else found;
      var oks := DeleteAll(cloud, kind, targets);
      s := Sweep(kind, q, found, complete, oks);
      Regroup(old(cloud.trace), [Cloud.LookupCall(kind, found, complete)], DeleteEvents(kind, targets, oks));
    }

    /**
     * The legacy `DeleteCluster`: one pass that deletes the cluster's network,
     * key and balancer when each is there, then every server listed as a
     * master and then every worker; it reports no error.
     */
    method DeleteCluster(cloud: Cloud.Provider) returns (ghost sweeps: seq<Sweep>)
      requires cloud.Valid()
      modifies cloud
      ensures cloud.Valid()
      ensures |sweeps| == 5
      ensures forall i :: 0 <= i < 5 ==> SweepOf(sweeps[i], LegacyQueries(config.clusterName)[i], old(cloud.items))
      ensures Shrunk(cloud.items, old(cloud.items))
      ensures cloud.items == AfterSweeps(old(cloud.items), sweeps)
      ensures forall k: Cloud.Kind, x: Cloud.Resource :: x in cloud.items[k] <==>
        x in old(cloud.items)[k] && !DeletedBy(sweeps, k, x.id)
      ensures cloud.trace == old(cloud.trace) + Swept(sweeps)
    {
      var qs := LegacyQueries(config.clusterName);
      sweeps := [];
      var i := 0;
      while i < |qs|
        invariant 0 <= i <= |qs| && |sweeps| == i && cloud.Valid()
        invariant forall j :: 0 <= j < i ==> SweepOf(sweeps[j], qs[j], old(cloud.items))
        invariant Shrunk(cloud.items, old(cloud.items))
        invariant cloud.items == AfterSweeps(old(cloud.items), sweeps)
        invariant cloud.trace == old(cloud.trace) + Swept(sweeps)
      {
        ghost var before := cloud.items;
        var s := SweepOnce(cloud, qs[i].0, qs[i].1);
        AfterSweepsStep(old(cloud.items), sweeps, s);
        SweepOfEarlier(s, qs[i], before, old(cloud.items));
        ShrunkTrans(cloud.items, before, old(cloud.items));
        SweptStep(sweeps, s);
        Regroup(old(cloud.trace), Swept(sweeps), SweepEvents(s));
        SweepsGrow(sweeps, s, qs, old(cloud.items));
        sweeps := sweeps + [s];
        i := i + 1;
      }
      forall k: Cloud.Kind, x: Cloud.Resource
        ensures x in cloud.items[k] <==> x in old(cloud.items)[k] && !DeletedBy(sweeps, k, x.id)
      {
        SweptItems(old(cloud.items), sweeps, k, x);
      }
    }
  }
}
