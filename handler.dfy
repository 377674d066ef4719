/** The Lambda `handler`: load the configuration, validate it, select the
    due entries, return early when there are none, start the due instances
    in one batch, mail the summary, and rethrow whatever went wrong. The
    configuration store, the instance platform and the mailer are
    collaborators passed in; the clock is the platform's. */
module AutoStartHandler {
  import opened Types
  import opened ScheduleParsing
  import opened Ec2

  const DEFAULT_CONFIG_KEY := "config/settings.json"
  const DEFAULT_REGION := "us-east-1"

  /** The environment variables the handler reads; `None` is unset. */
  datatype Env = Env(
    configBucket: Option<string>,
    configKey: Option<string>,
    fromEmail: Option<string>,
    toEmail: Option<string>,
    awsRegion: Option<string>)

  /** `process.env.CONFIG_KEY || 'config/settings.json'` */
  function ConfigKey(env: Env): (key: string)
    ensures env.configKey.Some? && env.configKey.value != "" ==> key == env.configKey.value
    ensures env.configKey.None? || env.configKey.value == "" ==> key == DEFAULT_CONFIG_KEY
  {
    OrDefault(env.configKey, DEFAULT_CONFIG_KEY)
  }

  /** `process.env.AWS_REGION || 'us-east-1'` */
  function HandlerRegion(env: Env): (region: string)
    ensures env.awsRegion.Some? && env.awsRegion.value != "" ==> region == env.awsRegion.value
    ensures env.awsRegion.None? || env.awsRegion.value == "" ==> region == DEFAULT_REGION
  {
    OrDefault(env.awsRegion, DEFAULT_REGION)
  }

  /** One `getConfig` request: the store's region, the bucket and the key. */
  datatype ConfigRequest = ConfigRequest(region: string, bucket: Option<string>, key: string)

  /** The configuration store: what each request yields (the schedule table
      or the thrown error) and the requests made so far. */
  class ConfigStore {
    const objects: ConfigRequest -> Result<seq<Schedule>, Thrown>
    var requests: seq<ConfigRequest>

    constructor (objects: ConfigRequest -> Result<seq<Schedule>, Thrown>)
      ensures this.objects == objects && requests == []
    {
      this.objects := objects;
      requests := [];
    }

    method GetConfig(request: ConfigRequest) returns (r: Result<seq<Schedule>, Thrown>)
      modifies this
      ensures r == objects(request) && requests == old(requests) + [request]
    {
      r := objects(request);
      requests := requests + [request];
    }
  }

  /** One `sendSummary` call: sender, recipient, region and the results. */
  datatype Summary = Summary(fromEmail: Option<string>, toEmail: Option<string>, region: string, results: seq<StartResult>)

  /** The mailer: whether the n-th send throws, and the sends so far. */
  class Mailer {
    const failure: nat -> Option<Thrown>
    var sent: seq<Summary>

    constructor (failure: nat -> Option<Thrown>)
      ensures this.failure == failure && sent == []
    {
      this.failure := failure;
      sent := [];
    }

    method SendSummary(summary: Summary) returns (thrown: Option<Thrown>)
      modifies this
      ensures thrown == failure(|old(sent)|) && sent == old(sent) + [summary]
    {
      thrown := failure(|sent|);
      sent := sent + [summary];
    }
  }

  /** How the handler's promise settles. */
  datatype Completion = Normal | Abrupt(error: Thrown)

  /** `schedulesToRun.map(s => ({ instanceId: s.instanceId, region: s.region }))` */
  function Project(due: seq<Schedule>): (r: seq<Instance>)
    ensures |r| == |due|
    ensures forall i :: 0 <= i < |r| ==> r[i].instanceId == due[i].instanceId && r[i].region == due[i].region
  {
    seq(|due|, i requires 0 <= i < |due| => Instance(due[i].instanceId, due[i].region))
  }

  /** Projection keeps order: it maps over concatenations piecewise. */
  lemma ProjectDistributes(a: seq<Schedule>, b: seq<Schedule>)
    ensures Project(a + b) == Project(a) + Project(b)
  {
  }

  /** Every projected instance is the pair of a due entry of the table, with
      the instance id and region that validation vouched for. */
  lemma ProjectedInstancesAreValid(cron: CronLibrary, schedules: seq<Schedule>, now: int)
    requires FirstInvalid(cron, schedules).None?
    ensures var instances := Project(DueSchedules(cron, schedules, now));
            forall i :: 0 <= i < |instances| ==> instances[i].instanceId != "" && instances[i].region != ""
  {
    FirstInvalidSpec(cron, schedules);
    var due := DueSchedules(cron, schedules, now);
    forall i | 0 <= i < |due|
      ensures due[i].instanceId != "" && due[i].region != ""
    {
      DueMembership(cron, schedules, now, due[i]);
      var k :| 0 <= k < |schedules| && schedules[k] == due[i];
      assert EntryError(cron, schedules[k]).None?;
    }
  }

  /** `results.filter(r => r.success).length` */
  function CountSucceeded(results: seq<StartResult>): (n: nat)
    ensures n <= |results|
  {
    if results == [] then 0
    else CountSucceeded(results[..|results| - 1]) + if results[|results| - 1].Success() then 1 else 0
  }

  /** `results.filter(r => !r.success).length` */
  function CountFailed(results: seq<StartResult>): (n: nat)
    ensures n <= |results|
  {
    if results == [] then 0
    else CountFailed(results[..|results| - 1]) + if results[|results| - 1].Success() then 0 else 1
  }

  /** The two logged counts partition the results. */
  lemma {:induction false} CountsPartition(results: seq<StartResult>)
    ensures CountSucceeded(results) + CountFailed(results) == |results|
  {
    if results != [] {
      CountsPartition(results[..|results| - 1]);
    }
  }

  /** The success count is the number of indices whose result succeeded. */
  lemma {:induction false} CountSucceededIsSize(results: seq<StartResult>)
    ensures CountSucceeded(results) == |set i | 0 <= i < |results| && results[i].Success()|
  {
    if results != [] {
      var n := |results| - 1;
      var front := results[..n];
      CountSucceededIsSize(front);
      var before := set i | 0 <= i < |front| && front[i].Success();
      var all := set i | 0 <= i < |results| && results[i].Success();
      assert all == before + (if results[n].Success() then {n} else {});
      assert n !in before;
    }
  }

  /** The platform's logs and clock are as they were. */
  twostate predicate PlatformUntouched(platform: Platform)
    reads platform
  {
    && platform.describeLog == old(platform.describeLog)
    && platform.startLog == old(platform.startLog)
    && platform.sleepLog == old(platform.sleepLog)
    && platform.clock == old(platform.clock)
  }

  /** `handler(event)`. The ghost results and settled outcomes are those of
      the batch, when one ran. */
  method Handler(env: Env, store: ConfigStore, platform: Platform, mailer: Mailer, cron: CronLibrary)
    returns (c: Completion, ghost results: seq<StartResult>, ghost settled: seq<Settled>)
    modifies store, platform, mailer
    ensures var request := ConfigRequest(HandlerRegion(env), env.configBucket, ConfigKey(env));
            && store.requests == old(store.requests) + [request]
            && match store.objects(request)
               case Err(t) =>
                 c == Abrupt(t) && PlatformUntouched(platform) && mailer.sent == old(mailer.sent)
               case Ok(schedules) =>
                 if FirstInvalid(cron, schedules).Some? then
                   && c == Abrupt(ErrorObject(ValidationMessage(FirstInvalid(cron, schedules).value)))
                   && PlatformUntouched(platform) && mailer.sent == old(mailer.sent)
                 else
                   var due := DueSchedules(cron, schedules, old(platform.clock));
                   if due == [] then
                     c == Normal && PlatformUntouched(platform) && mailer.sent == old(mailer.sent)
                   else
                     var instances := Project(due);
                     var run := Batch(StartCallStep(platform.script, platform.clientFailure), {}, instances, old(platform.Snap()));
                     && settled == run.settled && platform.Snap() == run.after
                     && results == Reassemble(instances, settled, platform.clock)
                     && |results| == |instances|
                     && (forall i :: 0 <= i < |results| ==> Echoes(results[i], instances[i]))
                     && old(platform.describeLog) <= platform.describeLog
                     && |platform.describeLog| <= |old(platform.describeLog)| + MAX_RETRIES * |instances|
                     && mailer.sent == old(mailer.sent) +
                          [Summary(env.fromEmail, env.toEmail, HandlerRegion(env), results)]
                     && c == (if mailer.failure(|old(mailer.sent)|).Some?
                              then Abrupt(mailer.failure(|old(mailer.sent)|).value) else Normal)
  {
    results, settled := [], [];
    ghost var before := platform.Snap();
    var region := HandlerRegion(env);
    var config := store.GetConfig(ConfigRequest(region, env.configBucket, ConfigKey(env)));
    if config.Err? {
      return Abrupt(config.error), results, settled;
    }
    var built := NewScheduleParser(config.value, cron);
    if built.Err? {
      return Abrupt(built.error), results, settled;
    }
    var parser := built.value;
    var schedulesToRun := parser.GetSchedulesToRun(cron, platform.clock);
    if |schedulesToRun| == 0 {
      return Normal, results, settled;
    }
    var service := new EC2Service(platform);
    assert service.clients.Keys == {} && platform.Snap() == before;
    var instances := Project(schedulesToRun);
    var started;
    started, settled := service.StartMultipleInstances(instances);
    results := started;
    var thrown := mailer.SendSummary(Summary(env.fromEmail, env.toEmail, region, started));
    if thrown.Some? {
      return Abrupt(thrown.value), results, settled;
    }
    return Normal, results, settled;
  }
}
