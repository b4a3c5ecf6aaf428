/**
 * The deploy and remove commands (package commands): each checks the platform first, then
 * calls the subsystems in a fixed order. The full deploy stops at the first error; the full
 * remove runs in the opposite order, logs every error and succeeds. The subsystems
 * themselves (`api`, `updater`, `sched`) are not part of this model: a call to one is a
 * `Call` value, and what it returns is given by the `outcome` parameter.
 */
module Commands {
  import opened Wrappers
  import opened Platform
  import opened Sequencing

  const PlatformError: Error := "cannot autodetect the platform, and no platform given"
  const RemovalLogPrefix: string := "error removing: "

  /** The flags every command shares. */
  datatype CommonOptions = CommonOptions(updaterConfigData: string, pullIfNotPresent: bool, updaterType: string)

  datatype Subsystem = Api | Updater | Sched

  datatype Action = Deploy | Remove

  /** What a subsystem call is given: `api.Options`, `updater.Options` or `sched.Options`. */
  datatype Options =
    | ApiOptions(platform: Platform, updaterType: string)
    | UpdaterOptions(platform: Platform, waitCompletion: bool, updaterConfigData: string,
                     pullIfNotPresent: bool, updaterType: string)
    | SchedOptions(platform: Platform, waitCompletion: bool, rteConfigData: string,
                   pullIfNotPresent: bool, updaterType: string)

  /** One call to `Deploy` or `Remove` of a subsystem. */
  datatype Call = Call(action: Action, options: Options)
  {
    function Target(): Subsystem
    {
      match options
      case ApiOptions(_, _) => Api
      case UpdaterOptions(_, _, _, _, _) => Updater
      case SchedOptions(_, _, _, _, _) => Sched
    }
  }

  /** The options the deploy and remove commands and their subcommands share. */
  class DeployOptions {
    var clusterPlatform: Platform
    var waitCompletion: bool

    constructor (waitCompletion: bool)
      ensures clusterPlatform == Unknown && this.waitCompletion == waitCompletion
    {
      clusterPlatform := Unknown;
      this.waitCompletion := waitCompletion;
    }
  }

  function UpdaterCall(action: Action, common: CommonOptions, plat: Platform, wait: bool): Call
  {
    Call(action, UpdaterOptions(plat, wait, common.updaterConfigData, common.pullIfNotPresent, common.updaterType))
  }

  function SchedCall(action: Action, common: CommonOptions, plat: Platform, wait: bool): Call
  {
    Call(action, SchedOptions(plat, wait, common.updaterConfigData, common.pullIfNotPresent, common.updaterType))
  }

  /** The calls of the full deploy: api (told the updater type), updater, sched. */
  function DeployPlan(common: CommonOptions, plat: Platform, wait: bool): seq<Call>
  {
    [Call(Deploy, ApiOptions(plat, common.updaterType)),
     UpdaterCall(Deploy, common, plat, wait),
     SchedCall(Deploy, common, plat, wait)]
  }

  /** The calls of the full remove: sched, updater, api (told the platform only). */
  function RemovePlan(common: CommonOptions, plat: Platform, wait: bool): seq<Call>
  {
    [SchedCall(Remove, common, plat, wait),
     UpdaterCall(Remove, common, plat, wait),
     Call(Remove, ApiOptions(plat, ""))]
  }

  /** The call a single-subsystem subcommand makes; the api one is told the platform only. */
  function SubcommandCall(action: Action, target: Subsystem, common: CommonOptions, plat: Platform, wait: bool): (c: Call)
    ensures c.action == action && c.Target() == target && c.options.platform == plat
  {
    match target
    case Api => Call(action, ApiOptions(plat, ""))
    case Updater => UpdaterCall(action, common, plat, wait)
    case Sched => SchedCall(action, common, plat, wait)
  }

  /** What the subsystems return for a sequence of calls. */
  function Outcomes(calls: seq<Call>, outcome: Call -> Option<Error>): (rs: seq<Option<Error>>)
    ensures |rs| == |calls|
    ensures forall i | 0 <= i < |calls| :: rs[i] == outcome(calls[i])
  {
    seq(|calls|, i requires 0 <= i < |calls| => outcome(calls[i]))
  }

  /** The lines the full remove logs for the errors it keeps going past. */
  function RemovalLog(errs: seq<Error>): (lines: seq<string>)
    ensures |lines| == |errs|
    ensures forall i | 0 <= i < |errs| :: lines[i] == RemovalLogPrefix + errs[i]
  {
    seq(|errs|, i requires 0 <= i < |errs| => RemovalLogPrefix + errs[i])
  }

  /**
   * Records the detected platform and checks it: every command does this before calling
   * any subsystem, and fails when the platform is still unknown.
   */
  method CheckPlatform(opts: DeployOptions, discovered: Platform) returns (err: Option<Error>)
    modifies opts`clusterPlatform
    ensures opts.clusterPlatform == discovered
    ensures err.Some? <==> discovered == Unknown
    ensures err.Some? ==> err.value == PlatformError
  {
    opts.clusterPlatform := discovered;
    if opts.clusterPlatform == Unknown {
      return Some(PlatformError);
    }
    return None;
  }

  /**
   * The full deploy: api, updater, sched, stopping at the first error and returning it.
   * `trace` holds the calls made, in order.
   */
  method DeployOnCluster(common: CommonOptions, opts: DeployOptions, discovered: Platform,
                         outcome: Call -> Option<Error>)
    returns (err: Option<Error>, trace: seq<Call>)
    modifies opts`clusterPlatform
    ensures opts.clusterPlatform == discovered
    ensures discovered == Unknown ==> err == Some(PlatformError) && trace == []
    ensures discovered != Unknown ==>
              var plan := DeployPlan(common, discovered, opts.waitCompletion);
              trace == plan[..Attempts(Outcomes(plan, outcome))] && err == FirstError(Outcomes(plan, outcome))
  {
    trace := [];
    err := CheckPlatform(opts, discovered);
    if err.Some? {
      return;
    }
    ghost var plan := DeployPlan(common, discovered, opts.waitCompletion);
    OutcomesOfThree(outcome(plan[0]), outcome(plan[1]), outcome(plan[2]));
    assert Outcomes(plan, outcome) == [outcome(plan[0]), outcome(plan[1]), outcome(plan[2])];

    var call := Call(Deploy, ApiOptions(opts.clusterPlatform, common.updaterType));
    trace := trace + [call];
    err := outcome(call);
    if err.Some? {
      return;
    }
    call := UpdaterCall(Deploy, common, opts.clusterPlatform, opts.waitCompletion);
    trace := trace + [call];
    err := outcome(call);
    if err.Some? {
      return;
    }
    call := SchedCall(Deploy, common, opts.clusterPlatform, opts.waitCompletion);
    trace := trace + [call];
    err := outcome(call);
    if err.Some? {
      return;
    }
    assert trace == plan;
    return None, trace;
  }

  /**
   * The full remove: sched, updater, api, each whatever the previous returned. Every error
   * is logged, in order, and the command itself succeeds.
   */
  method RemoveAll(common: CommonOptions, opts: DeployOptions, discovered: Platform,
                   outcome: Call -> Option<Error>)
    returns (err: Option<Error>, trace: seq<Call>, logged: seq<string>)
    modifies opts`clusterPlatform
    ensures opts.clusterPlatform == discovered
    ensures discovered == Unknown ==> err == Some(PlatformError) && trace == [] && logged == []
    ensures discovered != Unknown ==>
              var plan := RemovePlan(common, discovered, opts.waitCompletion);
              err == None && trace == plan && logged == RemovalLog(Failures(Outcomes(plan, outcome)))
  {
    trace, logged := [], [];
    err := CheckPlatform(opts, discovered);
    if err.Some? {
      return;
    }
    ghost var plan := RemovePlan(common, discovered, opts.waitCompletion);
    OutcomesOfThree(outcome(plan[0]), outcome(plan[1]), outcome(plan[2]));
    assert Outcomes(plan, outcome) == [outcome(plan[0]), outcome(plan[1]), outcome(plan[2])];
    ghost var errs: seq<Error> := [];

    var call := SchedCall(Remove, common, opts.clusterPlatform, opts.waitCompletion);
    trace := trace + [call];
    var e := outcome(call);
    if e.Some? {
      logged := logged + [RemovalLogPrefix + e.value];
      errs := errs + [e.value];
    }
    call := UpdaterCall(Remove, common, opts.clusterPlatform, opts.waitCompletion);
    trace := trace + [call];
    e := outcome(call);
    if e.Some? {
      logged := logged + [RemovalLogPrefix + e.value];
      errs := errs + [e.value];
    }
    call := Call(Remove, ApiOptions(opts.clusterPlatform, ""));
    trace := trace + [call];
    e := outcome(call);
    if e.Some? {
      logged := logged + [RemovalLogPrefix + e.value];
      errs := errs + [e.value];
    }
    assert errs == Failures(Outcomes(plan, outcome));
    assert logged == RemovalLog(errs);
    return None, trace, logged;
  }

  /**
   * A single-subsystem subcommand (`deploy api`, `remove scheduler-plugin`, ...): after the
   * platform check, one call, whose error is returned as it is.
   */
  method RunSubcommand(action: Action, target: Subsystem, common: CommonOptions, opts: DeployOptions,
                       discovered: Platform, outcome: Call -> Option<Error>)
    returns (err: Option<Error>, trace: seq<Call>)
    modifies opts`clusterPlatform
    ensures opts.clusterPlatform == discovered
    ensures discovered == Unknown ==> err == Some(PlatformError) && trace == []
    ensures discovered != Unknown ==>
              var call := SubcommandCall(action, target, common, discovered, opts.waitCompletion);
              trace == [call] && err == outcome(call)
  {
    trace := [];
    err := CheckPlatform(opts, discovered);
    if err.Some? {
      return;
    }
    var call := SubcommandCall(action, target, common, opts.clusterPlatform, opts.waitCompletion);
    trace := [call];
    err := outcome(call);
  }

  // ---------------------------------------------------------------------------------------
  // Properties of the plans

  /**
   * The full remove calls the subsystems in the reverse order of the full deploy, with the
   * same options for updater and sched; api is told the updater type when deployed only.
   */
  lemma RemoveReversesDeploy(common: CommonOptions, plat: Platform, wait: bool)
    ensures var d, r := DeployPlan(common, plat, wait), RemovePlan(common, plat, wait);
      |d| == |r| == 3 &&
      (forall i | 0 <= i < 3 :: r[i].Target() == d[2 - i].Target()) &&
      (forall i | 0 <= i < 3 :: d[i].action == Deploy && r[i].action == Remove) &&
      (forall i | 0 <= i < 3 :: r[i].options.platform == d[i].options.platform == plat) &&
      r[0].options == d[2].options && r[1].options == d[1].options &&
      d[0].options.updaterType == common.updaterType && r[0].options.updaterType == common.updaterType &&
      r[2].options == ApiOptions(plat, "")
  {
  }

  /** The wait flag reaches the updater and sched calls, and never the api call. */
  lemma WaitReachesUpdaterAndSchedOnly(common: CommonOptions, plat: Platform, wait: bool, c: Call)
    requires c in DeployPlan(common, plat, wait) || c in RemovePlan(common, plat, wait)
    ensures c.options.ApiOptions? <==> c.Target() == Api
    ensures !c.options.ApiOptions? ==> c.options.waitCompletion == wait
    ensures c.options.SchedOptions? ==> c.options.rteConfigData == common.updaterConfigData
  {
  }

  /**
   * The full deploy succeeds exactly when all three calls do; a failing updater deploy is
   * the last call made, so sched is never deployed after it; and the error returned is one
   * the subsystems returned.
   */
  lemma DeployFailFast(common: CommonOptions, plat: Platform, wait: bool, outcome: Call -> Option<Error>)
    ensures var plan := DeployPlan(common, plat, wait);
      var rs := Outcomes(plan, outcome);
      (FirstError(rs).None? <==> forall c | c in plan :: outcome(c).None?) &&
      (FirstError(rs).None? ==> plan[..Attempts(rs)] == plan) &&
      (outcome(plan[0]).None? && outcome(plan[1]).Some? ==>
         plan[..Attempts(rs)] == plan[..2] && FirstError(rs) == outcome(plan[1])) &&
      (FirstError(rs).Some? ==> exists c | c in plan[..Attempts(rs)] :: outcome(c) == FirstError(rs))
  {
    var plan := DeployPlan(common, plat, wait);
    var rs := Outcomes(plan, outcome);
    FailFastStopsAtFirstError(rs);
    if FirstError(rs).None? {
      forall c | c in plan
        ensures outcome(c).None?
      {
        var i :| 0 <= i < |plan| && plan[i] == c;
        assert rs[i] == outcome(c);
      }
    }
    OutcomesOfThree(rs[0], rs[1], rs[2]);
    assert rs == [rs[0], rs[1], rs[2]];
    if FirstError(rs).Some? {
      var n := Attempts(rs);
      assert plan[..n][n - 1] == plan[n - 1];
    }
  }

  /**
   * The full remove logs one line per failing call and nothing else: three lines when every
   * call fails, none when every call succeeds, and a line for an error exactly when some
   * call returned it.
   */
  lemma RemoveFailSoft(common: CommonOptions, plat: Platform, wait: bool, outcome: Call -> Option<Error>)
    ensures var plan := RemovePlan(common, plat, wait);
      var errs := Failures(Outcomes(plan, outcome));
      ((forall c | c in plan :: outcome(c).Some?) ==> |RemovalLog(errs)| == 3) &&
      ((forall c | c in plan :: outcome(c).None?) ==> RemovalLog(errs) == []) &&
      (forall e :: RemovalLogPrefix + e in RemovalLog(errs) <==> exists c | c in plan :: outcome(c) == Some(e))
  {
    var plan := RemovePlan(common, plat, wait);
    var rs := Outcomes(plan, outcome);
    var errs := Failures(rs);
    FailSoftLogsEveryError(rs);
    FailFastStopsAtFirstError(rs);
    assert forall i | 0 <= i < 3 :: plan[i] in plan;
    assert forall c | c in plan :: exists i | 0 <= i < 3 :: plan[i] == c && rs[i] == outcome(c);
    forall e
      ensures RemovalLogPrefix + e in RemovalLog(errs) <==> e in errs
    {
      if RemovalLogPrefix + e in RemovalLog(errs) {
        var i :| 0 <= i < |errs| && RemovalLog(errs)[i] == RemovalLogPrefix + e;
        assert errs[i] == (RemovalLogPrefix + e)[|RemovalLogPrefix|..];
      }
      if e in errs {
        var i :| 0 <= i < |errs| && errs[i] == e;
        assert RemovalLog(errs)[i] == RemovalLogPrefix + e;
      }
    }
  }
}
