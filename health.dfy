/** The health endpoints of the API service (services/api/routers/health.py).
    Each probe's outcome is an input: for the database and Redis the error
    the probe raised, if any; for the two services the status they answered
    or the error the call raised. The clock reading is an input too. */
module Health {
  import opened Common

  /** The outcome of an HTTP health probe. */
  datatype Probe = Answered(status: nat) | Raised(message: string)

  /** A health body; `checks` is None for the basic report, which has no
      "checks" key. */
  datatype HealthReport = HealthReport(status: string, service: string, timestamp: string, checks: Option<map<string, string>>)

  const SERVICE := "api-service"

  /** The entry a database or Redis check records. */
  function StoreCheck(failure: Option<string>): (r: string)
    ensures failure.None? <==> r == "healthy"
  {
    match failure
    case None => "healthy"
    case Some(e) => "unhealthy: " + e
  }

  /** The entry a service check records: healthy only on 200. */
  function ServiceCheck(probe: Probe): (r: string)
    ensures r == "healthy" <==> probe == Answered(200)
    ensures probe.Answered? && probe.status != 200 ==> r == "unhealthy"
  {
    match probe
    case Answered(status) => if status == 200 then "healthy" else "unhealthy"
    case Raised(e) => "unhealthy: " + e
  }

  /** `health_check`: always healthy. */
  function BasicHealth(now: string): (r: HealthReport)
    ensures r.status == "healthy" && r.service == SERVICE && r.timestamp == now && r.checks.None?
  {
    HealthReport("healthy", SERVICE, now, None)
  }

  /** `detailed_health_check`: the report starts healthy, and each check
      writes its entry; only a failed database or Redis check marks the
      whole report unhealthy. */
  method DetailedHealth(database: Option<string>, redis: Option<string>, knowledge: Probe, inference: Probe, now: string)
    returns (r: HealthReport)
    ensures r.status == "unhealthy" <==> database.Some? || redis.Some?
    ensures r.status in {"healthy", "unhealthy"} && r.service == SERVICE && r.timestamp == now
    ensures r.checks.Some? && r.checks.value.Keys == {"database", "redis", "knowledge_service", "inference_service"}
    ensures r.checks.value["database"] == StoreCheck(database) && r.checks.value["redis"] == StoreCheck(redis)
    ensures r.checks.value["knowledge_service"] == ServiceCheck(knowledge)
    ensures r.checks.value["inference_service"] == ServiceCheck(inference)
  {
    var status := "healthy";
    var checks: map<string, string> := map[];
    match database {
      case None => checks := checks["database" := "healthy"];
      case Some(e) =>
        checks := checks["database" := "unhealthy: " + e];
        status := "unhealthy";
    }
    match redis {
      case None => checks := checks["redis" := "healthy"];
      case Some(e) =>
        checks := checks["redis" := "unhealthy: " + e];
        status := "unhealthy";
    }
    match knowledge {
      case Answered(code) => checks := checks["knowledge_service" := if code == 200 then "healthy" else "unhealthy"];
      case Raised(e) => checks := checks["knowledge_service" := "unhealthy: " + e];
    }
    match inference {
      case Answered(code) => checks := checks["inference_service" := if code == 200 then "healthy" else "unhealthy"];
      case Raised(e) => checks := checks["inference_service" := "unhealthy: " + e];
    }
    r := HealthReport(status, SERVICE, now, Some(checks));
  }

  /** A readiness body: the status object, or the JSON array the framework
      makes of a returned `(object, code)` tuple. */
  datatype ReadyBody = StatusObject(status: string) | TupleArray(status: string, code: nat)

  datatype ReadyReply = ReadyReply(httpStatus: nat, body: ReadyBody)

  /** `readiness_check` as written: the handler returns the tuple
      `({"status": "not ready"}, 503)` when the database fails, and a
      returned value does not set the status, so the framework answers 200
      with the tuple as a two-element array. */
  function ReadinessAsWritten(database: Option<string>): (r: ReadyReply)
    ensures r.httpStatus == 200
    ensures database.None? <==> r.body == StatusObject("ready")
    ensures database.Some? ==> r.body == TupleArray("not ready", 503)
  {
    if database.None? then ReadyReply(200, StatusObject("ready"))
    else ReadyReply(200, TupleArray("not ready", 503))
  }

  /** `readiness_check` as intended: "ready" with 200 exactly when the
      database answers; otherwise "not ready" with 503. */
  function Readiness(database: Option<string>): (r: ReadyReply)
    ensures r.httpStatus == 200 <==> database.None?
    ensures r.body.StatusObject?
    ensures database.None? ==> r.body.status == "ready"
    ensures database.Some? ==> r == ReadyReply(503, StatusObject("not ready"))
  {
    if database.None? then ReadyReply(200, StatusObject("ready")) else ReadyReply(503, StatusObject("not ready"))
  }

  /** As written a failed database probe still answers 200, so a readiness
      probe that checks the status code sees the service as ready; the two
      replies agree exactly when the database answers. */
  lemma FailedProbeLooksReady(e: string)
    ensures ReadinessAsWritten(Some(e)).httpStatus == 200 && Readiness(Some(e)).httpStatus == 503
    ensures forall db: Option<string> :: ReadinessAsWritten(db) == Readiness(db) <==> db.None?
  {
  }
}
