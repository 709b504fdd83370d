/** The request-side decisions of server.go: the label sanitiser, the early
    rejection in createJob, and the status choice of getReport. */
module Server {
  import opened Wrappers
  import Plans
  import Checks

  /** One element of the request's metrics list; only CheckLoad reads it. */
  datatype Metric = Metric(loadAvg1m: Option<real>)

  /** A character of the class [a-zA-Z0-9\-_]. */
  predicate IsParamChar(c: char)
  {
    ('a' <= c <= 'z') || ('A' <= c <= 'Z') || ('0' <= c <= '9') || c == '-' || c == '_'
  }

  /** validParams: the whole string is one or more characters of the class. */
  predicate ValidParam(s: string)
  {
    |s| > 0 && forall i :: 0 <= i < |s| ==> IsParamChar(s[i])
  }

  /** The pattern is anchored at both ends and needs at least one character. */
  lemma ValidParamExamples()
    ensures ValidParam("hobby-dev") && ValidParam("my_app-2")
    ensures !ValidParam("") && !ValidParam("a b") && !ValidParam("x;y")
  {
    assert "a b"[1] == ' ';
    assert "x;y"[1] == ';';
  }

  /** What sanitize leaves in one field: the field if it matches, else "". */
  function Cleaned(s: string): (r: string)
    ensures r == "" || ValidParam(r)
    ensures ValidParam(s) ==> r == s
  {
    if ValidParam(s) then s else ""
  }

  /** Sanitising a field twice is the same as sanitising it once, and a
      field that is already empty or valid is its own sanitised form. */
  lemma CleanedIdempotent(s: string)
    ensures Cleaned(Cleaned(s)) == Cleaned(s)
    ensures (s == "" || ValidParam(s)) ==> Cleaned(s) == s
  {
  }

  /** A field containing a character outside the class is blanked. */
  lemma CleanedBlanksForeignChar(s: string, i: nat)
    requires i < |s| && !IsParamChar(s[i])
    ensures Cleaned(s) == ""
  {
  }

  /** The body of a report request, updated in place by Sanitize. */
  class JobParams {
    var url: string
    var metrics: seq<Metric>
    var plan: string
    var app: string
    var database: string

    constructor (url: string, metrics: seq<Metric>, plan: string, app: string, database: string)
      ensures this.url == url && this.metrics == metrics
      ensures this.plan == plan && this.app == app && this.database == database
    {
      this.url := url;
      this.metrics := metrics;
      this.plan := plan;
      this.app := app;
      this.database := database;
    }

    /** Every label is either empty or a valid word. */
    predicate Sanitized()
      reads this
    {
      (plan == "" || ValidParam(plan)) && (app == "" || ValidParam(app))
      && (database == "" || ValidParam(database))
    }

    /** sanitize: blank each of Plan, App and Database that does not match. */
    method Sanitize()
      modifies this
      ensures plan == Cleaned(old(plan)) && app == Cleaned(old(app)) && database == Cleaned(old(database))
      ensures url == old(url) && metrics == old(metrics)
      ensures Sanitized()
      ensures old(Sanitized()) ==> plan == old(plan) && app == old(app) && database == old(database)
    {
      if !ValidParam(plan) {
        plan := "";
      }
      if !ValidParam(app) {
        app := "";
      }
      if !ValidParam(database) {
        database := "";
      }
    }
  }

  datatype JobError = BadPostgresUrl | ConnectFailed(reason: string) {
    function Message(): string
    {
      match this
      case BadPostgresUrl => "bad postgres url"
      case ConnectFailed(reason) => reason
    }
  }

  /** The row createJob stores: the sanitised labels, the redacted URL and the checks. */
  datatype NewJob = NewJob(app: string, database: string, url: string, checks: seq<Checks.Check>)

  /** createJob up to the insert: sanitise a copy of the parameters, reject
      an empty redacted URL before any probe runs, pick the plan and run the
      battery. `removePassword` is the URL redaction, taken as given. */
  method CreateJob(params: JobParams, removePassword: string -> string, db: Checks.Database)
    returns (r: Result<NewJob, JobError>)
    requires db.Reachable? ==> Checks.CountRowPresent(db.probes)
    ensures removePassword(params.url) == "" ==> r == Failure(BadPostgresUrl)
    ensures removePassword(params.url) == "" ==> r.error.Message() == "bad postgres url"
    ensures removePassword(params.url) != "" && db.Unreachable? ==> r == Failure(ConnectFailed(db.error))
    ensures removePassword(params.url) != "" && db.Reachable? ==>
              r == Success(NewJob(Cleaned(params.app), Cleaned(params.database), removePassword(params.url),
                                  Checks.Battery(db.probes, Plans.GetPlan(Cleaned(params.plan)).connectionLimit)))
  {
    // Go passes the parameters by value: sanitize updates the callee's copy.
    var p := new JobParams(params.url, params.metrics, params.plan, params.app, params.database);
    p.Sanitize();
    var sanitizedUrl := removePassword(p.url);
    if sanitizedUrl == "" {
      return Failure(BadPostgresUrl);
    }
    var plan := Plans.GetPlan(p.plan);
    var checks := Checks.CheckSql(db, plan);
    if checks.Failure? {
      return Failure(ConnectFailed(checks.error));
    }
    return Success(NewJob(p.app, p.database, sanitizedUrl, checks.value));
  }

  /** getReport: 404 with an empty body when the stored report cannot be
      read, 200 with the report's JSON otherwise. */
  function GetReport(lookup: Option<string>): (response: (int, string))
    ensures response.0 == 200 <==> lookup.Some?
    ensures lookup.None? ==> response == (404, "")
    ensures lookup.Some? ==> response.1 == lookup.value
  {
    match lookup
    case None => (404, "")
    case Some(json) => (200, json)
  }
}
