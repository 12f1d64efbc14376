/** Cron jobs as the composer holds them: a job is a finite map of keys to values. */
module Jobs {
  import opened Values

  type Job = map<string, Value>

  /** Whether a job is one a deployment runs: `bool(job.get("enabled", True))`. */
  predicate Runs(j: Job) {
    "enabled" in j ==> Truthy(j["enabled"])
  }

  predicate Named(j: Job) {
    "name" in j && j["name"].Str?
  }

  function Name(j: Job): string
    requires Named(j)
  {
    j["name"].s
  }

  predicate AllNamed(jobs: seq<Job>) {
    forall j :: j in jobs ==> Named(j)
  }

  function NamesOf(jobs: seq<Job>): seq<string>
    requires AllNamed(jobs)
  {
    seq(|jobs|, i requires 0 <= i < |jobs| => Name(jobs[i]))
  }

  /** A repeat without the count of what it has done. */
  function WithoutCompleted(repeat: Value): Value {
    if repeat.Obj? && "completed" in repeat.fields then Obj(repeat.fields - {"completed"}) else repeat
  }

  /** The characters of a string as one-character strings, as iterating a Python `str` gives them. */
  function Characters(s: string): seq<Value> {
    seq(|s|, i requires 0 <= i < |s| => Str([s[i]]))
  }

  /** `job.get("after") or []` can be iterated as a sequence. The remaining shapes (a non-zero number,
      `true`, a non-empty object) are not dependency lists; the first two raise in the source. */
  predicate AfterIterable(j: Job) {
    var v := Get(j, "after");
    !Truthy(v) || v.List? || v.Str?
  }

  /** The entries that iterating `job.get("after") or []` yields; a bare string yields characters. */
  function After(j: Job): seq<Value>
    requires AfterIterable(j)
  {
    match Get(j, "after")
    case List(items) => items
    case Str(s) => Characters(s)
    case _ => []
  }

  predicate Orderable(jobs: seq<Job>) {
    AllNamed(jobs) && forall j :: j in jobs ==> AfterIterable(j)
  }

  /** The jobs a deployment runs, in source order. */
  function Live(jobs: seq<Job>): (r: seq<Job>)
    ensures forall j :: j in r <==> j in jobs && Runs(j)
  {
    if jobs == [] then []
    else
      assert jobs == [jobs[0]] + jobs[1..];
      (if Runs(jobs[0]) then [jobs[0]] else []) + Live(jobs[1..])
  }
}
