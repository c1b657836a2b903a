/** The quality score of a proxy, into which its own load feeds back. */
module Quality {

  datatype ProxyStatus = Running | Stopped | Errored | Expired

  datatype Grade = APlus | A | B | C | Dead

  datatype Metric = Metric(latencyMs: int, status: string)

  datatype Quality = Quality(score: int, grade: Grade, latencyMs: int, failures: nat)

  /** What the score depends on besides the load; metrics are the latest twenty at most. */
  datatype Health = Health(status: ProxyStatus, agentOffline: bool, metrics: seq<Metric>)

  function GradeOf(score: int): Grade {
    if score >= 95 then APlus else if score >= 85 then A else if score >= 70 then B else if score >= 40 then C else Dead
  }

  predicate Up(m: Metric) {
    m.status == "online" || m.status == "healthy"
  }

  function TotalLatency(metrics: seq<Metric>, n: nat): nat
    requires n <= |metrics|
  {
    if n == 0 then 0
    else TotalLatency(metrics, n - 1) + (if metrics[n - 1].latencyMs > 0 then metrics[n - 1].latencyMs else 0)
  }

  function Failures(metrics: seq<Metric>, n: nat): nat
    requires n <= |metrics|
  {
    if n == 0 then 0 else Failures(metrics, n - 1) + (if Up(metrics[n - 1]) then 0 else 1)
  }

  function Latency(metrics: seq<Metric>): nat {
    if metrics == [] then 300 else TotalLatency(metrics, |metrics|) / |metrics|
  }

  /** The score before load is taken off and the result clamped. */
  function Base(h: Health): int {
    100 - (if Latency(h.metrics) / 10 < 30 then Latency(h.metrics) / 10 else 30)
    - 8 * Failures(h.metrics, |h.metrics|)
    - (if h.status == Errored || h.status == Stopped then 45 else 0)
    - (if h.agentOffline then 35 else 0)
  }

  function Clamp(score: int): int {
    if score < 0 then 0 else if score > 100 then 100 else score
  }

  function Score(h: Health, load: nat): int {
    Clamp(Base(h) - 3 * load)
  }

  /** Candidates are ranked by this: the load counts a second time. */
  function Weighted(h: Health, load: nat): int {
    Score(h, load) - 3 * load
  }

  /** CalculateQuality on the rows it reads. */
  method CalculateQuality(h: Health, load: nat) returns (q: Quality)
    ensures q == Quality(Score(h, load), GradeOf(Score(h, load)), Latency(h.metrics), Failures(h.metrics, |h.metrics|))
  {
    var latency := 300;
    var failures := 0;
    if |h.metrics| > 0 {
      var total := 0;
      for i := 0 to |h.metrics|
        invariant total == TotalLatency(h.metrics, i)
        invariant failures == Failures(h.metrics, i)
      {
        var m := h.metrics[i];
        if m.latencyMs > 0 {
          total := total + m.latencyMs;
        }
        if !(m.status == "online" || m.status == "healthy") {
          failures := failures + 1;
        }
      }
      latency := total / |h.metrics|;
    }
    var score := 100;
    score := score - (if latency / 10 < 30 then latency / 10 else 30);
    score := score - failures * 8;
    if h.status == Errored || h.status == Stopped {
      score := score - 45;
    }
    if h.agentOffline {
      score := score - 35;
    }
    score := score - load * 3;
    if score < 0 {
      score := 0;
    }
    if score > 100 {
      score := 100;
    }
    q := Quality(score, GradeOf(score), latency, failures);
  }

  lemma BaseAtMost100(h: Health)
    ensures Base(h) <= 100
  {
  }

  /** More load never raises the score, so it never turns a dead grade alive, and strictly lowers the ranking. */
  lemma LoadLowersRank(h: Health, less: nat, more: nat)
    requires less < more
    ensures Score(h, more) <= Score(h, less)
    ensures GradeOf(Score(h, less)) == Dead ==> GradeOf(Score(h, more)) == Dead
    ensures Weighted(h, more) <= Weighted(h, less) - 3 * (more - less)
  {
    BaseAtMost100(h);
  }

  /** A proxy is graded dead exactly when its base score less three per allocation falls below 40,
      so no proxy with more than 20 allocations is alive. */
  lemma DeadExactly(h: Health, load: nat)
    ensures GradeOf(Score(h, load)) == Dead <==> Base(h) - 3 * load < 40
    ensures GradeOf(Score(h, load)) != Dead ==> load <= 20
  {
    BaseAtMost100(h);
  }
}
