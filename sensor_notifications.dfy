/**
 * The spoilage-risk score and the alert deduplicator of the sensor
 * notification hook. A check raises an alert for every reading above its
 * threshold (and for a critical risk score) unless an alert with the same
 * (metric, bucket) key is still remembered; every check schedules an expiry
 * callback that forgets exactly the keys that check emitted.
 */
module SensorNotifications {

  /** A complete reading, as the hook receives it. */
  datatype Reading = Reading(temperature: real, humidity: real, gas: real, vibration: real)

  /** The fixed alert thresholds; every comparison against them is strict. */
  datatype Thresholds = Thresholds(
    temperatureHigh: real,
    humidityHigh: real,
    gasElevated: real,
    vibrationMax: real,
    spoilageCritical: int)

  const DefaultThresholds: Thresholds := Thresholds(35.0, 70.0, 0.5, 2.0, 85)

  // ---------------------------------------------------------------------
  // Spoilage risk
  // ---------------------------------------------------------------------

  /** Temperature contribution: 30 above 35, 20 above 30, 10 above 25. */
  function TemperatureRisk(t: real): (c: int)
    ensures c in {0, 10, 20, 30}
    ensures c == 0 <==> t <= 25.0
  {
    if t > 35.0 then 30 else if t > 30.0 then 20 else if t > 25.0 then 10 else 0
  }

  /** Humidity contribution: 30 above 70, 20 above 65, 10 above 60. */
  function HumidityRisk(h: real): (c: int)
    ensures c in {0, 10, 20, 30}
    ensures c == 0 <==> h <= 60.0
  {
    if h > 70.0 then 30 else if h > 65.0 then 20 else if h > 60.0 then 10 else 0
  }

  /** Gas contribution: 25 above 0.5, 15 above 0.3, 5 above 0.2. */
  function GasRisk(g: real): (c: int)
    ensures c in {0, 5, 15, 25}
    ensures c == 0 <==> g <= 0.2
  {
    if g > 0.5 then 25 else if g > 0.3 then 15 else if g > 0.2 then 5 else 0
  }

  /** Vibration contribution: 15 above 2, 10 above 1. */
  function VibrationRisk(v: real): (c: int)
    ensures c in {0, 10, 15}
    ensures c == 0 <==> v <= 1.0
  {
    if v > 2.0 then 15 else if v > 1.0 then 10 else 0
  }

  /** The accumulated risk before the final `Math.min(risk, 100)`. */
  function RawRisk(d: Reading): int
  {
    TemperatureRisk(d.temperature) + HumidityRisk(d.humidity) + GasRisk(d.gas) + VibrationRisk(d.vibration)
  }

  function Min(a: int, b: int): int
  {
    if a <= b then a else b
  }

  /** The spoilage-risk score: the four contributions, clamped at 100. */
  function SpoilageRisk(d: Reading): (risk: int)
    ensures 0 <= risk <= 100
  {
    Min(RawRisk(d), 100)
  }

  /** The score only takes multiples of 5. */
  lemma SpoilageRiskStep(d: Reading)
    ensures SpoilageRisk(d) % 5 == 0
  {
  }

  /** The clamp never bites: the contributions sum to at most 30 + 30 + 25 + 15. */
  lemma ClampNeverApplies(d: Reading)
    ensures 0 <= RawRisk(d) <= 100
    ensures SpoilageRisk(d) == RawRisk(d)
  {
  }

  /** The buckets are strict: a reading exactly on a boundary takes the lower bucket. */
  lemma BucketBoundariesAreStrict()
    ensures TemperatureRisk(35.0) == 20 && TemperatureRisk(30.0) == 10 && TemperatureRisk(25.0) == 0
    ensures HumidityRisk(70.0) == 20 && HumidityRisk(65.0) == 10 && HumidityRisk(60.0) == 0
    ensures GasRisk(0.5) == 15 && GasRisk(0.3) == 5 && GasRisk(0.2) == 0
    ensures VibrationRisk(2.0) == 10 && VibrationRisk(1.0) == 0
  {
  }

  /** Two worked scores: one hot reading alone, and every metric in its top bucket. */
  lemma ExampleScores()
    ensures SpoilageRisk(Reading(36.0, 50.0, 0.0, 0.0)) == 30
    ensures SpoilageRisk(Reading(40.0, 75.0, 0.6, 2.5)) == 100
  {
  }

  /** Each contribution is monotone in its reading. */
  lemma ContributionsMonotone(a: real, b: real)
    requires a <= b
    ensures TemperatureRisk(a) <= TemperatureRisk(b)
    ensures HumidityRisk(a) <= HumidityRisk(b)
    ensures GasRisk(a) <= GasRisk(b)
    ensures VibrationRisk(a) <= VibrationRisk(b)
  {
  }

  /** Raising readings never lowers the score. */
  lemma SpoilageRiskMonotone(d: Reading, e: Reading)
    requires d.temperature <= e.temperature && d.humidity <= e.humidity
    requires d.gas <= e.gas && d.vibration <= e.vibration
    ensures SpoilageRisk(d) <= SpoilageRisk(e)
  {
    ContributionsMonotone(d.temperature, e.temperature);
    ContributionsMonotone(d.humidity, e.humidity);
    ContributionsMonotone(d.gas, e.gas);
    ContributionsMonotone(d.vibration, e.vibration);
  }

  /** A score above the critical threshold is one of 90, 95 or 100. */
  lemma CriticalScores(d: Reading)
    ensures SpoilageRisk(d) > DefaultThresholds.spoilageCritical <==> SpoilageRisk(d) in {90, 95, 100}
  {
    SpoilageRiskStep(d);
  }

  // ---------------------------------------------------------------------
  // Alert keys
  // ---------------------------------------------------------------------

  datatype Metric = Temperature | Humidity | Gas | Vibration | Spoilage

  /**
   * The identity of an alert: the metric (the key's text prefix) and the
   * bucket of the reading. Distinct prefixes make keys of different metrics
   * distinct, so the pair stands for the key text.
   */
  datatype AlertKey = AlertKey(metric: Metric, bucket: int)

  function Pow10(n: nat): (p: nat)
    ensures p >= 1
  {
    if n == 0 then 1 else 10 * Pow10(n - 1)
  }

  /**
   * For non-negative x, the integer n such that `x.toFixed(places)` prints
   * n / 10^places: the nearest one to x * 10^places, the larger one on a tie.
   */
  function Fixed(x: real, places: nat): (n: int)
    requires x >= 0.0
    ensures n as real - 0.5 <= x * Pow10(places) as real < n as real + 0.5
  {
    (x * Pow10(places) as real + 0.5).Floor
  }

  /** Whether a reading violates the alert threshold of a metric. */
  predicate Violates(d: Reading, m: Metric)
  {
    match m
    case Temperature => d.temperature > DefaultThresholds.temperatureHigh
    case Humidity => d.humidity > DefaultThresholds.humidityHigh
    case Gas => d.gas > DefaultThresholds.gasElevated
    case Vibration => d.vibration > DefaultThresholds.vibrationMax
    case Spoilage => SpoilageRisk(d) > DefaultThresholds.spoilageCritical
  }

  /**
   * The key an alert on metric `m` gets for reading `d`; the hook builds it
   * only for a violation. The bucket is the whole degree or percent for
   * temperature and humidity, the nearest hundredth of gas, the nearest
   * tenth of vibration and the score itself for spoilage.
   */
  function KeyOf(d: Reading, m: Metric): (k: AlertKey)
    requires Violates(d, m)
    ensures k.metric == m
    ensures m == Temperature ==> k.bucket as real <= d.temperature < k.bucket as real + 1.0
    ensures m == Humidity ==> k.bucket as real <= d.humidity < k.bucket as real + 1.0
    ensures m == Gas ==> k.bucket as real - 0.5 <= d.gas * 100.0 < k.bucket as real + 0.5
    ensures m == Vibration ==> k.bucket as real - 0.5 <= d.vibration * 10.0 < k.bucket as real + 0.5
    ensures m == Spoilage ==> k.bucket in {90, 95, 100}
  {
    CriticalScores(d);
    match m
    case Temperature => AlertKey(Temperature, d.temperature.Floor)
    case Humidity => AlertKey(Humidity, d.humidity.Floor)
    case Gas => AlertKey(Gas, Fixed(d.gas, 2))
    case Vibration => AlertKey(Vibration, Fixed(d.vibration, 1))
    case Spoilage => AlertKey(Spoilage, SpoilageRisk(d))
  }

  /** `k` is the key of a violation present in `d`. */
  predicate IsCandidate(d: Reading, k: AlertKey)
  {
    Violates(d, k.metric) && k == KeyOf(d, k.metric)
  }

  predicate NoDuplicates(s: seq<AlertKey>)
  {
    forall i, j :: 0 <= i < j < |s| ==> s[i] != s[j]
  }

  function Elements(s: seq<AlertKey>): set<AlertKey>
  {
    set k | k in s
  }

  /** The alert on metric `m`, if `d` violates it and its key is not yet notified. */
  function AlertOn(d: Reading, notified: set<AlertKey>, m: Metric): seq<AlertKey>
  {
    if Violates(d, m) && KeyOf(d, m) !in notified then [KeyOf(d, m)] else []
  }

  /**
   * The keys one check emits, in the order the hook tests the metrics: the
   * specification of `AlertDeduplicator.Collect`.
   */
  function Alerts(d: Reading, notified: set<AlertKey>): seq<AlertKey>
  {
    AlertOn(d, notified, Temperature) + AlertOn(d, notified, Humidity) + AlertOn(d, notified, Gas)
      + AlertOn(d, notified, Vibration) + AlertOn(d, notified, Spoilage)
  }

  lemma AlertOnMeaning(d: Reading, notified: set<AlertKey>, m: Metric)
    ensures |AlertOn(d, notified, m)| <= 1
    ensures forall k :: k in AlertOn(d, notified, m) <==> k.metric == m && IsCandidate(d, k) && k !in notified
  {
  }

  /** A check emits every candidate of the reading that is not already notified, and nothing else. */
  lemma AlertsAreNewCandidates(d: Reading, notified: set<AlertKey>)
    ensures forall k :: k in Alerts(d, notified) <==> IsCandidate(d, k) && k !in notified
  {
    AlertOnMeaning(d, notified, Temperature);
    AlertOnMeaning(d, notified, Humidity);
    AlertOnMeaning(d, notified, Gas);
    AlertOnMeaning(d, notified, Vibration);
    AlertOnMeaning(d, notified, Spoilage);
  }

  /** Joining two duplicate-free sequences with no key in common gives a duplicate-free sequence. */
  lemma DisjointConcat(a: seq<AlertKey>, b: seq<AlertKey>)
    requires NoDuplicates(a) && NoDuplicates(b)
    requires forall k :: k in a ==> k !in b
    ensures NoDuplicates(a + b)
  {
    var ab := a + b;
    forall i, j | 0 <= i < j < |ab| ensures ab[i] != ab[j] {
      if i < |a| <= j {
        assert ab[i] in a && ab[j] in b;
      }
    }
  }

  /** The keys of one check are pairwise distinct: each metric contributes at most one. */
  lemma AlertsAreDistinct(d: Reading, notified: set<AlertKey>)
    ensures NoDuplicates(Alerts(d, notified))
  {
    var t := AlertOn(d, notified, Temperature);
    var h := AlertOn(d, notified, Humidity);
    var g := AlertOn(d, notified, Gas);
    var v := AlertOn(d, notified, Vibration);
    var sp := AlertOn(d, notified, Spoilage);
    AlertOnMeaning(d, notified, Temperature);
    AlertOnMeaning(d, notified, Humidity);
    AlertOnMeaning(d, notified, Gas);
    AlertOnMeaning(d, notified, Vibration);
    AlertOnMeaning(d, notified, Spoilage);
    DisjointConcat(t, h);
    DisjointConcat(t + h, g);
    DisjointConcat(t + h + g, v);
    DisjointConcat(t + h + g + v, sp);
  }

  /** A reading exactly on every threshold raises no alert. */
  lemma ThresholdsAreStrict()
    ensures Alerts(Reading(35.0, 70.0, 0.5, 2.0), {}) == []
  {
    assert SpoilageRisk(Reading(35.0, 70.0, 0.5, 2.0)) == 65;
  }

  /** Checking again before anything expires emits nothing. */
  lemma RecheckIsSilent(d: Reading, notified: set<AlertKey>)
    ensures Alerts(d, notified + Elements(Alerts(d, notified))) == []
  {
    var after := notified + Elements(Alerts(d, notified));
    AlertsAreNewCandidates(d, notified);
    AlertsAreNewCandidates(d, after);
    forall m: Metric ensures AlertOn(d, after, m) == [] {
      if Violates(d, m) && KeyOf(d, m) !in notified {
        assert KeyOf(d, m) in Alerts(d, notified);
      }
    }
  }

  /**
   * Once the batch a check emitted expires, the same persisting reading
   * emits that batch again, each key once.
   */
  lemma ExpiryReAlerts(d: Reading, notified: set<AlertKey>)
    ensures var batch := Elements(Alerts(d, notified));
            Alerts(d, (notified + batch) - batch) == Alerts(d, notified)
  {
    var batch := Elements(Alerts(d, notified));
    assert (notified + batch) - batch == notified;
  }

  // ---------------------------------------------------------------------
  // The deduplicator
  // ---------------------------------------------------------------------

  /** Key `k` belongs to some batch still waiting for its expiry callback. */
  ghost predicate Pending(batches: seq<seq<AlertKey>>, k: AlertKey)
  {
    exists i :: 0 <= i < |batches| && k in batches[i]
  }

  /**
   * `notified` is the disjoint union of `batches`: every batch is free of
   * duplicates, no key is in two batches, and a key is notified exactly when
   * some batch holds it.
   */
  ghost predicate Partitions(notified: set<AlertKey>, batches: seq<seq<AlertKey>>)
  {
    && (forall i :: 0 <= i < |batches| ==> NoDuplicates(batches[i]))
    && (forall i, j, k :: 0 <= i < j < |batches| && k in batches[i] ==> k !in batches[j])
    && (forall k :: k in notified <==> Pending(batches, k))
  }

  /** Scheduling the batch of a check keeps the partition. */
  lemma {:induction false} ScheduleKeepsPartition(notified: set<AlertKey>, batches: seq<seq<AlertKey>>, emitted: seq<AlertKey>)
    requires Partitions(notified, batches)
    requires NoDuplicates(emitted)
    requires forall k :: k in emitted ==> k !in notified
    ensures Partitions(notified + Elements(emitted), batches + [emitted])
  {
    var after := batches + [emitted];
    forall i, j, k | 0 <= i < j < |after| && k in after[i] ensures k !in after[j] {
      if j == |batches| {
        assert after[i] == batches[i];
        assert Pending(batches, k);
      }
    }
    forall k ensures k in notified + Elements(emitted) <==> Pending(after, k) {
      if k in notified {
        var i :| 0 <= i < |batches| && k in batches[i];
        assert k in after[i];
      }
      if k in emitted {
        assert k in after[|batches|];
      }
      if Pending(after, k) {
        var i :| 0 <= i < |after| && k in after[i];
        if i < |batches| {
          assert k in batches[i];
        }
      }
    }
  }

  /** Running the callback of batch `i` removes exactly that batch's keys and keeps the partition. */
  lemma {:induction false} ExpiryKeepsPartition(notified: set<AlertKey>, batches: seq<seq<AlertKey>>, i: nat)
    requires Partitions(notified, batches)
    requires i < |batches|
    ensures Partitions(notified - Elements(batches[i]), batches[..i] + batches[i + 1..])
  {
    var after := batches[..i] + batches[i + 1..];
    assert forall j :: 0 <= j < |after| ==> after[j] == batches[if j < i then j else j + 1];
    forall k ensures k in notified - Elements(batches[i]) <==> Pending(after, k) {
      if k in notified && k !in batches[i] {
        var j :| 0 <= j < |batches| && k in batches[j];
        assert k in after[if j < i then j else j - 1];
      }
      if Pending(after, k) {
        var j :| 0 <= j < |after| && k in after[j];
        var src := if j < i then j else j + 1;
        assert k in batches[src];
        assert Pending(batches, k);
        if src < i {
          assert k !in batches[i];
        } else {
          assert k !in batches[i];
        }
      }
    }
  }

  /**
   * The notified set of one hook instance and the expiry callbacks it has
   * scheduled. A callback removes the keys of its own check; the event loop
   * runs callbacks in any order, modelled by `Fire`.
   */
  class AlertDeduplicator {
    /** The keys whose alerts are suppressed. */
    var notified: set<AlertKey>
    /** For each scheduled, not yet run expiry callback: the keys its check emitted. */
    var timers: seq<seq<AlertKey>>

    /** The notified set is exactly the disjoint union of the pending batches. */
    ghost predicate Valid()
      reads this
    {
      Partitions(notified, timers)
    }

    constructor ()
      ensures Valid()
      ensures notified == {} && timers == []
    {
      notified := {};
      timers := [];
    }

    /** The alerts the check collects: each violation whose key is not yet notified. */
    method Collect(d: Reading) returns (notifications: seq<AlertKey>)
      ensures notifications == Alerts(d, notified)
    {
      notifications := [];
      if d.temperature > DefaultThresholds.temperatureHigh {
        var key := AlertKey(Temperature, d.temperature.Floor);
        if key !in notified {
          notifications := notifications + [key];
        }
      }
      assert notifications == AlertOn(d, notified, Temperature);
      if d.humidity > DefaultThresholds.humidityHigh {
        var key := AlertKey(Humidity, d.humidity.Floor);
        if key !in notified {
          notifications := notifications + [key];
        }
      }
      assert notifications == AlertOn(d, notified, Temperature) + AlertOn(d, notified, Humidity);
      if d.gas > DefaultThresholds.gasElevated {
        var key := AlertKey(Gas, Fixed(d.gas, 2));
        if key !in notified {
          notifications := notifications + [key];
        }
      }
      assert notifications == AlertOn(d, notified, Temperature) + AlertOn(d, notified, Humidity) + AlertOn(d, notified, Gas);
      if d.vibration > DefaultThresholds.vibrationMax {
        var key := AlertKey(Vibration, Fixed(d.vibration, 1));
        if key !in notified {
          notifications := notifications + [key];
        }
      }
      assert notifications == AlertOn(d, notified, Temperature) + AlertOn(d, notified, Humidity) + AlertOn(d, notified, Gas) + AlertOn(d, notified, Vibration);
      var spoilageRisk := SpoilageRisk(d);
      if spoilageRisk > DefaultThresholds.spoilageCritical {
        var key := AlertKey(Spoilage, spoilageRisk);
        if key !in notified {
          notifications := notifications + [key];
        }
      }
      assert notifications == AlertOn(d, notified, Temperature) + AlertOn(d, notified, Humidity) + AlertOn(d, notified, Gas) + AlertOn(d, notified, Vibration) + AlertOn(d, notified, Spoilage);
    }

    /**
     * Sends the collected notifications: marks each key as notified and
     * schedules the callback that will forget exactly these keys.
     */
    method Send(notifications: seq<AlertKey>)
      requires Valid()
      requires NoDuplicates(notifications)
      requires forall k :: k in notifications ==> k !in notified
      modifies this
      ensures Valid()
      ensures notified == old(notified) + Elements(notifications)
      ensures timers == old(timers) + [notifications]
    {
      ghost var before, pending := notified, timers;
      var i := 0;
      while i < |notifications|
        invariant 0 <= i <= |notifications|
        invariant notified == before + Elements(notifications[..i])
        invariant timers == pending
      {
        assert notifications[..i + 1] == notifications[..i] + [notifications[i]];
        notified := notified + {notifications[i]};
        i := i + 1;
      }
      assert notifications[..i] == notifications;
      timers := timers + [notifications];
      ScheduleKeepsPartition(before, pending, notifications);
    }

    /**
     * One run of the check: emits the alerts of `d` not yet notified, adds
     * their keys to the set and schedules their expiry.
     */
    method Check(d: Reading) returns (emitted: seq<AlertKey>)
      requires Valid()
      modifies this
      ensures Valid()
      ensures emitted == Alerts(d, old(notified))
      ensures notified == old(notified) + Elements(emitted)
      ensures timers == old(timers) + [emitted]
    {
      emitted := Collect(d);
      AlertsAreNewCandidates(d, notified);
      AlertsAreDistinct(d, notified);
      Send(emitted);
    }

    /**
     * The expiry callback of the `i`-th pending check runs: its keys are
     * removed, every other key stays.
     */
    method Fire(i: nat)
      requires Valid()
      requires i < |timers|
      modifies this
      ensures Valid()
      ensures notified == old(notified) - Elements(old(timers)[i])
      ensures forall k :: k !in old(timers)[i] ==> (k in notified <==> k in old(notified))
      ensures timers == old(timers)[..i] + old(timers)[i + 1..]
    {
      ExpiryKeepsPartition(notified, timers, i);
      var batch := timers[i];
      var j := 0;
      while j < |batch|
        invariant 0 <= j <= |batch|
        invariant notified == old(notified) - Elements(batch[..j])
        invariant timers == old(timers)
      {
        notified := notified - {batch[j]};
        j := j + 1;
      }
      assert batch[..j] == batch;
      timers := timers[..i] + timers[i + 1..];
    }
  }

  /**
   * A violating reading checked twice in a row alerts once; after the first
   * check's batch expires, the same reading alerts again with the same keys.
   */
  method RepeatedViolation(d: Reading) returns (first: seq<AlertKey>, second: seq<AlertKey>, third: seq<AlertKey>)
    ensures first == Alerts(d, {})
    ensures second == []
    ensures third == first
  {
    var dedup := new AlertDeduplicator();
    first := dedup.Check(d);
    second := dedup.Check(d);
    RecheckIsSilent(d, {});
    dedup.Fire(0);
    ExpiryReAlerts(d, {});
    third := dedup.Check(d);
  }
}
