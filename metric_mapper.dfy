/** The table-driven mapper `populateMetrics` (src/metrics.go:150-180) and the part of the
    SDK's metric set it writes into. */
module MetricMapper {
  import opened Common
  import opened Definitions

  /** A metric as the metric set stores it. */
  datatype Sample = Sample(value: Json, kind: Kind)

  /** The SDK's `metric.Set`. Whether `SetMetric` accepts a value (its coercion to a number,
      its need for a previous sample) is SDK code, given here as the fixed predicate
      `accepts`; an accepted value is stored under its name, a refused one changes nothing. */
  class MetricSet {
    const accepts: (string, Json, Kind) -> bool
    var metrics: map<string, Sample>

    constructor (accepts: (string, Json, Kind) -> bool)
      ensures this.accepts == accepts && metrics == map[]
    {
      this.accepts := accepts;
      metrics := map[];
    }

    method SetMetric(name: string, value: Json, kind: Kind) returns (ok: bool)
      modifies this
      ensures ok == accepts(name, value, kind)
      ensures metrics == if ok then old(metrics)[name := Sample(value, kind)] else old(metrics)
    {
      ok := accepts(name, value, kind);
      if ok {
        metrics := metrics[name := Sample(value, kind)];
      }
    }
  }

  /** The metric set after one `SetMetric` call; `MetricSet.SetMetric` is its in-place form. */
  function Put(metrics: map<string, Sample>, name: string, v: Json, kind: Kind,
               accepts: (string, Json, Kind) -> bool): map<string, Sample>
  {
    if accepts(name, v, kind) then metrics[name := Sample(v, kind)] else metrics
  }

  /** The `switch` on a definition's source: a key resolves when it is in the bag (whatever
      its value), a function when it reports success. */
  function Resolve(source: Source, metrics: Bag): (r: Option<Json>)
    ensures source.FromKey? ==> (r.Some? <==> source.key in metrics)
    ensures source.FromKey? && r.Some? ==> r.value == metrics[source.key]
    ensures source.FromFn? ==> (r.Some? <==> Derive(source.fn, metrics).1)
    ensures source.FromFn? && r.Some? ==> r.value == JInt(Derive(source.fn, metrics).0)
  {
    match source
    case FromKey(key) => if key in metrics then Some(metrics[key]) else None
    case FromFn(fn) =>
      var (v, ok) := Derive(fn, metrics);
      if ok then Some(JInt(v)) else None
  }

  /** Whether the definition of `name` resolves and the set accepts the value. */
  predicate Lands(name: string, metrics: Bag, table: Table, accepts: (string, Json, Kind) -> bool)
    requires name in table
  {
    var r := Resolve(table[name].source, metrics);
    r.Some? && accepts(name, r.value, table[name].kind)
  }

  /** What trying the definitions of `names` adds to a metric set. */
  function Populated(metrics: Bag, table: Table, names: set<string>,
                     accepts: (string, Json, Kind) -> bool): map<string, Sample>
  {
    map name | name in names && name in table && Lands(name, metrics, table, accepts)
      :: Sample(Resolve(table[name].source, metrics).value, table[name].kind)
  }

  /** Trying one more definition extends what the others added by that definition's metric,
      or by nothing. */
  lemma PopulatedStep(metrics: Bag, table: Table, names: set<string>, name: string,
                      accepts: (string, Json, Kind) -> bool)
    requires name in table && name !in names
    ensures Populated(metrics, table, names + {name}, accepts) ==
      if Lands(name, metrics, table, accepts)
      then Populated(metrics, table, names, accepts)[name :=
             Sample(Resolve(table[name].source, metrics).value, table[name].kind)]
      else Populated(metrics, table, names, accepts)
  {
  }

  /** The metric set after trying one more definition, given the set before it. */
  lemma PopulateAdvance(metrics: Bag, table: Table, done: set<string>, name: string,
                        accepts: (string, Json, Kind) -> bool, base: map<string, Sample>,
                        current: map<string, Sample>)
    requires name in table && name !in done
    requires current == base + Populated(metrics, table, done, accepts)
    ensures base + Populated(metrics, table, done + {name}, accepts) ==
      if Lands(name, metrics, table, accepts)
      then current[name := Sample(Resolve(table[name].source, metrics).value, table[name].kind)]
      else current
  {
    PopulatedStep(metrics, table, done, name, accepts);
  }

  /** `populateMetrics`: tries every definition of `table` in the map's unspecified order and
      never stops early; unresolved sources and refused values are skipped. */
  method PopulateMetrics(sample: MetricSet, metrics: Bag, table: Table) returns (err: Option<string>)
    modifies sample
    ensures err == None
    ensures sample.metrics == old(sample.metrics) + Populated(metrics, table, table.Keys, sample.accepts)
  {
    var remaining := table.Keys;
    ghost var done: set<string> := {};
    ghost var base := sample.metrics;
    while remaining != {}
      invariant done !! remaining && done + remaining == table.Keys
      invariant sample.metrics == base + Populated(metrics, table, done, sample.accepts)
      decreases |remaining|
    {
      var name :| name in remaining;
      PopulateAdvance(metrics, table, done, name, sample.accepts, base, sample.metrics);
      remaining := remaining - {name};
      done := done + {name};
      var raw := Resolve(table[name].source, metrics);
      if raw.None? {
        continue;
      }
      var ok := sample.SetMetric(name, raw.value, table[name].kind);
    }
    return None;
  }

  /** A metric name is written only for a definition whose source resolved and whose value
      the set accepted, with that value and the table's kind. */
  lemma {:induction false} PopulatedOnlyResolved(metrics: Bag, table: Table, name: string,
                                                 accepts: (string, Json, Kind) -> bool)
    requires name in Populated(metrics, table, table.Keys, accepts)
    ensures name in table
    ensures Resolve(table[name].source, metrics).Some?
    ensures accepts(name, Resolve(table[name].source, metrics).value, table[name].kind)
    ensures Populated(metrics, table, table.Keys, accepts)[name] ==
      Sample(Resolve(table[name].source, metrics).value, table[name].kind)
  {
  }

  /** Every definition that resolves and is accepted is written, whatever the others do. */
  lemma PopulatedComplete(metrics: Bag, table: Table, name: string,
                          accepts: (string, Json, Kind) -> bool)
    requires name in table && Lands(name, metrics, table, accepts)
    ensures name in Populated(metrics, table, table.Keys, accepts)
  {
  }

  /** A definition that does not resolve leaves every other metric as it was: `populateMetrics`
      does not short-circuit. */
  lemma UnresolvedIgnored(metrics: Bag, table: Table, name: string, d: Definition,
                          accepts: (string, Json, Kind) -> bool)
    requires name !in table && Resolve(d.source, metrics).None?
    ensures Populated(metrics, table[name := d], table.Keys + {name}, accepts) ==
      Populated(metrics, table, table.Keys, accepts)
  {
    var t := table[name := d];
    assert forall n :: n in table ==> t[n] == table[n];
  }
}
