/**
 The collection loop of the gatherer's `main`: for every system, in order,
 append a fresh record `{"name": system}`; then, for every plugin, in order,
 call `gather(plugin, system)` and either store the value under the plugin's
 key in the newest record or, when the call raises, log a diagnostic and
 append `"plugin:system"` to the failure list.

 The functions below say what the loop computes; `CollectMachineData` is
 the loop itself, proved against them; the lemmas state what the records,
 the call order and the failure list mean.
 */
module Collection {
  import opened External

  /** One machine record: a dictionary from keys to JSON values. */
  type Record = map<string, Json>

  const NameKey: string := "name"

  /** The record appended for a system before any plugin runs. */
  function NewRecord(system: string): (r: Record)
    ensures r.Keys == {NameKey} && r[NameKey] == JStr(system)
  {
    map[NameKey := JStr(system)]
  }

  /** What one gather call does to the newest record. */
  function Apply(record: Record, plugin: string, outcome: GatherOutcome): Record
  {
    match outcome
    case Gathered(v) => record[plugin := v]
    case Raised => record
  }

  /** The record of `system` once the calls for `plugins` have been made. */
  function RecordAfter(system: string, plugins: seq<string>, gather: Gather): Record
    decreases |plugins|
  {
    if plugins == [] then NewRecord(system)
    else
      var n := |plugins| - 1;
      Apply(RecordAfter(system, plugins[..n], gather), plugins[n], gather(plugins[n], system))
  }

  /** The finished records: one per system, in the order of `systems`. */
  function Machines(systems: seq<string>, plugins: seq<string>, gather: Gather): seq<Record>
  {
    seq(|systems|, i requires 0 <= i < |systems| => RecordAfter(systems[i], plugins, gather))
  }

  /** The calls made for one system, in plugin order. */
  function Row(system: string, plugins: seq<string>): seq<Call>
  {
    seq(|plugins|, j requires 0 <= j < |plugins| => Call(plugins[j], system))
  }

  /** All calls of the loop, system by system. */
  function Pairs(systems: seq<string>, plugins: seq<string>): seq<Call>
    decreases |systems|
  {
    if systems == [] then []
    else
      var n := |systems| - 1;
      Pairs(systems[..n], plugins) + Row(systems[n], plugins)
  }

  predicate Fails(c: Call, gather: Gather)
  {
    gather(c.plugin, c.system).Raised?
  }

  predicate Succeeds(plugin: string, system: string, gather: Gather)
  {
    gather(plugin, system).Gathered?
  }

  /** The calls among `calls` that raise, in the order they are made. */
  function Failed(calls: seq<Call>, gather: Gather): seq<Call>
    decreases |calls|
  {
    if calls == [] then []
    else
      var n := |calls| - 1;
      Failed(calls[..n], gather) + (if Fails(calls[n], gather) then [calls[n]] else [])
  }

  /** The failure identifier `"plugin:system"`. */
  function Tag(c: Call): string
  {
    c.plugin + ":" + c.system
  }

  function Tags(calls: seq<Call>): seq<string>
  {
    seq(|calls|, k requires 0 <= k < |calls| => Tag(calls[k]))
  }

  /** The level-0 diagnostic logged when a call raises. */
  function FailureLog(c: Call): LogCall
  {
    LogCall(["Failed to gather machine_data for " + c.system], Some(0))
  }

  function FailureLogs(calls: seq<Call>): seq<LogCall>
  {
    seq(|calls|, k requires 0 <= k < |calls| => FailureLog(calls[k]))
  }

  /** The value a record holds under `key`: the plugin's value when its call succeeded, the system's name otherwise. */
  function ExpectedValue(system: string, plugins: seq<string>, gather: Gather, key: string): Json
  {
    if key in plugins && Succeeds(key, system, gather) then gather(key, system).value else JStr(system)
  }

  /** The failure list and the log record exactly the failed calls among `calls`, in order. */
  predicate Accounted(calls: seq<Call>, failures: seq<string>, log: seq<LogCall>, gather: Gather)
  {
    failures == Tags(Failed(calls, gather)) && log == FailureLogs(Failed(calls, gather))
  }

  /**
   The collection loop. `calls` lists the gather calls in the order they
   are made; `log` lists the level-0 diagnostics logged by the loop.
   */
  method CollectMachineData(systems: seq<string>, plugins: seq<string>, gather: Gather)
    returns (machineData: seq<Record>, failures: seq<string>, calls: seq<Call>, log: seq<LogCall>)
    ensures calls == Pairs(systems, plugins)
    ensures machineData == Machines(systems, plugins, gather)
    ensures failures == Tags(Failed(calls, gather))
    ensures log == FailureLogs(Failed(calls, gather))
  {
    machineData, failures, calls, log := [], [], [], [];
    for i := 0 to |systems|
      invariant machineData == Machines(systems[..i], plugins, gather)
      invariant calls == Pairs(systems[..i], plugins)
      invariant Accounted(calls, failures, log, gather)
    {
      var system := systems[i];
      machineData := machineData + [NewRecord(system)];
      ghost var before := calls;
      for j := 0 to |plugins|
        invariant machineData == Machines(systems[..i], plugins, gather) + [RecordAfter(system, plugins[..j], gather)]
        invariant calls == before + Row(system, plugins[..j])
        invariant Accounted(calls, failures, log, gather)
      {
        var plugin := plugins[j];
        var outcome := gather(plugin, system);
        var c := Call(plugin, system);
        ExtendTrace(calls, c, gather);
        RowStep(system, plugins, j);
        RecordStep(system, plugins, gather, j);
        calls := calls + [c];
        if outcome.Gathered? {
          // machine_data[-1][plugin] = value
          var updated := machineData[i][plugin := outcome.value];
          UpdateNewest(Machines(systems[..i], plugins, gather), machineData[i], updated);
          machineData := machineData[i := updated];
        } else {
          log := log + [FailureLog(c)];
          failures := failures + [Tag(c)];
        }
      }
      assert plugins[..|plugins|] == plugins;
      assert systems[..i + 1][..i] == systems[..i];
      MachinesStep(systems, plugins, gather, i);
    }
    assert systems[..|systems|] == systems;
  }


  /** One more call extends the failure list and the log by that call's entry exactly when it raises. */
  lemma ExtendTrace(calls: seq<Call>, c: Call, gather: Gather)
    ensures Failed(calls + [c], gather) == Failed(calls, gather) + (if Fails(c, gather) then [c] else [])
    ensures Tags(Failed(calls + [c], gather)) == Tags(Failed(calls, gather)) + (if Fails(c, gather) then [Tag(c)] else [])
    ensures FailureLogs(Failed(calls + [c], gather))
            == FailureLogs(Failed(calls, gather)) + (if Fails(c, gather) then [FailureLog(c)] else [])
  {
    assert (calls + [c])[..|calls|] == calls;
  }

  lemma RowStep(system: string, plugins: seq<string>, j: nat)
    requires j < |plugins|
    ensures Row(system, plugins[..j + 1]) == Row(system, plugins[..j]) + [Call(plugins[j], system)]
  {
    assert plugins[..j + 1][..j] == plugins[..j];
  }

  lemma RecordStep(system: string, plugins: seq<string>, gather: Gather, j: nat)
    requires j < |plugins|
    ensures RecordAfter(system, plugins[..j + 1], gather)
            == Apply(RecordAfter(system, plugins[..j], gather), plugins[j], gather(plugins[j], system))
  {
    assert plugins[..j + 1][..j] == plugins[..j];
  }

  lemma UpdateNewest(done: seq<Record>, newest: Record, r: Record)
    ensures (done + [newest])[|done| := r] == done + [r]
  {
  }

  lemma MachinesStep(systems: seq<string>, plugins: seq<string>, gather: Gather, i: nat)
    requires i < |systems|
    ensures Machines(systems[..i + 1], plugins, gather)
            == Machines(systems[..i], plugins, gather) + [RecordAfter(systems[i], plugins, gather)]
  {
  }

  /** Every key of a record is `name` or a plugin whose call succeeded, and each of those is a key. */
  lemma {:induction false} RecordKeys(system: string, plugins: seq<string>, gather: Gather)
    ensures RecordAfter(system, plugins, gather).Keys
            == {NameKey} + set p | p in plugins && Succeeds(p, system, gather)
    decreases |plugins|
  {
    if plugins != [] {
      var n := |plugins| - 1;
      RecordKeys(system, plugins[..n], gather);
      var before := set p | p in plugins[..n] && Succeeds(p, system, gather);
      var after := set p | p in plugins && Succeeds(p, system, gather);
      assert plugins == plugins[..n] + [plugins[n]];
      if Succeeds(plugins[n], system, gather) {
        assert after == before + {plugins[n]};
      } else {
        assert after == before;
      }
    }
  }

  /** Each key holds the value of the plugin's successful call, or the system's name when no call for it succeeded. */
  lemma {:induction false} RecordValues(system: string, plugins: seq<string>, gather: Gather)
    ensures forall k :: k in RecordAfter(system, plugins, gather) ==>
              RecordAfter(system, plugins, gather)[k] == ExpectedValue(system, plugins, gather, k)
    decreases |plugins|
  {
    if plugins != [] {
      var n := |plugins| - 1;
      RecordValues(system, plugins[..n], gather);
      RecordKeys(system, plugins[..n], gather);
      assert plugins == plugins[..n] + [plugins[n]];
      var r := RecordAfter(system, plugins, gather);
      forall k | k in r
        ensures r[k] == ExpectedValue(system, plugins, gather, k)
      {
        if k != plugins[n] {
          assert k in plugins <==> k in plugins[..n];
        }
      }
    }
  }

  /** The `name` field keeps the system's name unless a plugin called `name` succeeds. */
  lemma {:induction false} NameSurvives(system: string, plugins: seq<string>, gather: Gather)
    ensures NameKey in RecordAfter(system, plugins, gather)
    ensures NameKey !in plugins || !Succeeds(NameKey, system, gather) ==>
              RecordAfter(system, plugins, gather)[NameKey] == JStr(system)
  {
    RecordKeys(system, plugins, gather);
    RecordValues(system, plugins, gather);
  }

  /** The loop makes `|systems| * |plugins|` calls. */
  lemma {:induction false} PairsLength(systems: seq<string>, plugins: seq<string>)
    ensures |Pairs(systems, plugins)| == |systems| * |plugins|
    decreases |systems|
  {
    if systems != [] {
      var n := |systems| - 1;
      PairsLength(systems[..n], plugins);
      MulSucc(n, |plugins|);
    }
  }

  /** Call number `i * |plugins| + j`, counting from 0, is plugin `j` for system `i`. */
  lemma {:induction false} PairsAt(systems: seq<string>, plugins: seq<string>, i: nat, j: nat)
    requires i < |systems| && j < |plugins|
    ensures i * |plugins| + j < |Pairs(systems, plugins)|
    ensures Pairs(systems, plugins)[i * |plugins| + j] == Call(plugins[j], systems[i])
    decreases |systems|
  {
    var n := |systems| - 1;
    var m := |plugins|;
    var prefix := systems[..n];
    PairsLength(prefix, plugins);
    PairsLength(systems, plugins);
    var k := i * m + j;
    if i < n {
      PairsAt(prefix, plugins, i, j);
      assert prefix[i] == systems[i];
      assert k < |Pairs(prefix, plugins)|;
    } else {
      assert k == n * m + j;
      assert Row(systems[n], plugins)[j] == Call(plugins[j], systems[i]);
    }
  }

  /** The calls are made system by system and, within a system, plugin by plugin. */
  lemma PairsIndex(systems: seq<string>, plugins: seq<string>)
    ensures |Pairs(systems, plugins)| == |systems| * |plugins|
    ensures forall i, j :: 0 <= i < |systems| && 0 <= j < |plugins| ==> CallAt(systems, plugins, i, j)
  {
    PairsLength(systems, plugins);
    forall i, j | 0 <= i < |systems| && 0 <= j < |plugins|
      ensures CallAt(systems, plugins, i, j)
    {
      PairsAt(systems, plugins, i, j);
    }
  }

  /** Call number `i * |plugins| + j`, counting from 0, is plugin `j` for system `i`. */
  predicate CallAt(systems: seq<string>, plugins: seq<string>, i: nat, j: nat)
    requires i < |systems| && j < |plugins|
  {
    var k := i * |plugins| + j;
    k < |Pairs(systems, plugins)| && Pairs(systems, plugins)[k] == Call(plugins[j], systems[i])
  }

  lemma MulSucc(a: nat, m: nat)
    ensures (a + 1) * m == a * m + m
  {
  }

  /** A call is made exactly when its system is one of the systems and its plugin one of the plugins. */
  lemma {:induction false} PairsMembers(systems: seq<string>, plugins: seq<string>, c: Call)
    ensures c in Pairs(systems, plugins) <==> c.system in systems && c.plugin in plugins
    decreases |systems|
  {
    if systems != [] {
      var n := |systems| - 1;
      PairsMembers(systems[..n], plugins, c);
      assert systems == systems[..n] + [systems[n]];
      var row := Row(systems[n], plugins);
      if c.system == systems[n] && c.plugin in plugins {
        var j :| 0 <= j < |plugins| && plugins[j] == c.plugin;
        assert row[j] == c;
      }
    }
  }

  /** The failed calls are exactly the calls that raise. */
  lemma {:induction false} FailedMembers(calls: seq<Call>, gather: Gather, c: Call)
    ensures c in Failed(calls, gather) <==> c in calls && Fails(c, gather)
    decreases |calls|
  {
    if calls != [] {
      var n := |calls| - 1;
      FailedMembers(calls[..n], gather, c);
      assert calls == calls[..n] + [calls[n]];
    }
  }

  /** The number of failed calls equals the number of positions in the call trace whose call raises. */
  lemma {:induction false} FailedCount(calls: seq<Call>, gather: Gather)
    ensures |Failed(calls, gather)| == |set k | 0 <= k < |calls| && Fails(calls[k], gather)|
    decreases |calls|
  {
    var all := set k | 0 <= k < |calls| && Fails(calls[k], gather);
    if calls != [] {
      var n := |calls| - 1;
      var prefix := calls[..n];
      FailedCount(prefix, gather);
      var before := set k | 0 <= k < n && Fails(prefix[k], gather);
      assert before == set k | 0 <= k < n && Fails(calls[k], gather);
      if Fails(calls[n], gather) {
        assert all == before + {n};
      } else {
        assert all == before;
      }
    } else {
      assert all == {};
    }
  }

  /**
   For a plugin other than `name`, system `i`'s record lacks the plugin's
   key exactly when the failure list holds that call.
   */
  lemma MissingKeyIffFailed(systems: seq<string>, plugins: seq<string>, gather: Gather, i: nat, plugin: string)
    requires i < |systems| && plugin in plugins && plugin != NameKey
    ensures (plugin !in Machines(systems, plugins, gather)[i])
              <==> (Call(plugin, systems[i]) in Failed(Pairs(systems, plugins), gather))
    ensures (plugin !in Machines(systems, plugins, gather)[i])
              <==> (Fails(Call(plugin, systems[i]), gather)
                    && Tag(Call(plugin, systems[i])) in Tags(Failed(Pairs(systems, plugins), gather)))
  {
    var c := Call(plugin, systems[i]);
    RecordKeys(systems[i], plugins, gather);
    PairsMembers(systems, plugins, c);
    FailedMembers(Pairs(systems, plugins), gather, c);
    var failed := Failed(Pairs(systems, plugins), gather);
    if c in failed {
      var k :| 0 <= k < |failed| && failed[k] == c;
      assert Tags(failed)[k] == Tag(c);
    }
  }
}
