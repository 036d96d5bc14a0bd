/**
 The gatherer's `main`: run the collection loop, log one summary line
 when any call failed, assemble the aggregate document
 `{"machines": [...], "gatherer": {"timestamp": t}}`, and either print it
 (debug mode) or hand it to the publisher.

 The clock readings are inputs: `now` is the UTC timestamp stored in the
 document and `stamp` the local-time string that names the archival file.
 */
module GatherWebData {
  import opened External
  import opened Collection
  import opened Publish

  /** The parsed command line: the systems to scrape and the debug switch. */
  datatype Flags = Flags(systems: seq<string>, debug: bool)

  /** Where the document went: printed to standard output, or given to the publisher. */
  datatype Output = Printed(doc: Json) | Dumped(report: DumpReport)

  const MachinesKey: string := "machines"
  const GathererKey: string := "gatherer"
  const TimestampKey: string := "timestamp"

  /** `sep.join(parts)`. */
  function Join(parts: seq<string>, sep: string): string
    decreases |parts|
  {
    if parts == [] then ""
    else if |parts| == 1 then parts[0]
    else Join(parts[..|parts| - 1], sep) + sep + parts[|parts| - 1]
  }

  /** The summary line: a heading and the failure identifiers joined with `", "`. */
  function SummaryLog(failures: seq<string>): LogCall
  {
    LogCall(["web data choked on:", Join(failures, ", ")], None)
  }

  /** The aggregate document. */
  function Document(machines: seq<Record>, timestamp: real): (d: Json)
    ensures d.JObj? && d.fields.Keys == {MachinesKey, GathererKey}
    ensures d.fields[MachinesKey].JArr? && |d.fields[MachinesKey].items| == |machines|
    ensures forall i :: 0 <= i < |machines| ==> d.fields[MachinesKey].items[i] == JObj(machines[i])
    ensures d.fields[GathererKey] == JObj(map[TimestampKey := JNum(timestamp)])
  {
    var records := seq(|machines|, i requires 0 <= i < |machines| => JObj(machines[i]));
    JObj(map[MachinesKey := JArr(records), GathererKey := JObj(map[TimestampKey := JNum(timestamp)])])
  }

  /**
   `main`. `calls` lists the gather calls in order; `log` lists every call
   of the logging sink, in order.
   */
  method RunGather(flags: Flags, plugins: seq<string>, gather: Gather, now: real,
                   stamp: string, dirCreated: bool, write: (string, Json) -> bool)
    returns (doc: Json, calls: seq<Call>, failures: seq<string>, log: seq<LogCall>, output: Output)
    ensures calls == Pairs(flags.systems, plugins)
    ensures doc == Document(Machines(flags.systems, plugins, gather), now)
    ensures failures == Tags(Failed(calls, gather))
    // one diagnostic per failed call, the summary only when something failed, then the publisher's
    ensures log == FailureLogs(Failed(calls, gather))
                   + (if failures == [] then [] else [SummaryLog(failures)])
                   + (if flags.debug then [] else Dump(doc, stamp, dirCreated, write).log)
    // debug mode prints and publishes nothing
    ensures flags.debug ==> output == Printed(doc)
    ensures !flags.debug ==> output == Dumped(Dump(doc, stamp, dirCreated, write))
  {
    var machineData;
    machineData, failures, calls, log := CollectMachineData(flags.systems, plugins, gather);
    if failures != [] {
      log := log + [SummaryLog(failures)];
    }
    doc := Document(machineData, now);
    if flags.debug {
      output := Printed(doc);
    } else {
      var report := DumpWebData(doc, stamp, dirCreated, write);
      log := log + report.log;
      output := Dumped(report);
    }
  }

  /**
   The document holds one record per system, in input order, and each
   record names its system unless a plugin called `name` succeeded for it.
   */
  lemma DocumentMachines(systems: seq<string>, plugins: seq<string>, gather: Gather, now: real)
    ensures var items := Document(Machines(systems, plugins, gather), now).fields[MachinesKey].items;
            && |items| == |systems|
            && forall i :: 0 <= i < |systems| ==>
                 && items[i].JObj?
                 && NameKey in items[i].fields
                 && (NameKey !in plugins || !Succeeds(NameKey, systems[i], gather) ==>
                       items[i].fields[NameKey] == JStr(systems[i]))
  {
    var machines := Machines(systems, plugins, gather);
    forall i | 0 <= i < |systems|
      ensures NameKey in machines[i]
      ensures NameKey !in plugins || !Succeeds(NameKey, systems[i], gather) ==> machines[i][NameKey] == JStr(systems[i])
    {
      NameSurvives(systems[i], plugins, gather);
    }
  }

  /** A stand-in plugin set: `disk` always answers, `net` fails for `beta`. */
  function ScenarioGather(plugin: string, system: string): GatherOutcome
  {
    if plugin == "net" && system == "beta" then Raised else Gathered(JArr([JStr(plugin), JStr(system)]))
  }

  lemma ScenarioAnswers()
    ensures ScenarioGather("disk", "alpha") == Gathered(JArr([JStr("disk"), JStr("alpha")]))
    ensures ScenarioGather("net", "alpha") == Gathered(JArr([JStr("net"), JStr("alpha")]))
    ensures ScenarioGather("disk", "beta") == Gathered(JArr([JStr("disk"), JStr("beta")]))
    ensures ScenarioGather("net", "beta") == Raised
  {
    assert "alpha"[0] != "beta"[0] && "disk"[0] != "net"[0];
  }

  /** The two-system run: `alpha` has both plugins' values, `beta` lacks `net`. */
  lemma AlphaBetaRecords()
    ensures Machines(["alpha", "beta"], ["disk", "net"], ScenarioGather)
            == [map[NameKey := JStr("alpha"), "disk" := JArr([JStr("disk"), JStr("alpha")]),
                    "net" := JArr([JStr("net"), JStr("alpha")])],
                map[NameKey := JStr("beta"), "disk" := JArr([JStr("disk"), JStr("beta")])]]
  {
    var plugins := ["disk", "net"];
    ScenarioAnswers();
    assert plugins[..0] == [] && plugins[..2] == plugins;
    RecordStep("alpha", plugins, ScenarioGather, 0);
    RecordStep("alpha", plugins, ScenarioGather, 1);
    RecordStep("beta", plugins, ScenarioGather, 0);
    RecordStep("beta", plugins, ScenarioGather, 1);
  }

  /** The two-system run: the only failure recorded is `net:beta`. */
  lemma AlphaBetaFailures()
    ensures Tags(Failed(Pairs(["alpha", "beta"], ["disk", "net"]), ScenarioGather)) == ["net:beta"]
  {
    var plugins := ["disk", "net"];
    var systems := ["alpha", "beta"];
    ScenarioAnswers();
    var c0, c1, c2, c3 := Call("disk", "alpha"), Call("net", "alpha"), Call("disk", "beta"), Call("net", "beta");
    assert systems[..1] == ["alpha"] && systems[..1][..0] == [];
    assert Row("alpha", plugins) == [c0, c1];
    assert Row("beta", plugins) == [c2, c3];
    assert Pairs(systems, plugins) == [c0, c1, c2, c3];
    ExtendTrace([], c0, ScenarioGather);
    assert [] + [c0] == [c0];
    ExtendTrace([c0], c1, ScenarioGather);
    assert [c0] + [c1] == [c0, c1];
    ExtendTrace([c0, c1], c2, ScenarioGather);
    assert [c0, c1] + [c2] == [c0, c1, c2];
    ExtendTrace([c0, c1, c2], c3, ScenarioGather);
    assert [c0, c1, c2] + [c3] == [c0, c1, c2, c3];
    assert Tag(c3) == "net:beta";
  }
}
