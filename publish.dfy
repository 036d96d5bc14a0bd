/**
 The publish step `dump_web_data`: make sure the output directory exists,
 then, inside one `try`, write the document to `latest.json` and then to
 `<stamp>.json`, announcing each file on standard output before writing
 it. The first write that raises ends the loop; the handler logs the name
 of the file being written. A failure to create the directory is outside
 the `try` and propagates to the caller.

 Each write's outcome is an oracle `write(filename, data)`; the stamp is an
 opaque string.
 */
module Publish {
  import opened External

  const OutDir: string := "/root/ct-data/web-data/"
  const Latest: string := "latest.json"

  /** The archival file name. */
  function Archive(stamp: string): string
  {
    stamp + ".json"
  }

  /** The two files, in the order they are written. */
  function Targets(stamp: string): seq<string>
  {
    [Latest, Archive(stamp)]
  }

  /**
   What one call of the publisher did: the files announced with `wrote ...`,
   the files written, the calls of the logging sink, and whether an exception
   escaped to the caller.
   */
  datatype DumpReport = DumpReport(announced: seq<string>, written: seq<string>, log: seq<LogCall>, raised: bool)

  /** The level-0 diagnostic naming the file whose write failed. */
  function WriteFailureLog(filename: string): LogCall
  {
    LogCall(["dump_web_data: Failure for " + filename], Some(0))
  }

  /** The position of the first target whose write fails, or the number of targets when none fails. */
  function FirstFailure(targets: seq<string>, data: Json, write: (string, Json) -> bool): (k: nat)
    ensures k <= |targets|
    ensures forall j :: 0 <= j < k ==> write(targets[j], data)
    ensures k < |targets| ==> !write(targets[k], data)
    decreases |targets|
  {
    if targets == [] || !write(targets[0], data) then 0
    else 1 + FirstFailure(targets[1..], data, write)
  }

  /** The outcome of publishing `data` under the archival stamp `stamp`. */
  function Dump(data: Json, stamp: string, dirCreated: bool, write: (string, Json) -> bool): (r: DumpReport)
    // os.makedirs raising escapes before anything is announced or written
    ensures !dirCreated ==> r == DumpReport([], [], [], true)
    ensures dirCreated ==> !r.raised
    // latest.json is always tried first; a failure there skips the archival file
    ensures dirCreated && !write(Latest, data) ==>
              r.announced == [Latest] && r.written == [] && r.log == [WriteFailureLog(Latest)]
    ensures dirCreated && write(Latest, data) && !write(Archive(stamp), data) ==>
              r.announced == Targets(stamp) && r.written == [Latest] && r.log == [WriteFailureLog(Archive(stamp))]
    ensures dirCreated && write(Latest, data) && write(Archive(stamp), data) ==>
              r.announced == Targets(stamp) && r.written == Targets(stamp) && r.log == []
  {
    if !dirCreated then DumpReport([], [], [], true)
    else
      var targets := Targets(stamp);
      var k := FirstFailure(targets, data, write);
      assert |targets| == 2 && targets[0] == Latest && targets[1] == Archive(stamp);
      assert k == 0 <==> !write(targets[0], data);
      assert k == 1 <==> write(targets[0], data) && !write(targets[1], data);
      if k < |targets| then
        DumpReport(targets[..k + 1], targets[..k], [WriteFailureLog(targets[k])], false)
      else
        DumpReport(targets, targets, [], false)
  }

  /** `dump_web_data`: the write loop, cut short by the first failing write. */
  method DumpWebData(data: Json, stamp: string, dirCreated: bool, write: (string, Json) -> bool)
    returns (report: DumpReport)
    ensures report == Dump(data, stamp, dirCreated, write)
  {
    if !dirCreated {
      // os.makedirs raised: the exception is not caught here
      return DumpReport([], [], [], true);
    }
    var targets := Targets(stamp);
    var announced: seq<string> := [];
    var written: seq<string> := [];
    var log: seq<LogCall> := [];
    var i := 0;
    while i < |targets|
      invariant 0 <= i <= |targets|
      invariant announced == targets[..i] && written == targets[..i] && log == []
      invariant forall j :: 0 <= j < i ==> write(targets[j], data)
    {
      var filename := targets[i];
      announced := announced + [filename];
      if !write(filename, data) {
        log := log + [WriteFailureLog(filename)];
        break;
      }
      written := written + [filename];
      i := i + 1;
    }
    assert targets[..|targets|] == targets;
    report := DumpReport(announced, written, log, false);
  }
}
