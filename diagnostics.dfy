/** Saving an external run's terminal output (`_write_outputs`) and the names it is saved under. */
module Diagnostics {
  import opened Wrappers
  import opened Text

  /** What an external process reports: its exit code, the directory it ran in and its three
      terminal streams (an absent stream is empty). */
  datatype Runtime = Runtime(returncode: int, cwd: string, stdout: string, stderr: string, merged: string)

  const StreamNames: seq<string> := ["stdout", "stderr", "merged"]

  /** getattr(runtime, name, ''). */
  function Stream(rt: Runtime, name: string): string {
    if name == "stdout" then rt.stdout
    else if name == "stderr" then rt.stderr
    else if name == "merged" then rt.merged
    else ""
  }

  /** The file a stream is saved to. */
  function LogPath(rt: Runtime, name: string, outFname: string): string {
    JoinPath(rt.cwd, name + outFname)
  }

  /** The files a run's output is saved to: one for each non-empty stream among stdout,
      stderr and merged, in that order. */
  function SavedFiles(rt: Runtime, f: string): seq<string> {
    (if rt.stdout != "" then [LogPath(rt, "stdout", f)] else [])
    + (if rt.stderr != "" then [LogPath(rt, "stderr", f)] else [])
    + (if rt.merged != "" then [LogPath(rt, "merged", f)] else [])
  }

  /** `_write_outputs`: writes each non-empty stream and returns the paths written; the suffix
      defaults to `.nipype`. */
  method WriteOutputs(rt: Runtime, outFname: Option<string>) returns (outFiles: seq<string>)
    ensures outFiles == SavedFiles(rt, if outFname.Some? then outFname.value else ".nipype")
  {
    var f := if outFname.Some? then outFname.value else ".nipype";
    outFiles := [];
    var i := 0;
    while i < |StreamNames|
      invariant 0 <= i <= |StreamNames|
      invariant outFiles == (if i > 0 && rt.stdout != "" then [LogPath(rt, "stdout", f)] else [])
                            + (if i > 1 && rt.stderr != "" then [LogPath(rt, "stderr", f)] else [])
                            + (if i > 2 && rt.merged != "" then [LogPath(rt, "merged", f)] else [])
    {
      var name := StreamNames[i];
      var stream := Stream(rt, name);
      if stream != "" {
        outFiles := outFiles + [LogPath(rt, name, f)];
      }
      i := i + 1;
    }
  }

  /** The suffix of the logs of failed attempt `retry`: `.nipype-` and the attempt number
      zero-padded to four digits. */
  function AttemptSuffix(retry: nat): string {
    ".nipype-" + ZeroPad4(retry)
  }

  const InitSuffix := ".nipype-init"

  /** Distinct attempts never share a log name, and attempts 1 to 9999 get exactly four digits. */
  lemma AttemptSuffixInjective(i: nat, j: nat)
    ensures AttemptSuffix(i) == AttemptSuffix(j) <==> i == j
    ensures i < 10000 ==> |AttemptSuffix(i)| == 12
  {
    ZeroPad4RoundTrip(i);
    ZeroPad4RoundTrip(j);
    if AttemptSuffix(i) == AttemptSuffix(j) {
      assert ZeroPad4(i) == AttemptSuffix(i)[8..] == AttemptSuffix(j)[8..] == ZeroPad4(j);
    }
  }

  /** The initializer's logs never collide with an attempt's. */
  lemma InitSuffixDistinct(i: nat)
    ensures AttemptSuffix(i) != InitSuffix
  {
    ZeroPad4Digits(i);
    DecimalLength(i);
    assert AttemptSuffix(i)[8] == ZeroPad4(i)[0] && InitSuffix[8] == 'i';
  }

  /** The two kinds of log file names the normalization driver writes: the initializer's, and
      those of a failed attempt with its number. */
  datatype LogName = InitLogs | AttemptLogs(retry: nat) {
    function Suffix(): string {
      match this
      case InitLogs => InitSuffix
      case AttemptLogs(retry) => AttemptSuffix(retry)
    }
  }

  /** Different log names never share a suffix, so no write overwrites another one's files. */
  lemma LogNamesDistinct(a: LogName, b: LogName)
    ensures a.Suffix() == b.Suffix() <==> a == b
  {
    match (a, b)
    case (InitLogs, InitLogs) =>
    case (InitLogs, AttemptLogs(j)) => InitSuffixDistinct(j);
    case (AttemptLogs(i), InitLogs) => InitSuffixDistinct(i);
    case (AttemptLogs(i), AttemptLogs(j)) => AttemptSuffixInjective(i, j);
  }

  /** One call of `_write_outputs`: the streams of a process record written under a log name. */
  datatype LogWrite = LogWrite(runtime: Runtime, name: LogName) {
    /** The paths it writes. */
    function Files(): seq<string> {
      SavedFiles(runtime, name.Suffix())
    }
  }
}
