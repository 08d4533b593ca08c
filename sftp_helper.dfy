/**
 * `SFTPHelper`: the SSH session held in `@ssh`, and `upload_files`, which
 * uploads an ordered map of remote names to local files.  The session, the
 * remote `stat`, the md5 sums and the file sizes are parameters; what is
 * modelled is which files are uploaded or skipped, the "i/n" counter each
 * one is shown with, and the size label.  The SFTP delivery plugin carries
 * the same `connected?`, `disconnect` and `upload_files`.
 */
module SftpHelper {
  import opened Wrappers
  import opened Strings

  /** An SSH session, which the other side may have closed. */
  datatype Ssh = Ssh(closed: bool)

  /** What `sftp.stat!` does for a remote path: succeeds, or raises a status error with a code (2 is "no such file"). */
  datatype Stat = Found | StatusError(code: int)

  const NoSuchFile := 2

  datatype UploadError =
    | NotConnected             // "You're not connected to server"
    | StatFailed(code: int)    // a status error other than "no such file", re-raised

  /** What happened to one file of the map. */
  datatype FileOutcome =
    | Skipped(counter: string)
    | Uploaded(counter: string, local: string, remote: string)

  /** One run of `upload_files`: the size logged, whether the target directory was created, each file's outcome, and the error that ended the run. */
  datatype Run = Run(size: string, madeDir: bool, outcomes: seq<FileOutcome>, error: Option<UploadError>)

  /** The size shown before uploading: whole MiB with "MB", else whole KiB with "kB", else the bare byte count. */
  lemma DivDiv(t: nat)
    ensures t / 1024 / 1024 == t / (1024 * 1024)
  {
    var q, r := t / (1024 * 1024), t % (1024 * 1024);
    assert t == q * (1024 * 1024) + r;
    assert t / 1024 == q * 1024 + r / 1024;
  }

  function SizeLabel(total: nat): (r: string)
    ensures total >= 1024 * 1024 ==> r == NatToString(total / (1024 * 1024)) + "MB"
    ensures 1024 <= total < 1024 * 1024 ==> r == NatToString(total / 1024) + "kB"
    ensures total < 1024 ==> r == NatToString(total)
  {
    var kb := total / 1024;
    var mb := kb / 1024;
    DivDiv(total);
    if mb > 0 then NatToString(mb) + "MB"
    else if kb > 0 then NatToString(kb) + "kB"
    else NatToString(total)
  }

  /** `"#{nb}/#{files.size}"` */
  function Counter(nb: nat, n: nat): string {
    NatToString(nb) + "/" + NatToString(n)
  }

  /** The total size of the local files. */
  function TotalSize(files: seq<(string, string)>, size: string -> nat): nat {
    if files == [] then 0 else TotalSize(files[..|files| - 1], size) + size(files[|files| - 1].1)
  }

  /** What the far side and the local shell report: `stat!` of a remote path, and the md5 sums of a local and a remote file. */
  datatype Remote = Remote(stat: string -> Stat, localMd5: string -> string, remoteMd5: string -> string)

  /** A file is skipped iff its remote path exists, overwriting is off and the two md5 sums agree once stripped. */
  predicate SkipFile(remote: string, local: string, overwrite: bool, env: Remote) {
    env.stat(remote) == Found && !overwrite && Strip(env.localMd5(local)) == Strip(env.remoteMd5(remote))
  }

  /** The step for one map entry `(key, local)`, shown with `counter`. */
  function Decide(path: string, entry: (string, string), counter: string, overwrite: bool, env: Remote): Result<FileOutcome, UploadError> {
    var remote := path + "/" + entry.0;
    if env.stat(remote).StatusError? && env.stat(remote).code != NoSuchFile then Failure(StatFailed(env.stat(remote).code))
    else if SkipFile(remote, entry.1, overwrite, env) then Success(Skipped(counter))
    else Success(Uploaded(counter, entry.1, remote))
  }

  /** The files from index `i` on, the `i`-th shown as number `i + 1`; the run stops at the first stat error that is not "no such file". */
  function Outcomes(path: string, files: seq<(string, string)>, i: nat, overwrite: bool, env: Remote): (seq<FileOutcome>, Option<UploadError>)
    requires i <= |files|
    decreases |files| - i
  {
    if i == |files| then ([], None)
    else match Decide(path, files[i], Counter(i + 1, |files|), overwrite, env)
      case Failure(e) => ([], Some(e))
      case Success(here) =>
        var rest := Outcomes(path, files, i + 1, overwrite, env);
        ([here] + rest.0, rest.1)
  }

  /** What `upload_files(path, perms, overwrite, files)` does, for a session that is or is not connected. */
  function Upload(connected: bool, path: string, files: seq<(string, string)>, overwrite: bool, size: string -> nat, env: Remote): Run {
    if files == [] then Run("", false, [], None)
    else if !connected then Run("", false, [], Some(NotConnected))
    else
      var shown := SizeLabel(TotalSize(files, size));
      if env.stat(path).StatusError? && env.stat(path).code != NoSuchFile then Run(shown, false, [], Some(StatFailed(env.stat(path).code)))
      else
        var o := Outcomes(path, files, 0, overwrite, env);
        Run(shown, env.stat(path) != Found, o.0, o.1)
  }

  /** Outcome `o` is the right one for the `k`-th file: numbered `k + 1`, skipped exactly by the skip rule, otherwise sent to "<path>/<key>". */
  predicate OutcomeFits(path: string, files: seq<(string, string)>, k: nat, o: FileOutcome, overwrite: bool, env: Remote)
    requires k < |files|
  {
    && o.counter == Counter(k + 1, |files|)
    && (o.Skipped? <==> SkipFile(path + "/" + files[k].0, files[k].1, overwrite, env))
    && (o.Uploaded? ==> o.local == files[k].1 && o.remote == path + "/" + files[k].0)
  }

  lemma DecideFits(path: string, files: seq<(string, string)>, k: nat, overwrite: bool, env: Remote)
    requires k < |files|
    requires Decide(path, files[k], Counter(k + 1, |files|), overwrite, env).Success?
    ensures OutcomeFits(path, files, k, Decide(path, files[k], Counter(k + 1, |files|), overwrite, env).value, overwrite, env)
  {
  }

  lemma FitsCons(path: string, files: seq<(string, string)>, i: nat, head: FileOutcome, rest: seq<FileOutcome>, overwrite: bool, env: Remote)
    requires i < |files| && |rest| == |files| - (i + 1)
    requires OutcomeFits(path, files, i, head, overwrite, env)
    requires forall j :: 0 <= j < |rest| ==> OutcomeFits(path, files, i + 1 + j, rest[j], overwrite, env)
    ensures forall j :: 0 <= j < |files| - i ==> OutcomeFits(path, files, i + j, ([head] + rest)[j], overwrite, env)
  {
    forall j | 1 <= j < |files| - i
      ensures OutcomeFits(path, files, i + j, ([head] + rest)[j], overwrite, env)
    {
      assert OutcomeFits(path, files, i + 1 + (j - 1), rest[j - 1], overwrite, env);
      assert ([head] + rest)[j] == rest[j - 1];
    }
  }

  /** When the run is not cut short, every file gets its outcome, skipped or not, in the map's order. */
  lemma {:induction false} OutcomesComplete(path: string, files: seq<(string, string)>, i: nat, overwrite: bool, env: Remote)
    requires i <= |files|
    requires Outcomes(path, files, i, overwrite, env).1.None?
    ensures |Outcomes(path, files, i, overwrite, env).0| == |files| - i
    ensures forall j :: 0 <= j < |files| - i ==> OutcomeFits(path, files, i + j, Outcomes(path, files, i, overwrite, env).0[j], overwrite, env)
    decreases |files| - i
  {
    if i < |files| {
      var step := Decide(path, files[i], Counter(i + 1, |files|), overwrite, env);
      assert step.Success?;
      OutcomesComplete(path, files, i + 1, overwrite, env);
      var all := Outcomes(path, files, i, overwrite, env).0;
      var rest := Outcomes(path, files, i + 1, overwrite, env).0;
      assert all == [step.value] + rest;
      DecideFits(path, files, i, overwrite, env);
      FitsCons(path, files, i, step.value, rest, overwrite, env);
    }
  }

  /** A stat error other than "no such file" ends the run at the file it came from. */
  lemma {:induction false} OutcomesStop(path: string, files: seq<(string, string)>, i: nat, overwrite: bool, env: Remote)
    requires i <= |files|
    requires Outcomes(path, files, i, overwrite, env).1.Some?
    ensures Outcomes(path, files, i, overwrite, env).1.value.StatFailed?
    ensures exists k :: FailedAt(path, files, i, k, overwrite, env)
    decreases |files| - i
  {
    if Decide(path, files[i], Counter(i + 1, |files|), overwrite, env).Failure? {
      assert FailedAt(path, files, i, i, overwrite, env);
    } else {
      OutcomesStop(path, files, i + 1, overwrite, env);
      var k :| FailedAt(path, files, i + 1, k, overwrite, env);
      assert FailedAt(path, files, i, k, overwrite, env);
    }
  }

  /** The run from `i` holds one outcome per file before `k`, and file `k`'s stat raised the error that ended it. */
  predicate FailedAt(path: string, files: seq<(string, string)>, i: nat, k: nat, overwrite: bool, env: Remote)
    requires i <= |files|
  {
    var o := Outcomes(path, files, i, overwrite, env);
    && i <= k < |files|
    && |o.0| == k - i
    && o.1.Some? && o.1.value.StatFailed?
    && env.stat(path + "/" + files[k].0) == StatusError(o.1.value.code)
  }

  /** The `@ssh` field of the helper (and of the SFTP delivery plugin). */
  class SshClient {
    var ssh: Option<Ssh>

    constructor ()
      ensures ssh == None
    {
      ssh := None;
    }

    /** `connected?`: a session is held and it is not closed. */
    predicate Connected()
      reads this
    {
      ssh.Some? && !ssh.value.closed
    }

    /** `connect(host, username, options)`: a fresh open session. */
    method Connect()
      modifies this
      ensures ssh == Some(Ssh(false)) && Connected()
    {
      ssh := Some(Ssh(false));
    }

    /** `disconnect`: closes the session only when connected, and always drops it. */
    method Disconnect() returns (closedIt: bool)
      modifies this
      ensures closedIt == old(Connected())
      ensures ssh == None && !Connected()
    {
      closedIt := Connected();
      ssh := None;
    }

    /** The sum of `File.size` over the local files. */
    static method SumSizes(files: seq<(string, string)>, size: string -> nat) returns (total: nat)
      ensures total == TotalSize(files, size)
    {
      total := 0;
      var i := 0;
      while i < |files|
        invariant 0 <= i <= |files|
        invariant total == TotalSize(files[..i], size)
      {
        assert files[..i + 1][..i] == files[..i];
        total := total + size(files[i].1);
        i := i + 1;
      }
      assert files[..i] == files;
    }

    /** The loop over the files, with `nb` counting every file. */
    static method UploadEach(path: string, files: seq<(string, string)>, overwrite: bool, env: Remote)
      returns (outcomes: seq<FileOutcome>, error: Option<UploadError>)
      ensures (outcomes, error) == Outcomes(path, files, 0, overwrite, env)
    {
      ghost var goal := Outcomes(path, files, 0, overwrite, env);
      outcomes := [];
      var nb := 0;
      assert outcomes + Outcomes(path, files, nb, overwrite, env).0 == goal.0;
      while nb < |files|
        invariant 0 <= nb <= |files|
        invariant goal.0 == outcomes + Outcomes(path, files, nb, overwrite, env).0
        invariant goal.1 == Outcomes(path, files, nb, overwrite, env).1
      {
        var step := Decide(path, files[nb], Counter(nb + 1, |files|), overwrite, env);
        if step.Failure? {
          assert outcomes + [] == outcomes;
          return outcomes, Some(step.error);
        }
        ghost var rest := Outcomes(path, files, nb + 1, overwrite, env);
        assert outcomes + ([step.value] + rest.0) == (outcomes + [step.value]) + rest.0;
        outcomes := outcomes + [step.value];
        nb := nb + 1;
      }
      assert outcomes + [] == outcomes;
      error := None;
    }

    /** `upload_files(path, default_permissions, overwrite, files)` */
    method UploadFiles(path: string, files: seq<(string, string)>, overwrite: bool, size: string -> nat, env: Remote)
      returns (run: Run)
      ensures run == Upload(Connected(), path, files, overwrite, size, env)
    {
      if |files| == 0 {
        return Run("", false, [], None);
      }
      if !Connected() {
        return Run("", false, [], Some(NotConnected));
      }
      var total := SumSizes(files, size);
      var shown := SizeLabel(total);
      var madeDir := false;
      var st := env.stat(path);
      if st.StatusError? {
        if st.code != NoSuchFile {
          return Run(shown, false, [], Some(StatFailed(st.code)));
        }
        madeDir := true;
      }
      var outcomes, error := UploadEach(path, files, overwrite, env);
      run := Run(shown, madeDir, outcomes, error);
    }
  }

  /** An empty map returns at once, even without a session; otherwise a missing session raises before anything else. */
  lemma UploadGuards(path: string, files: seq<(string, string)>, overwrite: bool, size: string -> nat, env: Remote)
    ensures Upload(false, path, [], overwrite, size, env) == Run("", false, [], None)
    ensures files != [] ==> Upload(false, path, files, overwrite, size, env) == Run("", false, [], Some(NotConnected))
  {
  }
}
