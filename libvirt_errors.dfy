/**
 * `LibvirtPlugin::Errors`: the error hierarchy and `virt_error_handler`, which
 * turns the standard error of a failed virt-install run into one raised
 * error.  Ruby's regular expressions are modelled by what they match: `.` is
 * any character but a newline, `^` is the start of the text or of a line and
 * `$` the end of a line or of the text.
 */
module LibvirtErrors {
  import opened Wrappers
  import opened Strings

  datatype ErrorClass =
    | StandardError
    | LibvirtError
    | DomainAlreadyDefinedError
    | InvalidOptionError
    | RegistrationError

  /** The class and its superclasses, nearest first. */
  function Ancestors(c: ErrorClass): (r: seq<ErrorClass>)
    ensures |r| >= 1 && r[0] == c && r[|r| - 1] == StandardError
    ensures c != StandardError ==> LibvirtError in r
  {
    match c
    case StandardError => [StandardError]
    case LibvirtError => [LibvirtError, StandardError]
    case _ => [c, LibvirtError, StandardError]
  }

  predicate IsA(c: ErrorClass, ancestor: ErrorClass) {
    ancestor in Ancestors(c)
  }

  /** An error raised with a class and a message. */
  datatype Raised = Raised(cls: ErrorClass, message: string)

  const OptionMarker := "error: no such option"

  /** The end of the line holding index `i`: the next newline at or after `i`, or the end of the text. */
  function LineEnd(s: string, i: nat): (k: nat)
    requires i <= |s|
    ensures i <= k <= |s|
    ensures forall j :: i <= j < k ==> s[j] != '\n'
    ensures k < |s| ==> s[k] == '\n'
    decreases |s| - i
  {
    if i == |s| || s[i] == '\n' then i else LineEnd(s, i + 1)
  }

  /** `k` is the leftmost occurrence of `pat` in `s`. */
  predicate FirstOccurrenceAt(s: string, pat: string, k: nat) {
    OccursAt(s, pat, k) && forall j :: 0 <= j < k ==> !OccursAt(s, pat, j)
  }

  /** The leftmost occurrence of `pat` at or after `i`. */
  function FindFrom(s: string, pat: string, i: nat): (r: Option<nat>)
    requires i <= |s|
    ensures r.Some? ==> i <= r.value && OccursAt(s, pat, r.value)
    ensures r.Some? ==> forall j :: i <= j < r.value ==> !OccursAt(s, pat, j)
    ensures r.None? ==> forall j :: i <= j <= |s| ==> !OccursAt(s, pat, j)
    decreases |s| - i
  {
    if OccursAt(s, pat, i) then Some(i)
    else if i == |s| then None
    else FindFrom(s, pat, i + 1)
  }

  /** A line starts at `i` with "ERROR" followed by at least one more character of that line (`/^ERROR(.+)$/`). */
  predicate ErrorLineAt(s: string, i: nat) {
    (i == 0 || (i <= |s| && s[i - 1] == '\n')) && OccursAt(s, "ERROR", i) && i + 5 < |s| && s[i + 5] != '\n'
  }

  predicate FirstErrorLineAt(s: string, k: nat) {
    ErrorLineAt(s, k) && forall j :: 0 <= j < k ==> !ErrorLineAt(s, j)
  }

  predicate HasErrorLine(s: string) {
    exists k: nat | k <= |s| :: ErrorLineAt(s, k)
  }

  /** The first line at or after `i` that matches `/^ERROR(.+)$/`. */
  function FindErrorLine(s: string, i: nat): (r: Option<nat>)
    requires i <= |s|
    ensures r.Some? ==> i <= r.value && ErrorLineAt(s, r.value)
    ensures r.Some? ==> forall j :: i <= j < r.value ==> !ErrorLineAt(s, j)
    ensures r.None? ==> forall j: nat :: i <= j ==> !ErrorLineAt(s, j)
    decreases |s| - i
  {
    if ErrorLineAt(s, i) then Some(i)
    else if i == |s| then None
    else FindErrorLine(s, i + 1)
  }

  /** `virt_error_handler(stderr)`: it always raises; which error, and with what message. */
  function VirtErrorHandler(stderr: string): (r: Raised)
    ensures IsA(r.cls, LibvirtError) && IsA(r.cls, StandardError)
    ensures r.cls == InvalidOptionError <==> Contains(stderr, OptionMarker)
    ensures r.cls == InvalidOptionError ==>
      exists k: nat :: FirstOccurrenceAt(stderr, OptionMarker, k) && r.message == Strip(stderr[k + 7..LineEnd(stderr, k + 7)])
    ensures r.cls == RegistrationError <==> !Contains(stderr, OptionMarker) && HasErrorLine(stderr)
    ensures r.cls == RegistrationError ==>
      exists k: nat :: FirstErrorLineAt(stderr, k) && r.message == Strip(stderr[k + 5..LineEnd(stderr, k + 5)])
    ensures r.cls != InvalidOptionError && r.cls != RegistrationError ==> r == Raised(LibvirtError, Strip(stderr))
  {
    match FindFrom(stderr, OptionMarker, 0)
    case Some(k) =>
      assert FirstOccurrenceAt(stderr, OptionMarker, k);
      Raised(InvalidOptionError, Strip(stderr[k + 7..LineEnd(stderr, k + 7)]))
    case None =>
      match FindErrorLine(stderr, 0)
      case Some(k) =>
        assert FirstErrorLineAt(stderr, k);
        Raised(RegistrationError, Strip(stderr[k + 5..LineEnd(stderr, k + 5)]))
      case None => Raised(LibvirtError, Strip(stderr))
  }

  /** After "error: " at an occurrence of the marker, its line holds at least "no such option". */
  lemma MarkerLine(s: string, k: nat)
    requires OccursAt(s, OptionMarker, k)
    ensures LineEnd(s, k + 7) >= k + 21
    ensures s[k + 7..k + 21] == "no such option"
  {
    assert forall j :: k <= j < k + 21 ==> s[j] == OptionMarker[j - k];
  }

  /** `strip` keeps a prefix that neither starts with whitespace nor ends with whitespace or NUL. */
  lemma StripKeepsPrefix(line: string, p: string)
    requires |p| >= 1 && p <= line && !IsSpace(p[0]) && !IsTrailingSpace(p[|p| - 1])
    ensures |Strip(line)| >= |p| && Strip(line)[..|p|] == p
  {
    assert line[0] == p[0];
    assert TrimLeft(line) == line;
    TrimRightTakes(line);
    assert line[|p| - 1] == p[|p| - 1];
  }

  /** The message of `InvalidOptionError` is the rest of the line from "no such option" on, which strip leaves in front. */
  lemma InvalidOptionMessage(stderr: string)
    requires Contains(stderr, OptionMarker)
    ensures |VirtErrorHandler(stderr).message| >= 14
    ensures VirtErrorHandler(stderr).message[..14] == "no such option"
  {
    var k := FindFrom(stderr, OptionMarker, 0).value;
    MarkerLine(stderr, k);
    var line := stderr[k + 7..LineEnd(stderr, k + 7)];
    assert |line| >= 14;
    assert forall j :: 0 <= j < 14 ==> line[..14][j] == stderr[k + 7..k + 21][j];
    assert line[..14] == stderr[k + 7..k + 21];
    StripKeepsPrefix(line, "no such option");
  }
}
