/**
 * `WriteMonitor`: while the capture flag is held, the hooked file operations
 * (`File.open`/`File.new` in a write mode, `rename`/`symlink`/`link`,
 * `Dir.mkdir`) report the path they wrote to every registered observer.
 *
 * One thread is modelled.  The capture flag is a mutex used as a boolean:
 * locking it while held raises `ThreadError` (recursive locking), and so does
 * unlocking it while not held.  The observer registry is Ruby 1.8's
 * `Observable` list, so an observer registered twice is notified twice.
 * The two choices follow different Ruby versions on purpose: the flag's
 * errors are `Mutex` as of Ruby 1.9 (1.8's `thread.rb` returns nil when a
 * free mutex is unlocked), while the observers are 1.8's array (1.9 keys
 * them in a hash, where a second `add_observer` replaces the first).
 * Each `update` call made on an observer is recorded as a `Delivery`.
 * `Pathname#realpath` is the parameter `realpath`, `None` where it raises.
 */
module WriteMonitor {
  import opened Wrappers
  import opened Notifications
  import FsObserver

  type ObserverId = nat

  /** One `observer.update(message)` call. */
  datatype Delivery = Delivery(to: ObserverId, message: Message)

  datatype MonitorError =
    | ThreadError          // the flag was locked while held, or unlocked while not held
    | NoObserversSet       // RuntimeError "No observers set!"
    | NoSuchPath(path: string)   // Pathname#realpath raised
    | OriginalRaised       // the hooked operation itself raised
    | BlockRaised          // the capture block raised

  // ---------------------------------------------------------------------
  // Which path a hooked call records
  // ---------------------------------------------------------------------

  /** The receiver of a hooked `open`/`new`: `File` itself, or a subclass of it. */
  datatype Receiver = FileClass | FileSubclass

  datatype FsOp =
    | Open(receiver: Receiver, path: string, mode: Option<string>)
    | New(receiver: Receiver, path: string, mode: Option<string>)
    | Mkdir(path: string)
    | Rename(source: string, target: string)
    | Symlink(source: string, target: string)
    | Link(source: string, target: string)

  /** The mode pattern `^(w|a)[+]?$` on a mode string without newlines. */
  predicate IsWriteMode(m: string) {
    (|m| == 1 || (|m| == 2 && m[1] == '+')) && (m[0] == 'w' || m[0] == 'a')
  }

  lemma WriteModesAreExactlyFour(m: string)
    ensures IsWriteMode(m) <==> m in {"w", "a", "w+", "a+"}
  {
    if |m| == 2 && IsWriteMode(m) {
      assert m == [m[0], m[1]];
    } else if |m| == 1 && IsWriteMode(m) {
      assert m == [m[0]];
    }
  }

  /** The separators of the pattern `^[/]?.+?[/$]`. */
  predicate IsRootSep(c: char) {
    c == '/' || c == '$'
  }

  /** The least index at or after `from` holding a separator. */
  function FirstSepFrom(s: string, from: nat): (k: Option<nat>)
    ensures k.Some? ==> from <= k.value < |s| && IsRootSep(s[k.value])
    ensures k.Some? ==> forall j :: from <= j < k.value ==> !IsRootSep(s[j])
    ensures k.None? ==> forall j :: from <= j < |s| ==> !IsRootSep(s[j])
    decreases |s| - from
  {
    if from >= |s| then None
    else if IsRootSep(s[from]) then Some(from)
    else FirstSepFrom(s, from + 1)
  }

  /**
   * The index of the last character `%r(^[/]?.+?[/$])` matches: with a
   * leading '/', the least separator at index 2 or later, else one at index 1;
   * without one, the least separator at index 1 or later.
   */
  function RootDirEnd(s: string): Option<nat> {
    if |s| > 0 && s[0] == '/' then
      match FirstSepFrom(s, 2)
      case Some(k) => Some(k)
      case None => if |s| > 1 && IsRootSep(s[1]) then Some(1) else None
    else
      FirstSepFrom(s, 1)
  }

  /** `root_dir`: the matched prefix, or the whole path when the pattern does not match. */
  function RootDir(s: string): (r: string)
    ensures r <= s
    ensures r == s || (|r| >= 2 && IsRootSep(r[|r| - 1]))
    ensures r != s ==> forall j :: 1 <= j < |r| - 1 && (s[0] != '/' || j >= 2) ==> !IsRootSep(r[j])
  {
    match RootDirEnd(s)
    case Some(k) => s[..k + 1]
    case None => s
  }

  /** The root directory of a root directory is itself. */
  lemma RootDirIdempotent(s: string)
    ensures RootDir(RootDir(s)) == RootDir(s)
  {
    var r := RootDir(s);
    if r != s {
      var k := RootDirEnd(s).value;
      assert r == s[..k + 1];
      if |s| > 0 && s[0] == '/' && FirstSepFrom(s, 2).Some? {
        assert FirstSepFrom(r, 2) == Some(k);
      } else if |s| > 0 && s[0] == '/' {
        assert k == 1 && |r| == 2;
        assert FirstSepFrom(r, 2) == None;
      } else {
        assert FirstSepFrom(r, 1) == Some(k);
      }
    }
  }

  /** With a leading '/', the root directory ends at the first separator from index 2 on. */
  lemma RootDirAbsolute(s: string, k: nat)
    requires 2 <= k < |s| && s[0] == '/' && IsRootSep(s[k])
    requires forall j :: 2 <= j < k ==> !IsRootSep(s[j])
    ensures RootDir(s) == s[..k + 1]
  {
    var f := FirstSepFrom(s, 2);
    assert f.Some?;
  }

  /** Without a leading '/', the root directory ends at the first separator from index 1 on. */
  lemma RootDirRelative(s: string, k: nat)
    requires 1 <= k < |s| && s[0] != '/' && IsRootSep(s[k])
    requires forall j :: 1 <= j < k ==> !IsRootSep(s[j])
    ensures RootDir(s) == s[..k + 1]
  {
    var f := FirstSepFrom(s, 1);
    assert f.Some?;
  }

  lemma RootDirExamples()
    ensures RootDir("/a_new_dir/and/other/junk") == "/a_new_dir/"
    ensures RootDir("relative/dir") == "relative/"
  {
    var s := "/a_new_dir/and/other/junk";
    RootDirAbsolute(s, 10);
    assert s[..11] == "/a_new_dir/";
    var t := "relative/dir";
    RootDirRelative(t, 8);
    assert t[..9] == "relative/";
  }

  /** Paths the pattern does not match, or matches whole, are kept as they are. */
  lemma RootDirWholeExamples()
    ensures RootDir("//") == "//"
    ensures RootDir("/top") == "/top"
    ensures RootDir("plain") == "plain"
  {
  }

  /** The path the recorder reports for a hooked call, if any. */
  function RecordedPath(op: FsOp): Option<string> {
    match op
    case Open(recv, path, mode) =>
      if recv == FileClass && mode.Some? && IsWriteMode(mode.value) then Some(path) else None
    case New(recv, path, mode) =>
      if recv == FileClass && mode.Some? && IsWriteMode(mode.value) then Some(path) else None
    case Mkdir(path) => Some(RootDir(path))
    case Rename(_, target) => Some(target)
    case Symlink(_, target) => Some(target)
    case Link(_, target) => Some(target)
  }

  /** Opening for write records the path; reading, binary modes and subclasses record nothing. */
  lemma RecordedPathModes(p: string)
    ensures RecordedPath(Open(FileClass, p, Some("w"))) == Some(p)
    ensures RecordedPath(New(FileClass, p, Some("a+"))) == Some(p)
    ensures RecordedPath(Open(FileClass, p, Some("r"))) == None
    ensures RecordedPath(Open(FileClass, p, Some("wb"))) == None
    ensures RecordedPath(Open(FileClass, p, None)) == None
    ensures RecordedPath(Open(FileSubclass, p, Some("w"))) == None
  {
  }

  /** Renames and links record their target; `mkdir` records the root of the new directory. */
  lemma RecordedPathTargets(p: string, q: string)
    ensures RecordedPath(Rename(p, q)) == Some(q)
    ensures RecordedPath(Symlink(p, q)) == Some(q)
    ensures RecordedPath(Link(p, q)) == Some(q)
    ensures RecordedPath(Mkdir("/a_new_dir/and/other/junk")) == Some("/a_new_dir/")
  {
    RootDirExamples();
  }

  // ---------------------------------------------------------------------
  // The monitor as a state machine
  // ---------------------------------------------------------------------

  /** The flag, the registered observers, and every `update` call made so far. */
  datatype State = State(flagHeld: bool, observers: seq<ObserverId>, deliveries: seq<Delivery>)

  /** The state after a call, and whether the call returned or raised. */
  datatype After = After(state: State, outcome: Outcome<MonitorError>)

  /** `notify_observers(msg)`: one `update` per registered observer, in registration order. */
  function Broadcast(observers: seq<ObserverId>, msg: Message): (r: seq<Delivery>)
    ensures |r| == |observers|
    ensures forall i :: 0 <= i < |r| ==> r[i] == Delivery(observers[i], msg)
  {
    if observers == [] then [] else [Delivery(observers[0], msg)] + Broadcast(observers[1..], msg)
  }

  /** `_stop`: unlock the flag, then send the hash with `:command => :stop_capture`. */
  function StopStep(s: State): After {
    if !s.flagHeld then After(s, Fail(ThreadError))
    else After(State(false, s.observers, s.deliveries + Broadcast(s.observers, StopMessage)), Pass)
  }

  /** `reset`: `_stop`, then delete every observer. */
  function ResetStep(s: State): After {
    var a := StopStep(s);
    if a.outcome.Fail? then a
    else After(a.state.(observers := []), Pass)
  }

  /** `add_path(p)`. */
  function AddPathStep(s: State, p: string, realpath: string -> Option<string>): After {
    if |s.observers| == 0 then After(s, Fail(NoObserversSet))
    else match realpath(p)
      case None => After(s, Fail(NoSuchPath(p)))
      case Some(rp) =>
        After(s.(deliveries := s.deliveries + Broadcast(s.observers, Message(AddPaths, Some(rp)))), Pass)
  }

  /** What the hooked operation itself did: returned a value, or raised. */
  datatype Original = Returned(value: int) | Raised

  /** A hooked call: the original runs first; the recorder runs only if the flag is then held. */
  function Hooked(s: State, op: FsOp, original: Original, realpath: string -> Option<string>): After {
    if original.Raised? then After(s, Fail(OriginalRaised))
    else if !s.flagHeld then After(s, Pass)
    else match RecordedPath(op)
      case None => After(s, Pass)
      case Some(p) => AddPathStep(s, p, realpath)
  }

  /** One step of a capture block: a hooked file operation, or a raise. */
  datatype WorkStep = Call(op: FsOp, original: Original) | Raise

  /** The block's steps, up to the first that raises. */
  function RunWork(s: State, work: seq<WorkStep>, realpath: string -> Option<string>): After
    decreases |work|
  {
    if work == [] then After(s, Pass)
    else match work[0]
      case Raise => After(s, Fail(BlockRaised))
      case Call(op, original) =>
        var a := Hooked(s, op, original, realpath);
        if a.outcome.Fail? then a else RunWork(a.state, work[1..], realpath)
  }

  /** `capture(*obs)` without a block: register the observers, then lock the flag. */
  function CaptureNoBlock(s: State, obs: seq<ObserverId>): After {
    var s1 := s.(observers := s.observers + obs);
    if s.flagHeld then After(s1, Fail(ThreadError))
    else After(s1.(flagHeld := true), Pass)
  }

  /** `capture(*obs) { work }`: as without a block, then the block, then `_stop` (no `ensure`). */
  function CaptureBlock(s: State, obs: seq<ObserverId>, work: seq<WorkStep>,
                        realpath: string -> Option<string>): After {
    var a := CaptureNoBlock(s, obs);
    if a.outcome.Fail? then a
    else
      var w := RunWork(a.state, work, realpath);
      if w.outcome.Fail? then w else StopStep(w.state)
  }

  // ---------------------------------------------------------------------
  // Properties
  // ---------------------------------------------------------------------

  /** The deliveries appended by the block are `:add_paths` events only. */
  lemma {:induction false} RunWorkOnlyAddPaths(s: State, work: seq<WorkStep>, realpath: string -> Option<string>)
    ensures var r := RunWork(s, work, realpath);
      && r.state.flagHeld == s.flagHeld && r.state.observers == s.observers
      && |r.state.deliveries| >= |s.deliveries| && r.state.deliveries[..|s.deliveries|] == s.deliveries
      && forall i :: |s.deliveries| <= i < |r.state.deliveries| ==> r.state.deliveries[i].message.command == AddPaths
    decreases |work|
  {
    if work != [] && work[0].Call? {
      var a := Hooked(s, work[0].op, work[0].original, realpath);
      if a.outcome.Pass? {
        RunWorkOnlyAddPaths(a.state, work[1..], realpath);
        var r := RunWork(a.state, work[1..], realpath);
        assert r.state.deliveries[..|a.state.deliveries|] == a.state.deliveries;
        assert a.state.deliveries[..|s.deliveries|] == s.deliveries;
      }
    }
  }

  /**
   * A block capture that completes registers the observers, releases the flag and,
   * after the block's own events, sends each registered observer exactly one
   * `:stop_capture`; the block's events hold none.
   */
  lemma CaptureBlockSendsOneStop(s: State, obs: seq<ObserverId>, work: seq<WorkStep>,
                                 realpath: string -> Option<string>)
    requires CaptureBlock(s, obs, work, realpath).outcome.Pass?
    ensures var r := CaptureBlock(s, obs, work, realpath).state;
      && !s.flagHeld && !r.flagHeld && r.observers == s.observers + obs
      && exists mid: seq<Delivery> :: r.deliveries == s.deliveries + mid + Broadcast(s.observers + obs, StopMessage)
                       && forall i :: 0 <= i < |mid| ==> mid[i].message.command == AddPaths
  {
    var a := CaptureNoBlock(s, obs);
    var w := RunWork(a.state, work, realpath);
    RunWorkOnlyAddPaths(a.state, work, realpath);
    var mid := w.state.deliveries[|s.deliveries|..];
    assert w.state.deliveries == s.deliveries + mid;
    assert forall i :: 0 <= i < |mid| ==> mid[i] == w.state.deliveries[|s.deliveries| + i];
  }

  /** If the block raises, the flag stays held and no `:stop_capture` is sent. */
  lemma CaptureBlockRaiseLeavesFlagHeld(s: State, obs: seq<ObserverId>, work: seq<WorkStep>,
                                        realpath: string -> Option<string>)
    requires !s.flagHeld
    requires RunWork(s.(observers := s.observers + obs, flagHeld := true), work, realpath).outcome.Fail?
    ensures var r := CaptureBlock(s, obs, work, realpath);
      && r.outcome.Fail? && r.state.flagHeld && r.state.observers == s.observers + obs
      && forall i :: |s.deliveries| <= i < |r.state.deliveries| ==> r.state.deliveries[i].message != StopMessage
  {
    var a := CaptureNoBlock(s, obs);
    assert a.state == s.(observers := s.observers + obs, flagHeld := true);
    RunWorkOnlyAddPaths(a.state, work, realpath);
  }

  /** A capture without a block leaves the flag held; a later `stop` releases it and notifies. */
  lemma CaptureThenStop(s: State, obs: seq<ObserverId>)
    requires !s.flagHeld
    ensures CaptureNoBlock(s, obs).outcome.Pass? && CaptureNoBlock(s, obs).state.flagHeld
    ensures var r := StopStep(CaptureNoBlock(s, obs).state);
      && r.outcome.Pass? && !r.state.flagHeld
      && r.state.deliveries == s.deliveries + Broadcast(s.observers + obs, StopMessage)
  {
  }

  /** Capturing again while the flag is held raises, after the observers were registered. */
  lemma RecursiveCaptureRaises(s: State, obs: seq<ObserverId>, work: seq<WorkStep>,
                               realpath: string -> Option<string>)
    requires s.flagHeld
    ensures CaptureNoBlock(s, obs) == After(s.(observers := s.observers + obs), Fail(ThreadError))
    ensures CaptureBlock(s, obs, work, realpath) == CaptureNoBlock(s, obs)
  {
  }

  /** `stop` and `reset` on an idle monitor raise and change nothing, observers included. */
  lemma StopWhenIdleRaises(s: State)
    requires !s.flagHeld
    ensures StopStep(s) == After(s, Fail(ThreadError))
    ensures ResetStep(s) == After(s, Fail(ThreadError))
  {
  }

  /** A successful `reset` releases the flag, notifies the old observers and leaves none. */
  lemma ResetClearsObservers(s: State)
    requires s.flagHeld
    ensures ResetStep(s).outcome.Pass?
    ensures ResetStep(s).state == State(false, [], s.deliveries + Broadcast(s.observers, StopMessage))
  {
  }

  /** `add_path` raises without observers, else sends each one exactly one `:add_paths` event. */
  lemma AddPathDelivers(s: State, p: string, realpath: string -> Option<string>)
    ensures |s.observers| == 0 ==> AddPathStep(s, p, realpath) == After(s, Fail(NoObserversSet))
    ensures |s.observers| > 0 && realpath(p).Some? ==>
      var r := AddPathStep(s, p, realpath).state;
      && AddPathStep(s, p, realpath).outcome.Pass?
      && r.flagHeld == s.flagHeld && r.observers == s.observers
      && |r.deliveries| == |s.deliveries| + |s.observers|
      && forall i :: 0 <= i < |s.observers| ==>
           r.deliveries[|s.deliveries| + i] == Delivery(s.observers[i], Message(AddPaths, realpath(p)))
  {
  }

  /** A hooked call returns what the original returned, and outside a capture records nothing. */
  lemma HookPassesThrough(s: State, op: FsOp, original: Original, realpath: string -> Option<string>)
    ensures Hooked(s, op, original, realpath).outcome.Pass? ==> original.Returned?
    ensures original.Raised? ==> Hooked(s, op, original, realpath) == After(s, Fail(OriginalRaised))
    ensures !s.flagHeld ==> Hooked(s, op, original, realpath).state == s
    ensures s.flagHeld && original.Returned? && RecordedPath(op).None? ==>
      Hooked(s, op, original, realpath) == After(s, Pass)
  {
  }

  /** The monitor's events never change an `FSObserver`'s sets: it only reacts to `:add_path`. */
  lemma MonitorEventsIgnoredByObserver(s: State, work: seq<WorkStep>, realpath: string -> Option<string>,
                                       v: FsObserver.Sets)
    ensures var r := RunWork(s, work, realpath).state;
      forall i :: |s.deliveries| <= i < |r.deliveries| ==> FsObserver.Receive(v, r.deliveries[i].message) == v
  {
    RunWorkOnlyAddPaths(s, work, realpath);
  }

  // ---------------------------------------------------------------------
  // The monitor object
  // ---------------------------------------------------------------------

  class Monitor {
    var flagHeld: bool
    var observers: seq<ObserverId>
    /** The `update` calls made on observers, oldest first. */
    var deliveries: seq<Delivery>

    function Current(): State
      reads this
    {
      State(flagHeld, observers, deliveries)
    }

    constructor ()
      ensures Current() == State(false, [], [])
    {
      flagHeld := false;
      observers := [];
      deliveries := [];
    }

    /** `changed(true); notify_observers(msg)`. */
    method Notify(msg: Message)
      modifies this
      ensures Current() == old(Current()).(deliveries := old(deliveries) + Broadcast(observers, msg))
    {
      var i := 0;
      while i < |observers|
        invariant 0 <= i <= |observers|
        invariant flagHeld == old(flagHeld) && observers == old(observers)
        invariant deliveries == old(deliveries) + Broadcast(observers, msg)[..i]
      {
        deliveries := deliveries + [Delivery(observers[i], msg)];
        assert Broadcast(observers, msg)[..i + 1] == Broadcast(observers, msg)[..i] + [Delivery(observers[i], msg)];
        i := i + 1;
      }
      assert Broadcast(observers, msg)[..i] == Broadcast(observers, msg);
    }

    /** `_stop`. */
    method DoStop() returns (out: Outcome<MonitorError>)
      modifies this
      ensures After(Current(), out) == StopStep(old(Current()))
    {
      if !flagHeld {
        return Fail(ThreadError);
      }
      flagHeld := false;
      Notify(StopMessage);
      return Pass;
    }

    /** `stop`. */
    method Stop() returns (out: Outcome<MonitorError>)
      modifies this
      ensures After(Current(), out) == StopStep(old(Current()))
    {
      out := DoStop();
    }

    /** `reset`. */
    method Reset() returns (out: Outcome<MonitorError>)
      modifies this
      ensures After(Current(), out) == ResetStep(old(Current()))
    {
      out := DoStop();
      if out.Fail? {
        return;
      }
      observers := [];
    }

    /** `add_path(p)`. */
    method AddPath(p: string, realpath: string -> Option<string>) returns (out: Outcome<MonitorError>)
      modifies this
      ensures After(Current(), out) == AddPathStep(old(Current()), p, realpath)
    {
      if |observers| == 0 {
        return Fail(NoObserversSet);
      }
      var rp := realpath(p);
      if rp.None? {
        return Fail(NoSuchPath(p));
      }
      Notify(Message(AddPaths, Some(rp.value)));
      return Pass;
    }

    /** A hooked file operation whose original call had the outcome `original`. */
    method HookedCall(op: FsOp, original: Original, realpath: string -> Option<string>)
      returns (r: Result<int, MonitorError>)
      modifies this
      ensures var a := Hooked(old(Current()), op, original, realpath);
        && Current() == a.state
        && (r.Success? <==> a.outcome.Pass?)
        && (r.Failure? ==> a.outcome == Fail(r.error))
        && (r.Success? ==> original == Returned(r.value))
    {
      if original.Raised? {
        return Failure(OriginalRaised);
      }
      if flagHeld {
        var path := RecordedPath(op);
        if path.Some? {
          var out := AddPath(path.value, realpath);
          if out.Fail? {
            return Failure(out.error);
          }
        }
      }
      return Success(original.value);
    }

    /** `capture(*obs)` without a block. */
    method Capture(obs: seq<ObserverId>) returns (out: Outcome<MonitorError>)
      modifies this
      ensures After(Current(), out) == CaptureNoBlock(old(Current()), obs)
    {
      observers := observers + obs;
      if flagHeld {
        return Fail(ThreadError);
      }
      flagHeld := true;
      return Pass;
    }

    /** `capture(*obs) { work }`. */
    method CaptureWith(obs: seq<ObserverId>, work: seq<WorkStep>, realpath: string -> Option<string>)
      returns (out: Outcome<MonitorError>)
      modifies this
      ensures After(Current(), out) == CaptureBlock(old(Current()), obs, work, realpath)
    {
      out := Capture(obs);
      if out.Fail? {
        return;
      }
      ghost var started := Current();
      var i := 0;
      while i < |work|
        invariant 0 <= i <= |work|
        invariant RunWork(started, work, realpath) == RunWork(Current(), work[i..], realpath)
      {
        assert work[i..][1..] == work[i + 1..];
        match work[i] {
          case Raise =>
            return Fail(BlockRaised);
          case Call(op, original) =>
            var r := HookedCall(op, original, realpath);
            if r.Failure? {
              return Fail(r.error);
            }
        }
        i := i + 1;
      }
      out := DoStop();
    }
  }
}
