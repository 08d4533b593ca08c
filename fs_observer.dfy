/**
 * `FSObserver`: collects the paths written while running as root, filtered
 * through a set of patterns, and on `:stop_capture` gives them back to the
 * unprivileged user before dropping the process's privileges.
 *
 * The regular expressions of the source are modelled by what they match on
 * paths without newlines or regular-expression metacharacters:
 * `^/(etc|dev|...)/` by `SystemDirFilter` and `^<p>/` by `DescendantsOf(p)`.
 * The process environment (which paths exist, which id-changing calls the
 * platform implements) is the `OsEnv` value passed to `Update`; the calls
 * the observer makes into it are recorded in the ghost log `effects`.
 */
module FsObserver {
  import opened Wrappers
  import opened Notifications

  /** The alternation of the blacklist pattern, `etc` twice as in the source. */
  const SystemDirs: seq<string> :=
    ["etc", "dev", "sys", "bin", "sbin", "etc", "lib", "lib64", "boot", "run", "proc", "selinux"]

  datatype Filter = SystemDirFilter | DescendantsOf(root: string)

  /** The path lies strictly inside one of the system directories. */
  predicate Blacklisted(path: string) {
    exists i | 0 <= i < |SystemDirs| :: "/" + SystemDirs[i] + "/" <= path
  }

  predicate Matches(f: Filter, path: string) {
    match f
    case SystemDirFilter => Blacklisted(path)
    case DescendantsOf(root) => root + "/" <= path
  }

  /** `match_filter?`: the fold `accum || path =~ filter` over the filter set. */
  predicate MatchFilter(filters: set<Filter>, path: string) {
    exists f | f in filters :: Matches(f, path)
  }

  /** The `:paths` option: absent, one path, or an array of paths. */
  datatype Paths = NoPaths | OnePath(path: string) | PathList(paths: seq<string>)

  function InitialPathSet(paths: Paths): set<string> {
    match paths
    case NoPaths => {}
    case OnePath(p) => {p}
    case PathList(ps) => set i | 0 <= i < |ps| :: ps[i]
  }

  /** The observer's two sets: `path_set` and `filter_set`. */
  datatype Sets = Sets(pathSet: set<string>, filterSet: set<Filter>)

  /** The sets of a new observer. */
  function Initial(paths: Paths): Sets {
    Sets(InitialPathSet(paths), {SystemDirFilter})
  }

  /** `update(:command => :add_path, :data => p)`. */
  function AddPathStep(s: Sets, p: string): Sets {
    if MatchFilter(s.filterSet, p) then s
    else Sets(s.pathSet + {p}, s.filterSet + {DescendantsOf(p)})
  }

  /** What `update` does to the two sets; only `:add_path` with data changes them. */
  function Receive(s: Sets, msg: Message): Sets {
    if msg.command == AddPath && msg.data.Some? then AddPathStep(s, msg.data.value) else s
  }

  /** `:add_path` updates for each of `ps`, in order. */
  function AddAll(s: Sets, ps: seq<string>): Sets
    decreases |ps|
  {
    if ps == [] then s else AddAll(AddPathStep(s, ps[0]), ps[1..])
  }

  // ---------------------------------------------------------------------
  // Properties of the two sets
  // ---------------------------------------------------------------------

  /** Sets only grow under `:add_path`. */
  lemma {:induction false} AddAllGrows(s: Sets, ps: seq<string>)
    ensures s.pathSet <= AddAll(s, ps).pathSet
    ensures s.filterSet <= AddAll(s, ps).filterSet
    decreases |ps|
  {
    if ps != [] {
      AddAllGrows(AddPathStep(s, ps[0]), ps[1..]);
    }
  }

  /** Every submitted path ends up recorded or covered by a filter. */
  lemma {:induction false} EverySubmittedPathCovered(s: Sets, ps: seq<string>)
    ensures forall i :: 0 <= i < |ps| ==>
      ps[i] in AddAll(s, ps).pathSet || MatchFilter(AddAll(s, ps).filterSet, ps[i])
    decreases |ps|
  {
    if ps != [] {
      var t := AddPathStep(s, ps[0]);
      EverySubmittedPathCovered(t, ps[1..]);
      AddAllGrows(t, ps[1..]);
      assert AddAll(s, ps) == AddAll(t, ps[1..]);
      forall i | 0 <= i < |ps|
        ensures ps[i] in AddAll(s, ps).pathSet || MatchFilter(AddAll(s, ps).filterSet, ps[i])
      {
        if i == 0 {
          if !MatchFilter(s.filterSet, ps[0]) {
            assert ps[0] in t.pathSet;
          } else {
            var f :| f in s.filterSet && Matches(f, ps[0]);
            assert f in AddAll(t, ps[1..]).filterSet;
          }
        } else {
          assert ps[i] == ps[1..][i - 1];
        }
      }
    }
  }

  /** The only paths ever recorded are the initial ones and submitted ones. */
  lemma {:induction false} OnlySubmittedPathsRecorded(s: Sets, ps: seq<string>)
    ensures forall p :: p in AddAll(s, ps).pathSet ==> p in s.pathSet || p in ps
    decreases |ps|
  {
    if ps != [] {
      OnlySubmittedPathsRecorded(AddPathStep(s, ps[0]), ps[1..]);
    }
  }

  /** A path matched by a filter present at the start is never recorded later. */
  lemma {:induction false} FilteredNeverRecorded(s: Sets, f: Filter, ps: seq<string>)
    requires f in s.filterSet
    ensures forall q :: q in AddAll(s, ps).pathSet && Matches(f, q) ==> q in s.pathSet
    decreases |ps|
  {
    if ps != [] {
      var t := AddPathStep(s, ps[0]);
      FilteredNeverRecorded(t, f, ps[1..]);
    }
  }

  /** Blacklisted paths are never recorded through `:add_path`, in any session. */
  lemma BlacklistNeverRecorded(s: Sets, ps: seq<string>)
    requires SystemDirFilter in s.filterSet
    ensures forall q :: q in AddAll(s, ps).pathSet && Blacklisted(q) ==> q in s.pathSet
  {
    FilteredNeverRecorded(s, SystemDirFilter, ps);
  }

  /** Once a path is accepted, none of its descendants is recorded afterwards. */
  lemma DescendantsRejectedAfterAccept(s: Sets, p: string, ps: seq<string>)
    requires !MatchFilter(s.filterSet, p)
    ensures p in AddAll(s, [p] + ps).pathSet
    ensures forall q :: q in AddAll(s, [p] + ps).pathSet && p + "/" <= q ==> q in s.pathSet
  {
    var t := AddPathStep(s, p);
    assert ([p] + ps)[1..] == ps;
    assert AddAll(s, [p] + ps) == AddAll(t, ps);
    FilteredNeverRecorded(t, DescendantsOf(p), ps);
    AddAllGrows(t, ps);
  }

  /** Re-adding a path leaves both sets as they were after the first add. */
  lemma AddPathIdempotent(s: Sets, p: string)
    ensures AddPathStep(AddPathStep(s, p), p) == AddPathStep(s, p)
  {
    var t := AddPathStep(s, p);
    if !MatchFilter(s.filterSet, p) {
      if MatchFilter(t.filterSet, p) {
        var f :| f in t.filterSet && Matches(f, p);
        assert f != DescendantsOf(p);
      }
    }
  }

  /** The blacklist matches only below the directories, not the directories or their look-alikes. */
  lemma BlacklistBoundaries()
    ensures Blacklisted("/etc/passwd")
    ensures !Blacklisted("/etc")
    ensures !Blacklisted("/etcx/y")
    ensures !Blacklisted("/tmp/x/build/output")
  {
    assert "/" + SystemDirs[0] + "/" <= "/etc/passwd";
    forall i | 0 <= i < |SystemDirs|
      ensures !("/" + SystemDirs[i] + "/" <= "/etcx/y")
      ensures !("/" + SystemDirs[i] + "/" <= "/tmp/x/build/output")
    {
      var d := "/" + SystemDirs[i] + "/";
      assert d[1] == SystemDirs[i][0];
      if SystemDirs[i][0] == 'e' {
        assert i == 0 || i == 5;
        assert d[4] != "/etcx/y"[4];
      }
    }
  }

  /** Suppression depends on order: a descendant accepted before its ancestor stays recorded. */
  lemma SuppressionIsOrderDependent()
    ensures AddAll(Initial(NoPaths), ["/a/b", "/a"]).pathSet == {"/a/b", "/a"}
    ensures AddAll(Initial(NoPaths), ["/a", "/a/b"]).pathSet == {"/a"}
    ensures AddAll(Initial(OnePath("/a")), ["/a/b"]).pathSet == {"/a", "/a/b"}
  {
    var s0 := Initial(NoPaths);
    assert !Blacklisted("/a/b") && !Blacklisted("/a");
    var s1 := AddPathStep(s0, "/a/b");
    assert s1 == Sets({"/a/b"}, {SystemDirFilter, DescendantsOf("/a/b")});
    assert !Matches(DescendantsOf("/a/b"), "/a");
    assert AddAll(s0, ["/a/b", "/a"]) == AddAll(s1, ["/a"]);
    var s2 := AddPathStep(s0, "/a");
    assert Matches(DescendantsOf("/a"), "/a/b");
    assert AddAll(s0, ["/a", "/a/b"]) == AddAll(s2, ["/a/b"]);
    var s3 := Initial(OnePath("/a"));
    assert s3.filterSet == {SystemDirFilter};
    assert AddAll(s3, ["/a/b"]) == AddPathStep(s3, "/a/b");
  }

  /** One tracked write during a session: one path, one new descendant pattern. */
  lemma SingleWriteScenario()
    ensures AddAll(Initial(NoPaths), ["/tmp/x/build/output"])
         == Sets({"/tmp/x/build/output"}, {SystemDirFilter, DescendantsOf("/tmp/x/build/output")})
  {
    BlacklistBoundaries();
    assert AddAll(Initial(NoPaths), ["/tmp/x/build/output"])
        == AddPathStep(Initial(NoPaths), "/tmp/x/build/output");
  }

  /** The monitor's `:add_paths` command is not one the observer reacts to. */
  lemma AddPathsIgnored(s: Sets, p: string)
    ensures Receive(s, Message(AddPaths, Some(p))) == s
  {
  }

  // ---------------------------------------------------------------------
  // Ownership correction and privilege drop
  // ---------------------------------------------------------------------

  datatype Syscall = SetResGid | SetResUid | SetGid | SetEgid | SetUid | SetEuid

  /** One call into the operating system made by the observer. */
  datatype Effect =
    | ChownR(user: int, group: int, path: string)   // FileUtils.chown_R(user, group, path)
    | SetId(call: Syscall, id: int)                 // setres*id(id, id, id) or one of gid=, egid=, uid=, euid=

  /**
   * The part of the process environment the observer consults: `File.exist?`,
   * whether `Process::Sys` responds to both `setresgid` and `setresuid`, and
   * which id-changing calls are implemented (the others raise `NotImplementedError`).
   */
  datatype OsEnv = OsEnv(pathExists: string -> bool, respondsToSetres: bool, implemented: Syscall -> bool)

  predicate SetsGroup(e: Effect) {
    e.SetId? && (e.call == SetResGid || e.call == SetGid || e.call == SetEgid)
  }

  predicate SetsUser(e: Effect) {
    e.SetId? && (e.call == SetResUid || e.call == SetUid || e.call == SetEuid)
  }

  /** How many of `calls` run before the first one that raises `NotImplementedError`. */
  function ImplementedPrefix(env: OsEnv, calls: seq<Effect>): (n: nat)
    requires forall k :: 0 <= k < |calls| ==> calls[k].SetId?
    ensures n <= |calls|
    ensures forall k :: 0 <= k < n ==> env.implemented(calls[k].call)
    ensures n < |calls| ==> !env.implemented(calls[n].call)
  {
    if calls == [] || !env.implemented(calls[0].call) then 0
    else 1 + ImplementedPrefix(env, calls[1..])
  }

  /** The second block of `change_user`: gid, egid, then uid, euid. */
  function FallbackEffects(env: OsEnv, user: int, group: int): seq<Effect> {
    var calls := [SetId(SetGid, group), SetId(SetEgid, group), SetId(SetUid, user), SetId(SetEuid, user)];
    calls[..ImplementedPrefix(env, calls)]
  }

  /** The fallback block stops at the first call the platform lacks. */
  lemma FallbackCases(env: OsEnv, user: int, group: int)
    ensures var fb := FallbackEffects(env, user, group);
      && (!env.implemented(SetGid) ==> fb == [])
      && (env.implemented(SetGid) && !env.implemented(SetEgid) ==> fb == [SetId(SetGid, group)])
      && (env.implemented(SetGid) && env.implemented(SetEgid) && !env.implemented(SetUid) ==>
            fb == [SetId(SetGid, group), SetId(SetEgid, group)])
      && (env.implemented(SetGid) && env.implemented(SetEgid) && env.implemented(SetUid) ==>
            fb == [SetId(SetGid, group), SetId(SetEgid, group), SetId(SetUid, user)]
                  + (if env.implemented(SetEuid) then [SetId(SetEuid, user)] else []))
  {
    var calls := [SetId(SetGid, group), SetId(SetEgid, group), SetId(SetUid, user), SetId(SetEuid, user)];
    assert calls[1..] == [SetId(SetEgid, group), SetId(SetUid, user), SetId(SetEuid, user)];
    assert calls[1..][1..] == [SetId(SetUid, user), SetId(SetEuid, user)];
    assert calls[1..][1..][1..] == [SetId(SetEuid, user)];
    assert ImplementedPrefix(env, calls[1..][1..][1..]) == if env.implemented(SetEuid) then 1 else 0;
    assert ImplementedPrefix(env, calls[1..][1..])
        == if env.implemented(SetUid) then 1 + ImplementedPrefix(env, calls[1..][1..][1..]) else 0;
    assert ImplementedPrefix(env, calls[1..])
        == if env.implemented(SetEgid) then 1 + ImplementedPrefix(env, calls[1..][1..]) else 0;
    assert calls[..1] == [SetId(SetGid, group)];
    assert calls[..2] == [SetId(SetGid, group), SetId(SetEgid, group)];
    assert calls[..3] == [SetId(SetGid, group), SetId(SetEgid, group), SetId(SetUid, user)];
  }

  /** The calls `change_user` makes, in order. */
  function ChangeUserEffects(env: OsEnv, user: int, group: int): seq<Effect> {
    if env.respondsToSetres && env.implemented(SetResGid) && env.implemented(SetResUid) then
      [SetId(SetResGid, group), SetId(SetResUid, user)]
    else if env.respondsToSetres && env.implemented(SetResGid) then
      [SetId(SetResGid, group)] + FallbackEffects(env, user, group)
    else
      FallbackEffects(env, user, group)
  }

  /** Group ids are always set before user ids: no group call follows a user call. */
  lemma GroupBeforeUser(env: OsEnv, user: int, group: int)
    ensures var t := ChangeUserEffects(env, user, group);
      forall i, j :: 0 <= i < j < |t| && SetsUser(t[i]) ==> !SetsGroup(t[j])
    ensures forall e :: e in ChangeUserEffects(env, user, group) ==>
      (SetsGroup(e) && e.id == group) || (SetsUser(e) && e.id == user)
  {
    var calls := [SetId(SetGid, group), SetId(SetEgid, group), SetId(SetUid, user), SetId(SetEuid, user)];
    var n := ImplementedPrefix(env, calls);
    var fb := FallbackEffects(env, user, group);
    assert fb == calls[..n];
    assert forall i :: 0 <= i < |fb| && SetsUser(fb[i]) ==> i >= 2;
  }

  /** With saved-id calls available, the drop is exactly setresgid then setresuid. */
  lemma SavedIdsDrop(env: OsEnv, user: int, group: int)
    requires env.respondsToSetres && env.implemented(SetResGid) && env.implemented(SetResUid)
    ensures ChangeUserEffects(env, user, group) == [SetId(SetResGid, group), SetId(SetResUid, user)]
  {
  }

  /** Without saved-id calls, a platform implementing the rest sets gid, egid, uid, euid. */
  lemma FallbackDrop(env: OsEnv, user: int, group: int)
    requires !env.respondsToSetres
    requires env.implemented(SetGid) && env.implemented(SetEgid)
    requires env.implemented(SetUid) && env.implemented(SetEuid)
    ensures ChangeUserEffects(env, user, group)
         == [SetId(SetGid, group), SetId(SetEgid, group), SetId(SetUid, user), SetId(SetEuid, user)]
  {
    var calls := [SetId(SetGid, group), SetId(SetEgid, group), SetId(SetUid, user), SetId(SetEuid, user)];
    assert ImplementedPrefix(env, calls) == 4;
  }

  /**
   * `trace` is one `chown_R(user, group, p)` for each path of `paths` that
   * exists, each exactly once, and nothing else (in the set's iteration order).
   */
  ghost predicate ChownPhase(trace: seq<Effect>, paths: set<string>, pathExists: string -> bool, user: int, group: int) {
    && (forall k :: 0 <= k < |trace| ==>
          trace[k].ChownR? && trace[k].user == user && trace[k].group == group
          && trace[k].path in paths && pathExists(trace[k].path))
    && (forall k, l :: 0 <= k < l < |trace| ==> trace[k] != trace[l])
    && (forall p :: p in paths && pathExists(p) ==> ChownR(user, group, p) in trace)
  }

  /** The effects of `:stop_capture`: the chown phase, then `change_user`. */
  ghost predicate StopEffects(before: seq<Effect>, after: seq<Effect>, paths: set<string>,
                              env: OsEnv, user: int, group: int) {
    var cu := ChangeUserEffects(env, user, group);
    && |after| >= |before| + |cu|
    && after[..|before|] == before
    && after[|after| - |cu|..] == cu
    && ChownPhase(after[|before|..|after| - |cu|], paths, env.pathExists, user, group)
  }

  class FSObserver {
    const user: int
    const group: int
    var pathSet: set<string>
    var filterSet: set<Filter>
    /** The calls made into the operating system, oldest first. */
    ghost var effects: seq<Effect>

    function View(): Sets
      reads this
    {
      Sets(pathSet, filterSet)
    }

    /** `FSObserver.new(user, group, :paths => paths)`. */
    constructor (user: int, group: int, paths: Paths)
      ensures this.user == user && this.group == group
      ensures View() == Initial(paths)
      ensures effects == []
    {
      this.user := user;
      this.group := group;
      pathSet := InitialPathSet(paths);
      filterSet := {SystemDirFilter};
      effects := [];
    }

    /** `update(msg)`. */
    method Update(msg: Message, env: OsEnv)
      modifies this
      ensures View() == Receive(old(View()), msg)
      ensures msg.command != StopCapture ==> effects == old(effects)
      ensures msg.command == StopCapture ==> StopEffects(old(effects), effects, pathSet, env, user, group)
    {
      match msg.command {
        case AddPath =>
          if msg.data.Some? {
            var p := msg.data.value;
            if !MatchFilter(filterSet, p) {
              pathSet := pathSet + {p};
              filterSet := filterSet + {DescendantsOf(p)};
            }
          }
        case StopCapture =>
          ghost var before := effects;
          DoChown(env);
          ghost var chowned := effects;
          ChangeUser(env);
          assert effects[..|before|] == before;
          assert effects[|before|..|effects| - |ChangeUserEffects(env, user, group)|] == chowned[|before|..];
        case _ =>
      }
    }

    /** `do_chown`: `chown_R` every recorded path that still exists. */
    method DoChown(env: OsEnv)
      modifies this`effects
      ensures |effects| >= |old(effects)| && effects[..|old(effects)|] == old(effects)
      ensures ChownPhase(effects[|old(effects)|..], pathSet, env.pathExists, user, group)
    {
      ghost var start := |effects|;
      var remaining := pathSet;
      while remaining != {}
        invariant remaining <= pathSet
        invariant |effects| >= start && effects[..start] == old(effects)
        invariant ChownPhase(effects[start..], pathSet - remaining, env.pathExists, user, group)
        decreases remaining
      {
        var p :| p in remaining;
        ghost var done := pathSet - remaining;
        ghost var prev := effects;
        if env.pathExists(p) {
          effects := effects + [ChownR(user, group, p)];
          assert effects[start..] == prev[start..] + [ChownR(user, group, p)];
        }
        remaining := remaining - {p};
        assert pathSet - remaining == done + {p};
      }
    }

    /** `change_user`: drop to the target group, then the target user. */
    method ChangeUser(env: OsEnv)
      modifies this`effects
      ensures effects == old(effects) + ChangeUserEffects(env, user, group)
    {
      if env.respondsToSetres && env.implemented(SetResGid) {
        effects := effects + [SetId(SetResGid, group)];
        if env.implemented(SetResUid) {
          effects := effects + [SetId(SetResUid, user)];
          return;
        }
      }
      FallbackCases(env, user, group);
      if env.implemented(SetGid) {
        effects := effects + [SetId(SetGid, group)];
        if env.implemented(SetEgid) {
          effects := effects + [SetId(SetEgid, group)];
          if env.implemented(SetUid) {
            effects := effects + [SetId(SetUid, user)];
            if env.implemented(SetEuid) {
              effects := effects + [SetId(SetEuid, user)];
            }
          }
        }
      }
    }
  }
}
