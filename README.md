# boxgrinder-build core, modelled in Dafny

This project models the core of boxgrinder-build, the tool that builds virtual
appliances and delivers them to platforms. It proves properties of that model.
One Dafny module stands for each core source file:

- **WriteMonitor** (`write-monitor.rb`): the privileged write capture. While
  the capture flag is held, hooked file operations report the path they wrote
  to every registered observer. `capture`, `stop`, `reset` and `add_path` are
  methods of a `Monitor` class, proved against step functions over a `State`
  value.
- **FsObserver** (`fs-observer.rb`): the observer that records the written
  paths, filtered through a system-directory blacklist and a "descendants of p"
  pattern per accepted path. On `:stop_capture` it chowns what still exists
  and drops privileges, group before user.
- **ConcurrentGetSet** (`get_set.rb`): the get-or-replace cell.
- **OptionParser** (`option-parser.rb`): splitting plugin configuration
  strings (`k1:v1,k2:{a:b}`), the brace scan of `parse_json`, and the in-place
  normalisation of the option hash.
- **CommandHelper** (`command-helper.rb`): an option hash rendered as
  command-line flags, and an `a=b&c=d` string parsed back into a hash, with
  the delimiter arrays shared and shifted as the source does.
- **VmwareImage** (`vmware-image.rb`): the SCSI disk geometry, the `gsub!`
  sequences that fill the `.vmdk` and `.vmx` templates, the ESX network
  default and the rule for refreshing the raw disk.
- **TransferCopy**, **TransferPlugin** and **Transfer** (`copy.rb`,
  `transfer-plugin.rb`, `transfer.rb`): the local block copy with its progress
  bar, the scheme registry, the two `lookup` definitions and the order in
  which loading replaces one with the other, the registry each listing order
  of the transfer directory leaves, and `Transfer.open`.
- **LibvirtErrors** (`errors.rb`): the error hierarchy and the classification
  of virt-install's standard error.
- **Version** (`version.rb`): the version string and the plugin listing.
- **PluginConfig**: a plugin's configuration hash with the base class's
  `set_default_config_value` and `validate_plugin_config`, as the two delivery
  plugins call them.
- **SftpHelper** and **SftpPlugin** (`sftp-helper.rb`, `sftp-plugin.rb`): the
  session state, the size label, the upload-or-skip rule with its "i/n"
  counter, `validate` and the list of SSH key paths.
- **LibvirtPlugin** (`libvirt-plugin.rb`): what `validate` derives and writes
  back into the configuration, the delivery branch of `execute`, the domain
  description `build_xml` produces, and `determine_remotely`'s policy for a
  domain that already exists.

Three support modules hold shared definitions. **Wrappers** has Option,
Result and Outcome, and prepending to a list result. **Strings** has
prefixes, `strip`, split and join, the last component of a path, decimal
rendering and replace-all, with their own lemmas. **Notifications** has the
messages the monitor and the observer exchange.

The file system, the network, the process environment and calls into
libraries outside this model are parameters of the operations. Where an
operation has effects on them, the effects are recorded in order, as a ghost
log or as a returned sequence.

Ruby's `nil` and truthiness are modelled explicitly wherever a value may be
`nil` or `false`. Integer arithmetic is floor division on non-negative
operands, where Ruby and Dafny agree.

## Model

| member | source | states |
|---|---|---|
| WriteMonitor.WriteModesAreExactlyFour | lib/boxgrinder-build/util/permissions/write-monitor.rb:93 | the mode test `^(w|a)[+]?$` accepts exactly "w", "a", "w+" and "a+" |
| WriteMonitor.FirstSepFrom | lib/boxgrinder-build/util/permissions/write-monitor.rb:138 | the least index at or after a start holding '/' or '$', or none when no later character is one |
| WriteMonitor.RootDir | lib/boxgrinder-build/util/permissions/write-monitor.rb:137-141 | `root_dir` is a prefix of its argument: the whole path, or a prefix of length at least 2 ending in a separator with no separator before it in the lazily matched part |
| WriteMonitor.RootDirIdempotent | lib/boxgrinder-build/util/permissions/write-monitor.rb:137-141 | the root directory of a root directory is itself |
| WriteMonitor.RootDirAbsolute | lib/boxgrinder-build/util/permissions/write-monitor.rb:138 | with a leading '/', the match ends at the first separator at index 2 or later |
| WriteMonitor.RootDirRelative | lib/boxgrinder-build/util/permissions/write-monitor.rb:138 | without a leading '/', the match ends at the first separator at index 1 or later |
| WriteMonitor.RootDirExamples | lib/boxgrinder-build/util/permissions/write-monitor.rb:137-141 | '/a_new_dir/and/other/junk' gives '/a_new_dir/' and 'relative/dir' gives 'relative/' |
| WriteMonitor.RootDirWholeExamples | lib/boxgrinder-build/util/permissions/write-monitor.rb:139-140 | '//', '/top' and 'plain' come back unchanged |
| WriteMonitor.RecordedPathModes | lib/boxgrinder-build/util/permissions/write-monitor.rb:92-94 | `open`/`new` record the path only when the receiver is `File` and the mode is a write mode; "r", "wb", no mode or a subclass record nothing |
| WriteMonitor.RecordedPathTargets | lib/boxgrinder-build/util/permissions/write-monitor.rb:96-102 | `rename`, `symlink` and `link` record their new path; `mkdir` records the root directory |
| WriteMonitor.Broadcast | lib/boxgrinder-build/util/permissions/write-monitor.rb:88 | `notify_observers` makes one `update` per registered observer, in registration order |
| WriteMonitor.RunWorkOnlyAddPaths | lib/boxgrinder-build/util/permissions/write-monitor.rb:121-124 | the work inside a capture keeps the flag and observers and only appends `:add_paths` events |
| WriteMonitor.CaptureBlockSendsOneStop | lib/boxgrinder-build/util/permissions/write-monitor.rb:43-53 | a completed block capture registers the observers, releases the flag and ends with exactly one `:stop_capture` per observer after the block's `:add_paths` events |
| WriteMonitor.CaptureBlockRaiseLeavesFlagHeld | lib/boxgrinder-build/util/permissions/write-monitor.rb:48-51 | when the block raises, `_stop` is skipped: the flag stays held and no `:stop_capture` is sent |
| WriteMonitor.CaptureThenStop | lib/boxgrinder-build/util/permissions/write-monitor.rb:57-59 | a capture without a block leaves the flag held until `stop`, which releases it and sends `:stop_capture` to every observer |
| WriteMonitor.RecursiveCaptureRaises | lib/boxgrinder-build/util/permissions/write-monitor.rb:80-83 | capturing while the flag is held raises `ThreadError` after registering the observers, and the block never runs |
| WriteMonitor.StopWhenIdleRaises | lib/boxgrinder-build/util/permissions/write-monitor.rb:85-89 | `stop` and `reset` on an idle monitor raise `ThreadError` and change nothing; `reset` keeps its observers |
| WriteMonitor.ResetClearsObservers | lib/boxgrinder-build/util/permissions/write-monitor.rb:62-67 | a `reset` during a capture releases the flag, notifies the old observers and leaves none |
| WriteMonitor.AddPathDelivers | lib/boxgrinder-build/util/permissions/write-monitor.rb:70-75 | `add_path` raises "No observers set!" with no observer, else each observer gets exactly one `:add_paths` event carrying the real path |
| WriteMonitor.HookPassesThrough | lib/boxgrinder-build/util/permissions/write-monitor.rb:121-124 | a hooked call runs the original first, passes its raise through, and records nothing outside a capture or for an unrecorded operation |
| WriteMonitor.MonitorEventsIgnoredByObserver | lib/boxgrinder-build/util/permissions/write-monitor.rb:74 | the `:add_paths` events the monitor sends leave an `FSObserver`'s sets unchanged, since it reacts only to `:add_path` |
| WriteMonitor.Monitor.constructor | lib/boxgrinder-build/util/permissions/write-monitor.rb:30-35 | a new monitor has the flag free, no observers and no deliveries |
| WriteMonitor.Monitor.Notify | lib/boxgrinder-build/util/permissions/write-monitor.rb:87-88 | appends one delivery per observer and changes nothing else |
| WriteMonitor.Monitor.DoStop | lib/boxgrinder-build/util/permissions/write-monitor.rb:85-89 | `_stop` moves the monitor as the `StopStep` specification says |
| WriteMonitor.Monitor.Stop | lib/boxgrinder-build/util/permissions/write-monitor.rb:57-59 | `stop` is `_stop` |
| WriteMonitor.Monitor.Reset | lib/boxgrinder-build/util/permissions/write-monitor.rb:62-67 | `reset` moves the monitor as the `ResetStep` specification says |
| WriteMonitor.Monitor.AddPath | lib/boxgrinder-build/util/permissions/write-monitor.rb:70-76 | `add_path` moves the monitor as the `AddPathStep` specification says |
| WriteMonitor.Monitor.HookedCall | lib/boxgrinder-build/util/permissions/write-monitor.rb:121-124 | a hooked call moves the monitor as the `Hooked` specification says |
| WriteMonitor.Monitor.Capture | lib/boxgrinder-build/util/permissions/write-monitor.rb:43-47 | `capture` without a block moves the monitor as `CaptureNoBlock` says |
| WriteMonitor.Monitor.CaptureWith | lib/boxgrinder-build/util/permissions/write-monitor.rb:43-53 | `capture` with a block moves the monitor as `CaptureBlock` says |
| WriteMonitor.IsWriteMode | lib/boxgrinder-build/util/permissions/write-monitor.rb:93 | the mode test; WriteModesAreExactlyFour states that it accepts exactly "w", "a", "w+" and "a+" |
| WriteMonitor.RootDirEnd | lib/boxgrinder-build/util/permissions/write-monitor.rb:137-141 | where the `root_dir` match ends; RootDir, RootDirAbsolute and RootDirIdempotent state the prefix it selects |
| WriteMonitor.RecordedPath | lib/boxgrinder-build/util/permissions/write-monitor.rb:91-103 | the path a hooked call reports; RecordedPathModes and RecordedPathTargets state which calls record which path |
| WriteMonitor.StopStep | lib/boxgrinder-build/util/permissions/write-monitor.rb:85-89 | specification of `_stop`; CaptureThenStop and StopWhenIdleRaises state that it releases the flag and notifies every observer, and raises ThreadError when idle |
| WriteMonitor.ResetStep | lib/boxgrinder-build/util/permissions/write-monitor.rb:62-67 | specification of `reset`; ResetClearsObservers states that it notifies the old observers and leaves none |
| WriteMonitor.AddPathStep | lib/boxgrinder-build/util/permissions/write-monitor.rb:70-76 | specification of `add_path`; AddPathDelivers states that it raises with no observer, else sends each observer one `:add_paths` event with the real path |
| WriteMonitor.Hooked | lib/boxgrinder-build/util/permissions/write-monitor.rb:121-125 | specification of a hooked call; HookPassesThrough states that the original runs first and nothing is recorded outside a capture |
| WriteMonitor.RunWork | lib/boxgrinder-build/util/permissions/write-monitor.rb:43-53 | specification of the block inside `capture`; RunWorkOnlyAddPaths states that it keeps the flag and observers and only appends `:add_paths` events |
| WriteMonitor.CaptureNoBlock | lib/boxgrinder-build/util/permissions/write-monitor.rb:43-47 | specification of `capture` without a block; CaptureThenStop and RecursiveCaptureRaises state that it holds the flag, or raises ThreadError when already held |
| WriteMonitor.CaptureBlock | lib/boxgrinder-build/util/permissions/write-monitor.rb:43-53 | specification of `capture` with a block; CaptureBlockSendsOneStop and CaptureBlockRaiseLeavesFlagHeld state one `:stop_capture` per observer, or a held flag when the block raises |
| FsObserver.AddAllGrows | lib/boxgrinder-build/util/permissions/fs-observer.rb:56-60 | under `:add_path` both sets only grow |
| FsObserver.EverySubmittedPathCovered | lib/boxgrinder-build/util/permissions/fs-observer.rb:56-60 | every submitted path ends up recorded or matched by a filter |
| FsObserver.OnlySubmittedPathsRecorded | lib/boxgrinder-build/util/permissions/fs-observer.rb:35-58 | the recorded paths are the initial paths and submitted paths, nothing else |
| FsObserver.FilteredNeverRecorded | lib/boxgrinder-build/util/permissions/fs-observer.rb:57-79 | a path matched by a filter already present is never recorded afterwards |
| FsObserver.BlacklistNeverRecorded | lib/boxgrinder-build/util/permissions/fs-observer.rb:38-57 | a path under a system directory is never recorded through `:add_path` |
| FsObserver.DescendantsRejectedAfterAccept | lib/boxgrinder-build/util/permissions/fs-observer.rb:57-71 | an accepted path is recorded and none of its descendants is recorded after it |
| FsObserver.AddPathIdempotent | lib/boxgrinder-build/util/permissions/fs-observer.rb:58-59 | re-adding a path leaves both sets as the first add left them |
| FsObserver.BlacklistBoundaries | lib/boxgrinder-build/util/permissions/fs-observer.rb:38 | '/etc/passwd' is blacklisted; '/etc', '/etcx/y' and '/tmp/x/build/output' are not |
| FsObserver.SuppressionIsOrderDependent | lib/boxgrinder-build/util/permissions/fs-observer.rb:35-60 | a descendant accepted before its ancestor stays recorded, one submitted after is dropped, and initial paths add no filter |
| FsObserver.SingleWriteScenario | lib/boxgrinder-build/util/permissions/fs-observer.rb:56-60 | one tracked write records one path and adds one descendant pattern |
| FsObserver.AddPathsIgnored | lib/boxgrinder-build/util/permissions/fs-observer.rb:55-64 | an `:add_paths` command (plural) changes neither set |
| FsObserver.ImplementedPrefix | lib/boxgrinder-build/util/permissions/fs-observer.rb:91-96 | the calls that run before the first one raising `NotImplementedError`, and the one that raises |
| FsObserver.FallbackCases | lib/boxgrinder-build/util/permissions/fs-observer.rb:91-96 | the fallback block stops at the first id call the platform lacks |
| FsObserver.GroupBeforeUser | lib/boxgrinder-build/util/permissions/fs-observer.rb:81-97 | `change_user` never sets a group id after a user id |
| FsObserver.SavedIdsDrop | lib/boxgrinder-build/util/permissions/fs-observer.rb:83-86 | with saved-id calls available the drop is exactly setresgid(g,g,g) then setresuid(u,u,u) |
| FsObserver.FallbackDrop | lib/boxgrinder-build/util/permissions/fs-observer.rb:91-96 | without them a full platform sets gid, egid, uid and euid in that order |
| FsObserver.FSObserver.constructor | lib/boxgrinder-build/util/permissions/fs-observer.rb:34-41 | `path_set` holds the given paths and `filter_set` exactly the system-directory pattern |
| FsObserver.FSObserver.Update | lib/boxgrinder-build/util/permissions/fs-observer.rb:54-65 | the sets change as `Receive` says; only `:stop_capture` touches the OS: chown, then change user |
| FsObserver.FSObserver.DoChown | lib/boxgrinder-build/util/permissions/fs-observer.rb:73-75 | one `chown_R` per recorded path that exists, each exactly once, and nothing else |
| FsObserver.FSObserver.ChangeUser | lib/boxgrinder-build/util/permissions/fs-observer.rb:81-97 | appends exactly the `change_user` calls |
| FsObserver.AddPathStep | lib/boxgrinder-build/util/permissions/fs-observer.rb:56-60 | specification of one `:add_path`; AddPathIdempotent and DescendantsRejectedAfterAccept state that re-adding changes nothing and descendants are dropped afterwards |
| FsObserver.Receive | lib/boxgrinder-build/util/permissions/fs-observer.rb:54-65 | what `update` does to the sets; AddPathsIgnored states that `:add_paths` changes neither set |
| FsObserver.AddAll | lib/boxgrinder-build/util/permissions/fs-observer.rb:54-60 | a sequence of `:add_path` updates; AddAllGrows, OnlySubmittedPathsRecorded and EverySubmittedPathCovered state how the sets grow |
| FsObserver.FallbackEffects | lib/boxgrinder-build/util/permissions/fs-observer.rb:91-96 | specification of the fallback block; FallbackCases and FallbackDrop state that it stops at the first missing call and otherwise sets gid, egid, uid, euid |
| FsObserver.ChangeUserEffects | lib/boxgrinder-build/util/permissions/fs-observer.rb:81-97 | specification of `change_user`; GroupBeforeUser and SavedIdsDrop state that no group id is set after a user id |
| ConcurrentGetSet.ReadLeavesValue | lib/boxgrinder-build/util/concurrent/get_set.rb:18-25 | without a block and with a nil `set_val` the call is a pure read |
| ConcurrentGetSet.NonNilReplaces | lib/boxgrinder-build/util/concurrent/get_set.rb:23-25 | without a block any non-nil `set_val`, `false` included, becomes the value and is returned |
| ConcurrentGetSet.BlockDecides | lib/boxgrinder-build/util/concurrent/get_set.rb:20-25 | with a block the value becomes the block applied to the old value, whatever `set_val` is |
| ConcurrentGetSet.NilOnlyThroughBlock | lib/boxgrinder-build/util/concurrent/get_set.rb:20-23 | a non-nil value becomes nil only when a block returns nil |
| ConcurrentGetSet.GetSet.constructor | lib/boxgrinder-build/util/concurrent/get_set.rb:4-5 | a new cell holds the initial state |
| ConcurrentGetSet.GetSet.Default | lib/boxgrinder-build/util/concurrent/get_set.rb:4-5 | the initial state defaults to `false` |
| ConcurrentGetSet.GetSet.GetAndSet | lib/boxgrinder-build/util/concurrent/get_set.rb:18-27 | stores the next value and returns it |
| ConcurrentGetSet.Next | lib/boxgrinder-build/util/concurrent/get_set.rb:18-27 | specification of `get_set`; ReadLeavesValue, NonNilReplaces, BlockDecides and NilOnlyThroughBlock state its cases |
| OptionParser.ScanLength | lib/boxgrinder-build/option-parser.rb:177-188 | the scan reads up to the first prefix holding a brace and as many '{' as '}', or the whole string when there is none |
| OptionParser.BraceScan | lib/boxgrinder-build/option-parser.rb:177-188 | the first '{' and last '}' the scan notes are really braces of the string |
| OptionParser.PrefixStep | lib/boxgrinder-build/option-parser.rb:178-185 | the counts, first '{' and last '}' of a prefix one character longer are what the `inject` block makes of the shorter prefix's |
| OptionParser.ScanBraces | lib/boxgrinder-build/option-parser.rb:177-188 | the `inject` loop computes the counter, the first '{' and the last '}' as the counting specification says |
| OptionParser.FindKey | lib/boxgrinder-build/option-parser.rb:207-212 | one past the last ',' at or before the first '{', with no ',' between; nil exactly when there is no ',' there |
| OptionParser.ParseJson | lib/boxgrinder-build/option-parser.rb:171-205 | one piece equal to the input, or three pieces whose last is shorter than the input, or a die |
| OptionParser.Cut | lib/boxgrinder-build/option-parser.rb:190-204 | the slicing after the scan returns `[str]` or three pieces whose remainder is shorter than the input |
| OptionParser.RunParseJson | lib/boxgrinder-build/option-parser.rb:171-205 | the method computes `parse_json` as specified |
| OptionParser.ParseJsonWhole | lib/boxgrinder-build/option-parser.rb:190-192 | `[str]` comes back exactly when the string lacks '{' or lacks '}', balanced or not |
| OptionParser.ParseJsonImbalance | lib/boxgrinder-build/option-parser.rb:194-196 | with both brace kinds present, "Brace imbalance" exactly when no prefix balances |
| OptionParser.ScanEndsBalanced | lib/boxgrinder-build/option-parser.rb:177-187 | when some non-empty prefix balances its braces, the `inject` breaks inside the text at a prefix whose balance is 0 |
| OptionParser.BalancedScan | lib/boxgrinder-build/option-parser.rb:177-188 | when the `inject` breaks, the balancer is 0, the recorded left index is the text's first '{' and a right index was recorded |
| OptionParser.ParseJsonNeedsComma | lib/boxgrinder-build/option-parser.rb:198-201 | a balanced braced value with no comma before its '{' makes `find_key` nil and the slice fail |
| OptionParser.ParseJsonCuts | lib/boxgrinder-build/option-parser.rb:198-204 | the three pieces are cut after the comma before the first '{' and after a '}' |
| OptionParser.ParseJsonRoundTrip | lib/boxgrinder-build/option-parser.rb:200-204 | when no '}' precedes the first '{', the three pieces concatenate back to the input, the key part ending in ',' and the value in '}' |
| OptionParser.ParseJsonLosesText | lib/boxgrinder-build/option-parser.rb:200-204 | when a '}' comes first the value piece is empty and the pieces do not rebuild the input |
| OptionParser.StripAll | lib/boxgrinder-build/option-parser.rb:161 | `map(&:strip)`: each element stripped, in order |
| OptionParser.NonEmpty | lib/boxgrinder-build/option-parser.rb:168 | `reject { \|r\| r.empty? }`: only non-empty elements, and every non-empty one is kept |
| OptionParser.RawArgumentsUnfold | lib/boxgrinder-build/option-parser.rb:158-169 | one level of `split_arguments`: the comma fields, then the braced value, then the recursion on the rest |
| OptionParser.CollectArguments | lib/boxgrinder-build/option-parser.rb:158-169 | the loop pushing onto `args` computes `split_arguments` |
| OptionParser.SplitArgumentsShape | lib/boxgrinder-build/option-parser.rb:158-169 | every argument is non-empty and either a stripped comma-free field or a braced value ending in '}' |
| OptionParser.SplitArgumentsPlain | lib/boxgrinder-build/option-parser.rb:161-168 | without a '{' the result is the comma split, stripped, with empties dropped |
| OptionParser.AssignColonFrom | lib/boxgrinder-build/option-parser.rb:143 | the first ':' not preceded by '\' at or after a start, or none |
| OptionParser.SplitAssign | lib/boxgrinder-build/option-parser.rb:143-148 | key + ":" + value rebuilds the pair, the key holds no unescaped ':', and no match exactly when there is no unescaped ':' |
| OptionParser.SplitAssignAt | lib/boxgrinder-build/option-parser.rb:143 | the split happens at the first unescaped ':' |
| OptionParser.SplitAssignJoin | lib/boxgrinder-build/option-parser.rb:143 | a key with no ':' and no trailing '\', joined to any value, splits back into the two |
| OptionParser.SplitAssignExamples | lib/boxgrinder-build/option-parser.rb:143 | 'format:qcow2' splits into 'format' and 'qcow2'; 'url:http://x' splits at its first colon, so the value keeps the URL's own (for every value, see SplitAssignJoin) |
| OptionParser.SplitAssignEscaped | lib/boxgrinder-build/option-parser.rb:143 | 'a\:b:c' splits at the unescaped colon; 'a\:b' does not match |
| OptionParser.SplitPairsSucceeds | lib/boxgrinder-build/option-parser.rb:146-155 | `split_pairs` succeeds exactly when every element has an unescaped ':', else dies with "Invalid format" |
| OptionParser.SplitPairsMeaning | lib/boxgrinder-build/option-parser.rb:146-155 | the keys are the stripped keys and each maps to the stripped value of its last occurrence |
| OptionParser.SplitPairsKeys | lib/boxgrinder-build/option-parser.rb:149 | a key is in the hash exactly when some pair has it |
| OptionParser.SplitPairsUpdates | lib/boxgrinder-build/option-parser.rb:147-149 | `split_pairs` is the left-to-right hash update with the stripped key/value pairs |
| OptionParser.SplitPairsLastWins | lib/boxgrinder-build/option-parser.rb:149 | the last pair with a key decides its value |
| OptionParser.SplitPairsSnoc | lib/boxgrinder-build/option-parser.rb:147-149 | the last pair is written over what the earlier ones built |
| OptionParser.SplitPairsLaterKeyWins | lib/boxgrinder-build/option-parser.rb:149 | of two pairs with one key the later one wins |
| OptionParser.SplitPairsFormatExample | lib/boxgrinder-build/option-parser.rb:146-155 | 'format:qcow2,format:raw' gives {format: raw} |
| OptionParser.SplitPairsRejectsBareWord | lib/boxgrinder-build/option-parser.rb:150-152 | a pair without ':' makes the parse die whatever came before |
| OptionParser.DirectedDependenciesMeaning | lib/boxgrinder-build/option-parser.rb:110-116 | passes exactly when no `tail` option is set without its `head`; otherwise dies naming the first such tail |
| OptionParser.LogLevelChoice | lib/boxgrinder-build/option-parser.rb:129-131 | `--trace` wins over `--debug`; with neither the hash is unchanged |
| OptionParser.ParseSubconfigFrame | lib/boxgrinder-build/option-parser.rb:135-138 | parsing one option keeps the set of keys and every other option's value; a set option ends as a hash and an unset one is left as it was |
| OptionParser.SubconfigsMeaning | lib/boxgrinder-build/option-parser.rb:134-141 | each given configuration becomes a hash and nothing else changes |
| OptionParser.CastAsWrittenWipes | lib/boxgrinder-build/option-parser.rb:224-241 | as written every listed key ends up {}, [] or nil whatever it held |
| OptionParser.CastAsWrittenLosesConfig | lib/boxgrinder-build/option-parser.rb:228-230 | a parsed `--os-config` hash is replaced by {} |
| OptionParser.CastBlockIdempotent | lib/boxgrinder-build/option-parser.rb:225-233 | each cast block applied twice gives what it gives once |
| OptionParser.CastIntendedKeeps | lib/boxgrinder-build/option-parser.rb:236-241 | the corrected `cast` keeps a set value and gives only unset keys the default |
| OptionParser.CastIntendedKeepsConfig | lib/boxgrinder-build/option-parser.rb:228-230 | with the corrected `cast` a parsed `--os-config` hash survives |
| OptionParser.RenameMoves | lib/boxgrinder-build/option-parser.rb:217-222 | the value moves to the new name, the old name disappears, other keys are untouched |
| OptionParser.Options.constructor | lib/boxgrinder-build/option-parser.rb:105 | the option hash holds the given entries |
| OptionParser.Options.ValidateLogging | lib/boxgrinder-build/option-parser.rb:129-131 | rewrites the hash as `SetLogLevel` says |
| OptionParser.Options.ValidateSubconfig | lib/boxgrinder-build/option-parser.rb:133-140 | passes exactly when every configuration parses, leaving the hash `Subconfigs` describes |
| OptionParser.Options.ValidateConfigs | lib/boxgrinder-build/option-parser.rb:134-139 | the loop over the configuration options, proved against `Subconfigs` |
| OptionParser.Options.ParseConfig | lib/boxgrinder-build/option-parser.rb:135-138 | one option: an unset one is left alone, a set one that is not an array fails, an array is parsed as `ParseSubconfig` says |
| OptionParser.Options.ParseArray | lib/boxgrinder-build/option-parser.rb:136-137 | the joined text is split into arguments and stored, then split into pairs and stored; either split may fail |
| OptionParser.Options.StorePairs | lib/boxgrinder-build/option-parser.rb:137-138 | the split arguments are stored under the option, then replaced by their pairs; it passes exactly when the pairs split, and the failure carries the split's error |
| OptionParser.Options.Cast | lib/boxgrinder-build/option-parser.rb:236-241 | rewrites each listed key with the block applied to its stored value (the corrected `cast`; see Findings), leaving other keys alone |
| OptionParser.Options.DefaultHash | lib/boxgrinder-build/option-parser.rb:228-230 | `default_hash` with the corrected `cast`: an unset listed key becomes `{}`, a set one is kept |
| OptionParser.Options.DefaultArray | lib/boxgrinder-build/option-parser.rb:224-226 | `default_array` with the corrected `cast`: an unset listed key becomes `[]`, a set one is kept |
| OptionParser.Options.AsSymbol | lib/boxgrinder-build/option-parser.rb:232-234 | `as_symbol` with the corrected `cast`: a set string becomes a symbol, nil and false are kept |
| OptionParser.Options.InternalRename | lib/boxgrinder-build/option-parser.rb:217-222 | rewrites the hash as `Renamed` says |
| OptionParser.SplitPairs | lib/boxgrinder-build/option-parser.rb:146-156 | specification of `split_pairs`; SplitPairsMeaning states that the keys are the stripped keys and each holds the stripped value of its last pair, SplitPairsRejectsBareWord the "Invalid format" error |
| OptionParser.RawArguments | lib/boxgrinder-build/option-parser.rb:158-169 | specification of the recursion of `split_arguments`; RawArgumentsUnfold states one level of it and CollectArguments proves the loop against it |
| OptionParser.SplitArguments | lib/boxgrinder-build/option-parser.rb:158-169 | specification of `split_arguments`; SplitArgumentsShape states that every argument is a non-empty stripped field or a braced value |
| OptionParser.DirectedDependencies | lib/boxgrinder-build/option-parser.rb:110-116 | specification of `validate_directed_dependencies`; DirectedDependenciesMeaning states that it passes exactly when no tail is set without its head, else names the first such tail |
| OptionParser.SetLogLevel | lib/boxgrinder-build/option-parser.rb:129-131 | specification of `validate_logging`; LogLevelChoice states that `--trace` wins over `--debug` and with neither the hash is unchanged |
| OptionParser.ParseSubconfig | lib/boxgrinder-build/option-parser.rb:135-138 | specification of one configuration option; ParseSubconfigCases and ParseSubconfigFrame state its cases and that only that key changes |
| OptionParser.Subconfigs | lib/boxgrinder-build/option-parser.rb:134-140 | specification of `validate_subconfig`; ValidateSubconfig and ValidateConfigs are proved against it |
| OptionParser.CastAsWritten | lib/boxgrinder-build/option-parser.rb:236-241 | specification of `cast` as written; CastAsWrittenLosesConfig states that a parsed `--os-config` hash is replaced by {} |
| OptionParser.CastIntended | lib/boxgrinder-build/option-parser.rb:236-241 | specification of the corrected `cast`; CastIntendedKeepsConfig and CastBlockIdempotent state that a parsed hash survives and each block is idempotent |
| OptionParser.Renamed | lib/boxgrinder-build/option-parser.rb:217-222 | specification of `internal_rename`; RenameMoves states that the value moves to the new name, the old name disappears and other keys are untouched |
| CommandHelper.FlagDashes | lib/boxgrinder-build/helpers/command-helper.rb:10 | a key gets " -k" exactly when its string form has length 1, " --key" otherwise, and the flag ends with the key |
| CommandHelper.SubstrShifts | lib/boxgrinder-build/helpers/command-helper.rb:34-50 | a value renders exactly when it holds no more hashes than delimiter pairs remain, and rendering shifts one pair per hash |
| CommandHelper.EntriesShift | lib/boxgrinder-build/helpers/command-helper.rb:43-49 | the entries of a nested hash render exactly when their hashes fit the remaining pairs |
| CommandHelper.RenderScalars | lib/boxgrinder-build/helpers/command-helper.rb:8-56 | a nil or true value adds only its flag; any other scalar adds " " and its quoted text |
| CommandHelper.RenderFlatHash | lib/boxgrinder-build/helpers/command-helper.rb:42-50 | a flat hash value uses ',' and ':' first and renders "k1:<quoted>,k2" for a scalar entry and a nil entry |
| CommandHelper.RenderEmptyHashFirst | lib/boxgrinder-build/helpers/command-helper.rb:37-50 | an empty-hash value with a delimiter pair left adds its flag and a space, takes that pair, and the arguments after it are rendered with the pairs that remain |
| CommandHelper.RenderEmptyHashExhausted | lib/boxgrinder-build/helpers/command-helper.rb:38-40 | a hash value with no delimiter pair left adds its key's flag and raises the depth-exhausted error, rendering nothing after it |
| CommandHelper.RenderTwoEmptyHashes | lib/boxgrinder-build/helpers/command-helper.rb:38-42 | with two delimiter pairs, two leading empty-hash values each add their flag and a space and take one pair, so whatever follows is rendered with none left |
| CommandHelper.ThirdHashRaises | lib/boxgrinder-build/helpers/command-helper.rb:38-42 | the delimiter arrays are shared by the call: with the defaults the first two hash values take one pair each and a third adds its flag and raises "Depth exhausted subdivider/splitter characters." |
| CommandHelper.Delimiters.constructor | lib/boxgrinder-build/helpers/command-helper.rb:6-7 | the arrays hold the given delimiters |
| CommandHelper.Delimiters.BuildSubstr | lib/boxgrinder-build/helpers/command-helper.rb:34-59 | returns what `build_substr` produces and leaves the arrays shifted as the specification says |
| CommandHelper.AppendEntry | lib/boxgrinder-build/helpers/command-helper.rb:10-11 | one step of the reduce appends the flag, then the value's text when it has one |
| CommandHelper.HashToCommand | lib/boxgrinder-build/helpers/command-helper.rb:4-13 | appends to the base string in place and returns that same buffer, so the old text is a prefix of the new; a hash beyond the delimiters raises after its flag |
| CommandHelper.BuildSpec | lib/boxgrinder-build/helpers/command-helper.rb:22-32 | `build_submap` returns its input untouched when nil, empty or out of delimiters, and never grows the arrays |
| CommandHelper.PairsSpec | lib/boxgrinder-build/helpers/command-helper.rb:27-30 | storing the pairs never grows the delimiter arrays |
| CommandHelper.CommandToHash | lib/boxgrinder-build/helpers/command-helper.rb:15-19 | when `command_to_hash` returns its input, it is the argument string itself |
| CommandHelper.PairsFlat | lib/boxgrinder-build/helpers/command-helper.rb:27-30 | once the arrays are empty the nested calls hand back the value string and the pairs just fold into the map |
| CommandHelper.FoldUntouched | lib/boxgrinder-build/helpers/command-helper.rb:29 | a key no pair carries keeps its earlier entry, or stays absent |
| CommandHelper.FoldLastWins | lib/boxgrinder-build/helpers/command-helper.rb:29 | the last pair with a key decides its value |
| CommandHelper.FoldKeys | lib/boxgrinder-build/helpers/command-helper.rb:28-29 | the keys are exactly the earlier keys and the pairs' first fields |
| CommandHelper.DefaultsReturnInput | lib/boxgrinder-build/helpers/command-helper.rb:23 | with the defaults, nil and "" come back unchanged and any other string gives a map |
| CommandHelper.DefaultsFold | lib/boxgrinder-build/helpers/command-helper.rb:15-32 | with the defaults a non-empty string splits on '&' and each piece's first '=' field maps to its second |
| CommandHelper.DefaultsLastWins | lib/boxgrinder-build/helpers/command-helper.rb:27-29 | with the defaults the last piece with a key wins |
| CommandHelper.DefaultsKeys | lib/boxgrinder-build/helpers/command-helper.rb:27-29 | with the defaults the keys are exactly the pieces' first fields |
| CommandHelper.Submap.constructor | lib/boxgrinder-build/helpers/command-helper.rb:18 | a fresh empty map with the given arrays |
| CommandHelper.Submap.Build | lib/boxgrinder-build/helpers/command-helper.rb:22-32 | the recursive `build_submap` on the shared map and arrays, proved against the specification |
| CommandHelper.CommandToHashCall | lib/boxgrinder-build/helpers/command-helper.rb:15-19 | computes `command_to_hash` as specified |
| CommandHelper.Substr | lib/boxgrinder-build/helpers/command-helper.rb:34-59 | specification of `build_substr`; SubstrShifts states that a value renders exactly when its hashes fit the remaining delimiter pairs, shifting one pair per hash |
| CommandHelper.Entries | lib/boxgrinder-build/helpers/command-helper.rb:42-49 | specification of a hash's entries; EntriesShift states that they render exactly when their hashes fit the remaining pairs |
| CommandHelper.Render | lib/boxgrinder-build/helpers/command-helper.rb:4-13 | specification of `hash_to_command`; RenderScalars, RenderFlatHash and ThirdHashRaises state the flags, the nested text and the depth error |
| CommandHelper.Fold | lib/boxgrinder-build/helpers/command-helper.rb:27-30 | specification of the loop of `build_submap`; FoldKeys, FoldLastWins and FoldUntouched state its keys and values |
| VmwareImage.GenerateScsiChs | lib/boxgrinder-build/images/vmware-image.rb:62-78 | 128 heads and 32 sectors for a 1 GB disk, 255 and 63 otherwise; the total is the size times 2097152 sectors; the cylinders are the whole number of heads-times-sectors blocks that fit in the total |
| VmwareImage.ChsExamples | spec/images/vmware-image-spec.rb:25-52 | 1, 40 and 160 GB give 512/128/32, 5221/255/63 and 20886/255/63 cylinders/heads/sectors and 2097152, 83886080 and 335544320 sectors |
| VmwareImage.DiskSize | lib/boxgrinder-build/images/vmware-image.rb:84-85 | the loop over the partitions returns the sum of their sizes |
| VmwareImage.SumBounds | lib/boxgrinder-build/images/vmware-image.rb:85 | with no negative size, the disk is at least as large as each partition |
| VmwareImage.SumNonNegative | lib/boxgrinder-build/images/vmware-image.rb:85 | with no negative size, the disk size is not negative |
| VmwareImage.FlavourChoice | lib/boxgrinder-build/images/vmware-image.rb:89-95 | VMFS extents, an empty extent number and hardware version 4 exactly for type "vmfs"; every other type gets the flat values |
| VmwareImage.SubstituteUntouched | lib/boxgrinder-build/images/vmware-image.rb:91-99 | a template that holds none of the placeholders comes back unchanged |
| VmwareImage.SubstituteStep | lib/boxgrinder-build/images/vmware-image.rb:91-99 | the substitutions from the k-th on are one replace-all of the k-th followed by the rest |
| VmwareImage.GsubNext | lib/boxgrinder-build/images/vmware-image.rb:91-99 | one `gsub!` moves the text one substitution along the list |
| VmwareImage.SubstituteConcat | lib/boxgrinder-build/images/vmware-image.rb:91-99 | applying two lists of substitutions in turn is applying their concatenation |
| VmwareImage.TypeSubs | lib/boxgrinder-build/images/vmware-image.rb:91-95 | five placeholder substitutions |
| VmwareImage.GeometrySubs | lib/boxgrinder-build/images/vmware-image.rb:96-99 | four placeholder substitutions |
| VmwareImage.VmdkSubs | lib/boxgrinder-build/images/vmware-image.rb:91-99 | nine placeholder substitutions: the type ones, then the geometry |
| VmwareImage.VmdkOneGb | lib/boxgrinder-build/images/vmware-image.rb:62-99 | a 1 GB disk fills in 512 cylinders, 128 heads, 32 sectors and 2097152 sectors |
| VmwareImage.GuestOs | lib/boxgrinder-build/images/vmware-image.rb:116 | "otherlinux-64" exactly for arch x86_64, "linux" otherwise |
| VmwareImage.VmxSubs | lib/boxgrinder-build/images/vmware-image.rb:107-120 | seven placeholder substitutions, the first setting the version to "version.release" |
| VmwareImage.ChangeVmdkValues | lib/boxgrinder-build/images/vmware-image.rb:81-102 | the descriptor is the template with the nine substitutions for the summed size's geometry, in order |
| VmwareImage.FillType | lib/boxgrinder-build/images/vmware-image.rb:91-95 | the template with the name and type substitutions applied in order |
| VmwareImage.FillGeometry | lib/boxgrinder-build/images/vmware-image.rb:96-99 | the text with the geometry substitutions applied in order |
| VmwareImage.ChangeCommonVmxValues | lib/boxgrinder-build/images/vmware-image.rb:104-125 | the `.vmx` text is the template with the seven substitutions applied in order |
| VmwareImage.EnterpriseNetwork | lib/boxgrinder-build/images/vmware-image.rb:154 | "NAT" becomes "VM Network"; any other network is kept |
| VmwareImage.EnterpriseNetworkIdempotent | lib/boxgrinder-build/images/vmware-image.rb:154 | the rewrite is idempotent and never leaves "NAT" |
| VmwareImage.UpToDateKept | lib/boxgrinder-build/images/vmware-image.rb:172 | a destination at least as new as the raw disk is not refreshed; a missing one always is (the hard link at line 129 uses the same test) |
| VmwareImage.Hardware.constructor | lib/boxgrinder-build/images/vmware-image.rb:154 | the hardware record holds the given network |
| VmwareImage.Hardware.EnterpriseVmx | lib/boxgrinder-build/images/vmware-image.rb:147-160 | the network field is rewritten in place and the `.vmx` is the common text followed by the network line for the rewritten network |
| VmwareImage.Flavour | lib/boxgrinder-build/images/vmware-image.rb:89-95 | the values chosen by disk type; FlavourChoice states that only "vmfs" gets VMFS extents, no extent number and hardware version 4 |
| VmwareImage.Substitute | lib/boxgrinder-build/images/vmware-image.rb:91-99 | a `gsub!` sequence; SubstituteStep states that it is one replace-all followed by the rest |
| VmwareImage.NeedsRefresh | lib/boxgrinder-build/images/vmware-image.rb:172 | the refresh test; UpToDateKept states that a missing destination is refreshed and one at least as new as the raw disk is not |
| TransferCopy.MergeDefaults | lib/boxgrinder-build/util/transfer/copy.rb:21-25 | with no options the block size is 4096, the title "Copying File" and the permissions 0664; each given option replaces its default |
| Strings.Basename | lib/boxgrinder-build/util/transfer/copy.rb:27 | the file name is a suffix of the path with no '/' in it |
| TransferCopy.DirectoryDestinationRaises | lib/boxgrinder-build/util/transfer/copy.rb:27 | as written, a directory destination calls the undefined `Path` and raises instead of copying |
| TransferCopy.Destination | lib/boxgrinder-build/util/transfer/copy.rb:27 | a destination that is not a directory is used as given |
| TransferCopy.DestinationInDirectory | lib/boxgrinder-build/util/transfer/copy.rb:27 | a directory destination is extended by the source's file name, with exactly one '/' between them |
| TransferCopy.Chunks | lib/boxgrinder-build/util/transfer/copy.rb:37-38 | positions past the size give no chunk |
| TransferCopy.ChunksShape | lib/boxgrinder-build/util/transfer/copy.rb:37-38 | the `step` loop reads at least one chunk, each between 0 and the block size, together exactly the bytes from the start position, and one chunk more than the whole blocks that fit |
| TransferCopy.LoopEffects | lib/boxgrinder-build/util/transfer/copy.rb:39-41 | each iteration reads, writes and advances the bar once |
| TransferCopy.LoopEffectsSnoc | lib/boxgrinder-build/util/transfer/copy.rb:37-42 | one more iteration appends a read, a write and a bar step of the block size |
| TransferCopy.BarProgressLoop | lib/boxgrinder-build/util/transfer/copy.rb:41 | the bar advances by the block size per chunk |
| TransferCopy.BarOvershoots | lib/boxgrinder-build/util/transfer/copy.rb:37-41 | the bar always ends past the file size, since it advances by whole blocks and the range includes the size |
| TransferCopy.Cp | lib/boxgrinder-build/util/transfer/copy.rb:20-47 | copies into the corrected destination (a directory destination gets the source's file name, see Findings); raises EEXIST before opening anything when the target exists without overwrite; otherwise opens both files and the bar, copies every byte chunk by chunk, and closes both files and finishes the bar, also when a non-positive block size makes the loop raise |
| TransferCopy.CopyBlocks | lib/boxgrinder-build/util/transfer/copy.rb:37-42 | the destination receives exactly the source's bytes, in the chunks of the `step` loop |
| TransferCopy.CpCloses | lib/boxgrinder-build/util/transfer/copy.rb:43-46 | a run that opens the files starts by opening both and ends by closing both and finishing the bar |
| TransferCopy.CpMovesEveryByte | lib/boxgrinder-build/util/transfer/copy.rb:37-40 | the chunks add up to the file size and none exceeds the block size |
| TransferCopy.Merge | lib/boxgrinder-build/util/transfer/copy.rb:21-25 | specification of the option merge; MergeDefaults states the defaults 4096, "Copying File" and 0664, each replaced by a given option |
| TransferCopy.DestinationAsWritten | lib/boxgrinder-build/util/transfer/copy.rb:27 | specification of the destination as written; DirectoryDestinationRaises states that a directory destination raises instead of copying |
| TransferPlugin.SchemeEnd | lib/boxgrinder-build/util/transfer/transfer-plugin.rb:9 | the longest run of scheme characters from a position |
| TransferPlugin.Scheme | lib/boxgrinder-build/util/transfer/transfer-plugin.rb:9-10 | a scheme is a letter followed by scheme characters and then ':' at the head of the URI |
| TransferPlugin.NoColonNoScheme | lib/boxgrinder-build/util/transfer/transfer-plugin.rb:10 | a URI with no ':' has no scheme |
| TransferPlugin.SftpScheme | lib/boxgrinder-build/util/transfer/transfer-plugin.rb:9-10 | "sftp://…" has the scheme "sftp" |
| TransferPlugin.RegisteredMeaning | lib/boxgrinder-build/util/transfer/transfer-plugin.rb:20-22 | after `register` every listed name maps to the class, and every other name is as before |
| TransferPlugin.RegisteredKeeps | lib/boxgrinder-build/util/transfer/transfer-plugin.rb:20-22 | a name registered to the class stays so when the class registers more names |
| TransferPlugin.LegacyLookupInverted | lib/boxgrinder-build/util/transfer/transfer-plugin.rb:8-17 | as written, a registered scheme raises UnsupportedProtocol and an unknown scheme returns nil |
| TransferPlugin.Registry.constructor | lib/boxgrinder-build/util/transfer/transfer-plugin.rb:5 | the registry starts empty, with the lookup of this file |
| TransferPlugin.Registry.LoadBody | lib/boxgrinder-build/util/transfer/transfer-plugin.rb:4-25 | loading this file empties the registry and installs its inverted lookup |
| TransferPlugin.Registry.Register | lib/boxgrinder-build/util/transfer/transfer-plugin.rb:20-22 | the registry becomes the old one with the listed names mapped to the class; the lookup in force is unchanged |
| TransferPlugin.Registered | lib/boxgrinder-build/util/transfer/transfer-plugin.rb:20-24 | specification of `register`; RegisteredMeaning states that every listed name maps to the class and every other name is as before |
| TransferPlugin.LegacyLookup | lib/boxgrinder-build/util/transfer/transfer-plugin.rb:8-17 | specification of the `lookup` as written; LegacyLookupInverted states that a registered scheme raises and an unknown one returns nil |
| Transfer.LookupScheme | lib/boxgrinder-build/util/transfer.rb:8-17 | a URI with a scheme finds its registered plugin, and raises UnsupportedProtocol with the URI in the message exactly when the scheme is not registered |
| Transfer.LookupCorrectsLegacy | lib/boxgrinder-build/util/transfer.rb:8-17 | for a URI without a scheme both lookups agree; with a scheme this lookup succeeds exactly where the inverted one raises |
| Transfer.StandardPluginsContents | lib/boxgrinder-build/util/transfer.rb:6 | the loaded registry maps "cp" and "copy" to Copy and "sftp" to SFTP, and nothing else |
| Transfer.Load | lib/boxgrinder-build/util/transfer.rb:2-17 | requiring the file leaves the scheme lookup in force and the registry `LoadedPlugins` gives for the glob's listing order, the glob's own load of transfer-plugin.rb emptying it and copy.rb's or sftp.rb's first require loading that file once more |
| Transfer.LoadedPlugins | lib/boxgrinder-build/util/transfer.rb:6 | specification of the load: each load of transfer-plugin.rb empties the registry and each plugin file registers its names; PluginFileLastEmpties, PluginFileFirstRegistersAll, PluginFileFirstSftpFirst and PluginFileBetween state its outcomes |
| Transfer.PluginFileLastEmpties | lib/boxgrinder-build/util/transfer.rb:6 | when the glob lists transfer-plugin.rb last, nothing stays registered |
| Transfer.PluginFileFirstRegistersAll | lib/boxgrinder-build/util/transfer.rb:6 | when the glob lists transfer-plugin.rb first, the registry is the standard one |
| Transfer.PluginFileFirstSftpFirst | lib/boxgrinder-build/util/transfer.rb:6 | listed first with sftp.rb before copy.rb, it is the standard registry too |
| Transfer.PluginFileBetween | lib/boxgrinder-build/util/transfer.rb:6 | listed between the two plugin files, only the later one's names survive: {sftp} or {cp, copy} |
| Transfer.AlphabeticalLoadFindsNoCopy | lib/boxgrinder-build/util/transfer.rb:10 | in alphabetical order a plain path finds nil, so `Transfer.open` fails at `nil.new` |
| Transfer.LoadedLookups | lib/boxgrinder-build/util/transfer.rb:8-17 | a plain path goes to Copy, "sftp://…" to SFTP, and "http://…" raises UnsupportedProtocol |
| Transfer.Open | lib/boxgrinder-build/util/transfer.rb:27-38 | a failed lookup raises before anything is created; a nil plugin fails at `new`; otherwise the plugin is created and returned; with a block the trace is exactly create, open, yield, close, each once and in that order, except that an open that raises skips the yield; the close runs on every path, and the raise of open or of the block is the result |
| Transfer.Lookup | lib/boxgrinder-build/util/transfer.rb:8-17 | specification of the corrected `lookup`; LookupScheme states that a scheme finds its plugin or raises UnsupportedProtocol, and LookupCorrectsLegacy relates it to the inverted one |
| LibvirtErrors.Ancestors | lib/boxgrinder-build/plugins/delivery/libvirt/errors.rb:4-8 | every class descends from StandardError, and every one below it from LibvirtError |
| LibvirtErrors.LineEnd | lib/boxgrinder-build/plugins/delivery/libvirt/errors.rb:12 | the end of the line: the next newline or the end of the text |
| LibvirtErrors.FindFrom | lib/boxgrinder-build/plugins/delivery/libvirt/errors.rb:12 | the first occurrence of a pattern at or after a position, or none |
| LibvirtErrors.FindErrorLine | lib/boxgrinder-build/plugins/delivery/libvirt/errors.rb:14 | the first line that starts with "ERROR" and has at least one more character, or none |
| LibvirtErrors.VirtErrorHandler | lib/boxgrinder-build/plugins/delivery/libvirt/errors.rb:10-19 | always raises a LibvirtError: InvalidOptionError exactly when "error: no such option" occurs, with the stripped rest of that line from "no such option"; else RegistrationError exactly when a line starts with "ERROR" and more, with the stripped rest of the first such line; else LibvirtError with the stripped text |
| LibvirtErrors.MarkerLine | lib/boxgrinder-build/plugins/delivery/libvirt/errors.rb:12 | the line of a marker holds "no such option" after "error: " |
| LibvirtErrors.StripKeepsPrefix | lib/boxgrinder-build/plugins/delivery/libvirt/errors.rb:13 | `strip` keeps a prefix that starts and ends with a non-space character |
| LibvirtErrors.InvalidOptionMessage | lib/boxgrinder-build/plugins/delivery/libvirt/errors.rb:12-13 | the message of InvalidOptionError starts with "no such option" |
| Version.EntriesText | lib/boxgrinder-build/version.rb:7-9 | appends one " - name plugin for full name" entry per plugin, in order |
| Version.SectionsText | lib/boxgrinder-build/version.rb:5-11 | appends, per type, its header and then its entries |
| Version.PluginInfo | lib/boxgrinder-build/version.rb:4-12 | the listing is the record separator followed by the sections for os, platform and delivery |
| Version.EntriesNoNewline | lib/boxgrinder-build/version.rb:8 | entries hold no line break unless a name or full name does |
| Version.HeaderNoNewline | lib/boxgrinder-build/version.rb:6 | a header holds no line break |
| Version.SectionsNoNewline | lib/boxgrinder-build/version.rb:5-11 | the sections hold no line break unless a name does |
| Version.InfoSingleLine | lib/boxgrinder-build/version.rb:5-11 | the listing is the separator and then a single line |
| Version.EntryListed | lib/boxgrinder-build/version.rb:7-9 | every registered plugin's entry occurs in its type's entries |
| Version.EmptySections | lib/boxgrinder-build/version.rb:5-11 | with nothing registered each section is its header alone |
| Version.EmptyRegistryInfo | lib/boxgrinder-build/version.rb:5-11 | with nothing registered the listing is the separator and the three headers |
| Version.Header | lib/boxgrinder-build/version.rb:6 | one type's header line; HeaderNoNewline states that it holds no line break |
| Version.Entry | lib/boxgrinder-build/version.rb:8 | one plugin's entry; EntryListed states that each registered plugin's entry occurs in its type's entries |
| Version.Entries | lib/boxgrinder-build/version.rb:7-9 | a type's entries; EntriesNoNewline and EntriesText state that they hold no line break and what the loop appends |
| Version.Section | lib/boxgrinder-build/version.rb:6-9 | a type's header then its entries; EmptySections states that with nothing registered it is the header alone |
| Version.Sections | lib/boxgrinder-build/version.rb:5-11 | the sections for a list of types; SectionsNoNewline and SectionsText state their content |
| Version.Info | lib/boxgrinder-build/version.rb:4-12 | specification of `plugin_info`; InfoSingleLine and EmptyRegistryInfo state that it is the separator followed by a single line |
| SftpHelper.DivDiv | lib/boxgrinder-build/helpers/sftp-helper.rb:40-41 | dividing by 1024 twice is dividing by 1 MiB |
| SftpHelper.SizeLabel | lib/boxgrinder-build/helpers/sftp-helper.rb:40-43 | whole MiB and "MB" from 1 MiB on, whole KiB and "kB" from 1 KiB, otherwise the bare byte count; the SFTP delivery plugin's copy at lib/boxgrinder-build/plugins/delivery/sftp/sftp-plugin.rb:110-113 is the same |
| SftpHelper.DecideFits | lib/boxgrinder-build/helpers/sftp-helper.rb:55-97 | one file's step gives it its "i/n" number and skips it exactly by the skip rule, otherwise uploads it to "path/key" |
| SftpHelper.FitsCons | lib/boxgrinder-build/helpers/sftp-helper.rb:55-60 | a fitting first outcome and fitting later ones make a list that fits from that file on |
| SftpHelper.OutcomesComplete | lib/boxgrinder-build/helpers/sftp-helper.rb:53-98 | a run that ends without error has one outcome per file, in order, numbered 1..n, each skipped exactly when the remote file exists, overwrite is off and the md5 sums agree, otherwise uploaded to "path/key"; the SFTP delivery plugin's copy at lib/boxgrinder-build/plugins/delivery/sftp/sftp-plugin.rb:123-168 is the same |
| SftpHelper.OutcomesStop | lib/boxgrinder-build/helpers/sftp-helper.rb:62-78 | a run that ends with an error stopped at a file whose stat raised a status other than 2, after one outcome per earlier file |
| SftpHelper.SshClient.constructor | lib/boxgrinder-build/helpers/sftp-helper.rb:3-5 | a new helper holds no session |
| SftpHelper.SshClient.Connect | lib/boxgrinder-build/helpers/sftp-helper.rb:7-10 | after connecting an open session is held |
| SftpHelper.SshClient.Disconnect | lib/boxgrinder-build/helpers/sftp-helper.rb:12-21 | the session is closed exactly when it was connected (non-nil and not closed), and afterwards none is held; the SFTP delivery plugin's copy at lib/boxgrinder-build/plugins/delivery/sftp/sftp-plugin.rb:65-74 is the same |
| SftpHelper.SshClient.SumSizes | lib/boxgrinder-build/helpers/sftp-helper.rb:34-38 | the loop adds up the sizes of all local files |
| SftpHelper.SshClient.UploadEach | lib/boxgrinder-build/helpers/sftp-helper.rb:53-98 | the loop over the files, with `nb` counting every file, gives exactly the specified outcomes and error |
| SftpHelper.SshClient.UploadFiles | lib/boxgrinder-build/helpers/sftp-helper.rb:23-100 | returns at once for an empty map; raises when not connected; otherwise shows the size label, creates the directory when its stat says 2, re-raises any other stat error, and handles each file as specified |
| SftpHelper.UploadGuards | lib/boxgrinder-build/helpers/sftp-helper.rb:24-26 | an empty map returns at once even without a session; a non-empty one without a session raises "You're not connected to server" before anything else; the SFTP delivery plugin's copy at lib/boxgrinder-build/plugins/delivery/sftp/sftp-plugin.rb:94-96 is the same |
| SftpHelper.Decide | lib/boxgrinder-build/helpers/sftp-helper.rb:55-78 | specification of one file's step; DecideFits states its "i/n" number and that it skips exactly by the skip rule, otherwise uploads to "path/key" |
| SftpHelper.Outcomes | lib/boxgrinder-build/helpers/sftp-helper.rb:53-98 | specification of the per-file loop; OutcomesComplete and OutcomesStop state the outcomes of a run that completes and of one that stops |
| SftpHelper.Upload | lib/boxgrinder-build/helpers/sftp-helper.rb:23-100 | specification of `upload_files`; UploadGuards states the empty-map and not-connected cases, and UploadFiles is proved against it |
| SftpPlugin.Validate | lib/boxgrinder-build/plugins/delivery/sftp/sftp-plugin.rb:28-36 | the three defaults are applied in place; fails naming the first of path, username and host that is nil; otherwise the identity is the "identity" setting when truthy, else the "i" setting |
| SftpPlugin.ValidatedConfig | lib/boxgrinder-build/plugins/delivery/sftp/sftp-plugin.rb:29-35 | overwrite and default_permissions hold their configured values or false and 0644; other keys are untouched; the identity is "i" unless a truthy identity was configured |
| SftpPlugin.UserPaths | lib/boxgrinder-build/plugins/delivery/sftp/sftp-plugin.rb:79-86 | a user's four key files: .ssh then .ssh2, each with id_rsa then id_dsa, under the user's home |
| SftpPlugin.GenerateKeypaths | lib/boxgrinder-build/plugins/delivery/sftp/sftp-plugin.rb:78-91 | the loop appending to `paths` gives the specified list, or the error for a user with no home |
| SftpPlugin.KeyPathsShape | lib/boxgrinder-build/plugins/delivery/sftp/sftp-plugin.rb:78-91 | the four baked paths, then SUDO_USER's four key files if set, then LOGNAME's: 4, 8 or 12 paths; it fails exactly when a set variable names a user with no home, naming that user |
| SftpPlugin.KeyPaths | lib/boxgrinder-build/plugins/delivery/sftp/sftp-plugin.rb:78-91 | specification of `generate_keypaths`; KeyPathsShape states the 4, 8 or 12 paths and the error for a user with no home |
| PluginConfig.Or | lib/boxgrinder-build/plugins/delivery/sftp/sftp-plugin.rb:35 | `a \|\| b` is truthy exactly when one of them is, and is one of them |
| PluginConfig.DefaultedMeaning | lib/boxgrinder-build/plugins/delivery/sftp/sftp-plugin.rb:29-31 | after the defaults a key that held a value keeps it, a nil key gets its first default, and a key with no default is untouched |
| PluginConfig.DefaultedOther | lib/boxgrinder-build/plugins/delivery/libvirt/libvirt-plugin.rb:34-47 | a key no default names is left as it was |
| PluginConfig.DefaultedCovers | lib/boxgrinder-build/plugins/delivery/libvirt/libvirt-plugin.rb:34-47 | with no nil default, every defaulted key holds a value afterwards |
| PluginConfig.DefaultedSettled | lib/boxgrinder-build/plugins/delivery/libvirt/libvirt-plugin.rb:34-47 | where every defaulted key already holds a value the defaults change nothing |
| PluginConfig.DefaultedIdempotent | lib/boxgrinder-build/plugins/delivery/libvirt/libvirt-plugin.rb:34-47 | applying the defaults twice is applying them once |
| PluginConfig.FirstMissingMeaning | lib/boxgrinder-build/plugins/delivery/sftp/sftp-plugin.rb:33 | validation passes exactly when every required key holds a value; otherwise it names the first that does not |
| PluginConfig.Config.constructor | lib/boxgrinder-build/plugins/delivery/sftp/sftp-plugin.rb:29 | the configuration holds the given values |
| PluginConfig.Config.SetDefaults | lib/boxgrinder-build/plugins/delivery/sftp/sftp-plugin.rb:29-31 | each default is stored in place, in order, only where its key holds nil |
| PluginConfig.Config.ValidateFields | lib/boxgrinder-build/plugins/delivery/sftp/sftp-plugin.rb:33 | fails exactly when a required key holds nil, naming the first such key |
| LibvirtPlugin.IndexOfAny | lib/boxgrinder-build/plugins/delivery/libvirt/libvirt-plugin.rb:60 | the first position at or after a start that holds one of the stop characters, or the end |
| LibvirtPlugin.ParseUri | lib/boxgrinder-build/plugins/delivery/libvirt/libvirt-plugin.rb:60 | `URI.parse`: the scheme is the one of section 3.1 of RFC 3986; a URI without a scheme is a path up to any '?' or '#'; a path holds neither; a URI with a scheme has a path exactly when '/' follows the scheme's ':' (hierarchical), and none when it is opaque |
| LibvirtPlugin.SchemeAbsolutePath | lib/boxgrinder-build/plugins/delivery/libvirt/libvirt-plugin.rb:60 | a scheme followed by a single '/' and no query or fragment has the rest of the URI as its path, as the absolute-path form of section 3 of RFC 3986 |
| LibvirtPlugin.FileSchemePath | lib/boxgrinder-build/plugins/delivery/libvirt/libvirt-plugin.rb:60 | every `file:` URI whose part after the colon is an absolute path (one leading '/', no query or fragment) parses to that path, for any path |
| LibvirtPlugin.FileUriPath | lib/boxgrinder-build/plugins/delivery/libvirt/libvirt-plugin.rb:69 | `image_delivery_uri` "file:/var/lib/libvirt/images" has the path "/var/lib/libvirt/images", which line 69 stores as `libvirt_image_uri` |
| LibvirtPlugin.LocalPathIsPath | lib/boxgrinder-build/plugins/delivery/libvirt/libvirt-plugin.rb:35-60 | an absolute local directory with no '?' or '#' parses to itself as path, with no scheme |
| LibvirtPlugin.SettingsOf | lib/boxgrinder-build/plugins/delivery/libvirt/libvirt-plugin.rb:59-81 | the instance variables: the parsed delivery URI, the no_verify flag, the suffixed hypervisor URI, the appliance name and the image URI as left in the configuration |
| LibvirtPlugin.Validate | lib/boxgrinder-build/plugins/delivery/libvirt/libvirt-plugin.rb:33-82 | the configuration is changed in place and the settings derived exactly as the specification of `set_defaults` then `validate` says |
| LibvirtPlugin.MissingHypervisorFails | lib/boxgrinder-build/plugins/delivery/libvirt/libvirt-plugin.rb:49 | `validate` raises for the required key exactly when no hypervisor URI is configured |
| LibvirtPlugin.ValidatedSettings | lib/boxgrinder-build/plugins/delivery/libvirt/libvirt-plugin.rb:34-81 | the appliance name is "name-version.release-os-osversion-arch-platform"; network, remote_no_verify, dump_xml and undefine_existing are as configured or 'default', true, false and false; no_verify is 1 unless the setting is configured false; an unconfigured delivery URI is the path /var/lib/libvirt/images/ |
| LibvirtPlugin.DeriveWrites | lib/boxgrinder-build/plugins/delivery/libvirt/libvirt-plugin.rb:69-79 | a successful `validate` writes back the hypervisor URI with "?no_verify=<n>" appended to the configured string, n being 1 when remote_no_verify is truthy and 0 otherwise; only that key and libvirt_image_uri change |
| LibvirtPlugin.NoVerifyAppendsAgain | lib/boxgrinder-build/plugins/delivery/libvirt/libvirt-plugin.rb:79 | the suffix is appended to the configured string in place, so a second `validate` on the same configuration appends it again |
| LibvirtPlugin.SettledAfterValidate | lib/boxgrinder-build/plugins/delivery/libvirt/libvirt-plugin.rb:33-47 | after `validate` the defaults no longer change the configuration |
| LibvirtPlugin.DeriveTwice | lib/boxgrinder-build/plugins/delivery/libvirt/libvirt-plugin.rb:79 | deriving again from the derived configuration appends the same suffix once more |
| LibvirtPlugin.ImageUriDefaultsToDeliveryPath | lib/boxgrinder-build/plugins/delivery/libvirt/libvirt-plugin.rb:69 | with no libvirt_image_uri configured, the image URI is the delivery URI's path and is written back into the configuration |
| LibvirtPlugin.DefaultExecution | lib/boxgrinder-build/plugins/delivery/libvirt/libvirt-plugin.rb:84-101 | with neither a delivery URI nor dump_xml configured, `execute` copies the disk locally, asks the hypervisor for the description and writes it to "<appliance name>.xml" |
| LibvirtPlugin.DefaultDeliveryIsLocal | lib/boxgrinder-build/plugins/delivery/libvirt/libvirt-plugin.rb:85-91 | the default delivery URI set at line 35 is its own path and is copied to locally |
| LibvirtPlugin.SftpDeliveryUploads | lib/boxgrinder-build/plugins/delivery/libvirt/libvirt-plugin.rb:85-87 | an "sftp://" delivery URI is uploaded to |
| LibvirtPlugin.UploadImage | lib/boxgrinder-build/plugins/delivery/libvirt/libvirt-plugin.rb:138-153 | when the connection is made, the disk is uploaded under its base name to the delivery URI's path with the configured overwrite flag, as SFTP's `upload_files` does for a connected session, and the session is disconnected afterwards; when it is not, nothing is uploaded |
| LibvirtPlugin.BuildXml | lib/boxgrinder-build/plugins/delivery/libvirt/libvirt-plugin.rb:155-187 | domain type, OS type and bus come from the configured override when truthy, else from the guest; memory is the appliance's MiB times 1048576; the disk source is the image URI, '/', and the disk's base name |
| LibvirtPlugin.ExistingDomain | lib/boxgrinder-build/plugins/delivery/libvirt/libvirt-plugin.rb:200-205 | a found domain is returned; error code 42 gives nil; any other error is re-raised with its code |
| LibvirtPlugin.UndefineDomain | lib/boxgrinder-build/plugins/delivery/libvirt/libvirt-plugin.rb:207-213 | destroys the domain exactly when it is running, paused or blocked, and always undefines it last |
| LibvirtPlugin.DetermineRemotely | lib/boxgrinder-build/plugins/delivery/libvirt/libvirt-plugin.rb:103-125 | on one connection: opened first and closed last on every way out; a lookup error other than 42 raises; an existing domain raises "already exists" unless undefine_existing is truthy; the whole trace is pinned: on success exactly open, the destroy/undefine of a replaced domain, one define of the XML `build_xml` gives for the guest, close; with no viable guest the same without the define; nothing is destroyed or undefined unless a domain was found and undefine_existing holds |
| LibvirtPlugin.RemoteSession | lib/boxgrinder-build/plugins/delivery/libvirt/libvirt-plugin.rb:104-124 | the same guarantees with the domain description to define given as a value (none when no viable guest is offered) |
| LibvirtPlugin.Derive | lib/boxgrinder-build/plugins/delivery/libvirt/libvirt-plugin.rb:53-82 | specification of `validate` after the defaults: the configuration written back and the settings or the missing-key error; DeriveWrites, DeriveTwice and ImageUriDefaultsToDeliveryPath state what it writes |
| LibvirtPlugin.Validated | lib/boxgrinder-build/plugins/delivery/libvirt/libvirt-plugin.rb:33-82 | specification of `set_defaults` then `validate`; ValidatedSettings, MissingHypervisorFails and SettledAfterValidate state its settings, its error and that the defaults are then settled |
| LibvirtPlugin.DeliveryMode | lib/boxgrinder-build/plugins/delivery/libvirt/libvirt-plugin.rb:85 | the disk is uploaded exactly when the delivery URI has a scheme containing "sftp" or "scp", otherwise copied locally |
| LibvirtPlugin.Execute | lib/boxgrinder-build/plugins/delivery/libvirt/libvirt-plugin.rb:84-101 | the delivery follows the URI scheme, the description is determined locally exactly when dump_xml is truthy, and it is written to "<appliance name>.xml" |

## Left out

- Method interception (`alias_method`/`define_method` on the File and Dir eigenclasses) and the Observable/Singleton plumbing of write-monitor.rb: each hooked call is an explicit method, `WriteMonitor.Monitor.HookedCall`, that runs the original operation and then the recorder.
- Thread interleavings of the monitor's locks and of GetSet's mutex: one thread is modelled, and only the lock and unlock error conditions are kept.
- `Pathname#realpath`, `File.exist?`, whether `Process::Sys` responds to the `setres*id` calls, and which id calls are implemented are fields of an environment value (`WriteMonitor`'s `realpath` parameter and `FsObserver.OsEnv`). The `FileUtils.chown_R` calls and the id calls are logged as effects. What they do to the file system and the process is not modelled.
- FsObserver.FSObserver.DoChown: the OS calls never fail, apart from an id call raising `NotImplementedError`. In Ruby an `Errno` from `chown_R` (a path removed after `File.exist?`, say) leaves `update` before `change_user`, so the privilege drop is skipped. FsObserver.FSObserver.ChangeUser likewise does not model `Errno::EPERM` from `setresgid` or `setresuid`, which its `rescue NotImplementedError` lets through. WriteMonitor.Broadcast and WriteMonitor.Monitor.Notify deliver to every observer, whereas Ruby 1.8's `notify_observers` stops at the first observer whose `update` raises, so later observers never receive `:stop_capture`.
- FsObserver.Receive: an `:add_path` update without data is ignored. In Ruby the `nil` passes `match_filter?` and is added to `path_set` (with no new filter), and the later `do_chown` raises `TypeError` from `File.exist?(nil)`.
- FsObserver.InitialPathSet: a string `:paths` option is one path. Ruby 1.8's `String#to_a` splits the string into lines, and an empty string gives no path where the model gives {""}.
- The regular-expression engine: filters are "starts with p + '/'" and the blacklist is a fixed set of prefixes. This holds for paths with no regex metacharacters and no newlines. The same holds for the Oniguruma pattern `SPLIT_ASSIGN` of option-parser.rb:143 (see the OptionParser.SplitAssign line) and for `root_dir`'s pattern (see the WriteMonitor.RootDir line).
- WriteMonitor.RootDir: WriteMonitor.RootDir and WriteMonitor.RootDirEnd model the match of `%r(^[/]?.+?[/$])` (write-monitor.rb:138) for paths with no newline. In Ruby `^` also matches after a line break and `.` does not match one, so for `Dir.mkdir("ab\ncd/x")` Ruby returns "cd/", which is not a prefix of the argument, where the model returns "ab\ncd/".
- WriteMonitor.RootDirEnd: as for WriteMonitor.RootDir, the end of the match is modelled for paths with no newline.
- OptionParser.SplitAssign: models `SPLIT_ASSIGN` (option-parser.rb:143) for pairs with no newline. The pattern's `.` does not match '\n', so in Ruby the key and the value each stay within one line and text before a line break can be dropped from the key; the model always splits the whole pair at its first unescaped ':'.
- The Trollop option table, ARGV handling and the appliance-file existence check of option-parser.rb are library and process I/O.
- OptionParser.DirectedDependencies: the dependencies are checked in a fixed order. In Ruby 1.8 they come from a hash literal whose iteration order is unspecified, so when both are violated the tail that is reported may differ.
- OptionParser.Options.Cast, OptionParser.Options.DefaultHash, OptionParser.Options.DefaultArray and OptionParser.Options.AsSymbol follow the corrected `cast` (see Findings). The as-written behaviour is `OptionParser.CastAsWritten`.
- `Escape::shell_single_word` belongs to a library outside this model and is the parameter `quote` of the command helper.
- CommandHelper.Submap.Build: the delimiters are single characters, and `String#split` with a one-character string is modelled by that character.
- The SSH and SFTP sessions, the `md5sum` shell-outs, the `mkdir -p` calls and the progress bars are not modelled. The remote `stat!`, the md5 sums and the file sizes are parameters. What is kept is which files are uploaded or skipped, and the counter and target of each.
- SftpHelper.OutcomesComplete: a nil md5 result (`exec!` returning nil) is not modelled. Both sums are strings.
- SftpHelper.Upload: the files are a sequence of (remote name, local file) pairs, which may repeat a remote name where a Ruby hash cannot. For pairs with distinct names the order is the hash's insertion order.
- The `execute` of sftp-plugin.rb (packaging, `connect` and the rescue/ensure around them) is not modelled beyond the `upload_files`, `connected?` and `disconnect` it calls.
- lib/boxgrinder-build/util/transfer/sftp.rb is not part of this model. It is a network client whose `transfer` does nothing.
- The `open`, `transfer` and `close` instance methods of `Copy` do nothing in the source, so the class has no contracts to prove.
- Strings.Basename: `File.basename` of a path with trailing slashes is not modelled. The name is the text after the last '/'.
- TransferCopy.Cp: `File.open` failures (a missing source, an unwritable destination) are not modelled. The source's bytes are a parameter. Cp follows the corrected destination (see Findings); as written, a directory destination raises instead (TransferCopy.DirectoryDestinationRaises).
- Transfer.Load: file loading itself is not modelled. The Ruby 1.8 double load of transfer-plugin.rb is a sequence of steps whose order is the glob's listing order, a parameter, since `Dir[]` does not sort. The standard registry, on which Transfer.LoadedLookups is stated, results only when transfer-plugin.rb is listed before both plugin files.
- `URI.parse` raising `InvalidURIError` is not modelled. LibvirtPlugin.ParseUri keeps the scheme and the path of section 3 of RFC 3986: the path after an authority ("scheme://host/p"), an absolute path ("scheme:/p"), or the whole reference when there is no scheme. An opaque URI ("mailto:x") has no path. A string that is not a URI still parses.
- `File.expand_path` normalisation of key paths is not modelled. A user's home directory is looked up through a parameter, and a missing user is the error case.
- The libvirt API is not modelled: connections, domain lookup, `define_domain_xml` and the capability probe. Each is a parameter or a recorded effect.
- The Builder XML markup is not modelled. `build_xml` yields the values it writes into the description (`LibvirtPlugin.DomainXml`), not the XML text.
- The `IO.popen` user script of libvirt-plugin.rb:192-196 is not modelled. It also interpolates an undefined local `script`.
- The `Libvirt::Error` monkey-patch (`patch`) is left out.
- libvirt-capabilities.rb is not part of this model. `determine_locally`'s ranking of domains is therefore left out, and the guest is a parameter.
- `Etc.getlogin` and the URI's user and password are left out of `upload_image`.
- LibvirtPlugin.UploadImage: an opaque delivery URI has no path, and the model uploads to "" where Ruby would pass nil.
- LibvirtPlugin.SettingsOf: `@libvirt_capabilities` is not part of the settings.
- The discarded defaults hash of `_build_xml` (libvirt-plugin.rb:162) has no effect, so it is not modelled.
- `write_xml` is not modelled beyond the file name: it `puts`, writes a file and registers a deliverable.
- The VMware Rake task graph, guestfs customisation, template file reads and writes, and the `exec_helper` copy are left out. Only the decision to link or copy is kept (`VmwareImage.UpToDateKept`).
- VmwareImage.DiskSize: partition sizes are integers. Float sizes are not modelled.
- VmwareImage.Substitute: `gsub!` reads `\0`, `\&`, `\1` to `\9` and `\\` in its replacement string as references to the match. The model inserts the replacement literally, which agrees with Ruby when the substituted values contain no backslash.
- VmwareImage.GsubNext: one `gsub!` with the replacement inserted literally, as for VmwareImage.Substitute.
- lib/boxgrinder-build/cli.rb (orchestration), ebs-plugin-spec.rb and messages.rb (their code is not part of this model) are left out.
- base-plugin.rb is not part of this model. `set_default_config_value` (store when the key holds nil) and `validate_plugin_config` (fail on the first nil key) are modelled as their callers use them.

## Findings

| source | as written | input that shows it | evidently intended | confidence | as-written member | corrected member |
|---|---|---|---|---|---|---|
| lib/boxgrinder-build/option-parser.rb:236-241 | `cast` destructures each symbol as `(k, v)`, so the block sees `v == nil` and every listed option is reset to `{}`, `[]` or nil | `--os-config format:qcow2` parsed to {format: qcow2}, then `default_hash` | the block sees `opts[k]`, so set values are kept and only unset keys get the default | not executed | OptionParser.CastAsWrittenLosesConfig | OptionParser.CastIntendedKeepsConfig |
| lib/boxgrinder-build/util/transfer/transfer-plugin.rb:12-16 | `lookup` raises UnsupportedProtocol when the scheme IS registered and returns nil when it is not | "sftp://host/x" with "sftp" registered | return the registered plugin, raise for an unknown scheme (as the `lookup` at lib/boxgrinder-build/util/transfer.rb:8-17 does, its test being lines 12-13) | not executed | TransferPlugin.LegacyLookupInverted | Transfer.LookupCorrectsLegacy |
| lib/boxgrinder-build/util/transfer/copy.rb:27 | a directory destination calls `Path.join`, and `Path` is not defined | `cp("a.raw", "/tmp")` where /tmp is a directory | `File.join(dest, File.basename(src))` | not executed | TransferCopy.DirectoryDestinationRaises | TransferCopy.DestinationInDirectory |
