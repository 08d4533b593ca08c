/**
 * The hashes that `WriteMonitor` passes to `notify_observers` and that
 * `FSObserver#update` receives: a `:command` symbol and an optional `:data` path.
 */
module Notifications {
  import opened Wrappers

  datatype Command =
    | AddPath              // :add_path, the only path command the observer handles
    | AddPaths             // :add_paths, the command the monitor actually sends
    | StopCapture          // :stop_capture
    | OtherCommand(name: string)

  datatype Message = Message(command: Command, data: Option<string>)

  /** the hash with `:command => :stop_capture` */
  const StopMessage: Message := Message(StopCapture, None)
}
