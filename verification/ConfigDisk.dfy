/**
 * One managed configuration: the file, its `.bak` sibling and the service that
 * reads it.  Every I/O step has an outcome chosen by the environment; a failed
 * copy or write may leave arbitrary content behind.
 */
module ConfigDisk {
  import opened Results

  /** `served` is the text the service was last restarted on, if that restart worked. */
  datatype Disk = Disk(file: Option<string>, bak: Option<string>, served: Option<string>)

  /** How a copy or a write ended. */
  datatype Io = Done | Failed(leaves: Option<string>)

  /** Copying opens the source first, so a missing source leaves the target alone. */
  function Copied(source: Option<string>, target: Option<string>, io: Io): Option<string> {
    if source.None? then target else if io.Done? then source else io.leaves
  }

  predicate CopyWorks(source: Option<string>, io: Io) {
    source.Some? && io.Done?
  }

  function BackUp(d: Disk, io: Io): Disk {
    d.(bak := Copied(d.file, d.bak, io))
  }

  function Overwrite(d: Disk, text: string, io: Io): Disk {
    d.(file := if io.Done? then Some(text) else io.leaves)
  }

  function RestoreBackup(d: Disk, io: Io): Disk {
    d.(file := Copied(d.bak, d.file, io))
  }

  function DiscardBackup(d: Disk, ok: bool): Disk {
    if ok then d.(bak := None) else d
  }

  function Restart(d: Disk, ok: bool): Disk {
    d.(served := if ok then d.file else None)
  }
}
