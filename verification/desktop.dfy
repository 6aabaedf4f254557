/** The parts of `XdgDesktopFile` that the mime tool relies on. Their
    implementation lives outside the modelled core, so they are parameters:
    a desktop file is its file name plus the verdict of its own validity
    check, and the id derivation and the loader are opaque functions. */
module Desktop {
  import opened Wrappers

  /** A desktop-entry record: `fileName()` and `isValid()`. */
  datatype DesktopFile = DesktopFile(fileName: string, valid: bool)

  /** `XdgDesktopFile::id(fileName)` and `XdgDesktopFile::load(name)`;
      a failed load is `None`. */
  datatype DesktopApi = DesktopApi(
    id: string -> string,
    load: string -> Option<DesktopFile>)
}
