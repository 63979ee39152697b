/** The unprivileged stage's choice of which host UID and GID map to root in
    the function's user namespace. Both the xfn-oci run command and the
    function-runtime-oci start command make it the same way. */
module Launcher {

  /** The chosen mapping; `setuid` is shorthand for holding both
      CAP_SETUID and CAP_SETGID. */
  datatype RootMapping = RootMapping(rootUID: int, rootGID: int, setuid: bool)

  /** Without both capabilities only the process's own UID and GID can be
      mapped to root; with both, the configured MapRootUID and MapRootGID
      (the start of a private 65536-ID range) are. The UID and GID are never
      mixed: either both are the process's own or both are the configured
      ones. The capability probes are inputs. */
  function ChooseRootMapping(uid: int, gid: int, capSetUID: bool, capSetGID: bool,
                             mapRootUID: int, mapRootGID: int): (m: RootMapping)
    ensures m.setuid <==> capSetUID && capSetGID
    ensures m.setuid ==> m.rootUID == mapRootUID && m.rootGID == mapRootGID
    ensures !m.setuid ==> m.rootUID == uid && m.rootGID == gid
  {
    var setuid := capSetUID && capSetGID;
    if setuid then RootMapping(mapRootUID, mapRootGID, setuid) else RootMapping(uid, gid, setuid)
  }
}
