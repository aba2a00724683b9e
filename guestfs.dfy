/** The collaborators of the decryption pass: the libguestfs handle and the
    key store. Their answers are given, not modelled; every call the pass
    makes is recorded, in order, in the handle's call log. */
module Guestfs {
  import opened CStrings

  /** A NULL-able result: None is the NULL that signals an error. */
  datatype Option<T> = None | Some(value: T)

  /** One call of the decryption pass into its collaborators, with the
      arguments that matter to it. */
  datatype Call =
    | ListPartitions
    | VfsType(device: CString)
    | LuksUuid(device: CString)
    | GetKeys(device: CString, uuid: Option<CString>)
    | CryptsetupOpen(device: CString, key: CString, mapname: CString)
    | LvmScan
    | Lvs

  /** The answers the appliance gives:
      partitions   guestfs_list_partitions (None: the call failed)
      vfsType      guestfs_vfs_type of a mountable (None: the call failed)
      luksUuid     guestfs_luks_uuid of a mountable (None: the call failed)
      opens        whether guestfs_cryptsetup_open of a mountable with a key
                   and a map name returns 0
      scanOk       whether guestfs_lvm_scan returns 0 rather than -1
      lvs          guestfs_lvs, given whether the volume groups have been
                   rescanned (None: the call failed) */
  datatype Env = Env(
    partitions: Option<seq<CString>>,
    vfsType: CString -> Option<CString>,
    luksUuid: CString -> Option<CString>,
    opens: (CString, CString, CString) -> bool,
    scanOk: bool,
    lvs: bool -> Option<seq<CString>>)

  /** The key store: get_keys (ks, device, uuid) gives the keys to try on a
      device, found by its name or by its UUID. */
  datatype KeyStore = KeyStore(keysFor: (CString, Option<CString>) -> seq<CString>)

  /** The guestfs handle, as far as the decryption pass sees it: fixed
      answers, whether the volume groups have been rescanned, and the log of
      the calls made so far. */
  class Handle {
    const env: Env
    var scanned: bool
    ghost var log: seq<Call>

    constructor (env: Env, scanned: bool)
      ensures this.env == env && this.scanned == scanned && log == []
    {
      this.env := env;
      this.scanned := scanned;
      log := [];
    }

    /** guestfs_list_partitions */
    method ListPartitions() returns (partitions: Option<seq<CString>>)
      modifies this`log
      ensures partitions == env.partitions
      ensures log == old(log) + [Call.ListPartitions]
    {
      partitions := env.partitions;
      log := log + [Call.ListPartitions];
    }

    /** guestfs_vfs_type */
    method VfsType(mountable: CString) returns (t: Option<CString>)
      modifies this`log
      ensures t == env.vfsType(mountable)
      ensures log == old(log) + [Call.VfsType(mountable)]
    {
      t := env.vfsType(mountable);
      log := log + [Call.VfsType(mountable)];
    }

    /** guestfs_luks_uuid */
    method LuksUuid(mountable: CString) returns (uuid: Option<CString>)
      modifies this`log
      ensures uuid == env.luksUuid(mountable)
      ensures log == old(log) + [Call.LuksUuid(mountable)]
    {
      uuid := env.luksUuid(mountable);
      log := log + [Call.LuksUuid(mountable)];
    }

    /** guestfs_cryptsetup_open (g, mountable, key, mapname, -1): the map
      name is the C string the buffer holds. Returns 0 on success. */
    method CryptsetupOpen(mountable: CString, key: CString, mapname: array<char>) returns (r: int)
      modifies this`log
      ensures r == (if env.opens(mountable, key, CStr(mapname[..])) then 0 else -1)
      ensures log == old(log) + [Call.CryptsetupOpen(mountable, key, CStr(mapname[..]))]
    {
      var name := CStr(mapname[..]);
      r := if env.opens(mountable, key, name) then 0 else -1;
      log := log + [Call.CryptsetupOpen(mountable, key, name)];
    }

    /** guestfs_lvm_scan (g, 1): on success the volume groups are rescanned. */
    method LvmScan() returns (r: int)
      modifies this`log, this`scanned
      ensures r == (if env.scanOk then 0 else -1)
      ensures scanned == (old(scanned) || env.scanOk)
      ensures log == old(log) + [Call.LvmScan]
    {
      r := if env.scanOk then 0 else -1;
      scanned := scanned || env.scanOk;
      log := log + [Call.LvmScan];
    }

    /** guestfs_lvs */
    method Lvs() returns (lvs: Option<seq<CString>>)
      modifies this`log
      ensures lvs == env.lvs(scanned)
      ensures log == old(log) + [Call.Lvs]
    {
      lvs := env.lvs(scanned);
      log := log + [Call.Lvs];
    }

    /** get_keys (ks, mountable, uuid), which the pass calls with the handle
      at hand; recorded in the same log because it may ask the user for a
      key. */
    method GetKeys(ks: KeyStore, mountable: CString, uuid: Option<CString>) returns (keys: seq<CString>)
      modifies this`log
      ensures keys == ks.keysFor(mountable, uuid)
      ensures log == old(log) + [Call.GetKeys(mountable, uuid)]
    {
      keys := ks.keysFor(mountable, uuid);
      log := log + [Call.GetKeys(mountable, uuid)];
    }
  }
}
