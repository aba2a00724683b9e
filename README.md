# Disk decryption for guest inspection

This project models the disk-decryption pass of the virt tools in
`options/decrypt.c`. The pass makes encrypted guest disks readable before
inspection:

- `make_mapname` derives a device-mapper name such as `cryptvda2` from a
  device path.
- `decrypt_mountables` looks at each mountable of a list:
  - it asks for the mountable's file system type;
  - it skips anything that is neither LUKS nor BitLocker;
  - it asks a LUKS device for its UUID;
  - it fetches the keys for the device from the key store;
  - it chooses the plaintext name, either `luks-<uuid>` or make_mapname's;
  - it tries the keys in order until one opens the device, and ends the
    process when none does.
- `inspect_do_decrypt` runs that pass over the partitions, rescans the LVM
  volume groups when the pass opened something, and then runs it over the
  logical volumes. In the second pass names come from UUIDs.

The model has four modules:

- `CStrings` (`cstrings.dfy`): C strings as NUL-free character sequences,
  and `CStr`, the string that a NUL-terminated `char` buffer holds.
- `MapNames` (`mapname.dfy`):
  - `MapName`, the name make_mapname means to produce, as a function;
  - `MakeMapname`, the copy loop over an `array<char>`, proved to write
    exactly that name and terminator and nothing else;
  - `MakeMapnameAsWritten`, the loop with the source's bound;
  - `FormatLuksName`, the `snprintf` of `luks-<uuid>` into the same buffer;
  - lemmas about the name: the doc comment's examples, non-injectivity and
    when two names agree.
- `Guestfs` (`guestfs.dfy`): the libguestfs handle as a class.
  - Its answers are fixed functions held in `Env`.
  - Its `scanned` field records whether the volume groups have been
    rescanned.
  - A ghost `log` records every call, in order. The key store's `get_keys`
    is logged too.
- `Decrypt` (`decrypt.dfy`):
  - `TryKeys`, `DecryptMountable`, `DecryptMountables` and `InspectDoDecrypt`
    are methods over the handle.
  - Each is proved against a specification function that gives the calls it
    makes and how it ends: `TriedKeys`, `MountableRun`, `DecryptSpec` and
    `InspectSpec`.
  - The properties of the pass are proved as lemmas about those functions.
    They cover which keys are tried, when the process ends and with which
    error, what the pass returns, which calls are made and with which
    names, and the order of the two passes.

The ways the pass ends the process become an `Outcome.Fatal` value: the
failing `assert`, `error (EXIT_FAILURE, …)` and `exit`. The run stops at that
point. make_mapname's `abort` is the exception; see MapNames.MakeMapname
under "## Left out".

## Model

| member | source | states |
|---|---|---|
| MapNames.IsAlnum | options/decrypt.c:62 | c_isalnum: ASCII letters and digits only, independent of the locale; such a character is below 128 and never NUL |
| MapNames.StripDevPrefix | options/decrypt.c:58-59 | the scan starts after a leading "/dev/" when there is one, so the device is "/dev/" followed by what is scanned; otherwise at the start |
| MapNames.AlnumFilter | options/decrypt.c:61-66 | the characters the copy loop keeps are letters and digits only (c_isalnum, ASCII), never more than were scanned |
| MapNames.MapName | options/decrypt.c:47-69 | the name the corrected make_mapname (copies while len > 1, at most len - 6 characters) writes into a buffer of len places: starts "crypt", then only letters and digits, and is shorter than len so that the terminator fits |
| MapNames.MapNameAsWritten | options/decrypt.c:61-68 | the name as the loop bound `len >= 1` produces it: starts "crypt" and can take all len places |
| MapNames.LuksName | options/decrypt.c:106-107 | snprintf of "luks-%s" into a buffer of size places: a prefix of "luks-" + uuid, shorter than size, and the whole of it when it fits |
| MapNames.AlnumNoNul | options/decrypt.c:62-63 | a name made of "crypt" and copied letters and digits contains no NUL, so it is a C string |
| MapNames.AlnumFilterAppend | options/decrypt.c:61-66 | the filter keeps each character on its own merit: filtering a concatenation concatenates the filtered parts |
| MapNames.AlnumFilterOfAlnum | options/decrypt.c:61-66 | a string of letters and digits passes through the filter unchanged |
| MapNames.AlnumFilterIdempotent | options/decrypt.c:61-66 | filtering twice gives what filtering once gives |
| MapNames.AlnumFilterOfNone | options/decrypt.c:61-66 | a string with no letter or digit filters to nothing |
| MapNames.StripDevPrefixOf | options/decrypt.c:58-59 | a leading "/dev/" is skipped: scanning starts just after it |
| MapNames.AlnumFilterJoin | options/decrypt.c:43-45 | a non-alphanumeric separator between two alphanumeric words is dropped |
| MapNames.AlnumFilterJoinFilters | options/decrypt.c:43-45 | filtering around a separator joins the two filtered sides |
| MapNames.MapNameOfWord | options/decrypt.c:41-42 | "/dev/<w>" for an alphanumeric word w that fits maps to "crypt<w>" |
| MapNames.MapNameOfVolumePath | options/decrypt.c:43-45 | "/dev/<vg><sep><lv>" maps to "crypt<vg><lv>" when it fits |
| MapNames.MapNameOfDashedVolumePath | options/decrypt.c:42-45 | "/dev/<a>-<b>/<c>-<d>" maps to "crypt<a><b><c><d>" when it fits |
| MapNames.MapNameOfPartition | options/decrypt.c:41-42 | the doc comment's first example: "/dev/vda2" gives "cryptvda2" in the 512-place buffer |
| MapNames.MapNameOfLogicalVolume | options/decrypt.c:42-43 | the doc comment's second example: "/dev/vg-ssd/lv-root7" gives "cryptvgssdlvroot7" |
| MapNames.MapNameNotInjective | options/decrypt.c:43-45 | two different device names, "/dev/vg-ssd/lv-root7" and "/dev/vgssd/lvroot7", get the same map name |
| MapNames.MapNameIgnoresSeparator | options/decrypt.c:43-45 | for all words and any non-alphanumeric separator: with and without the separator, the paths differ but the map names are equal |
| MapNames.MapNameEqualIff | options/decrypt.c:43-45 | two devices whose names fit get the same map name if and only if they have the same letters and digits after "/dev/" |
| MapNames.MapNameFixedPoint | options/decrypt.c:58-66 | the part of a map name after "crypt" maps back to the same map name |
| MapNames.CorrectedAgreesWhenNameFits | options/decrypt.c:61-68 | the corrected loop and the loop as written give the same name whenever fewer than len - 5 letters and digits follow "/dev/" |
| MapNames.AsWrittenTerminatorAtLen | options/decrypt.c:52-68 | as written, the terminator goes to index len exactly when at least len - 5 letters and digits follow "/dev/" |
| MapNames.AsWrittenOverrunsCallerBuffer | options/decrypt.c:83 | with the 512-place buffer of decrypt_mountables, a device with 507 letters after "/dev/" fills all 512 places, so the terminator goes to mapname[512] |
| MapNames.MakeMapname | options/decrypt.c:47-69 | the corrected make_mapname (copies while len > 1, at most len - 6 characters): len < 6 is refused with the buffer untouched; otherwise the buffer holds MapName followed by a NUL, nothing after it changes, and the C string read back is MapName |
| MapNames.MakeMapnameAsWritten | options/decrypt.c:47-69 | the loop with the bound `len >= 1`: the buffer holds MapNameAsWritten and a NUL, provided the terminator's index is inside the array |
| MapNames.StrcpyCrypt | options/decrypt.c:54 | the buffer starts "crypt" and a NUL, and nothing after index 5 changes |
| MapNames.CopyAlnum | options/decrypt.c:61-66 | the copy loop writes the filtered rest of the device, cut to the room left, starting at the write position, and changes nothing else |
| MapNames.CopyStep | options/decrypt.c:61-66 | one turn of the copy loop extends the copied characters exactly by an alphanumeric character |
| MapNames.CopyDone | options/decrypt.c:61 | when the loop stops, at the end of the device or with no room left, it has copied the filtered rest cut to the room |
| MapNames.NameWritten | options/decrypt.c:54-68 | "crypt", the copied characters and the terminator in the buffer read back as the C string "crypt" + copied |
| MapNames.FormatLuksName | options/decrypt.c:107 | snprintf returns the full length 5 + \|uuid\| and the buffer holds LuksName, possibly cut; nothing after the terminator changes |
| Guestfs.Handle.ListPartitions | options/decrypt.c:143 | gives the appliance's partition list or the failure, and logs the call |
| Guestfs.Handle.VfsType | options/decrypt.c:87 | gives the mountable's file system type or the failure, and logs the call |
| Guestfs.Handle.LuksUuid | options/decrypt.c:95 | gives the LUKS UUID or the failure, and logs the call |
| Guestfs.Handle.GetKeys | options/decrypt.c:102 | gives the key store's keys for the device and its UUID, and logs the lookup |
| Guestfs.Handle.CryptsetupOpen | options/decrypt.c:116 | returns 0 exactly when the key opens the device under the name the buffer holds, and logs the open with that name |
| Guestfs.Handle.LvmScan | options/decrypt.c:154 | returns 0 or -1; after a successful scan the volume groups count as rescanned; logs the call |
| Guestfs.Handle.Lvs | options/decrypt.c:158 | gives the logical volumes the appliance lists, given whether it has rescanned, and logs the call |
| CStrings.CStr | options/decrypt.c:116 | the string guestfs_cryptsetup_open reads from the mapname buffer: the characters before the first NUL, a prefix of the buffer, followed by the NUL when one is there |
| Decrypt.UuidOf | options/decrypt.c:94-95 | the UUID a turn has: guestfs_luks_uuid's answer, asked only of a crypto_LUKS device; NULL otherwise or when the query fails |
| Decrypt.PreCalls | options/decrypt.c:87-102 | the calls of a turn before any key is tried: first the type query, then at most the UUID query and the key lookup |
| Decrypt.StuckError | options/decrypt.c:123-128 | how a stuck device ends the process: the failed assert on an empty key list (line 103) or the error when no key opens it, either way about that device |
| Decrypt.TurnOutcome | options/decrypt.c:88-130 | how a turn ends: fatally exactly when the device is LUKS or BitLocker and no key of the store opens it; an opened device is always LUKS or BitLocker |
| Decrypt.PlainName | options/decrypt.c:105-108 | the plaintext name: "luks-<uuid>" when names come from UUIDs and there is one, otherwise the corrected make_mapname's name; either way it fits the 512-place buffer with its terminator |
| Decrypt.MountableRun | options/decrypt.c:87-131 | one turn of the loop: the type query, the UUID query for LUKS, the key lookup and the opens TriedKeys gives; a turn reports an opened device only for a LUKS or BitLocker device that some key of the store opens |
| Decrypt.DecryptSpec | options/decrypt.c:71-134 | decrypt_mountables over a list: the turns in order, decrypted_some as the OR of their results, stopped by the first fatal turn; a pass that ends normally makes at least one call per mountable |
| Decrypt.InspectSpec | options/decrypt.c:140-162 | inspect_do_decrypt: its first call lists the partitions; the scanned flag is never cleared, and it is only set by a successful rescan |
| Decrypt.TriedKeys | options/decrypt.c:110-121 | the keys tried are a prefix of the key list, and every key before the last one tried fails |
| Decrypt.TriedKeysFirstMatch | options/decrypt.c:110-123 | some key opens the device if and only if the last key tried opens it; otherwise every key was tried |
| Decrypt.TriedKeysFirst | options/decrypt.c:112-120 | when key n is the first that opens the device, exactly keys 0..n are tried |
| Decrypt.TriedKeysNone | options/decrypt.c:112-123 | when no key opens the device, every key is tried |
| Decrypt.SkippedMountable | options/decrypt.c:87-97 | a mountable of unknown type, or of a type other than crypto_LUKS and BitLocker, gets only the type query: no UUID query, no key lookup, no open |
| Decrypt.MountableTried | options/decrypt.c:87-121 | the opens of one turn use exactly the keys TriedOf gives, in order |
| Decrypt.MountableOpens | options/decrypt.c:110-128 | one turn tries keys in the store's order; each fails until the first that opens the device, and none after it is tried; on a fatal end, all keys were tried and all failed; a skipped mountable tries none |
| Decrypt.DecryptStopsAtFatal | options/decrypt.c:123-128 | once a mountable ends the process, no later mountable is looked at |
| Decrypt.DecryptOutcome | options/decrypt.c:75-133 | the pass ends the process if and only if some mountable is encrypted and no key opens it, with the first such mountable's error; otherwise it returns true if and only if some mountable is LUKS or BitLocker |
| Decrypt.MountableCallsOk | options/decrypt.c:87-116 | every call of a turn is allowed by CallOk |
| Decrypt.DecryptCallsFaithful | options/decrypt.c:79-131 | every call of the pass concerns a mountable of the list; the UUID is asked only of LUKS devices; keys are looked up with the device's UUID, and opens made, only for LUKS or BitLocker devices; each open uses a key of the store and the device's plaintext name |
| Decrypt.PassCallsExclude | options/decrypt.c:150-161 | the pass never lists partitions, rescans or lists logical volumes; only inspect_do_decrypt does |
| Decrypt.PlainNamePrefix | options/decrypt.c:106-108 | the plaintext name starts "luks-" if and only if names come from UUIDs and the device has one, and "crypt" (the corrected make_mapname's name) otherwise; with a UUID that fits, it is "luks-" + uuid |
| Decrypt.PhaseNames | options/decrypt.c:106-108 | in the partition pass every open uses the corrected make_mapname's name, MapName (device, 512); in either pass an open's name starts "luks-" exactly when names come from UUIDs and the device has one |
| Decrypt.InspectOutcome | options/decrypt.c:140-162 | the process is ended with NoPartitions exactly when listing the partitions fails; it ends normally if and only if: the partitions are listed, none is stuck, the rescan succeeds when some partition is encrypted, the logical volumes are listed and none of them is stuck |
| Decrypt.InspectRescanIff | options/decrypt.c:150-156 | the rescan is called if and only if the partitions are listed, none is stuck and some is LUKS or BitLocker; at the end the volume groups count as scanned if they were before or the rescan succeeded |
| Decrypt.InspectPhases | options/decrypt.c:143-161 | the calls are: the partition list; then the partition pass with make_mapname names; then possibly the rescan; then the logical volume list and the pass over those volumes with UUID names |
| Decrypt.TryKeys | options/decrypt.c:110-121 | the key loop logs exactly the opens TriedKeys gives, under the name held in the buffer, and reports whether some key opens the device |
| Decrypt.NameAndTryKeys | options/decrypt.c:105-121 | the name is formatted into a 512-place buffer: "luks-<uuid>" when names come from UUIDs and there is one, the corrected make_mapname's name otherwise; the keys are tried under it |
| Decrypt.DecryptMountable | options/decrypt.c:79-131 | one turn of the loop makes exactly the calls of MountableRun and ends as it says |
| Decrypt.DecryptMountables | options/decrypt.c:71-134 | decrypt_mountables makes exactly the calls of DecryptSpec and returns its outcome, so it has all the properties proved of DecryptSpec |
| Decrypt.InspectDoDecrypt | options/decrypt.c:140-162 | inspect_do_decrypt makes exactly the calls of InspectSpec, ends as it says and leaves the scanned flag as it says, so it has all the properties proved of InspectSpec |

## Left out

- libguestfs, cryptsetup, LVM and the key store are collaborators. Their answers are functions in `Env` and `KeyStore`, not models. Opening a device does not change later answers: a second open with an already used map name is not modelled as failing.
- The appliance's partition and logical volume lists are fixed. The logical volume list depends only on whether the volume groups have been rescanned.
- `guestfs_push_error_handler` and `guestfs_pop_error_handler` (lines 115 and 117) are not modelled. Neither are the text of the fatal error message and `guestfs_last_error` (lines 124-128), or `CLEANUP_FREE` memory handling.
- The NULL-terminated `char **` lists become sequences of C strings.
- Decrypt.NameAndTryKeys: names devices with the corrected make_mapname (MakeMapname, MapName). For a device with 507 or more letters and digits after "/dev/", the source writes mapname[512], one past the buffer, while the model opens the device under a 511-character name. DecryptMountable, DecryptSpec, PlainName and PhaseNames inherit this. The source's behaviour is in "## Findings".
- Decrypt.NameAndTryKeys: does not model `snprintf` returning a negative value (line 107), which would fall back to make_mapname. Formatting "luks-%s" into a 512-character buffer has no failure case here.
- Decrypt.NameAndTryKeys: allocates a fresh 512-character buffer for each mountable instead of reusing one on the stack. Every turn writes its name before reading it, so nothing depends on old contents.
- Decrypt.DecryptMountable: an empty key list ends the process as `Fatal(NoKeys)`. In the source that is `assert (keys[0] != NULL)` (line 103). Built with NDEBUG, the loop tries no key and `error` ends the process instead. Both stop the pass at that mountable, and the model does not tell the two builds apart.
- MapNames.MakeMapname: is the corrected make_mapname (copies while len > 1, at most len - 6 characters). For a device with len - 5 or more letters and digits after "/dev/", the source's loop (line 61) fills all len places and line 68 writes index len; that behaviour is MakeMapnameAsWritten, in "## Findings".
- MapNames.MakeMapname: the `abort ()` for len < 6 is reported as `ok == false` with the buffer untouched, not as ending the process. decrypt_mountables always passes 512.
- MapNames.MakeMapnameAsWritten: requires the array to have a place past len, or the name to be short enough. Otherwise the source writes one past the buffer, which cannot be expressed as an array write. That case is shown by AsWrittenOverrunsCallerBuffer.
- `mltools/libosinfo-c.c` and `mlaugeas/augeas-c.c` are not part of this model. They are bindings to foreign libraries.

## Findings

| source | as written | input that shows it | evidently intended | confidence | as-written member | corrected member |
|---|---|---|---|---|---|---|
| options/decrypt.c:61-68 | the copy loop runs while `len >= 1` after `len -= 5`, so it can copy len - 5 characters, and line 68 then writes the terminator at index len of the caller's buffer | a device "/dev/" followed by 507 letters, with the 512-character buffer of decrypt_mountables (line 83, 108): the terminator goes to mapname[512] | stop copying while one place is left (`len > 1`), so at most len - 6 characters follow "crypt" and the terminator stays inside the buffer | not executed | MapNames.MakeMapnameAsWritten, MapNames.AsWrittenOverrunsCallerBuffer | MapNames.MakeMapname, MapNames.MapName |
