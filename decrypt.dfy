/** The disk-decryption pass: decrypt_mountables, which opens every LUKS or
    BitLocker device of a list with the first key that works, and
    inspect_do_decrypt, which runs it over the partitions, rescans the
    volume groups when it opened something, and runs it over the logical
    volumes. Each operation is a method over the guestfs handle, proved
    against a function that gives the calls it makes and its outcome. */
module Decrypt {
  import opened CStrings
  import opened MapNames
  import opened Guestfs

  /** sizeof mapname in decrypt_mountables. */
  const MapnameSize: nat := 512

  /** The file system types guestfs_vfs_type reports for encrypted devices. */
  const LuksType: CString := "crypto_LUKS"
  const BitLockerType: CString := "BitLocker"

  /** The ways the pass ends the process. */
  datatype FatalError =
    | NoPartitions                  // guestfs_list_partitions failed: exit
    | NoKeys(device: CString)       // get_keys gave no key: the assert fails
    | NoKeyOpens(device: CString)   // no key opens the device: error (EXIT_FAILURE, ...)
    | ScanFailed                    // guestfs_lvm_scan failed: exit
    | NoLvs                         // guestfs_lvs failed: exit

  /** How a step ends: with a value, or by ending the process. */
  datatype Outcome<T> = Done(value: T) | Fatal(error: FatalError)

  /** The calls a step makes, in order, and how it ends. */
  datatype Run<T> = Run(calls: seq<Call>, outcome: Outcome<T>)

  predicate IsLuks(t: Option<CString>) {
    t.Some? && t.value == LuksType
  }

  /** The file system types decrypt_mountables tries to open. */
  predicate IsEncrypted(t: Option<CString>) {
    t.Some? && (t.value == LuksType || t.value == BitLockerType)
  }

  /** The UUID decrypt_mountables has for a mountable: asked only of LUKS
      devices, and possibly not found. */
  function UuidOf(env: Env, m: CString): (r: Option<CString>)
    ensures r.Some? ==> IsLuks(env.vfsType(m)) && r == env.luksUuid(m)
  {
    if IsLuks(env.vfsType(m)) then env.luksUuid(m) else None
  }

  /** The name of the plaintext device: "luks-<uuid>" when names are to come
      from UUIDs and there is one, otherwise make_mapname's. */
  function PlainName(m: CString, uuid: Option<CString>, byUuid: bool): (r: CString)
    ensures 5 <= |r| < MapnameSize
  {
    if byUuid && uuid.Some? then LuksName(uuid.value, MapnameSize) else MapName(m, MapnameSize)
  }

  function KeysOf(env: Env, ks: KeyStore, m: CString): seq<CString> {
    ks.keysFor(m, UuidOf(env, m))
  }

  /** The naming rule of a pass: by device, or by UUID where there is one. */
  function Names(env: Env, byUuid: bool): CString -> CString {
    m => PlainName(m, UuidOf(env, m), byUuid)
  }

  /** Some key of the store opens the mountable under its plaintext name. */
  predicate Unlockable(env: Env, ks: KeyStore, m: CString, names: CString -> CString) {
    exists k :: k in KeysOf(env, ks, m) && env.opens(m, k, names(m))
  }

  /** An encrypted mountable that no key opens: the pass ends the process. */
  predicate Stuck(env: Env, ks: KeyStore, m: CString, names: CString -> CString) {
    IsEncrypted(env.vfsType(m)) && !Unlockable(env, ks, m, names)
  }

  /** The error a stuck mountable ends the process with. */
  function StuckError(env: Env, ks: KeyStore, m: CString): (r: FatalError)
    ensures (r.NoKeys? || r.NoKeyOpens?) && r.device == m
  {
    if KeysOf(env, ks, m) == [] then NoKeys(m) else NoKeyOpens(m)
  }

  /** The keys the key loop tries, in order: up to and including the first
      that opens the device, or all of them when none does. */
  function TriedKeys(env: Env, m: CString, keys: seq<CString>, name: CString): (r: seq<CString>)
    ensures |r| <= |keys| && r == keys[..|r|]
    ensures forall j :: 0 <= j < |r| - 1 ==> !env.opens(m, r[j], name)
  {
    if keys == [] then []
    else if env.opens(m, keys[0], name) then [keys[0]]
    else [keys[0]] + TriedKeys(env, m, keys[1..], name)
  }

  /** The last key tried opens the device exactly when some key does; when
      it does not, every key has been tried. */
  lemma {:induction false} TriedKeysFirstMatch(env: Env, m: CString, keys: seq<CString>, name: CString)
    ensures var r := TriedKeys(env, m, keys, name);
      ((exists k :: k in keys && env.opens(m, k, name)) <==> (r != [] && env.opens(m, r[|r| - 1], name)))
      && (!(r != [] && env.opens(m, r[|r| - 1], name)) ==> r == keys)
  {
    if keys != [] && !env.opens(m, keys[0], name) {
      TriedKeysFirstMatch(env, m, keys[1..], name);
      assert forall k :: k in keys ==> k == keys[0] || k in keys[1..];
    }
  }

  /** The key loop tries keys up to the first that opens the device. */
  lemma {:induction false} TriedKeysFirst(env: Env, m: CString, keys: seq<CString>, name: CString, n: nat)
    requires n < |keys| && env.opens(m, keys[n], name)
    requires forall i :: 0 <= i < n ==> !env.opens(m, keys[i], name)
    ensures TriedKeys(env, m, keys, name) == keys[..n + 1]
  {
    if n > 0 {
      TriedKeysFirst(env, m, keys[1..], name, n - 1);
      assert keys[..n + 1] == [keys[0]] + keys[1..][..n];
    }
  }
  /** When no key opens the device, the key loop tries them all. */
  lemma TriedKeysNone(env: Env, m: CString, keys: seq<CString>, name: CString)
    requires forall i :: 0 <= i < |keys| ==> !env.opens(m, keys[i], name)
    ensures TriedKeys(env, m, keys, name) == keys
  {
  }
  /** guestfs_cryptsetup_open of a mountable with each of keys, in order. */
  function OpenCalls(m: CString, keys: seq<CString>, name: CString): seq<Call> {
    seq(|keys|, i requires 0 <= i < |keys| => Call.CryptsetupOpen(m, keys[i], name))
  }

  /** The keys of the guestfs_cryptsetup_open calls among calls, in order. */
  function OpenedKeys(calls: seq<Call>): seq<CString> {
    if calls == [] then []
    else (if calls[0].CryptsetupOpen? then [calls[0].key] else []) + OpenedKeys(calls[1..])
  }

  /** The calls a turn makes before it tries keys: the type query, the
      UUID query of a LUKS device, and the key lookup of an encrypted one. */
  function PreCalls(env: Env, m: CString): (r: seq<Call>)
    ensures 1 <= |r| <= 3 && r[0] == Call.VfsType(m)
  {
    var t := env.vfsType(m);
    [Call.VfsType(m)]
    + (if IsLuks(t) then [Call.LuksUuid(m)] else [])
    + (if IsEncrypted(t) then [Call.GetKeys(m, UuidOf(env, m))] else [])
  }

  /** The keys a turn tries: none for a device that is not encrypted. */
  function TriedOf(env: Env, ks: KeyStore, m: CString, names: CString -> CString): seq<CString> {
    if IsEncrypted(env.vfsType(m)) then TriedKeys(env, m, KeysOf(env, ks, m), names(m)) else []
  }

  /** How a turn ends: a device that is not encrypted is skipped, an
      encrypted one is opened or ends the process. */
  function TurnOutcome(env: Env, ks: KeyStore, m: CString, names: CString -> CString): (r: Outcome<bool>)
    ensures r.Fatal? <==> Stuck(env, ks, m, names)
    ensures r == Done(true) ==> IsEncrypted(env.vfsType(m))
  {
    if !IsEncrypted(env.vfsType(m)) then Done(false)
    else if Unlockable(env, ks, m, names) then Done(true)
    else Fatal(StuckError(env, ks, m))
  }

  /** One turn of decrypt_mountables' loop: the value is whether the
      mountable was opened. */
  function MountableRun(env: Env, ks: KeyStore, m: CString, names: CString -> CString): (r: Run<bool>)
    ensures r.outcome == Done(true) ==> IsEncrypted(env.vfsType(m)) && Unlockable(env, ks, m, names)
  {
    Run(PreCalls(env, m) + OpenCalls(m, TriedOf(env, ks, m, names), names(m)),
        TurnOutcome(env, ks, m, names))
  }

  /** decrypt_mountables over a list of mountables: the value is whether it
      opened any; the first fatal turn ends it. */
  function DecryptSpec(env: Env, ks: KeyStore, ms: seq<CString>, names: CString -> CString): (r: Run<bool>)
    ensures r.outcome.Done? ==> |r.calls| >= |ms|
    decreases |ms|
  {
    if ms == [] then Run([], Done(false))
    else
      var prev := DecryptSpec(env, ks, ms[..|ms| - 1], names);
      if prev.outcome.Fatal? then prev
      else
        var step := MountableRun(env, ks, ms[|ms| - 1], names);
        Run(prev.calls + step.calls,
            if step.outcome.Fatal? then step.outcome else Done(prev.outcome.value || step.outcome.value))
  }

  /** inspect_do_decrypt, started with the volume groups scanned or not:
      its run, and whether they are scanned at its end. */
  function InspectSpec(env: Env, ks: KeyStore, scanned: bool): (r: (Run<()>, bool))
    ensures |r.0.calls| >= 1 && r.0.calls[0] == Call.ListPartitions
    ensures scanned ==> r.1
    ensures r.1 ==> scanned || env.scanOk
  {
    match env.partitions
    case None => (Run([Call.ListPartitions], Fatal(NoPartitions)), scanned)
    case Some(parts) =>
      var p := DecryptSpec(env, ks, parts, Names(env, false));
      var c1 := [Call.ListPartitions] + p.calls;
      if p.outcome.Fatal? then (Run(c1, Fatal(p.outcome.error)), scanned)
      else if p.outcome.value && !env.scanOk then (Run(c1 + [Call.LvmScan], Fatal(ScanFailed)), scanned)
      else
        var sc := scanned || p.outcome.value;
        var c2 := c1 + (if p.outcome.value then [Call.LvmScan] else []) + [Call.Lvs];
        match env.lvs(sc)
        case None => (Run(c2, Fatal(NoLvs)), sc)
        case Some(lvs) =>
          var l := DecryptSpec(env, ks, lvs, Names(env, true));
          (Run(c2 + l.calls, if l.outcome.Fatal? then Fatal(l.outcome.error) else Done(())), sc)
  }

  /** A call the pass over ms may make: only about a mountable of ms; the
      UUID only of a LUKS device; keys and opens only for an encrypted
      device, with its UUID, a key of the store and its plaintext name. */
  predicate CallOk(env: Env, ks: KeyStore, ms: seq<CString>, names: CString -> CString, c: Call) {
    match c
    case VfsType(m) => m in ms
    case LuksUuid(m) => m in ms && IsLuks(env.vfsType(m))
    case GetKeys(m, u) => m in ms && IsEncrypted(env.vfsType(m)) && u == UuidOf(env, m)
    case CryptsetupOpen(m, k, n) =>
      m in ms && IsEncrypted(env.vfsType(m)) && k in KeysOf(env, ks, m) && n == names(m)
    case _ => false
  }

  predicate PassCalls(env: Env, ks: KeyStore, ms: seq<CString>, names: CString -> CString, calls: seq<Call>) {
    forall i :: 0 <= i < |calls| ==> CallOk(env, ks, ms, names, calls[i])
  }

  // ---------------------------------------------------------------------
  // Properties of one turn and of the pass

  /** A mountable of unknown type, or of a type other than LUKS and
      BitLocker, is skipped: no call but guestfs_vfs_type, no key tried. */
  lemma SkippedMountable(env: Env, ks: KeyStore, m: CString, names: CString -> CString)
    requires !IsEncrypted(env.vfsType(m))
    ensures MountableRun(env, ks, m, names) == Run([Call.VfsType(m)], Done(false))
  {
    assert OpenCalls(m, [], names(m)) == [];
  }

  lemma {:induction false} OpenedKeysAppend(a: seq<Call>, b: seq<Call>)
    ensures OpenedKeys(a + b) == OpenedKeys(a) + OpenedKeys(b)
  {
    if a == [] {
      assert a + b == b;
    } else {
      assert (a + b)[0] == a[0] && (a + b)[1..] == a[1..] + b;
      OpenedKeysAppend(a[1..], b);
    }
  }

  lemma {:induction false} OpenedKeysOfOpens(m: CString, keys: seq<CString>, name: CString)
    ensures OpenedKeys(OpenCalls(m, keys, name)) == keys
  {
    if keys != [] {
      assert OpenCalls(m, keys, name)[1..] == OpenCalls(m, keys[1..], name);
      OpenedKeysOfOpens(m, keys[1..], name);
    }
  }

  lemma {:induction false} OpenedKeysOfOthers(calls: seq<Call>)
    requires forall i :: 0 <= i < |calls| ==> !calls[i].CryptsetupOpen?
    ensures OpenedKeys(calls) == []
  {
    if calls != [] {
      OpenedKeysOfOthers(calls[1..]);
    }
  }

  /** The keys a turn tries: in the key store's order, each failing until the
      first that opens the device, none after it; when the device is
      stuck, all of them; none for a mountable that is not encrypted. */
  lemma MountableOpens(env: Env, ks: KeyStore, m: CString, names: CString -> CString)
    ensures var run := MountableRun(env, ks, m, names);
      var tried := OpenedKeys(run.calls);
      var keys := KeysOf(env, ks, m);
      var name := names(m);
      |tried| <= |keys| && tried == keys[..|tried|]
      && (forall j :: 0 <= j < |tried| - 1 ==> !env.opens(m, tried[j], name))
      && (run.outcome == Done(true) ==> tried != [] && env.opens(m, tried[|tried| - 1], name))
      && (run.outcome.Fatal? ==> tried == keys && forall j :: 0 <= j < |keys| ==> !env.opens(m, keys[j], name))
      && (run.outcome == Done(false) ==> tried == [])
  {
    MountableTried(env, ks, m, names);
    var run := MountableRun(env, ks, m, names);
    if IsEncrypted(env.vfsType(m)) {
      var keys := KeysOf(env, ks, m);
      var name := names(m);
      var r := TriedKeys(env, m, keys, name);
      assert OpenedKeys(run.calls) == r;
      TriedKeysFirstMatch(env, m, keys, name);
      if Unlockable(env, ks, m, names) {
        assert run.outcome == Done(true);
      } else {
        assert run.outcome.Fatal? && r == keys;
      }
    } else {
      assert run.outcome == Done(false) && OpenedKeys(run.calls) == [];
    }
  }

  /** The keys of the opens a turn makes are the keys TriedOf gives. */
  lemma MountableTried(env: Env, ks: KeyStore, m: CString, names: CString -> CString)
    ensures OpenedKeys(MountableRun(env, ks, m, names).calls) == TriedOf(env, ks, m, names)
  {
    var pre := PreCalls(env, m);
    var name := names(m);
    var tried := TriedOf(env, ks, m, names);
    OpenedKeysOfOthers(pre);
    OpenedKeysAppend(pre, OpenCalls(m, tried, name));
    OpenedKeysOfOpens(m, tried, name);
  }

  /** A proof hint: regrouping the call log's concatenations. */
  lemma AppendAssoc<T>(a: seq<T>, b: seq<T>, c: seq<T>)
    ensures (a + b) + c == a + (b + c)
  {
  }

  /** The proof step of DecryptMountables' loop invariant: DecryptSpec on
      one more mountable, unfolded at ms[..i + 1]. */
  lemma DecryptSpecSnoc(env: Env, ks: KeyStore, ms: seq<CString>, i: nat, names: CString -> CString)
    requires i < |ms|
    ensures var prev := DecryptSpec(env, ks, ms[..i], names);
      var turn := MountableRun(env, ks, ms[i], names);
      DecryptSpec(env, ks, ms[..i + 1], names)
        == if prev.outcome.Fatal? then prev
           else Run(prev.calls + turn.calls,
                    if turn.outcome.Fatal? then turn.outcome else Done(prev.outcome.value || turn.outcome.value))
  {
    assert ms[..i + 1][..i] == ms[..i];
  }

  /** Once a prefix of the list ends the process, the pass over the whole
      list is the pass over that prefix: no later mountable is looked at. */
  lemma {:induction false} DecryptStopsAtFatal(env: Env, ks: KeyStore, ms: seq<CString>, n: nat, names: CString -> CString)
    requires n <= |ms| && DecryptSpec(env, ks, ms[..n], names).outcome.Fatal?
    ensures DecryptSpec(env, ks, ms, names) == DecryptSpec(env, ks, ms[..n], names)
    decreases |ms| - n
  {
    if n < |ms| {
      var init := ms[..|ms| - 1];
      assert init[..n] == ms[..n];
      DecryptStopsAtFatal(env, ks, init, n, names);
    } else {
      assert ms[..n] == ms;
    }
  }

  /** decrypt_mountables ends the process exactly when some mountable is
      stuck, and then with the error of the first stuck one; otherwise it
      returns true exactly when some mountable is LUKS or BitLocker. */
  lemma {:induction false} DecryptOutcome(env: Env, ks: KeyStore, ms: seq<CString>, names: CString -> CString)
    ensures var run := DecryptSpec(env, ks, ms, names);
      (run.outcome.Fatal? <==> exists i :: 0 <= i < |ms| && Stuck(env, ks, ms[i], names))
      && (run.outcome.Fatal? ==>
            exists i :: 0 <= i < |ms| && Stuck(env, ks, ms[i], names)
              && run.outcome.error == StuckError(env, ks, ms[i])
              && forall j :: 0 <= j < i ==> !Stuck(env, ks, ms[j], names))
      && (run.outcome.Done? ==> (run.outcome.value <==> exists i :: 0 <= i < |ms| && IsEncrypted(env.vfsType(ms[i]))))
    decreases |ms|
  {
    if ms != [] {
      var init := ms[..|ms| - 1];
      DecryptOutcome(env, ks, init, names);
      assert forall i :: 0 <= i < |init| ==> init[i] == ms[i];
    }
  }

  /** The calls of one turn are ones CallOk allows. */
  lemma MountableCallsOk(env: Env, ks: KeyStore, ms: seq<CString>, m: CString, names: CString -> CString)
    requires m in ms
    ensures PassCalls(env, ks, ms, names, MountableRun(env, ks, m, names).calls)
  {
    var pre := PreCalls(env, m);
    var tried := TriedOf(env, ks, m, names);
    var opens := OpenCalls(m, tried, names(m));
    assert PassCalls(env, ks, ms, names, pre);
    forall i | 0 <= i < |opens| ensures CallOk(env, ks, ms, names, opens[i]) {
      assert tried[i] == KeysOf(env, ks, m)[i];
    }
    assert MountableRun(env, ks, m, names).calls == pre + opens;
  }

  /** Every call of decrypt_mountables is one CallOk allows: about a
      mountable of the list, asking the UUID only of LUKS devices, and
      opening only encrypted devices, with a key of the store, under the
      device's plaintext name. */
  lemma {:induction false} DecryptCallsFaithful(env: Env, ks: KeyStore, ms: seq<CString>, names: CString -> CString)
    ensures PassCalls(env, ks, ms, names, DecryptSpec(env, ks, ms, names).calls)
    decreases |ms|
  {
    if ms != [] {
      var init := ms[..|ms| - 1];
      var m := ms[|ms| - 1];
      DecryptCallsFaithful(env, ks, init, names);
      MountableCallsOk(env, ks, ms, m, names);
      var prev := DecryptSpec(env, ks, init, names).calls;
      forall i | 0 <= i < |prev| ensures CallOk(env, ks, ms, names, prev[i]) {
        assert CallOk(env, ks, init, names, prev[i]);
        var c := prev[i];
        if c.VfsType? || c.LuksUuid? || c.GetKeys? || c.CryptsetupOpen? {
          var j :| 0 <= j < |init| && init[j] == c.device;
          assert ms[j] == c.device;
        }
      }
    }
  }

  /** A pass makes none of the calls of inspect_do_decrypt itself. */
  lemma PassCallsExclude(env: Env, ks: KeyStore, ms: seq<CString>, names: CString -> CString, calls: seq<Call>)
    requires PassCalls(env, ks, ms, names, calls)
    ensures Call.ListPartitions !in calls && Call.LvmScan !in calls && Call.Lvs !in calls
  {
    forall i | 0 <= i < |calls|
      ensures calls[i] != Call.ListPartitions && calls[i] != Call.LvmScan && calls[i] != Call.Lvs
    {
      assert CallOk(env, ks, ms, names, calls[i]);
    }
  }

  /** The plaintext name begins "luks-" exactly when names come from UUIDs
      and the device has one, and "crypt" otherwise; with a UUID short
      enough for the buffer it is "luks-" and the whole UUID. */
  lemma PlainNamePrefix(m: CString, uuid: Option<CString>, byUuid: bool)
    ensures |PlainName(m, uuid, byUuid)| >= 5
    ensures PlainName(m, uuid, byUuid)[..5] == (if byUuid && uuid.Some? then "luks-" else "crypt")
    ensures PlainName(m, uuid, byUuid)[..5] == "luks-" <==> byUuid && uuid.Some?
    ensures byUuid && uuid.Some? && 5 + |uuid.value| < MapnameSize ==> PlainName(m, uuid, byUuid) == "luks-" + uuid.value
  {
    if byUuid && uuid.Some? {
      var s := "luks-" + uuid.value;
      var r := LuksName(uuid.value, MapnameSize);
      assert |r| >= 5;
      assert r[..5] == s[..5] == "luks-";
    } else {
      assert "crypt"[0] != "luks-"[0];
    }
  }

  /** Opens in the partition pass use make_mapname names; opens in the
      logical-volume pass use "luks-<uuid>" names exactly for LUKS volumes
      with a UUID. */
  lemma PhaseNames(env: Env, ks: KeyStore, ms: seq<CString>, byUuid: bool, c: Call)
    requires CallOk(env, ks, ms, Names(env, byUuid), c) && c.CryptsetupOpen?
    ensures !byUuid ==> c.mapname == MapName(c.device, MapnameSize)
    ensures c.mapname[..5] == "luks-" <==> byUuid && UuidOf(env, c.device).Some?
  {
    PlainNamePrefix(c.device, UuidOf(env, c.device), byUuid);
  }

  // ---------------------------------------------------------------------
  // Properties of inspect_do_decrypt

  /** inspect_do_decrypt ends normally exactly when the partitions are
      listed, no partition is stuck, the rescan succeeds if it is needed,
      the logical volumes are listed and no logical volume is stuck; the
      rescan is needed exactly when some partition is LUKS or BitLocker. */
  lemma InspectOutcome(env: Env, ks: KeyStore, scanned: bool)
    ensures var (run, sc) := InspectSpec(env, ks, scanned);
      (run.outcome == Fatal(NoPartitions) <==> env.partitions.None?)
      && (run.outcome.Done? <==>
            env.partitions.Some?
            && (forall i :: 0 <= i < |env.partitions.value| ==> !Stuck(env, ks, env.partitions.value[i], Names(env, false)))
            && ((exists i :: 0 <= i < |env.partitions.value| && IsEncrypted(env.vfsType(env.partitions.value[i])))
                ==> env.scanOk)
            && env.lvs(sc).Some?
            && (forall i :: 0 <= i < |env.lvs(sc).value| ==> !Stuck(env, ks, env.lvs(sc).value[i], Names(env, true))))
  {
    if env.partitions.Some? {
      DecryptOutcome(env, ks, env.partitions.value, Names(env, false));
      var p := DecryptSpec(env, ks, env.partitions.value, Names(env, false));
      if p.outcome.Done? && (!p.outcome.value || env.scanOk) {
        var sc := scanned || p.outcome.value;
        if env.lvs(sc).Some? {
          DecryptOutcome(env, ks, env.lvs(sc).value, Names(env, true));
        }
      }
    }
  }

  /** The volume groups are rescanned exactly when the partitions are
      listed, none is stuck and some partition is LUKS or BitLocker; at the
      end they count as scanned when they were before or the rescan
      succeeded. */
  lemma InspectRescanIff(env: Env, ks: KeyStore, scanned: bool)
    ensures var (run, sc) := InspectSpec(env, ks, scanned);
      (Call.LvmScan in run.calls <==>
         env.partitions.Some?
         && (forall i :: 0 <= i < |env.partitions.value| ==> !Stuck(env, ks, env.partitions.value[i], Names(env, false)))
         && exists i :: 0 <= i < |env.partitions.value| && IsEncrypted(env.vfsType(env.partitions.value[i])))
      && sc == (scanned || (Call.LvmScan in run.calls && env.scanOk))
  {
    if env.partitions.Some? {
      var parts := env.partitions.value;
      DecryptOutcome(env, ks, parts, Names(env, false));
      DecryptCallsFaithful(env, ks, parts, Names(env, false));
      var p := DecryptSpec(env, ks, parts, Names(env, false));
      PassCallsExclude(env, ks, parts, Names(env, false), p.calls);
      assert Call.LvmScan !in [Call.ListPartitions] + p.calls;
      if p.outcome.Done? && (!p.outcome.value || env.scanOk) {
        var sc := scanned || p.outcome.value;
        if env.lvs(sc).Some? {
          var l := DecryptSpec(env, ks, env.lvs(sc).value, Names(env, true));
          DecryptCallsFaithful(env, ks, env.lvs(sc).value, Names(env, true));
          PassCallsExclude(env, ks, env.lvs(sc).value, Names(env, true), l.calls);
        }
      }
    }
  }

  /** The order of inspect_do_decrypt: the partition list, then the pass
      over the partitions (make_mapname names), then what AfterPass
      allows. */
  lemma InspectPhases(env: Env, ks: KeyStore, scanned: bool)
    requires env.partitions.Some?
    ensures var (run, sc) := InspectSpec(env, ks, scanned);
      exists pcalls: seq<Call>, rest: seq<Call> ::
        run.calls == [Call.ListPartitions] + pcalls + rest
        && PassCalls(env, ks, env.partitions.value, Names(env, false), pcalls)
        && AfterPass(env, ks, sc, rest)
  {
    var parts := env.partitions.value;
    var p := DecryptSpec(env, ks, parts, Names(env, false));
    DecryptCallsFaithful(env, ks, parts, Names(env, false));
    var (run, sc) := InspectSpec(env, ks, scanned);
    var c1 := [Call.ListPartitions] + p.calls;
    var rest: seq<Call> := [];
    if p.outcome.Fatal? {
      assert run.calls == c1 + rest;
    } else if p.outcome.value && !env.scanOk {
      rest := [Call.LvmScan];
      assert run.calls == c1 + rest;
    } else {
      var x: seq<Call> := if p.outcome.value then [Call.LvmScan] else [];
      var lv: seq<Call>;
      if env.lvs(sc).None? {
        lv := [Call.Lvs];
        assert lv[1..] == [];
        assert run.calls == c1 + x + lv;
      } else {
        var l := DecryptSpec(env, ks, env.lvs(sc).value, Names(env, true));
        DecryptCallsFaithful(env, ks, env.lvs(sc).value, Names(env, true));
        lv := [Call.Lvs] + l.calls;
        assert lv[1..] == l.calls;
        assert run.calls == c1 + x + [Call.Lvs] + l.calls;
        AppendAssoc(c1 + x, [Call.Lvs], l.calls);
      }
      assert LvPhase(env, ks, sc, lv);
      rest := x + lv;
      assert p.outcome.value ==> rest[1..] == lv;
      AppendAssoc(c1, x, lv);
      assert run.calls == c1 + rest;
    }
    assert AfterPass(env, ks, sc, rest);
  }

  /** What may follow the pass over the partitions: nothing (it stopped),
      the rescan alone (it failed), or the logical volume phase, after the
      rescan when some partition was opened. */
  predicate AfterPass(env: Env, ks: KeyStore, sc: bool, rest: seq<Call>) {
    rest == [] || rest == [Call.LvmScan] || LvPhase(env, ks, sc, rest)
    || (rest[0] == Call.LvmScan && LvPhase(env, ks, sc, rest[1..]))
  }

  /** The calls from the logical volume listing on: guestfs_lvs, then the
      pass over the logical volumes it listed, with names from UUIDs. */
  predicate LvPhase(env: Env, ks: KeyStore, sc: bool, rest: seq<Call>) {
    rest != [] && rest[0] == Call.Lvs
    && (rest[1..] != [] ==> env.lvs(sc).Some? && PassCalls(env, ks, env.lvs(sc).value, Names(env, true), rest[1..]))
  }

  // ---------------------------------------------------------------------
  // The operations

  /** The key loop of decrypt_mountables: tries each key in turn with the
      name held in mapname and stops at the first open that returns 0. The
      calls made are the opens with the keys TriedKeys gives; the result
      says whether some key opened the device. */
  method TryKeys(g: Handle, m: CString, keys: seq<CString>, mapname: array<char>) returns (found: bool)
    modifies g`log
    ensures var name := CStr(mapname[..]);
      g.log == old(g.log) + OpenCalls(m, TriedKeys(g.env, m, keys, name), name)
      && found == (exists k :: k in keys && g.env.opens(m, k, name))
  {
    ghost var name := CStr(mapname[..]);
    var j := 0;
    found := false;
    while j < |keys|
      invariant 0 <= j <= |keys|
      invariant g.log == old(g.log) + OpenCalls(m, keys[..j], name)
      invariant forall i :: 0 <= i < j ==> !g.env.opens(m, keys[i], name)
    {
      var r := g.CryptsetupOpen(m, keys[j], mapname);
      assert OpenCalls(m, keys[..j + 1], name) == OpenCalls(m, keys[..j], name) + [Call.CryptsetupOpen(m, keys[j], name)];
      if r == 0 {
        found := true;
        TriedKeysFirst(g.env, m, keys, name, j);
        return;
      }
      j := j + 1;
    }
    assert keys[..j] == keys;
    TriedKeysNone(g.env, m, keys, name);
  }

  /** One turn of decrypt_mountables' loop, for the mountable m. */
  method DecryptMountable(g: Handle, m: CString, ks: KeyStore, byUuid: bool) returns (r: Outcome<bool>)
    modifies g`log
    ensures var run := MountableRun(g.env, ks, m, Names(g.env, byUuid));
      r == run.outcome && g.log == old(g.log) + run.calls
  {
    ghost var log0 := g.log;
    var t := g.VfsType(m);
    if t.None? {
      SkippedMountable(g.env, ks, m, Names(g.env, byUuid));
      return Done(false);
    }
    var uuid: Option<CString> := None;
    if t.value == LuksType {
      uuid := g.LuksUuid(m);
    } else if t.value != BitLockerType {
      SkippedMountable(g.env, ks, m, Names(g.env, byUuid));
      return Done(false);
    }
    assert uuid == UuidOf(g.env, m);
    var keys := g.GetKeys(ks, m, uuid);
    assert g.log == log0 + PreCalls(g.env, m);
    if keys == [] {
      assert OpenCalls(m, [], Names(g.env, byUuid)(m)) == [];
      return Fatal(NoKeys(m));
    }
    ghost var log1 := g.log;
    var found := NameAndTryKeys(g, m, keys, uuid, byUuid);
    AppendAssoc(log0, PreCalls(g.env, m), g.log[|log1|..]);
    assert g.log == log1 + g.log[|log1|..];
    if !found {
      return Fatal(NoKeyOpens(m));
    }
    return Done(true);
  }

  /** The rest of a turn for an encrypted mountable with keys: the plaintext
      name is formatted into a fresh 512-character buffer, "luks-<uuid>"
      when names come from UUIDs and there is one, make_mapname's otherwise;
      then the keys are tried under that name. */
  method NameAndTryKeys(g: Handle, m: CString, keys: seq<CString>, uuid: Option<CString>, byUuid: bool)
    returns (found: bool)
    modifies g`log
    ensures var name := PlainName(m, uuid, byUuid);
      g.log == old(g.log) + OpenCalls(m, TriedKeys(g.env, m, keys, name), name)
      && found == (exists k :: k in keys && g.env.opens(m, k, name))
  {
    var mapname := new char[MapnameSize];
    if !byUuid || uuid.None? {
      var ok := MakeMapname(m, mapname, mapname.Length);
    } else {
      var n := FormatLuksName(uuid.value, mapname);
    }
    found := TryKeys(g, m, keys, mapname);
  }

  /** decrypt_mountables (g, mountables, ks, name_decrypted_by_uuid). */
  method DecryptMountables(g: Handle, ms: seq<CString>, ks: KeyStore, byUuid: bool) returns (r: Outcome<bool>)
    modifies g`log
    ensures var run := DecryptSpec(g.env, ks, ms, Names(g.env, byUuid));
      r == run.outcome && g.log == old(g.log) + run.calls
  {
    ghost var names := Names(g.env, byUuid);
    var decryptedSome := false;
    var i := 0;
    while i < |ms|
      invariant 0 <= i <= |ms|
      invariant DecryptSpec(g.env, ks, ms[..i], names).outcome == Done(decryptedSome)
      invariant g.log == old(g.log) + DecryptSpec(g.env, ks, ms[..i], names).calls
    {
      ghost var prev := DecryptSpec(g.env, ks, ms[..i], names).calls;
      var step := DecryptMountable(g, ms[i], ks, byUuid);
      ghost var turn := MountableRun(g.env, ks, ms[i], names);
      DecryptSpecSnoc(g.env, ks, ms, i, names);
      AppendAssoc(old(g.log), prev, turn.calls);
      if step.Fatal? {
        DecryptStopsAtFatal(g.env, ks, ms, i + 1, names);
        return step;
      }
      if step.value {
        decryptedSome := true;
      }
      i := i + 1;
    }
    assert ms[..i] == ms;
    return Done(decryptedSome);
  }

  /** inspect_do_decrypt (g, ks). */
  method InspectDoDecrypt(g: Handle, ks: KeyStore) returns (r: Outcome<()>)
    modifies g`log, g`scanned
    ensures var (run, sc) := InspectSpec(g.env, ks, old(g.scanned));
      r == run.outcome && g.log == old(g.log) + run.calls && g.scanned == sc
  {
    ghost var log0 := g.log;
    var partitions := g.ListPartitions();
    if partitions.None? {
      return Fatal(NoPartitions);
    }
    ghost var p := DecryptSpec(g.env, ks, partitions.value, Names(g.env, false));
    var needRescan := DecryptMountables(g, partitions.value, ks, false);
    AppendAssoc(log0, [Call.ListPartitions], p.calls);
    ghost var c1 := [Call.ListPartitions] + p.calls;
    if needRescan.Fatal? {
      return Fatal(needRescan.error);
    }
    if needRescan.value {
      var s := g.LvmScan();
      AppendAssoc(log0, c1, [Call.LvmScan]);
      if s == -1 {
        return Fatal(ScanFailed);
      }
    } else {
      assert c1 + [] == c1;
    }
    ghost var c := c1 + (if needRescan.value then [Call.LvmScan] else []);
    var lvs := g.Lvs();
    AppendAssoc(log0, c, [Call.Lvs]);
    if lvs.None? {
      return Fatal(NoLvs);
    }
    ghost var l := DecryptSpec(g.env, ks, lvs.value, Names(g.env, true));
    var done := DecryptMountables(g, lvs.value, ks, true);
    AppendAssoc(log0, c + [Call.Lvs], l.calls);
    if done.Fatal? {
      return Fatal(done.error);
    }
    return Done(());
  }
}
