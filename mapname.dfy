/** Device-mapper names for decrypted devices: make_mapname, which derives
    "crypt<alnum characters of the device>" from a device path, and the
    "luks-<uuid>" name that snprintf formats into the same buffer. */
module MapNames {
  import opened CStrings

  /** c_isalnum: gnulib's locale-independent test, ASCII letters and digits only. */
  predicate IsAlnum(c: char)
    ensures IsAlnum(c) ==> c as int < 128 && c != '\0'
  {
    ('A' <= c <= 'Z') || ('a' <= c <= 'z') || ('0' <= c <= '9')
  }

  /** STRPREFIX (device, "/dev/"). */
  predicate HasDevPrefix(device: string) {
    |device| >= 5 && device[..5] == "/dev/"
  }

  /** The part of the device path that make_mapname scans. */
  function StripDevPrefix(device: string): (r: string)
    ensures HasDevPrefix(device) ==> device == "/dev/" + r
    ensures !HasDevPrefix(device) ==> r == device
  {
    if HasDevPrefix(device) then device[5..] else device
  }

  /** The alphanumeric characters of s, in their order in s. */
  function AlnumFilter(s: string): (r: string)
    ensures |r| <= |s|
    ensures forall k :: 0 <= k < |r| ==> IsAlnum(r[k])
  {
    if s == [] then [] else (if IsAlnum(s[0]) then [s[0]] else []) + AlnumFilter(s[1..])
  }

  /** The first n characters of s, or all of s when it is shorter. */
  function Truncate(s: string, n: nat): string {
    if |s| <= n then s else s[..n]
  }

  /** The name make_mapname leaves in a buffer of len characters, once it
      stops copying while one place is still free for the terminator:
      "crypt" followed by the alphanumeric characters of the device path
      (without a leading "/dev/"), cut so that name and terminator fit. */
  function MapName(device: string, len: nat): (r: CString)
    requires len >= 6
    ensures 5 <= |r| < len
    ensures r[..5] == "crypt"
    ensures forall k :: 5 <= k < |r| ==> IsAlnum(r[k])
  {
    AlnumNoNul(Truncate(AlnumFilter(StripDevPrefix(device)), len - 6));
    "crypt" + Truncate(AlnumFilter(StripDevPrefix(device)), len - 6)
  }

  /** The name make_mapname writes as its loop is written: it copies while
      len >= 1, so up to len - 5 characters follow "crypt" and the name can
      take all len places, leaving the terminator at index len. */
  function MapNameAsWritten(device: string, len: nat): (r: CString)
    requires len >= 6
    ensures 5 <= |r| <= len
    ensures r[..5] == "crypt"
  {
    AlnumNoNul(Truncate(AlnumFilter(StripDevPrefix(device)), len - 5));
    "crypt" + Truncate(AlnumFilter(StripDevPrefix(device)), len - 5)
  }

  /** The name snprintf (mapname, size, "luks-%s", uuid) leaves in a buffer of
      size characters: "luks-" and the UUID, cut to size - 1 characters. */
  function LuksName(uuid: CString, size: nat): (r: CString)
    requires size >= 1
    ensures |r| < size && |r| <= 5 + |uuid|
    ensures r == ("luks-" + uuid)[..|r|]
    ensures 5 + |uuid| < size ==> r == "luks-" + uuid
  {
    var s: CString := "luks-" + uuid;
    if |s| < size then s else s[..size - 1]
  }

  lemma AlnumNoNul(s: string)
    requires forall k :: 0 <= k < |s| ==> IsAlnum(s[k])
    ensures '\0' !in "crypt" + s
  {
    var t := "crypt" + s;
    forall k | 0 <= k < |t| ensures t[k] != '\0' {
      if k >= 5 { assert t[k] == s[k - 5]; }
    }
  }

  // ---------------------------------------------------------------------
  // Properties of the filter

  /** Filtering distributes over concatenation: the filter keeps each
      character on its own merit, in order. */
  lemma {:induction false} AlnumFilterAppend(a: string, b: string)
    ensures AlnumFilter(a + b) == AlnumFilter(a) + AlnumFilter(b)
  {
    if a != [] {
      assert (a + b)[1..] == a[1..] + b;
      AlnumFilterAppend(a[1..], b);
    } else {
      assert a + b == b;
    }
  }

  /** A string made only of letters and digits passes through unchanged. */
  lemma {:induction false} AlnumFilterOfAlnum(s: string)
    requires forall k :: 0 <= k < |s| ==> IsAlnum(s[k])
    ensures AlnumFilter(s) == s
  {
    if s != [] {
      AlnumFilterOfAlnum(s[1..]);
      assert [s[0]] + s[1..] == s;
    }
  }

  /** Filtering twice keeps what filtering once keeps. */
  lemma AlnumFilterIdempotent(s: string)
    ensures AlnumFilter(AlnumFilter(s)) == AlnumFilter(s)
  {
    AlnumFilterOfAlnum(AlnumFilter(s));
  }

  /** A string without any letter or digit filters to nothing. */
  lemma {:induction false} AlnumFilterOfNone(s: string)
    requires forall k :: 0 <= k < |s| ==> !IsAlnum(s[k])
    ensures AlnumFilter(s) == []
  {
    if s != [] {
      AlnumFilterOfNone(s[1..]);
    }
  }

  // ---------------------------------------------------------------------
  // Properties of the map name

  /** "/dev/" is removed from any path that starts with it. */
  lemma StripDevPrefixOf(rest: string)
    ensures StripDevPrefix("/dev/" + rest) == rest
  {
    assert ("/dev/" + rest)[..5] == "/dev/";
    assert ("/dev/" + rest)[5..] == rest;
  }

  /** A separator between two alphanumeric words is dropped. */
  lemma AlnumFilterJoin(a: string, sep: char, b: string)
    requires forall k :: 0 <= k < |a| ==> IsAlnum(a[k])
    requires forall k :: 0 <= k < |b| ==> IsAlnum(b[k])
    requires !IsAlnum(sep)
    ensures AlnumFilter(a + [sep] + b) == a + b
  {
    AlnumFilterJoinFilters(a, sep, b);
    AlnumFilterOfAlnum(a);
    AlnumFilterOfAlnum(b);
  }

  // The examples below name their devices through parameters, and the
  // spelling facts about their string literals are proved apart: the
  // verifier unfolds a function applied to a literal eagerly, and facts
  // about long literals are costly to prove next to other facts.

  /** A path "/dev/<w>" of one alphanumeric word maps to "crypt<w>". */
  lemma MapNameOfWord(device: string, w: string)
    requires device == "/dev/" + w
    requires forall k :: 0 <= k < |w| ==> IsAlnum(w[k])
    requires |w| <= 506
    ensures MapName(device, 512) == "crypt" + w
  {
    StripDevPrefixOf(w);
    AlnumFilterOfAlnum(w);
  }

  /** A path "/dev/<vg><sep><lv>" of two alphanumeric words maps to
      "crypt<vg><lv>" when it fits the buffer. */
  lemma MapNameOfVolumePath(device: string, vg: string, sep: char, lv: string)
    requires device == "/dev/" + (vg + [sep] + lv)
    requires forall k :: 0 <= k < |vg| ==> IsAlnum(vg[k])
    requires forall k :: 0 <= k < |lv| ==> IsAlnum(lv[k])
    requires !IsAlnum(sep) && |vg| + |lv| <= 506
    ensures MapName(device, 512) == "crypt" + (vg + lv)
  {
    StripDevPrefixOf(vg + [sep] + lv);
    AlnumFilterJoin(vg, sep, lv);
  }

  /** A path "/dev/<a>-<b>/<c>-<d>" of alphanumeric words maps to
      "crypt<a><b><c><d>" when it fits the buffer. */
  lemma MapNameOfDashedVolumePath(device: string, a: string, b: string, c: string, d: string)
    requires device == "/dev/" + ((a + ['-'] + b) + ['/'] + (c + ['-'] + d))
    requires forall k :: 0 <= k < |a| ==> IsAlnum(a[k])
    requires forall k :: 0 <= k < |b| ==> IsAlnum(b[k])
    requires forall k :: 0 <= k < |c| ==> IsAlnum(c[k])
    requires forall k :: 0 <= k < |d| ==> IsAlnum(d[k])
    requires |a| + |b| + |c| + |d| <= 506
    ensures MapName(device, 512) == "crypt" + ((a + b) + (c + d))
  {
    StripDevPrefixOf((a + ['-'] + b) + ['/'] + (c + ['-'] + d));
    AlnumFilterJoinFilters(a + ['-'] + b, '/', c + ['-'] + d);
    AlnumFilterJoin(a, '-', b);
    AlnumFilterJoin(c, '-', d);
  }

  /** Filtering around a separator joins the filtered sides. */
  lemma AlnumFilterJoinFilters(a: string, sep: char, b: string)
    requires !IsAlnum(sep)
    ensures AlnumFilter(a + [sep] + b) == AlnumFilter(a) + AlnumFilter(b)
  {
    AlnumFilterAppend(a + [sep], b);
    AlnumFilterAppend(a, [sep]);
    AlnumFilterOfNone([sep]);
  }

  /** A proof hint, not a property of make_mapname: how the example paths
      and names of the doc comment are spelled as concatenations. */
  lemma ExampleSpellings()
    ensures "/dev/vda2" == "/dev/" + "vda2"
    ensures "crypt" + "vda2" == "cryptvda2"
    ensures "/dev/vg-ssd/lv-root7" == "/dev/" + (("vg" + ['-'] + "ssd") + ['/'] + ("lv" + ['-'] + "root7"))
    ensures "crypt" + (("vg" + "ssd") + ("lv" + "root7")) == "cryptvgssdlvroot7"
    ensures "/dev/vgssd/lvroot7" == "/dev/" + ("vgssd" + ['/'] + "lvroot7")
    ensures "crypt" + ("vgssd" + "lvroot7") == "cryptvgssdlvroot7"
  {
  }

  /** The first example of the doc comment on make_mapname. */
  lemma MapNameOfPartition(device: string)
    requires device == "/dev/vda2"
    ensures MapName(device, 512) == "cryptvda2"
  {
    ExampleSpellings();
    MapNameOfWord(device, "vda2");
  }

  /** The second example of the doc comment on make_mapname. */
  lemma MapNameOfLogicalVolume(device: string)
    requires device == "/dev/vg-ssd/lv-root7"
    ensures MapName(device, 512) == "cryptvgssdlvroot7"
  {
    ExampleSpellings();
    MapNameOfDashedVolumePath(device, "vg", "ssd", "lv", "root7");
  }

  /** The mapping is not injective: device names that differ only in their
      separators give the same map name. */
  lemma MapNameNotInjective(a: string, b: string)
    requires a == "/dev/vg-ssd/lv-root7" && b == "/dev/vgssd/lvroot7"
    ensures a != b
    ensures MapName(a, 512) == MapName(b, 512)
  {
    MapNameOfLogicalVolume(a);
    ExampleSpellings();
    MapNameOfVolumePath(b, "vgssd", '/', "lvroot7");
    assert |a| == 20 && |b| == 18;
  }

  /** In general, dropping a separator between two alphanumeric words of a
      device path leaves its map name unchanged. */
  lemma MapNameIgnoresSeparator(a: string, sep: char, b: string, len: nat)
    requires len >= 6 && !IsAlnum(sep)
    ensures "/dev/" + (a + [sep] + b) != "/dev/" + (a + b)
    ensures MapName("/dev/" + (a + [sep] + b), len) == MapName("/dev/" + (a + b), len)
  {
    assert |"/dev/" + (a + [sep] + b)| != |"/dev/" + (a + b)|;
    StripDevPrefixOf(a + [sep] + b);
    StripDevPrefixOf(a + b);
    AlnumFilterJoinFilters(a, sep, b);
    AlnumFilterAppend(a, b);
  }

  /** Up to truncation, two devices share a map name exactly when they have
      the same alphanumeric characters after "/dev/": whatever else differs
      between them is lost. */
  lemma MapNameEqualIff(a: string, b: string, len: nat)
    requires len >= 6
    requires |AlnumFilter(StripDevPrefix(a))| <= len - 6
    requires |AlnumFilter(StripDevPrefix(b))| <= len - 6
    ensures MapName(a, len) == MapName(b, len)
        <==> AlnumFilter(StripDevPrefix(a)) == AlnumFilter(StripDevPrefix(b))
  {
    if MapName(a, len) == MapName(b, len) {
      assert MapName(a, len)[5..] == AlnumFilter(StripDevPrefix(a));
      assert MapName(b, len)[5..] == AlnumFilter(StripDevPrefix(b));
    }
  }

  /** A map name is its own map name: what follows "crypt" is already made
      of letters and digits, and short enough for the buffer. */
  lemma MapNameFixedPoint(device: string, len: nat)
    requires len >= 6
    ensures MapName(MapName(device, len)[5..], len) == MapName(device, len)
  {
    var r := MapName(device, len);
    var tail := r[5..];
    assert forall k :: 0 <= k < |tail| ==> IsAlnum(tail[k]) by {
      forall k | 0 <= k < |tail| ensures IsAlnum(tail[k]) {
        assert tail[k] == r[k + 5];
      }
    }
    assert !HasDevPrefix(tail) by {
      if |tail| >= 5 {
        assert IsAlnum(tail[0]) && tail[..5][0] == tail[0];
      }
    }
    assert StripDevPrefix(tail) == tail;
    AlnumFilterOfAlnum(tail);
    assert r == "crypt" + tail;
  }

  /** The corrected name and the name as written agree on every device whose
      name fits the buffer, so the correction only changes overlong names. */
  lemma CorrectedAgreesWhenNameFits(device: string, len: nat)
    requires len >= 6
    requires |AlnumFilter(StripDevPrefix(device))| < len - 5
    ensures MapName(device, len) == MapNameAsWritten(device, len)
  {
  }

  /** As written, the terminator goes to index len (one past a buffer of len
      characters) exactly when the device has at least len - 5 letters and
      digits after "/dev/"; otherwise it lands strictly below len. */
  lemma AsWrittenTerminatorAtLen(device: string, len: nat)
    requires len >= 6
    ensures |MapNameAsWritten(device, len)| == len
        <==> |AlnumFilter(StripDevPrefix(device))| >= len - 5
  {
  }

  /** The device with 507 letters after "/dev/" makes make_mapname, as
      written, fill all 512 characters of the caller's buffer, so the
      terminator is written to mapname[512]. */
  lemma AsWrittenOverrunsCallerBuffer()
    ensures var device := "/dev/" + seq(507, _ => 'a');
      |MapNameAsWritten(device, 512)| == 512
  {
    var name := seq(507, _ => 'a');
    var device := "/dev/" + name;
    assert device[..5] == "/dev/" && device[5..] == name;
    AlnumFilterOfAlnum(name);
  }

  // ---------------------------------------------------------------------
  // make_mapname on a char buffer

  /** make_mapname (device, mapname, len), with the copy loop stopped while
      one place is left for the terminator. len < 6 aborts, reported as
      ok == false with the buffer untouched. Otherwise the buffer holds the
      map name, NUL-terminated, and nothing past the terminator is written. */
  method MakeMapname(device: CString, mapname: array<char>, len: nat) returns (ok: bool)
    requires len <= mapname.Length
    modifies mapname
    ensures ok == (len >= 6)
    ensures !ok ==> mapname[..] == old(mapname[..])
    ensures ok ==> var r := MapName(device, len);
      mapname[..|r|] == r && mapname[|r|] == '\0'
      && forall k :: |r| < k < mapname.Length ==> mapname[k] == old(mapname[k])
    ensures ok ==> CStr(mapname[..]) == MapName(device, len)
  {
    if len < 6 {
      return false;
    }
    StrcpyCrypt(mapname);
    var i := if HasDevPrefix(device) then 5 else 0;
    assert device[i..] == StripDevPrefix(device);
    var p := CopyAlnum(device, i, mapname, 5, len - 5, 1);
    mapname[p] := '\0';
    NameWritten(mapname[..], p, Truncate(AlnumFilter(device[i..]), len - 6));
    return true;
  }

  /** make_mapname exactly as written: the loop copies while len >= 1, so the
      terminator can land at index len. It stays inside the buffer only when
      the buffer has a place beyond len, or the name leaves one free. */
  method MakeMapnameAsWritten(device: CString, mapname: array<char>, len: nat) returns (ok: bool)
    requires len <= mapname.Length
    requires len < mapname.Length || |AlnumFilter(StripDevPrefix(device))| < len - 5
    modifies mapname
    ensures ok == (len >= 6)
    ensures !ok ==> mapname[..] == old(mapname[..])
    ensures ok ==> var r := MapNameAsWritten(device, len);
      mapname[..|r|] == r && mapname[|r|] == '\0'
      && forall k :: |r| < k < mapname.Length ==> mapname[k] == old(mapname[k])
  {
    if len < 6 {
      return false;
    }
    StrcpyCrypt(mapname);
    var i := if HasDevPrefix(device) then 5 else 0;
    assert device[i..] == StripDevPrefix(device);
    var p := CopyAlnum(device, i, mapname, 5, len - 5, 0);
    // in bounds only by the precondition: p == len once len - 5 characters are copied
    assert p < mapname.Length;
    mapname[p] := '\0';
    NameWritten(mapname[..], p, Truncate(AlnumFilter(device[i..]), len - 5));
    return true;
  }

  /** strcpy (mapname, "crypt"): the five characters and a terminator. */
  method StrcpyCrypt(mapname: array<char>)
    requires mapname.Length >= 6
    modifies mapname
    ensures mapname[..5] == "crypt" && mapname[5] == '\0'
    ensures forall k :: 6 <= k < mapname.Length ==> mapname[k] == old(mapname[k])
  {
    mapname[0], mapname[1], mapname[2], mapname[3], mapname[4], mapname[5] :=
      'c', 'r', 'y', 'p', 't', '\0';
  }

  /** The copy loop of make_mapname: from index i of the device on, each
      alphanumeric character is written at the write position p, which then
      advances while the space left, room, goes down; copying stops at the
      end of the device or once room is down to reserve. The characters
      written are the filtered rest of the device, cut to room - reserve;
      nothing before the start position or after the last write changes. */
  method CopyAlnum(device: CString, i: nat, mapname: array<char>, p: nat, room: nat, reserve: nat)
    returns (q: nat)
    requires i <= |device| && p + room <= mapname.Length && reserve <= room
    modifies mapname
    ensures q == p + |Truncate(AlnumFilter(device[i..]), room - reserve)|
    ensures mapname[p..q] == Truncate(AlnumFilter(device[i..]), room - reserve)
    ensures forall k :: 0 <= k < mapname.Length && !(p <= k < q) ==> mapname[k] == old(mapname[k])
  {
    var j, left := i, room;
    q := p;
    ghost var copied: string := [];
    while j < |device| && left > reserve
      invariant i <= j <= |device|
      invariant q + left == p + room && left >= reserve && q == p + |copied|
      invariant copied == AlnumFilter(device[i..j])
      invariant mapname[p..q] == copied
      invariant forall k :: 0 <= k < mapname.Length && !(p <= k < q) ==> mapname[k] == old(mapname[k])
    {
      CopyStep(device, i, j, copied);
      if IsAlnum(device[j]) {
        mapname[q] := device[j];
        copied := copied + [device[j]];
        q := q + 1;
        left := left - 1;
      }
      j := j + 1;
    }
    CopyDone(device, i, j, room - reserve);
  }

  /** One turn of make_mapname's copy loop extends the copied characters by
      the scanned one exactly when it is alphanumeric. */
  lemma CopyStep(device: string, start: nat, i: nat, copied: string)
    requires start <= i < |device| && copied == AlnumFilter(device[start..i])
    ensures AlnumFilter(device[start..i + 1]) == copied + (if IsAlnum(device[i]) then [device[i]] else [])
  {
    assert device[start..i + 1] == device[start..i] + [device[i]];
    AlnumFilterAppend(device[start..i], [device[i]]);
  }

  /** When make_mapname's copy loop stops, at the end of the device or with
      cap characters copied, it has copied the filtered rest of the device
      cut to cap. */
  lemma CopyDone(device: string, start: nat, i: nat, cap: nat)
    requires start <= i <= |device| && |AlnumFilter(device[start..i])| <= cap
    requires i == |device| || |AlnumFilter(device[start..i])| == cap
    ensures AlnumFilter(device[start..i]) == Truncate(AlnumFilter(device[start..]), cap)
  {
    assert device[start..] == device[start..i] + device[i..];
    AlnumFilterAppend(device[start..i], device[i..]);
  }

  /** A buffer holding "crypt", the copied characters and a terminator holds
      that name as a C string. */
  lemma NameWritten(buf: seq<char>, p: nat, copied: string)
    requires 5 <= p < |buf| && buf[p] == '\0' && buf[..5] == "crypt" && buf[5..p] == copied
    requires forall k :: 0 <= k < |copied| ==> IsAlnum(copied[k])
    ensures buf[..p] == "crypt" + copied
    ensures CStr(buf) == "crypt" + copied
  {
    assert buf[..p] == buf[..5] + buf[5..p];
    AlnumNoNul(copied);
    CStrOfTerminated(buf, p);
  }

  /** snprintf (buf, size, "luks-%s", uuid): writes the name cut to the
      buffer, NUL-terminated, and returns the length of the full name. */
  method FormatLuksName(uuid: CString, buf: array<char>) returns (n: int)
    requires buf.Length >= 1
    modifies buf
    ensures n == 5 + |uuid|
    ensures CStr(buf[..]) == LuksName(uuid, buf.Length)
    ensures forall k :: |LuksName(uuid, buf.Length)| < k < buf.Length ==> buf[k] == old(buf[k])
  {
    var r := LuksName(uuid, buf.Length);
    forall k | 0 <= k < |r| {
      buf[k] := r[k];
    }
    buf[|r|] := '\0';
    assert forall k :: 0 <= k < |r| ==> buf[..][k] == r[k];
    CStrOfTerminated(buf[..], |r|);
    assert buf[..][..|r|] == r;
    n := 5 + |uuid|;
  }
}
