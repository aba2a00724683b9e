/** C strings as the decryption pass handles them: the contents of a
    NUL-terminated string, and the string that a char buffer holds. */
module CStrings {

  /** The characters of a C string before its terminator: never a NUL. */
  type CString = s: seq<char> | '\0' !in s

  /** The string held by a NUL-terminated char buffer: the characters before
      the first NUL, or the whole buffer when it holds none. */
  function CStr(buf: seq<char>): (r: CString)
    ensures |r| <= |buf|
    ensures r == buf[..|r|]
    ensures |r| < |buf| ==> buf[|r|] == '\0'
  {
    if buf == [] || buf[0] == '\0' then [] else [buf[0]] + CStr(buf[1..])
  }

  /** A buffer whose first n characters are free of NUL and whose n-th one is
      the terminator holds exactly those n characters. */
  lemma {:induction false} CStrOfTerminated(buf: seq<char>, n: nat)
    requires n < |buf| && buf[n] == '\0'
    requires '\0' !in buf[..n]
    ensures CStr(buf) == buf[..n]
  {
    if n > 0 {
      assert buf[1..][..n - 1] == buf[..n][1..];
      CStrOfTerminated(buf[1..], n - 1);
      assert buf[..n] == [buf[0]] + buf[1..][..n - 1];
    }
  }
}
