/** Bytes and NUL-terminated strings, the C representation the tokenizer works on. */
module Bytes {

  /** An unsigned 8-bit C `char`. */
  newtype byte = x: int | 0 <= x < 256

  const NUL: byte := 0
  const NEWLINE: byte := 10

  datatype Option<T> = None | Some(value: T) {
    function GetOr(default: T): T {
      match this
      case Some(v) => v
      case None => default
    }
  }

  /** No byte of `s` is the terminating NUL. */
  predicate NulFree(s: seq<byte>) {
    forall i :: 0 <= i < |s| ==> s[i] != NUL
  }

  /** The text of a C string: the contents of a character pointer, which cannot hold a NUL. */
  type CText = s: seq<byte> | NulFree(s)

  /** The C string stored at the start of `s`: every byte before the first NUL
      (all of `s` when it holds none), as `strlen` and `%s` see it. */
  function CStr(s: seq<byte>): (r: seq<byte>)
    ensures r <= s && NulFree(r)
    ensures |r| < |s| ==> s[|r|] == NUL
    ensures NulFree(s) ==> r == s
    ensures NUL in s ==> |r| < |s|
  {
    if s == [] || s[0] == NUL then [] else [s[0]] + CStr(s[1..])
  }

  /** Scanning `s` up to its first NUL, or up to its end, stops at the end
      of its C string. */
  lemma {:induction false} CStrUpTo(s: seq<byte>, k: nat)
    requires k <= |s| && NulFree(s[..k]) && (k == |s| || s[k] == NUL)
    ensures CStr(s) == s[..k]
  {
    if k > 0 {
      assert s[0] != NUL by { assert s[..k][0] == s[0]; }
      assert s[1..][..k - 1] == s[..k][1..];
      CStrUpTo(s[1..], k - 1);
      assert s[..k] == [s[0]] + s[1..][..k - 1];
    }
  }
}
