/** `stropt2buf` and `stropt2str`: rebuilding an option string from the
    `tags`/`args` arrays, skipping deleted tags. */
module Serialize {
  import opened Bytes

  /** What `stropt2buf` finds in a slot of `tags`: the NULL that ends the
      array, STROPTX_DELETED_TAG, or the text of a tag. */
  datatype Tag = EndOfTags | Deleted | TagText(text: CText)

  /** A slot of `args`: NULL, or the text of an argument. */
  type Arg = Option<CText>

  /** The index of the NULL that ends `tags`. */
  function TagCount(tags: seq<Tag>): (n: nat)
    requires EndOfTags in tags
    ensures n < |tags| && tags[n] == EndOfTags
    ensures forall k :: 0 <= k < n ==> tags[k] != EndOfTags
  {
    if tags[0] == EndOfTags then 0 else 1 + TagCount(tags[1..])
  }

  /** The separator as printed: nothing when it is NUL. */
  function SepBytes(sep: byte): seq<byte> {
    if sep == NUL then [] else [sep]
  }

  /** One kept slot as printed: the tag, then, when there is an argument,
      `eq` (unless NUL) and the argument. */
  function Field(t: CText, a: Arg, eq: byte): seq<byte> {
    match a
    case None => t
    case Some(v) => t + SepBytes(eq) + v
  }

  /** The printed fields of the slots that are not deleted, in order. */
  function Fields(tags: seq<Tag>, args: seq<Arg>, eq: byte): seq<seq<byte>>
    requires EndOfTags !in tags && |tags| <= |args|
  {
    if tags == [] then []
    else
      var n := |tags| - 1;
      var rest := Fields(tags[..n], args, eq);
      match tags[n]
      case Deleted => rest
      case TagText(t) => rest + [Field(t, args[n], eq)]
  }

  /** The fields joined with the separator. */
  function Join(fs: seq<seq<byte>>, sep: byte): seq<byte> {
    if |fs| == 0 then []
    else if |fs| == 1 then fs[0]
    else Join(fs[..|fs| - 1], sep) + SepBytes(sep) + fs[|fs| - 1]
  }

  /** The string `stropt2str(tags, args, sep, eq)` returns: the kept fields
      of the slots before the NULL tag, separated by `sep`, and one more
      newline at the end when `sep` is a newline and a slot was kept. */
  function Rebuilt(tags: seq<Tag>, args: seq<Arg>, sep: byte, eq: byte): seq<byte>
    requires EndOfTags in tags && TagCount(tags) <= |args|
  {
    var fs := Fields(tags[..TagCount(tags)], args, eq);
    Join(fs, sep) + (if sep == NEWLINE && fs != [] then [NEWLINE] else [])
  }

  /** Fields over one more slot. */
  lemma FieldsSnoc(tags: seq<Tag>, args: seq<Arg>, eq: byte, i: nat)
    requires i < |tags| && i < |args| && forall k :: 0 <= k <= i ==> tags[k] != EndOfTags
    ensures EndOfTags !in tags[..i + 1]
    ensures Fields(tags[..i + 1], args, eq) ==
      Fields(tags[..i], args, eq) + (if tags[i].TagText? then [Field(tags[i].text, args[i], eq)] else [])
  {
    assert tags[..i + 1][..i] == tags[..i];
  }

  /** Join over one more field. */
  lemma JoinSnoc(fs: seq<seq<byte>>, f: seq<byte>, sep: byte)
    ensures Join(fs + [f], sep) == if fs == [] then f else Join(fs, sep) + SepBytes(sep) + f
  {
    assert (fs + [f])[..|fs|] == fs;
  }

  /** The output of one kept slot: the pending separator (none when NUL),
      the tag, and `eq` and the argument when there is one. */
  method PrintSlot(out: seq<byte>, nextsep: byte, t: CText, a: Arg, eq: byte) returns (out': seq<byte>)
    ensures out' == out + SepBytes(nextsep) + Field(t, a, eq)
  {
    out' := out;
    if nextsep != NUL {
      out' := out' + [nextsep];
    }
    assert out' == out + SepBytes(nextsep);
    out' := out' + t;
    if a.Some? {
      if eq != NUL {
        out' := out' + [eq];
      }
      assert out' == out + SepBytes(nextsep) + t + SepBytes(eq);
      out' := out' + a.value;
    }
  }

  /** `stropt2buf` writing to a stream of its own (the `buf == NULL` case). */
  method Stropt2Buf(tags: array<Tag>, args: array<Arg>, sep: byte, eq: byte) returns (out: seq<byte>)
    requires EndOfTags in tags[..] && TagCount(tags[..]) <= args.Length
    ensures out == Rebuilt(tags[..], args[..], sep, eq)
  {
    ghost var n := TagCount(tags[..]);
    var nextsep: byte := NUL;
    out := [];
    var i := 0;
    while tags[i] != EndOfTags
      invariant 0 <= i <= n
      invariant out == Join(Fields(tags[..i], args[..], eq), sep)
      invariant nextsep == (if Fields(tags[..i], args[..], eq) == [] then NUL else sep)
      decreases n - i
    {
      ghost var fs := Fields(tags[..i], args[..], eq);
      ghost var out0 := out;
      assert i < n;
      FieldsSnoc(tags[..], args[..], eq, i);
      assert tags[..][..i + 1] == tags[..i + 1] && tags[..][..i] == tags[..i];
      if tags[i] != Deleted {
        JoinSnoc(fs, Field(tags[i].text, args[i], eq), sep);
        out := PrintSlot(out, nextsep, tags[i].text, args[i], eq);
        assert Fields(tags[..i + 1], args[..], eq) == fs + [Field(tags[i].text, args[i], eq)];
        nextsep := sep;
      } else {
        assert Fields(tags[..i + 1], args[..], eq) == fs;
      }
      i := i + 1;
    }
    assert tags[..i] == tags[..][..n];
    if nextsep == NEWLINE {
      out := out + [nextsep];
    }
  }

  /** `stropt2str`: `stropt2buf` with no caller buffer. */
  method Stropt2Str(tags: array<Tag>, args: array<Arg>, sep: byte, eq: byte) returns (out: seq<byte>)
    requires EndOfTags in tags[..] && TagCount(tags[..]) <= args.Length
    ensures out == Rebuilt(tags[..], args[..], sep, eq)
  {
    out := Stropt2Buf(tags, args, sep, eq);
  }

  // ---------------------------------------------------------------------
  // Deleted slots

  /** TagCount is the index of the first NULL. */
  lemma {:induction false} TagCountAt(tags: seq<Tag>, n: nat)
    requires n < |tags| && tags[n] == EndOfTags && forall k :: 0 <= k < n ==> tags[k] != EndOfTags
    ensures TagCount(tags) == n
    decreases n
  {
    if n > 0 {
      assert tags[0] != EndOfTags;
      TagCountAt(tags[1..], n - 1);
    }
  }

  /** Fields reads only the arguments of the slots it prints. */
  lemma {:induction false} FieldsFrame(tags: seq<Tag>, a1: seq<Arg>, a2: seq<Arg>, eq: byte)
    requires EndOfTags !in tags && |tags| <= |a1| && |tags| <= |a2|
    requires forall k :: 0 <= k < |tags| ==> a1[k] == a2[k]
    ensures Fields(tags, a1, eq) == Fields(tags, a2, eq)
    decreases |tags|
  {
    if tags != [] {
      FieldsFrame(tags[..|tags| - 1], a1, a2, eq);
    }
  }

  /** The arrays with slot k taken out. */
  function Without<T>(s: seq<T>, k: nat): (r: seq<T>)
    requires k < |s|
    ensures |r| == |s| - 1
    ensures forall i :: 0 <= i < k ==> r[i] == s[i]
    ensures forall i :: k <= i < |r| ==> r[i] == s[i + 1]
  {
    s[..k] + s[k + 1..]
  }

  lemma FieldsDeletedFirst(tags: seq<Tag>, args: seq<Arg>, eq: byte, k: nat)
    requires k < |tags| && k < |args| && forall j :: 0 <= j <= k ==> tags[j] != EndOfTags
    ensures EndOfTags !in tags[k := Deleted][..k + 1] && EndOfTags !in Without(tags, k)[..k]
    ensures Fields(tags[k := Deleted][..k + 1], args, eq) == Fields(Without(tags, k)[..k], Without(args, k), eq)
  {
    var deleted, t2, a2 := tags[k := Deleted], Without(tags, k), Without(args, k);
    assert deleted[..k + 1][..k] == tags[..k] == t2[..k];
    FieldsFrame(tags[..k], args, a2, eq);
  }

  /** Up to slot i, the fields with slot k deleted are the fields of the
      arrays without slot k. */
  lemma {:induction false} FieldsDeleted(tags: seq<Tag>, args: seq<Arg>, eq: byte, k: nat, i: nat)
    requires k < i <= |tags| && i <= |args| && forall j :: 0 <= j < i ==> tags[j] != EndOfTags
    ensures EndOfTags !in tags[k := Deleted][..i] && EndOfTags !in Without(tags, k)[..i - 1]
    ensures Fields(tags[k := Deleted][..i], args, eq) == Fields(Without(tags, k)[..i - 1], Without(args, k), eq)
    decreases i
  {
    var deleted, t2, a2 := tags[k := Deleted], Without(tags, k), Without(args, k);
    if i == k + 1 {
      FieldsDeletedFirst(tags, args, eq, k);
    } else {
      FieldsDeleted(tags, args, eq, k, i - 1);
      FieldsSnoc(deleted, args, eq, i - 1);
      FieldsSnoc(t2, a2, eq, i - 2);
      assert deleted[i - 1] == t2[i - 2] && args[i - 1] == a2[i - 2];
    }
  }

  lemma TagCountDeleted(tags: seq<Tag>, k: nat)
    requires EndOfTags in tags && k < TagCount(tags)
    ensures EndOfTags in tags[k := Deleted] && TagCount(tags[k := Deleted]) == TagCount(tags)
    ensures EndOfTags in Without(tags, k) && TagCount(Without(tags, k)) == TagCount(tags) - 1
  {
    var n := TagCount(tags);
    var deleted, t2 := tags[k := Deleted], Without(tags, k);
    assert deleted[n] == EndOfTags && t2[n - 1] == EndOfTags;
    TagCountAt(deleted, n);
    TagCountAt(t2, n - 1);
  }

  /** A deleted slot is skipped: `stropt2str` prints the same string as for
      the arrays without that slot. */
  lemma DeletedSkipped(tags: seq<Tag>, args: seq<Arg>, sep: byte, eq: byte, k: nat)
    requires EndOfTags in tags && TagCount(tags) <= |args| && k < TagCount(tags)
    ensures EndOfTags in tags[k := Deleted] && TagCount(tags[k := Deleted]) == TagCount(tags)
    ensures EndOfTags in Without(tags, k) && TagCount(Without(tags, k)) == TagCount(tags) - 1
    ensures Rebuilt(tags[k := Deleted], args, sep, eq) == Rebuilt(Without(tags, k), Without(args, k), sep, eq)
  {
    TagCountDeleted(tags, k);
    FieldsDeleted(tags, args, eq, k, TagCount(tags));
  }

  /** With every slot deleted `stropt2str` prints nothing, not even the
      final newline. */
  lemma {:induction false} AllDeleted(tags: seq<Tag>, args: seq<Arg>, eq: byte)
    requires EndOfTags !in tags && |tags| <= |args| && forall k :: 0 <= k < |tags| ==> tags[k] == Deleted
    ensures Fields(tags, args, eq) == []
    decreases |tags|
  {
    if tags != [] {
      AllDeleted(tags[..|tags| - 1], args, eq);
    }
  }

  lemma NothingKept(tags: seq<Tag>, args: seq<Arg>, sep: byte, eq: byte)
    requires EndOfTags in tags && TagCount(tags) <= |args|
    requires forall k :: 0 <= k < TagCount(tags) ==> tags[k] == Deleted
    ensures Rebuilt(tags, args, sep, eq) == []
  {
    AllDeleted(tags[..TagCount(tags)], args, eq);
  }
}
