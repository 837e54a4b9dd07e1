/** What the arrays filled by `stropt`/`stroptx` hold, read as C strings:
    the tag and argument lists a scan produces, in the form `stropt2buf`
    takes them back. */
module Views {
  import opened Bytes
  import opened Tables
  import opened ScanSpec
  import opened Serialize
  import opened Engine

  /** The string a `tags` entry denotes in memory `mem`: NULL ends the list,
      an offset into the buffer is the C string there, and the ENDLINE
      entry is the literal "\n". */
  function TagOf(mem: seq<byte>, r: Ref): (t: Tag)
    requires r.At? ==> r.offset <= |mem|
    ensures t == EndOfTags <==> r == Null
    ensures t != Deleted
  {
    match r
    case Null => EndOfTags
    case At(o) => TagText(CStr(mem[o..]))
    case NewlineTag => TagText([NEWLINE])
  }

  /** The string an `args` entry denotes: NULL is no argument. */
  function ArgOf(mem: seq<byte>, r: Ref): (a: Arg)
    requires r.At? ==> r.offset <= |mem|
    ensures a == None <==> r == Null
  {
    match r
    case Null => None
    case At(o) => var v: CText := CStr(mem[o..]); Some(v)
    case NewlineTag => var v: CText := [NEWLINE]; Some(v)
  }

  /** A finished machine: slots 0 to count-1 are all written, the last one
      with the (NULL, NULL) sentinel and the others with a tag, and every
      offset starts a C string of the written text. */
  ghost predicate Closed(m: Machine) {
    && m.count == m.slot + 1
    && (forall k :: 0 <= k < m.count ==> k in m.tw && k in m.aw)
    && (forall k :: 0 <= k < m.slot ==> m.tw[k] != Null)
    && m.tw[m.slot] == Null && m.aw[m.slot] == Null
    && OffsetsWithin(m) && Terminated(m)
  }

  /** Every scan closes its machine. */
  lemma ScanClosed(cfg: Config, s: seq<byte>)
    requires NUL in s
    ensures Closed(Scan(cfg, s))
  {
    var m := Scan(cfg, s);
    ScanFinishes(cfg, s);
    SlotsFilledInvariant(cfg, Consumed(s));
    TerminatedInvariant(cfg, Consumed(s));
    assert Finished(m, |CStr(s)| + 1) && SlotsBelow(m);
    forall k | 0 <= k < m.count
      ensures k in m.tw && k in m.aw
    {
      if k < m.slot {
        assert k in m.tw && k in m.aw;
      }
    }
  }

  /** The strings the `tags` slots of a closed machine denote. */
  function TagsOf(m: Machine): (t: seq<Tag>)
    requires Closed(m)
    ensures |t| == m.count
    ensures EndOfTags in t && TagCount(t) == m.count - 1
    ensures Deleted !in t
  {
    var t := seq(m.count, k requires 0 <= k < m.count => TagOf(m.out, m.tw[k]));
    assert t[m.slot] == EndOfTags;
    t
  }

  /** The strings the `args` slots of a closed machine denote. */
  function ArgsOf(m: Machine): (a: seq<Arg>)
    requires Closed(m)
    ensures |a| == m.count && a[m.count - 1] == None
  {
    seq(m.count, k requires 0 <= k < m.count => ArgOf(m.out, m.aw[k]))
  }

  /** The `tags` array after the scan of s, slots 0 to count-1. */
  function ScanTags(cfg: Config, s: seq<byte>): (t: seq<Tag>)
    requires NUL in s
    ensures |t| == Count(cfg, s)
    ensures EndOfTags in t && TagCount(t) == Count(cfg, s) - 1
    ensures Deleted !in t
  {
    ScanClosed(cfg, s);
    TagsOf(Scan(cfg, s))
  }

  /** The `args` array after the scan of s, slots 0 to count-1. */
  function ScanArgs(cfg: Config, s: seq<byte>): (a: seq<Arg>)
    requires NUL in s
    ensures |a| == Count(cfg, s)
    ensures a[Count(cfg, s) - 1] == None
  {
    ScanClosed(cfg, s);
    ArgsOf(Scan(cfg, s))
  }

  /** The tag/argument pairs before the sentinel: what the caller reads. */
  function Options(cfg: Config, s: seq<byte>): (opts: seq<(CText, Arg)>)
    requires NUL in s
    ensures |opts| == Count(cfg, s) - 1
  {
    var t := ScanTags(cfg, s);
    var a := ScanArgs(cfg, s);
    seq(|t| - 1, k requires 0 <= k < |t| - 1 => (t[k].text, a[k]))
  }

  /** A C string that ends inside x reads the same in any y that extends x. */
  lemma CStrExtended(x: seq<byte>, y: seq<byte>, o: nat)
    requires x <= y && NulFrom(x, o)
    ensures CStr(y[o..]) == CStr(x[o..])
  {
    var k := |CStr(x[o..])|;
    assert y[o..][..k] == x[o..][..k];
    assert y[o..][k] == x[o..][k];
    CStrUpTo(y[o..], k);
  }

  lemma RefReads(w: map<nat, Ref>, out: seq<byte>, mem: seq<byte>, k: nat)
    requires RefsTerminated(w, out) && out <= mem && k in w
    ensures w[k].At? ==> w[k].offset <= |out| <= |mem|
    ensures w[k].At? ==> CStr(mem[w[k].offset..]) == CStr(out[w[k].offset..])
  {
    if w[k].At? {
      CStrExtended(out, mem, w[k].offset);
    }
  }

  /** After the fill call, slot k of `tags`, read in `buf`, is slot k of
      ScanTags, and likewise for `args`, for every slot up to the sentinel. */
  lemma FilledArrays(cfg: Config, s: seq<byte>, buf: array<byte>, tags: array<Ref>, args: array<Ref>,
                     buf0: seq<byte>, tags0: seq<Ref>, args0: seq<Ref>)
    requires NUL in s
    requires Holds(Scan(cfg, s), buf, tags, args, buf0, tags0, args0)
    requires tags.Length >= Count(cfg, s) && args.Length >= Count(cfg, s)
    ensures forall k :: 0 <= k < Count(cfg, s) ==>
              && (tags[k].At? ==> tags[k].offset <= buf.Length)
              && (args[k].At? ==> args[k].offset <= buf.Length)
              && TagOf(buf[..], tags[k]) == ScanTags(cfg, s)[k]
              && ArgOf(buf[..], args[k]) == ScanArgs(cfg, s)[k]
  {
    var m := Scan(cfg, s);
    ScanClosed(cfg, s);
    assert m.out <= buf[..] by {
      assert buf[..][..|m.out|] == buf[..|m.out|];
    }
    forall k | 0 <= k < m.count
      ensures && (tags[k].At? ==> tags[k].offset <= buf.Length)
              && (args[k].At? ==> args[k].offset <= buf.Length)
              && TagOf(buf[..], tags[k]) == ScanTags(cfg, s)[k]
              && ArgOf(buf[..], args[k]) == ScanArgs(cfg, s)[k]
    {
      assert tags[k] == m.tw[k] && args[k] == m.aw[k];
      RefReads(m.tw, m.out, buf[..], k);
      RefReads(m.aw, m.out, buf[..], k);
    }
  }
}
