/**
 * The query text `service.keyword`: the editor composes it by joining the two
 * names with a dot, and the backend takes it apart with `strings.Split` on
 * the dot, keeping the first segment as the service and the second as the
 * keyword. A text without a dot has no second segment and the backend panics.
 */
module QueryText {
  import opened Wrappers

  const Sep: char := '.'

  /** `strings.Split(s, ".")`: the maximal dot-free segments, one more than there are dots. */
  function Split(s: string): (parts: seq<string>)
    ensures |parts| >= 1
    ensures forall i :: 0 <= i < |parts| ==> Sep !in parts[i]
    ensures |parts| == 1 <==> Sep !in s
    decreases |s|
  {
    if |s| == 0 then [""]
    else
      var rest := Split(s[1..]);
      if s[0] == Sep then [""] + rest
      else [[s[0]] + rest[0]] + rest[1..]
  }

  /** `strings.Join(parts, ".")`, the inverse of Split. */
  function Join(parts: seq<string>): string
    requires |parts| >= 1
    decreases |parts|
  {
    if |parts| == 1 then parts[0] else parts[0] + [Sep] + Join(parts[1..])
  }

  /** The query text the editor builds from its service and keyword selections. */
  function Compose(service: string, keyword: string): (r: string)
    ensures |r| == |service| + 1 + |keyword|
    ensures r[..|service|] == service && r[|service|] == Sep && r[|service| + 1..] == keyword
    ensures Sep !in service && Sep !in keyword ==>
      forall i :: 0 <= i < |r| && r[i] == Sep ==> i == |service|
  {
    service + [Sep] + keyword
  }

  /** The service and keyword the backend reads from a query text; `None` where indexing `sk[1]` panics. */
  function Parse(text: string): (r: Option<(string, string)>)
    ensures r.None? <==> Sep !in text
    ensures r.Some? ==> Sep !in r.value.0 && Sep !in r.value.1
  {
    var parts := Split(text);
    if |parts| < 2 then None else Some((parts[0], parts[1]))
  }

  lemma {:induction false} SplitNoSep(a: string)
    requires Sep !in a
    ensures Split(a) == [a]
    decreases |a|
  {
    if |a| > 0 {
      SplitNoSep(a[1..]);
      assert [a[0]] + a[1..] == a;
    }
  }

  /** Splitting at the first dot. */
  lemma {:induction false} SplitAt(a: string, b: string)
    requires Sep !in a
    ensures Split(a + [Sep] + b) == [a] + Split(b)
    decreases |a|
  {
    var s := a + [Sep] + b;
    if |a| == 0 {
      assert s[1..] == b;
    } else {
      assert s[1..] == a[1..] + [Sep] + b;
      SplitAt(a[1..], b);
      assert [a[0]] + a[1..] == a;
    }
  }

  /** The index of the first dot of `s`. */
  function FirstSep(s: string): (i: nat)
    requires Sep in s
    ensures i < |s| && s[i] == Sep && Sep !in s[..i]
  {
    if s[0] == Sep then 0 else
      var j := FirstSep(s[1..]);
      assert s[..j + 1] == [s[0]] + s[1..][..j];
      j + 1
  }

  /** Joining the segments restores the text: Split loses nothing. */
  lemma {:induction false} JoinSplit(s: string)
    ensures Join(Split(s)) == s
    decreases |s|
  {
    if Sep in s {
      var i := FirstSep(s);
      var a, b := s[..i], s[i + 1..];
      assert s == a + [Sep] + b;
      SplitAt(a, b);
      JoinSplit(b);
      assert Split(s)[1..] == Split(b);
    } else {
      SplitNoSep(s);
    }
  }

  /** Splitting a join of dot-free segments gives back those segments. */
  lemma {:induction false} SplitJoin(parts: seq<string>)
    requires |parts| >= 1
    requires forall i :: 0 <= i < |parts| ==> Sep !in parts[i]
    ensures Split(Join(parts)) == parts
    decreases |parts|
  {
    if |parts| == 1 {
      SplitNoSep(parts[0]);
    } else {
      SplitJoin(parts[1..]);
      SplitAt(parts[0], Join(parts[1..]));
      assert [parts[0]] + parts[1..] == parts;
    }
  }

  /** The editor's composition round-trips through the backend's split when neither name holds a dot. */
  lemma ParseCompose(service: string, keyword: string)
    requires Sep !in service && Sep !in keyword
    ensures Parse(Compose(service, keyword)) == Some((service, keyword))
  {
    SplitJoin([service, keyword]);
    assert Join([service, keyword]) == Compose(service, keyword);
  }

  /**
   * What Parse extracts: the text begins with `service.keyword`, followed by
   * the end of the text or by a further dot whose remainder is ignored.
   */
  lemma ParsePrefix(text: string)
    requires Sep in text
    ensures Parse(text).Some?
    ensures var n := |Parse(text).value.0| + 1 + |Parse(text).value.1|;
      n <= |text| && text[..n] == Compose(Parse(text).value.0, Parse(text).value.1)
      && (n == |text| || text[n] == Sep)
  {
    var a := Split(text)[0];
    FirstSegment(text);
    var rest := text[|a| + 1..];
    assert text == a + [Sep] + rest;
    SplitAt(a, rest);
    var c := Split(rest)[0];
    FirstSegment(rest);
    assert Parse(text).value == (a, c);
    assert text[..|a| + 1 + |c|] == a + [Sep] + rest[..|c|];
  }

  /** The first segment is the text up to its first dot, or all of it. */
  lemma {:induction false} FirstSegment(s: string)
    ensures var n := |Split(s)[0]|; n <= |s| && s[..n] == Split(s)[0] && (n == |s| || s[n] == Sep)
    decreases |s|
  {
    if |s| > 0 && s[0] != Sep {
      FirstSegment(s[1..]);
    }
  }

  /** Only the first two segments matter: `a.b.c` names keyword `b` of service `a`. */
  lemma ParseIgnoresTail(service: string, keyword: string, tail: string)
    requires Sep !in service && Sep !in keyword
    ensures Parse(Compose(service, keyword) + [Sep] + tail) == Some((service, keyword))
  {
    SplitAt(service, keyword + [Sep] + tail);
    SplitAt(keyword, tail);
    assert Compose(service, keyword) + [Sep] + tail == service + [Sep] + (keyword + [Sep] + tail);
  }
}
