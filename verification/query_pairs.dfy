/**
 * How `Query<T>` turns the serialised query string into the pairs it hands to
 * the low-level builder: split on '&', split every segment at its first '=',
 * and drop the segments that have no '='.
 */
module QueryPairs {
  import opened Shapes

  type Pair = (string, string)

  /** Position of the first occurrence of `c` in `s`. */
  function FirstIndex(s: string, c: char): (i: nat)
    requires c in s
    ensures i < |s| && s[i] == c && c !in s[..i]
  {
    if s[0] == c then 0
    else
      assert s == [s[0]] + s[1..];
      var j := FirstIndex(s[1..], c);
      assert s[..j + 1] == [s[0]] + s[1..][..j];
      j + 1
  }

  /** The first occurrence is the only index before which `c` does not occur. */
  lemma FirstIndexUnique(s: string, c: char, i: nat)
    requires i < |s| && s[i] == c && c !in s[..i]
    ensures FirstIndex(s, c) == i
  {
  }

  /** One more leading character: a separator opens a new empty piece, anything else joins the first. */
  function Prepend(c: char, rest: seq<string>, sep: char): (parts: seq<string>)
    requires |rest| >= 1
    ensures |parts| >= 1
  {
    if c == sep then [""] + rest else [[c] + rest[0]] + rest[1..]
  }

  /** `s.split(sep)`: the pieces between separators, in order; always at least one. */
  function Split(s: string, sep: char): (parts: seq<string>)
    ensures |parts| >= 1
    decreases |s|
  {
    if s == [] then [""] else Prepend(s[0], Split(s[1..], sep), sep)
  }

  /** The pieces glued back together with `sep` between neighbours. */
  function Join(parts: seq<string>, sep: char): string
    requires |parts| >= 1
    decreases |parts|
  {
    if |parts| == 1 then parts[0] else parts[0] + [sep] + Join(parts[1..], sep)
  }

  /** No piece contains the separator, and gluing the pieces back gives the input. */
  lemma {:induction false} SplitPieces(s: string, sep: char)
    ensures forall k :: 0 <= k < |Split(s, sep)| ==> sep !in Split(s, sep)[k]
    ensures Join(Split(s, sep), sep) == s
    decreases |s|
  {
    if s != [] {
      var rest := Split(s[1..], sep);
      SplitPieces(s[1..], sep);
      if s[0] == sep {
        assert ([""] + rest)[1..] == rest;
      } else {
        var parts := [[s[0]] + rest[0]] + rest[1..];
        assert parts[1..] == rest[1..];
        assert sep !in parts[0];
        if |rest| > 1 {
          assert Join(rest, sep) == rest[0] + [sep] + Join(rest[1..], sep);
        }
        assert Join(parts, sep) == [s[0]] + Join(rest, sep);
        assert s == [s[0]] + s[1..];
      }
    }
  }

  /** A separator-free string is a single piece. */
  lemma {:induction false} SplitFree(s: string, sep: char)
    requires sep !in s
    ensures Split(s, sep) == [s]
    decreases |s|
  {
    if s != [] {
      SplitFree(s[1..], sep);
      assert [s[0]] + s[1..] == s;
    }
  }

  /** How `split` treats the first character. */
  lemma SplitCons(c: char, t: string, sep: char)
    ensures Split([c] + t, sep) == Prepend(c, Split(t, sep), sep)
  {
    assert ([c] + t)[1..] == t;
  }

  /** Prepending a character to a split that ends in `y` leaves `y` in place. */
  lemma PrependAppend(c: char, x: seq<string>, y: seq<string>, sep: char)
    requires |x| >= 1
    ensures Prepend(c, x + y, sep) == Prepend(c, x, sep) + y
  {
    if c != sep {
      assert (x + y)[0] == x[0] && (x + y)[1..] == x[1..] + y;
    }
  }

  /** Splitting around one separator splits each side independently, in order. */
  lemma {:induction false} SplitAround(a: string, b: string, sep: char)
    ensures Split(a + [sep] + b, sep) == Split(a, sep) + Split(b, sep)
    decreases |a|
  {
    if a == [] {
      SplitCons(sep, b, sep);
      assert a + [sep] + b == [sep] + b;
    } else {
      var c, t := a[0], a[1..];
      SplitAround(t, b, sep);
      assert a == [c] + t;
      assert a + [sep] + b == [c] + (t + [sep] + b);
      SplitCons(c, t + [sep] + b, sep);
      SplitCons(c, t, sep);
      PrependAppend(c, Split(t, sep), Split(b, sep), sep);
    }
  }

  /** Splitting undoes joining whenever no piece contains the separator. */
  lemma {:induction false} SplitJoin(parts: seq<string>, sep: char)
    requires |parts| >= 1
    requires forall k :: 0 <= k < |parts| ==> sep !in parts[k]
    ensures Split(Join(parts, sep), sep) == parts
    decreases |parts|
  {
    SplitFree(parts[0], sep);
    if |parts| > 1 {
      SplitAround(parts[0], Join(parts[1..], sep), sep);
      SplitJoin(parts[1..], sep);
      assert parts == [parts[0]] + parts[1..];
    }
  }

  /** `seg.split_once(delim)`: the text before and after the first `delim`. */
  function SplitOnce(seg: string, delim: char): (r: Option<Pair>)
    ensures r.None? <==> delim !in seg
    ensures r.Some? ==> delim !in r.value.0 && r.value.0 + [delim] + r.value.1 == seg
  {
    if delim in seg then
      var i := FirstIndex(seg, delim);
      assert seg == seg[..i] + [delim] + seg[i + 1..];
      Some((seg[..i], seg[i + 1..]))
    else None
  }

  /** `filter_map(|pair| pair.split_once('='))` over the segments. */
  function KeepSplit(segs: seq<string>): (ps: seq<Pair>)
    ensures |ps| <= |segs|
    ensures forall k :: 0 <= k < |ps| ==> '=' !in ps[k].0
  {
    if segs == [] then []
    else
      match SplitOnce(segs[0], '=')
      case Some(p) => [p] + KeepSplit(segs[1..])
      case None => KeepSplit(segs[1..])
  }

  /** filter_map preserves order: it works segment by segment. */
  lemma {:induction false} KeepSplitAppend(xs: seq<string>, ys: seq<string>)
    ensures KeepSplit(xs + ys) == KeepSplit(xs) + KeepSplit(ys)
    decreases |xs|
  {
    if xs == [] {
      assert xs + ys == ys;
    } else {
      assert (xs + ys)[0] == xs[0];
      assert (xs + ys)[1..] == xs[1..] + ys;
      KeepSplitAppend(xs[1..], ys);
    }
  }

  /** A character absent from every segment is absent from every kept key and value. */
  lemma {:induction false} KeepSplitAvoids(segs: seq<string>, c: char)
    requires forall j :: 0 <= j < |segs| ==> c !in segs[j]
    ensures forall k :: 0 <= k < |KeepSplit(segs)| ==> c !in KeepSplit(segs)[k].0 && c !in KeepSplit(segs)[k].1
    decreases |segs|
  {
    if segs != [] {
      KeepSplitAvoids(segs[1..], c);
      match SplitOnce(segs[0], '=')
      case Some(p) =>
        assert p.0 + ['='] + p.1 == segs[0];
      case None =>
    }
  }

  /** The pairs `Query::apply` appends for the serialised query string `serialized`. */
  function Pairs(serialized: string): (ps: seq<Pair>)
    ensures serialized == [] ==> ps == []
    ensures forall k :: 0 <= k < |ps| ==> '=' !in ps[k].0 && '&' !in ps[k].0 && '&' !in ps[k].1
  {
    var segs := Split(serialized, '&');
    SplitPieces(serialized, '&');
    KeepSplitAvoids(segs, '&');
    KeepSplit(segs)
  }

  /** The pairs of `a&b` are the pairs of `a` followed by the pairs of `b`. */
  lemma PairsAround(a: string, b: string)
    ensures Pairs(a + "&" + b) == Pairs(a) + Pairs(b)
  {
    SplitAround(a, b, '&');
    KeepSplitAppend(Split(a, '&'), Split(b, '&'));
  }

  /** A single segment yields its split at the first '=', or nothing when it has no '='. */
  lemma PairsOfSegment(seg: string)
    requires '&' !in seg
    ensures '=' !in seg ==> Pairs(seg) == []
    ensures '=' in seg ==> |Pairs(seg)| == 1 && Pairs(seg)[0] == SplitOnce(seg, '=').value
  {
    SplitFree(seg, '&');
    assert [seg][1..] == [];
  }

  /** The `k=v` text of one pair. */
  function Segment(p: Pair): string { p.0 + "=" + p.1 }

  function Segments(ps: seq<Pair>): (segs: seq<string>)
    ensures |segs| == |ps|
    ensures forall k :: 0 <= k < |ps| ==> segs[k] == Segment(ps[k])
  {
    if ps == [] then [] else [Segment(ps[0])] + Segments(ps[1..])
  }

  /** The flat `k1=v1&...&kn=vn` form of a list of pairs; empty for no pairs. */
  function Serialize(ps: seq<Pair>): string {
    if ps == [] then "" else Join(Segments(ps), '&')
  }

  /** Pairs that survive the split unchanged: keys without '=' or '&', values without '&'. */
  predicate Splittable(ps: seq<Pair>) {
    forall k :: 0 <= k < |ps| ==> '=' !in ps[k].0 && '&' !in ps[k].0 && '&' !in ps[k].1
  }

  /** filter_map recovers every pair from its `k=v` segment. */
  lemma {:induction false} KeepSplitSegments(ps: seq<Pair>)
    requires forall k :: 0 <= k < |ps| ==> '=' !in ps[k].0
    ensures KeepSplit(Segments(ps)) == ps
    decreases |ps|
  {
    if ps != [] {
      var segs := Segments(ps);
      var seg := Segment(ps[0]);
      assert segs[0] == seg;
      assert seg[..|ps[0].0|] == ps[0].0;
      FirstIndexUnique(seg, '=', |ps[0].0|);
      assert seg[|ps[0].0| + 1..] == ps[0].1;
      assert SplitOnce(seg, '=') == Some(ps[0]);
      assert segs[1..] == Segments(ps[1..]);
      KeepSplitSegments(ps[1..]);
      assert ps == [ps[0]] + ps[1..];
    }
  }

  /** Round trip: splitting `k1=v1&...&kn=vn` gives back exactly the pairs. */
  lemma PairsSerialize(ps: seq<Pair>)
    requires Splittable(ps)
    ensures Pairs(Serialize(ps)) == ps
  {
    if ps == [] {
      assert Split("", '&') == [""];
      assert [""][1..] == [];
    } else {
      var segs := Segments(ps);
      forall k | 0 <= k < |segs| ensures '&' !in segs[k] {
        assert segs[k] == ps[k].0 + "=" + ps[k].1;
      }
      SplitJoin(segs, '&');
      KeepSplitSegments(ps);
    }
  }
}
