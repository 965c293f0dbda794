/**
  The path logic of the `FolderPath` breadcrumb bar in
  `packages/react-mui-store-file-viewer`: the folder is split on `/`, empty
  pieces are dropped, and breadcrumb `idx` opens the path made of the first
  `idx + 1` segments. A home control opens `/`.
 */
module FolderPath {
  import opened Options

  const Slash := '/'

  /** The folder the home control opens. */
  const Home := "/"

  /** `s.split(sep)` for a one-character separator: the pieces between separators, empty ones included. */
  function Split(s: string, sep: char): (parts: seq<string>)
    ensures |parts| >= 1
    ensures forall i :: 0 <= i < |parts| ==> sep !in parts[i]
    decreases |s|
  {
    if s == [] then [""]
    else
      var rest := Split(s[1..], sep);
      if s[0] == sep then [""] + rest else [[s[0]] + rest[0]] + rest[1..]
  }

  /** `parts.join(sep)` */
  function Join(parts: seq<string>, sep: char): string {
    if |parts| == 0 then ""
    else if |parts| == 1 then parts[0]
    else parts[0] + [sep] + Join(parts[1..], sep)
  }

  /** `parts.filter((f) => !!f)` */
  function NonEmpty(parts: seq<string>): (kept: seq<string>)
    ensures forall i :: 0 <= i < |kept| ==> kept[i] != "" && kept[i] in parts
    ensures forall i :: 0 <= i < |parts| && parts[i] != "" ==> parts[i] in kept
  {
    if parts == [] then []
    else (if parts[0] == "" then [] else [parts[0]]) + NonEmpty(parts[1..])
  }

  /** Segments that could come out of a split: none empty, none holding a slash. */
  predicate WellFormed(segments: seq<string>) {
    forall i :: 0 <= i < |segments| ==> segments[i] != "" && Slash !in segments[i]
  }

  /** `folder.split("/").filter((f) => !!f)` */
  function Segments(folder: string): (segments: seq<string>)
    ensures WellFormed(segments)
  {
    NonEmpty(Split(folder, Slash))
  }

  /** The folder breadcrumb `idx` opens: `"/" + folders.slice(0, idx + 1).join("/")`. */
  function Target(segments: seq<string>, idx: nat): string
    requires idx < |segments|
  {
    "/" + Join(segments[..idx + 1], Slash)
  }

  datatype Crumb = Crumb(name: string, target: string)

  /** The home control's target and the folder breadcrumbs, in order. */
  datatype Breadcrumbs = Breadcrumbs(home: string, crumbs: seq<Crumb>)

  /** What `FolderPath` shows for `folder`: nothing at all, or the home control and one breadcrumb per segment. */
  function View(defaultHidden: bool, folder: string): (v: Option<Breadcrumbs>)
    ensures v.None? <==> defaultHidden && Segments(folder) == []
    ensures v.Some? ==>
      && v.value.home == Home
      && |v.value.crumbs| == |Segments(folder)|
      && forall i :: 0 <= i < |v.value.crumbs| ==>
           v.value.crumbs[i] == Crumb(Segments(folder)[i], Target(Segments(folder), i))
  {
    var folders := Segments(folder);
    if defaultHidden && |folders| == 0 then None
    else Some(Breadcrumbs(Home, seq(|folders|, i requires 0 <= i < |folders| => Crumb(folders[i], Target(folders, i)))))
  }

  // ----- split and join -----

  /** Joining the pieces of a split gives back the string. */
  lemma {:induction false} JoinSplit(s: string, sep: char)
    ensures Join(Split(s, sep), sep) == s
    decreases |s|
  {
    if s != [] {
      var rest := Split(s[1..], sep);
      JoinSplit(s[1..], sep);
      if s[0] == sep {
        assert ([""] + rest)[1..] == rest;
      } else if |rest| > 1 {
        var parts := [[s[0]] + rest[0]] + rest[1..];
        assert parts[1..] == rest[1..];
        assert s == [s[0]] + s[1..];
      } else {
        assert s == [s[0]] + s[1..];
      }
    }
  }

  lemma {:induction false} SplitWithoutSeparator(p: string, sep: char)
    requires sep !in p
    ensures Split(p, sep) == [p]
    decreases |p|
  {
    if p != [] {
      SplitWithoutSeparator(p[1..], sep);
      assert [p[0]] + p[1..] == p;
    }
  }

  /** One step of `Split`: a leading separator ends an empty first piece. */
  lemma SplitConsSeparator(x: string, sep: char)
    ensures Split([sep] + x, sep) == [""] + Split(x, sep)
  {
    assert ([sep] + x)[0] == sep && ([sep] + x)[1..] == x;
  }

  /** One step of `Split`: any other leading character joins the first piece. */
  lemma SplitConsOther(c: char, x: string, sep: char)
    requires c != sep
    ensures Split([c] + x, sep) == [[c] + Split(x, sep)[0]] + Split(x, sep)[1..]
  {
    assert ([c] + x)[0] == c && ([c] + x)[1..] == x;
  }

  lemma AppendAssoc<T>(a: seq<T>, b: seq<T>, c: seq<T>)
    ensures a + (b + c) == (a + b) + c
  {
  }

  lemma AppendHeadTail<T>(r: seq<T>, t: seq<T>)
    requires |r| >= 1
    ensures (r + t)[0] == r[0] && (r + t)[1..] == r[1..] + t
  {
    assert (r + t)[1..] == r[1..] + t;
  }

  /** The inductive step of `SplitSplice`: putting one character in front keeps the splice. */
  lemma SpliceStep(c: char, x: string, t: string, sep: char)
    requires Split(x + [sep] + t, sep) == Split(x, sep) + Split(t, sep)
    ensures Split([c] + (x + [sep] + t), sep) == Split([c] + x, sep) + Split(t, sep)
  {
    var rest, tail := Split(x, sep), Split(t, sep);
    if c == sep {
      SplitConsSeparator(x + [sep] + t, sep);
      SplitConsSeparator(x, sep);
      AppendAssoc([""], rest, tail);
    } else {
      SplitConsOther(c, x + [sep] + t, sep);
      SplitConsOther(c, x, sep);
      AppendHeadTail(rest, tail);
      AppendAssoc([[c] + rest[0]], rest[1..], tail);
    }
  }

  /** A separator between two strings separates their pieces: splitting distributes over it. */
  lemma {:induction false} SplitSplice(a: string, t: string, sep: char)
    ensures Split(a + [sep] + t, sep) == Split(a, sep) + Split(t, sep)
    decreases |a|
  {
    if a == [] {
      assert a + [sep] + t == [sep] + t;
      SplitConsSeparator(t, sep);
    } else {
      var x := a[1..];
      SplitSplice(x, t, sep);
      SpliceStep(a[0], x, t, sep);
      assert a == [a[0]] + x;
      assert a + [sep] + t == [a[0]] + (x + [sep] + t);
    }
  }

  /** Splitting the join of separator-free pieces gives back the pieces. */
  lemma {:induction false} SplitJoin(parts: seq<string>, sep: char)
    requires |parts| >= 1
    requires forall i :: 0 <= i < |parts| ==> sep !in parts[i]
    ensures Split(Join(parts, sep), sep) == parts
    decreases |parts|
  {
    if |parts| == 1 {
      SplitWithoutSeparator(parts[0], sep);
    } else {
      SplitSplice(parts[0], Join(parts[1..], sep), sep);
      SplitWithoutSeparator(parts[0], sep);
      SplitJoin(parts[1..], sep);
      assert [parts[0]] + parts[1..] == parts;
    }
  }

  lemma {:induction false} JoinSnoc(parts: seq<string>, x: string, sep: char)
    requires |parts| >= 1
    ensures Join(parts + [x], sep) == Join(parts, sep) + [sep] + x
    decreases |parts|
  {
    if |parts| > 1 {
      assert (parts + [x])[1..] == parts[1..] + [x];
      JoinSnoc(parts[1..], x, sep);
    }
  }

  lemma {:induction false} NonEmptyKeepsWellFormed(segments: seq<string>)
    requires WellFormed(segments)
    ensures NonEmpty(segments) == segments
  {
    if segments != [] {
      NonEmptyKeepsWellFormed(segments[1..]);
      assert [segments[0]] + segments[1..] == segments;
    }
  }

  /** The filter keeps the non-empty pieces of each half, in order: it distributes over concatenation. */
  lemma {:induction false} NonEmptyAppend(a: seq<string>, b: seq<string>)
    ensures NonEmpty(a + b) == NonEmpty(a) + NonEmpty(b)
  {
    if a == [] {
      assert a + b == b;
    } else {
      assert (a + b)[0] == a[0] && (a + b)[1..] == a[1..] + b;
      NonEmptyAppend(a[1..], b);
    }
  }

  /** A slash-free folder name is one segment, or none when it is empty. */
  lemma SegmentsOfName(name: string)
    requires Slash !in name
    ensures Segments(name) == if name == "" then [] else [name]
  {
    SplitWithoutSeparator(name, Slash);
    assert [name][1..] == [];
    assert NonEmpty([name]) == (if name == "" then [] else [name]) + NonEmpty([]);
  }

  /**
    A slash cuts the folder there and nowhere else: the segments of `a/b` are
    those of `a` followed by those of `b`. With `SegmentsOfName` this fixes the
    segments of every folder.
   */
  lemma SegmentsSplice(a: string, b: string)
    ensures Segments(a + "/" + b) == Segments(a) + Segments(b)
  {
    SplitSplice(a, b, Slash);
    NonEmptyAppend(Split(a, Slash), Split(b, Slash));
  }

  // ----- the breadcrumbs -----

  /** The home control's target `/` holds no segment: it is the root. */
  lemma HomeIsRoot()
    ensures Segments(Home) == []
  {
    assert Home[0] == Slash && Home[1..] == "";
    assert Split(Home[1..], Slash) == [""];
    assert Split(Home, Slash) == ["", ""];
    assert NonEmpty(["", ""]) == [] + NonEmpty([""]);
  }

  /**
    Breadcrumb `idx` opens a path whose only empty piece is the leading root
    and whose segments are exactly the first `idx + 1` segments.
   */
  lemma {:induction false} TargetSegments(segments: seq<string>, idx: nat)
    requires WellFormed(segments) && idx < |segments|
    ensures Split(Target(segments, idx), Slash) == [""] + segments[..idx + 1]
    ensures Segments(Target(segments, idx)) == segments[..idx + 1]
  {
    var prefix := segments[..idx + 1];
    assert ([""] + prefix)[1..] == prefix;
    assert Target(segments, idx) == Join([""] + prefix, Slash);
    SplitJoin([""] + prefix, Slash);
    assert NonEmpty([""] + prefix) == NonEmpty(prefix);
    NonEmptyKeepsWellFormed(prefix);
  }

  /** Each breadcrumb's target extends the one before it by one slash and one segment: the targets are strictly growing prefixes. */
  lemma {:induction false} TargetsGrow(segments: seq<string>, idx: nat)
    requires idx + 1 < |segments|
    ensures Target(segments, idx + 1) == Target(segments, idx) + "/" + segments[idx + 1]
    ensures |Target(segments, idx)| < |Target(segments, idx + 1)|
    ensures Target(segments, idx + 1)[..|Target(segments, idx)|] == Target(segments, idx)
  {
    assert segments[..idx + 2] == segments[..idx + 1] + [segments[idx + 1]];
    JoinSnoc(segments[..idx + 1], segments[idx + 1], Slash);
  }

  /** The last breadcrumb opens the folder itself, normalised: splitting it again gives the same segments. */
  lemma LastTargetIsFolder(folder: string)
    requires Segments(folder) != []
    ensures var segments := Segments(folder);
      && Target(segments, |segments| - 1) == "/" + Join(segments, Slash)
      && Segments(Target(segments, |segments| - 1)) == segments
  {
    var segments := Segments(folder);
    assert segments[..|segments|] == segments;
    TargetSegments(segments, |segments| - 1);
  }

  /** Concatenation of the pieces. */
  function Concat(parts: seq<string>): string {
    if parts == [] then "" else parts[0] + Concat(parts[1..])
  }

  /** `s` with every `c` taken out. */
  function Without(s: string, c: char): string {
    if s == [] then "" else (if s[0] == c then "" else [s[0]]) + Without(s[1..], c)
  }

  lemma {:induction false} ConcatSplit(s: string, sep: char)
    ensures Concat(Split(s, sep)) == Without(s, sep)
    decreases |s|
  {
    if s != [] {
      var rest := Split(s[1..], sep);
      ConcatSplit(s[1..], sep);
      if s[0] == sep {
        assert ([""] + rest)[1..] == rest;
      } else {
        var parts := [[s[0]] + rest[0]] + rest[1..];
        assert parts[1..] == rest[1..];
      }
    }
  }

  lemma {:induction false} ConcatNonEmpty(parts: seq<string>)
    ensures Concat(NonEmpty(parts)) == Concat(parts)
  {
    if parts != [] {
      ConcatNonEmpty(parts[1..]);
      var head := if parts[0] == "" then [] else [parts[0]];
      ConcatAppend(head, NonEmpty(parts[1..]));
    }
  }

  lemma {:induction false} ConcatAppend(a: seq<string>, b: seq<string>)
    ensures Concat(a + b) == Concat(a) + Concat(b)
  {
    if a == [] {
      assert a + b == b;
    } else {
      assert (a + b)[0] == a[0] && (a + b)[1..] == a[1..] + b;
      ConcatAppend(a[1..], b);
    }
  }

  /** Dropping empty pieces loses no character: the segments hold every character of the folder except its slashes. */
  lemma SegmentsKeepEveryCharacter(folder: string)
    ensures Concat(Segments(folder)) == Without(folder, Slash)
  {
    ConcatNonEmpty(Split(folder, Slash));
    ConcatSplit(folder, Slash);
  }
}
