/** The lexical path and string helpers the gate relies on: `strings.HasPrefix`,
    `strings.ToLower` (ASCII only), `filepath.Ext` and `filepath.Clean` for
    slash-separated paths.

    `Clean` is modelled as a normaliser over the list of segments between
    separators: empty and `.` segments are dropped, a `..` removes the segment
    before it, a `..` at the start of a rooted path is dropped, and a `..` at
    the start of a relative path is kept. The result is rendered back to a
    string ("/" for the root, "." for an empty relative path). */
module Paths {

  /** `strings.HasPrefix(s, prefix)`: a plain textual prefix test. */
  predicate HasPrefix(s: string, prefix: string) {
    prefix <= s
  }

  /** `strings.Join(parts, "/")`. */
  function Join(parts: seq<string>): string
    decreases |parts|
  {
    if |parts| == 0 then ""
    else if |parts| == 1 then parts[0]
    else parts[0] + "/" + Join(parts[1..])
  }

  /** `strings.Split(s, "/")`: the pieces between separators, separator-free,
      and joining them back gives `s`. */
  function Split(s: string): (parts: seq<string>)
    ensures |parts| >= 1
    ensures forall i :: 0 <= i < |parts| ==> '/' !in parts[i]
    ensures Join(parts) == s
    decreases |s|
  {
    if |s| == 0 then [""]
    else
      var rest := Split(s[1..]);
      if s[0] == '/' then
        assert ([""] + rest)[1..] == rest;
        [""] + rest
      else
        var parts := [[s[0]] + rest[0]] + rest[1..];
        assert parts[1..] == rest[1..];
        assert Join(parts) == s by {
          if |rest| > 1 {
            assert Join(rest) == rest[0] + "/" + Join(rest[1..]);
          }
          assert s == [s[0]] + s[1..];
        }
        parts
  }

  /** Splitting a separator-free segment followed by "/" peels that segment off. */
  lemma {:induction false} SplitAfterSegment(a: string, b: string)
    requires '/' !in a
    ensures Split(a + "/" + b) == [a] + Split(b)
    decreases |a|
  {
    var s := a + "/" + b;
    if |a| == 0 {
      assert s == "/" + b;
      assert s[1..] == b;
    } else {
      assert s[0] == a[0];
      assert s[1..] == a[1..] + "/" + b;
      SplitAfterSegment(a[1..], b);
      assert [a[0]] + a[1..] == a;
    }
  }

  /** A separator-free string splits into itself. */
  lemma {:induction false} SplitSegment(a: string)
    requires '/' !in a
    ensures Split(a) == [a]
    decreases |a|
  {
    if |a| > 0 {
      SplitSegment(a[1..]);
      assert [a[0]] + a[1..] == a;
    }
  }

  /** Joining separator-free pieces and splitting again gives the pieces back:
      the other half of the round trip that `Split`'s contract states. */
  lemma {:induction false} SplitJoin(parts: seq<string>)
    requires |parts| >= 1
    requires forall i :: 0 <= i < |parts| ==> '/' !in parts[i]
    ensures Split(Join(parts)) == parts
    decreases |parts|
  {
    if |parts| == 1 {
      SplitSegment(parts[0]);
    } else {
      SplitJoin(parts[1..]);
      SplitAfterSegment(parts[0], Join(parts[1..]));
      assert [parts[0]] + parts[1..] == parts;
    }
  }

  /** A path in lexical normal form: rooted or not, and its segments. */
  datatype CleanPath = CleanPath(rooted: bool, segs: seq<string>)

  /** A segment of a clean path: non-empty, not ".", no separator. */
  predicate Segment(p: string) {
    p != "" && p != "." && '/' !in p
  }

  /** Segments that `Clean` can produce: proper segments, with ".." only at the
      start of a relative path. */
  predicate CanonicalSegs(rooted: bool, segs: seq<string>) {
    forall i :: 0 <= i < |segs| ==>
      Segment(segs[i]) &&
      (segs[i] == ".." ==> !rooted && forall j :: 0 <= j < i ==> segs[j] == "..")
  }

  predicate Canonical(c: CleanPath) {
    CanonicalSegs(c.rooted, c.segs)
  }

  /** One step of the normaliser: the effect of one segment of the input. */
  function Push(rooted: bool, acc: seq<string>, part: string): seq<string> {
    if part == "" || part == "." then acc
    else if part == ".." then
      if |acc| > 0 && acc[|acc| - 1] != ".." then acc[..|acc| - 1]
      else if rooted then acc
      else acc + [".."]
    else acc + [part]
  }

  /** The normaliser run over the remaining input segments. */
  function Fold(rooted: bool, acc: seq<string>, parts: seq<string>): seq<string>
    decreases |parts|
  {
    if |parts| == 0 then acc
    else Fold(rooted, Push(rooted, acc, parts[0]), parts[1..])
  }

  lemma PushCanonical(rooted: bool, acc: seq<string>, part: string)
    requires CanonicalSegs(rooted, acc)
    requires '/' !in part
    ensures CanonicalSegs(rooted, Push(rooted, acc, part))
  {
    if part == ".." && |acc| > 0 && acc[|acc| - 1] != ".." {
      var r := acc[..|acc| - 1];
      assert forall i :: 0 <= i < |r| ==> r[i] == acc[i];
    } else if part == ".." && !rooted {
      var r := acc + [".."];
      forall i | 0 <= i < |r| && r[i] == ".."
        ensures forall j :: 0 <= j < i ==> r[j] == ".."
      {
        if i == |acc| && |acc| > 0 {
          assert acc[|acc| - 1] == "..";
        }
      }
    }
  }

  /** Normalising separator-free pieces from a canonical start stays canonical. */
  lemma {:induction false} FoldCanonical(rooted: bool, acc: seq<string>, parts: seq<string>)
    requires CanonicalSegs(rooted, acc)
    requires forall i :: 0 <= i < |parts| ==> '/' !in parts[i]
    ensures CanonicalSegs(rooted, Fold(rooted, acc, parts))
    decreases |parts|
  {
    if |parts| > 0 {
      PushCanonical(rooted, acc, parts[0]);
      FoldCanonical(rooted, Push(rooted, acc, parts[0]), parts[1..]);
    }
  }

  /** Normalising pieces that are already canonical changes nothing. */
  lemma {:induction false} FoldIdentity(rooted: bool, acc: seq<string>, parts: seq<string>)
    requires CanonicalSegs(rooted, acc + parts)
    ensures Fold(rooted, acc, parts) == acc + parts
    decreases |parts|
  {
    if |parts| > 0 {
      var all := acc + parts;
      var p := parts[0];
      assert all[|acc|] == p;
      if p == ".." && |acc| > 0 {
        assert all[|acc| - 1] == acc[|acc| - 1];
      }
      assert Push(rooted, acc, p) == acc + [p];
      assert (acc + [p]) + parts[1..] == all;
      FoldIdentity(rooted, acc + [p], parts[1..]);
    }
  }

  /** The lexical normal form of a path. */
  function Parse(s: string): (c: CleanPath)
    ensures Canonical(c)
    ensures c.rooted <==> |s| > 0 && s[0] == '/'
  {
    var rooted := |s| > 0 && s[0] == '/';
    FoldCanonical(rooted, [], Split(s));
    CleanPath(rooted, Fold(rooted, [], Split(s)))
  }

  /** The string a normal form is printed as. */
  function Render(c: CleanPath): string {
    if c.rooted then "/" + Join(c.segs)
    else if |c.segs| == 0 then "."
    else Join(c.segs)
  }

  /** `filepath.Clean`. */
  function Clean(s: string): string {
    Render(Parse(s))
  }

  /** Printing a normal form and parsing it again gives the same normal form. */
  lemma ParseRender(c: CleanPath)
    requires Canonical(c)
    ensures Parse(Render(c)) == c
  {
    var s := Render(c);
    if c.rooted {
      assert s[0] == '/' && s[1..] == Join(c.segs);
      if |c.segs| == 0 {
        assert Split("") == [""];
        assert Split(s) == ["", ""];
      } else {
        SplitJoin(c.segs);
        assert Split(s) == [""] + c.segs;
        assert Push(true, [], "") == [];
        assert Fold(true, [], [""] + c.segs) == Fold(true, [], c.segs);
        FoldIdentity(true, [], c.segs);
        assert [] + c.segs == c.segs;
      }
    } else if |c.segs| == 0 {
      assert s == ".";
      assert Split(s) == ["."] by {
        SplitSegment(s);
      }
    } else {
      assert Segment(c.segs[0]);
      if |c.segs| > 1 {
        assert s == c.segs[0] + ("/" + Join(c.segs[1..]));
      }
      assert s[0] == c.segs[0][0];
      SplitJoin(c.segs);
      FoldIdentity(false, [], c.segs);
      assert [] + c.segs == c.segs;
    }
  }

  /** `filepath.Clean` is idempotent, and what it returns keeps the normal form
      of its input. */
  lemma CleanIdempotent(s: string)
    ensures Parse(Clean(s)) == Parse(s)
    ensures Clean(Clean(s)) == Clean(s)
  {
    ParseRender(Parse(s));
  }

  /** A string already in normal form is its own cleaned form. */
  lemma CleanOfRender(c: CleanPath)
    requires Canonical(c)
    ensures Clean(Render(c)) == Render(c)
  {
    ParseRender(c);
  }

  /** An absolute path made of proper segments, none of them `..`, is in
      normal form: it parses to those segments and cleans to itself. */
  lemma AbsoluteClean(segs: seq<string>)
    requires forall i :: 0 <= i < |segs| ==> Segment(segs[i]) && segs[i] != ".."
    ensures Parse("/" + Join(segs)) == CleanPath(true, segs)
    ensures Clean("/" + Join(segs)) == "/" + Join(segs)
  {
    ParseRender(CleanPath(true, segs));
  }

  /** `filepath.Ext`: the suffix from the final dot of the final element; empty
      when the final element has no dot. */
  function Ext(path: string): (e: string)
    ensures |e| <= |path| && e == path[|path| - |e|..]
    ensures e != "" ==> e[0] == '.' && '/' !in e && '.' !in e[1..]
    ensures e == "" ==>
      forall i :: 0 <= i < |path| && path[i] == '.' ==>
        exists j :: i < j < |path| && path[j] == '/'
    decreases |path|
  {
    if |path| == 0 then ""
    else if path[|path| - 1] == '/' then ""
    else if path[|path| - 1] == '.' then "."
    else
      var init := path[..|path| - 1];
      var last := path[|path| - 1];
      var e := Ext(init);
      if e == "" then
        assert forall i :: 0 <= i < |init| ==> init[i] == path[i];
        ""
      else
        assert e[1..] + [last] == (e + [last])[1..];
        e + [last]
  }

  /** The extension of a name whose last dot is followed by `s`. */
  lemma {:induction false} ExtAfterDot(pre: string, s: string)
    requires '.' !in s && '/' !in s
    ensures Ext(pre + "." + s) == "." + s
    decreases |s|
  {
    var path := pre + "." + s;
    if |s| > 0 {
      var s' := s[..|s| - 1];
      assert path[..|path| - 1] == pre + "." + s';
      assert path[|path| - 1] == s[|s| - 1];
      ExtAfterDot(pre, s');
      assert "." + s' + [s[|s| - 1]] == "." + s;
    }
  }

  /** A name with no dot has an empty extension. */
  lemma ExtNoDot(path: string)
    requires '.' !in path
    ensures Ext(path) == ""
  {
  }

  /** `unicode.ToLower` restricted to ASCII letters. */
  function LowerChar(c: char): char {
    if 'A' <= c <= 'Z' then (c as int + 32) as char else c
  }

  /** `strings.ToLower`, ASCII letters only. */
  function ToLower(s: string): (r: string)
    ensures |r| == |s|
    ensures forall i :: 0 <= i < |s| ==> r[i] == LowerChar(s[i])
    ensures forall i :: 0 <= i < |r| ==> !('A' <= r[i] <= 'Z')
    decreases |s|
  {
    if |s| == 0 then "" else [LowerChar(s[0])] + ToLower(s[1..])
  }
}
