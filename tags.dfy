/** The tag parser both recipe forms apply to the comma-separated tag input:
    `input.split(',').map(t => t.trim()).filter(t => t.length > 0)`.
    Strings are sequences of Unicode code points. */
module Tags {

  /** The code points JavaScript's String.prototype.trim removes: the
      ECMAScript WhiteSpace and LineTerminator characters. */
  predicate IsWhitespace(c: char) {
    || c == '\t' || c == '\n' || c == '\U{000B}' || c == '\U{000C}' || c == '\r'
    || c == ' ' || c == '\U{00A0}' || c == '\U{1680}'
    || ('\U{2000}' <= c <= '\U{200A}')
    || c == '\U{2028}' || c == '\U{2029}' || c == '\U{202F}' || c == '\U{205F}'
    || c == '\U{3000}' || c == '\U{FEFF}'
  }

  /** Empty or made of whitespace only: what `!s.trim()` tests. */
  predicate IsBlank(s: string) {
    forall i :: 0 <= i < |s| ==> IsWhitespace(s[i])
  }

  /** Neither starts nor ends with whitespace. */
  predicate IsTrimmed(s: string) {
    s == [] || (!IsWhitespace(s[0]) && !IsWhitespace(s[|s| - 1]))
  }

  /** Drops the leading whitespace. */
  function TrimStart(s: string): string {
    if s != [] && IsWhitespace(s[0]) then TrimStart(s[1..]) else s
  }

  /** Drops the trailing whitespace. */
  function TrimEnd(s: string): string {
    if s != [] && IsWhitespace(s[|s| - 1]) then TrimEnd(s[..|s| - 1]) else s
  }

  /** TrimStart returns the suffix of `s` after a blank prefix, and that
      suffix does not start with whitespace. */
  lemma {:induction false} TrimStartIsSuffix(s: string)
    ensures var r := TrimStart(s);
      && |r| <= |s| && r == s[|s| - |r|..]
      && IsBlank(s[..|s| - |r|])
      && (r == [] || !IsWhitespace(r[0]))
  {
    if s != [] && IsWhitespace(s[0]) {
      TrimStartIsSuffix(s[1..]);
      var r := TrimStart(s[1..]);
      assert s[..|s| - |r|] == [s[0]] + s[1..][..|s| - 1 - |r|];
    }
  }

  /** TrimEnd returns the prefix of `s` before a blank suffix, and that
      prefix does not end with whitespace. */
  lemma {:induction false} TrimEndIsPrefix(s: string)
    ensures var r := TrimEnd(s);
      && |r| <= |s| && r == s[..|r|]
      && IsBlank(s[|r|..])
      && (r == [] || !IsWhitespace(r[|r| - 1]))
  {
    if s != [] && IsWhitespace(s[|s| - 1]) {
      TrimEndIsPrefix(s[..|s| - 1]);
      var r := TrimEnd(s[..|s| - 1]);
      assert s[|r|..] == s[..|s| - 1][|r|..] + [s[|s| - 1]];
    }
  }

  /** String.prototype.trim: the result neither starts nor ends with
      whitespace. */
  function Trim(s: string): (r: string)
    ensures IsTrimmed(r)
  {
    TrimStartIsSuffix(s);
    TrimEndIsPrefix(TrimStart(s));
    TrimEnd(TrimStart(s))
  }

  /** Trim returns the slice of `s` left after a blank prefix and a blank
      suffix are removed. */
  lemma TrimIsSlice(s: string)
    ensures var r := Trim(s);
      exists i | 0 <= i <= |s| - |r| ::
        r == s[i..i + |r|] && IsBlank(s[..i]) && IsBlank(s[i + |r|..])
  {
    var t := TrimStart(s);
    var r := TrimEnd(t);
    TrimStartIsSuffix(s);
    TrimEndIsPrefix(t);
    var i := |s| - |t|;
    assert r == s[i..i + |r|] by {
      assert t == s[i..] && r == t[..|r|];
    }
    assert IsBlank(s[i + |r|..]) by {
      assert s[i + |r|..] == t[|r|..];
    }
  }

  /** A slice of a comma-free string is comma-free. */
  lemma SliceCommaFree(p: string, i: nat, j: nat)
    requires ',' !in p && i <= j <= |p|
    ensures ',' !in p[i..j]
  {
    forall k | 0 <= k < j - i
      ensures p[i..j][k] != ','
    {
      assert p[i..j][k] == p[i + k];
    }
  }

  /** Trim returns the empty string exactly for a blank input. */
  lemma TrimEmptyIffBlank(s: string)
    ensures Trim(s) == [] <==> IsBlank(s)
  {
    var t := TrimStart(s);
    TrimStartIsSuffix(s);
    TrimEndIsPrefix(t);
    var i := |s| - |t|;
    if TrimEnd(t) == [] {
      assert IsBlank(t[0..]);
      assert t == t[0..];
      assert s == s[..i];
    }
  }

  /** Trimming a trimmed string changes nothing, so Trim is idempotent. */
  lemma TrimOfTrimmed(s: string)
    requires IsTrimmed(s)
    ensures Trim(s) == s
  {
    assert TrimStart(s) == s;
    assert TrimEnd(s) == s;
  }

  lemma TrimIdempotent(s: string)
    ensures Trim(Trim(s)) == Trim(s)
  {
    TrimOfTrimmed(Trim(s));
  }

  /** String.prototype.split(','): the pieces between commas, always at least
      one (the empty string gives [""]), none containing a comma. */
  function Split(s: string): (parts: seq<string>)
    ensures |parts| >= 1
    ensures forall i :: 0 <= i < |parts| ==> ',' !in parts[i]
  {
    if s == [] then [""]
    else
      var rest := Split(s[1..]);
      if s[0] == ',' then [""] + rest else [[s[0]] + rest[0]] + rest[1..]
  }

  /** Array.prototype.join(','): the reference inverse of Split. */
  function Join(parts: seq<string>): string
    requires |parts| >= 1
  {
    if |parts| == 1 then parts[0] else parts[0] + "," + Join(parts[1..])
  }

  /** Joining the pieces Split returns gives back the input. */
  lemma {:induction false} JoinSplit(s: string)
    ensures Join(Split(s)) == s
  {
    if s != [] {
      var rest := Split(s[1..]);
      JoinSplit(s[1..]);
      if s[0] == ',' {
        assert Split(s) == [""] + rest;
        assert s == "" + "," + s[1..];
      } else {
        var parts := [[s[0]] + rest[0]] + rest[1..];
        assert Split(s) == parts;
        if |rest| == 1 {
          assert s == [s[0]] + s[1..];
        } else {
          assert parts[1..] == rest[1..];
          assert Join(rest) == rest[0] + "," + Join(rest[1..]);
          assert s == [s[0]] + s[1..];
        }
      }
    }
  }

  /** A comma-free prefix is glued onto the first piece of what follows. */
  lemma {:induction false} SplitCommaFreePrefix(p: string, t: string)
    requires ',' !in p
    ensures Split(p + t) == [p + Split(t)[0]] + Split(t)[1..]
  {
    if p != [] {
      assert (p + t)[1..] == p[1..] + t;
      assert (p + t)[0] == p[0];
      SplitCommaFreePrefix(p[1..], t);
      assert [p[0]] + (p[1..] + Split(t)[0]) == p + Split(t)[0];
    } else {
      assert p + t == t;
      assert p + Split(t)[0] == Split(t)[0];
      assert Split(t) == [Split(t)[0]] + Split(t)[1..];
    }
  }

  /** A string without commas is split into itself alone. */
  lemma SplitCommaFree(s: string)
    requires ',' !in s
    ensures Split(s) == [s]
  {
    SplitCommaFreePrefix(s, "");
    assert s + "" == s;
  }

  /** Splitting the join of comma-free pieces gives back exactly the pieces. */
  lemma {:induction false} SplitJoin(parts: seq<string>)
    requires |parts| >= 1
    requires forall i :: 0 <= i < |parts| ==> ',' !in parts[i]
    ensures Split(Join(parts)) == parts
  {
    if |parts| == 1 {
      SplitCommaFree(parts[0]);
    } else {
      var tail := Join(parts[1..]);
      SplitJoin(parts[1..]);
      var rest := "," + tail;
      assert rest[0] == ',' && rest[1..] == tail;
      assert Split(rest) == [""] + parts[1..];
      assert Join(parts) == parts[0] + rest;
      SplitCommaFreePrefix(parts[0], rest);
      assert parts[0] + Split(rest)[0] == parts[0];
      assert Split(rest)[1..] == parts[1..];
      assert parts == [parts[0]] + parts[1..];
    }
  }

  /** The `map(trim)` and `filter(t => t.length > 0)` steps: every piece
      trimmed, the empty ones dropped, the others kept in order. */
  function NonBlankParts(parts: seq<string>): (tags: seq<string>)
    ensures |tags| <= |parts|
    ensures forall i :: 0 <= i < |tags| ==> tags[i] != [] && IsTrimmed(tags[i])
  {
    if parts == [] then []
    else
      var t := Trim(parts[0]);
      (if t != [] then [t] else []) + NonBlankParts(parts[1..])
  }

  /** The filter works piece by piece: it keeps the order of the pieces and
      never merges or de-duplicates across them. */
  lemma {:induction false} NonBlankPartsAppend(a: seq<string>, b: seq<string>)
    ensures NonBlankParts(a + b) == NonBlankParts(a) + NonBlankParts(b)
  {
    if a != [] {
      assert (a + b)[0] == a[0];
      assert (a + b)[1..] == a[1..] + b;
      NonBlankPartsAppend(a[1..], b);
    } else {
      assert a + b == b;
    }
  }

  /** A piece's trimmed text is kept exactly when it is non-empty. */
  lemma {:induction false} NonBlankPartsMembers(parts: seq<string>, t: string)
    ensures t in NonBlankParts(parts) <==> t != [] && exists p :: p in parts && t == Trim(p)
  {
    if parts != [] {
      NonBlankPartsMembers(parts[1..], t);
      assert parts == [parts[0]] + parts[1..];
      if t != [] && exists p :: p in parts && t == Trim(p) {
        var p :| p in parts && t == Trim(p);
        if p != parts[0] {
          assert p in parts[1..];
        }
      }
    }
  }

  /** The tags a tag input adds, in input order. */
  function ParseTags(input: string): (tags: seq<string>)
    ensures forall i :: 0 <= i < |tags| ==> tags[i] != [] && IsTrimmed(tags[i])
  {
    NonBlankParts(Split(input))
  }

  /** A tag is produced exactly when it is the non-empty trimmed text of one
      of the comma-separated pieces of the input. */
  lemma ParseTagsMembers(input: string, t: string)
    ensures t in ParseTags(input) <==> t != [] && exists p :: p in Split(input) && t == Trim(p)
  {
    NonBlankPartsMembers(Split(input), t);
  }

  /** Trimming a comma-free piece leaves it comma-free. */
  lemma TrimCommaFree(p: string)
    requires ',' !in p
    ensures ',' !in Trim(p)
  {
    var t := TrimStart(p);
    TrimStartIsSuffix(p);
    TrimEndIsPrefix(t);
    SliceCommaFree(p, |p| - |t|, |p|);
    assert t == p[|p| - |t|..|p|];
    SliceCommaFree(t, 0, |TrimEnd(t)|);
    assert TrimEnd(t) == t[0..|TrimEnd(t)|];
  }

  lemma {:induction false} NonBlankPartsCommaFree(parts: seq<string>)
    requires forall i :: 0 <= i < |parts| ==> ',' !in parts[i]
    ensures forall i :: 0 <= i < |NonBlankParts(parts)| ==> ',' !in NonBlankParts(parts)[i]
  {
    if parts != [] {
      TrimCommaFree(parts[0]);
      NonBlankPartsCommaFree(parts[1..]);
    }
  }

  /** No produced tag contains a comma. */
  lemma ParseTagsCommaFree(input: string)
    ensures forall i :: 0 <= i < |ParseTags(input)| ==> ',' !in ParseTags(input)[i]
  {
    NonBlankPartsCommaFree(Split(input));
  }

  /** Pieces joined by commas parse piece by piece: the order is that of the
      input and a repeated tag is kept twice. */
  lemma ParseTagsOfJoin(parts: seq<string>)
    requires |parts| >= 1
    requires forall i :: 0 <= i < |parts| ==> ',' !in parts[i]
    ensures ParseTags(Join(parts)) == NonBlankParts(parts)
  {
    SplitJoin(parts);
  }

  /** A blank input has no comma and produces no tag at all. */
  lemma BlankInputHasNoTags(input: string)
    requires IsBlank(input)
    ensures ParseTags(input) == []
  {
    SplitCommaFree(input);
    TrimEmptyIffBlank(input);
  }

  /** Spaces on either side of a trimmed tag are dropped. */
  lemma TrimPadded(x: string)
    requires x != [] && IsTrimmed(x)
    ensures Trim(" " + x) == x && Trim(" " + x + " ") == x
  {
    assert (" " + x)[1..] == x;
    assert TrimStart(" " + x) == TrimStart(x) == x;
    assert (x + " ")[..|x|] == x;
    assert TrimEnd(x + " ") == TrimEnd(x) == x;
    assert TrimStart(x + " ") == x + " ";
    assert (" " + x + " ")[1..] == x + " ";
    assert TrimStart(" " + x + " ") == x + " ";
  }

  lemma NonBlankPartsSingleton(p: string)
    ensures NonBlankParts([p]) == if Trim(p) == [] then [] else [Trim(p)]
  {
    assert [p][1..] == [];
  }

  lemma JoinPadded(a: string, b: string, c: string)
    ensures Join([a, " " + b + " ", "", " " + c]) == a + ", " + b + " ,, " + c
  {
    var parts := [a, " " + b + " ", "", " " + c];
    assert Join(parts[3..]) == " " + c;
    assert Join(parts[2..]) == "," + " " + c;
    assert Join(parts[1..]) == " " + b + " " + "," + "," + " " + c;
  }

  lemma NonBlankPartsPadded(a: string, b: string, c: string)
    requires a != [] && IsTrimmed(a)
    requires b != [] && IsTrimmed(b)
    requires c != [] && IsTrimmed(c)
    ensures NonBlankParts([a, " " + b + " ", "", " " + c]) == [a, b, c]
  {
    var pb, pc := " " + b + " ", " " + c;
    TrimOfTrimmed(a);
    TrimPadded(b);
    TrimPadded(c);
    NonBlankPartsSingleton(a);
    NonBlankPartsSingleton(pb);
    NonBlankPartsSingleton("");
    NonBlankPartsSingleton(pc);
    NonBlankPartsAppend([a, pb, ""], [pc]);
    NonBlankPartsAppend([a, pb], [""]);
    NonBlankPartsAppend([a], [pb]);
    assert [a, pb, "", pc] == [a, pb, ""] + [pc];
    assert [a, pb, ""] == [a, pb] + [""];
    assert [a, pb] == [a] + [pb];
  }

  /** The shape of "a, b ,, c" for any three tags: the spaces around each tag
      are dropped, the empty piece between the two commas adds nothing, and
      the order is kept. */
  lemma ParseTagsPadded(a: string, b: string, c: string)
    requires a != [] && IsTrimmed(a) && ',' !in a
    requires b != [] && IsTrimmed(b) && ',' !in b
    requires c != [] && IsTrimmed(c) && ',' !in c
    ensures ParseTags(a + ", " + b + " ,, " + c) == [a, b, c]
  {
    JoinPadded(a, b, c);
    ParseTagsOfJoin([a, " " + b + " ", "", " " + c]);
    NonBlankPartsPadded(a, b, c);
  }

  lemma ParseTagsExample()
    ensures ParseTags("a, b ,, c") == ["a", "b", "c"]
  {
    ParseTagsPadded("a", "b", "c");
    assert "a" + ", " + "b" + " ,, " + "c" == "a, b ,, c";
  }

  /** A repeated tag is not de-duplicated. */
  lemma ParseTagsKeepsDuplicates(t: string)
    requires t != [] && IsTrimmed(t) && ',' !in t
    ensures ParseTags(t + "," + t) == [t, t]
  {
    assert Join([t, t]) == t + "," + t;
    ParseTagsOfJoin([t, t]);
    TrimOfTrimmed(t);
    NonBlankPartsSingleton(t);
    NonBlankPartsAppend([t], [t]);
    assert [t, t] == [t] + [t];
  }

  /** A non-blank input may still produce no tag: commas alone. */
  lemma CommasAloneAddNoTags()
    ensures !IsBlank(",") && ParseTags(",") == []
  {
    assert !IsWhitespace(","[0]);
    assert Join(["", ""]) == ",";
    ParseTagsOfJoin(["", ""]);
    NonBlankPartsSingleton("");
    NonBlankPartsAppend([""], [""]);
    assert ["", ""] == [""] + [""];
  }
}
