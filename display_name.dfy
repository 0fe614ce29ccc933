/**
  * The default display name of a plugin type: the class name passed through
  * `re.sub("([a-z])([A-Z])", "\g<1> \g<2>", name)`.
  *
  * `SubCamel` follows the regular-expression engine: it scans left to right and,
  * after a match, resumes behind the consumed upper-case letter. `SpaceCamel` is
  * the intended meaning: one space at every ASCII lower-to-upper adjacency. The
  * two coincide because a consumed upper-case letter can never start a match.
  */
module DisplayName {

  /** The character class `[a-z]`. */
  predicate IsLower(c: char) {
    'a' <= c <= 'z'
  }

  /** The character class `[A-Z]`. */
  predicate IsUpper(c: char) {
    'A' <= c <= 'Z'
  }

  /** Positions `i` and `i + 1` of `s` hold a lower-case then an upper-case letter. */
  predicate Boundary(s: string, i: int)
    requires 0 <= i
  {
    i + 1 < |s| && IsLower(s[i]) && IsUpper(s[i + 1])
  }

  /** `s` has no lower-to-upper adjacency, so the pattern matches nowhere in it. */
  predicate NoBoundary(s: string) {
    forall i :: 0 <= i < |s| ==> !Boundary(s, i)
  }

  /** The regular-expression substitution, one scanning step per call. */
  function SubCamel(s: string): (r: string)
    ensures |r| >= |s|
    decreases |s|
  {
    if |s| < 2 then s
    else if IsLower(s[0]) && IsUpper(s[1]) then [s[0], ' ', s[1]] + SubCamel(s[2..])
    else [s[0]] + SubCamel(s[1..])
  }

  /** Every character of `s` in order, with one space after each position that starts a boundary. */
  function SpaceCamel(s: string): string
    decreases |s|
  {
    if |s| == 0 then []
    else [s[0]] + (if Boundary(s, 0) then " " else "") + SpaceCamel(s[1..])
  }

  /** The number of lower-to-upper adjacencies of `s`. */
  function CountBoundaries(s: string): nat
    decreases |s|
  {
    if |s| == 0 then 0 else (if Boundary(s, 0) then 1 else 0) + CountBoundaries(s[1..])
  }

  /** `s` with every space removed. */
  function StripSpaces(s: string): string
    decreases |s|
  {
    if |s| == 0 then [] else (if s[0] == ' ' then [] else [s[0]]) + StripSpaces(s[1..])
  }

  /** The regular-expression scan inserts exactly one space at every adjacency. */
  lemma {:induction false} SubCamelIsSpaceCamel(s: string)
    ensures SubCamel(s) == SpaceCamel(s)
    decreases |s|
  {
    if |s| < 2 {
    } else if IsLower(s[0]) && IsUpper(s[1]) {
      SubCamelIsSpaceCamel(s[2..]);
      assert s[1..][1..] == s[2..];
      assert !Boundary(s[1..], 0);
    } else {
      SubCamelIsSpaceCamel(s[1..]);
    }
  }

  /** The derived name starts with the first character of the class name. */
  lemma {:induction false} SpaceCamelHead(s: string)
    requires |s| > 0
    ensures |SpaceCamel(s)| > 0 && SpaceCamel(s)[0] == s[0]
  {
  }

  /** Prefixing a character that does not start an adjacency keeps a string free of adjacencies. */
  lemma NoBoundaryCons(c: char, t: string)
    requires NoBoundary(t)
    requires |t| == 0 || !(IsLower(c) && IsUpper(t[0]))
    ensures NoBoundary([c] + t)
  {
    var u := [c] + t;
    forall i | 0 <= i < |u|
      ensures !Boundary(u, i)
    {
      if i > 0 {
        assert u[i] == t[i - 1];
        assert i < |t| ==> u[i + 1] == t[i] && !Boundary(t, i - 1);
      }
    }
  }

  /** Dropping the first character keeps a string free of adjacencies. */
  lemma NoBoundaryTail(s: string)
    requires NoBoundary(s) && |s| > 0
    ensures NoBoundary(s[1..])
  {
    forall i | 0 <= i < |s[1..]|
      ensures !Boundary(s[1..], i)
    {
      assert !Boundary(s, i + 1);
    }
  }

  /** Where the pattern matches nowhere, the name is left unchanged. */
  lemma {:induction false} SpaceCamelUnchanged(s: string)
    requires NoBoundary(s)
    ensures SpaceCamel(s) == s
    decreases |s|
  {
    if |s| > 0 {
      NoBoundaryTail(s);
      SpaceCamelUnchanged(s[1..]);
      assert !Boundary(s, 0);
      assert [s[0]] + s[1..] == s;
    }
  }

  /** After the substitution the pattern matches nowhere. */
  lemma {:induction false} SpaceCamelLeavesNoBoundary(s: string)
    ensures NoBoundary(SpaceCamel(s))
    decreases |s|
  {
    if |s| > 0 {
      var rest := SpaceCamel(s[1..]);
      SpaceCamelLeavesNoBoundary(s[1..]);
      if |s| > 1 {
        SpaceCamelHead(s[1..]);
      }
      if Boundary(s, 0) {
        NoBoundaryCons(' ', rest);
        assert [s[0]] + " " + rest == [s[0]] + ([' '] + rest);
        NoBoundaryCons(s[0], [' '] + rest);
      } else {
        assert [s[0]] + "" + rest == [s[0]] + rest;
        assert |s| > 1 ==> rest[0] == s[1] && !Boundary(s, 0);
        NoBoundaryCons(s[0], rest);
      }
    }
  }

  /** Deriving a name twice gives the same name as deriving it once. */
  lemma SpaceCamelIdempotent(s: string)
    ensures SpaceCamel(SpaceCamel(s)) == SpaceCamel(s)
  {
    SpaceCamelLeavesNoBoundary(s);
    SpaceCamelUnchanged(SpaceCamel(s));
  }

  /** Removing spaces distributes over concatenation. */
  lemma StripSpacesAppend(a: string, b: string)
    ensures StripSpaces(a + b) == StripSpaces(a) + StripSpaces(b)
    decreases |a|
  {
    if |a| == 0 {
      assert a + b == b;
    } else {
      assert (a + b)[0] == a[0];
      assert (a + b)[1..] == a[1..] + b;
      StripSpacesAppend(a[1..], b);
    }
  }

  /** Apart from spaces, the derived name spells the class name. */
  lemma {:induction false} SpaceCamelOnlyInsertsSpaces(s: string)
    ensures StripSpaces(SpaceCamel(s)) == StripSpaces(s)
    decreases |s|
  {
    if |s| > 0 {
      SpaceCamelOnlyInsertsSpaces(s[1..]);
      var sep := if Boundary(s, 0) then " " else "";
      var rest := SpaceCamel(s[1..]);
      assert SpaceCamel(s) == [s[0]] + (sep + rest);
      StripSpacesAppend([s[0]], sep + rest);
      StripSpacesAppend(sep, rest);
      assert StripSpaces(sep) == [];
      assert s == [s[0]] + s[1..];
      StripSpacesAppend([s[0]], s[1..]);
    }
  }

  /** The derived name is longer than the class name by the number of adjacencies. */
  lemma {:induction false} SpaceCamelLength(s: string)
    ensures |SpaceCamel(s)| == |s| + CountBoundaries(s)
    decreases |s|
  {
    if |s| > 0 {
      SpaceCamelLength(s[1..]);
    }
  }

  /** The default name of a two-word class name. */
  lemma MyPluginName()
    ensures SubCamel("MyPlugin") == "My Plugin"
  {
  }

  /** A class name written in capitals is left alone. */
  lemma CapitalsNameUnchanged()
    ensures SubCamel("HTMLPlugin") == "HTMLPlugin"
  {
    var s := "HTMLPlugin";
    assert NoBoundary(s) by {
      forall i | 0 <= i < |s| ensures !Boundary(s, i) {
        assert i + 1 < |s| && IsLower(s[i]) ==> i >= 4;
      }
    }
    SubCamelIsSpaceCamel(s);
    SpaceCamelUnchanged(s);
  }
}
