/**
 * Operations on directory and idea names: Python's ordering of `str`
 * values, and the ASCII part of `str.lower`, `str.title` and
 * `str.replace("_", " ")`.
 */
module Names {

  /** Python's `a < b` on `str`: code point by code point, a proper prefix first. */
  predicate NameLess(a: string, b: string)
    decreases |a|
  {
    if |a| == 0 then |b| > 0
    else if |b| == 0 then false
    else if a[0] != b[0] then a[0] < b[0]
    else NameLess(a[1..], b[1..])
  }

  /** Names that share a prefix compare by what follows it. */
  lemma {:induction false} NameLessCommonPrefix(p: string, a: string, b: string)
    ensures NameLess(p + a, p + b) == NameLess(a, b)
    decreases |p|
  {
    if p == [] {
      assert p + a == a && p + b == b;
    } else {
      assert (p + a)[1..] == p[1..] + a;
      assert (p + b)[1..] == p[1..] + b;
      NameLessCommonPrefix(p[1..], a, b);
    }
  }

  lemma {:induction false} NameLessIrreflexive(a: string)
    ensures !NameLess(a, a)
    decreases |a|
  {
    if |a| > 0 {
      NameLessIrreflexive(a[1..]);
    }
  }

  lemma {:induction false} NameLessTransitive(a: string, b: string, c: string)
    requires NameLess(a, b) && NameLess(b, c)
    ensures NameLess(a, c)
    decreases |a|
  {
    if |a| > 0 && a[0] == b[0] && b[0] == c[0] {
      NameLessTransitive(a[1..], b[1..], c[1..]);
    }
  }

  lemma {:induction false} NameLessTotal(a: string, b: string)
    requires a != b
    ensures NameLess(a, b) || NameLess(b, a)
    decreases |a|
  {
    if |a| > 0 && |b| > 0 && a[0] == b[0] {
      assert a == [a[0]] + a[1..] && b == [b[0]] + b[1..];
      NameLessTotal(a[1..], b[1..]);
    }
  }

  predicate IsLetter(c: char) {
    'a' <= c <= 'z' || 'A' <= c <= 'Z'
  }

  function ToUpper(c: char): char {
    if 'a' <= c <= 'z' then (c as int - 32) as char else c
  }

  function ToLower(c: char): char {
    if 'A' <= c <= 'Z' then (c as int + 32) as char else c
  }

  /** `s.lower()` on the ASCII letters. */
  function Lower(s: string): (r: string)
    ensures |r| == |s|
    ensures forall i :: 0 <= i < |s| ==> r[i] == ToLower(s[i])
  {
    if s == [] then [] else [ToLower(s[0])] + Lower(s[1..])
  }

  /**
   * `s.lower() == "true"`. No character outside ASCII lower-cases to one of
   * the letters of "true", so the ASCII lowering decides this exactly.
   */
  predicate IsTrueText(s: string) {
    Lower(s) == "true"
  }

  lemma TrueTextIsFourLetters(s: string)
    requires IsTrueText(s)
    ensures |s| == 4
    ensures ToLower(s[0]) == 't' && ToLower(s[1]) == 'r' && ToLower(s[2]) == 'u' && ToLower(s[3]) == 'e'
  {
    assert Lower(s)[0] == 't' && Lower(s)[1] == 'r' && Lower(s)[2] == 'u' && Lower(s)[3] == 'e';
  }

  /** `s.replace("_", " ")`. */
  function SpaceUnderscores(s: string): (r: string)
    ensures |r| == |s|
    ensures forall i :: 0 <= i < |s| ==> r[i] == (if s[i] == '_' then ' ' else s[i])
  {
    if s == [] then [] else [if s[0] == '_' then ' ' else s[0]] + SpaceUnderscores(s[1..])
  }

  /**
   * `str.title` restricted to ASCII: a letter is upper-cased when the
   * character before it is not a letter, and lower-cased otherwise.
   * `afterLetter` says whether the character before `s` was a letter.
   */
  function TitleFrom(s: string, afterLetter: bool): string {
    if s == [] then []
    else [if afterLetter then ToLower(s[0]) else ToUpper(s[0])] + TitleFrom(s[1..], IsLetter(s[0]))
  }

  function Title(s: string): string {
    TitleFrom(s, false)
  }

  /** The character position `i` takes in `Title(s)`, stated without recursion. */
  function TitleAt(s: string, i: nat): char
    requires i < |s|
  {
    if i > 0 && IsLetter(s[i - 1]) then ToLower(s[i]) else ToUpper(s[i])
  }

  lemma {:induction false} TitleFromAt(s: string, afterLetter: bool)
    ensures |TitleFrom(s, afterLetter)| == |s|
    ensures forall i :: 0 < i < |s| ==> TitleFrom(s, afterLetter)[i] == TitleAt(s, i)
    ensures |s| > 0 ==> TitleFrom(s, afterLetter)[0] == (if afterLetter then ToLower(s[0]) else ToUpper(s[0]))
    decreases |s|
  {
    if s != [] {
      TitleFromAt(s[1..], IsLetter(s[0]));
      var t := TitleFrom(s, afterLetter);
      forall i | 0 < i < |s|
        ensures t[i] == TitleAt(s, i)
      {
        if i == 1 {
          assert t[1] == TitleFrom(s[1..], IsLetter(s[0]))[0];
        } else {
          assert t[i] == TitleFrom(s[1..], IsLetter(s[0]))[i - 1];
          assert TitleAt(s[1..], i - 1) == TitleAt(s, i);
        }
      }
    }
  }

  /** `Title` keeps the length and maps every position as `TitleAt` says. */
  lemma TitleSpec(s: string)
    ensures |Title(s)| == |s|
    ensures forall i :: 0 <= i < |s| ==> Title(s)[i] == TitleAt(s, i)
  {
    TitleFromAt(s, false);
  }

  lemma CaseKeepsLetters(c: char)
    ensures IsLetter(ToUpper(c)) == IsLetter(c) && IsLetter(ToLower(c)) == IsLetter(c)
    ensures ToUpper(ToUpper(c)) == ToUpper(c) && ToUpper(ToLower(c)) == ToUpper(c)
    ensures ToLower(ToLower(c)) == ToLower(c) && ToLower(ToUpper(c)) == ToLower(c)
    ensures !IsLetter(c) ==> ToUpper(c) == c && ToLower(c) == c
  {
  }

  /** Title-casing a title-cased name changes nothing. */
  lemma TitleIdempotent(s: string)
    ensures Title(Title(s)) == Title(s)
  {
    var t := Title(s);
    TitleSpec(s);
    TitleSpec(t);
    forall i | 0 <= i < |s|
      ensures Title(t)[i] == t[i]
    {
      CaseKeepsLetters(s[i]);
      if i > 0 {
        CaseKeepsLetters(s[i - 1]);
        assert IsLetter(t[i - 1]) == IsLetter(s[i - 1]);
      }
    }
  }

  /** The name shown for an idea directory: `name.replace("_", " ").title()`. */
  function DisplayName(name: string): string {
    Title(SpaceUnderscores(name))
  }

  /** A display name has the length of its directory name and no underscore. */
  lemma DisplayNameShape(name: string)
    ensures |DisplayName(name)| == |name|
    ensures forall i :: 0 <= i < |name| ==> DisplayName(name)[i] != '_'
    ensures forall i :: 0 <= i < |name| ==> (DisplayName(name)[i] == ' ' <==> name[i] == '_' || name[i] == ' ')
  {
    var u := SpaceUnderscores(name);
    TitleSpec(u);
    forall i | 0 <= i < |name|
      ensures DisplayName(name)[i] == TitleAt(u, i)
    {
    }
    forall i | 0 <= i < |name|
      ensures IsLetter(DisplayName(name)[i]) == IsLetter(u[i])
      ensures !IsLetter(u[i]) ==> DisplayName(name)[i] == u[i]
    {
      CaseKeepsLetters(u[i]);
    }
  }
}
