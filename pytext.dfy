/** The handful of Python `str` operations the dispatcher and the lettering
    extension rely on: lower(), title(), capitalize(), replace(c, ""),
    split(sep) and endswith().

    Case mapping is modelled on ASCII: the 52 ASCII letters are the only
    cased characters, every other character is left as it is. */
module PyText {

  import opened Collections

  predicate IsLetter(c: char) {
    'a' <= c <= 'z' || 'A' <= c <= 'Z'
  }

  function Upper(c: char): (r: char)
    ensures IsLetter(r) == IsLetter(c)
    ensures !('a' <= r <= 'z')
    ensures !IsLetter(c) ==> r == c
  {
    if 'a' <= c <= 'z' then (c as int - 32) as char else c
  }

  function Lower(c: char): (r: char)
    ensures IsLetter(r) == IsLetter(c)
    ensures !('A' <= r <= 'Z')
    ensures !IsLetter(c) ==> r == c
  {
    if 'A' <= c <= 'Z' then (c as int + 32) as char else c
  }

  /** `s.lower()` */
  function LowerStr(s: string): (r: string)
    ensures |r| == |s|
    ensures forall i :: 0 <= i < |s| ==> r[i] == Lower(s[i])
  {
    if s == [] then [] else [Lower(s[0])] + LowerStr(s[1..])
  }

  /** Lower-casing twice is lower-casing once. */
  lemma LowerStrIdempotent(s: string)
    ensures LowerStr(LowerStr(s)) == LowerStr(s)
  {
  }

  /** A string with no upper-case letter is its own lower-case form. */
  lemma LowerStrOfLowerCase(s: string)
    requires forall i :: 0 <= i < |s| ==> 'a' <= s[i] <= 'z'
    ensures LowerStr(s) == s
  {
  }

  /** `s.title()` continued after a character that was (or was not) cased:
      a letter following a cased character is lower-cased, any other letter
      is upper-cased. */
  function TitleFrom(s: string, prevCased: bool): (r: string)
    ensures |r| == |s|
  {
    if s == [] then []
    else [if prevCased then Lower(s[0]) else Upper(s[0])] + TitleFrom(s[1..], IsLetter(s[0]))
  }

  /** `s.title()` */
  function Title(s: string): (r: string)
    ensures |r| == |s|
  {
    TitleFrom(s, false)
  }

  lemma {:induction false} TitleFromAt(s: string, prevCased: bool, i: nat)
    requires i < |s|
    ensures TitleFrom(s, prevCased)[i] ==
      if (if i == 0 then prevCased else IsLetter(s[i - 1])) then Lower(s[i]) else Upper(s[i])
  {
    if i > 0 {
      TitleFromAt(s[1..], IsLetter(s[0]), i - 1);
    }
  }

  /** Character by character, `title()` upper-cases a letter that starts the
      string or follows a non-letter, and lower-cases every other letter. */
  lemma TitleAt(s: string, i: nat)
    requires i < |s|
    ensures Title(s)[i] == if i == 0 || !IsLetter(s[i - 1]) then Upper(s[i]) else Lower(s[i])
  {
    TitleFromAt(s, false, i);
  }

  /** `lambda x: x != c` */
  function Other(c: char): char -> bool {
    x => x != c
  }

  /** `s.replace(c, "")` for a single character `c`. */
  function Without(s: string, c: char): (r: string)
    ensures c !in r
    ensures |r| <= |s|
    ensures forall x :: x in r <==> x in s && x != c
  {
    if s == [] then []
    else (if s[0] == c then [] else [s[0]]) + Without(s[1..], c)
  }

  /** `replace(c, "")` is the filter that keeps every character other than
      `c`: the others survive in their order, repeats included. */
  lemma {:induction false} WithoutKeepsOthers(s: string, c: char)
    ensures Without(s, c) == Filter(s, Other(c))
  {
    if s != [] {
      WithoutKeepsOthers(s[1..], c);
      FilterCons(s, Other(c));
    }
  }

  /** Removing a character that does not occur changes nothing. */
  lemma {:induction false} WithoutAbsent(s: string, c: char)
    requires c !in s
    ensures Without(s, c) == s
  {
    if s != [] {
      WithoutAbsent(s[1..], c);
    }
  }

  /** `t.capitalize()`: first character upper-cased, the rest lower-cased. */
  function Capitalize(t: string): (r: string)
    ensures |r| == |t|
    ensures t != [] ==> r[0] == Upper(t[0])
  {
    if t == [] then [] else [Upper(t[0])] + LowerStr(t[1..])
  }

  /** `"".join(t.capitalize() for t in tokens)` */
  function CapitalizeAll(tokens: seq<string>): string {
    if tokens == [] then [] else Capitalize(tokens[0]) + CapitalizeAll(tokens[1..])
  }

  /** `s.split(sep)` for a one-character separator: never empty, and no part
      contains the separator. */
  function Split(s: string, sep: char): (r: seq<string>)
    ensures |r| >= 1
    ensures forall i :: 0 <= i < |r| ==> sep !in r[i]
  {
    if s == [] then [[]]
    else
      var rest := Split(s[1..], sep);
      if s[0] == sep then [[]] + rest else [[s[0]] + rest[0]] + rest[1..]
  }

  /** `sep.join(parts)` */
  function Join(parts: seq<string>, sep: char): string {
    if parts == [] then []
    else if |parts| == 1 then parts[0]
    else parts[0] + [sep] + Join(parts[1..], sep)
  }

  /** Splitting and joining back with the same separator gives the original string. */
  lemma {:induction false} JoinSplit(s: string, sep: char)
    ensures Join(Split(s, sep), sep) == s
  {
    if s != [] {
      var rest := Split(s[1..], sep);
      JoinSplit(s[1..], sep);
      if s[0] != sep {
        if |rest| > 1 {
          assert ([[s[0]] + rest[0]] + rest[1..])[1..] == rest[1..];
        }
      }
    }
  }

  /** Joining parts that do not contain the separator and splitting again gives the parts back. */
  lemma {:induction false} SplitJoin(parts: seq<string>, sep: char)
    requires |parts| >= 1
    requires forall i :: 0 <= i < |parts| ==> sep !in parts[i]
    ensures Split(Join(parts, sep), sep) == parts
    decreases |parts|, |parts[0]|
  {
    var p0 := parts[0];
    if p0 == [] {
      if |parts| > 1 {
        SplitJoin(parts[1..], sep);
        assert Join(parts, sep) == [sep] + Join(parts[1..], sep);
        assert ([sep] + Join(parts[1..], sep))[1..] == Join(parts[1..], sep);
      }
    } else {
      var shorter := [p0[1..]] + parts[1..];
      assert sep !in shorter[0];
      assert forall i :: 1 <= i < |shorter| ==> shorter[i] == parts[i];
      SplitJoin(shorter, sep);
      var s := Join(parts, sep);
      if |parts| == 1 {
        assert s == p0 && s[1..] == Join(shorter, sep);
      } else {
        assert s == [p0[0]] + (p0[1..] + [sep] + Join(parts[1..], sep));
        assert s[1..] == Join(shorter, sep);
      }
      assert s[0] == p0[0] && s[0] != sep;
      assert [p0[0]] + p0[1..] == p0;
    }
  }

  /** `s.endswith(suffix)` */
  predicate EndsWith(s: string, suffix: string) {
    |suffix| <= |s| && s[|s| - |suffix|..] == suffix
  }
}
