/** Splitting and joining lines, and keeping separators out of fields
    (the helpers of crates/copier-core/src/protocol.rs). */
module Text {

  const TAB: char := '\t'
  const CR: char := '\r'
  const LF: char := '\n'

  /** The pieces between separators, at least one. */
  function Split(s: string, sep: char): (fields: seq<string>)
    ensures |fields| >= 1
  {
    if s == "" then [""]
    else
      var rest := Split(s[1..], sep);
      if s[0] == sep then [""] + rest else [[s[0]] + rest[0]] + rest[1..]
  }

  function Join(fields: seq<string>, sep: char): string
    requires |fields| >= 1
  {
    if |fields| == 1 then fields[0] else fields[0] + [sep] + Join(fields[1..], sep)
  }

  lemma {:induction false} SplitOne(a: string, sep: char)
    requires sep !in a
    ensures Split(a, sep) == [a]
  {
    if a != "" {
      assert a[0] in a && forall c <- a[1..] :: c in a;
      SplitOne(a[1..], sep);
      assert [a[0]] + a[1..] == a;
    }
  }

  lemma {:induction false} SplitHead(a: string, sep: char, rest: string)
    requires sep !in a
    ensures Split(a + [sep] + rest, sep) == [a] + Split(rest, sep)
  {
    var s := a + [sep] + rest;
    if a == "" {
      assert s[1..] == rest;
    } else {
      assert a[0] in a && forall c <- a[1..] :: c in a;
      assert s[1..] == a[1..] + [sep] + rest;
      SplitHead(a[1..], sep, rest);
      assert [a[0]] + a[1..] == a;
    }
  }

  /** Splitting undoes joining when no field holds the separator. */
  lemma {:induction false} SplitJoin(fields: seq<string>, sep: char)
    requires |fields| >= 1 && forall f <- fields :: sep !in f
    ensures Split(Join(fields, sep), sep) == fields
  {
    if |fields| == 1 {
      SplitOne(fields[0], sep);
    } else {
      SplitJoin(fields[1..], sep);
      SplitHead(fields[0], sep, Join(fields[1..], sep));
    }
  }

  lemma JoinEmpty(rest: seq<string>, sep: char)
    requires |rest| >= 1
    ensures Join([""] + rest, sep) == [sep] + Join(rest, sep)
  {
    assert ([""] + rest)[1..] == rest;
  }

  lemma JoinLonger(c: char, rest: seq<string>, sep: char)
    requires |rest| >= 1
    ensures Join([[c] + rest[0]] + rest[1..], sep) == [c] + Join(rest, sep)
  {
    var fields := [[c] + rest[0]] + rest[1..];
    assert fields[1..] == rest[1..];
    if |rest| > 1 {
      assert [c] + rest[0] + [sep] + Join(rest[1..], sep) == [c] + (rest[0] + [sep] + Join(rest[1..], sep));
    }
  }

  /** Joining undoes splitting, always, and no piece holds the separator. */
  lemma {:induction false} JoinSplit(s: string, sep: char)
    ensures Join(Split(s, sep), sep) == s
    ensures forall f <- Split(s, sep) :: sep !in f
  {
    hide Join;
    if s == "" {
      JoinOne("", sep);
    } else {
      var rest := Split(s[1..], sep);
      JoinSplit(s[1..], sep);
      assert s == [s[0]] + s[1..] && rest[0] in rest;
      JoinEmpty(rest, sep);
      JoinLonger(s[0], rest, sep);
    }
  }

  lemma JoinOne(a: string, sep: char)
    ensures Join([a], sep) == a
  {
  }

  /** A character other than the separator is in the line when it is in some field. */
  lemma {:induction false} JoinChars(fields: seq<string>, sep: char, c: char)
    requires |fields| >= 1 && c != sep
    ensures c in Join(fields, sep) <==> exists f <- fields :: c in f
  {
    if |fields| == 1 {
      assert fields[0] in fields;
    } else {
      JoinChars(fields[1..], sep, c);
      assert fields == [fields[0]] + fields[1..];
    }
  }

  /** `trim_end_matches` of carriage returns and line feeds. */
  function StripLineEnd(s: string): string {
    if s != "" && (s[|s| - 1] == CR || s[|s| - 1] == LF) then StripLineEnd(s[..|s| - 1]) else s
  }

  /** What is stripped is all the line breaks at the end and nothing else. */
  lemma {:induction false} StripsLineBreaks(s: string)
    ensures StripLineEnd(s) <= s
    ensures forall i :: |StripLineEnd(s)| <= i < |s| ==> s[i] == '\r' || s[i] == '\n'
    ensures StripLineEnd(s) != "" ==> s[|StripLineEnd(s)| - 1] != '\r' && s[|StripLineEnd(s)| - 1] != '\n'
  {
    if s != "" && (s[|s| - 1] == CR || s[|s| - 1] == LF) {
      StripsLineBreaks(s[..|s| - 1]);
    }
  }

  lemma StripNewline(s: string)
    requires Unbroken(s)
    ensures StripLineEnd(s + [LF]) == s
  {
    assert (s + [LF])[..|s|] == s;
    assert s != "" ==> s[|s| - 1] in s;
  }

  predicate Unbroken(s: string) {
    CR !in s && LF !in s
  }

  predicate Clean(s: string) {
    TAB !in s && Unbroken(s)
  }

  predicate AllClean(fields: seq<string>) {
    forall f <- fields :: Clean(f)
  }

  function Washed(c: char): char {
    if c == TAB || c == CR || c == LF then ' ' else c
  }

  /** What a text becomes in a frame. */
  function Sanitise(s: string): (r: string)
    ensures |r| == |s| && forall i :: 0 <= i < |r| ==> r[i] == Washed(s[i])
  {
    seq(|s|, i requires 0 <= i < |s| => Washed(s[i]))
  }

  /** Sanitising puts a space for each tab, CR and LF, makes any text clean and touches no clean one. */
  lemma SanitiseCleans(s: string)
    ensures forall i :: 0 <= i < |s| ==>
              if s[i] == '\t' || s[i] == '\r' || s[i] == '\n' then Sanitise(s)[i] == ' ' else Sanitise(s)[i] == s[i]
    ensures Clean(Sanitise(s)) && (Sanitise(s) == s <==> Clean(s))
    ensures Sanitise(s) == "" <==> s == ""
  {
    if Clean(s) {
      assert forall i :: 0 <= i < |s| ==> s[i] in s;
      assert Sanitise(s) == s;
    }
  }

  /** A joined line is clean of breaks exactly when its fields are clean. */
  lemma LineUnbroken(line: string)
    ensures Unbroken(line) <==> AllClean(Split(line, TAB))
  {
    JoinSplit(line, TAB);
    JoinChars(Split(line, TAB), TAB, CR);
    JoinChars(Split(line, TAB), TAB, LF);
  }

  lemma FieldsSurvive(fields: seq<string>)
    requires |fields| >= 1 && AllClean(fields)
    ensures Unbroken(Join(fields, TAB))
    ensures Split(StripLineEnd(Join(fields, TAB) + [LF]), TAB) == fields
  {
    SplitJoin(fields, TAB);
    LineUnbroken(Join(fields, TAB));
    StripNewline(Join(fields, TAB));
  }

  /* Letter case. */

  function LowerChar(c: char): char {
    if 'A' <= c <= 'Z' then (c as int + 32) as char else c
  }

  function Lower(s: string): (r: string)
    ensures |r| == |s| && forall i :: 0 <= i < |r| ==> r[i] == LowerChar(s[i])
  {
    seq(|s|, i requires 0 <= i < |s| => LowerChar(s[i]))
  }

  lemma LowerKeepsClean(s: string)
    ensures Clean(Lower(s)) <==> Clean(s)
  {
    assert forall c :: LowerChar(c) == TAB <==> c == TAB;
    assert forall i :: 0 <= i < |s| ==> Lower(s)[i] in Lower(s) && s[i] in s;
    assert TAB in s ==> TAB in Lower(s) by { if TAB in s { var i :| 0 <= i < |s| && s[i] == TAB; assert Lower(s)[i] == TAB; } }
    assert CR in s ==> CR in Lower(s) by { if CR in s { var i :| 0 <= i < |s| && s[i] == CR; assert Lower(s)[i] == CR; } }
    assert LF in s ==> LF in Lower(s) by { if LF in s { var i :| 0 <= i < |s| && s[i] == LF; assert Lower(s)[i] == LF; } }
  }
}
