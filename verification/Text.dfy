/** Trimming white space off the identifiers that come in from outside and from storage. */
module Text {

  predicate IsSpace(c: char) {
    || '\U{9}' <= c <= '\U{D}' || c == ' ' || c == '\U{85}' || c == '\U{A0}'
    || c == '\U{1680}' || '\U{2000}' <= c <= '\U{200A}' || c == '\U{2028}' || c == '\U{2029}'
    || c == '\U{202F}' || c == '\U{205F}' || c == '\U{3000}'
  }

  function TrimLeft(s: string): string {
    if s != "" && IsSpace(s[0]) then TrimLeft(s[1..]) else s
  }

  function TrimRight(s: string): string {
    if s != "" && IsSpace(s[|s| - 1]) then TrimRight(s[..|s| - 1]) else s
  }

  function Trim(s: string): string {
    TrimRight(TrimLeft(s))
  }

  predicate Trimmed(s: string) {
    s == "" || (!IsSpace(s[0]) && !IsSpace(s[|s| - 1]))
  }

  lemma {:induction false} TrimLeftEnds(s: string)
    ensures TrimLeft(s) == "" || !IsSpace(TrimLeft(s)[0])
  {
    if s != "" && IsSpace(s[0]) { TrimLeftEnds(s[1..]); }
  }

  lemma {:induction false} TrimRightEnds(s: string)
    ensures TrimRight(s) == "" || !IsSpace(TrimRight(s)[|TrimRight(s)| - 1])
    ensures TrimRight(s) != "" ==> TrimRight(s)[0] == s[0]
  {
    if s != "" && IsSpace(s[|s| - 1]) { TrimRightEnds(s[..|s| - 1]); }
  }

  /** Trimming yields a trimmed string and leaves trimmed strings alone, so an identifier that
      was trimmed once survives any number of trips through storage. */
  lemma TrimSettles(s: string)
    ensures Trimmed(Trim(s))
    ensures Trimmed(s) ==> Trim(s) == s
  {
    TrimLeftEnds(s);
    TrimRightEnds(TrimLeft(s));
  }

  ghost predicate Blank(s: string) {
    forall i :: 0 <= i < |s| ==> IsSpace(s[i])
  }

  /** Every character that counts as white space, one by one. */
  const SPACES: set<char> := {
    '\t', '\n', '\U{B}', '\U{C}', '\r', ' ', '\U{85}', '\U{A0}', '\U{1680}',
    '\U{2000}', '\U{2001}', '\U{2002}', '\U{2003}', '\U{2004}', '\U{2005}', '\U{2006}', '\U{2007}',
    '\U{2008}', '\U{2009}', '\U{200A}', '\U{2028}', '\U{2029}', '\U{202F}', '\U{205F}', '\U{3000}'}

  lemma SpacesListed(c: char)
    ensures IsSpace(c) <==> c in SPACES
  {
  }

  lemma {:induction false} TrimLeftCuts(s: string) returns (a: string)
    ensures s == a + TrimLeft(s) && Blank(a)
  {
    if s != "" && IsSpace(s[0]) {
      var rest := TrimLeftCuts(s[1..]);
      a := [s[0]] + rest;
    } else {
      a := "";
    }
  }

  lemma {:induction false} TrimRightCuts(s: string) returns (b: string)
    ensures s == TrimRight(s) + b && Blank(b)
  {
    if s != "" && IsSpace(s[|s| - 1]) {
      var rest := TrimRightCuts(s[..|s| - 1]);
      b := rest + [s[|s| - 1]];
    } else {
      b := "";
    }
  }

  /** Only white space is cut off, and only at the ends. */
  lemma TrimCutsTheEnds(s: string) returns (a: string, b: string)
    ensures s == a + Trim(s) + b && Blank(a) && Blank(b)
  {
    a := TrimLeftCuts(s);
    b := TrimRightCuts(TrimLeft(s));
  }

  lemma CoreAt(s: string, a: string, t: string, b: string)
    requires s == a + t + b && Blank(a) && Blank(b) && Trimmed(t)
    ensures forall i :: 0 <= i < |a| || |a| + |t| <= i < |s| ==> IsSpace(s[i])
    ensures t != "" ==> !IsSpace(s[|a|]) && !IsSpace(s[|a| + |t| - 1])
    ensures t == s[|a|..|a| + |t|]
  {
    hide IsSpace;
    forall i | |a| + |t| <= i < |s| ensures IsSpace(s[i]) {
      assert s[i] == b[i - |a| - |t|];
    }
  }

  /** A text has only one core: whatever is left between two blank ends and has no blank end of its
      own. */
  lemma OneCore(s: string, a: string, t: string, b: string, c: string, u: string, d: string)
    requires s == a + t + b && s == c + u + d && Blank(a) && Blank(b) && Blank(c) && Blank(d)
    requires Trimmed(t) && Trimmed(u)
    ensures t == u
  {
    hide IsSpace;
    CoreAt(s, a, t, b);
    CoreAt(s, c, u, d);
    assert t == "" <==> u == "";
    assert t != "" ==> |a| == |c| && |a| + |t| == |c| + |u|;
  }

  /** So trimming gives exactly the core, and nothing exactly for blank text. */
  lemma TrimIsTheCore(a: string, t: string, b: string)
    requires Blank(a) && Blank(b) && Trimmed(t)
    ensures Trim(a + t + b) == t
  {
    var s := a + t + b;
    var c, d := TrimCutsTheEnds(s);
    TrimSettles(s);
    OneCore(s, a, t, b, c, Trim(s), d);
  }

  lemma BlankIsNothing(s: string)
    ensures Trim(s) == "" <==> Blank(s)
  {
    var a, b := TrimCutsTheEnds(s);
    if Blank(s) {
      assert s + "" + "" == s;
      TrimIsTheCore(s, "", "");
    }
    assert Trim(s) == "" ==> s == a + b;
  }
}
