/** The parts of Go's `strings` package the router relies on, with the
    semantics Go gives them (strings are modelled as character sequences). */
module GoStrings {

  /** No '/' occurs in `t`. */
  predicate NoSlash(t: string)
  {
    forall j :: 0 <= j < |t| ==> t[j] != '/'
  }

  /** strings.Index(s, "/"): the first position of a '/', or -1. */
  function IndexOf(s: string, c: char): (r: int)
    ensures -1 <= r < |s|
    ensures r == -1 ==> forall j :: 0 <= j < |s| ==> s[j] != c
    ensures 0 <= r ==> s[r] == c && forall j :: 0 <= j < r ==> s[j] != c
  {
    if |s| == 0 then -1
    else if s[0] == c then 0
    else
      var k := IndexOf(s[1..], c);
      if k < 0 then -1 else k + 1
  }

  /** `sub` occurs in `s` at position `j`. */
  predicate OccursAt(s: string, sub: string, j: int)
  {
    0 <= j <= |s| - |sub| && s[j..j + |sub|] == sub
  }

  /** Cutting `s` around one of its separators. */
  lemma AroundSlash(s: string, i: int)
    requires 0 <= i < |s| && s[i] == '/'
    ensures s[..i] + "/" + s[i + 1..] == s
  {
  }

  /** Cutting `s` around its first separator: no separator before it. */
  lemma AroundFirstSlash(s: string, i: int)
    requires i == IndexOf(s, '/') && i >= 0
    ensures s[..i] + "/" + s[i + 1..] == s
    ensures NoSlash(s[..i]) && !NoSlash(s)
  {
    AroundSlash(s, i);
    assert s[i] == '/';
  }

  /** strings.Index(s, sub): the first position where `sub` occurs, or -1.
      The empty string occurs at position 0. */
  function Index(s: string, sub: string): (r: int)
    ensures r == -1 || OccursAt(s, sub, r)
    ensures forall j :: 0 <= j && (r == -1 || j < r) ==> !OccursAt(s, sub, j)
    decreases |s|
  {
    if |s| < |sub| then -1
    else if s[..|sub|] == sub then 0
    else
      var k := Index(s[1..], sub);
      assert forall j :: 1 <= j ==> OccursAt(s, sub, j) == OccursAt(s[1..], sub, j - 1);
      if k < 0 then -1 else k + 1
  }

  /** strings.Replace(s, sub, "", 1): removes the first occurrence of `sub`,
      wherever it is; an empty `sub` leaves `s` as it is. */
  function RemoveFirst(s: string, sub: string): (r: string)
    ensures Index(s, sub) < 0 ==> r == s
    ensures 0 <= Index(s, sub) ==> |r| == |s| - |sub|
    ensures 0 <= Index(s, sub) ==> s == r[..Index(s, sub)] + sub + r[Index(s, sub)..]
  {
    var k := Index(s, sub);
    if k < 0 then s else s[..k] + s[k + |sub|..]
  }

  /** When `p` is a prefix of `s`, removing its first occurrence strips it. */
  lemma RemoveFirstPrefix(s: string, p: string)
    requires p <= s
    ensures RemoveFirst(s, p) == s[|p|..]
  {
    assert s[0..|p|] == p;
  }

  /** Removing the empty string leaves `s` as it is (the root router's
      prefix is empty). */
  lemma RemoveFirstEmpty(s: string)
    ensures RemoveFirst(s, "") == s
  {
    assert s[0..0] == "";
    assert Index(s, "") == 0;
  }

  /** Concatenation is associative; used for strings and for lists of
      pieces alike. */
  lemma ConcatAssoc<T>(a: seq<T>, b: seq<T>, c: seq<T>)
    ensures a + b + c == a + (b + c)
  {
  }

  /** strings.Split(s, "/"): the pieces between the separators; at least one
      piece, even for the empty string. */
  function Split(s: string): (r: seq<string>)
    ensures |r| >= 1
    ensures forall i :: 0 <= i < |r| ==> NoSlash(r[i])
    decreases |s|
  {
    var i := IndexOf(s, '/');
    if i < 0 then [s] else [s[..i]] + Split(s[i + 1..])
  }

  /** strings.Join(parts, "/"). */
  function Join(parts: seq<string>): (r: string)
    ensures |r| + 1 >= |parts|
  {
    if |parts| == 0 then ""
    else if |parts| == 1 then parts[0]
    else parts[0] + "/" + Join(parts[1..])
  }

  /** A join starts with its first piece, followed by a separator when more
      pieces come. */
  lemma JoinFirstPiece(parts: seq<string>)
    requires |parts| >= 1
    ensures parts[0] <= Join(parts)
    ensures |parts| >= 2 ==> |parts[0]| < |Join(parts)| && Join(parts)[|parts[0]|] == '/'
  {
    if |parts| >= 2 {
      JoinedBeforeSlash(Join(parts), parts[0], Join(parts[1..]));
    }
  }

  /** Joining the pieces of a split gives back the string. */
  lemma {:induction false} JoinSplit(s: string)
    ensures Join(Split(s)) == s
    decreases |s|
  {
    var i := IndexOf(s, '/');
    if i >= 0 {
      JoinSplit(s[i + 1..]);
      JoinSplitStep(s, i);
    }
  }

  lemma JoinSplitStep(s: string, i: int)
    requires i == IndexOf(s, '/') && i >= 0
    requires Join(Split(s[i + 1..])) == s[i + 1..]
    ensures Join(Split(s)) == s
  {
    var tail := Split(s[i + 1..]);
    SplitFirst(s, i);
    JoinCons(s[..i], tail);
    AroundSlash(s, i);
  }

  /** Joining a piece in front of a non-empty list of pieces. */
  lemma JoinCons(piece: string, parts: seq<string>)
    requires |parts| >= 1
    ensures Join([piece] + parts) == piece + "/" + Join(parts)
  {
    assert ([piece] + parts)[1..] == parts;
  }

  /** Splitting a join of slash-free pieces gives back the pieces. */
  lemma {:induction false} SplitJoin(parts: seq<string>)
    requires |parts| >= 1
    requires forall i :: 0 <= i < |parts| ==> NoSlash(parts[i])
    ensures Split(Join(parts)) == parts
  {
    if |parts| > 1 {
      SplitJoin(parts[1..]);
      var s := Join(parts);
      assert s == parts[0] + "/" + Join(parts[1..]);
      assert s[|parts[0]|] == '/';
      assert s[..|parts[0]|] == parts[0];
      assert IndexOf(s, '/') == |parts[0]|;
      assert s[|parts[0]| + 1..] == Join(parts[1..]);
    } else {
      assert Join(parts) == parts[0];
    }
  }

  /** Joining two non-empty lists of pieces one after the other puts one
      separator between them. */
  lemma {:induction false} JoinAppend(x: seq<string>, y: seq<string>)
    requires |x| >= 1 && |y| >= 1
    ensures Join(x + y) == Join(x) + "/" + Join(y)
  {
    if |x| > 1 {
      JoinAppend(x[1..], y);
      assert (x + y)[1..] == x[1..] + y;
    } else {
      assert (x + y)[1..] == y;
    }
  }

  /** Splitting a string that continues with a separator: the pieces of the
      part before it, then the pieces of the part after it. */
  lemma SplitConcat(a: string, b: string)
    requires |b| > 0 && b[0] == '/'
    ensures Split(a + b) == Split(a) + Split(b[1..])
  {
    var x, y := Split(a), Split(b[1..]);
    JoinSplit(a);
    JoinSplit(b[1..]);
    JoinAppend(x, y);
    assert a + b == Join(x) + "/" + Join(y);
    SplitJoin(x + y);
  }

  /** A join of a prefix of the pieces is a prefix of the string, and it ends
      either at the end of the string or just before a separator. */
  lemma JoinSplitPrefix(s: string, n: nat)
    requires 1 <= n <= |Split(s)|
    ensures Join(Split(s)[..n]) <= s
    ensures |Join(Split(s)[..n])| == |s| || s[|Join(Split(s)[..n])|] == '/'
  {
    var parts := Split(s);
    JoinSplit(s);
    if n == |parts| {
      assert parts[..n] == parts;
    } else {
      assert parts == parts[..n] + parts[n..];
      JoinAppend(parts[..n], parts[n..]);
      JoinedBeforeSlash(s, Join(parts[..n]), Join(parts[n..]));
    }
  }

  /** The text before a separator is a leading part of the whole. */
  lemma JoinedBeforeSlash(s: string, before: string, after: string)
    requires s == before + "/" + after
    ensures before <= s && s[|before|] == '/'
  {
  }

  /** Split cuts at the first separator. */
  lemma SplitFirst(s: string, i: int)
    requires i == IndexOf(s, '/') && i >= 0
    ensures Split(s) == [s[..i]] + Split(s[i + 1..])
  {
  }

}
