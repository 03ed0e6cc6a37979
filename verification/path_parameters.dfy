/** Path matching and the request's parameter map
    (router/path_parameters.go). */
module PathParameters {
  import opened Requests
  import opened GoStrings
  import opened GoStrconv

  // ---------------------------------------------------------------------
  // Pattern parts and path tokens
  // ---------------------------------------------------------------------

  /** shiftPart: splits off the text before the first '/' and returns it with
      the text after that '/'. Its success flag is always true. */
  function ShiftPart(path: string): (r: (bool, string, string))
    ensures r.0
    ensures path == "" ==> r.1 == "" && r.2 == ""
    ensures NoSlash(r.1)
    ensures !NoSlash(path) ==> r.1 + "/" + r.2 == path
    ensures NoSlash(path) ==> r.1 == path && r.2 == ""
  {
    if |path| == 0 then (true, path, path)
    else
      var index := IndexOf(path, '/');
      if index >= 0 then
        AroundFirstSlash(path, index);
        (true, path[..index], path[index + 1..])
      else (true, path, "")
  }

  /** parseVariable: a part of the form `{name}` names a variable. */
  function ParseVariable(part: string): (r: (bool, string))
    ensures r.0 <==> |part| > 1 && part[0] == '{' && part[|part| - 1] == '}'
    ensures r.0 ==> part == "{" + r.1 + "}"
    ensures !r.0 ==> r.1 == ""
  {
    if |part| > 1 && part[..1] == "{" && part[|part| - 1..] == "}" then
      assert part == part[..1] + part[1..|part| - 1] + part[|part| - 1..];
      (true, part[1..|part| - 1])
    else
      assert |part| > 1 && part[0] == '{' ==> part[..1] == "{";
      assert |part| > 1 && part[|part| - 1] == '}' ==> part[|part| - 1..] == "}";
      (false, "")
  }

  /** shiftPart cuts at the FIRST '/': the token is everything before it and
      the rest everything after it. */
  lemma ShiftPartCuts(path: string, i: nat)
    requires i < |path| && path[i] == '/' && NoSlash(path[..i])
    ensures ShiftPart(path) == (true, path[..i], path[i + 1..])
  {
    assert IndexOf(path, '/') == i;
  }

  /** A part written `{name}` names the variable `name`. */
  lemma VariablePart(name: string)
    ensures ParseVariable("{" + name + "}") == (true, name)
  {
    var part := "{" + name + "}";
    var r := ParseVariable(part);
    assert part[1..|part| - 1] == name;
    assert |r.1| == |name|;
    assert r.1 == part[1..|part| - 1];
  }

  /** The outcome of matching a pattern against a path: success, the matched
      path and the variable bindings. */
  datatype Match = Match(ok: bool, matched: string, params: Params)

  // ---------------------------------------------------------------------
  // MatchPath: the loop and the function it is proved against
  // ---------------------------------------------------------------------

  /** No key of `m` is bound to the empty string. */
  predicate NonEmptyValues(m: Params)
  {
    forall k :: k in m ==> m[k] != ""
  }

  /** The matching loop as a function: `parts` are the pattern parts still to
      visit, `remaining` the path not yet shifted, `params` and
      `matchedParts` what the loop has gathered so far. */
  function MatchParts(parts: seq<string>, path: string, remaining: string,
                      params: Params, matchedParts: seq<string>): (r: Match)
    ensures NonEmptyValues(params) ==> NonEmptyValues(r.params)
    decreases |parts|
  {
    if |parts| == 0 then Match(true, Join(matchedParts), params)
    else if parts[0] == "**" then Match(true, path, params)
    else
      var shifted := ShiftPart(remaining);
      var token := shifted.1;
      var variable := ParseVariable(parts[0]);
      if variable.0 then
        if |token| > 0 then
          MatchParts(parts[1..], path, shifted.2, params[variable.1 := token], matchedParts + [token])
        else Match(false, "", params)
      else if token != parts[0] then Match(false, "", map[])
      else MatchParts(parts[1..], path, shifted.2, params, matchedParts + [token])
  }

  /** What MatchPath(pattern, path) returns. */
  function MatchSpec(pattern: string, path: string): (r: Match)
    ensures NonEmptyValues(r.params)
  {
    MatchParts(Split(pattern), path, path, map[], [])
  }

  /** MatchPath: walks the pattern's parts, consuming one path token per
      part. */
  method MatchPath(pattern: string, path: string) returns (ok: bool, matched: string, params: Params)
    ensures Match(ok, matched, params) == MatchSpec(pattern, path)
  {
    params := map[];
    var remaining := path;
    var matchedParts: seq<string> := [];
    var parts := Split(pattern);
    for i := 0 to |parts|
      invariant MatchParts(parts[i..], path, remaining, params, matchedParts) == MatchSpec(pattern, path)
    {
      var part := parts[i];
      assert parts[i..][0] == part && parts[i..][1..] == parts[i + 1..];
      if part == "**" {
        return true, path, params;
      }
      var shifted := ShiftPart(remaining);
      var token := shifted.1;
      remaining := shifted.2;
      var variable := ParseVariable(part);
      if variable.0 {
        if |token| > 0 {
          params := params[variable.1 := token];
        } else {
          return false, "", params;
        }
      } else if token != part {
        return false, "", map[];
      }
      matchedParts := matchedParts + [token];
    }
    return true, Join(matchedParts), params;
  }

  // ---------------------------------------------------------------------
  // An independent description of a match
  // ---------------------------------------------------------------------

  /** The first `n` tokens obtained by shifting `s` repeatedly; once `s` is
      used up, every further token is "". */
  function Tokens(s: string, n: nat): (r: seq<string>)
    ensures |r| == n
    decreases n
  {
    if n == 0 then [] else
      var shifted := ShiftPart(s);
      [shifted.1] + Tokens(shifted.2, n - 1)
  }

  /** A pattern part accepts a token: a variable any non-empty token, a
      literal only itself. */
  predicate PartAccepts(part: string, token: string)
  {
    if ParseVariable(part).0 then token != "" else token == part
  }

  /** Every part accepts the token in the same position. */
  predicate Agree(parts: seq<string>, tokens: seq<string>)
    requires |parts| == |tokens|
  {
    forall i :: 0 <= i < |parts| ==> PartAccepts(parts[i], tokens[i])
  }

  /** `params` extended, left to right, with one binding per variable part. */
  function Bind(params: Params, parts: seq<string>, tokens: seq<string>): Params
    requires |parts| == |tokens|
    decreases |parts|
  {
    if |parts| == 0 then params
    else
      var variable := ParseVariable(parts[0]);
      Bind(if variable.0 then params[variable.1 := tokens[0]] else params, parts[1..], tokens[1..])
  }

  /** Part `i` is the variable `{k}`. */
  predicate BindsAt(parts: seq<string>, i: int, k: string)
  {
    0 <= i < |parts| && ParseVariable(parts[i]).0 && ParseVariable(parts[i]).1 == k
  }

  /** The names of the variable parts. */
  function VariableNames(parts: seq<string>): set<string>
  {
    set i | 0 <= i < |parts| && ParseVariable(parts[i]).0 :: ParseVariable(parts[i]).1
  }

  /** Position of the first "**" part, or the number of parts. */
  function WildcardAt(parts: seq<string>): (k: nat)
    ensures k <= |parts|
    ensures k < |parts| ==> parts[k] == "**"
    ensures forall j :: 0 <= j < k ==> parts[j] != "**"
  {
    if |parts| == 0 then 0
    else if parts[0] == "**" then 0
    else 1 + WildcardAt(parts[1..])
  }

  // ---------------------------------------------------------------------
  // Tokens against strings.Split
  // ---------------------------------------------------------------------

  /** One shift takes off the first piece of the split. */
  lemma SplitShift(s: string)
    ensures Split(s)[0] == ShiftPart(s).1
    ensures IndexOf(s, '/') >= 0 ==> Split(s) == [ShiftPart(s).1] + Split(ShiftPart(s).2)
    ensures IndexOf(s, '/') < 0 ==> Split(s) == [s] && ShiftPart(s).2 == ""
  {
  }

  /** Piece `k`, or "" once the pieces are used up. */
  function PieceAt(pieces: seq<string>, k: nat): string
  {
    if k < |pieces| then pieces[k] else ""
  }

  /** The k-th token is the k-th piece of strings.Split, and "" once the
      pieces are used up. */
  lemma {:induction false} TokenAt(s: string, n: nat, k: nat)
    requires k < n
    ensures Tokens(s, n)[k] == PieceAt(Split(s), k)
    decreases n
  {
    if k > 0 {
      TokenAt(ShiftPart(s).2, n - 1, k - 1);
      TokenAtStep(s, n, k);
    } else {
      TokenAtFirst(s, n);
    }
  }

  lemma TokenAtFirst(s: string, n: nat)
    requires 0 < n
    ensures Tokens(s, n)[0] == PieceAt(Split(s), 0)
  {
    SplitShift(s);
  }

  lemma TokenAtStep(s: string, n: nat, k: nat)
    requires 0 < k < n
    requires Tokens(ShiftPart(s).2, n - 1)[k - 1] == PieceAt(Split(ShiftPart(s).2), k - 1)
    ensures Tokens(s, n)[k] == PieceAt(Split(s), k)
  {
    var rest := ShiftPart(s).2;
    SplitShift(s);
    assert Tokens(s, n)[k] == Tokens(rest, n - 1)[k - 1];
    PiecesShift(Split(s), Split(rest), k);
  }

  /** Dropping the first piece shifts every later one down by one; a path
      without a separator leaves the single empty piece. */
  lemma PiecesShift(pieces: seq<string>, restPieces: seq<string>, k: nat)
    requires 0 < k
    requires || (|pieces| >= 1 && pieces[1..] == restPieces)
             || (|pieces| == 1 && restPieces == [""])
    ensures PieceAt(pieces, k) == PieceAt(restPieces, k - 1)
  {
    if |pieces| >= 1 && pieces[1..] == restPieces && k < |pieces| {
      assert pieces[k] == restPieces[k - 1];
    }
  }

  /** While the path has pieces left, the tokens are its leading pieces. */
  lemma TokensArePieces(s: string, n: nat)
    requires n <= |Split(s)|
    ensures Tokens(s, n) == Split(s)[..n]
  {
    forall k | 0 <= k < n ensures Tokens(s, n)[k] == Split(s)[..n][k] {
      TokenAt(s, n, k);
    }
  }

  // ---------------------------------------------------------------------
  // What a match means
  // ---------------------------------------------------------------------

  lemma AgreeCons(parts: seq<string>, tokens: seq<string>)
    requires |parts| == |tokens| > 0
    ensures Agree(parts, tokens) <==> PartAccepts(parts[0], tokens[0]) && Agree(parts[1..], tokens[1..])
  {
    if PartAccepts(parts[0], tokens[0]) && Agree(parts[1..], tokens[1..]) {
      forall i | 0 <= i < |parts| ensures PartAccepts(parts[i], tokens[i]) {
        if i > 0 { assert parts[1..][i - 1] == parts[i] && tokens[1..][i - 1] == tokens[i]; }
      }
    }
  }

  /** The loop's outcome described without the loop: up to the first "**"
      every part must accept its token; the bindings are one per variable
      part; the matched path is the whole path after a "**" and the joined
      tokens otherwise; a failed match reports "" as its matched path. */
  ghost predicate MatchMeaning(parts: seq<string>, path: string, remaining: string,
                               params: Params, matchedParts: seq<string>)
  {
    var r := MatchParts(parts, path, remaining, params, matchedParts);
    var k := WildcardAt(parts);
    var tokens := Tokens(remaining, k);
    && (r.ok <==> Agree(parts[..k], tokens))
    && (r.ok ==> r.params == Bind(params, parts[..k], tokens))
    && (r.ok && k < |parts| ==> r.matched == path)
    && (r.ok && k == |parts| ==> r.matched == Join(matchedParts + tokens))
    && (!r.ok ==> r.matched == "")
  }

  lemma {:induction false} MatchPartsMeaning(parts: seq<string>, path: string, remaining: string,
                                             params: Params, matchedParts: seq<string>)
    ensures MatchMeaning(parts, path, remaining, params, matchedParts)
    decreases |parts|
  {
    if |parts| == 0 {
      assert matchedParts + [] == matchedParts;
    } else if parts[0] != "**" {
      var shifted := ShiftPart(remaining);
      var token := shifted.1;
      var variable := ParseVariable(parts[0]);
      var params' := if variable.0 then params[variable.1 := token] else params;
      if PartAccepts(parts[0], token) {
        MatchPartsMeaning(parts[1..], path, shifted.2, params', matchedParts + [token]);
      }
      MatchPartsStep(parts, path, remaining, params, matchedParts);
    }
  }

  /** One turn of the loop keeps the description true. */
  lemma MatchPartsStep(parts: seq<string>, path: string, remaining: string,
                       params: Params, matchedParts: seq<string>)
    requires |parts| > 0 && parts[0] != "**"
    requires var shifted := ShiftPart(remaining);
             var variable := ParseVariable(parts[0]);
             PartAccepts(parts[0], shifted.1) ==>
               MatchMeaning(parts[1..], path, shifted.2,
                            if variable.0 then params[variable.1 := shifted.1] else params,
                            matchedParts + [shifted.1])
    ensures MatchMeaning(parts, path, remaining, params, matchedParts)
  {
    if PartAccepts(parts[0], ShiftPart(remaining).1) {
      StepAccepted(parts, path, remaining, params, matchedParts);
    } else {
      StepRejected(parts, path, remaining, params, matchedParts);
    }
  }

  /** The first part accepts its token: the loop goes on with the rest. */
  lemma StepAccepted(parts: seq<string>, path: string, remaining: string,
                     params: Params, matchedParts: seq<string>)
    requires |parts| > 0 && parts[0] != "**"
    requires PartAccepts(parts[0], ShiftPart(remaining).1)
    requires var shifted := ShiftPart(remaining);
             var variable := ParseVariable(parts[0]);
             MatchMeaning(parts[1..], path, shifted.2,
                          if variable.0 then params[variable.1 := shifted.1] else params,
                          matchedParts + [shifted.1])
    ensures MatchMeaning(parts, path, remaining, params, matchedParts)
  {
    var k := WildcardAt(parts);
    var shifted := ShiftPart(remaining);
    var token := shifted.1;
    var variable := ParseVariable(parts[0]);
    var params' := if variable.0 then params[variable.1 := token] else params;
    var tokens := Tokens(remaining, k);
    var rest := Tokens(shifted.2, k - 1);
    var prefix := parts[..k];
    StepShapes(parts, remaining);
    AgreeCons(prefix, tokens);
    BindCons(params, prefix, tokens);
    var r := MatchParts(parts, path, remaining, params, matchedParts);
    assert r == MatchParts(parts[1..], path, shifted.2, params', matchedParts + [token]);
    assert prefix[1..] == parts[1..][..k - 1] && tokens[1..] == rest;
    ConcatAssoc(matchedParts, [token], rest);
    MeaningIntro(parts, path, remaining, params, matchedParts);
  }

  /** The first part rejects its token: the loop stops with no match. */
  lemma StepRejected(parts: seq<string>, path: string, remaining: string,
                     params: Params, matchedParts: seq<string>)
    requires |parts| > 0 && parts[0] != "**"
    requires !PartAccepts(parts[0], ShiftPart(remaining).1)
    ensures MatchMeaning(parts, path, remaining, params, matchedParts)
  {
    var k := WildcardAt(parts);
    var tokens := Tokens(remaining, k);
    StepShapes(parts, remaining);
    AgreeCons(parts[..k], tokens);
    var r := MatchParts(parts, path, remaining, params, matchedParts);
    assert !r.ok && r.matched == "";
    MeaningIntro(parts, path, remaining, params, matchedParts);
  }

  /** MatchMeaning from its five facts. */
  lemma MeaningIntro(parts: seq<string>, path: string, remaining: string,
                     params: Params, matchedParts: seq<string>)
    requires var r := MatchParts(parts, path, remaining, params, matchedParts);
             var k := WildcardAt(parts);
             var tokens := Tokens(remaining, k);
             && (r.ok <==> Agree(parts[..k], tokens))
             && (r.ok ==> r.params == Bind(params, parts[..k], tokens))
             && (r.ok && k < |parts| ==> r.matched == path)
             && (r.ok && k == |parts| ==> r.matched == Join(matchedParts + tokens))
             && (!r.ok ==> r.matched == "")
    ensures MatchMeaning(parts, path, remaining, params, matchedParts)
  {
  }

  /** How the parts up to the first "**" and their tokens split into the
      first one and the rest. */
  lemma StepShapes(parts: seq<string>, remaining: string)
    requires |parts| > 0 && parts[0] != "**"
    ensures var k := WildcardAt(parts);
            var shifted := ShiftPart(remaining);
            && k >= 1 && k - 1 == WildcardAt(parts[1..])
            && Tokens(remaining, k) == [shifted.1] + Tokens(shifted.2, k - 1)
            && parts[..k] == [parts[0]] + parts[1..][..k - 1]
  {
    var k := WildcardAt(parts);
    assert parts[..k] == [parts[0]] + parts[1..][..k - 1];
  }

  /** Bind takes the first part first. */
  lemma BindCons(params: Params, parts: seq<string>, tokens: seq<string>)
    requires |parts| == |tokens| > 0
    ensures var variable := ParseVariable(parts[0]);
            Bind(params, parts, tokens)
              == Bind(if variable.0 then params[variable.1 := tokens[0]] else params, parts[1..], tokens[1..])
  {
  }

  /** MatchPath's result, described without the loop: up to the first "**"
      every part must accept its token; the bindings are one per variable
      part; the matched path is the whole path after a "**" and the joined
      tokens otherwise; a failed match reports "" as its matched path. */
  lemma MatchPathMeaning(pattern: string, path: string)
    ensures var parts := Split(pattern);
            var k := WildcardAt(parts);
            var tokens := Tokens(path, k);
            var r := MatchSpec(pattern, path);
            && (r.ok <==> Agree(parts[..k], tokens))
            && (r.ok ==> r.params == Bind(map[], parts[..k], tokens))
            && (r.ok && k < |parts| ==> r.matched == path)
            && (r.ok && k == |parts| ==> r.matched == Join(tokens))
            && (!r.ok ==> r.matched == "")
  {
    MatchPartsMeaning(Split(pattern), path, path, map[], []);
    assert MatchMeaning(Split(pattern), path, path, map[], []);
    assert [] + Tokens(path, WildcardAt(Split(pattern))) == Tokens(path, WildcardAt(Split(pattern)));
  }

  /** The bindings: one key per variable part (beside the keys already
      there), and each key holds the token of the LAST part that names it. */
  lemma BindMeaning(params: Params, parts: seq<string>, tokens: seq<string>)
    requires |parts| == |tokens|
    ensures Bind(params, parts, tokens).Keys == params.Keys + VariableNames(parts)
    ensures forall i, key :: BindsAt(parts, i, key) && (forall j :: i < j < |parts| ==> !BindsAt(parts, j, key))
              ==> Bind(params, parts, tokens)[key] == tokens[i]
    ensures forall key :: key in params && key !in VariableNames(parts)
              ==> Bind(params, parts, tokens)[key] == params[key]
  {
    BindKeys(params, parts, tokens);
    BindKeeps(params, parts, tokens);
    BindLast(params, parts, tokens);
  }

  lemma {:induction false} BindKeys(params: Params, parts: seq<string>, tokens: seq<string>)
    requires |parts| == |tokens|
    ensures Bind(params, parts, tokens).Keys == params.Keys + VariableNames(parts)
    decreases |parts|
  {
    if |parts| > 0 {
      var variable := ParseVariable(parts[0]);
      var params' := if variable.0 then params[variable.1 := tokens[0]] else params;
      BindCons(params, parts, tokens);
      BindKeys(params', parts[1..], tokens[1..]);
      VariableNamesTail(parts);
    }
  }

  lemma {:induction false} BindKeeps(params: Params, parts: seq<string>, tokens: seq<string>)
    requires |parts| == |tokens|
    ensures forall key :: key in params && key !in VariableNames(parts)
              ==> key in Bind(params, parts, tokens) && Bind(params, parts, tokens)[key] == params[key]
    decreases |parts|
  {
    BindKeys(params, parts, tokens);
    if |parts| > 0 {
      var variable := ParseVariable(parts[0]);
      var params' := if variable.0 then params[variable.1 := tokens[0]] else params;
      BindCons(params, parts, tokens);
      BindKeeps(params', parts[1..], tokens[1..]);
      VariableNamesTail(parts);
    }
  }

  lemma {:induction false} BindLast(params: Params, parts: seq<string>, tokens: seq<string>)
    requires |parts| == |tokens|
    ensures forall i, key :: BindsAt(parts, i, key) && (forall j :: i < j < |parts| ==> !BindsAt(parts, j, key))
              ==> key in Bind(params, parts, tokens) && Bind(params, parts, tokens)[key] == tokens[i]
    decreases |parts|
  {
    BindKeys(params, parts, tokens);
    if |parts| > 0 {
      var variable := ParseVariable(parts[0]);
      var params' := if variable.0 then params[variable.1 := tokens[0]] else params;
      var tail := parts[1..];
      BindCons(params, parts, tokens);
      BindLast(params', tail, tokens[1..]);
      BindKeeps(params', tail, tokens[1..]);
      forall i, key | BindsAt(parts, i, key) && (forall j :: i < j < |parts| ==> !BindsAt(parts, j, key))
        ensures key in Bind(params', tail, tokens[1..]) && Bind(params', tail, tokens[1..])[key] == tokens[i]
      {
        if i > 0 {
          assert BindsAt(tail, i - 1, key);
          forall j | i - 1 < j < |tail| ensures !BindsAt(tail, j, key) {
            assert !BindsAt(parts, j + 1, key);
          }
        } else {
          LastBinding(parts, key);
        }
      }
    }
  }

  /** A variable part that no later part names again is not among the names
      of the rest. */
  lemma LastBinding(parts: seq<string>, key: string)
    requires BindsAt(parts, 0, key) && forall j :: 0 < j < |parts| ==> !BindsAt(parts, j, key)
    ensures key !in VariableNames(parts[1..])
  {
    if key in VariableNames(parts[1..]) {
      var j :| 0 <= j < |parts[1..]| && ParseVariable(parts[1..][j]).0 && ParseVariable(parts[1..][j]).1 == key;
      assert BindsAt(parts, j + 1, key);
    }
  }

  lemma VariableNamesTail(parts: seq<string>)
    requires |parts| > 0
    ensures VariableNames(parts) == VariableNames(parts[1..]) + (if ParseVariable(parts[0]).0 then {ParseVariable(parts[0]).1} else {})
  {
    var tail := parts[1..];
    forall key | key in VariableNames(tail) ensures key in VariableNames(parts) {
      var i :| 0 <= i < |tail| && ParseVariable(tail[i]).0 && ParseVariable(tail[i]).1 == key;
      assert parts[i + 1] == tail[i];
    }
    forall key | key in VariableNames(parts)
      ensures key in VariableNames(tail) || (ParseVariable(parts[0]).0 && key == ParseVariable(parts[0]).1)
    {
      var i :| 0 <= i < |parts| && ParseVariable(parts[i]).0 && ParseVariable(parts[i]).1 == key;
      if i > 0 { assert tail[i - 1] == parts[i]; }
    }
  }

  /** Whatever the outcome, the loop only ever binds variable names, and
      only to non-empty tokens. */
  lemma {:induction false} MatchPartsParams(parts: seq<string>, path: string, remaining: string,
                                            params: Params, matchedParts: seq<string>)
    requires forall key :: key in params ==> params[key] != ""
    ensures var r := MatchParts(parts, path, remaining, params, matchedParts);
            && r.params.Keys <= params.Keys + VariableNames(parts)
            && forall key :: key in r.params ==> r.params[key] != ""
    decreases |parts|
  {
    if |parts| > 0 && parts[0] != "**" {
      VariableNamesTail(parts);
      var shifted := ShiftPart(remaining);
      var variable := ParseVariable(parts[0]);
      if variable.0 && |shifted.1| > 0 {
        MatchPartsParams(parts[1..], path, shifted.2, params[variable.1 := shifted.1], matchedParts + [shifted.1]);
      } else if !variable.0 && shifted.1 == parts[0] {
        MatchPartsParams(parts[1..], path, shifted.2, params, matchedParts + [shifted.1]);
      }
    }
  }

  /** A variable never binds an empty value, and a pattern without variables
      yields no bindings, whether the match succeeds or fails. */
  lemma MatchPathParams(pattern: string, path: string)
    ensures var r := MatchSpec(pattern, path);
            && r.params.Keys <= VariableNames(Split(pattern))
            && (forall key :: key in r.params ==> r.params[key] != "")
            && (VariableNames(Split(pattern)) == {} ==> r.params == map[])
  {
    MatchPartsParams(Split(pattern), path, path, map[], []);
  }

  /** A successful match binds exactly the variables before the first "**",
      each to the token of the last part that names it. */
  lemma MatchPathBindings(pattern: string, path: string)
    requires MatchSpec(pattern, path).ok
    ensures var parts := Split(pattern)[..WildcardAt(Split(pattern))];
            var tokens := Tokens(path, |parts|);
            var r := MatchSpec(pattern, path);
            && r.params.Keys == VariableNames(parts)
            && forall i, key :: BindsAt(parts, i, key) && (forall j :: i < j < |parts| ==> !BindsAt(parts, j, key))
                 ==> r.params[key] == tokens[i]
  {
    var parts := Split(pattern)[..WildcardAt(Split(pattern))];
    MatchPathMeaning(pattern, path);
    BindMeaning(map[], parts, Tokens(path, |parts|));
  }

  /** A variable part facing an empty token makes the whole match fail. */
  lemma VariableNeedsValue(pattern: string, path: string, i: nat)
    requires var parts := Split(pattern);
             i < WildcardAt(parts) && ParseVariable(parts[i]).0 && Tokens(path, WildcardAt(parts))[i] == ""
    ensures !MatchSpec(pattern, path).ok && MatchSpec(pattern, path).matched == ""
  {
    MatchPathMeaning(pattern, path);
    var parts := Split(pattern);
    assert !PartAccepts(parts[..WildcardAt(parts)][i], Tokens(path, WildcardAt(parts))[i]);
  }

  /** A literal part facing a different token makes the whole match fail. */
  lemma LiteralMustEqual(pattern: string, path: string, i: nat)
    requires var parts := Split(pattern);
             i < WildcardAt(parts) && !ParseVariable(parts[i]).0 && Tokens(path, WildcardAt(parts))[i] != parts[i]
    ensures !MatchSpec(pattern, path).ok && MatchSpec(pattern, path).matched == ""
  {
    MatchPathMeaning(pattern, path);
    var parts := Split(pattern);
    assert !PartAccepts(parts[..WildcardAt(parts)][i], Tokens(path, WildcardAt(parts))[i]);
  }

  /** Without "**", and when the path has at least as many pieces as the
      pattern has parts, the matched path is a leading part of the path that
      ends at the path's end or at a '/'. (Without the second condition it
      need not be a prefix: see NotAPrefix.) */
  lemma MatchedIsPrefix(pattern: string, path: string)
    requires MatchSpec(pattern, path).ok
    requires WildcardAt(Split(pattern)) == |Split(pattern)|
    requires |Split(pattern)| <= |Split(path)|
    ensures var m := MatchSpec(pattern, path).matched;
            m <= path && (|m| == |path| || path[|m|] == '/')
  {
    var n := |Split(pattern)|;
    MatchPathMeaning(pattern, path);
    assert Split(pattern)[..n] == Split(pattern);
    TokensArePieces(path, n);
    JoinSplitPrefix(path, n);
  }

  /** A pattern without "**" against a path made of as many pieces as the
      pattern has parts, possibly followed by more text after a '/': the
      match succeeds exactly when every part accepts the piece in the same
      position, and then the matched path is those pieces joined (the rest
      is left over) and the bindings are one per variable part. */
  lemma MatchLeadingPieces(pattern: string, parts: seq<string>, tokens: seq<string>, rest: string)
    requires |parts| >= 1 && Join(parts) == pattern
    requires forall i :: 0 <= i < |parts| ==> NoSlash(parts[i]) && parts[i] != "**"
    requires |tokens| == |parts| && forall i :: 0 <= i < |tokens| ==> NoSlash(tokens[i])
    requires rest == "" || rest[0] == '/'
    ensures var r := MatchSpec(pattern, Join(tokens) + rest);
            && (r.ok <==> Agree(parts, tokens))
            && (r.ok ==> r.matched == Join(tokens) && r.params == Bind(map[], parts, tokens))
  {
    var path := Join(tokens) + rest;
    var k := |parts|;
    SplitJoin(parts);
    SplitJoin(tokens);
    if rest != "" {
      SplitConcat(Join(tokens), rest);
    } else {
      assert path == Join(tokens);
    }
    assert Split(path)[..k] == tokens;
    assert WildcardAt(parts) == k && parts[..k] == parts;
    TokensArePieces(path, k);
    MatchPathMeaning(pattern, path);
  }

  /** Pattern parts after the first "**" are never looked at. */
  lemma {:induction false} WildcardIgnoresRest(before: seq<string>, after1: seq<string>, after2: seq<string>,
                                               path: string, remaining: string, params: Params, matchedParts: seq<string>)
    requires forall j :: 0 <= j < |before| ==> before[j] != "**"
    ensures MatchParts(before + ["**"] + after1, path, remaining, params, matchedParts)
         == MatchParts(before + ["**"] + after2, path, remaining, params, matchedParts)
    decreases |before|
  {
    var p1, p2 := before + ["**"] + after1, before + ["**"] + after2;
    if |before| > 0 {
      assert p1[0] == p2[0] == before[0];
      assert p1[1..] == before[1..] + ["**"] + after1;
      assert p2[1..] == before[1..] + ["**"] + after2;
      var shifted := ShiftPart(remaining);
      var variable := ParseVariable(before[0]);
      WildcardIgnoresRest(before[1..], after1, after2, path, shifted.2,
                          if variable.0 then params[variable.1 := shifted.1] else params, matchedParts + [shifted.1]);
    }
  }

  /** The empty pattern (the one Filter registers) has the single part "":
      it matches exactly when the path is empty or starts with '/', and it
      consumes nothing. */
  lemma EmptyPatternMatch(path: string)
    ensures MatchSpec("", path) == Match(path == "" || path[0] == '/', "", map[])
  {
    assert Split("") == [""];
    var token := ShiftPart(path).1;
    if path != "" && path[0] != '/' {
      var i := IndexOf(path, '/');
      assert token == (if i >= 0 then path[..i] else path);
      assert i != 0 && token != "";
    }
    assert Join([""]) == "";
  }

  /** The catch-all pattern (a "**" part after a leading '/') matches every path that is empty or starts
      with '/', reports the whole path as matched and binds nothing. */
  lemma CatchAllPatternMatch(path: string)
    ensures var ok := path == "" || path[0] == '/';
            MatchSpec("/**", path) == Match(ok, if ok then path else "", map[])
  {
    var parts := ["", "**"];
    assert Join(parts) == "/**";
    SplitJoin(parts);
    var shifted := ShiftPart(path);
    if path != "" && path[0] != '/' {
      var i := IndexOf(path, '/');
      assert shifted.1 == (if i >= 0 then path[..i] else path);
      assert i != 0 && shifted.1 != "";
    }
    assert parts[1..] == ["**"];
  }

  /** Exhausted input keeps yielding "" tokens, so pattern "/a/" matches path
      "/a" with matched path "/a/", which is longer than the path. */
  lemma NotAPrefix()
    ensures MatchSpec("/a/", "/a") == Match(true, "/a/", map[])
    ensures !(MatchSpec("/a/", "/a").matched <= "/a")
  {
    var parts := ["", "a", ""];
    SlashAPieces();
    MatchPathMeaning("/a/", "/a");
    assert WildcardAt(parts) == 3 && parts[..3] == parts;
    SlashATokens();
    SlashABinds();
  }

  lemma SlashAPieces()
    ensures Split("/a/") == ["", "a", ""] && Join(["", "a", ""]) == "/a/"
  {
    var parts := ["", "a", ""];
    assert Join(parts) == "/a/";
    SplitJoin(parts);
  }

  lemma SlashATokens()
    ensures Tokens("/a", 3) == ["", "a", ""]
  {
    assert Join(["", "a"]) == "/a";
    SplitJoin(["", "a"]);
    TokenAt("/a", 3, 0);
    TokenAt("/a", 3, 1);
    TokenAt("/a", 3, 2);
  }

  lemma SlashABinds()
    ensures var parts := ["", "a", ""];
            Agree(parts, parts) && Bind(map[], parts, parts) == map[]
  {
    var parts := ["", "a", ""];
    assert !ParseVariable(parts[0]).0 && !ParseVariable(parts[1]).0 && !ParseVariable(parts[2]).0;
    assert Bind(map[], parts, parts) == map[];
  }

  // ---------------------------------------------------------------------
  // The parameter map attached to a request
  // ---------------------------------------------------------------------

  /** The map object a request carries once the router attached one. The
      router's merge updates it in place, so every holder of the same object
      sees the update. */
  class ParamMap {
    var entries: Params

    constructor (entries: Params)
      ensures this.entries == entries
    {
      this.entries := entries;
    }
  }

  /** The content of the map a request carries, None when none is attached. */
  function StoreOf(attached: ParamMap?): Option<Params>
    reads attached
  {
    if attached == null then None else Some(attached.entries)
  }

  /** `params` merged over what is stored: every new key holds its new value,
      every other stored key keeps its value, nothing else is added. */
  function Merged(store: Option<Params>, params: Params): (r: Params)
    ensures r.Keys == params.Keys + (if store.Some? then store.value.Keys else {})
    ensures forall k :: k in params ==> r[k] == params[k]
    ensures store.Some? ==> forall k :: k in store.value && k !in params ==> r[k] == store.value[k]
  {
    (if store.Some? then store.value else map[]) + params
  }

  /** JoinStringParameters: copies `params` into the attached map in place,
      or into a new map when none is attached, and returns that map. */
  method JoinStringParameters(attached: ParamMap?, params: Params) returns (joined: ParamMap)
    modifies attached
    ensures attached != null ==> joined == attached
    ensures attached == null ==> fresh(joined)
    ensures joined.entries == Merged(old(StoreOf(attached)), params)
  {
    if attached == null {
      joined := new ParamMap(map[]);
    } else {
      joined := attached;
    }
    ghost var base := if attached == null then map[] else old(attached.entries);
    var pending := params.Keys;
    while pending != {}
      invariant pending <= params.Keys
      invariant joined.entries == base + map k | k in params.Keys - pending :: params[k]
      decreases pending
    {
      var k :| k in pending;
      joined.entries := joined.entries[k := params[k]];
      pending := pending - {k};
    }
    assert (map k | k in params.Keys - {} :: params[k]) == params;
  }

  /** ReadParameters: the attached map, or an empty one. */
  function ReadParameters(attached: ParamMap?): (r: Params)
    reads attached
    ensures attached == null ==> r == map[]
    ensures attached != null ==> r == attached.entries
  {
    if attached == null then map[] else attached.entries
  }

  /** ReadIntParameter: (true, n) when `name` is bound to a decimal integer
      `n`, (false, 0) when it is missing or not an integer. */
  function ReadIntParameter(attached: ParamMap, name: string): (r: (bool, int))
    reads attached
    ensures r.0 <==> name in attached.entries && Atoi(attached.entries[name]).Some?
    ensures r.0 ==> r.1 == Atoi(attached.entries[name]).value
    ensures !r.0 ==> r.1 == 0
  {
    if name !in attached.entries then (false, 0)
    else
      var value := Atoi(attached.entries[name]);
      if value.None? then (false, 0) else (true, value.value)
  }

  /** ReadStringParameter with the parameter's validation given as a
      predicate: the bound value ("" when missing), and whether it is present
      and valid. */
  function ReadStringParameter(attached: ParamMap, name: string, valid: string -> bool): (r: (bool, string))
    reads attached
    ensures r.0 <==> name in attached.entries && valid(attached.entries[name])
    ensures r.1 == if name in attached.entries then attached.entries[name] else ""
  {
    if name !in attached.entries then (false, "")
    else if !valid(attached.entries[name]) then (false, attached.entries[name])
    else (true, attached.entries[name])
  }
}
