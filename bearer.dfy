/**
 * Bearer-token extraction, written three times in the repository with the same shape:
 * when the lower-cased `authorization` header contains "bearer" anywhere, the token is
 * the element at index 1 of the header split on single spaces.
 */
module Bearer {
  import opened Wrappers
  import opened Text

  /** `authHeader.toLowerCase().includes("bearer")`. */
  predicate MentionsBearer(header: string)
    ensures MentionsBearer(header) ==> |header| >= 6
  {
    Contains(Lower(header), "bearer")
  }

  /** The six characters of `header` at position `i` spell "bearer" in any ASCII case. */
  predicate BearerWordAt(header: string, i: nat)
  {
    i + 6 <= |header| && Lower(header[i..i + 6]) == "bearer"
  }

  /** `authHeader.split(" ")[1]`, as it is: `undefined` when there is no space, "" after two spaces in a row. */
  function SecondPiece(header: string): (r: Option<string>)
    ensures r.None? <==> ' ' !in header
    ensures r.Some? ==> ' ' !in r.value
  {
    SplitIsSingleIff(header, ' ');
    PieceAt(Split(header, ' '), 1)
  }

  /**
   * Reference reading of the second piece, by positions instead of splitting: the text
   * after the first space, up to the next space or the end.
   */
  function TokenSlot(header: string): (r: Option<string>)
    ensures r.Some? ==> ' ' !in r.value
  {
    match IndexOf(header, ' ')
    case None => None
    case Some(i) =>
      var after := header[i + 1..];
      match IndexOf(after, ' ')
      case None => Some(after)
      case Some(j) => Some(after[..j])
  }

  /** Index 1 of the split is exactly the text between the first and the second space. */
  lemma SecondPieceIsTokenSlot(header: string)
    ensures SecondPiece(header) == TokenSlot(header)
  {
    match IndexOf(header, ' ')
    case None =>
      SplitWithoutSeparator(header, ' ');
    case Some(i) =>
      var after := header[i + 1..];
      var pieces := SplitAfterSpace(header, i);
      assert Split(header, ' ')[1] == pieces[0];
      match IndexOf(after, ' ')
      case None =>
        SplitWithoutSeparator(after, ' ');
      case Some(j) =>
        var more := SplitAfterSpace(after, j);
  }

  /** Splitting at the first space, at position `i`: the text before it, then the pieces of what follows. */
  lemma SplitAfterSpace(header: string, i: nat) returns (pieces: seq<string>)
    requires i < |header| && header[i] == ' ' && ' ' !in header[..i]
    ensures pieces == Split(header[i + 1..], ' ')
    ensures Split(header, ' ') == [header[..i]] + pieces
  {
    pieces := Split(header[i + 1..], ' ');
    var tail := header[i..];
    assert header == header[..i] + tail;
    assert tail[1..] == header[i + 1..];
    SplitAfterPiece(header[..i], tail, ' ');
  }

  /**
   * The token the API handlers go on with: `idToken` after extraction, kept only when it is
   * truthy, since `if (idToken)` and `if (!idToken)` treat `undefined` and "" alike.
   */
  function ExtractBearer(header: string): (r: Option<string>)
    ensures r.Some? <==> MentionsBearer(header) && Truthy(TokenSlot(header))
    ensures r.Some? ==> r == TokenSlot(header) && r.value != "" && ' ' !in r.value
    ensures r.Some? <==> MentionsBearer(header) && Truthy(SecondPiece(header))
    ensures r.Some? ==> r == SecondPiece(header)
  {
    SecondPieceIsTokenSlot(header);
    if MentionsBearer(header) && Truthy(SecondPiece(header)) then SecondPiece(header) else None
  }

  /** The lower-cased header contains "bearer" exactly when some window of the header spells it in any case. */
  lemma MentionsBearerIff(header: string)
    ensures MentionsBearer(header) <==> exists i: nat | i <= |header| :: BearerWordAt(header, i)
  {
    if MentionsBearer(header) {
      var i: nat :| i <= |Lower(header)| && OccursAt(Lower(header), "bearer", i);
      assert Lower(header[i..i + 6]) == Lower(header)[i..i + 6];
      assert BearerWordAt(header, i);
    }
    if i: nat :| i <= |header| && BearerWordAt(header, i) {
      assert Lower(header[i..i + 6]) == Lower(header)[i..i + 6];
      assert OccursAt(Lower(header), "bearer", i);
    }
  }

  /** The word counts wherever it stands, in any case: not only as a prefix. */
  lemma MentionsAnywhere(before: string, word: string, after: string)
    requires Lower(word) == "bearer"
    ensures MentionsBearer(before + word + after)
  {
    var h := before + word + after;
    assert h[|before|..|before| + 6] == word;
    assert BearerWordAt(h, |before|);
    MentionsBearerIff(h);
  }

  /** A header shaped `<scheme> <token>` or `<scheme> <token> ...` that mentions bearer yields that token. */
  lemma BearerFromShape(scheme: string, token: string, rest: string)
    requires ' ' !in scheme && ' ' !in token && token != ""
    requires rest == [] || rest[0] == ' '
    requires MentionsBearer(scheme + [' '] + token + rest)
    ensures ExtractBearer(scheme + [' '] + token + rest) == Some(token)
  {
    var h := scheme + [' '] + token + rest;
    var i := |scheme|;
    assert h[..i] == scheme;
    assert h[i] == ' ';
    assert h[i + 1..] == token + rest;
    var pieces := SplitAfterSpace(h, i);
    SplitAfterPiece(token, rest, ' ');
    assert pieces[0] == token;
  }

  /** No space at all (for instance "Bearer" alone): index 1 is `undefined`, so no token. */
  lemma NoSpaceNoToken(header: string)
    requires ' ' !in header
    ensures SecondPiece(header) == None
    ensures ExtractBearer(header) == None
  {
    SplitWithoutSeparator(header, ' ');
  }

  /** Two spaces after the scheme (for instance "Bearer  x"): index 1 is "", so no token. */
  lemma DoubledSpaceNoToken(scheme: string, rest: string)
    requires ' ' !in scheme
    ensures SecondPiece(scheme + [' ', ' '] + rest) == Some("")
    ensures ExtractBearer(scheme + [' ', ' '] + rest) == None
  {
    var h := scheme + [' ', ' '] + rest;
    assert h == scheme + ([' ', ' '] + rest);
    SplitAfterPiece(scheme, [' ', ' '] + rest, ' ');
    assert ([' ', ' '] + rest)[1..] == [] + ([' '] + rest);
    SplitAfterPiece([], [' '] + rest, ' ');
  }
}
