/** The contract's own OPTION clause as it is printed, matched to its last byte. */
module HintClause {
  import opened Options
  import opened HintScan
  import opened HintPrint
  import opened HintTokens

  lemma TokenIn(code: string, i: nat, off: nat, word: string)
    requires At(code, i, HINT) && off + |word| <= |HINT| && HINT[off..off + |word|] == word && Upper(word) == word
    ensures Token(code, i + off, word) == Some(i + off + |word|)
  {
    hide Upper;
    SliceAt(code, i, HINT, off, |word|);
  }

  lemma SliceAt(code: string, i: nat, text: string, off: nat, n: nat)
    requires At(code, i, text) && off + n <= |text|
    ensures i + off + n <= |code| && code[i + off..i + off + n] == text[off..off + n]
  {
    var a, b := code[i + off..i + off + n], text[off..off + n];
    assert text == code[i..i + |text|];
    assert forall k :: 0 <= k < n ==> a[k] == b[k];
  }

  lemma SpaceIn(code: string, i: nat, off: nat)
    requires At(code, i, HINT) && off + 1 < |HINT| && (Space(HINT[off]) ==> !Space(HINT[off + 1]))
    ensures SkipSpace(code, i + off) == if Space(HINT[off]) then i + off + 1 else i + off
    ensures SpaceAt(code, i + off) == Space(HINT[off])
  {
    assert code[i..i + |HINT|][off] == code[i + off] && code[i..i + |HINT|][off + 1] == code[i + off + 1];
    assert Space(HINT[off]) ==> SkipSpace(code, i + off + 1) == i + off + 1;
  }

  lemma TokensMore(code: string, i: nat, words: seq<string>, e: nat)
    requires |words| > 1 && i <= |code| && Token(code, i, words[0]) == Some(e)
    ensures Tokens(code, i, words) == Tokens(code, SkipSpace(code, e), words[1..])
  {}

  /** The clause as it is printed is the contract's own, to its last byte. */
  lemma HintAtHint(code: string, i: nat)
    requires At(code, i, HINT)
    ensures HintAt(code, i) == Some(i + |HINT|) && OptionAt(code, i).Some?
  {
    hide Token, SkipSpace, Tokens, At, SpaceAt;
    HintWords(code, i);
    HintSpaces(code, i);
    var first := ["OPTION", "(", "RECOMPILE", ",", "MAXDOP"];
    TokensMore(code, i, first, i + 6);
    assert first[1..] == ["(", "RECOMPILE", ",", "MAXDOP"];
    TokensMore(code, i + 7, first[1..], i + 8);
    assert first[1..][1..] == ["RECOMPILE", ",", "MAXDOP"];
    TokensMore(code, i + 8, first[1..][1..], i + 17);
    assert first[1..][1..][1..] == [",", "MAXDOP"];
    TokensMore(code, i + 17, first[1..][1..][1..], i + 18);
    assert first[1..][1..][1..][1..] == ["MAXDOP"];
    LastToken(code, i + 19, "MAXDOP", i + 25);
    TokensMore(code, i, ["OPTION", "("], i + 6);
    assert ["OPTION", "("][1..] == ["("];
    LastToken(code, i + 7, "(", i + 8);
    NoUseHint(code, i + 27);
  }

  lemma LastToken(code: string, i: nat, word: string, e: nat)
    requires i <= |code| && Token(code, i, word) == Some(e)
    ensures Tokens(code, i, [word]) == Some(e)
  {}

  lemma NoUseHint(code: string, i: nat)
    requires i + 1 <= |code| && Token(code, i, ",").None?
    ensures UseHintAt(code, i).None?
  {
    hide Token;
    assert [",", "USE"][0] == ",";
  }

  lemma HintWords(code: string, i: nat)
    requires At(code, i, HINT)
    ensures i + 28 <= |code|
    ensures Token(code, i, "OPTION") == Some(i + 6) && Token(code, i + 7, "(") == Some(i + 8)
    ensures Token(code, i + 8, "RECOMPILE") == Some(i + 17) && Token(code, i + 17, ",") == Some(i + 18)
    ensures Token(code, i + 19, "MAXDOP") == Some(i + 25)
    ensures Token(code, i + 26, "1") == Some(i + 27) && Token(code, i + 27, ")") == Some(i + 28)
  {
    hide Token, At;
    OptionIn(code, i);
    RecompileIn(code, i);
    MaxdopIn(code, i);
    LastByte(code, i);
  }

  lemma OptionIn(code: string, i: nat)
    requires At(code, i, HINT)
    ensures i + 28 <= |code| && Token(code, i, "OPTION") == Some(i + 6) && Token(code, i + 7, "(") == Some(i + 8)
  {
    hide Token, At;
    LastByte(code, i);
    assert HINT[0..6] == "OPTION" && HINT[7..8] == "(";
    TokenIn(code, i, 0, "OPTION");
    TokenIn(code, i, 7, "(");
  }

  lemma RecompileIn(code: string, i: nat)
    requires At(code, i, HINT)
    ensures i + 28 <= |code| && Token(code, i + 8, "RECOMPILE") == Some(i + 17)
  {
    hide Token, At;
    LastByte(code, i);
    assert HINT[8..17] == "RECOMPILE";
    TokenIn(code, i, 8, "RECOMPILE");
  }

  lemma MaxdopIn(code: string, i: nat)
    requires At(code, i, HINT)
    ensures i + 28 <= |code| && Token(code, i + 17, ",") == Some(i + 18) && Token(code, i + 19, "MAXDOP") == Some(i + 25)
    ensures Token(code, i + 26, "1") == Some(i + 27) && Token(code, i + 27, ")") == Some(i + 28)
  {
    hide Token, At;
    LastByte(code, i);
    assert HINT[17..18] == "," && HINT[19..25] == "MAXDOP" && HINT[26..27] == "1" && HINT[27..28] == ")";
    TokenIn(code, i, 17, ",");
    TokenIn(code, i, 19, "MAXDOP");
    TokenIn(code, i, 26, "1");
    TokenIn(code, i, 27, ")");
  }

  lemma HintSpaces(code: string, i: nat)
    requires At(code, i, HINT)
    ensures i + 28 <= |code| && SpaceAt(code, i + 25)
    ensures SkipSpace(code, i + 6) == i + 7 && SkipSpace(code, i + 8) == i + 8 && SkipSpace(code, i + 17) == i + 17
    ensures SkipSpace(code, i + 18) == i + 19 && SkipSpace(code, i + 25) == i + 26 && SkipSpace(code, i + 27) == i + 27
    ensures Token(code, i + 27, ",").None?
  {
    hide Token, SkipSpace, At, SpaceAt;
    SpaceIn(code, i, 6);
    SpaceIn(code, i, 8);
    SpaceIn(code, i, 17);
    SpaceIn(code, i, 18);
    SpaceIn(code, i, 25);
    LastByte(code, i);
  }

  lemma LastByte(code: string, i: nat)
    requires At(code, i, HINT)
    ensures i + 28 <= |code| && code[i + 27] == ')'
    ensures SkipSpace(code, i + 27) == i + 27 && Token(code, i + 27, ",").None?
  {
    assert code[i..i + |HINT|][27] == ')';
    assert code[i + 27..i + 28][0] == ')';
  }
}
