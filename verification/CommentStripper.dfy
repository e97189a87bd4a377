/**
 * The build tool that removes C and C++ comments: the character loop against a
 * tokenizer, and what removing the comment tokens does to the text.
 */
module CommentStripper {

  const QUOTE: char := '\"'
  const APOSTROPHE: char := '\''
  const BACKSLASH: char := '\\'

  // ------------------------------------------------------------- the tokens

  /** A line comment ends before its newline. */
  datatype Token = Code(c: char) | Literal(text: string) | Comment(text: string)

  /** Up to the newline, or everything. */
  function LineEnd(s: string): (n: nat)
    ensures n <= |s|
  {
    if s == "" || s[0] == '\n' then 0 else 1 + LineEnd(s[1..])
  }

  /** Past the closing star and slash, or everything. */
  function BlockEnd(s: string): (n: nat)
    ensures n <= |s|
  {
    if s == "" then 0
    else if |s| > 1 && s[0] == '*' && s[1] == '/' then 2
    else 1 + BlockEnd(s[1..])
  }

  /** Past the closing quote, skipping escaped characters, or everything. */
  function LiteralEnd(s: string, quote: char): (n: nat)
    ensures n <= |s|
  {
    if s == "" then 0
    else if s[0] == BACKSLASH then (if |s| > 1 then 2 + LiteralEnd(s[2..], quote) else 1)
    else if s[0] == quote then 1
    else 1 + LiteralEnd(s[1..], quote)
  }

  predicate OpensLine(s: string) {
    |s| > 1 && s[0] == '/' && s[1] == '/'
  }

  predicate OpensBlock(s: string) {
    |s| > 1 && s[0] == '/' && s[1] == '*'
  }

  predicate OpensLiteral(s: string) {
    |s| > 0 && (s[0] == QUOTE || s[0] == APOSTROPHE)
  }

  /** Length of the first token. */
  function TokenEnd(s: string): (n: nat)
    requires s != ""
    ensures 0 < n <= |s|
  {
    if OpensLine(s) then 2 + LineEnd(s[2..])
    else if OpensBlock(s) then 2 + BlockEnd(s[2..])
    else if OpensLiteral(s) then 1 + LiteralEnd(s[1..], s[0])
    else 1
  }

  function FirstToken(s: string): Token
    requires s != ""
  {
    if OpensLine(s) || OpensBlock(s) then Comment(s[..TokenEnd(s)])
    else if OpensLiteral(s) then Literal(s[..TokenEnd(s)])
    else Code(s[0])
  }

  function Lex(s: string): seq<Token>
    decreases |s|
  {
    if s == "" then [] else [FirstToken(s)] + Lex(s[TokenEnd(s)..])
  }

  function Text(t: Token): string {
    match t
    case Code(c) => [c]
    case Literal(text) => text
    case Comment(text) => text
  }

  function Flatten(ts: seq<Token>): string
    decreases |ts|
  {
    if ts == [] then "" else Text(ts[0]) + Flatten(ts[1..])
  }

  function WithoutComments(ts: seq<Token>): seq<Token>
    decreases |ts|
  {
    if ts == [] then []
    else if ts[0].Comment? then WithoutComments(ts[1..])
    else [ts[0]] + WithoutComments(ts[1..])
  }

  function Stripped(s: string): string {
    Flatten(WithoutComments(Lex(s)))
  }

  // ------------------------------------------------------------ the results

  /** The tokens are the text. */
  lemma {:induction false} LexLossless(s: string)
    ensures Flatten(Lex(s)) == s
    decreases |s|
  {
    hide Lex, Flatten, TokenEnd, FirstToken, Text;
    if s == "" {
      NothingFlattened();
    } else {
      var n := TokenEnd(s);
      LexStep(s, n);
      FirstText(s);
      FlattenStep(FirstToken(s), Lex(s[n..]));
      LexLossless(s[n..]);
      assert s == s[..n] + s[n..];
    }
  }

  lemma FirstText(s: string)
    requires s != ""
    ensures Text(FirstToken(s)) == s[..TokenEnd(s)]
  {
    hide LineEnd, BlockEnd, LiteralEnd;
  }

  lemma FlattenStep(t: Token, ts: seq<Token>)
    ensures Flatten([t] + ts) == Text(t) + Flatten(ts)
  {
    assert ([t] + ts)[1..] == ts;
  }

  lemma NothingFlattened()
    ensures Flatten(Lex("")) == ""
  {}

  lemma StrippedStep(s: string)
    requires s != ""
    ensures var rest := s[TokenEnd(s)..];
            && (FirstToken(s).Comment? ==>
                  Stripped(s) == Stripped(rest) && WithoutComments(Lex(s)) == WithoutComments(Lex(rest)))
            && (!FirstToken(s).Comment? ==>
                  && Stripped(s) == s[..TokenEnd(s)] + Stripped(rest)
                  && WithoutComments(Lex(s)) == [FirstToken(s)] + WithoutComments(Lex(rest)))
  {
    hide LineEnd, BlockEnd, LiteralEnd;
    var rest := s[TokenEnd(s)..];
    assert Lex(s)[1..] == Lex(rest);
    var kept := WithoutComments(Lex(s));
    if !FirstToken(s).Comment? {
      assert kept[1..] == WithoutComments(Lex(rest));
    }
  }

  /** What follows a lone slash still follows it once the comments are gone. */
  lemma HeadStays(s: string)
    requires s != "" ==> s[0] != '/'
    ensures s == "" ==> Stripped(s) == ""
    ensures s != "" ==> Stripped(s) != "" && Stripped(s)[0] == s[0]
  {
    hide LineEnd, BlockEnd, LiteralEnd, Stripped, Lex, WithoutComments, Flatten;
    if s != "" {
      StrippedStep(s);
    } else {
      NothingStripped();
    }
  }

  lemma NothingStripped()
    ensures Stripped("") == ""
  {}

  /** A literal ends where it did, whatever comes after it now. */
  lemma {:induction false} LiteralEndStays(u: string, quote: char, x: string)
    requires LiteralEnd(u, quote) == |u| ==> x == ""
    ensures var n := LiteralEnd(u, quote);
            LiteralEnd(u[..n] + x, quote) == n
    decreases |u|
  {
    var n := LiteralEnd(u, quote);
    var v := u[..n] + x;
    if u != "" {
      if u[0] == BACKSLASH && |u| > 1 {
        LiteralEndStays(u[2..], quote, x);
        assert v[2..] == u[2..][..n - 2] + x;
      } else if u[0] != BACKSLASH && u[0] != quote {
        LiteralEndStays(u[1..], quote, x);
        assert v[1..] == u[1..][..n - 1] + x;
      }
    }
  }

  lemma LiteralFirst(s: string, x: string)
    requires OpensLiteral(s) && (TokenEnd(s) == |s| ==> x == "")
    ensures var v := s[..TokenEnd(s)] + x;
            FirstToken(v) == FirstToken(s) && TokenEnd(v) == TokenEnd(s)
  {
    hide LiteralEnd, LineEnd, BlockEnd;
    LiteralEndStays(s[1..], s[0], x);
    var v := s[..TokenEnd(s)] + x;
    assert v[1..] == s[1..][..TokenEnd(s) - 1] + x;
    assert v[..TokenEnd(s)] == s[..TokenEnd(s)];
  }

  lemma LexStep(v: string, n: nat)
    requires v != "" && TokenEnd(v) == n
    ensures n <= |v| && Lex(v) == [FirstToken(v)] + Lex(v[n..])
  {}

  /**
   * Reading the stripped text again finds exactly the tokens that are not
   * comments: no new comment opens, and every literal is there byte for byte.
   */
  lemma {:induction false} StripKeepsTokens(s: string)
    ensures Lex(Stripped(s)) == WithoutComments(Lex(s))
    decreases |s|
  {
    hide Stripped, Flatten, WithoutComments, Lex, LineEnd, BlockEnd, LiteralEnd, TokenEnd, FirstToken;
    if s == "" {
      NothingLexed();
    } else {
      var n := TokenEnd(s);
      var rest := s[n..];
      StrippedStep(s);
      StripKeepsTokens(rest);
      if !FirstToken(s).Comment? {
        var v := Stripped(s);
        FirstStays(s);
        LexStep(v, n);
        assert v[n..] == Stripped(rest);
      }
    }
  }

  lemma NothingLexed()
    ensures Stripped("") == "" && Lex("") == [] && WithoutComments(Lex("")) == []
  {}

  lemma FirstStays(s: string)
    requires s != "" && !FirstToken(s).Comment?
    ensures Stripped(s) != "" && FirstToken(Stripped(s)) == FirstToken(s) && TokenEnd(Stripped(s)) == TokenEnd(s)
  {
    hide Stripped, Flatten, WithoutComments, Lex, LineEnd, BlockEnd, LiteralEnd;
    StrippedStep(s);
    var rest := s[TokenEnd(s)..];
    NothingStripped();
    if OpensLiteral(s) {
      LiteralFirst(s, Stripped(rest));
    } else if s[0] == '/' {
      if rest != "" {
        assert rest[0] == s[1];
      }
      HeadStays(rest);
    }
  }

  /** Stripping twice is stripping once. */
  lemma StripIdempotent(s: string)
    ensures Stripped(Stripped(s)) == Stripped(s)
  {
    StripKeepsTokens(s);
    NoneLeft(Lex(s));
    Unchanged(WithoutComments(Lex(s)));
  }

  lemma {:induction false} NoneLeft(ts: seq<Token>)
    ensures forall t :: t in WithoutComments(ts) ==> !t.Comment?
    decreases |ts|
  {
    if ts != [] {
      NoneLeft(ts[1..]);
    }
  }

  lemma {:induction false} Unchanged(ts: seq<Token>)
    requires forall t :: t in ts ==> !t.Comment?
    ensures WithoutComments(ts) == ts
    decreases |ts|
  {
    if ts != [] {
      Unchanged(ts[1..]);
    }
  }

  /** The tool rewrites a file exactly when it holds a comment. */
  lemma ChangedExactlyWhen(s: string)
    ensures Stripped(s) != s <==> exists t :: t in Lex(s) && t.Comment?
  {
    if forall t :: t in Lex(s) ==> !t.Comment? {
      Unchanged(Lex(s));
      LexLossless(s);
    } else if Stripped(s) == s {
      StripKeepsTokens(s);
      NoneLeft(Lex(s));
    }
  }

  /** A line comment ends at its newline whatever stands before it; a backslash does not carry it on. */
  lemma LineCommentEnds(body: string, rest: string)
    requires '\n' !in body
    ensures Stripped("//" + body + "\n" + rest) == Stripped("\n" + rest)
  {
    hide Stripped, Lex, BlockEnd, LiteralEnd;
    var s := "//" + body + "\n" + rest;
    assert s[2..] == body + ("\n" + rest);
    LineEndAt(body, "\n" + rest);
    StrippedStep(s);
    assert s[2 + |body|..] == "\n" + rest;
  }

  /** A block comment ends at the first star followed by a slash. */
  lemma BlockCommentEnds(body: string, rest: string)
    requires forall i :: 0 <= i < |body| - 1 ==> !(body[i] == '*' && body[i + 1] == '/')
    ensures Stripped("/*" + body + "*/" + rest) == Stripped(rest)
  {
    hide Stripped, Lex, LineEnd, LiteralEnd;
    var s := "/*" + body + "*/" + rest;
    assert s[2..] == body + ("*/" + rest);
    BlockEndAt(body, rest);
    StrippedStep(s);
    assert s[4 + |body|..] == rest;
  }

  lemma {:induction false} BlockEndAt(body: string, rest: string)
    requires forall i :: 0 <= i < |body| - 1 ==> !(body[i] == '*' && body[i + 1] == '/')
    ensures BlockEnd(body + ("*/" + rest)) == |body| + 2
    decreases |body|
  {
    var s := body + ("*/" + rest);
    if body == "" {
      assert s == "*/" + rest;
    } else {
      assert s[1..] == body[1..] + ("*/" + rest);
      assert s[0] == body[0] && s[1] == if |body| > 1 then body[1] else '*';
      BlockEndAt(body[1..], rest);
    }
  }

  /** The inside of a literal: no closing quote but behind a backslash. */
  predicate Inside(body: string, quote: char)
    decreases |body|
  {
    body == "" || (if body[0] == '\\' then |body| > 1 && Inside(body[2..], quote) else body[0] != quote && Inside(body[1..], quote))
  }

  /** A literal is kept whole, with whatever looks like a comment inside it. */
  lemma LiteralKept(quote: char, body: string, rest: string)
    requires (quote == '\"' || quote == '\'') && Inside(body, quote)
    ensures Stripped([quote] + body + [quote] + rest) == [quote] + body + [quote] + Stripped(rest)
  {
    hide Stripped, Lex, LineEnd, BlockEnd, LiteralEnd, Inside;
    var s := [quote] + body + [quote] + rest;
    assert s[1..] == body + ([quote] + rest);
    LiteralEndAt(body, quote, rest);
    StrippedStep(s);
    assert s[..|body| + 2] == [quote] + body + [quote] && s[|body| + 2..] == rest;
  }

  lemma {:induction false} LiteralEndAt(body: string, quote: char, rest: string)
    requires quote != '\\' && Inside(body, quote)
    ensures LiteralEnd(body + ([quote] + rest), quote) == |body| + 1
    decreases |body|
  {
    var s := body + ([quote] + rest);
    if body == "" {
      assert s == [quote] + rest;
    } else if body[0] == '\\' {
      assert s[2..] == body[2..] + ([quote] + rest);
      LiteralEndAt(body[2..], quote, rest);
    } else {
      assert s[1..] == body[1..] + ([quote] + rest);
      LiteralEndAt(body[1..], quote, rest);
    }
  }

  /** Any other character is kept, and so is a slash that opens no comment. */
  lemma PlainKept(c: char, rest: string)
    requires c != '\"' && c != '\''
    requires c == '/' ==> rest == "" || (rest[0] != '/' && rest[0] != '*')
    ensures Stripped([c] + rest) == [c] + Stripped(rest)
  {
    hide Stripped, Lex, LineEnd, BlockEnd, LiteralEnd;
    var s := [c] + rest;
    StrippedStep(s);
    assert s[1..] == rest && s[..1] == [c];
  }

  /** A comment that the text leaves open, and a literal too, reach to its end. */
  lemma OpenAtEnd(body: string)
    ensures '\n' !in body ==> Stripped("//" + body) == ""
    ensures (forall i :: 0 <= i < |body| - 1 ==> !(body[i] == '*' && body[i + 1] == '/')) ==> Stripped("/*" + body) == ""
  {
    hide Stripped, Lex, LiteralEnd;
    NothingStripped();
    assert ("//" + body)[2..] == body && ("/*" + body)[2..] == body;
    ToTheEnd(body);
    StrippedStep("//" + body);
    StrippedStep("/*" + body);
    assert ("//" + body)[2 + |body|..] == "" && ("/*" + body)[2 + |body|..] == "";
  }

  lemma {:induction false} ToTheEnd(body: string)
    ensures '\n' !in body ==> LineEnd(body) == |body|
    ensures (forall i :: 0 <= i < |body| - 1 ==> !(body[i] == '*' && body[i + 1] == '/')) ==> BlockEnd(body) == |body|
    decreases |body|
  {
    if body != "" {
      ToTheEnd(body[1..]);
      if forall i :: 0 <= i < |body| - 1 ==> !(body[i] == '*' && body[i + 1] == '/') {
        assert |body| > 1 ==> !(body[0] == '*' && body[0 + 1] == '/');
      }
    }
  }

  lemma {:induction false} LineEndAt(body: string, rest: string)
    requires '\n' !in body && rest != "" && rest[0] == '\n'
    ensures LineEnd(body + rest) == |body|
    decreases |body|
  {
    if body == "" {
      assert body + rest == rest;
    } else {
      assert (body + rest)[1..] == body[1..] + rest;
      LineEndAt(body[1..], rest);
    }
  }

  // --------------------------------------------------------------- the loop

  datatype State = NORMAL | LINE | BLOCK | STR | CHAR

  /** What is still to be written when `s` is left and the loop is in `st`. */
  function Rest(s: string, st: State): string {
    match st
    case NORMAL => Stripped(s)
    case LINE => Stripped(s[LineEnd(s)..])
    case BLOCK => Stripped(s[BlockEnd(s)..])
    case STR => LiteralRest(s, QUOTE)
    case CHAR => LiteralRest(s, APOSTROPHE)
  }

  /** The rest of the literal, and what is still to be written after it. */
  function LiteralRest(s: string, quote: char): string {
    s[..LiteralEnd(s, quote)] + Stripped(s[LiteralEnd(s, quote)..])
  }

  lemma RestByState(s: string)
    ensures Rest(s, NORMAL) == Stripped(s) && Rest(s, STR) == LiteralRest(s, QUOTE) && Rest(s, CHAR) == LiteralRest(s, APOSTROPHE)
  {}

  lemma NormalStep(s: string)
    requires s != ""
    ensures OpensLine(s) ==> Rest(s, NORMAL) == Rest(s[2..], LINE)
    ensures OpensBlock(s) ==> Rest(s, NORMAL) == Rest(s[2..], BLOCK)
    ensures s[0] == QUOTE ==> Rest(s, NORMAL) == [s[0]] + Rest(s[1..], STR)
    ensures s[0] == APOSTROPHE ==> Rest(s, NORMAL) == [s[0]] + Rest(s[1..], CHAR)
    ensures !OpensLine(s) && !OpensBlock(s) && !OpensLiteral(s) ==> Rest(s, NORMAL) == [s[0]] + Rest(s[1..], NORMAL)
  {
    hide Stripped, LineEnd, BlockEnd, LiteralEnd, LiteralRest;
    if OpensLine(s) || OpensBlock(s) {
      StrippedStep(s);
      assert s[2..][TokenEnd(s) - 2..] == s[TokenEnd(s)..];
    } else if OpensLiteral(s) {
      OpenLiteral(s);
    } else {
      StrippedStep(s);
    }
  }

  lemma OpenLiteral(s: string)
    requires OpensLiteral(s)
    ensures Stripped(s) == [s[0]] + LiteralRest(s[1..], s[0])
  {
    hide Stripped, LineEnd, BlockEnd, LiteralEnd;
    StrippedStep(s);
    Shift(s, 1, TokenEnd(s));
    assert s[..1] == [s[0]];
  }

  lemma CommentStep(s: string)
    requires s != ""
    ensures s[0] == '\n' ==> Rest(s, LINE) == [s[0]] + Rest(s[1..], NORMAL)
    ensures s[0] != '\n' ==> Rest(s, LINE) == Rest(s[1..], LINE)
    ensures |s| > 1 && s[0] == '*' && s[1] == '/' ==> Rest(s, BLOCK) == Rest(s[2..], NORMAL)
    ensures !(|s| > 1 && s[0] == '*' && s[1] == '/') ==> Rest(s, BLOCK) == Rest(s[1..], BLOCK)
  {
    hide Stripped;
    if s[0] == '\n' {
      NormalStep(s);
      assert s[0..] == s;
    } else {
      assert s[LineEnd(s)..] == s[1..][LineEnd(s[1..])..];
    }
    if !(|s| > 1 && s[0] == '*' && s[1] == '/') {
      assert s[BlockEnd(s)..] == s[1..][BlockEnd(s[1..])..];
    }
  }

  lemma LiteralStep(s: string, quote: char)
    requires s != ""
    ensures s[0] == BACKSLASH && |s| > 1 ==> LiteralRest(s, quote) == [s[0], s[1]] + LiteralRest(s[2..], quote)
    ensures s[0] == BACKSLASH && |s| == 1 ==> LiteralRest(s, quote) == [s[0]] + LiteralRest(s[1..], quote)
    ensures s[0] != BACKSLASH && s[0] == quote ==> LiteralRest(s, quote) == [s[0]] + Stripped(s[1..])
    ensures s[0] != BACKSLASH && s[0] != quote ==> LiteralRest(s, quote) == [s[0]] + LiteralRest(s[1..], quote)
  {
    hide Stripped, LiteralEnd;
    LiteralEndStep(s, quote);
    if s[0] == BACKSLASH && |s| > 1 {
      Shift(s, 2, LiteralEnd(s, quote));
      assert s[..2] == [s[0], s[1]];
    } else if s[0] != BACKSLASH && s[0] == quote {
      assert s[..1] == [s[0]];
    } else {
      Shift(s, 1, LiteralEnd(s, quote));
      assert s[..1] == [s[0]];
    }
  }

  lemma LiteralEndStep(s: string, quote: char)
    requires s != ""
    ensures LiteralEnd(s, quote) ==
            if s[0] == BACKSLASH then (if |s| > 1 then 2 + LiteralEnd(s[2..], quote) else 1 + LiteralEnd(s[1..], quote))
            else if s[0] == quote then 1
            else 1 + LiteralEnd(s[1..], quote)
  {}

  lemma StringStep(s: string)
    requires s != ""
    ensures s[0] == BACKSLASH && |s| > 1 ==> Rest(s, STR) == [s[0], s[1]] + Rest(s[2..], STR)
    ensures s[0] == QUOTE ==> Rest(s, STR) == [s[0]] + Rest(s[1..], NORMAL)
    ensures s[0] != QUOTE && !(s[0] == BACKSLASH && |s| > 1) ==> Rest(s, STR) == [s[0]] + Rest(s[1..], STR)
  {
    hide Stripped, LiteralRest;
    LiteralStep(s, QUOTE);
  }

  lemma CharStep(s: string)
    requires s != ""
    ensures s[0] == BACKSLASH && |s| > 1 ==> Rest(s, CHAR) == [s[0], s[1]] + Rest(s[2..], CHAR)
    ensures s[0] == APOSTROPHE ==> Rest(s, CHAR) == [s[0]] + Rest(s[1..], NORMAL)
    ensures s[0] != APOSTROPHE && !(s[0] == BACKSLASH && |s| > 1) ==> Rest(s, CHAR) == [s[0]] + Rest(s[1..], CHAR)
  {
    hide Stripped, LiteralRest;
    LiteralStep(s, APOSTROPHE);
  }

  lemma Shift(s: string, k: nat, n: nat)
    requires k <= n <= |s|
    ensures s[n..] == s[k..][n - k..] && s[..n] == s[..k] + s[k..][..n - k]
    ensures s[..n] + Stripped(s[n..]) == s[..k] + (s[k..][..n - k] + Stripped(s[k..][n - k..]))
  {
    hide Stripped;
    assert s[n..] == s[k..][n - k..] && s[..n] == s[..k] + s[k..][..n - k];
  }

  lemma NothingLeft(st: State)
    ensures Rest("", st) == ""
  {}

  lemma Written(out: string, s: string)
    requires s != ""
    ensures forall st :: (out + [s[0]]) + Rest(s[1..], st) == out + ([s[0]] + Rest(s[1..], st))
    ensures |s| > 1 ==> forall st :: (out + [s[0]] + [s[1]]) + Rest(s[2..], st) == out + ([s[0], s[1]] + Rest(s[2..], st))
  {
    hide Rest;
    if |s| > 1 {
      assert out + [s[0]] + [s[1]] == out + [s[0], s[1]];
    }
  }

  method StripComments(text: string) returns (out: string)
    ensures out == Stripped(text)
  {
    hide Rest, Stripped, LiteralRest;
    out := "";
    var i := 0;
    var n := |text|;
    var state := NORMAL;
    assert text[0..] == text;
    RestByState(text);
    while i < n
      invariant i <= n && out + Rest(text[i..], state) == Stripped(text)
    {
      var c := text[i];
      ghost var s := text[i..];
      assert s[0] == c && s[1..] == text[i + 1..];
      assert i + 1 < n ==> s[1] == text[i + 1] && s[2..] == text[i + 2..];
      Written(out, s);
      if state == NORMAL {
        NormalStep(s);
        if c == '/' {
          if i + 1 < n && text[i + 1] == '/' {
            state := LINE;
            i := i + 2;
            continue;
          } else if i + 1 < n && text[i + 1] == '*' {
            state := BLOCK;
            i := i + 2;
            continue;
          } else {
            out := out + [c];
          }
        } else if c == QUOTE {
          out := out + [c];
          state := STR;
        } else if c == APOSTROPHE {
          out := out + [c];
          state := CHAR;
        } else {
          out := out + [c];
        }
      } else if state == LINE {
        CommentStep(s);
        if c == '\n' {
          out := out + [c];
          state := NORMAL;
        }
      } else if state == BLOCK {
        CommentStep(s);
        if c == '*' && i + 1 < n && text[i + 1] == '/' {
          i := i + 2;
          state := NORMAL;
          continue;
        }
      } else if state == STR {
        StringStep(s);
        out := out + [c];
        if c == BACKSLASH {
          if i + 1 < n {
            out := out + [text[i + 1]];
            i := i + 2;
            continue;
          }
        } else if c == QUOTE {
          state := NORMAL;
        }
      } else if state == CHAR {
        CharStep(s);
        out := out + [c];
        if c == BACKSLASH {
          if i + 1 < n {
            out := out + [text[i + 1]];
            i := i + 2;
            continue;
          }
        } else if c == APOSTROPHE {
          state := NORMAL;
        }
      }
      i := i + 1;
    }
    assert text[i..] == "" && out + "" == out;
    NothingLeft(state);
  }
}
