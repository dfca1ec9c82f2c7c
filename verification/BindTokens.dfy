/** The rewriting again, on queries put together from the tokens of SQL: only a `?` that is a token of its own is a parameter. */
module BindTokens {
  import opened Bind

  /** A character by itself, a quoted text (a literal or a name, by its quote), a comment to the end of the
      line, a bracketed comment. */
  datatype Token = Plain(c: char) | Quoted(quote: char, body: string) | LineComment(body: string) | BlockComment(body: string)

  /** A quote within quotes is written twice. */
  function Doubled(quote: char, body: string): string {
    if body == "" then ""
    else (if body[0] == quote then [quote, quote] else [body[0]]) + Doubled(quote, body[1..])
  }

  function Text(t: Token): string {
    match t
    case Plain(c) => [c]
    case Quoted(quote, body) => [quote] + Doubled(quote, body) + [quote]
    case LineComment(body) => "--" + body + "\n"
    case BlockComment(body) => "/*" + body + "*/"
  }

  function Flatten(ts: seq<Token>): string {
    if ts == [] then "" else Text(ts[0]) + Flatten(ts[1..])
  }

  /** The k-th `?` is the k-th parameter. */
  function Numbered(k: nat, ts: seq<Token>): string
    decreases |ts|
  {
    if ts == [] then ""
    else if ts[0] == Plain('?') then "$" + Decimal(k + 1) + Numbered(k + 1, ts[1..])
    else Text(ts[0]) + Numbered(k, ts[1..])
  }

  predicate IsToken(t: Token) {
    match t
    case Plain(c) => c != '\'' && c != '"'
    case Quoted(quote, _) => quote == '\'' || quote == '"'
    case LineComment(body) => '\n' !in body
    case BlockComment(body) => forall i | 0 <= i < |body| - 1 :: !(body[i] == '*' && body[i + 1] == '/')
  }

  /** Written next to each other they do not read as something else. */
  predicate Apart(t: Token, next: string) {
    next != "" ==>
      match t
      case Plain('-') => next[0] != '-'
      case Plain('/') => next[0] != '*'
      case Quoted(quote, _) => next[0] != quote
      case _ => true
  }

  predicate Tokens(ts: seq<Token>) {
    forall i | 0 <= i < |ts| :: IsToken(ts[i]) && Apart(ts[i], Flatten(ts[i + 1..]))
  }

  function Within(quote: char): Lex { if quote == '\'' then Single else Double }

  function Beyond(quote: char): Lex { if quote == '\'' then SingleEnd else DoubleEnd }

  lemma {:induction false} BodyIsKept(quote: char, k: nat, body: string, rest: string)
    requires quote == '\'' || quote == '"'
    ensures Rewrite(Within(quote), k, Doubled(quote, body) + ([quote] + rest))
            == Doubled(quote, body) + ([quote] + Rewrite(Beyond(quote), k, rest))
  {
    hide Rewrite;
    var text := Doubled(quote, body) + ([quote] + rest);
    if body == "" {
      assert text == [quote] + rest;
      OneKept(Within(quote), k, quote, rest);
    } else {
      var tail := Doubled(quote, body[1..]) + ([quote] + rest);
      BodyIsKept(quote, k, body[1..], rest);
      if body[0] == quote {
        assert text == [quote] + ([quote] + tail);
        OneKept(Within(quote), k, quote, [quote] + tail);
        OneKept(Beyond(quote), k, quote, tail);
      } else {
        assert text == [body[0]] + tail;
        OneKept(Within(quote), k, body[0], tail);
      }
    }
  }

  /** A character that is not a parameter goes through. */
  lemma OneKept(state: Lex, k: nat, c: char, rest: string)
    requires !(state.Outside() && c == '?')
    ensures Rewrite(state, k, [c] + rest) == [c] + Rewrite(Step(state, c), k, rest)
  {
    assert ([c] + rest)[1..] == rest;
  }

  lemma {:induction false} LineIsKept(k: nat, body: string, rest: string)
    requires '\n' !in body
    ensures Rewrite(Line, k, body + ("\n" + rest)) == body + ("\n" + Rewrite(Normal, k, rest))
  {
    var text := body + ("\n" + rest);
    if body == "" {
      assert text == "\n" + rest && text[1..] == rest;
    } else {
      assert body[0] in body && forall c <- body[1..] :: c in body;
      LineIsKept(k, body[1..], rest);
      assert text[1..] == body[1..] + ("\n" + rest);
    }
  }

  /** The state in a bracketed comment says whether the last character was a star. */
  lemma {:induction false} BlockIsKept(star: bool, k: nat, body: string, rest: string)
    requires forall i | 0 <= i < |body| - 1 :: !(body[i] == '*' && body[i + 1] == '/')
    requires star && body != "" ==> body[0] != '/'
    ensures Rewrite(if star then Star else Block, k, body + ("*/" + rest)) == body + ("*/" + Rewrite(Normal, k, rest))
    decreases |body|
  {
    var text := body + ("*/" + rest);
    if body == "" {
      assert text == "*/" + rest && text[1..][1..] == rest;
    } else {
      BlockIsKept(body[0] == '*', k, body[1..], rest);
      assert text[1..] == body[1..] + ("*/" + rest);
    }
  }

  /** The state after a token. */
  function Then(t: Token): Lex {
    match t
    case Plain(c) => if c == '?' then Normal else FromNormal(c)
    case Quoted(quote, _) => Beyond(quote)
    case _ => Normal
  }

  lemma PlainIsRead(state: Lex, k: nat, c: char, rest: string)
    requires IsToken(Plain(c)) && state.Outside() && Settled(state, [c] + rest)
    ensures Rewrite(state, k, [c] + rest)
            == if c == '?' then Parameter(k + 1) + Rewrite(Normal, k + 1, rest) else [c] + Rewrite(FromNormal(c), k, rest)
  {
    assert ([c] + rest)[1..] == rest;
  }

  lemma Opens(state: Lex, k: nat, quote: char, rest: string)
    requires state.Outside() && Settled(state, [quote] + rest) && (quote == '\'' || quote == '"')
    ensures Rewrite(state, k, [quote] + rest) == [quote] + Rewrite(Within(quote), k, rest)
  {
    OneKept(state, k, quote, rest);
  }

  lemma OpensComment(state: Lex, k: nat, first: char, second: char, rest: string)
    requires state.Outside() && Settled(state, [first, second] + rest)
    requires (first == '-' && second == '-') || (first == '/' && second == '*')
    ensures Rewrite(state, k, [first, second] + rest) == [first, second] + Rewrite(if first == '-' then Line else Block, k, rest)
  {
    assert [first, second] + rest == [first] + ([second] + rest);
    OneKept(state, k, first, [second] + rest);
    OneKept(FromNormal(first), k, second, rest);
  }

  /** One token: its text is kept, or replaced when it is a `?`, and what follows starts afresh. */
  lemma TokenIsRead(state: Lex, k: nat, t: Token, rest: string)
    requires IsToken(t) && state.Outside() && Settled(state, Text(t) + rest)
    ensures Rewrite(state, k, Text(t) + rest)
            == if t == Plain('?') then Parameter(k + 1) + Rewrite(Normal, k + 1, rest) else Text(t) + Rewrite(Then(t), k, rest)
  {
    hide Rewrite, Parameter, Settled;
    match t {
      case Plain(c) => PlainIsRead(state, k, c, rest);
      case Quoted(quote, body) =>
        assert Text(t) + rest == [quote] + (Doubled(quote, body) + ([quote] + rest));
        Opens(state, k, quote, Doubled(quote, body) + ([quote] + rest));
        BodyIsKept(quote, k, body, rest);
      case LineComment(body) =>
        assert Text(t) + rest == ['-', '-'] + (body + ("\n" + rest));
        OpensComment(state, k, '-', '-', body + ("\n" + rest));
        LineIsKept(k, body, rest);
      case BlockComment(body) =>
        assert Text(t) + rest == ['/', '*'] + (body + ("*/" + rest));
        OpensComment(state, k, '/', '*', body + ("*/" + rest));
        BlockIsKept(false, k, body, rest);
    }
  }

  lemma ThenIsSettled(t: Token, rest: string)
    requires IsToken(t) && Apart(t, rest)
    ensures Then(t).Outside() && Settled(Then(t), rest)
  {
  }

  lemma {:induction false} TokensAreRead(state: Lex, k: nat, ts: seq<Token>)
    requires Tokens(ts) && state.Outside() && Settled(state, Flatten(ts))
    ensures Rewrite(state, k, Flatten(ts)) == Numbered(k, ts)
    decreases |ts|
  {
    hide Rewrite, Settled;
    if ts == [] {
      NothingRead(state, k);
    } else {
      var rest := ts[1..];
      assert forall i | 0 <= i < |rest| :: rest[i] == ts[i + 1] && rest[i + 1..] == ts[i + 2..];
      TokenIsRead(state, k, ts[0], Flatten(rest));
      ThenIsSettled(ts[0], Flatten(rest));
      TokensAreRead(Then(ts[0]), if ts[0] == Plain('?') then k + 1 else k, rest);
    }
  }

  lemma NothingRead(state: Lex, k: nat)
    ensures Rewrite(state, k, "") == ""
  {
  }

  /** A query made of tokens is rewritten token by token: exactly the `?` tokens are numbered, in order. */
  lemma OnlyQuestionMarks(ts: seq<Token>)
    requires Tokens(ts)
    ensures Rewrite(Normal, 0, Flatten(ts)) == Numbered(0, ts)
  {
    TokensAreRead(Normal, 0, ts);
  }
}
