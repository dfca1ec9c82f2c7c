/** Rewriting `?` parameters to PostgreSQL's `$1`, `$2`, ... outside literals and comments. */
module Bind {

  // ---- The lexical structure of a query, one character at a time ----

  /** Where a character stands. The states after `-`, `/`, a closing quote and `*` wait for what follows. */
  datatype Lex = Normal | Dash | Slash | Single | SingleEnd | Double | DoubleEnd | Line | Block | Star
  {
    /** Outside literals and comments, whatever the last character was. */
    predicate Outside() { Normal? || Dash? || Slash? || SingleEnd? || DoubleEnd? }
  }

  function FromNormal(c: char): Lex {
    match c
    case '-' => Dash
    case '/' => Slash
    case '\'' => Single
    case '"' => Double
    case _ => Normal
  }

  function Step(state: Lex, c: char): Lex {
    match state
    case Normal => FromNormal(c)
    case Dash => if c == '-' then Line else FromNormal(c)
    case Slash => if c == '*' then Block else FromNormal(c)
    case Single => if c == '\'' then SingleEnd else Single
    case SingleEnd => if c == '\'' then Single else FromNormal(c)
    case Double => if c == '"' then DoubleEnd else Double
    case DoubleEnd => if c == '"' then Double else FromNormal(c)
    case Line => if c == '\n' then Normal else Line
    case Block => if c == '*' then Star else Block
    case Star => if c == '/' then Normal else if c == '*' then Star else Block
  }

  function After(state: Lex, s: string): Lex
    decreases |s|
  {
    if s == "" then state else After(Step(state, s[0]), s[1..])
  }

  // ---- What the rewriting means ----

  function Decimal(n: nat): (s: string)
    ensures s != "" && forall c <- s :: '0' <= c <= '9'
  {
    if n < 10 then ['0' + n as char] else Decimal(n / 10) + ['0' + (n % 10) as char]
  }

  function Digit(c: char): nat { if '0' <= c <= '9' then (c - '0') as nat else 0 }

  /** The number digits stand for, the last one counting least. */
  function Value(digits: string): nat {
    if digits == "" then 0 else 10 * Value(digits[..|digits| - 1]) + Digit(digits[|digits| - 1])
  }

  /** What is written for a number is read as that number, and starts with no idle zero. */
  lemma {:induction false} DecimalIsRead(n: nat)
    ensures Value(Decimal(n)) == n
    ensures n > 0 ==> Decimal(n)[0] != '0'
  {
    var s := Decimal(n);
    if n < 10 {
      assert s[..0] == "" && Value(s[..0]) == 0;
    } else {
      DecimalIsRead(n / 10);
      assert s[..|s| - 1] == Decimal(n / 10);
    }
  }

  /** `$k`, the k-th parameter. */
  function Parameter(k: nat): string { "$" + Decimal(k) }

  /** Every `?` outside becomes the next parameter, every other character is kept. */
  function Rewrite(state: Lex, k: nat, s: string): string
    decreases |s|
  {
    if s == "" then ""
    else if state.Outside() && s[0] == '?' then Parameter(k + 1) + Rewrite(Normal, k + 1, s[1..])
    else [s[0]] + Rewrite(Step(state, s[0]), k, s[1..])
  }

  /** The scanner's four flags. */
  predicate Agree(state: Lex, single: bool, double: bool, line: bool, block: bool) {
    && (line <==> state == Line)
    && (block <==> state == Block || state == Star)
    && (single <==> state == Single)
    && (double <==> state == Double)
  }

  /** The scanner looks one character ahead, so a waiting state is never continued. */
  predicate Settled(state: Lex, rest: string) {
    rest != "" ==>
      && (state == Dash ==> rest[0] != '-') && (state == Slash ==> rest[0] != '*')
      && (state == SingleEnd ==> rest[0] != '\'') && (state == DoubleEnd ==> rest[0] != '"')
      && (state == Star ==> rest[0] != '/')
  }

  /** What is written and what is left to rewrite, from position i on, make up the same text. */
  ghost predicate Pending(query: string, out: string, state: Lex, k: nat, i: nat)
    requires i <= |query|
  {
    out + Rewrite(state, k, query[i..]) == Rewrite(Normal, 0, query)
  }

  lemma Kept(query: string, out: string, state: Lex, k: nat, i: nat)
    requires i < |query| && Pending(query, out, state, k, i) && !(state.Outside() && query[i] == '?')
    ensures Pending(query, out + [query[i]], Step(state, query[i]), k, i + 1)
  {
    assert query[i..][1..] == query[i + 1..];
    assert out + ([query[i]] + Rewrite(Step(state, query[i]), k, query[i + 1..]))
           == (out + [query[i]]) + Rewrite(Step(state, query[i]), k, query[i + 1..]);
  }

  lemma KeptTwo(query: string, out: string, state: Lex, k: nat, i: nat)
    requires i + 1 < |query| && Pending(query, out, state, k, i) && query[i] != '?' && query[i + 1] != '?'
    ensures Pending(query, out + [query[i], query[i + 1]], Step(Step(state, query[i]), query[i + 1]), k, i + 2)
  {
    Kept(query, out, state, k, i);
    Kept(query, out + [query[i]], Step(state, query[i]), k, i + 1);
    assert out + [query[i]] + [query[i + 1]] == out + [query[i], query[i + 1]];
  }

  lemma Replaced(query: string, out: string, state: Lex, k: nat, i: nat)
    requires i < |query| && Pending(query, out, state, k, i) && state.Outside() && query[i] == '?'
    ensures Pending(query, out + Parameter(k + 1), Normal, k + 1, i + 1)
  {
    hide Parameter;
    assert query[i..][1..] == query[i + 1..];
    assert out + (Parameter(k + 1) + Rewrite(Normal, k + 1, query[i + 1..]))
           == (out + Parameter(k + 1)) + Rewrite(Normal, k + 1, query[i + 1..]);
  }

  method Bind(query: string) returns (out: string)
    ensures out == Rewrite(Normal, 0, query)
  {
    hide Pending, Parameter, Rewrite;
    out := "";
    var argument: nat := 0;
    var inSingleQuote, inDoubleQuote, inLineComment, inBlockComment := false, false, false, false;
    ghost var state := Normal;
    var i := 0;
    Start(query);
    while i < |query|
      invariant 0 <= i <= |query|
      invariant Agree(state, inSingleQuote, inDoubleQuote, inLineComment, inBlockComment)
      invariant Settled(state, query[i..])
      invariant Pending(query, out, state, argument, i)
    {
      if inLineComment {
        Kept(query, out, state, argument, i);
        if query[i] == '\n' { inLineComment := false; }
        out := out + [query[i]];
        i, state := i + 1, Step(state, query[i]);
        continue;
      }
      if inBlockComment {
        if i + 1 < |query| && query[i] == '*' && query[i + 1] == '/' {
          KeptTwo(query, out, state, argument, i);
          out := out + "*/";
          i, state := i + 2, Step(Step(state, '*'), '/');
          inBlockComment := false;
          continue;
        }
        Kept(query, out, state, argument, i);
        out := out + [query[i]];
        i, state := i + 1, Step(state, query[i]);
        continue;
      }
      if !inSingleQuote && !inDoubleQuote && i + 1 < |query| {
        if query[i] == '-' && query[i + 1] == '-' {
          KeptTwo(query, out, state, argument, i);
          out := out + "--";
          i, state := i + 2, Step(Step(state, '-'), '-');
          inLineComment := true;
          continue;
        }
        if query[i] == '/' && query[i + 1] == '*' {
          KeptTwo(query, out, state, argument, i);
          out := out + "/*";
          i, state := i + 2, Step(Step(state, '/'), '*');
          inBlockComment := true;
          continue;
        }
      }
      if query[i] == '\'' {
        Kept(query, out, state, argument, i);
        out := out + [query[i]];
        i, state := i + 1, Step(state, '\'');
        if inSingleQuote && i < |query| && query[i] == '\'' {
          Kept(query, out, state, argument, i);
          out := out + [query[i]];
          i, state := i + 1, Step(state, '\'');
          continue;
        }
        if !inDoubleQuote { inSingleQuote := !inSingleQuote; }
      } else if query[i] == '"' {
        Kept(query, out, state, argument, i);
        out := out + [query[i]];
        i, state := i + 1, Step(state, '"');
        if inDoubleQuote && i < |query| && query[i] == '"' {
          Kept(query, out, state, argument, i);
          out := out + [query[i]];
          i, state := i + 1, Step(state, '"');
          continue;
        }
        if !inSingleQuote { inDoubleQuote := !inDoubleQuote; }
      } else if query[i] == '?' {
        if inSingleQuote || inDoubleQuote {
          Kept(query, out, state, argument, i);
          out := out + [query[i]];
          i, state := i + 1, Step(state, '?');
          continue;
        }
        Replaced(query, out, state, argument, i);
        argument := argument + 1;
        out := out + Parameter(argument);
        i, state := i + 1, Normal;
      } else {
        Kept(query, out, state, argument, i);
        out := out + [query[i]];
        i, state := i + 1, Step(state, query[i]);
      }
    }
    Finish(query, out, state, argument);
  }

  /** Different parameters are written differently. */
  lemma ParametersDiffer(j: nat, k: nat)
    ensures Parameter(j) == Parameter(k) ==> j == k
  {
    DecimalIsRead(j);
    DecimalIsRead(k);
    assert Parameter(j)[1..] == Decimal(j) && Parameter(k)[1..] == Decimal(k);
  }

  lemma Start(query: string)
    ensures Pending(query, "", Normal, 0, 0)
  {
    assert query[0..] == query;
  }

  lemma Finish(query: string, out: string, state: Lex, k: nat)
    requires Pending(query, out, state, k, |query|)
    ensures out == Rewrite(Normal, 0, query)
  {
  }

  // ---- What the rewriting keeps ----

  function Parameters(state: Lex, s: string): nat
    decreases |s|
  {
    if s == "" then 0
    else (if state.Outside() && s[0] == '?' then 1 else 0) + Parameters(Step(state, s[0]), s[1..])
  }

  lemma {:induction false} AfterConcat(state: Lex, a: string, b: string)
    ensures After(state, a + b) == After(After(state, a), b)
    decreases |a|
  {
    if a == "" {
      assert a + b == b;
    } else {
      assert (a + b)[1..] == a[1..] + b;
      AfterConcat(Step(state, a[0]), a[1..], b);
    }
  }

  /** Text without `?` is passed through. */
  lemma {:induction false} Verbatim(state: Lex, k: nat, text: string, rest: string)
    requires '?' !in text
    ensures Rewrite(state, k, text + rest) == text + Rewrite(After(state, text), k, rest)
    decreases |text|
  {
    if text == "" {
      assert text + rest == rest;
    } else {
      assert (text + rest)[1..] == text[1..] + rest;
      assert [text[0]] + text[1..] == text;
      Verbatim(Step(state, text[0]), k, text[1..], rest);
    }
  }

  lemma {:induction false} DigitsStayOutside(digits: string)
    requires forall c <- digits :: '0' <= c <= '9'
    ensures After(Normal, digits) == Normal
    decreases |digits|
  {
    if digits != "" {
      assert digits[0] in digits && forall c <- digits[1..] :: c in digits;
      DigitsStayOutside(digits[1..]);
    }
  }

  lemma ParameterStaysOutside(state: Lex, k: nat)
    requires state.Outside()
    ensures After(state, Parameter(k)) == Normal && '?' !in Parameter(k)
  {
    assert Parameter(k)[1..] == Decimal(k);
    DigitsStayOutside(Decimal(k));
  }

  lemma AfterNothing(state: Lex)
    ensures After(state, "") == state
  {
  }

  lemma AfterFirst(state: Lex, s: string)
    requires s != ""
    ensures After(state, s) == After(Step(state, s[0]), s[1..])
  {
  }

  /** The query may be rewritten piece by piece: the pieces meet in the same state, with the parameters counted on. */
  lemma {:induction false} RewriteConcat(state: Lex, k: nat, a: string, b: string)
    ensures Rewrite(state, k, a + b) == Rewrite(state, k, a) + Rewrite(After(state, a), k + Parameters(state, a), b)
    decreases |a|
  {
    hide Parameter, After;
    if a == "" {
      AfterNothing(state);
      assert a + b == b;
    } else {
      AfterFirst(state, a);
      assert (a + b)[1..] == a[1..] + b;
      if state.Outside() && a[0] == '?' {
        RewriteConcat(Normal, k + 1, a[1..], b);
      } else {
        RewriteConcat(Step(state, a[0]), k, a[1..], b);
      }
    }
  }

  /** The output is in the same lexical mode as the input; with RewriteConcat, at every matching point. */
  lemma {:induction false} SameMode(state: Lex, k: nat, s: string)
    ensures After(state, Rewrite(state, k, s)) == After(state, s)
    decreases |s|
  {
    if s != "" {
      if state.Outside() && s[0] == '?' {
        ParameterStaysOutside(state, k + 1);
        AfterConcat(state, Parameter(k + 1), Rewrite(Normal, k + 1, s[1..]));
        SameMode(Normal, k + 1, s[1..]);
      } else {
        SameMode(Step(state, s[0]), k, s[1..]);
      }
    }
  }

  lemma {:induction false} NothingLeft(state: Lex, j: nat, k: nat, s: string)
    ensures Rewrite(state, j, Rewrite(state, k, s)) == Rewrite(state, k, s)
    decreases |s|
  {
    if s != "" {
      if state.Outside() && s[0] == '?' {
        hide Parameter;
        ParameterStaysOutside(state, k + 1);
        Verbatim(state, j, Parameter(k + 1), Rewrite(Normal, k + 1, s[1..]));
        NothingLeft(Normal, j, k + 1, s[1..]);
      } else {
        NothingLeft(Step(state, s[0]), j, k, s[1..]);
      }
    }
  }

  /** Rewriting twice is rewriting once. */
  lemma BindIsIdempotent(query: string)
    ensures Rewrite(Normal, 0, Rewrite(Normal, 0, query)) == Rewrite(Normal, 0, query)
  {
    NothingLeft(Normal, 0, 0, query);
  }

  /** Position by position: a `?` outside literals and comments becomes `$k`, k counting such `?` up to
      and including it; every other character is kept; and what precedes and follows is rewritten alike. */
  lemma EachCharacter(before: string, c: char, after: string)
    ensures Rewrite(Normal, 0, before + [c] + after)
            == Rewrite(Normal, 0, before)
               + (if After(Normal, before).Outside() && c == '?' then Parameter(Parameters(Normal, before) + 1) else [c])
               + Rewrite(After(Normal, before + [c]), Parameters(Normal, before + [c]), after)
  {
    hide Parameter, After, Parameters, Rewrite;
    RewriteConcat(Normal, 0, before + [c], after);
    RewriteConcat(Normal, 0, before, [c]);
    RewriteOne(After(Normal, before), Parameters(Normal, before), c);
  }

  lemma RewriteOne(state: Lex, k: nat, c: char)
    ensures Rewrite(state, k, [c]) == if state.Outside() && c == '?' then Parameter(k + 1) else [c]
  {
    assert [c][1..] == "";
  }

  // ---- The way back ----

  /** Read `$k` back as `?` where k is the next number due. */
  function Restore(state: Lex, k: nat, s: string): string
    decreases |s|
  {
    if s == "" then ""
    else if state.Outside() && Parameter(k + 1) <= s then "?" + Restore(Normal, k + 1, s[|Parameter(k + 1)|..])
    else [s[0]] + Restore(Step(state, s[0]), k, s[1..])
  }

  /** Nowhere outside literals and comments does the query itself have the parameter that is due there:
      `$k` with k one more than the number of `?` outside before it. */
  predicate NoneDue(state: Lex, k: nat, s: string)
    decreases |s|
  {
    s == ""
    || if state.Outside() && s[0] == '?' then NoneDue(Normal, k + 1, s[1..])
       else !(state.Outside() && Parameter(k + 1) <= s) && NoneDue(Step(state, s[0]), k, s[1..])
  }

  /** Digits at the front of the rewriting are digits at the front of the query. */
  lemma {:induction false} DigitsPass(k: nat, digits: string, s: string)
    requires forall c <- digits :: '0' <= c <= '9'
    ensures digits <= Rewrite(Normal, k, s) <==> digits <= s
    decreases |digits|
  {
    if digits != "" && s != "" {
      var r := Rewrite(Normal, k, s);
      assert digits[0] in digits && forall c <- digits[1..] :: c in digits;
      if s[0] == '?' {
        assert r[0] == '$';
      } else {
        assert r[0] == s[0] && r[1..] == Rewrite(FromNormal(s[0]), k, s[1..]);
        assert digits == [digits[0]] + digits[1..] && s == [s[0]] + s[1..] && r == [r[0]] + r[1..];
        if digits[0] == s[0] { DigitsPass(k, digits[1..], s[1..]); }
      }
    }
  }

  /** So the rewriting has the parameter due in front exactly when the query has it, or a `?`. */
  lemma DuePasses(state: Lex, k: nat, s: string)
    requires state.Outside() && s != "" && s[0] != '?'
    ensures Parameter(k + 1) <= Rewrite(state, k, s) <==> Parameter(k + 1) <= s
  {
    var digits, r := Decimal(k + 1), Rewrite(state, k, s);
    assert Parameter(k + 1) == ['$'] + digits && s == [s[0]] + s[1..];
    assert r == [s[0]] + Rewrite(Step(state, s[0]), k, s[1..]);
    if s[0] == '$' {
      DigitsPass(k, digits, s[1..]);
      StartsWith('$', digits, r);
      StartsWith('$', digits, s);
    } else {
      assert Parameter(k + 1)[0] == '$' && r[0] == s[0];
    }
  }

  lemma StartsWith(c: char, rest: string, s: string)
    requires s != "" && s[0] == c
    ensures [c] + rest <= s <==> rest <= s[1..]
  {
    assert s == [c] + s[1..];
    if [c] + rest <= s { assert ([c] + rest)[1..] == rest && s[..|rest| + 1][1..] == s[1..][..|rest|]; }
  }

  /** A query is recovered from its rewriting exactly when no parameter is due in it. */
  lemma {:induction false} RecoveredIff(state: Lex, k: nat, s: string)
    ensures Restore(state, k, Rewrite(state, k, s)) == s <==> NoneDue(state, k, s)
    decreases |s|
  {
    hide Parameter;
    ParameterShape(k + 1);
    if s != "" {
      var back := Restore(state, k, Rewrite(state, k, s));
      assert s == [s[0]] + s[1..];
      if state.Outside() && s[0] == '?' {
        var rest := Rewrite(Normal, k + 1, s[1..]);
        RecoveredIff(Normal, k + 1, s[1..]);
        assert (Parameter(k + 1) + rest)[|Parameter(k + 1)|..] == rest;
        assert back == ['?'] + Restore(Normal, k + 1, rest);
        SameTail('?', Restore(Normal, k + 1, rest), s[1..]);
      } else {
        var rest := Rewrite(Step(state, s[0]), k, s[1..]);
        RecoveredIff(Step(state, s[0]), k, s[1..]);
        assert ([s[0]] + rest)[0] == s[0] && ([s[0]] + rest)[1..] == rest;
        if state.Outside() { DuePasses(state, k, s); }
        if state.Outside() && Parameter(k + 1) <= s {
          assert back[0] == '?' && s[0] == '$';
        } else {
          assert back == [s[0]] + Restore(Step(state, s[0]), k, rest);
          SameTail(s[0], Restore(Step(state, s[0]), k, rest), s[1..]);
        }
      }
    }
  }

  lemma SameTail(c: char, a: string, b: string)
    ensures [c] + a == [c] + b <==> a == b
  {
    assert ([c] + a)[1..] == a && ([c] + b)[1..] == b;
  }

  lemma ParameterShape(k: nat)
    ensures Parameter(k) != "" && Parameter(k)[0] == '$'
  {
  }

  /** Two queries without due parameters and with the same rewriting are the same. */
  lemma BindIsInjective(a: string, b: string)
    requires NoneDue(Normal, 0, a) && NoneDue(Normal, 0, b) && Rewrite(Normal, 0, a) == Rewrite(Normal, 0, b)
    ensures a == b
  {
    RecoveredIff(Normal, 0, a);
    RecoveredIff(Normal, 0, b);
  }

  /** No `?` outside literals and comments: what every rewriting is. */
  predicate Bound(state: Lex, s: string)
    decreases |s|
  {
    s == "" || (!(state.Outside() && s[0] == '?') && Bound(Step(state, s[0]), s[1..]))
  }

  lemma {:induction false} BoundDrop(state: Lex, a: string, b: string)
    requires Bound(state, a + b)
    ensures Bound(After(state, a), b)
    decreases |a|
  {
    if a == "" {
      assert a + b == b;
    } else {
      assert (a + b)[1..] == a[1..] + b;
      BoundDrop(Step(state, a[0]), a[1..], b);
    }
  }

  lemma {:induction false} BoundAfter(state: Lex, a: string, b: string)
    requires '?' !in a && Bound(After(state, a), b)
    ensures Bound(state, a + b)
    decreases |a|
  {
    if a == "" {
      assert a + b == b;
    } else {
      assert (a + b)[1..] == a[1..] + b;
      BoundAfter(Step(state, a[0]), a[1..], b);
    }
  }

  lemma {:induction false} RewritingIsBound(state: Lex, k: nat, s: string)
    ensures Bound(state, Rewrite(state, k, s))
    decreases |s|
  {
    hide Parameter;
    if s != "" {
      if state.Outside() && s[0] == '?' {
        RewritingIsBound(Normal, k + 1, s[1..]);
        ParameterStaysOutside(state, k + 1);
        BoundAfter(state, Parameter(k + 1), Rewrite(Normal, k + 1, s[1..]));
      } else {
        RewritingIsBound(Step(state, s[0]), k, s[1..]);
      }
    }
  }

  /** Reading back a text without `?` outside gives a query that has it as its rewriting, with no parameter due. */
  lemma {:induction false} RestoredIsRewritten(state: Lex, k: nat, r: string)
    requires Bound(state, r)
    ensures Rewrite(state, k, Restore(state, k, r)) == r && NoneDue(state, k, Restore(state, k, r))
    decreases |r|
  {
    hide Parameter;
    ParameterShape(k + 1);
    if r != "" {
      if state.Outside() && Parameter(k + 1) <= r {
        var rest := r[|Parameter(k + 1)|..];
        assert r == Parameter(k + 1) + rest;
        ParameterStaysOutside(state, k + 1);
        BoundDrop(state, Parameter(k + 1), rest);
        RestoredIsRewritten(Normal, k + 1, rest);
        assert ("?" + Restore(Normal, k + 1, rest))[1..] == Restore(Normal, k + 1, rest);
      } else {
        var q := [r[0]] + Restore(Step(state, r[0]), k, r[1..]);
        RestoredIsRewritten(Step(state, r[0]), k, r[1..]);
        assert q[1..] == Restore(Step(state, r[0]), k, r[1..]) && r == [r[0]] + r[1..];
        if state.Outside() { DuePasses(state, k, q); }
      }
    }
  }

  /** Of all queries with one rewriting exactly one has no parameter due: the one the rewriting is read back as. */
  lemma OneOfEachKind(query: string, other: string)
    ensures var r := Rewrite(Normal, 0, query);
            && Rewrite(Normal, 0, Restore(Normal, 0, r)) == r && NoneDue(Normal, 0, Restore(Normal, 0, r))
            && (Rewrite(Normal, 0, other) == r && NoneDue(Normal, 0, other) ==> other == Restore(Normal, 0, r))
  {
    RewritingIsBound(Normal, 0, query);
    RestoredIsRewritten(Normal, 0, Rewrite(Normal, 0, query));
    RecoveredIff(Normal, 0, other);
  }

  /** No `$` outside literals and comments. */
  predicate Plain(state: Lex, s: string)
    decreases |s|
  {
    s == "" || (!(state.Outside() && s[0] == '$') && Plain(Step(state, s[0]), s[1..]))
  }

  /** Queries without `$` outside are recovered ... */
  lemma {:induction false} PlainIsRecovered(state: Lex, k: nat, s: string)
    requires Plain(state, s)
    ensures NoneDue(state, k, s)
    decreases |s|
  {
    hide Parameter;
    ParameterShape(k + 1);
    if s != "" {
      if state.Outside() && s[0] == '?' { PlainIsRecovered(Normal, k + 1, s[1..]); } else { PlainIsRecovered(Step(state, s[0]), k, s[1..]); }
    }
  }

  /** ... and so are some with it: `$x` comes back, `$1` comes back as the `?` it shares its rewriting with. */
  lemma DollarsCollide()
    ensures !Plain(Normal, "$x") && NoneDue(Normal, 0, "$x") && Restore(Normal, 0, Rewrite(Normal, 0, "$x")) == "$x"
    ensures !NoneDue(Normal, 0, "$1") && Restore(Normal, 0, Rewrite(Normal, 0, "$1")) == "?"
    ensures Rewrite(Normal, 0, "$1") == Rewrite(Normal, 0, "?")
  {
    assert Decimal(1) == "1" && Parameter(1) == "$1";
    assert "$1"[1..] == "1" && "1"[1..] == "" && "?"[1..] == "" && "$x"[1..] == "x" && "x"[1..] == "";
    assert Rewrite(Normal, 0, "1") == "1";
    assert Rewrite(Normal, 0, "?") == Parameter(1) + "";
    assert !(Parameter(1) <= "$x") by { assert "$x"[1] != "$1"[1]; }
    assert NoneDue(Normal, 0, "x") by { assert NoneDue(Normal, 0, ""); }
    RecoveredIff(Normal, 0, "$x");
    assert "$1"[2..] == "" && Restore(Normal, 1, "") == "";
  }
}
