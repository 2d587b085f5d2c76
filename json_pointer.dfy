/**
 * JSON Pointer (RFC 6901): the path language in which a JSON Patch operation
 * names its target, such as "/spec/mutated_default". A pointer is either the
 * empty string (the whole document) or a sequence of reference tokens, each
 * introduced by '/', in which '~' is written "~0" and '/' is written "~1"
 * (section 3 of RFC 6901).
 */
module JsonPointer {
  import opened Wrappers
  import opened JsonValues

  /** Escapes one reference token: '~' becomes "~0", '/' becomes "~1". */
  function Escape(t: string): (e: string)
    ensures forall i :: 0 <= i < |e| ==> e[i] != '/'
    ensures |e| >= |t|
  {
    if t == [] then []
    else (if t[0] == '~' then "~0" else if t[0] == '/' then "~1" else [t[0]]) + Escape(t[1..])
  }

  /** The pointer text that denotes a sequence of reference tokens. */
  function Render(tokens: seq<string>): (p: string)
    ensures p == "" <==> tokens == []
    ensures p != "" ==> p[0] == '/'
  {
    if tokens == [] then "" else "/" + (Escape(tokens[0]) + Render(tokens[1..]))
  }

  /**
   * Reads the reference tokens of a pointer text. `rest` is the text still
   * to read and `acc` the unescaped part of the current token read so far.
   * A '~' not followed by '0' or '1' makes the pointer invalid.
   */
  function ParseTokens(rest: string, acc: string): (r: Option<seq<string>>)
    ensures r.Some? ==> r.value != []
    decreases |rest|
  {
    if rest == [] then Some([acc])
    else if rest[0] == '/' then
      match ParseTokens(rest[1..], "")
      case Some(ts) => Some([acc] + ts)
      case None => None
    else if rest[0] == '~' then
      if |rest| >= 2 && rest[1] == '0' then ParseTokens(rest[2..], acc + "~")
      else if |rest| >= 2 && rest[1] == '1' then ParseTokens(rest[2..], acc + "/")
      else None
    else ParseTokens(rest[1..], acc + [rest[0]])
  }

  /** The reference tokens of a pointer text, or None when the text is not a pointer. */
  function Parse(p: string): Option<seq<string>>
  {
    if p == [] then Some([])
    else if p[0] != '/' then None
    else ParseTokens(p[1..], "")
  }

  lemma {:induction false} EscapeAppend(a: string, b: string)
    ensures Escape(a + b) == Escape(a) + Escape(b)
  {
    if a == [] {
      assert a + b == b;
    } else {
      assert (a + b)[0] == a[0];
      assert (a + b)[1..] == a[1..] + b;
      EscapeAppend(a[1..], b);
    }
  }

  /** A token that needs no escaping: it holds neither '~' nor '/'. */
  predicate Plain(t: string)
  {
    forall i :: 0 <= i < |t| ==> t[i] != '~' && t[i] != '/'
  }

  /** A plain token is its own escape. */
  lemma {:induction false} EscapePlain(t: string)
    requires Plain(t)
    ensures Escape(t) == t
  {
    if t != [] {
      EscapePlain(t[1..]);
      assert t == [t[0]] + t[1..];
    }
  }

  /** Reading an escaped token appends exactly that token to the one being read. */
  lemma {:induction false} ParseEscaped(t: string, rest: string, acc: string)
    requires rest == [] || rest[0] == '/'
    ensures ParseTokens(Escape(t) + rest, acc) == ParseTokens(rest, acc + t)
  {
    if t == [] {
      assert Escape(t) + rest == rest;
      assert acc + t == acc;
    } else {
      var s := Escape(t) + rest;
      ParseEscaped(t[1..], rest, acc + [t[0]]);
      assert acc + [t[0]] + t[1..] == acc + t;
      if t[0] == '~' {
        assert s == "~0" + (Escape(t[1..]) + rest);
        assert s[2..] == Escape(t[1..]) + rest;
        assert acc + "~" == acc + [t[0]];
      } else if t[0] == '/' {
        assert s == "~1" + (Escape(t[1..]) + rest);
        assert s[2..] == Escape(t[1..]) + rest;
        assert acc + "/" == acc + [t[0]];
      } else {
        assert s == [t[0]] + (Escape(t[1..]) + rest);
        assert s[0] == t[0] && s[1..] == Escape(t[1..]) + rest;
      }
    }
  }

  /** Every sequence of tokens survives rendering and reading back. */
  lemma {:induction false} ParseRender(tokens: seq<string>)
    ensures Parse(Render(tokens)) == Some(tokens)
  {
    if tokens != [] {
      var p := Render(tokens);
      var tail := Render(tokens[1..]);
      assert p[1..] == Escape(tokens[0]) + tail;
      ParseEscaped(tokens[0], tail, "");
      assert "" + tokens[0] == tokens[0];
      if tokens[1..] == [] {
        assert tokens == [tokens[0]];
      } else {
        ParseRender(tokens[1..]);
        assert [tokens[0]] + tokens[1..] == tokens;
      }
    }
  }

  /** A pointer of two plain tokens reads as just those tokens. */
  lemma {:induction false} ParsePlainPair(a: string, b: string)
    requires Plain(a) && Plain(b)
    ensures Parse("/" + a + "/" + b) == Some([a, b])
  {
    EscapePlain(a);
    EscapePlain(b);
    var tokens := [a, b];
    assert tokens[1..] == [b] && tokens[1..][1..] == [];
    assert Render(tokens) == "/" + a + "/" + b;
    ParseRender(tokens);
  }

  /**
   * What a successful read of `rest` yields, given the token `acc` read so
   * far: re-escaping the tokens gives back the escaped `acc` followed by `rest`.
   */
  lemma {:induction false} RenderParsedTokens(rest: string, acc: string, ts: seq<string>)
    requires ParseTokens(rest, acc) == Some(ts)
    ensures ts != [] && Escape(ts[0]) + Render(ts[1..]) == Escape(acc) + rest
    decreases |rest|, 2
  {
    if rest == [] {
      assert ts == [acc];
    } else if rest[0] == '/' {
      RenderParsedSeparator(rest, acc, ts);
    } else {
      RenderParsedChar(rest, acc, ts);
    }
  }

  /**
   * The case of RenderParsedTokens where the current token goes on with one
   * character, written as `head` (one character, or a "~0"/"~1" escape).
   */
  lemma {:induction false} RenderParsedChar(rest: string, acc: string, ts: seq<string>)
    requires rest != [] && rest[0] != '/'
    requires ParseTokens(rest, acc) == Some(ts)
    ensures ts != [] && Escape(ts[0]) + Render(ts[1..]) == Escape(acc) + rest
    decreases |rest|, 1
  {
    if rest[0] == '~' {
      var c := if rest[1] == '0' then '~' else '/';
      assert ParseTokens(rest[2..], acc + [c]) == Some(ts);
      RenderParsedStep(rest[..2], rest[2..], acc, c, ts);
    } else {
      assert ParseTokens(rest[1..], acc + [rest[0]]) == Some(ts);
      RenderParsedStep(rest[..1], rest[1..], acc, rest[0], ts);
    }
  }

  /** RenderParsedTokens after the escape `head` of the character `c`. */
  lemma {:induction false} RenderParsedStep(head: string, tail: string, acc: string, c: char, ts: seq<string>)
    requires head == (if c == '~' then "~0" else if c == '/' then "~1" else [c])
    requires ParseTokens(tail, acc + [c]) == Some(ts)
    ensures ts != [] && Escape(ts[0]) + Render(ts[1..]) == Escape(acc) + (head + tail)
    decreases |tail|, 3
  {
    RenderParsedTokens(tail, acc + [c], ts);
    EscapeOne(c, head);
    EscapeAppend(acc, [c]);
    calc {
      Escape(ts[0]) + Render(ts[1..]);
      Escape(acc + [c]) + tail;
      (Escape(acc) + head) + tail;
      Escape(acc) + (head + tail);
    }
  }

  /** The escape of one character, as ParseTokens reads it back. */
  lemma EscapeOne(c: char, e: string)
    requires e == (if c == '~' then "~0" else if c == '/' then "~1" else [c])
    ensures Escape([c]) == e
  {
    assert [c][1..] == [];
  }

  /** The case of RenderParsedTokens where the current token ends at a '/'. */
  lemma {:induction false} RenderParsedSeparator(rest: string, acc: string, ts: seq<string>)
    requires rest != [] && rest[0] == '/'
    requires ParseTokens(rest, acc) == Some(ts)
    ensures ts != [] && Escape(ts[0]) + Render(ts[1..]) == Escape(acc) + rest
    decreases |rest|, 1
  {
    var more := ParseTokens(rest[1..], "");
    assert more.Some?;
    var tail := more.value;
    assert ts == [acc] + tail;
    RenderParsedTokens(rest[1..], "", tail);
    assert ts[0] == acc && ts[1..] == tail;
    calc {
      Render(tail);
      "/" + (Escape(tail[0]) + Render(tail[1..]));
      { assert Escape("") == ""; assert Escape("") + rest[1..] == rest[1..]; }
      "/" + rest[1..];
      rest;
    }
  }

  /** Every pointer text that reads successfully is the rendering of what it reads as. */
  lemma {:induction false} RenderParse(p: string, tokens: seq<string>)
    requires Parse(p) == Some(tokens)
    ensures Render(tokens) == p
  {
    if p != [] {
      var rest := p[1..];
      assert ParseTokens(rest, "") == Some(tokens);
      RenderParsedFromStart(rest, tokens);
      assert p == "/" + rest;
    }
  }

  /** RenderParsedTokens for the first token, read from its start. */
  lemma {:induction false} RenderParsedFromStart(rest: string, tokens: seq<string>)
    requires ParseTokens(rest, "") == Some(tokens)
    ensures Render(tokens) == "/" + rest
  {
    RenderParsedTokens(rest, "", tokens);
    assert Escape("") == "";
    assert Escape("") + rest == rest;
  }

  predicate IsDigit(c: char) { '0' <= c <= '9' }

  predicate AllDigits(s: string) { forall i :: 0 <= i < |s| ==> IsDigit(s[i]) }

  /** The value of a string of decimal digits. */
  function DigitsValue(s: string): nat
    requires AllDigits(s)
  {
    if s == [] then 0 else DigitsValue(s[..|s| - 1]) * 10 + (s[|s| - 1] - '0') as nat
  }

  /**
   * The array index a reference token denotes: "0", or a decimal number
   * without a leading zero (section 4 of RFC 6901). "-" and every other
   * token denote no index.
   */
  function ArrayIndex(t: string): Option<nat>
  {
    if t == "0" then Some(0)
    else if t != [] && '1' <= t[0] <= '9' && AllDigits(t) then Some(DigitsValue(t))
    else None
  }

  // `Decimal` and the lemmas after it check `ArrayIndex` against the grammar
  // of section 4 of RFC 6901 only. The handler's own path holds no
  // array-index token, so nothing else relies on them.

  /** The canonical decimal text of a number. */
  function Decimal(n: nat): (s: string)
    ensures s != [] && AllDigits(s)
    ensures n > 0 ==> '1' <= s[0] <= '9'
  {
    if n < 10 then ["0123456789"[n]] else Decimal(n / 10) + ["0123456789"[n % 10]]
  }

  /** Reading the decimal text of a number gives the number back. */
  lemma {:induction false} DigitsValueDecimal(n: nat)
    ensures DigitsValue(Decimal(n)) == n
  {
    var s := Decimal(n);
    if n < 10 {
      assert s[..0] == [];
    } else {
      var q, d := n / 10, n % 10;
      DigitsValueDecimal(q);
      assert s == Decimal(q) + ["0123456789"[d]];
      assert s[..|s| - 1] == Decimal(q);
      assert (s[|s| - 1] - '0') as nat == d;
      assert n == q * 10 + d;
    }
  }

  /** Digits without a leading zero have a positive value. */
  lemma {:induction false} DigitsValuePositive(s: string)
    requires s != [] && AllDigits(s) && '1' <= s[0] <= '9'
    ensures DigitsValue(s) >= 1
    decreases |s|
  {
    if |s| > 1 {
      DigitsValuePositive(s[..|s| - 1]);
    }
  }

  /** Digits without a leading zero are the decimal text of their value. */
  lemma {:induction false} DecimalDigitsValue(s: string)
    requires s != [] && AllDigits(s) && '1' <= s[0] <= '9'
    ensures Decimal(DigitsValue(s)) == s
    decreases |s|
  {
    var n := DigitsValue(s);
    var d := (s[|s| - 1] - '0') as nat;
    if |s| == 1 {
      assert n == d && d < 10;
      assert "0123456789"[d] == s[0];
    } else {
      var init := s[..|s| - 1];
      DigitsValuePositive(init);
      DecimalDigitsValue(init);
      assert n == DigitsValue(init) * 10 + d && d < 10;
      assert n / 10 == DigitsValue(init) && n % 10 == d;
      assert "0123456789"[d] == s[|s| - 1];
      assert s == init + [s[|s| - 1]];
    }
  }

  /**
   * The array-index tokens are exactly the decimal texts of the natural
   * numbers: each text denotes its number, and each index token is the
   * text of the number it denotes.
   */
  lemma ArrayIndexDecimal(n: nat, t: string)
    ensures ArrayIndex(Decimal(n)) == Some(n)
    ensures ArrayIndex(t) == Some(n) ==> t == Decimal(n)
  {
    DigitsValueDecimal(n);
    if ArrayIndex(t) == Some(n) && t != "0" {
      DecimalDigitsValue(t);
    }
  }

  /**
   * The value a sequence of reference tokens designates in a document
   * (section 4 of RFC 6901), or None when some token names no member or
   * element.
   */
  function Resolve(doc: Json, tokens: seq<string>): Option<Json>
    decreases |tokens|
  {
    if tokens == [] then Some(doc)
    else match doc
      case JObject(m) =>
        if tokens[0] in m then Resolve(m[tokens[0]], tokens[1..]) else None
      case JArray(a) =>
        (match ArrayIndex(tokens[0])
         case Some(i) => if i < |a| then Resolve(a[i], tokens[1..]) else None
         case None => None)
      case _ => None
  }
}
