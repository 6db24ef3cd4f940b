// JSON Pointers (internal/configpatch/pointer.go) as RFC 6901 defines them.

module PatchPointer {
  datatype Option<T> = None | Some(value: T)

  // ---- String helpers of the Go standard library -----------------------------------

  // strings.ReplaceAll with a two-character pattern and a one-character replacement.
  function ReplacePair(s: string, a: char, b: char, c: char): string
  {
    if |s| < 2 then s
    else if s[0] == a && s[1] == b then [c] + ReplacePair(s[2..], a, b, c)
    else [s[0]] + ReplacePair(s[1..], a, b, c)
  }

  // strings.ReplaceAll with a one-character pattern and a two-character replacement.
  function ReplaceChar(s: string, a: char, b: char, c: char): string
  {
    if s == [] then []
    else (if s[0] == a then [b, c] else [s[0]]) + ReplaceChar(s[1..], a, b, c)
  }

  // strings.Split on one character: always at least one piece.
  function Split(s: string, sep: char): (r: seq<string>)
    ensures |r| >= 1
  {
    if s == [] then [""]
    else
      var rest := Split(s[1..], sep);
      if s[0] == sep then [""] + rest
      else [[s[0]] + rest[0]] + rest[1..]
  }

  // ---- Tokens --------------------------------------------------------------------------

  function UnescapeToken(t: string): string
  {
    ReplacePair(ReplacePair(t, '~', '1', '/'), '~', '0', '~')
  }

  function EscapeToken(t: string): string
  {
    ReplaceChar(ReplaceChar(t, '~', '~', '0'), '/', '~', '1')
  }

  function UnescapeAll(tokens: seq<string>): (r: seq<string>)
    ensures |r| == |tokens|
    ensures forall i | 0 <= i < |r| :: r[i] == UnescapeToken(tokens[i])
  {
    seq(|tokens|, i requires 0 <= i < |tokens| => UnescapeToken(tokens[i]))
  }

  function Parse(pointer: string): Option<seq<string>>
  {
    if pointer == "" || pointer[0] != '/' then None
    else Some(UnescapeAll(Split(pointer[1..], '/')))
  }

  function Format(tokens: seq<string>): string
  {
    if tokens == [] then ""
    else Format(tokens[..|tokens| - 1]) + "/" + EscapeToken(tokens[|tokens| - 1])
  }

  method ParsePointer(pointer: string) returns (r: Option<seq<string>>)
    ensures r == Parse(pointer)
  {
    if pointer == "" || pointer[0] != '/' {
      return None;
    }
    if pointer == "/" {
      assert pointer[1..] == "";
      assert UnescapeAll([""]) == [""];
      return Some([""]);
    }
    var tokens := Split(pointer[1..], '/');
    for i := 0 to |tokens|
      invariant |tokens| == |Split(pointer[1..], '/')|
      invariant forall j | 0 <= j < i :: tokens[j] == UnescapeToken(Split(pointer[1..], '/')[j])
      invariant forall j | i <= j < |tokens| :: tokens[j] == Split(pointer[1..], '/')[j]
    {
      tokens := tokens[i := ReplacePair(ReplacePair(tokens[i], '~', '1', '/'), '~', '0', '~')];
    }
    assert tokens == UnescapeAll(Split(pointer[1..], '/'));
    return Some(tokens);
  }

  method FormatPointer(tokens: seq<string>) returns (r: string)
    ensures r == Format(tokens)
  {
    r := "";
    for i := 0 to |tokens|
      invariant r == Format(tokens[..i])
    {
      r := r + "/";
      var token := ReplaceChar(tokens[i], '~', '~', '0');
      token := ReplaceChar(token, '/', '~', '1');
      r := r + token;
      assert tokens[..i + 1][..i] == tokens[..i];
    }
    assert tokens[..|tokens|] == tokens;
  }

  // ---- One pass over a token, as section 4 of RFC 6901 describes it -------------------------

  function Decode(t: string): string
  {
    if |t| < 2 then t
    else if t[0] == '~' && t[1] == '1' then ['/'] + Decode(t[2..])
    else if t[0] == '~' && t[1] == '0' then ['~'] + Decode(t[2..])
    else [t[0]] + Decode(t[1..])
  }

  function Encode(t: string): string
  {
    if t == [] then []
    else (if t[0] == '~' then "~0" else if t[0] == '/' then "~1" else [t[0]]) + Encode(t[1..])
  }

  // What the first pass leaves in front stays in front.
  lemma {:induction false} FirstPassHead(t: string)
    requires t != []
    ensures var r := ReplacePair(t, '~', '1', '/');
            && r != []
            && r[0] == (if |t| >= 2 && t[0] == '~' && t[1] == '1' then '/' else t[0])
  {
  }

  // Replacing "~1" first and "~0" second decodes every token as one pass would.
  lemma {:induction false} UnescapeIsDecode(t: string)
    ensures UnescapeToken(t) == Decode(t)
    decreases |t|
  {
    if |t| >= 2 {
      if t[0] == '~' && t[1] == '1' {
        UnescapeIsDecode(t[2..]);
        SecondPassSkips('/', ReplacePair(t[2..], '~', '1', '/'));
      } else {
        var rest := ReplacePair(t[1..], '~', '1', '/');
        FirstPassHead(t[1..]);
        if t[0] == '~' && t[1] == '0' {
          UnescapeIsDecode(t[2..]);
          UnescapeIsDecode(t[1..]);
          FirstPassZero(t[1..]);
          var tail := ReplacePair(t[2..], '~', '1', '/');
          assert ReplacePair(t, '~', '1', '/') == ['~'] + (['0'] + tail);
          assert (['~'] + (['0'] + tail))[2..] == tail;
        } else {
          UnescapeIsDecode(t[1..]);
          assert rest[0] != '0' || t[0] != '~';
          SecondPassSkips(t[0], rest);
        }
      }
    }
  }

  lemma FirstPassZero(t: string)
    requires t != [] && t[0] == '0'
    ensures ReplacePair(t, '~', '1', '/') == ['0'] + ReplacePair(t[1..], '~', '1', '/')
  {
  }

  lemma SecondPassSkips(c: char, s: string)
    requires c != '~' || s == [] || s[0] != '0'
    ensures ReplacePair([c] + s, '~', '0', '~') == [c] + ReplacePair(s, '~', '0', '~')
  {
    assert ([c] + s)[1..] == s;
  }

  lemma {:induction false} ReplaceCharAppend(s: string, t: string, a: char, b: char, c: char)
    ensures ReplaceChar(s + t, a, b, c) == ReplaceChar(s, a, b, c) + ReplaceChar(t, a, b, c)
  {
    if s == [] {
      assert s + t == t;
    } else {
      assert (s + t)[1..] == s[1..] + t;
      ReplaceCharAppend(s[1..], t, a, b, c);
    }
  }

  lemma {:induction false} EscapeIsEncode(t: string)
    ensures EscapeToken(t) == Encode(t)
  {
    if t != [] {
      var head := if t[0] == '~' then "~0" else [t[0]];
      var tail := ReplaceChar(t[1..], '~', '~', '0');
      ReplaceCharAppend(head, tail, '/', '~', '1');
      assert ReplaceChar(head, '/', '~', '1') == if t[0] == '~' then "~0" else if t[0] == '/' then "~1" else [t[0]] by {
        assert head[1..] == if t[0] == '~' then "0" else "";
        assert "0"[1..] == "";
      }
      EscapeIsEncode(t[1..]);
    }
  }

  lemma {:induction false} DecodeEncode(t: string)
    ensures Decode(Encode(t)) == t
  {
    if t != [] {
      DecodeEncode(t[1..]);
      var rest := Encode(t[1..]);
      if t[0] == '~' || t[0] == '/' {
        assert Encode(t)[2..] == rest;
      } else {
        assert Encode(t)[1..] == rest;
      }
    }
  }

  // Every '~' of the token starts an escape sequence.
  predicate Escaped(t: string)
  {
    t == [] ||
    (if t[0] == '~' then |t| >= 2 && (t[1] == '0' || t[1] == '1') && Escaped(t[2..]) else Escaped(t[1..]))
  }

  lemma {:induction false} EncodeDecode(t: string)
    requires Escaped(t) && '/' !in t
    ensures Encode(Decode(t)) == t
    decreases |t|
  {
    if |t| == 1 {
      assert t == [t[0]];
    } else if |t| >= 2 {
      if t[0] == '~' {
        EncodeDecode(t[2..]);
        assert Decode(t)[1..] == Decode(t[2..]);
        assert t == [t[0], t[1]] + t[2..];
      } else {
        EncodeDecode(t[1..]);
        assert Decode(t)[1..] == Decode(t[1..]);
      }
    }
  }

  lemma {:induction false} EncodeHidesSlash(t: string)
    ensures '/' !in Encode(t)
  {
    if t != [] {
      EncodeHidesSlash(t[1..]);
    }
  }

  // ---- Whole pointers --------------------------------------------------------------------------

  function Join(pieces: seq<string>, sep: char): string
    requires pieces != []
  {
    if |pieces| == 1 then pieces[0] else pieces[0] + [sep] + Join(pieces[1..], sep)
  }

  lemma {:induction false} SplitPiece(piece: string, s: string, sep: char)
    requires sep !in piece
    ensures Split(piece, sep) == [piece]
    ensures Split(piece + [sep] + s, sep) == [piece] + Split(s, sep)
  {
    if piece == [] {
      assert piece + [sep] + s == [sep] + s;
      assert ([sep] + s)[1..] == s;
    } else {
      SplitPiece(piece[1..], s, sep);
      assert (piece + [sep] + s)[1..] == piece[1..] + [sep] + s;
      assert [piece[0]] + piece[1..] == piece;
    }
  }

  lemma {:induction false} SplitJoin(pieces: seq<string>, sep: char)
    requires pieces != [] && forall p <- pieces :: sep !in p
    ensures Split(Join(pieces, sep), sep) == pieces
  {
    if |pieces| == 1 {
      SplitPiece(pieces[0], "", sep);
    } else {
      SplitJoin(pieces[1..], sep);
      SplitPiece(pieces[0], Join(pieces[1..], sep), sep);
    }
  }

  lemma {:induction false} JoinSplit(s: string, sep: char)
    ensures Join(Split(s, sep), sep) == s
    ensures forall p <- Split(s, sep) :: sep !in p
  {
    if s != [] {
      JoinSplit(s[1..], sep);
      var rest := Split(s[1..], sep);
      if s[0] == sep {
        assert ([""] + rest)[1..] == rest;
      } else if |rest| > 1 {
        assert Split(s, sep)[1..] == rest[1..];
      }
    }
  }

  lemma {:induction false} JoinAppend(pieces: seq<string>, last: string, sep: char)
    requires pieces != []
    ensures Join(pieces + [last], sep) == Join(pieces, sep) + [sep] + last
  {
    var all := pieces + [last];
    if |pieces| == 1 {
      assert all[1..] == [last];
    } else {
      JoinAppend(pieces[1..], last, sep);
      assert all[1..] == pieces[1..] + [last];
    }
  }

  function EncodeAll(tokens: seq<string>): (r: seq<string>)
    ensures |r| == |tokens| && forall i | 0 <= i < |r| :: r[i] == Encode(tokens[i])
  {
    seq(|tokens|, i requires 0 <= i < |tokens| => Encode(tokens[i]))
  }

  lemma {:induction false} FormatIsJoin(tokens: seq<string>)
    requires tokens != []
    ensures Format(tokens) == "/" + Join(EncodeAll(tokens), '/')
  {
    var front, last := tokens[..|tokens| - 1], tokens[|tokens| - 1];
    EscapeIsEncode(last);
    if front == [] {
      assert EncodeAll(tokens) == [Encode(last)];
      assert Format(front) == "";
    } else {
      FormatIsJoin(front);
      assert EncodeAll(tokens) == EncodeAll(front) + [Encode(last)];
      JoinAppend(EncodeAll(front), Encode(last), '/');
    }
  }

  // Parsing undoes formatting for every nonempty token list.
  lemma ParseFormat(tokens: seq<string>)
    requires tokens != []
    ensures Parse(Format(tokens)) == Some(tokens)
  {
    FormatIsJoin(tokens);
    var pieces := EncodeAll(tokens);
    forall p | p in pieces
      ensures '/' !in p
    {
      var i :| 0 <= i < |pieces| && pieces[i] == p;
      EncodeHidesSlash(tokens[i]);
    }
    SplitJoin(pieces, '/');
    assert Format(tokens)[1..] == Join(pieces, '/');
    forall i | 0 <= i < |tokens|
      ensures UnescapeToken(pieces[i]) == tokens[i]
    {
      UnescapeIsDecode(pieces[i]);
      DecodeEncode(tokens[i]);
    }
    assert UnescapeAll(pieces) == tokens;
  }

  // Formatting undoes parsing exactly on the pointers of the grammar of section 3
  // of RFC 6901 other than the empty one.
  lemma FormatParse(pointer: string)
    requires Parse(pointer).Some?
    ensures Format(Parse(pointer).value) == pointer <==>
            forall p <- Split(pointer[1..], '/') :: Escaped(p)
  {
    var pieces := Split(pointer[1..], '/');
    var tokens := UnescapeAll(pieces);
    JoinSplit(pointer[1..], '/');
    FormatIsJoin(tokens);
    assert pointer == "/" + pointer[1..];
    if forall p <- pieces :: Escaped(p) {
      forall i | 0 <= i < |pieces|
        ensures EncodeAll(tokens)[i] == pieces[i]
      {
        assert pieces[i] in pieces;
        UnescapeIsDecode(pieces[i]);
        EncodeDecode(pieces[i]);
      }
      assert EncodeAll(tokens) == pieces;
    }
    if Format(tokens) == pointer {
      FormattedIsEscaped(tokens);
    }
  }

  lemma {:induction false} EncodeIsEscaped(t: string)
    ensures Escaped(Encode(t))
  {
    if t != [] {
      EncodeIsEscaped(t[1..]);
      if t[0] == '~' || t[0] == '/' {
        assert Encode(t)[2..] == Encode(t[1..]);
      } else {
        assert Encode(t)[1..] == Encode(t[1..]);
      }
    }
  }

  lemma FormattedIsEscaped(tokens: seq<string>)
    requires tokens != []
    ensures forall p <- Split(Format(tokens)[1..], '/') :: Escaped(p)
  {
    FormatIsJoin(tokens);
    var pieces := EncodeAll(tokens);
    forall p | p in pieces
      ensures '/' !in p && Escaped(p)
    {
      var i :| 0 <= i < |pieces| && pieces[i] == p;
      EncodeHidesSlash(tokens[i]);
      EncodeIsEscaped(tokens[i]);
    }
    SplitJoin(pieces, '/');
    assert Format(tokens)[1..] == Join(pieces, '/');
  }

  // ---- Array indices ---------------------------------------------------------------------------

  predicate IsDigit(c: char)
  {
    '0' <= c <= '9'
  }

  predicate IsNumeral(t: string)
  {
    t != "" && (|t| > 1 ==> t[0] != '0') && forall c <- t :: IsDigit(c)
  }

  function Digit(n: nat): char
    requires n < 10
  {
    '0' + n as char
  }

  function DigitValue(c: char): (n: nat)
    requires IsDigit(c)
    ensures n < 10 && Digit(n) == c
  {
    c as nat - '0' as nat
  }

  // strconv.Itoa on the indices of an array.
  function Itoa(n: nat): string
  {
    if n < 10 then [Digit(n)] else Itoa(n / 10) + [Digit(n % 10)]
  }

  // strconv.Atoi on digits; a value too wide for int exceeds every array length.
  function Atoi(t: string): nat
    requires forall c <- t :: IsDigit(c)
  {
    if t == [] then 0 else Atoi(t[..|t| - 1]) * 10 + DigitValue(t[|t| - 1])
  }

  function ParseIndex(t: string, length: nat): (r: Option<nat>)
    ensures r.Some? ==> r.value < length
  {
    if IsNumeral(t) && Atoi(t) < length then Some(Atoi(t)) else None
  }

  method ParseArrayIndex(token: string, length: nat) returns (r: Option<nat>)
    ensures r == ParseIndex(token, length)
  {
    if token == "-" {
      assert token[0] in token && !IsDigit(token[0]);
      return None;
    }
    if token == "" || (|token| > 1 && token[0] == '0') {
      return None;
    }
    for i := 0 to |token|
      invariant forall j | 0 <= j < i :: IsDigit(token[j])
    {
      if token[i] < '0' || token[i] > '9' {
        assert token[i] in token && !IsDigit(token[i]);
        return None;
      }
    }
    var index := Atoi(token);
    if index >= length {
      return None;
    }
    return Some(index);
  }

  lemma {:induction false} ItoaIsNumeral(n: nat)
    ensures IsNumeral(Itoa(n)) && (n > 0 ==> Itoa(n)[0] != '0')
    ensures Atoi(Itoa(n)) == n
  {
    if n < 10 {
      assert Itoa(n)[..0] == [];
    } else {
      ItoaIsNumeral(n / 10);
      var front := Itoa(n / 10);
      assert Itoa(n)[..|Itoa(n)| - 1] == front;
      assert Itoa(n)[0] == front[0];
    }
  }

  lemma SplitTen(a: nat, d: nat)
    requires d < 10
    ensures (a * 10 + d) / 10 == a && (a * 10 + d) % 10 == d
  {
  }

  lemma {:induction false} NumeralIsItoa(t: string)
    requires IsNumeral(t)
    ensures Itoa(Atoi(t)) == t && (t[0] != '0' ==> Atoi(t) > 0)
  {
    var front, last := t[..|t| - 1], t[|t| - 1];
    assert t == front + [last];
    assert last in t && IsDigit(last);
    if front != [] {
      assert front[0] == t[0];
      NumeralIsItoa(front);
      SplitTen(Atoi(front), DigitValue(last));
    } else {
      assert Atoi(front) == 0;
    }
  }

  // A token addresses an element exactly when it is that element's own numeral.
  lemma IndexIffNumeral(t: string, length: nat, i: nat)
    ensures ParseIndex(t, length) == Some(i) <==> i < length && t == Itoa(i)
  {
    ItoaIsNumeral(i);
    if IsNumeral(t) {
      NumeralIsItoa(t);
    }
  }
}
