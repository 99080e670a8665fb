/** EscapePsw (src/common/common.cpp) and the quoted-string commands it is written into
    (src/service/openvpnmanager.cpp). */
module Quoting {
  import opened Common
  import opened Framing

  predicate Special(c: char) { c == '\\' || c == '"' }

  function EscapeChar(c: char): string {
    if Special(c) then ['\\', c] else [c]
  }

  function Escape(raw: string): string {
    if raw == [] then "" else Escape(raw[..|raw| - 1]) + EscapeChar(raw[|raw| - 1])
  }

  method EscapePsw(raw: string) returns (s: string)
    ensures s == Escape(raw)
  {
    s := "";
    for k := 0 to |raw|
      invariant s == Escape(raw[..k])
    {
      assert raw[..k + 1][..k] == raw[..k];
      if raw[k] == '\\' {
        s := s + "\\\\";
      } else {
        if raw[k] == '"' {
          s := s + "\\\"";
        } else {
          s := s + [raw[k]];
        }
      }
    }
    assert raw[..|raw|] == raw;
  }

  // ------------------------------------------------------------------ reading it back

  /** What a reader has after the opening quote: a backslash stands for the character behind it, and the first
      quote that is not behind one ends the string. The result is the string and what follows the quote. */
  function ReadTail(s: string): Option<(string, string)> {
    if s == [] then None
    else if s[0] == '"' then Some(("", s[1..]))
    else if s[0] == '\\' then
      if |s| == 1 then None
      else
        var r := ReadTail(s[2..]);
        if r.None? then None else Some(([s[1]] + r.value.0, r.value.1))
    else
      var r := ReadTail(s[1..]);
      if r.None? then None else Some(([s[0]] + r.value.0, r.value.1))
  }

  function ReadQuoted(s: string): Option<(string, string)> {
    if s != [] && s[0] == '"' then ReadTail(s[1..]) else None
  }

  lemma {:induction false} Distributes(a: string, b: string)
    ensures Escape(a + b) == Escape(a) + Escape(b)
  {
    if b == [] {
      assert a + b == a;
    } else {
      var n := |b| - 1;
      assert (a + b)[..|a + b| - 1] == a + b[..n];
      Distributes(a, b[..n]);
    }
  }

  lemma EscapeCons(c: char, raw: string)
    ensures Escape([c] + raw) == EscapeChar(c) + Escape(raw)
  {
    Distributes([c], raw);
    assert [c][..0] == [];
  }

  lemma ReadEnd(rest: string)
    ensures Escape("") + "\"" + rest == "\"" + rest && ReadTail("\"" + rest) == Some(("", rest))
  {
    assert ("\"" + rest)[1..] == rest;
  }

  lemma ReadEscaped(c: char, s: string)
    ensures ReadTail(EscapeChar(c) + s) ==
            if ReadTail(s).None? then None else Some(([c] + ReadTail(s).value.0, ReadTail(s).value.1))
  {
    var t := EscapeChar(c) + s;
    if Special(c) {
      assert t[2..] == s;
    } else {
      assert t[1..] == s;
    }
  }

  lemma {:induction false} TailRoundTrip(raw: string, rest: string)
    ensures ReadTail(Escape(raw) + "\"" + rest) == Some((raw, rest))
  {
    hide Escape, EscapeChar, ReadTail;
    if raw == [] {
      ReadEnd(rest);
    } else {
      var c, tail := raw[0], raw[1..];
      assert raw == [c] + tail;
      EscapeCons(c, tail);
      TailRoundTrip(tail, rest);
      ReadEscaped(c, Escape(tail) + "\"" + rest);
      assert Escape(raw) + "\"" + rest == EscapeChar(c) + (Escape(tail) + "\"" + rest);
    }
  }

  lemma BehindQuote(s: string)
    ensures ("\"" + s)[1..] == s
  {
  }

  lemma Reassociate(a: string, b: string, c: string, d: string)
    ensures a + b + c + d == a + (b + c + d)
  {
  }

  /** Whatever the text and whatever follows: reading the quoted escape gives the text back, and stops
      right behind the closing quote. */
  lemma RoundTrip(raw: string, rest: string)
    ensures ReadQuoted("\"" + Escape(raw) + "\"" + rest) == Some((raw, rest))
  {
    hide ReadTail, Escape;
    TailRoundTrip(raw, rest);
    BehindQuote(Escape(raw) + "\"" + rest);
    Reassociate("\"", Escape(raw), "\"", rest);
  }

  lemma Injective(a: string, b: string)
    ensures Escape(a) == Escape(b) <==> a == b
  {
    RoundTrip(a, "");
    RoundTrip(b, "");
    hide Escape, ReadQuoted;
  }

  function Specials(raw: string): nat {
    if raw == [] then 0 else Specials(raw[..|raw| - 1]) + if Special(raw[|raw| - 1]) then 1 else 0
  }

  /** Every special character costs one more; so the length at most doubles. */
  lemma {:induction false} Length(raw: string)
    ensures |Escape(raw)| == |raw| + Specials(raw) && Specials(raw) <= |raw|
    ensures |Escape(raw)| == 2 * |raw| <==> forall i :: 0 <= i < |raw| ==> Special(raw[i])
  {
    if raw != [] {
      Length(raw[..|raw| - 1]);
    }
  }

  // ------------------------------------------------------------------ the commands

  /** username "Auth" "..." and password "Auth" "..." for the management socket. */
  function AuthLine(kind: string, raw: string): string {
    kind + " \"Auth\" \"" + Escape(raw) + "\"" + NEWLINE
  }

  lemma {:induction false} EscapeKeepsNewlines(raw: string)
    ensures '\n' in Escape(raw) <==> '\n' in raw
  {
    if raw != [] {
      EscapeKeepsNewlines(raw[..|raw| - 1]);
    }
  }

  lemma NoNewline(s: string)
    ensures IndexOf(s, NEWLINE) == -1 <==> '\n' !in s
  {
    if '\n' in s {
      var i :| 0 <= i < |s| && s[i] == '\n';
      assert s[i..i + 1] == NEWLINE && Occurs(s, NEWLINE, i);
    }
    var j := IndexOf(s, NEWLINE);
    if j >= 0 {
      assert s[j] == s[j..j + 1][0];
    }
  }

  /** A command reaches the reader as one line exactly if the text has no newline: EscapePsw leaves newlines
      as they are. Then the line is the whole command. */
  lemma OneLineIff(kind: string, raw: string)
    requires '\n' !in kind
    ensures |CutAt(AuthLine(kind, raw), NEWLINE).commands| == 1 <==> '\n' !in raw
    ensures '\n' !in raw ==>
      CutAt(AuthLine(kind, raw), NEWLINE) == Cut([kind + " \"Auth\" \"" + Escape(raw) + "\""], "")
  {
    hide CutAt, Escape, IndexOf;
    var body := kind + " \"Auth\" \"" + Escape(raw) + "\"";
    EscapeKeepsNewlines(raw);
    assert '\n' in body <==> '\n' in raw;
    LineCount(body);
  }

  lemma LineCount(body: string)
    ensures '\n' !in body ==> CutAt(body + NEWLINE, NEWLINE) == Cut([body], "")
    ensures |CutAt(body + NEWLINE, NEWLINE).commands| == 1 <==> '\n' !in body
  {
    hide CutAt, IndexOf;
    NoNewline(body);
    CutStep(body, NEWLINE);
    CutInPieces(body, NEWLINE, NEWLINE);
    CutIsClean(body, NEWLINE);
    var rest := CutAt(body, NEWLINE).rest;
    NoNewline(rest);
    LastLine(rest);
    if '\n' !in body {
      assert [] + [body] == [body];
    }
  }

  lemma LastLine(rest: string)
    requires '\n' !in rest
    ensures CutAt(rest + NEWLINE, NEWLINE) == Cut([rest], "")
  {
    hide CutAt, IndexOf;
    var s := rest + NEWLINE;
    CutStep(s, NEWLINE);
    assert s[|rest|..|rest| + 1] == NEWLINE && Occurs(s, NEWLINE, |rest|);
    var i := IndexOf(s, NEWLINE);
    assert s[i] == s[i..i + 1][0];
    assert i == |rest| && s[..i] == rest && s[i + 1..] == "";
    CutStep("", NEWLINE);
    NoNewline("");
  }
}
