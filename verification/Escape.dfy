/** escapeAppleScript (imsg/client.go): three replacements, one after the other. */
module Escape {
  import opened Option

  /** strings.ReplaceAll for a one-character pattern. */
  function ReplaceAll(s: string, c: char, with: string): string {
    if s == "" then "" else (if s[0] == c then with else [s[0]]) + ReplaceAll(s[1..], c, with)
  }

  function EscapeAppleScript(s: string): string {
    ReplaceAll(ReplaceAll(ReplaceAll(s, '\\', "\\\\"), '\"', "\\\""), '\n', "\\n")
  }

  /** The same thing, one character at a time. */
  function EncodeChar(c: char): string {
    if c == '\\' then "\\\\" else if c == '\"' then "\\\"" else if c == '\n' then "\\n" else [c]
  }

  function Encode(s: string): string {
    if s == "" then "" else EncodeChar(s[0]) + Encode(s[1..])
  }

  /** Left to right: a backslash with what follows it is one character; a bare quote or newline,
      or an unknown or unfinished escape, is no encoding. */
  function Decode(t: string): Option<string> {
    if t == "" then Some("")
    else if t[0] == '\\' then
      if |t| < 2 || (t[1] != '\\' && t[1] != '\"' && t[1] != 'n') then None
      else Cons(if t[1] == 'n' then '\n' else t[1], Decode(t[2..]))
    else if t[0] == '\"' || t[0] == '\n' then None
    else Cons(t[0], Decode(t[1..]))
  }

  function Cons(c: char, rest: Option<string>): Option<string> {
    match rest case Some(s) => Some([c] + s) case None => None
  }

  lemma {:induction false} ReplaceAppend(a: string, b: string, c: char, with: string)
    ensures ReplaceAll(a + b, c, with) == ReplaceAll(a, c, with) + ReplaceAll(b, c, with)
  {
    if a == "" {
      assert a + b == b;
    } else {
      assert (a + b)[0] == a[0] && (a + b)[1..] == a[1..] + b;
      ReplaceAppend(a[1..], b, c, with);
    }
  }

  lemma ReplaceOne(d: char, c: char, with: string)
    ensures ReplaceAll([d], c, with) == if d == c then with else [d]
  {
    assert [d][1..] == "";
  }

  lemma ReplaceTwo(d: char, e: char, c: char, with: string)
    requires d != c && e != c
    ensures ReplaceAll([d, e], c, with) == [d, e]
  {
    assert [d, e] == [d] + [e];
    ReplaceAppend([d], [e], c, with);
    ReplaceOne(d, c, with);
    ReplaceOne(e, c, with);
  }

  /** What the three passes make of one character. */
  lemma EscapeChar(c: char)
    ensures EscapeAppleScript([c]) == EncodeChar(c)
  {
    ReplaceOne(c, '\\', "\\\\");
    if c == '\\' {
      ReplaceTwo('\\', '\\', '\"', "\\\"");
      ReplaceTwo('\\', '\\', '\n', "\\n");
    } else {
      ReplaceOne(c, '\"', "\\\"");
      if c == '\"' {
        ReplaceTwo('\\', '\"', '\n', "\\n");
      } else {
        ReplaceOne(c, '\n', "\\n");
      }
    }
  }

  /** Character by character: what each is written as. Together with EscapeAppend this is the whole
      of the escaping. */
  lemma EscapedCharacters(c: char)
    ensures EscapeAppleScript("") == ""
    ensures EscapeAppleScript("\\") == ['\\', '\\']
    ensures EscapeAppleScript("\"") == ['\\', '\"']
    ensures EscapeAppleScript("\n") == ['\\', 'n']
    ensures c != '\\' && c != '\"' && c != '\n' ==> EscapeAppleScript([c]) == [c]
  {
    EscapeChar('\\');
    EscapeChar('\"');
    EscapeChar('\n');
    EscapeChar(c);
  }

  lemma EscapeAppend(a: string, b: string)
    ensures EscapeAppleScript(a + b) == EscapeAppleScript(a) + EscapeAppleScript(b)
  {
    ReplaceAppend(a, b, '\\', "\\\\");
    var a1, b1 := ReplaceAll(a, '\\', "\\\\"), ReplaceAll(b, '\\', "\\\\");
    ReplaceAppend(a1, b1, '\"', "\\\"");
    ReplaceAppend(ReplaceAll(a1, '\"', "\\\""), ReplaceAll(b1, '\"', "\\\""), '\n', "\\n");
  }

  /** The three passes never touch what an earlier pass has put in: they are one encoder. */
  lemma {:induction false} EscapeIsEncode(s: string)
    ensures EscapeAppleScript(s) == Encode(s)
  {
    if s != "" {
      assert s == [s[0]] + s[1..];
      EscapeAppend([s[0]], s[1..]);
      EscapeChar(s[0]);
      EscapeIsEncode(s[1..]);
    }
  }

  lemma DecodeOne(c: char, rest: string)
    ensures Decode(EncodeChar(c) + rest) == Cons(c, Decode(rest))
  {
    var e := EncodeChar(c);
    assert (e + rest)[|e|..] == rest;
  }

  lemma {:induction false} DecodeEncode(s: string)
    ensures Decode(Encode(s)) == Some(s)
  {
    if s != "" {
      DecodeEncode(s[1..]);
      DecodeOne(s[0], Encode(s[1..]));
      assert s == [s[0]] + s[1..];
    }
  }

  /** The escaped text determines the original. */
  lemma EscapingRoundTrip(s: string, s': string)
    ensures Decode(EscapeAppleScript(s)) == Some(s)
    ensures EscapeAppleScript(s) == EscapeAppleScript(s') ==> s == s'
  {
    EscapeIsEncode(s);
    EscapeIsEncode(s');
    DecodeEncode(s);
    DecodeEncode(s');
  }

  /** And the decoder accepts exactly the escaped texts. */
  lemma {:induction false} EncodeDecode(t: string)
    ensures Decode(t).Some? ==> EscapeAppleScript(Decode(t).value) == t
  {
    if Decode(t).Some? {
      EscapeIsEncode(Decode(t).value);
      if t != "" {
        var n := if t[0] == '\\' then 2 else 1;
        EncodeDecode(t[n..]);
        var rest := Decode(t[n..]).value;
        EscapeIsEncode(rest);
        assert Decode(t).value[1..] == rest;
        assert t == t[..n] + t[n..];
        assert t[..n] == EncodeChar(Decode(t).value[0]);
      }
    }
  }

  // ---------------------------------------------------------------- inside an AppleScript string

  /** The length of the run of backslashes that ends a text. */
  function Backslashes(t: string): nat {
    if t != "" && t[|t| - 1] == '\\' then 1 + Backslashes(t[..|t| - 1]) else 0
  }

  /** No newline, and every quote stands behind an odd number of backslashes. */
  ghost predicate Guarded(t: string) {
    && '\n' !in t
    && (forall i :: 0 <= i < |t| && t[i] == '\"' ==> Backslashes(t[..i]) % 2 == 1)
  }

  /** No character of the text ends the string literal it is put into. */
  ghost predicate StaysInside(t: string) {
    Guarded(t) && Backslashes(t) % 2 == 0
  }

  lemma BackslashesSnoc(t: string, d: char)
    ensures Backslashes(t + [d]) == if d == '\\' then 1 + Backslashes(t) else 0
  {
    assert (t + [d])[..|t|] == t;
  }

  lemma GuardedSnoc(t: string, d: char)
    requires Guarded(t) && d != '\n' && (d == '\"' ==> Backslashes(t) % 2 == 1)
    ensures Guarded(t + [d])
  {
    var t' := t + [d];
    forall i | 0 <= i < |t'| && t'[i] == '\"'
      ensures Backslashes(t'[..i]) % 2 == 1
    {
      assert t'[..i] == t[..i];
    }
  }

  /** A plain character keeps the text inside. */
  lemma InsidePlain(t: string, c: char)
    requires StaysInside(t) && c != '\\' && c != '\"' && c != '\n'
    ensures StaysInside(t + [c])
  {
    BackslashesSnoc(t, c);
    GuardedSnoc(t, c);
  }

  /** So does a character behind a backslash of its own. */
  lemma InsidePair(t: string, d: char)
    requires StaysInside(t) && d != '\n'
    ensures StaysInside(t + ['\\'] + [d])
  {
    var u := t + ['\\'];
    BackslashesSnoc(t, '\\');
    GuardedSnoc(t, '\\');
    BackslashesSnoc(u, d);
    GuardedSnoc(u, d);
  }

  lemma InsideSnoc(t: string, c: char)
    requires StaysInside(t)
    ensures StaysInside(t + EncodeChar(c))
  {
    var e := EncodeChar(c);
    if |e| == 2 {
      InsidePair(t, e[1]);
      assert t + e == t + ['\\'] + [e[1]];
    } else {
      InsidePlain(t, c);
    }
  }

  /** The escaped text has no raw newline, every quote in it stands behind an odd number of
      backslashes, and it ends behind an even number, so that the closing quote counts. */
  lemma {:induction false} EscapedStaysInside(s: string)
    ensures StaysInside(EscapeAppleScript(s))
  {
    EscapeIsEncode(s);
    if s != "" {
      var front, c := s[..|s| - 1], s[|s| - 1];
      EscapedStaysInside(front);
      EscapeIsEncode(front);
      assert s == front + [c];
      EscapeAppend(front, [c]);
      EscapeChar(c);
      InsideSnoc(Encode(front), c);
    }
  }
}
