/** The text form of the downstream wire: newline-separated batches, and the
    split / trim / skip-empty loop with which both peers take them apart. */
module Wire {

  predicate IsDigit(c: char) {
    '0' <= c <= '9'
  }

  /** The code points that Go's unicode.IsSpace accepts. */
  predicate IsSpace(c: char) {
    || '\t' <= c <= '\r' || c == ' '
    || c == '\U{85}' || c == '\U{A0}' || c == '\U{1680}'
    || '\U{2000}' <= c <= '\U{200A}'
    || c == '\U{2028}' || c == '\U{2029}' || c == '\U{202F}' || c == '\U{205F}' || c == '\U{3000}'
  }

  function TrimLeft(s: string): string {
    if s != "" && IsSpace(s[0]) then TrimLeft(s[1..]) else s
  }

  function TrimRight(s: string): string {
    if s != "" && IsSpace(s[|s| - 1]) then TrimRight(s[..|s| - 1]) else s
  }

  /** strings.TrimSpace */
  function TrimSpace(s: string): string {
    TrimRight(TrimLeft(s))
  }

  ghost predicate AllSpace(s: string) {
    forall i :: 0 <= i < |s| ==> IsSpace(s[i])
  }

  /** r stands in s between two runs of white space and itself has none at either end. */
  ghost predicate IsTrimmed(s: string, r: string, i: nat, j: nat) {
    && i <= j <= |s| && r == s[i..j] && AllSpace(s[..i]) && AllSpace(s[j..])
    && (r != "" ==> !IsSpace(r[0]) && !IsSpace(r[|r| - 1]))
  }

  lemma {:induction false} TrimLeftMeans(s: string) returns (i: nat)
    ensures i <= |s| && TrimLeft(s) == s[i..] && AllSpace(s[..i])
    ensures i < |s| ==> !IsSpace(s[i])
  {
    i := 0;
    if s != "" && IsSpace(s[0]) {
      i := TrimLeftMeans(s[1..]);
      assert s[1..][i..] == s[i + 1..];
      assert s[..i + 1] == [s[0]] + s[1..][..i];
      i := i + 1;
    }
  }

  lemma {:induction false} TrimRightMeans(s: string) returns (j: nat)
    ensures j <= |s| && TrimRight(s) == s[..j] && AllSpace(s[j..])
    ensures j > 0 ==> !IsSpace(s[j - 1])
  {
    j := |s|;
    if s != "" && IsSpace(s[|s| - 1]) {
      var front := s[..|s| - 1];
      j := TrimRightMeans(front);
      assert front[..j] == s[..j];
      assert s[j..] == front[j..] + [s[|s| - 1]];
    }
  }

  /** TrimSpace removes the white space at both ends, all of it and nothing else. */
  lemma TrimMeans(s: string) returns (i: nat, j: nat)
    ensures IsTrimmed(s, TrimSpace(s), i, j)
  {
    i := TrimLeftMeans(s);
    var l := s[i..];
    var k := TrimRightMeans(l);
    j := i + k;
    assert s[i..j] == l[..k] && s[j..] == l[k..];
  }

  /** strings.Split(s, "\n"): the pieces between newlines, never an empty list. */
  function Split(s: string): (r: seq<string>)
    ensures |r| > 0
    ensures forall p :: p in r ==> '\n' !in p
  {
    if s == "" then [""]
    else
      var rest := Split(s[1..]);
      if s[0] == '\n' then [""] + rest else [[s[0]] + rest[0]] + rest[1..]
  }

  /** The trimmed pieces of a list, empty ones skipped. */
  function Keep(pieces: seq<string>): (r: seq<string>) {
    if pieces == [] then [] else Kept(pieces[0]) + Keep(pieces[1..])
  }

  function Kept(piece: string): seq<string> {
    var line := TrimSpace(piece);
    if line == "" then [] else [line]
  }

  /** What a reader hands to its dispatcher for one WebSocket message. */
  function Lines(raw: string): seq<string> {
    Keep(Split(raw))
  }

  /** What the two peers put on the wire as one message: json.Marshal output. */
  predicate Clean(m: string) {
    m != "" && '\n' !in m && !IsSpace(m[0]) && !IsSpace(m[|m| - 1])
  }

  type Message = m: string | Clean(m) witness "{"

  lemma {:induction false} KeepAppend(a: seq<string>, b: seq<string>)
    ensures Keep(a + b) == Keep(a) + Keep(b)
  {
    if a == [] {
      assert a + b == b;
    } else {
      assert (a + b)[0] == a[0] && (a + b)[1..] == a[1..] + b;
      KeepAppend(a[1..], b);
    }
  }

  lemma {:induction false} SplitAppend(a: string, b: string)
    ensures Split(a + "\n" + b) == Split(a) + Split(b)
  {
    var s := a + "\n" + b;
    if a == "" {
      assert s[0] == '\n' && s[1..] == b;
    } else {
      assert s[0] == a[0] && s[1..] == a[1..] + "\n" + b;
      SplitAppend(a[1..], b);
    }
  }

  lemma {:induction false} SplitSingle(m: string)
    requires '\n' !in m
    ensures Split(m) == [m]
  {
    if m != "" {
      SplitSingle(m[1..]);
      assert [m[0]] + m[1..] == m;
    }
  }

  /** A newline is a message boundary whatever stands on its two sides. */
  lemma LinesAppend(a: string, b: string)
    ensures Lines(a + "\n" + b) == Lines(a) + Lines(b)
  {
    SplitAppend(a, b);
    KeepAppend(Split(a), Split(b));
  }

  lemma TrimClean(m: string)
    requires Clean(m)
    ensures TrimSpace(m) == m
  {
    assert TrimLeft(m) == m;
    assert TrimRight(m) == m;
  }

  /** A clean message on its own is read back as that one message. */
  lemma LinesClean(m: string)
    requires Clean(m)
    ensures Lines(m) == [m]
  {
    SplitSingle(m);
    TrimClean(m);
    assert Keep([m]) == [m] + Keep([m][1..]);
  }

  /** Readers never hand on anything but clean lines, whatever a frame contains. */
  lemma {:induction false} KeepIsClean(pieces: seq<string>)
    requires forall p :: p in pieces ==> '\n' !in p
    ensures forall l :: l in Keep(pieces) ==> Clean(l)
  {
    if pieces != [] {
      KeepIsClean(pieces[1..]);
      var p := pieces[0];
      var i, j := TrimMeans(p);
      assert p in pieces;
    }
  }

  /** White space in front of a clean line and behind it, such as the carriage return of a peer that
      ends its lines with two characters, is taken off and nothing else is. */
  lemma PaddedLine(a: string, m: string, b: string)
    requires AllSpace(a) && Clean(m) && AllSpace(b)
    ensures Kept(a + m + b) == [m]
  {
    SkipLeft(a, m + b);
    assert a + m + b == a + (m + b) && (m + b)[0] == m[0];
    assert TrimLeft(m + b) == m + b;
    SkipRight(m, b);
    assert TrimRight(m) == m;
  }

  lemma {:induction false} SkipLeft(a: string, rest: string)
    requires AllSpace(a)
    ensures TrimLeft(a + rest) == TrimLeft(rest)
  {
    if a == "" {
      assert a + rest == rest;
    } else {
      assert (a + rest)[0] == a[0] && (a + rest)[1..] == a[1..] + rest;
      SkipLeft(a[1..], rest);
    }
  }

  lemma {:induction false} SkipRight(front: string, b: string)
    requires AllSpace(b)
    ensures TrimRight(front + b) == TrimRight(front)
  {
    if b == "" {
      assert front + b == front;
    } else {
      var n := |b| - 1;
      assert (front + b)[|front + b| - 1] == b[n] && (front + b)[..|front + b| - 1] == front + b[..n];
      SkipRight(front, b[..n]);
    }
  }

  /** And a piece of nothing but white space makes no line. */
  lemma BlankLine(a: string)
    requires AllSpace(a)
    ensures Kept(a) == []
  {
    SkipLeft(a, "");
    assert a + "" == a;
  }

  /** What counts as white space, code point by code point. */
  lemma SpaceExactly(c: char)
    ensures IsSpace(c) <==> c as int in {0x9, 0xA, 0xB, 0xC, 0xD, 0x20, 0x85, 0xA0, 0x1680,
                                         0x2000, 0x2001, 0x2002, 0x2003, 0x2004, 0x2005, 0x2006, 0x2007, 0x2008,
                                         0x2009, 0x200A, 0x2028, 0x2029, 0x202F, 0x205F, 0x3000}
  {
  }

  lemma LinesAreClean(raw: string)
    ensures forall l :: l in Lines(raw) ==> Clean(l)
  {
    KeepIsClean(Split(raw));
  }

  /** The text of a batch: the first message, then a newline before each further one. */
  function Batch(ms: seq<string>): string
    requires ms != []
  {
    if |ms| == 1 then ms[0] else Batch(ms[..|ms| - 1]) + "\n" + ms[|ms| - 1]
  }

  /** The text of a batch has the messages between its newlines, each as it is, and nothing else. */
  lemma {:induction false} SplitBatch(ms: seq<string>)
    requires ms != [] && forall m :: m in ms ==> '\n' !in m
    ensures Split(Batch(ms)) == ms
  {
    var front, last := ms[..|ms| - 1], ms[|ms| - 1];
    assert ms == front + [last];
    SplitSingle(last);
    if front != [] {
      SplitBatch(front);
      SplitAppend(Batch(front), last);
    }
  }

  /** Batching loses no boundary: a frame is read back as exactly the messages written into it. */
  lemma {:induction false} BatchRoundTrip(ms: seq<string>)
    requires ms != [] && forall m :: m in ms ==> Clean(m)
    ensures Lines(Batch(ms)) == ms
  {
    var last := ms[|ms| - 1];
    LinesClean(last);
    var front := ms[..|ms| - 1];
    assert ms == front + [last];
    if front == [] {
      assert Batch(ms) == last;
    } else {
      BatchRoundTrip(front);
      LinesAppend(Batch(front), last);
    }
  }

  /** conn.WriteJSON ends its one message with a newline; the server reads the same message. */
  lemma WriteJSONRoundTrip(m: string)
    requires Clean(m)
    ensures Lines(m + "\n") == [m]
  {
    SplitAppend(m, "");
    SplitSingle(m);
    TrimClean(m);
    assert m + "\n" + "" == m + "\n";
    assert Split(m + "\n") == [m, ""];
    KeepPair(m);
  }

  lemma KeepPair(m: string)
    requires TrimSpace(m) == m != ""
    ensures Keep([m, ""]) == [m]
  {
    assert [m, ""][1..] == [""];
    assert Keep([""]) == [] by { assert [""][1..] == []; }
  }

  lemma SplitCut(raw: string, start: nat, i: nat)
    requires start <= i < |raw| && raw[i] == '\n' && '\n' !in raw[start..i]
    ensures Split(raw[start..]) == [raw[start..i]] + Split(raw[i + 1..])
  {
    var piece := raw[start..i];
    assert raw[start..] == piece + "\n" + raw[i + 1..];
    SplitAppend(piece, raw[i + 1..]);
    SplitSingle(piece);
  }

  lemma CutKeeps(raw: string, pieces: seq<string>, start: nat, i: nat)
    requires start <= i < |raw| && raw[i] == '\n' && '\n' !in raw[start..i]
    ensures pieces + Split(raw[start..]) == (pieces + [raw[start..i]]) + Split(raw[i + 1..])
  {
    SplitCut(raw, start, i);
  }

  lemma KeepOne(piece: string)
    ensures Keep([piece]) == Kept(piece)
  {
    assert [piece][1..] == [];
  }

  /** The scan of strings.Split followed by the trim-and-skip loop of readLoop and readPump. */
  method SplitFrame(raw: string) returns (out: seq<string>)
    ensures out == Lines(raw)
  {
    var pieces: seq<string> := [];
    var start, i := 0, 0;
    assert raw[0..] == raw;
    while i < |raw|
      invariant 0 <= start <= i <= |raw|
      invariant '\n' !in raw[start..i]
      invariant pieces + Split(raw[start..]) == Split(raw)
    {
      if raw[i] == '\n' {
        CutKeeps(raw, pieces, start, i);
        pieces := pieces + [raw[start..i]];
        start := i + 1;
      }
      i := i + 1;
    }
    SplitSingle(raw[start..]);
    pieces := pieces + [raw[start..]];
    out := KeepLoop(pieces);
  }

  method KeepLoop(pieces: seq<string>) returns (out: seq<string>)
    ensures out == Keep(pieces)
  {
    out := [];
    for k := 0 to |pieces|
      invariant out == Keep(pieces[..k])
    {
      var line := TrimSpace(pieces[k]);
      KeepAppend(pieces[..k], [pieces[k]]);
      assert pieces[..k + 1] == pieces[..k] + [pieces[k]];
      KeepOne(pieces[k]);
      if line != "" {
        out := out + [line];
      }
    }
    assert pieces[..|pieces|] == pieces;
  }
}
