/** The handle index of the iMessage channel (imessage.go): normalizeHandle, loadChats and
    getChatIDForHandle. */
module HandleIndex {
  import opened Wire

  datatype Chat = Chat(id: int, identifier: string, participants: seq<string>)

  predicate IsNumeric(s: string) {
    s != "" && forall i :: 0 <= i < |s| ==> IsDigit(s[i])
  }

  /** The loop of isNumeric. */
  method CheckNumeric(s: string) returns (r: bool)
    ensures r == IsNumeric(s)
  {
    for i := 0 to |s|
      invariant forall k :: 0 <= k < i ==> IsDigit(s[k])
    {
      if !IsDigit(s[i]) {
        return false;
      }
    }
    return |s| > 0;
  }

  /** strings.TrimPrefix */
  function TrimPrefix(s: string, prefix: string): string {
    if prefix <= s then s[|prefix|..] else s
  }

  function Strip(handle: string): string {
    TrimPrefix(TrimPrefix(TrimSpace(handle), "tel:"), "sms:")
  }

  predicate PhoneForm(s: string) {
    "+" <= s || IsNumeric(s)
  }

  predicate PhoneChar(c: char) {
    c == '+' || IsDigit(c)
  }

  function KeepPhone(s: string): string {
    if s == "" then ""
    else
      var front, last := s[..|s| - 1], s[|s| - 1];
      if PhoneChar(last) then KeepPhone(front) + [last] else KeepPhone(front)
  }

  function NormalizeHandle(handle: string): string {
    var h := Strip(handle);
    if PhoneForm(h) then KeepPhone(h) else h
  }

  lemma {:induction false} KeepPhoneMeans(s: string)
    ensures forall i :: 0 <= i < |KeepPhone(s)| ==> PhoneChar(KeepPhone(s)[i])
    ensures (forall i :: 0 <= i < |s| ==> PhoneChar(s[i])) ==> KeepPhone(s) == s
    ensures s != "" && PhoneChar(s[0]) ==> KeepPhone(s) != "" && KeepPhone(s)[0] == s[0]
  {
    if s != "" {
      var front, last := s[..|s| - 1], s[|s| - 1];
      KeepPhoneMeans(front);
      assert front + [last] == s;
      assert forall i :: 0 <= i < |front| ==> front[i] == s[i];
      if front == "" {
        assert KeepPhone(front) == "" && s[0] == last;
      }
      if forall i :: 0 <= i < |s| ==> PhoneChar(s[i]) {
        assert KeepPhone(front) == front && PhoneChar(last);
      }
    }
  }

  /** Exactly the plus signs and the digits are kept, in their order: of two parts those of the first and
      then those of the second, and of one character itself or nothing. */
  lemma {:induction false} KeepPhoneExactly(a: string, b: string, c: char)
    ensures KeepPhone(a + b) == KeepPhone(a) + KeepPhone(b)
    ensures KeepPhone("") == "" && KeepPhone([c]) == if c == '+' || '0' <= c <= '9' then [c] else ""
    decreases b
  {
    assert [c][..0] == "";
    if b == "" {
      assert a + b == a;
    } else {
      var n := |b| - 1;
      assert (a + b)[|a + b| - 1] == b[n] && (a + b)[..|a + b| - 1] == a + b[..n];
      KeepPhoneExactly(a, b[..n], c);
    }
  }

  lemma TrimIsSame(s: string)
    requires s == "" || (!IsSpace(s[0]) && !IsSpace(s[|s| - 1]))
    ensures TrimSpace(s) == s
  {
    assert TrimLeft(s) == s && TrimRight(s) == s;
  }

  /** A normalized phone number is a fixed point. */
  lemma PhoneIsFixedPoint(handle: string)
    requires PhoneForm(Strip(handle))
    ensures NormalizeHandle(NormalizeHandle(handle)) == NormalizeHandle(handle)
  {
    var h := Strip(handle);
    var n := KeepPhone(h);
    KeepPhoneMeans(h);
    KeepPhoneMeans(n);
    assert n != "" && PhoneChar(n[0]) && PhoneChar(n[|n| - 1]);
    TrimIsSame(n);
    assert Strip(n) == n;
    if IsNumeric(h) {
      assert n == h;
    } else {
      assert n[..1] == "+";
    }
  }

  /** Nothing in front of the handle for normalizeHandle to take off: no white space, no prefix. */
  predicate Bare(h: string) {
    h == "" || (!IsSpace(h[0]) && !("tel:" <= h) && !("sms:" <= h))
  }

  /** What is left of a handle has no white space at its end, so stripping it again takes nothing
      off exactly when there is nothing in front. */
  lemma StrippedTwice(handle: string)
    ensures var h := Strip(handle); Strip(h) == h <==> Bare(h)
  {
    var h := Strip(handle);
    StripIsSuffix(handle);
    if h != "" && !IsSpace(h[0]) {
      TrimIsSame(h);
    } else if h != "" {
      TrimShortens(h);
    }
  }

  lemma StripIsSuffix(handle: string)
    ensures var h := Strip(handle); h != "" ==> !IsSpace(h[|h| - 1])
  {
    var i, j := TrimMeans(handle);
    var t := TrimSpace(handle);
    var u := TrimPrefix(t, "tel:");
    assert u != "" ==> u[|u| - 1] == t[|t| - 1];
    var h := TrimPrefix(u, "sms:");
    assert h != "" ==> h[|h| - 1] == u[|u| - 1];
  }

  lemma TrimShortens(s: string)
    requires s != "" && IsSpace(s[0])
    ensures |Strip(s)| < |s|
  {
    var i, j := TrimMeans(s);
    assert TrimSpace(s) != "" ==> s[i] == TrimSpace(s)[0];
    assert |TrimSpace(s)| < |s|;
  }

  /** A handle is normalized for good exactly when what is left of it is a phone number or bare:
      "tel: a" and "sms:tel:a" are neither. */
  lemma NormalizedForGood(handle: string)
    ensures NormalizeHandle(NormalizeHandle(handle)) == NormalizeHandle(handle) <==>
            PhoneForm(Strip(handle)) || Bare(Strip(handle))
  {
    var h := Strip(handle);
    StrippedTwice(handle);
    if PhoneForm(h) {
      PhoneIsFixedPoint(handle);
    } else if Strip(h) != h {
      StripShortens(h);
      if PhoneForm(Strip(h)) {
        KeepPhoneShortens(Strip(h));
      }
    }
  }

  lemma NotIdempotent()
    ensures NormalizeHandle("sms:tel:a") == "tel:a" && NormalizeHandle("tel:a") == "a"
  {
    var s, t := "sms:tel:a", "tel:a";
    TrimIsSame(s);
    TrimIsSame(t);
    assert s[4..] == t && t[4..] == "a";
    assert t[0] == 't' && s[0] == 's';
    assert !("tel:" <= s) by { assert "tel:"[0] != s[0]; }
    assert !("sms:" <= "a");
    assert !PhoneForm(t) && !PhoneForm("a");
  }

  lemma StripShortens(s: string)
    ensures |Strip(s)| <= |s|
    ensures Strip(s) != s ==> |Strip(s)| < |s|
  {
    var i, j := TrimMeans(s);
    if |TrimSpace(s)| == |s| {
      assert s[i..j] == s;
    }
  }

  lemma {:induction false} KeepPhoneShortens(s: string)
    ensures |KeepPhone(s)| <= |s|
  {
    if s != "" {
      KeepPhoneShortens(s[..|s| - 1]);
    }
  }

  // ---------------------------------------------------------------- the index

  /** What a scan over the chats would look at: is this the chat's identifier, or one of its
      participants once normalized? */
  ghost predicate Answers(chat: Chat, key: string) {
    chat.identifier == key || exists i :: 0 <= i < |chat.participants| && NormalizeHandle(chat.participants[i]) == key
  }

  /** The id of the last chat that answers to a key, or what there was before. */
  ghost function Scan(chats: seq<Chat>, key: string, before: int): int {
    if chats == [] then before
    else if Answers(chats[|chats| - 1], key) then chats[|chats| - 1].id
    else Scan(chats[..|chats| - 1], key, before)
  }

  /** The id under a key, or 0. */
  function IdUnder(chats: map<string, Chat>, key: string): int {
    if key in chats then chats[key].id else 0
  }

  class Channel {
    var chats: map<string, Chat>

    constructor ()
      ensures chats == map[]
    {
      chats := map[];
    }

    function GetChatIDForHandle(handle: string): int
      reads this
    {
      IdUnder(chats, NormalizeHandle(handle))
    }

    method IndexChat(chat: Chat)
      modifies this
      ensures forall key :: key in chats <==> key in old(chats) || Answers(chat, key)
      ensures forall key :: key in chats ==> chats[key] == if Answers(chat, key) then chat else old(chats)[key]
    {
      chats := chats[chat.identifier := chat];
      ghost var start := chats;
      for i := 0 to |chat.participants|
        invariant forall key :: key in chats <==> key in start || AmongFirst(chat, i, key)
        invariant forall key :: key in chats ==> chats[key] == if AmongFirst(chat, i, key) then chat else start[key]
      {
        chats := chats[NormalizeHandle(chat.participants[i]) := chat];
        AmongStep(chat, i);
      }
    }

    /** loadChats, for the chats that ListChats returned. Afterwards a look-up finds what a scan
        over the chats would, and where that finds none, what it found before: nothing on a new
        index, the chats of an earlier load otherwise. */
    method LoadChats(list: seq<Chat>)
      modifies this
      ensures forall handle :: GetChatIDForHandle(handle) ==
                Scan(list, NormalizeHandle(handle), old(GetChatIDForHandle(handle)))
      ensures old(chats) == map[] ==>
                forall handle :: GetChatIDForHandle(handle) == Scan(list, NormalizeHandle(handle), 0)
      ensures list != [] ==>
                var last := list[|list| - 1];
                && IdUnder(chats, last.identifier) == last.id
                && forall i :: 0 <= i < |last.participants| ==> GetChatIDForHandle(last.participants[i]) == last.id
    {
      for n := 0 to |list|
        invariant forall key :: IdUnder(chats, key) == Scan(list[..n], key, old(IdUnder(chats, key)))
      {
        assert list[..n + 1][..n] == list[..n];
        IndexChat(list[n]);
      }
      assert list[..|list|] == list;
      if list != [] {
        LastWins(list, chats, old(chats));
      }
    }
  }

  /** The last chat is found under its identifier and under each of its participants. */
  lemma LastWins(list: seq<Chat>, chats: map<string, Chat>, before: map<string, Chat>)
    requires list != [] && forall key :: IdUnder(chats, key) == Scan(list, key, IdUnder(before, key))
    ensures var last := list[|list| - 1];
            && IdUnder(chats, last.identifier) == last.id
            && forall i :: 0 <= i < |last.participants| ==> IdUnder(chats, NormalizeHandle(last.participants[i])) == last.id
  {
    var last := list[|list| - 1];
    assert Answers(last, last.identifier);
    forall i | 0 <= i < |last.participants|
      ensures IdUnder(chats, NormalizeHandle(last.participants[i])) == last.id
    {
      assert Answers(last, NormalizeHandle(last.participants[i]));
    }
  }

  ghost predicate AmongFirst(chat: Chat, n: nat, key: string)
    requires n <= |chat.participants|
  {
    exists i :: 0 <= i < n && NormalizeHandle(chat.participants[i]) == key
  }

  lemma AmongStep(chat: Chat, n: nat)
    requires n < |chat.participants|
    ensures forall key :: AmongFirst(chat, n + 1, key) <==>
              AmongFirst(chat, n, key) || key == NormalizeHandle(chat.participants[n])
  {
    forall key
      ensures AmongFirst(chat, n + 1, key) <==> AmongFirst(chat, n, key) || key == NormalizeHandle(chat.participants[n])
    {
      if i: nat :| i < n + 1 && NormalizeHandle(chat.participants[i]) == key {
        assert i < n || i == n;
      }
    }
  }

  lemma KeepPhoneNext(s: string, i: nat)
    requires i < |s|
    ensures KeepPhone(s[..i + 1]) == if PhoneChar(s[i]) then KeepPhone(s[..i]) + [s[i]] else KeepPhone(s[..i])
  {
    assert s[..i + 1][..i] == s[..i];
  }

  /** The builder loop of normalizeHandle. */
  method KeepLoop(h: string) returns (r: string)
    ensures r == KeepPhone(h)
  {
    r := "";
    for i := 0 to |h|
      invariant r == KeepPhone(h[..i])
    {
      KeepPhoneNext(h, i);
      if PhoneChar(h[i]) {
        r := r + [h[i]];
      }
    }
    assert h[..|h|] == h;
  }

  method Normalize(handle: string) returns (r: string)
    ensures r == NormalizeHandle(handle)
  {
    var h := Strip(handle);
    var numeric := CheckNumeric(h);
    if "+" <= h || numeric {
      r := KeepLoop(h);
    } else {
      r := h;
    }
  }
}
