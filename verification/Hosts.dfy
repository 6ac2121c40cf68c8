/** The host part of endpoints and host paths (the regular expressions of
    src/infra/network.cpp:117-119 and src/program_options.cpp:40-42). */
module Hosts {

  predicate IsDigit(c: char) { '0' <= c <= '9' }

  predicate IsAlnum(c: char) { IsDigit(c) || 'a' <= c <= 'z' || 'A' <= c <= 'Z' }

  predicate IsHex(c: char) { IsDigit(c) || 'a' <= c <= 'f' || 'A' <= c <= 'F' }

  /** The first position of c, |s| when there is none. */
  function IndexOf(s: string, c: char): (i: nat)
    ensures i <= |s| && (i < |s| ==> s[i] == c)
    ensures forall k :: 0 <= k < i ==> s[k] != c
  {
    if s == "" || s[0] == c then 0 else 1 + IndexOf(s[1..], c)
  }

  predicate Label(s: string) {
    && s != "" && IsAlnum(s[0]) && IsAlnum(s[|s| - 1])
    && forall k :: 0 <= k < |s| ==> IsAlnum(s[k]) || s[k] == '-'
  }

  /** Labels joined by dots; this covers IPv4 addresses. */
  predicate HostName(s: string)
    decreases |s|
  {
    var i := IndexOf(s, '.');
    if i < |s| then Label(s[..i]) && HostName(s[i + 1..]) else Label(s)
  }

  predicate Address6Char(c: char) { IsHex(c) || c == ':' || c == '.' }

  /** A bracketed IPv6 address, as a token over its character set. */
  predicate Bracketed(s: string) {
    && |s| > 2 && s[0] == '[' && s[|s| - 1] == ']'
    && forall k :: 1 <= k < |s| - 1 ==> Address6Char(s[k])
  }

  /** The ends of the character ranges, and their neighbours. */
  lemma HostEdges(c: char)
    ensures c in {'0', '9', 'A', 'Z', 'a', 'z'} ==> HostName([c])
    ensures c in {'/', ':', '@', '[', '`', '{', '-', '.', '_'} ==> !HostName([c])
    ensures c in {'0', '9', 'A', 'F', 'a', 'f', ':', '.'} ==> Bracketed(['[', c, ']'])
    ensures c in {'/', ';', '@', 'G', '`', 'g', ']'} ==> !Bracketed(['[', c, ']'])
    ensures !Bracketed("[]")
  {
    assert [c][0] == c;
    assert ['[', c, ']'][1] == c;
  }

  /** Characters that end an unbracketed host. */
  predicate Separator(c: char) { c == ':' || c == '@' || c == '[' || c == ']' }

  lemma {:induction false} HostNameChars(s: string)
    requires HostName(s)
    ensures s != "" && forall k :: 0 <= k < |s| ==> !Separator(s[k])
    decreases |s|
  {
    var i := IndexOf(s, '.');
    if i < |s| {
      HostNameChars(s[i + 1..]);
      forall k | 0 <= k < |s| ensures !Separator(s[k]) {
        if k < i { assert s[..i][k] == s[k]; }
        if k > i { assert s[i + 1..][k - i - 1] == s[k]; }
      }
    }
  }

  /** What the splits below need of a host: it has no separator, or it is one bracketed token. */
  predicate HostToken(h: string) {
    (h != "" && forall k :: 0 <= k < |h| ==> !Separator(h[k])) || Bracketed(h)
  }

  /** A host token that starts a string and is followed by its end or by a colon is found
      without looking back. */
  function TakeHost(s: string): (h: string)
    ensures |h| <= |s| && h == s[..|h|]
  {
    if s != "" && s[0] == '[' then
      var close := IndexOf(s, ']');
      if close < |s| then s[..close + 1] else s
    else s[..IndexOf(s, ':')]
  }

  lemma TakeHostFinds(h: string, rest: string)
    requires HostToken(h) && (rest == "" || rest[0] == ':')
    ensures TakeHost(h + rest) == h
  {
    var s := h + rest;
    if Bracketed(h) {
      assert s[0] == h[0] && s[|h| - 1] == h[|h| - 1] == ']';
      forall k | 0 <= k < |h| - 1 ensures s[k] != ']' { assert s[k] == h[k]; }
      assert IndexOf(s, ']') == |h| - 1;
    } else {
      assert s[0] == h[0];
      forall k | 0 <= k < |h| ensures s[k] != ':' { assert s[k] == h[k]; }
      if rest != "" { assert s[|h|] == ':'; }
      assert IndexOf(s, ':') == |h|;
    }
  }

  // ----- decimal numbers -----

  predicate Digits(s: string) { forall k :: 0 <= k < |s| ==> IsDigit(s[k]) }

  function DigitValue(c: char): nat
    requires IsDigit(c)
  {
    c as int - '0' as int
  }

  /** What strtol makes of a string of digits. */
  function Value(s: string): nat
    requires Digits(s)
    decreases |s|
  {
    if s == "" then 0 else Value(s[..|s| - 1]) * 10 + DigitValue(s[|s| - 1])
  }

  function Digit(d: nat): char
    requires d < 10
  {
    '0' + d as char
  }

  /** std::to_string of an unsigned number. */
  function Decimal(n: nat): (s: string)
    ensures s != "" && Digits(s)
    ensures n > 0 ==> s[0] != '0'
  {
    if n < 10 then [Digit(n)] else Decimal(n / 10) + [Digit(n % 10)]
  }

  lemma {:induction false} ValueOfDecimal(n: nat)
    ensures Value(Decimal(n)) == n
  {
    if n < 10 {
      assert Decimal(n)[..0] == "";
    } else {
      ValueOfDecimal(n / 10);
      assert Decimal(n)[..|Decimal(n)| - 1] == Decimal(n / 10);
    }
  }
}
