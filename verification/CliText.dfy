/** Text lines of the command line tool: whitespace tokens and hexadecimal
    blocks. */
module CliText {
  import opened Wrappers

  /** The Unicode property White_Space, as used by `split_whitespace`. */
  predicate IsSpace(c: char) {
    var n := c as int;
    || 0x9 <= n <= 0xD || n == 0x20 || n == 0x85 || n == 0xA0 || n == 0x1680
    || 0x2000 <= n <= 0x200A || n == 0x2028 || n == 0x2029 || n == 0x202F || n == 0x205F || n == 0x3000
  }

  /** The whitespace characters, one by one: the control characters from tab to carriage
      return, the blank, next line, the no-break space, and the Unicode spaces and
      separators. */
  const WHITESPACE: string := "\t\n\U{0B}\U{0C}\r \U{85}\U{A0}\U{1680}\U{2000}\U{2001}\U{2002}\U{2003}\U{2004}"
                              + "\U{2005}\U{2006}\U{2007}\U{2008}\U{2009}\U{200A}"
                              + "\U{2028}\U{2029}\U{202F}\U{205F}\U{3000}"

  lemma SpaceIff(c: char)
    ensures IsSpace(c) <==> c in WHITESPACE
  {
    if IsSpace(c) {
      var n := c as int;
      var i := if n <= 0xD then n - 9 else if n == 0x20 then 5 else if n == 0x85 then 6 else if n == 0xA0 then 7
               else if n == 0x1680 then 8 else if n <= 0x200A then n - 0x2000 + 9 else if n == 0x2028 then 20
               else if n == 0x2029 then 21 else if n == 0x202F then 22 else if n == 0x205F then 23 else 24;
      assert WHITESPACE[i] == c;
    }
  }

  predicate NoSpace(s: string) {
    forall i :: 0 <= i < |s| ==> !IsSpace(s[i])
  }

  predicate IsToken(s: string) {
    s != "" && NoSpace(s)
  }

  /** The length of the leading run without whitespace. */
  function WordLength(s: string): (n: nat)
    ensures n <= |s| && NoSpace(s[..n]) && (n < |s| ==> IsSpace(s[n]))
  {
    if s == "" || IsSpace(s[0]) then 0
    else
      var n := 1 + WordLength(s[1..]);
      assert s[..n] == [s[0]] + s[1..][..n - 1];
      n
  }

  /** `split_whitespace` */
  function Tokens(s: string): (ts: seq<string>)
    ensures forall i :: 0 <= i < |ts| ==> IsToken(ts[i])
    decreases |s|
  {
    if s == "" then []
    else if IsSpace(s[0]) then Tokens(s[1..])
    else
      var n := WordLength(s);
      assert n > 0;
      [s[..n]] + Tokens(s[n..])
  }

  /** Fields separated by single spaces, as `write!` and `join` produce them. */
  function Join(fields: seq<string>): string {
    if |fields| == 0 then ""
    else if |fields| == 1 then fields[0]
    else fields[0] + " " + Join(fields[1..])
  }

  lemma WordLengthOfPrefix(s: string, rest: string)
    requires WordLength(s) < |s|
    ensures WordLength(s + rest) == WordLength(s)
  {
    if !IsSpace(s[0]) {
      assert (s + rest)[1..] == s[1..] + rest;
      WordLengthOfPrefix(s[1..], rest);
    }
  }

  lemma WordLengthAtSpace(s: string, rest: string)
    requires NoSpace(s) && (rest != "" ==> IsSpace(rest[0]))
    ensures WordLength(s + rest) == |s|
  {
    if s == "" {
      assert s + rest == rest;
    } else {
      assert (s + rest)[1..] == s[1..] + rest;
      WordLengthAtSpace(s[1..], rest);
    }
  }

  lemma TokensOfToken(s: string)
    requires NoSpace(s)
    ensures Tokens(s) == if s == "" then [] else [s]
  {
    if s != "" {
      assert s + "" == s;
      WordLengthAtSpace(s, "");
      assert s[..|s|] == s;
      assert s[|s|..] == "";
    }
  }

  lemma TokensOfLastWord(a: string, b: string)
    requires IsToken(a)
    ensures Tokens(a + " " + b) == [a] + Tokens(b)
  {
    var s := a + " " + b;
    assert s == a + (" " + b);
    WordLengthAtSpace(a, " " + b);
    assert s[..|a|] == a;
    assert s[|a|..] == " " + b;
    assert (" " + b)[1..] == b;
  }

  lemma TokensOfFirstWord(a: string, b: string)
    requires a != "" && !IsSpace(a[0]) && WordLength(a) < |a|
    ensures var n := WordLength(a); Tokens(a + b) == [a[..n]] + Tokens(a[n..] + b)
  {
    var n := WordLength(a);
    WordLengthOfPrefix(a, b);
    assert (a + b)[..n] == a[..n];
    assert (a + b)[n..] == a[n..] + b;
  }

  /** Tokens do not straddle a space: splitting distributes over the fields. */
  lemma {:induction false} TokensOfTwo(a: string, b: string)
    ensures Tokens(a + " " + b) == Tokens(a) + Tokens(b)
    decreases |a|
  {
    if a == "" {
      assert a + " " + b == " " + b;
      assert (" " + b)[1..] == b;
    } else if IsSpace(a[0]) {
      assert (a + " " + b)[1..] == a[1..] + " " + b;
      TokensOfTwo(a[1..], b);
    } else if WordLength(a) == |a| {
      assert a[..|a|] == a;
      TokensOfToken(a);
      TokensOfLastWord(a, b);
    } else {
      var n := WordLength(a);
      assert n > 0;
      TokensOfTwo(a[n..], b);
      TokensOfFirstWord(a, " " + b);
      assert a + (" " + b) == a + " " + b && a[n..] + (" " + b) == a[n..] + " " + b;
    }
  }

  function TokensOfAll(fields: seq<string>): seq<string> {
    if fields == [] then [] else Tokens(fields[0]) + TokensOfAll(fields[1..])
  }

  lemma {:induction false} TokensOfJoin(fields: seq<string>)
    ensures Tokens(Join(fields)) == TokensOfAll(fields)
  {
    if |fields| == 1 {
      assert TokensOfAll(fields[1..]) == [];
    } else if |fields| > 1 {
      TokensOfTwo(fields[0], Join(fields[1..]));
      TokensOfJoin(fields[1..]);
    }
  }

  /** Splitting undoes joining of words. */
  lemma {:induction false} TokensOfJoined(words: seq<string>)
    requires forall i :: 0 <= i < |words| ==> IsToken(words[i])
    ensures Tokens(Join(words)) == words
  {
    if |words| == 1 {
      TokensOfToken(words[0]);
    } else if |words| > 1 {
      TokensOfLastWord(words[0], Join(words[1..]));
      TokensOfJoined(words[1..]);
    }
  }

  // ---- Collapsing whitespace ------------------------------------------------

  /** `split_whitespace().collect().join(" ")` */
  function Collapse(s: string): string {
    Join(Tokens(s))
  }

  /** No whitespace at the ends, and only single blanks in between. */
  predicate IsCollapsed(s: string) {
    s != "" ==>
      && !IsSpace(s[0]) && !IsSpace(s[|s| - 1])
      && forall i :: 0 <= i < |s| - 1 && IsSpace(s[i]) ==> s[i] == ' ' && !IsSpace(s[i + 1])
  }

  lemma {:induction false} JoinedTokensAreCollapsed(ts: seq<string>)
    requires forall i :: 0 <= i < |ts| ==> IsToken(ts[i])
    ensures IsCollapsed(Join(ts)) && (ts != [] ==> Join(ts) != "")
  {
    if |ts| > 1 {
      JoinedTokensAreCollapsed(ts[1..]);
      var rest := Join(ts[1..]);
      var s := ts[0] + " " + rest;
      forall i | 0 <= i < |s| - 1 && IsSpace(s[i])
        ensures s[i] == ' ' && !IsSpace(s[i + 1])
      {
        if i > |ts[0]| {
          assert s[i] == rest[i - |ts[0]| - 1];
        }
      }
    }
  }

  lemma {:induction false} SuffixIsCollapsed(s: string, k: nat)
    requires IsCollapsed(s) && k < |s| && !IsSpace(s[k])
    ensures IsCollapsed(s[k..])
  {
    var rest := s[k..];
    forall i | 0 <= i < |rest| - 1 && IsSpace(rest[i])
      ensures rest[i] == ' ' && !IsSpace(rest[i + 1])
    {
      assert rest[i] == s[k + i] && rest[i + 1] == s[k + i + 1];
    }
  }

  /** The rest of a collapsed text after its first word. */
  lemma {:induction false} RestIsCollapsed(s: string)
    requires s != "" && IsCollapsed(s) && WordLength(s) < |s|
    ensures var n := WordLength(s);
            && 0 < n && n + 1 < |s| && !IsSpace(s[n + 1]) && IsCollapsed(s[n + 1..])
            && s == s[..n] + " " + s[n + 1..]
  {
    var n := WordLength(s);
    SuffixIsCollapsed(s, n + 1);
    assert s[n..n + 1] == " ";
  }

  lemma JoinFirst(t: string, ts: seq<string>)
    requires ts != []
    ensures Join([t] + ts) == t + " " + Join(ts)
  {
    assert ([t] + ts)[1..] == ts;
  }

  lemma {:induction false} CollapsedStays(s: string)
    requires IsCollapsed(s)
    ensures Collapse(s) == s
    decreases |s|
  {
    if s != "" {
      var n := WordLength(s);
      if n < |s| {
        var word, rest := s[..n], s[n + 1..];
        RestIsCollapsed(s);
        CollapsedStays(rest);
        TokensOfLastWord(word, rest);
        JoinFirst(word, Tokens(rest));
      } else {
        assert s[..n] == s;
        TokensOfToken(s);
      }
    }
  }

  /** Collapsing is idempotent, and leaves a text alone exactly when it has no
      whitespace but single blanks between words. */
  lemma CollapseIff(s: string)
    ensures Collapse(s) == s <==> IsCollapsed(s)
    ensures Collapse(Collapse(s)) == Collapse(s)
  {
    JoinedTokensAreCollapsed(Tokens(s));
    CollapsedStays(Collapse(s));
    if IsCollapsed(s) {
      CollapsedStays(s);
    }
  }

  // ---- Hexadecimal blocks ---------------------------------------------------

  type Byte = x: nat | x < 256

  function HexDigit(n: nat): (c: char)
    requires n < 16
    ensures !IsSpace(c) && c != '+' && DigitValue(c) == Some(n)
  {
    if n < 10 then ('0' as nat + n) as char else ('a' as nat + n - 10) as char
  }

  /** `char::to_digit(16)` */
  function DigitValue(c: char): (r: Option<nat>)
    ensures r.Some? ==> r.value < 16
  {
    if '0' <= c <= '9' then Some(c as nat - '0' as nat)
    else if 'a' <= c <= 'f' then Some(c as nat - 'a' as nat + 10)
    else if 'A' <= c <= 'F' then Some(c as nat - 'A' as nat + 10)
    else None
  }

  /** Digits are read in either case and written in lower case. */
  lemma DigitIff(c: char, n: nat)
    requires n < 16
    ensures DigitValue(c) == Some(n) <==> c == "0123456789abcdef"[n] || c == "0123456789ABCDEF"[n]
    ensures HexDigit(n) == "0123456789abcdef"[n]
  {
  }

  /** The block data, two lower-case digits a byte. */
  function HexOf(data: seq<Byte>): (s: string)
    ensures |s| == 2 * |data| && NoSpace(s)
  {
    if data == [] then ""
    else HexOf(data[..|data| - 1]) + [HexDigit(data[|data| - 1] / 16), HexDigit(data[|data| - 1] % 16)]
  }

  /** `u8::from_str_radix(chunk, 16)` for a chunk of one or two characters. A
      leading plus sign is accepted, a sign alone is not. */
  function ByteOf(chunk: string): Option<Byte>
    requires 1 <= |chunk| <= 2
  {
    if |chunk| == 1 then DigitOf(chunk[0])
    else if chunk[0] == '+' then DigitOf(chunk[1])
    else if DigitValue(chunk[0]).Some? && DigitValue(chunk[1]).Some?
    then Some(DigitValue(chunk[0]).value * 16 + DigitValue(chunk[1]).value) else None
  }

  function DigitOf(c: char): Option<Byte> {
    if DigitValue(c).Some? then Some(DigitValue(c).value) else None
  }

  /** The bytes of a text, in chunks of two characters, if all are valid. */
  function BytesOf(s: string): Option<seq<Byte>> {
    if s == "" then Some([])
    else
      var n := if |s| % 2 == 0 then 2 else 1;
      var init, last := BytesOf(s[..|s| - n]), ByteOf(s[|s| - n..]);
      if init.Some? && last.Some? then Some(init.value + [last.value]) else None
  }

  /** The high digit of each byte comes first. */
  lemma {:induction false} HexText(data: seq<Byte>, i: nat)
    requires i < |data|
    ensures HexOf(data)[2 * i] == HexDigit(data[i] / 16) && HexOf(data)[2 * i + 1] == HexDigit(data[i] % 16)
  {
    if i < |data| - 1 {
      HexText(data[..|data| - 1], i);
    }
  }

  /** `chunks(2)`: how many chunks a text has, and the k-th of them. */
  function ChunkCount(s: string): nat {
    (|s| + 1) / 2
  }

  function Chunk(s: string, k: nat): (c: string)
    requires k < ChunkCount(s)
    ensures 1 <= |c| <= 2
  {
    if 2 * k + 1 < |s| then s[2 * k..2 * k + 2] else s[2 * k..]
  }

  /** What each chunk reads as. */
  function ChunkValues(s: string): (vs: seq<Option<Byte>>)
    ensures |vs| == ChunkCount(s)
    ensures forall k :: 0 <= k < |vs| ==> vs[k] == ByteOf(Chunk(s, k))
  {
    seq(ChunkCount(s), k requires 0 <= k < ChunkCount(s) => ByteOf(Chunk(s, k)))
  }

  predicate Reads(vs: seq<Option<Byte>>, r: Option<seq<Byte>>) {
    && (r.None? <==> None in vs)
    && (r.Some? ==> |r.value| == |vs| && forall k :: 0 <= k < |vs| ==> vs[k] == Some(r.value[k]))
  }

  lemma ChunkOfPrefix(s: string, m: nat, k: nat)
    requires m <= |s| && m % 2 == 0 && 2 * k < m
    ensures Chunk(s[..m], k) == Chunk(s, k)
  {
  }

  lemma LastChunk(s: string)
    requires s != ""
    ensures var n := if |s| % 2 == 0 then 2 else 1;
            ChunkValues(s) == ChunkValues(s[..|s| - n]) + [ByteOf(s[|s| - n..])]
  {
    var n := if |s| % 2 == 0 then 2 else 1;
    var m, last := |s| - n, ChunkCount(s) - 1;
    assert Chunk(s, last) == s[m..];
    forall k | 0 <= k < last
      ensures ChunkValues(s)[k] == ChunkValues(s[..m])[k]
    {
      ChunkOfPrefix(s, m, k);
    }
  }

  lemma OneMoreRead(vs: seq<Option<Byte>>, r: Option<seq<Byte>>, v: Option<Byte>)
    requires Reads(vs, r)
    ensures Reads(vs + [v], if r.Some? && v.Some? then Some(r.value + [v.value]) else None)
  {
    assert v in vs + [v];
    assert forall x :: x in vs + [v] <==> x in vs || x == v;
  }

  /** Reading succeeds exactly when every chunk is valid, and then gives the value
      of each chunk, in order. */
  lemma {:induction false} BytesOfMeaning(s: string)
    ensures Reads(ChunkValues(s), BytesOf(s))
  {
    if s != "" {
      var n := if |s| % 2 == 0 then 2 else 1;
      BytesOfMeaning(s[..|s| - n]);
      LastChunk(s);
      OneMoreRead(ChunkValues(s[..|s| - n]), BytesOf(s[..|s| - n]), ByteOf(s[|s| - n..]));
    }
  }

  lemma ByteRoundTrip(b: Byte)
    ensures ByteOf([HexDigit(b / 16), HexDigit(b % 16)]) == Some(b)
  {
  }

  lemma {:induction false} BytesOfMore(s: string, chunk: string)
    requires |s| % 2 == 0 && 1 <= |chunk| <= 2
    ensures BytesOf(s + chunk) ==
            if BytesOf(s).Some? && ByteOf(chunk).Some? then Some(BytesOf(s).value + [ByteOf(chunk).value]) else None
  {
    assert (s + chunk)[..|s|] == s && (s + chunk)[|s|..] == chunk;
  }

  lemma {:induction false} HexRoundTrip(data: seq<Byte>)
    ensures BytesOf(HexOf(data)) == Some(data)
  {
    if data != [] {
      var init, b := data[..|data| - 1], data[|data| - 1];
      HexRoundTrip(init);
      ByteRoundTrip(b);
      BytesOfMore(HexOf(init), [HexDigit(b / 16), HexDigit(b % 16)]);
      assert data == init + [b];
    }
  }

  /** The loop that writes a block. */
  method WriteHex(data: seq<Byte>) returns (s: string)
    ensures s == HexOf(data)
  {
    s := "";
    for i := 0 to |data|
      invariant s == HexOf(data[..i])
    {
      assert data[..i + 1][..i] == data[..i];
      s := s + [HexDigit(data[i] / 16), HexDigit(data[i] % 16)];
    }
    assert data[..|data|] == data;
  }

  /** The loop that reads a block, with its early exit on an invalid chunk. */
  method ReadHex(s: string) returns (r: Option<seq<Byte>>)
    ensures r == BytesOf(s)
    ensures Reads(ChunkValues(s), r)
  {
    var data: seq<Byte> := [];
    var i := 0;
    while i < |s|
      invariant 0 <= i <= |s| && (i < |s| ==> i % 2 == 0)
      invariant BytesOf(s[..i]) == Some(data)
    {
      var n := if i + 2 <= |s| then 2 else 1;
      var b := ByteOf(s[i..i + n]);
      ReadOneMore(s, i, n);
      if b.None? {
        NoBytesBeyond(s, i + n);
        BytesOfMeaning(s);
        return None;
      }
      data := data + [b.value];
      i := i + n;
    }
    assert s[..i] == s;
    BytesOfMeaning(s);
    return Some(data);
  }

  lemma ReadOneMore(s: string, i: nat, n: nat)
    requires i < |s| && i % 2 == 0 && n == if i + 2 <= |s| then 2 else 1
    requires BytesOf(s[..i]).Some?
    ensures BytesOf(s[..i + n]) ==
            if ByteOf(s[i..i + n]).Some? then Some(BytesOf(s[..i]).value + [ByteOf(s[i..i + n]).value]) else None
  {
    assert s[..i + n] == s[..i] + s[i..i + n];
    BytesOfMore(s[..i], s[i..i + n]);
  }

  /** An invalid chunk spoils everything that follows it. */
  lemma {:induction false} NoBytesBeyond(s: string, i: nat)
    requires i <= |s| && (i % 2 == 0 || i == |s|) && BytesOf(s[..i]).None?
    ensures BytesOf(s).None?
    decreases |s|
  {
    if i == |s| {
      assert s[..i] == s;
    } else {
      var n := if |s| % 2 == 0 then 2 else 1;
      assert s[..|s| - n][..i] == s[..i];
      NoBytesBeyond(s[..|s| - n], i);
    }
  }
}
