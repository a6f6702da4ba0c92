/** Event notes: arbitrary bytes are made valid UTF-8 and cut to the size the events API allows,
    never inside a character. Valid UTF-8 is as in sections 3 and 4 of RFC 3629. */
module EventNote {

  type byte = x: int | 0 <= x < 256

  const LIMIT := 1024
  const SUFFIX: seq<byte> := [0x2E, 0x2E, 0x2E]
  const REPLACEMENT: seq<byte> := [0xEF, 0xBF, 0xBD]

  predicate Tail(b: byte) {
    0x80 <= b <= 0xBF
  }

  /** The length of the character that begins `s`, or 0 if none does. */
  function RuneLength(s: seq<byte>): (k: nat)
    ensures k <= |s| && k <= 4
    ensures k > 0 ==> RuneStart(s[0]) && forall i | 0 < i < k :: Tail(s[i])
  {
    if |s| == 0 then 0
    else if s[0] <= 0x7F then 1
    else if 0xC2 <= s[0] <= 0xDF then
      if |s| >= 2 && Tail(s[1]) then 2 else 0
    else if 0xE0 <= s[0] <= 0xEF then
      if && |s| >= 3 && Tail(s[1]) && Tail(s[2])
         && (s[0] == 0xE0 ==> s[1] >= 0xA0) && (s[0] == 0xED ==> s[1] <= 0x9F) then 3 else 0
    else if 0xF0 <= s[0] <= 0xF4 then
      if && |s| >= 4 && Tail(s[1]) && Tail(s[2]) && Tail(s[3])
         && (s[0] == 0xF0 ==> s[1] >= 0x90) && (s[0] == 0xF4 ==> s[1] <= 0x8F) then 4 else 0
    else 0
  }

  // ---- Characters ---------------------------------------------------------------------------

  /** A Unicode scalar value: no surrogates, nothing beyond 0x10FFFF. */
  predicate Scalar(c: int) {
    0 <= c <= 0x10FFFF && !(0xD800 <= c <= 0xDFFF)
  }

  /** The bytes of a character as in section 3 of RFC 3629: six bits a byte, from the last to the first. */
  function Encoded(c: int): seq<byte>
    requires Scalar(c)
  {
    var d := c / 64;
    if c < 0x80 then [c]
    else if c < 0x800 then [0xC0 + d, 0x80 + c % 64]
    else if c < 0x10000 then [0xE0 + d / 64, 0x80 + d % 64, 0x80 + c % 64]
    else
      var e := d / 64;
      [0xF0 + e / 64, 0x80 + e % 64, 0x80 + d % 64, 0x80 + c % 64]
  }

  /** Every character is recognised at its length, whatever follows. */
  lemma EncodedIsRune(c: int, rest: seq<byte>)
    requires Scalar(c)
    ensures RuneLength(Encoded(c) + rest) == |Encoded(c)|
  {
    var e := Encoded(c);
    EncodedAlone(c);
    RuneLengthExtends(e, rest);
  }

  lemma EncodedAlone(c: int)
    requires Scalar(c)
    ensures RuneLength(Encoded(c)) == |Encoded(c)|
  {
    var d := c / 64;
    if 0x800 <= c < 0x10000 {
      assert 0x20 <= d <= 0x3FF && !(0x360 <= d <= 0x37F);
    } else if c >= 0x10000 {
      assert 0x400 <= d <= 0x43FF;
      var e := d / 64;
      assert 0x10 <= e <= 0x10F;
    }
  }

  /** Nothing else is. */
  lemma RuneIsEncoded(s: seq<byte>) returns (c: int)
    requires RuneLength(s) > 0
    ensures Scalar(c) && s[..RuneLength(s)] == Encoded(c)
  {
    var k := RuneLength(s);
    if k == 1 {
      c := s[0];
    } else if k == 2 {
      c := SixMore(s[0] - 0xC0, s[1]);
    } else if k == 3 {
      var d := SixMore(s[0] - 0xE0, s[1]);
      c := SixMore(d, s[2]);
    } else {
      c := FourBytes(s[0], s[1], s[2], s[3]);
    }
  }

  /** Six bits more. */
  lemma SixMore(d: nat, b: byte) returns (c: nat)
    requires Tail(b)
    ensures c == 64 * d + (b - 0x80) && c / 64 == d && c % 64 == b - 0x80
  {
    c := 64 * d + (b - 0x80);
  }

  lemma FourBytes(b0: byte, b1: byte, b2: byte, b3: byte) returns (c: int)
    requires 0xF0 <= b0 <= 0xF4 && Tail(b1) && Tail(b2) && Tail(b3)
    requires (b0 == 0xF0 ==> b1 >= 0x90) && (b0 == 0xF4 ==> b1 <= 0x8F)
    ensures Scalar(c) && Encoded(c) == [b0, b1, b2, b3]
  {
    var e := SixMore(b0 - 0xF0, b1);
    var d := SixMore(e, b2);
    c := SixMore(d, b3);
  }

  predicate ValidUtf8(s: seq<byte>) {
    s == [] || (RuneLength(s) > 0 && ValidUtf8(s[RuneLength(s)..]))
  }

  /** The first byte of a character, or a byte of none. */
  predicate RuneStart(b: byte) {
    !Tail(b)
  }

  // ---- Sanitising ---------------------------------------------------------------------------

  /** Every run of bytes that begin no character becomes one replacement character; `bad` says that
      the previous byte belonged to such a run. */
  function Sanitised(s: seq<byte>, bad: bool): seq<byte> {
    if s == [] then []
    else
      var k := RuneLength(s);
      if k == 0 then (if bad then [] else REPLACEMENT) + Sanitised(s[1..], true)
      else s[..k] + Sanitised(s[k..], false)
  }

  lemma RunePrepends(r: seq<byte>, s: seq<byte>)
    requires RuneLength(r) == |r| > 0
    ensures RuneLength(r + s) == |r| && (r + s)[|r|..] == s
    ensures ValidUtf8(s) ==> ValidUtf8(r + s)
  {
    assert (r + s)[|r|..] == s;
  }

  lemma {:induction false} SanitisedIsValid(s: seq<byte>, bad: bool)
    ensures ValidUtf8(Sanitised(s, bad))
    decreases |s|
  {
    if s != [] {
      var k := RuneLength(s);
      if k == 0 {
        SanitisedIsValid(s[1..], true);
        var rest := Sanitised(s[1..], true);
        if bad { assert [] + rest == rest; } else { RunePrepends(REPLACEMENT, rest); }
      } else {
        SanitisedIsValid(s[k..], false);
        RunePrepends(s[..k], Sanitised(s[k..], false));
      }
    }
  }

  /** Valid input is left as it is. */
  lemma {:induction false} ValidIsKept(s: seq<byte>)
    requires ValidUtf8(s)
    ensures Sanitised(s, false) == s
    decreases |s|
  {
    if s != [] {
      var k := RuneLength(s);
      ValidIsKept(s[k..]);
      assert s[..k] + s[k..] == s;
    }
  }

  /** Bytes fall into characters and maximal runs of bytes that begin none. */
  datatype Piece = Character(bytes: seq<byte>) | Garbage(bytes: seq<byte>)

  predicate Parsed(pieces: seq<Piece>, s: seq<byte>)
    decreases |pieces|
  {
    if pieces == [] then s == []
    else
      var p := pieces[0];
      && p.bytes != [] && p.bytes <= s && Parsed(pieces[1..], s[|p.bytes|..])
      && (p.Character? ==> RuneLength(s) == |p.bytes|)
      && (p.Garbage? ==>
            && (forall i | 0 <= i < |p.bytes| :: RuneLength(s[i..]) == 0)
            && (|pieces| > 1 ==> pieces[1].Character?))
  }

  /** Every character as it is and in its place, every run of garbage as one replacement. */
  function Shown(pieces: seq<Piece>): seq<byte> {
    if pieces == [] then []
    else (if pieces[0].Character? then pieces[0].bytes else REPLACEMENT) + Shown(pieces[1..])
  }

  lemma {:induction false} GarbageGoes(s: seq<byte>, k: nat, bad: bool)
    requires k <= |s| && forall i | 0 <= i < k :: RuneLength(s[i..]) == 0
    ensures k > 0 ==> Sanitised(s, bad) == (if bad then [] else REPLACEMENT) + Sanitised(s[k..], true)
    decreases k
  {
    if k > 0 {
      assert s[0..] == s;
      var rest := s[1..];
      forall i | 0 <= i < k - 1
        ensures RuneLength(rest[i..]) == 0
      {
        assert rest[i..] == s[i + 1..];
      }
      GarbageGoes(rest, k - 1, true);
      assert rest[k - 1..] == s[k..];
      assert [] + Sanitised(s[k..], true) == Sanitised(s[k..], true);
    }
  }

  /** Sanitising replaces every maximal run of garbage by one replacement character and keeps every
      character, in order. */
  lemma {:induction false} SanitisedIsShown(s: seq<byte>, pieces: seq<Piece>, bad: bool)
    requires Parsed(pieces, s) && (bad && pieces != [] ==> pieces[0].Character?)
    ensures Sanitised(s, bad) == Shown(pieces)
    decreases |pieces|
  {
    if pieces != [] {
      var p := pieces[0];
      SanitisedIsShown(s[|p.bytes|..], pieces[1..], p.Garbage?);
      if p.Garbage? {
        GarbageGoes(s, |p.bytes|, false);
      } else {
        assert s[..|p.bytes|] == p.bytes;
      }
    }
  }

  /** All bytes can be parsed like this. */
  lemma {:induction false} CanBeParsed(s: seq<byte>) returns (pieces: seq<Piece>)
    ensures Parsed(pieces, s)
    decreases |s|
  {
    if s == [] { return []; }
    var k := RuneLength(s);
    assert s[0..] == s;
    if k > 0 {
      var rest := CanBeParsed(s[k..]);
      pieces := [Character(s[..k])] + rest;
      assert pieces[1..] == rest;
    } else {
      var rest := CanBeParsed(s[1..]);
      pieces := GarbageFirst(s, rest);
    }
  }

  lemma GarbageFirst(s: seq<byte>, rest: seq<Piece>) returns (pieces: seq<Piece>)
    requires s != [] && RuneLength(s) == 0 && Parsed(rest, s[1..])
    ensures Parsed(pieces, s)
  {
    assert s[0..] == s;
    if rest != [] && rest[0].Garbage? {
      var g := [s[0]] + rest[0].bytes;
      pieces := [Garbage(g)] + rest[1..];
      assert pieces[1..] == rest[1..] && s[|g|..] == s[1..][|rest[0].bytes|..];
      forall i | 0 <= i < |g|
        ensures RuneLength(s[i..]) == 0
      {
        if i > 0 { assert s[i..] == s[1..][i - 1..]; }
      }
    } else {
      pieces := [Garbage([s[0]])] + rest;
      assert pieces[1..] == rest;
    }
  }

  /** One step of the loop below. */
  lemma SanitisedStep(r: seq<byte>, s: seq<byte>, i: nat, bad: bool)
    requires i < |s|
    ensures var k := RuneLength(s[i..]);
            r + Sanitised(s[i..], bad) ==
            if k == 0 then (r + (if bad then [] else REPLACEMENT)) + Sanitised(s[i + 1..], true)
            else (r + s[i..i + k]) + Sanitised(s[i + k..], false)
  {
    var rest := s[i..];
    var k := RuneLength(rest);
    if k == 0 {
      assert rest[1..] == s[i + 1..];
    } else {
      assert rest[k..] == s[i + k..] && rest[..k] == s[i..i + k];
    }
  }

  /** The loop over the bytes that the library does. */
  method Sanitise(s: seq<byte>) returns (r: seq<byte>)
    ensures r == Sanitised(s, false)
  {
    r := [];
    var i, bad := 0, false;
    assert s[0..] == s;
    while i < |s|
      invariant 0 <= i <= |s|
      invariant r + Sanitised(s[i..], bad) == Sanitised(s, false)
    {
      SanitisedStep(r, s, i, bad);
      var k := RuneLength(s[i..]);
      if k == 0 {
        r := r + if bad then [] else REPLACEMENT;
        i, bad := i + 1, true;
      } else {
        r := r + s[i..i + k];
        i, bad := i + k, false;
      }
    }
  }

  // ---- Cutting ------------------------------------------------------------------------------

  /** A prefix of valid bytes is valid exactly if a character begins where it ends. */
  lemma {:induction false} PrefixValidIff(s: seq<byte>, i: nat)
    requires ValidUtf8(s) && i <= |s|
    ensures ValidUtf8(s[..i]) <==> i == |s| || RuneStart(s[i])
    decreases |s|
  {
    var k := RuneLength(s);
    if i == |s| {
      assert s[..i] == s;
    } else if i == 0 {
      assert s[..i] == [];
    } else if i < k {
      assert RuneLength(s[..i]) == 0;
    } else {
      assert s[..i][k..] == s[k..][..i - k];
      PrefixValidIff(s[k..], i - k);
    }
  }

  lemma RuneLengthExtends(s: seq<byte>, t: seq<byte>)
    requires RuneLength(s) > 0
    ensures RuneLength(s + t) == RuneLength(s)
  {
  }

  lemma DropThenAppend(s: seq<byte>, t: seq<byte>, k: nat)
    requires k <= |s|
    ensures (s + t)[k..] == s[k..] + t
  {
  }

  lemma {:induction false} ValidAppend(s: seq<byte>, t: seq<byte>)
    requires ValidUtf8(s) && ValidUtf8(t)
    ensures ValidUtf8(s + t)
    decreases |s|
  {
    if s == [] {
      assert s + t == t;
    } else {
      var k := RuneLength(s);
      ValidAppend(s[k..], t);
      RuneLengthExtends(s, t);
      DropThenAppend(s, t, k);
    }
  }

  /** Any four bytes in a row of valid UTF-8 hold the start of a character, or the end of the text. */
  lemma {:induction false} StartNearby(s: seq<byte>, i: nat)
    requires ValidUtf8(s) && 3 <= i < |s|
    ensures RuneStart(s[i]) || RuneStart(s[i - 1]) || RuneStart(s[i - 2]) || RuneStart(s[i - 3])
    decreases |s|
  {
    var k := RuneLength(s);
    if i >= k + 3 {
      StartNearby(s[k..], i - k);
    } else if i >= k {
      assert s[k..][0] == s[k] && RuneStart(s[k]);
    }
  }

  /** The longest prefix of valid UTF-8 that is valid and has at most `limit` bytes. */
  predicate LongestPrefix(s: seq<byte>, limit: nat, k: nat) {
    && k <= limit && k <= |s| && ValidUtf8(s[..k])
    && forall j | k < j <= limit && j <= |s| :: !ValidUtf8(s[..j])
  }

  /** Scans backward for the start of a character. */
  method CutPoint(note: seq<byte>) returns (k: nat)
    requires ValidUtf8(note) && |note| > LIMIT
    ensures LongestPrefix(note, LIMIT - |SUFFIX|, k) && k >= LIMIT - |SUFFIX| - 3
  {
    k := LIMIT - |SUFFIX|;
    StartNearby(note, k);
    while k > 0 && !RuneStart(note[k])
      invariant LIMIT - |SUFFIX| - 3 <= k <= LIMIT - |SUFFIX|
      invariant forall j | k < j <= LIMIT - |SUFFIX| :: !RuneStart(note[j])
    {
      k := k - 1;
    }
    CutIsLongest(note, k);
  }

  /** Whatever the bytes, the note is valid UTF-8 of at most 1024 bytes: the sanitised input, or, if
      that is too long, its longest valid prefix of at most 1021 bytes followed by three dots. */
  method CapNote(bytes: seq<byte>) returns (r: seq<byte>)
    ensures ValidUtf8(r) && |r| <= 1024
    ensures |Sanitised(bytes, false)| > 1024 ==> 1021 <= |r| && r[|r| - 3..] == [0x2E, 0x2E, 0x2E]
    ensures var s := Sanitised(bytes, false);
            if |s| <= LIMIT then r == s
            else exists k: nat | k <= |s| :: LongestPrefix(s, LIMIT - |SUFFIX|, k) && r == s[..k] + SUFFIX
    ensures ValidUtf8(bytes) && |bytes| <= LIMIT ==> r == bytes
  {
    var note := Sanitise(bytes);
    SanitisedIsValid(bytes, false);
    if ValidUtf8(bytes) { ValidIsKept(bytes); }
    if |note| <= LIMIT {
      return note;
    }
    var k := CutPoint(note);
    SuffixIsValid();
    ValidAppend(note[..k], SUFFIX);
    r := note[..k] + SUFFIX;
  }

  lemma SuffixIsValid()
    ensures ValidUtf8(SUFFIX)
  {
    assert SUFFIX[1..] == [0x2E, 0x2E] && SUFFIX[1..][1..] == [0x2E];
  }

  lemma CutIsLongest(s: seq<byte>, k: nat)
    requires ValidUtf8(s) && |s| > LIMIT && k <= LIMIT - |SUFFIX| && RuneStart(s[k])
    requires forall j | k < j <= LIMIT - |SUFFIX| :: !RuneStart(s[j])
    ensures LongestPrefix(s, LIMIT - |SUFFIX|, k)
  {
    PrefixValidIff(s, k);
    forall j | k < j <= LIMIT - |SUFFIX|
      ensures !ValidUtf8(s[..j])
    {
      PrefixValidIff(s, j);
    }
  }
}
