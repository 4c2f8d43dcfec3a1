/**
 * Reporter-id spellings (wspr_recorder/_reporter_id.py): what a person types (AC0G/B4),
 * what files are called (AC0G=B4), and what a unit name carries (AC0G\x3dB4).
 */
module ReporterId {
  import opened Audio

  // ------------------------------------------------------------- characters

  predicate IsHex(c: char) { '0' <= c <= '9' || 'a' <= c <= 'f' || 'A' <= c <= 'F' }

  function HexValue(c: char): (v: int)
    requires IsHex(c)
    ensures 0 <= v < 16
  {
    if c <= '9' then c as int - '0' as int
    else if c <= 'F' then c as int - 'A' as int + 10
    else c as int - 'a' as int + 10
  }

  function HexDigit(v: int): (c: char)
    requires 0 <= v < 16
    ensures IsHex(c) && HexValue(c) == v && !('A' <= c <= 'F')
  {
    if v < 10 then ('0' as int + v) as char else ('a' as int + v - 10) as char
  }

  predicate IsAlnum(c: char) { 'A' <= c <= 'Z' || 'a' <= c <= 'z' || '0' <= c <= '9' }

  predicate IsUnitChar(c: char) { IsAlnum(c) || c in {':', '-', '_', '.'} }

  predicate IsAscii(c: char) { c as int < 128 }

  /** The characters Python's strip() removes. */
  predicate IsSpace(c: char)
  {
    var n := c as int;
    || 9 <= n <= 13 || 28 <= n <= 32 || 0x2000 <= n <= 0x200A
    || n in {0x85, 0xA0, 0x1680, 0x2028, 0x2029, 0x202F, 0x205F, 0x3000}
  }

  /** One by one: the controls and the blanks of Unicode. */
  lemma TheSpaces(c: char)
    ensures IsSpace(c) <==> c as int in {
      9, 10, 11, 12, 13, 28, 29, 30, 31, 32, 0x85, 0xA0, 0x1680, 0x2000, 0x2001, 0x2002, 0x2003, 0x2004, 0x2005, 0x2006,
      0x2007, 0x2008, 0x2009, 0x200A, 0x2028, 0x2029, 0x202F, 0x205F, 0x3000}
  {
  }

  /** The UTF-8 bytes of a character. */
  function Utf8(c: char): (bs: seq<Byte>)
    ensures 1 <= |bs|
    ensures |bs| == 1 <==> IsAscii(c)
    ensures IsAscii(c) ==> bs == [c as int]
  {
    var n := c as int;
    if n < 0x80 then [n]
    else if n < 0x800 then [0xC0 + n / 0x40, 0x80 + n % 0x40]
    else if n < 0x1_0000 then [0xE0 + n / 0x1000, 0x80 + n / 0x40 % 0x40, 0x80 + n % 0x40]
    else [0xF0 + n / 0x4_0000, 0x80 + n / 0x1000 % 0x40, 0x80 + n / 0x40 % 0x40, 0x80 + n % 0x40]
  }

  /**
   * `str.upper()` of one character, exact wherever the result is ASCII; any other
   * character stays outside ASCII, which is all that matters to a reporter id.
   */
  function Upper(c: char): string
  {
    if 'a' <= c <= 'z' then [(c as int - 32) as char]
    else match c as int
      case 0xDF => "SS"
      case 0x131 => "I"
      case 0x17F => "S"
      case 0xFB00 => "FF"
      case 0xFB01 => "FI"
      case 0xFB02 => "FL"
      case 0xFB03 => "FFI"
      case 0xFB04 => "FFL"
      case 0xFB05 => "ST"
      case 0xFB06 => "ST"
      case _ => [c]
  }

  // ------------------------------------------------------------ the spellings

  /** A `\xHH` escape starts the text. */
  predicate Escaped(s: string)
  {
    |s| >= 4 && s[0] == '\\' && s[1] == 'x' && IsHex(s[2]) && IsHex(s[3])
  }

  /** Replace each escape, left to right, by the character it names. */
  function Unescape(s: string): string
  {
    if s == "" then ""
    else if Escaped(s) then [(16 * HexValue(s[2]) + HexValue(s[3])) as char] + Unescape(s[4..])
    else [s[0]] + Unescape(s[1..])
  }

  function Escape(b: Byte): string { ['\\', 'x', HexDigit(b / 16), HexDigit(b % 16)] }

  function EscapeAll(bs: seq<Byte>): string
  {
    if bs == [] then "" else Escape(bs[0]) + EscapeAll(bs[1..])
  }

  /** The instance as a unit name carries it. */
  function SystemdInstance(s: string): string
  {
    if s == "" then ""
    else (if IsUnitChar(s[0]) then [s[0]] else EscapeAll(Utf8(s[0]))) + SystemdInstance(s[1..])
  }

  function Replace(s: string, a: char, b: char): string
  {
    if s == "" then "" else [if s[0] == a then b else s[0]] + Replace(s[1..], a, b)
  }

  function StripLeft(s: string): string { if s != "" && IsSpace(s[0]) then StripLeft(s[1..]) else s }
  function StripRight(s: string): string { if s != "" && IsSpace(s[|s| - 1]) then StripRight(s[..|s| - 1]) else s }

  function UpperAll(s: string): string { if s == "" then "" else Upper(s[0]) + UpperAll(s[1..]) }

  predicate IsIdEnd(c: char) { 'A' <= c <= 'Z' || '0' <= c <= '9' }
  predicate IsIdChar(c: char) { IsIdEnd(c) || c == '=' || c == '-' }

  /** A reporter id in storage form. */
  predicate IsId(r: string)
  {
    |r| >= 2 && IsIdEnd(r[0]) && IsIdEnd(r[|r| - 1]) && forall i :: 0 <= i < |r| ==> IsIdChar(r[i])
  }

  /** Storage form of any spelling; None stands for the ValueError. */
  function ToStorage(text: string): (id: Option<string>)
    ensures id.Some? ==> IsId(id.value)
  {
    var rid := Replace(UpperAll(Unescape(StripRight(StripLeft(text)))), '/', '=');
    if IsId(rid) then Some(rid) else None
  }

  /** An escape names its byte, its digits written small or large. */
  lemma EscapesNameBytes(high: nat, low: nat)
    requires high < 16 && low < 16
    ensures var b, small, large := (16 * high + low) as char, "0123456789abcdef", "0123456789ABCDEF";
      && Unescape(['\\', 'x', small[high], small[low]]) == [b] == Unescape(['\\', 'x', large[high], large[low]])
      && Unescape(['\\', 'x', small[high], large[low]]) == [b] == Unescape(['\\', 'x', large[high], small[low]])
  {
    DigitValues(high);
    DigitValues(low);
    assert forall s: string :: |s| == 4 ==> s[4..] == "";
  }

  lemma DigitValues(v: nat)
    requires v < 16
    ensures var a, b := "0123456789abcdef"[v], "0123456789ABCDEF"[v];
      IsHex(a) && IsHex(b) && HexValue(a) == HexValue(b) == v
  {
  }

  // ------------------------------------------------------- escapes disappear

  /** Unescaping shortens any text it changes. */
  lemma {:induction false} UnescapeShortens(s: string)
    ensures |Unescape(s)| <= |s|
    ensures Unescape(s) != s ==> |Unescape(s)| < |s|
    decreases |s|
  {
    if s != "" {
      if Escaped(s) {
        UnescapeShortens(s[4..]);
      } else {
        UnescapeShortens(s[1..]);
        assert s == [s[0]] + s[1..];
      }
    }
  }

  /** An escape somewhere in the text. */
  ghost predicate HasEscape(s: string) { exists i :: 0 <= i < |s| && Escaped(s[i..]) }

  lemma {:induction false} FixpointHasNoEscape(s: string)
    ensures Unescape(s) == s <==> !HasEscape(s)
    decreases |s|
  {
    if s != "" {
      assert s[0..] == s;
      if Escaped(s) {
        UnescapeShortens(s[4..]);
      } else {
        FixpointHasNoEscape(s[1..]);
        assert s == [s[0]] + s[1..];
        assert Unescape(s)[1..] == Unescape(s[1..]);
        if HasEscape(s) {
          var i :| 0 <= i < |s| && Escaped(s[i..]);
          assert s[1..][i - 1..] == s[i..];
        }
        if HasEscape(s[1..]) {
          var i :| 0 <= i < |s[1..]| && Escaped(s[1..][i..]);
          assert s[1..][i..] == s[i + 1..];
        }
      }
    }
  }

  /** Unescape until nothing changes. */
  function Plain(s: string): string
    decreases |s|
  {
    UnescapeShortens(s);
    if Unescape(s) == s then s else Plain(Unescape(s))
  }

  lemma {:induction false} PlainHasNoEscape(s: string)
    ensures !HasEscape(Plain(s))
    decreases |s|
  {
    UnescapeShortens(s);
    if Unescape(s) == s {
      FixpointHasNoEscape(s);
    } else {
      PlainHasNoEscape(Unescape(s));
    }
  }

  lemma {:induction false} ReplaceAt(s: string, a: char, b: char)
    ensures |Replace(s, a, b)| == |s|
    ensures forall i :: 0 <= i < |s| ==> Replace(s, a, b)[i] == if s[i] == a then b else s[i]
    decreases |s|
  {
    if s != "" {
      ReplaceAt(s[1..], a, b);
    }
  }

  /** What a person reads; no escape is left in it, however deeply the text was escaped. */
  method Display(text: string) returns (shown: string)
    ensures shown == Replace(Plain(text), '=', '/')
    ensures !HasEscape(shown) && '=' !in shown
  {
    var name, last := text, false;
    while !last
      invariant Plain(name) == Plain(text)
      invariant last ==> Unescape(name) == name
      decreases |name|, !last
    {
      UnescapeShortens(name);
      var prev := name;
      name := Unescape(name);
      last := name == prev;
    }
    shown := Replace(name, '=', '/');
    PlainHasNoEscape(text);
    SlashesMakeNoEscape(name);
  }

  /** A slash is part of no escape, so writing slashes for '=' makes none. */
  lemma SlashesMakeNoEscape(s: string)
    ensures HasEscape(Replace(s, '=', '/')) ==> HasEscape(s)
    ensures '=' !in Replace(s, '=', '/')
  {
    var t := Replace(s, '=', '/');
    ReplaceAt(s, '=', '/');
    forall i | 0 <= i < |t| && Escaped(t[i..]) ensures Escaped(s[i..]) {
      assert forall j :: 0 <= j < 4 ==> t[i..][j] == t[i + j] && s[i..][j] == s[i + j];
    }
  }

  // ------------------------------------------------------------ round trips

  function AsChars(bs: seq<Byte>): string
  {
    if bs == [] then "" else [bs[0] as char] + AsChars(bs[1..])
  }

  function Encoded(s: string): seq<Byte>
  {
    if s == "" then [] else Utf8(s[0]) + Encoded(s[1..])
  }

  lemma {:induction false} UnescapeBytes(bs: seq<Byte>, rest: string)
    ensures Unescape(EscapeAll(bs) + rest) == AsChars(bs) + Unescape(rest)
    decreases |bs|
  {
    if bs == [] {
      assert EscapeAll(bs) + rest == rest;
    } else {
      hide Unescape, Escape, EscapeAll, AsChars;
      var more := bs[1..];
      Regroup(Escape(bs[0]), EscapeAll(more), rest);
      UnescapeBytes(more, rest);
      Regroup([bs[0] as char], AsChars(more), Unescape(rest));
    }
  }

  lemma Regroup(a: string, b: string, c: string)
    ensures a + b + c == a + (b + c)
  {
  }

  /** Decoding a unit name yields one character per byte of the original text's encoding. */
  lemma {:induction false} UnescapeInstance(s: string)
    ensures Unescape(SystemdInstance(s)) == AsChars(Encoded(s))
    decreases |s|
  {
    if s != "" {
      var c, rest := s[0], SystemdInstance(s[1..]);
      UnescapeInstance(s[1..]);
      AsCharsAppend(Utf8(c), Encoded(s[1..]));
      if IsUnitChar(c) {
        assert ([c] + rest)[1..] == rest;
        assert AsChars(Utf8(c)) == [c] by { assert Utf8(c)[1..] == []; }
      } else {
        UnescapeBytes(Utf8(c), rest);
      }
    }
  }

  lemma {:induction false} AsCharsAppend(a: seq<Byte>, b: seq<Byte>)
    ensures AsChars(a + b) == AsChars(a) + AsChars(b)
    decreases |a|
  {
    if a == [] {
      assert a + b == b;
    } else {
      assert (a + b)[1..] == a[1..] + b;
      AsCharsAppend(a[1..], b);
    }
  }

  lemma {:induction false} EncodedLength(s: string)
    ensures |AsChars(Encoded(s))| >= |s|
    ensures |AsChars(Encoded(s))| == |s| <==> forall c <- s :: IsAscii(c)
    ensures |AsChars(Encoded(s))| == |s| ==> AsChars(Encoded(s)) == s
    decreases |s|
  {
    if s != "" {
      var c := s[0];
      EncodedLength(s[1..]);
      AsCharsAppend(Utf8(c), Encoded(s[1..]));
      AsCharsLength(Utf8(c));
      assert s == [c] + s[1..];
      if IsAscii(c) {
        assert AsChars(Utf8(c)) == [c] by { assert Utf8(c)[1..] == []; }
      }
    }
  }

  lemma {:induction false} AsCharsLength(bs: seq<Byte>)
    ensures |AsChars(bs)| == |bs|
    decreases |bs|
  {
    if bs != [] {
      AsCharsLength(bs[1..]);
    }
  }

  /** The decoder undoes the unit-name spelling on exactly the ASCII texts. */
  lemma UnescapeUndoesSystemd(s: string)
    ensures Unescape(SystemdInstance(s)) == s <==> forall c <- s :: IsAscii(c)
  {
    UnescapeInstance(s);
    EncodedLength(s);
  }

  /** What a unit name may hold: letters, digits, and these marks. */
  predicate InUnitName(c: char)
  {
    'A' <= c <= 'Z' || 'a' <= c <= 'z' || '0' <= c <= '9' || c in {':', '-', '_', '.', '\\'}
  }

  lemma {:induction false} EscapesAreUnitChars(bs: seq<Byte>)
    ensures forall c <- EscapeAll(bs) :: InUnitName(c)
    decreases |bs|
  {
    if bs != [] {
      EscapesAreUnitChars(bs[1..]);
    }
  }

  /**
   * The unit-name form holds nothing a unit name may not, so neither '=' nor '/', and
   * leaves a text alone that is a unit name already and has no backslash.
   */
  lemma {:induction false} InstanceIsUnitName(s: string)
    ensures forall c <- SystemdInstance(s) :: InUnitName(c)
    ensures (forall c <- s :: InUnitName(c) && c != '\\') ==> SystemdInstance(s) == s
    decreases |s|
  {
    hide EscapeAll, Utf8;
    if s != "" {
      InstanceIsUnitName(s[1..]);
      EscapesAreUnitChars(Utf8(s[0]));
      assert s == [s[0]] + s[1..] && s[0] in s && forall c <- s[1..] :: c in s;
    }
  }

  /** What a first byte and the bytes after it stand for. */
  function Utf8Value(first: int, mark: int, more: seq<Byte>): int
  {
    if more == [] then first - mark
    else 0x40 * Utf8Value(first, mark, more[..|more| - 1]) + (more[|more| - 1] as int - 0x80)
  }

  /** The bytes of a character give it back: the bits of the first byte, then six from each. */
  lemma Utf8Decodes(c: char)
    ensures var bs := Utf8(c);
      var mark := match |bs| case 1 => 0 case 2 => 0xC0 case 3 => 0xE0 case _ => 0xF0;
      var bits := match |bs| case 1 => 0x80 case 2 => 0x20 case 3 => 0x10 case _ => 8;
      && 1 <= |bs| <= 4 && mark <= bs[0] as int < mark + bits
      && (forall i :: 1 <= i < |bs| ==> Continues(bs[i]))
      && (|bs| == 1 <==> c as int < 0x80) && (|bs| <= 2 <==> c as int < 0x800) && (|bs| <= 3 <==> c as int < 0x1_0000)
      && Utf8Value(bs[0], mark, bs[1..]) == c as int
  {
    var n, bs := c as int, Utf8(c);
    SixBits(n);
    SixBits(n / 0x40);
    SixBits(n / 0x1000);
    ValueOf(bs[0], if |bs| == 2 then 0xC0 else if |bs| == 3 then 0xE0 else 0xF0, bs[1..]);
    hide Utf8Value;
  }

  lemma ValueOf(first: int, mark: int, more: seq<Byte>)
    ensures |more| == 0 ==> Utf8Value(first, mark, more) == first - mark
    ensures |more| == 1 ==> Utf8Value(first, mark, more) == 0x40 * (first - mark) + (more[0] as int - 0x80)
    ensures |more| == 2 ==>
      Utf8Value(first, mark, more) ==
        0x1000 * (first - mark) + 0x40 * (more[0] as int - 0x80) + (more[1] as int - 0x80)
    ensures |more| == 3 ==>
      Utf8Value(first, mark, more) ==
        0x4_0000 * (first - mark) + 0x1000 * (more[0] as int - 0x80) + 0x40 * (more[1] as int - 0x80) +
        (more[2] as int - 0x80)
  {
    if more != [] {
      ValueOf(first, mark, more[..|more| - 1]);
    }
  }

  lemma SixBits(n: nat)
    ensures n == 0x40 * (n / 0x40) + n % 0x40 && n / 0x40 / 0x40 == n / 0x1000 && n / 0x1000 / 0x40 == n / 0x4_0000
  {
  }

  predicate Continues(b: Byte) { 0x80 <= b < 0xC0 }

  /** Upper case, '/' for '=', in any mixture. */
  predicate SpellsChar(t: char, r: char)
  {
    Upper(t) == [r] || (t == '/' && r == '=')
  }

  predicate Spells(t: string, r: string)
  {
    |t| == |r| && forall i :: 0 <= i < |r| ==> SpellsChar(t[i], r[i])
  }

  lemma {:induction false} UpperSpells(t: string, r: string)
    requires Spells(t, r) && forall i :: 0 <= i < |r| ==> IsIdChar(r[i])
    ensures Replace(UpperAll(t), '/', '=') == r
    decreases |t|
  {
    if t != "" {
      UpperSpells(t[1..], r[1..]);
      assert r == [r[0]] + r[1..];
      assert |Upper(t[0])| == 1 && (UpperAll(t))[1..] == UpperAll(t[1..]);
    }
  }

  lemma {:induction false} NoBackslashPlain(t: string)
    requires '\\' !in t
    ensures Unescape(t) == t
    decreases |t|
  {
    if t != "" {
      assert t[0] in t;
      assert forall c <- t[1..] :: c in t;
      NoBackslashPlain(t[1..]);
    }
  }

  lemma SpelledChars(t: string, r: string)
    requires IsId(r) && Spells(t, r)
    ensures '\\' !in t && (forall c <- t :: !IsSpace(c))
    ensures IsAscii(t[0]) ==> IsAlnum(t[0])
    ensures IsAscii(t[|t| - 1]) ==> IsAlnum(t[|t| - 1])
  {
    assert SpellsChar(t[0], r[0]) && SpellsChar(t[|t| - 1], r[|t| - 1]);
    forall i | 0 <= i < |t| ensures t[i] != '\\' && !IsSpace(t[i]) {
      assert SpellsChar(t[i], r[i]);
    }
  }

  /**
   * Every spelling of an id names it: storage or display form, upper or lower case, with
   * white space around it or without; and so does the unit-name form of every ASCII one.
   */
  lemma EverySpellingNamesTheId(t: string, r: string, before: string, after: string)
    requires IsId(r) && Spells(t, r)
    requires (forall c <- before :: IsSpace(c)) && (forall c <- after :: IsSpace(c))
    ensures ToStorage(before + t + after) == Some(r)
    ensures (forall c <- t :: IsAscii(c)) ==> ToStorage(before + SystemdInstance(t) + after) == Some(r)
  {
    hide Unescape, SystemdInstance, ToStorage, Spells;
    SpelledChars(t, r);
    SpellingLength(t, r);
    NoBackslashPlain(t);
    WrittenNamesTheId(t, t, r, before, after);
    if forall c <- t :: IsAscii(c) {
      UnescapeUndoesSystemd(t);
      assert t[0] in t && t[|t| - 1] in t;
      InstanceEnds(t);
      WrittenNamesTheId(SystemdInstance(t), t, r, before, after);
    }
  }

  lemma SpellingLength(t: string, r: string)
    requires IsId(r) && Spells(t, r)
    ensures |t| >= 2
  {
  }

  lemma WrittenNamesTheId(u: string, t: string, r: string, before: string, after: string)
    requires IsId(r) && Spells(t, r) && Unescape(u) == t
    requires (forall c <- before :: IsSpace(c)) && (forall c <- after :: IsSpace(c))
    requires u != "" && !IsSpace(u[0]) && !IsSpace(u[|u| - 1])
    ensures ToStorage(before + u + after) == Some(r)
  {
    hide Unescape, StripLeft, StripRight, UpperAll, Replace, Spells;
    StripsTo(before, u, after);
    UpperSpells(t, r);
  }

  lemma {:induction false} StripLeftOf(before: string, s: string)
    requires (forall c <- before :: IsSpace(c)) && (s == "" || !IsSpace(s[0]))
    ensures StripLeft(before + s) == s
    decreases |before|
  {
    if before == "" {
      assert before + s == s;
    } else {
      assert before[0] in before;
      assert forall c <- before[1..] :: c in before;
      assert (before + s)[1..] == before[1..] + s;
      StripLeftOf(before[1..], s);
    }
  }

  lemma {:induction false} StripRightOf(s: string, after: string)
    requires (forall c <- after :: IsSpace(c)) && (s == "" || !IsSpace(s[|s| - 1]))
    ensures StripRight(s + after) == s
    decreases |after|
  {
    if after == "" {
      assert s + after == s;
    } else {
      var k := |after| - 1;
      assert after[k] in after;
      assert forall c <- after[..k] :: c in after;
      assert (s + after)[..|s| + k] == s + after[..k];
      StripRightOf(s, after[..k]);
    }
  }

  lemma StripsTo(before: string, s: string, after: string)
    requires (forall c <- before :: IsSpace(c)) && (forall c <- after :: IsSpace(c))
    requires s != "" && !IsSpace(s[0]) && !IsSpace(s[|s| - 1])
    ensures StripRight(StripLeft(before + s + after)) == s
  {
    assert before + s + after == before + (s + after);
    StripLeftOf(before, s + after);
    StripRightOf(s, after);
  }

  /** The unit-name form begins and ends with the same letters or digits as the text. */
  lemma {:induction false} InstanceEnds(t: string)
    requires t != "" && IsAlnum(t[|t| - 1])
    ensures var u := SystemdInstance(t); u != "" && u[|u| - 1] == t[|t| - 1] && (IsAlnum(t[0]) ==> u[0] == t[0])
    decreases |t|
  {
    hide EscapeAll, Utf8, Unescape;
    if |t| > 1 {
      InstanceEnds(t[1..]);
    } else {
      assert t[1..] == "";
    }
  }

  lemma IdIsPlain(r: string)
    requires IsId(r)
    ensures Unescape(r) == r && Unescape(SystemdInstance(r)) == r
    ensures Spells(r, r) && Spells(Replace(r, '=', '/'), r) && forall c <- r :: IsAscii(c)
  {
    hide Unescape, SystemdInstance, Replace;
    SpellsWithSlashes(r);
    SpelledChars(r, r);
    hide IsId, Spells;
    NoBackslashPlain(r);
    UnescapeUndoesSystemd(r);
  }

  lemma SpellsWithSlashes(r: string)
    requires IsId(r)
    ensures Spells(Replace(r, '=', '/'), r)
  {
    hide Replace;
    ReplaceAt(r, '=', '/');
  }

  lemma NamesTheId(t: string, r: string)
    requires IsId(r) && Spells(t, r)
    ensures ToStorage(t) == Some(r)
    ensures (forall c <- t :: IsAscii(c)) ==> ToStorage(SystemdInstance(t)) == Some(r)
  {
    hide ToStorage, SystemdInstance, IsId, Spells, Replace, Unescape, Plain;
    EverySpellingNamesTheId(t, r, "", "");
    assert "" + t + "" == t && "" + SystemdInstance(t) + "" == SystemdInstance(t);
  }

  // ------------------------------------------------- which texts are refused

  /** A letter or digit, or one of the characters whose upper case is ASCII letters. */
  predicate IsLetterlike(c: char)
  {
    IsAlnum(c) || c as int in {0xDF, 0x131, 0x17F, 0xFB00, 0xFB01, 0xFB02, 0xFB03, 0xFB04, 0xFB05, 0xFB06}
  }

  predicate IsIdSpelling(c: char) { IsLetterlike(c) || c in {'/', '=', '-'} }

  lemma UpperIsId(c: char)
    ensures var u := Replace(Upper(c), '/', '=');
      && 1 <= |u| == |Upper(c)|
      && ((forall i :: 0 <= i < |u| ==> IsIdChar(u[i])) <==> IsIdSpelling(c))
      && (IsIdEnd(u[0]) <==> IsLetterlike(c))
      && (IsIdEnd(u[|u| - 1]) <==> IsLetterlike(c))
  {
    ReplaceAt(Upper(c), '/', '=');
    var u := Replace(Upper(c), '/', '=');
    if !IsIdSpelling(c) {
      assert !IsIdChar(u[0]);
    }
  }

  lemma {:induction false} ReplaceAppend(s: string, t: string, a: char, b: char)
    ensures Replace(s + t, a, b) == Replace(s, a, b) + Replace(t, a, b)
    decreases |s|
  {
    if s == "" {
      assert s + t == t;
    } else {
      assert (s + t)[1..] == s[1..] + t;
      ReplaceAppend(s[1..], t, a, b);
    }
  }

  predicate AllIdChars(r: string) { forall i :: 0 <= i < |r| ==> IsIdChar(r[i]) }
  predicate AllIdSpelling(t: string) { forall i :: 0 <= i < |t| ==> IsIdSpelling(t[i]) }

  lemma {:induction false} UpperAllIsId(t: string)
    requires t != ""
    ensures var u := Replace(UpperAll(t), '/', '=');
      && |u| >= |t| && (|t| == 1 ==> |u| == |Upper(t[0])|)
      && (AllIdChars(u) <==> AllIdSpelling(t))
      && (IsIdEnd(u[0]) <==> IsLetterlike(t[0]))
      && (IsIdEnd(u[|u| - 1]) <==> IsLetterlike(t[|t| - 1]))
    decreases |t|
  {
    hide Upper, Replace, IsIdChar, IsIdEnd, IsIdSpelling, IsLetterlike;
    var u, rest := Replace(Upper(t[0]), '/', '='), UpperAll(t[1..]);
    UpperIsId(t[0]);
    ReplaceAppend(Upper(t[0]), rest, '/', '=');
    if |t| == 1 {
      assert Upper(t[0]) + rest == Upper(t[0]);
    } else {
      UpperAllIsId(t[1..]);
      var u' := Replace(rest, '/', '=');
      AllIdJoin(u, u');
      assert AllIdSpelling(t) <==> IsIdSpelling(t[0]) && AllIdSpelling(t[1..]) by {
        assert forall i :: 0 < i < |t| ==> t[i] == t[1..][i - 1];
      }
    }
  }

  lemma AllIdJoin(u: string, v: string)
    ensures AllIdChars(u + v) <==> AllIdChars(u) && AllIdChars(v)
  {
    assert forall i :: 0 <= i < |u| ==> (u + v)[i] == u[i];
    assert forall i :: 0 <= i < |v| ==> (u + v)[|u| + i] == v[i];
  }

  /** What is left of a text once it is stripped and unescaped. */
  function Core(text: string): string { Unescape(StripRight(StripLeft(text))) }

  /**
   * A text names an id exactly when its core is letters, digits, slashes, equals signs
   * and hyphens, begins and ends with a letter or digit, and is longer than one
   * character (or is the one character of a ligature, which upper-cases to more).
   */
  lemma AcceptedExactly(text: string)
    ensures var t := Core(text);
      ToStorage(text).Some? <==>
        && t != "" && IsLetterlike(t[0]) && IsLetterlike(t[|t| - 1]) && AllIdSpelling(t)
        && (|t| > 1 || |Upper(t[0])| > 1)
  {
    hide Upper, IsIdChar, IsIdEnd, IsLetterlike, AllIdSpelling, Unescape, StripLeft, StripRight;
    if Core(text) != "" {
      UpperAllIsId(Core(text));
    }
  }

  /** Reading an id back from any of the forms it is written in gives the id: twice over changes nothing. */
  lemma ToStorageUndoesDisplay(r: string)
    requires IsId(r)
    ensures ToStorage(r) == Some(r)
    ensures ToStorage(SystemdInstance(r)) == Some(r)
    ensures ToStorage(Replace(Plain(r), '=', '/')) == Some(r)
    ensures ToStorage(Replace(Plain(SystemdInstance(r)), '=', '/')) == Some(r)
  {
    hide ToStorage, SystemdInstance, Replace, Unescape, IsId, Spells;
    IdIsPlain(r);
    NamesTheId(r, r);
    NamesTheId(Replace(r, '=', '/'), r);
    assert Plain(r) == r;
    assert Plain(SystemdInstance(r)) == r;
  }
}
