/** Which texts name a worm: not blank, and at most 128 bytes long in UTF-8. */
module Identifiers {
  import opened Engine

  /** White space as Unicode defines it. */
  predicate IsSpace(c: char) {
    || '\t' <= c <= '\r' || c in {' ', '\U{0085}', '\U{00a0}', '\U{1680}'}
    || '\U{2000}' <= c <= '\U{200a}' || c in {'\U{2028}', '\U{2029}', '\U{202f}', '\U{205f}', '\U{3000}'}
  }

  function Width(c: char): (n: nat)
    ensures 1 <= n <= 4 && (n == 1 <==> c <= '\U{7f}')
  {
    if c <= '\U{7f}' then 1 else if c <= '\U{7ff}' then 2 else if c <= '\U{ffff}' then 3 else 4
  }

  function Utf8Length(s: string): (n: nat)
    ensures |s| <= n <= 4 * |s|
    ensures n == |s| <==> forall i :: 0 <= i < |s| ==> s[i] <= '\U{7f}'
  {
    if s == [] then 0 else Width(s[0]) + Utf8Length(s[1..])
  }

  /** The twenty-five white space characters, and the bytes of a character, by code point. */
  lemma CodePoints(c: char)
    ensures IsSpace(c) <==>
              var k := c as int;
              || 9 <= k <= 13 || k == 32 || k == 133 || k == 160 || k == 5760 || 8192 <= k <= 8202
              || k == 8232 || k == 8233 || k == 8239 || k == 8287 || k == 12288
    ensures var k := c as int;
      Width(c) == if k < 128 then 1 else if k < 2048 then 2 else if k < 65536 then 3 else 4
  {
  }

  function TrimLeft(s: string): (t: string)
    ensures |t| <= |s|
  {
    if s != [] && IsSpace(s[0]) then TrimLeft(s[1..]) else s
  }

  function TrimRight(s: string): (t: string)
    ensures |t| <= |s|
  {
    if s != [] && IsSpace(s[|s| - 1]) then TrimRight(s[..|s| - 1]) else s
  }

  /** `ValidateID`: the text is not empty once trimmed, and not too long. */
  predicate ValidId(id: Name)
    ensures ValidId(id) ==> id != NOBODY && |id.text| <= 128
  {
    TrimRight(TrimLeft(id.text)) != [] && Utf8Length(id.text) <= 128
  }

  ghost predicate Blank(s: string) {
    forall i :: 0 <= i < |s| ==> IsSpace(s[i])
  }

  lemma {:induction false} LeftTrimmed(s: string)
    ensures var t := TrimLeft(s);
      && (t == [] <==> Blank(s))
      && (t != [] ==> !IsSpace(t[0]))
    decreases |s|
  {
    if s == [] || !IsSpace(s[0]) {
    } else {
      LeftTrimmed(s[1..]);
      assert s == [s[0]] + s[1..];
    }
  }

  lemma {:induction false} RightTrimmed(s: string)
    ensures TrimRight(s) == [] <==> Blank(s)
    decreases |s|
  {
    if s == [] || !IsSpace(s[|s| - 1]) {
    } else {
      RightTrimmed(s[..|s| - 1]);
      assert s == s[..|s| - 1] + [s[|s| - 1]];
    }
  }

  /** A name is valid exactly if it has a character that is not white space and at most 128 bytes. */
  lemma ValidIdExactly(id: Name)
    ensures ValidId(id) <==> !Blank(id.text) && Utf8Length(id.text) <= 128
  {
    LeftTrimmed(id.text);
    RightTrimmed(TrimLeft(id.text));
  }

  /** A short text of visible ASCII characters is always a name. */
  lemma ShortIsValid(id: Name)
    requires 0 < |id.text| <= 128 && forall i :: 0 <= i < |id.text| ==> '!' <= id.text[i] <= '~'
    ensures ValidId(id)
  {
    assert !IsSpace(id.text[0]);
    ValidIdExactly(id);
  }
}
