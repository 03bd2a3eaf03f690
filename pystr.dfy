/** The Python `str` methods the action uses, over ASCII text. */
module PyStr {

  predicate IsUpper(c: char) { 'A' <= c <= 'Z' }
  predicate IsLower(c: char) { 'a' <= c <= 'z' }
  predicate IsLetter(c: char) { IsUpper(c) || IsLower(c) }
  predicate IsDigit(c: char) { '0' <= c <= '9' }

  /** `str.isspace` on one ASCII character: the C0 separators 0x1C-0x1F count as
      white space in Python, beside tab, line feed, vertical tab, form feed,
      carriage return and space. */
  predicate IsSpace(c: char) {
    c == ' ' || '\t' <= c <= '\r' || '\U{1C}' <= c <= '\U{1F}'
  }

  function LowerChar(c: char): (d: char)
    ensures !IsUpper(d) && IsLetter(d) == IsLetter(c)
    ensures IsUpper(c) ==> IsLower(d) && d as int == c as int + 32
    ensures !IsUpper(c) ==> d == c
  {
    if IsUpper(c) then (c as int + 32) as char else c
  }

  function UpperChar(c: char): (d: char)
    ensures !IsLower(d) && IsLetter(d) == IsLetter(c)
    ensures IsLower(c) ==> IsUpper(d) && d as int == c as int - 32
    ensures !IsLower(c) ==> d == c
  {
    if IsLower(c) then (c as int - 32) as char else c
  }

  /** `str.lower()`: no upper-case letter is left, and nothing but upper-case
      letters changes. */
  function Lower(s: string): (r: string)
    ensures |r| == |s|
    ensures forall i :: 0 <= i < |r| ==> !IsUpper(r[i])
    ensures forall i :: 0 <= i < |s| && !IsUpper(s[i]) ==> r[i] == s[i]
    ensures forall i :: 0 <= i < |s| && IsUpper(s[i]) ==> r[i] == LowerChar(s[i])
  {
    seq(|s|, i requires 0 <= i < |s| => LowerChar(s[i]))
  }

  /** `str.isalnum()`: non-empty, and every character a letter or a digit. */
  predicate IsAlnum(s: string) {
    |s| > 0 && forall i :: 0 <= i < |s| ==> IsLetter(s[i]) || IsDigit(s[i])
  }

  /** Title-casing of `s` when the character before it is a letter exactly
      when `afterLetter` holds. */
  function TitleFrom(s: string, afterLetter: bool): (r: string)
    ensures |r| == |s|
    ensures forall i :: 0 <= i < |s| && !IsLetter(s[i]) ==> r[i] == s[i]
    ensures forall i :: 0 <= i < |s| && IsLetter(s[i]) ==>
      r[i] == if (if i == 0 then afterLetter else IsLetter(s[i - 1])) then LowerChar(s[i]) else UpperChar(s[i])
  {
    if s == [] then []
    else
      var c := s[0];
      var d := if !IsLetter(c) then c else if afterLetter then LowerChar(c) else UpperChar(c);
      [d] + TitleFrom(s[1..], IsLetter(c))
  }

  /** `str.title()`: a letter that starts a word (no letter just before it)
      becomes upper case, every other letter lower case, and everything else
      stays as it is. */
  function Title(s: string): (r: string)
    ensures |r| == |s|
    ensures forall i :: 0 <= i < |s| && !IsLetter(s[i]) ==> r[i] == s[i]
    ensures forall i :: 0 <= i < |s| && IsLetter(s[i]) && (i == 0 || !IsLetter(s[i - 1])) ==> r[i] == UpperChar(s[i])
    ensures forall i :: 0 < i < |s| && IsLetter(s[i]) && IsLetter(s[i - 1]) ==> r[i] == LowerChar(s[i])
  {
    TitleFrom(s, false)
  }

  /** Title-casing twice is title-casing once. */
  lemma TitleIdempotent(s: string)
    ensures Title(Title(s)) == Title(s)
  {
    var t := Title(s);
    var tt := Title(t);
    forall i | 0 <= i < |s|
      ensures IsLetter(t[i]) == IsLetter(s[i])
    {
      if IsLetter(s[i]) && (i == 0 || !IsLetter(s[i - 1])) {
        assert t[i] == UpperChar(s[i]);
      } else if IsLetter(s[i]) {
        assert t[i] == LowerChar(s[i]);
      }
    }
    forall i | 0 <= i < |s|
      ensures tt[i] == t[i]
    {
      if IsLetter(s[i]) && (i == 0 || !IsLetter(s[i - 1])) {
        assert t[i] == UpperChar(s[i]);
      } else if IsLetter(s[i]) {
        assert t[i] == LowerChar(s[i]);
      }
    }
  }

  /** Every character of `s` at positions `lo` up to `hi` is white space. */
  predicate SpaceBetween(s: string, lo: int, hi: int)
    requires 0 <= lo && hi <= |s|
  {
    forall i :: lo <= i < hi ==> IsSpace(s[i])
  }

  /** The number of white-space characters `s` starts with. */
  function LeadingSpace(s: string): (n: nat)
    ensures n <= |s| && SpaceBetween(s, 0, n)
    ensures n < |s| ==> !IsSpace(s[n])
  {
    if s == [] || !IsSpace(s[0]) then 0 else 1 + LeadingSpace(s[1..])
  }

  /** The number of white-space characters `s` ends with. */
  function TrailingSpace(s: string): (n: nat)
    ensures n <= |s| && SpaceBetween(s, |s| - n, |s|)
    ensures n < |s| ==> !IsSpace(s[|s| - n - 1])
  {
    if s == [] || !IsSpace(s[|s| - 1]) then 0 else 1 + TrailingSpace(s[..|s| - 1])
  }

  /** `str.strip()`: the slice of `s` left once the white space at both ends is
      cut off; what remains neither starts nor ends with white space. */
  function Strip(s: string): (r: string)
    ensures r == [] || (!IsSpace(r[0]) && !IsSpace(r[|r| - 1]))
    ensures exists i :: 0 <= i <= |s| - |r| && s[i..i + |r|] == r && SpaceBetween(s, 0, i) && SpaceBetween(s, i + |r|, |s|)
  {
    var lead := LeadingSpace(s);
    if lead == |s| then
      assert s[0..0] == [];
      []
    else
      var hi := |s| - TrailingSpace(s);
      s[lead..hi]
  }

  /** Stripping twice is stripping once. */
  lemma StripIdempotent(s: string)
    ensures Strip(Strip(s)) == Strip(s)
  {
    var r := Strip(s);
    if r != [] {
      assert LeadingSpace(r) == 0;
      assert TrailingSpace(r) == 0;
      assert r[0..|r|] == r;
    }
  }

  /** `sep.join(parts)`. */
  function Join(sep: string, parts: seq<string>): (r: string)
    ensures parts == [] ==> r == ""
    ensures |parts| == 1 ==> r == parts[0]
  {
    if parts == [] then ""
    else if |parts| == 1 then parts[0]
    else parts[0] + sep + Join(sep, parts[1..])
  }

  /** `sub` occurs in `s` at index `i`. */
  predicate OccursAt(s: string, sub: string, i: int) {
    0 <= i <= |s| - |sub| && s[i..i + |sub|] == sub
  }

  /** `sub in s` for strings. */
  predicate Contains(s: string, sub: string) {
    exists i :: 0 <= i <= |s| - |sub| && OccursAt(s, sub, i)
  }

  lemma ContainsMiddle(x: string, sub: string, y: string)
    ensures Contains(x + sub + y, sub)
  {
    var s := x + sub + y;
    assert s[|x|..|x| + |sub|] == sub;
    assert OccursAt(s, sub, |x|);
  }

  /** The two variable parts of `p0 + x + p2 + y` occur in it. */
  lemma OccursInFour(p0: string, x: string, p2: string, y: string)
    ensures Contains(p0 + x + p2 + y, x) && Contains(p0 + x + p2 + y, y)
  {
    ContainsMiddle(p0, x, p2 + y);
    assert p0 + x + (p2 + y) == p0 + x + p2 + y;
    ContainsMiddle(p0 + x + p2, y, []);
    assert p0 + x + p2 + y + [] == p0 + x + p2 + y;
  }

  /** The three variable parts of `p0 + x + p2 + y + p4 + z + p6` occur in
      it. */
  lemma OccursInSeven(p0: string, x: string, p2: string, y: string, p4: string, z: string, p6: string)
    ensures Contains(p0 + x + p2 + y + p4 + z + p6, x)
    ensures Contains(p0 + x + p2 + y + p4 + z + p6, y)
    ensures Contains(p0 + x + p2 + y + p4 + z + p6, z)
  {
    var s := p0 + x + p2 + y + p4 + z + p6;
    ContainsMiddle(p0, x, p2 + y + p4 + z + p6);
    assert p0 + x + (p2 + y + p4 + z + p6) == s;
    ContainsMiddle(p0 + x + p2, y, p4 + z + p6);
    assert p0 + x + p2 + y + (p4 + z + p6) == s;
    ContainsMiddle(p0 + x + p2 + y + p4, z, p6);
  }

  /** The joined string quotes every part. */
  lemma {:induction false} JoinContainsParts(sep: string, parts: seq<string>, i: int)
    requires 0 <= i < |parts|
    ensures Contains(Join(sep, parts), parts[i])
    decreases |parts|
  {
    if |parts| == 1 {
      ContainsMiddle([], parts[0], []);
      assert [] + parts[0] + [] == parts[0];
    } else if i == 0 {
      ContainsMiddle([], parts[0], sep + Join(sep, parts[1..]));
      assert [] + parts[0] + (sep + Join(sep, parts[1..])) == Join(sep, parts);
    } else {
      JoinContainsParts(sep, parts[1..], i - 1);
      assert parts[1..][i - 1] == parts[i];
      var rest := Join(sep, parts[1..]);
      var k :| 0 <= k <= |rest| - |parts[i]| && OccursAt(rest, parts[i], k);
      var s := Join(sep, parts);
      var head := parts[0] + sep;
      assert s == head + rest;
      assert s[|head| + k..|head| + k + |parts[i]|] == rest[k..k + |parts[i]|];
      assert OccursAt(s, parts[i], |head| + k);
    }
  }
}
