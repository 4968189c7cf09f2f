/** The pure string logic of VIN entry in App.tsx: the keystroke filter
    (strip everything but ASCII letters and digits, then upper-case) and the
    masked text that is printed on the label. */
module VinEntry {

  /** A VIN is exactly this long; longer edits are refused. */
  const VinLength: nat := 17
  /** The mask shows this many trailing characters. */
  const MaskTail: nat := 8
  /** Shown when the input is too short to mask. */
  const Placeholder: string := "********"

  /** Characters the regular expression `[a-zA-Z0-9]` keeps. */
  predicate IsAsciiAlnum(c: char) {
    'a' <= c <= 'z' || 'A' <= c <= 'Z' || '0' <= c <= '9'
  }

  /** Characters a filtered VIN may contain: `[A-Z0-9]`. */
  predicate IsVinChar(c: char) {
    'A' <= c <= 'Z' || '0' <= c <= '9'
  }

  predicate IsVinText(s: string) {
    forall i :: 0 <= i < |s| ==> IsVinChar(s[i])
  }

  /** `toUpperCase` on one ASCII character: a-z become A-Z, everything else is
      left alone (the filter only ever feeds it ASCII letters and digits). */
  function UpperAscii(c: char): char {
    if 'a' <= c <= 'z' then (c as int - 32) as char else c
  }

  /** `replace(/[^a-zA-Z0-9]/g, '')`: drop every character outside the class. */
  function StripNonAlnum(s: string): (r: string)
    ensures |r| <= |s|
    ensures s == [] ==> r == []
    ensures |s| == 1 ==> (r == s <==> IsAsciiAlnum(s[0])) && (r != s ==> r == [])
    ensures forall i :: 0 <= i < |r| ==> IsAsciiAlnum(r[i])
  {
    if s == [] then []
    else (if IsAsciiAlnum(s[0]) then [s[0]] else []) + StripNonAlnum(s[1..])
  }

  /** `toUpperCase()` on a string, character by character. */
  function UpperCase(s: string): (r: string)
    ensures |r| == |s|
    ensures forall i :: 0 <= i < |s| && 'a' <= s[i] <= 'z' ==> r[i] as int == s[i] as int - 32
    ensures forall i :: 0 <= i < |s| && !('a' <= s[i] <= 'z') ==> r[i] == s[i]
  {
    seq(|s|, i requires 0 <= i < |s| => UpperAscii(s[i]))
  }

  /** The filter applied to every edit of the VIN field. */
  function Filter(s: string): (r: string)
    ensures IsVinText(r)
    ensures |r| <= |s|
  {
    UpperCase(StripNonAlnum(s))
  }

  /** Stripping works character by character and keeps relative order. */
  lemma {:induction false} StripAppend(s: string, t: string)
    ensures StripNonAlnum(s + t) == StripNonAlnum(s) + StripNonAlnum(t)
  {
    if s == [] {
      assert s + t == t;
    } else {
      assert (s + t)[1..] == s[1..] + t;
      StripAppend(s[1..], t);
    }
  }

  /** The filter works character by character and keeps relative order:
      filtering a concatenation is concatenating the filtered parts. */
  lemma FilterAppend(s: string, t: string)
    ensures Filter(s + t) == Filter(s) + Filter(t)
  {
    StripAppend(s, t);
  }

  /** What the filter does to one character: `[A-Z0-9]` is kept, a lower-case
      ASCII letter becomes its upper-case form, anything else is dropped. */
  lemma FilterChar(c: char)
    ensures IsVinChar(c) ==> Filter([c]) == [c]
    ensures 'a' <= c <= 'z' ==> Filter([c]) == [(c as int - 32) as char] && IsVinChar(Filter([c])[0])
    ensures !IsAsciiAlnum(c) ==> Filter([c]) == []
  {
    assert [c][1..] == [];
  }

  /** Filtering a string that already holds only `[A-Z0-9]` returns it unchanged. */
  lemma {:induction false} FilterKeepsVinText(s: string)
    requires IsVinText(s)
    ensures Filter(s) == s
  {
    if s != [] {
      assert s == [s[0]] + s[1..];
      FilterAppend([s[0]], s[1..]);
      FilterChar(s[0]);
      FilterKeepsVinText(s[1..]);
    }
  }

  /** Filtering twice is filtering once. */
  lemma FilterIdempotent(s: string)
    ensures Filter(Filter(s)) == Filter(s)
  {
    FilterKeepsVinText(Filter(s));
  }

  /** `processedVin`: the last eight characters between asterisks, or a row
      of eight asterisks when fewer than eight characters were entered. */
  function Mask(v: string): (r: string)
    ensures |v| >= MaskTail ==> |r| == MaskTail + 2 && r[0] == '*' && r[|r| - 1] == '*'
    ensures |v| >= MaskTail ==> forall i :: 1 <= i <= MaskTail ==> r[i] == v[|v| - MaskTail - 1 + i]
    ensures |v| < MaskTail ==> |r| == MaskTail && forall i :: 0 <= i < |r| ==> r[i] == '*'
  {
    if |v| >= MaskTail then "*" + v[|v| - MaskTail..] + "*" else Placeholder
  }
}
