/**
 * The JavaScript string operations the pages rely on: `trim`, `split(',')`,
 * `join`, the `split(',').map(trim).filter(Boolean)` list parser, the `<`
 * comparison of strings, ASCII `toLowerCase` and `includes`.
 */
module Strings {
  import opened Optional
  import opened Lists

  /** ECMAScript white space and line terminators: what `trim` strips and `\s` matches. */
  predicate IsSpace(c: char) {
    || c == ' ' || c == '\t' || c == '\n' || c == '\r'
    || c == '\U{000B}' || c == '\U{000C}' || c == '\U{00A0}' || c == '\U{1680}'
    || ('\U{2000}' <= c <= '\U{200A}')
    || c == '\U{2028}' || c == '\U{2029}' || c == '\U{202F}' || c == '\U{205F}'
    || c == '\U{3000}' || c == '\U{FEFF}'
  }

  /** Empty or white space only: the strings whose `trim()` is falsy. */
  predicate IsBlank(s: string) {
    forall i :: 0 <= i < |s| ==> IsSpace(s[i])
  }

  /** Neither starts nor ends with white space. */
  predicate IsTrimmed(s: string) {
    s == [] || (!IsSpace(s[0]) && !IsSpace(s[|s| - 1]))
  }

  /** JavaScript truthiness of a string: only the empty string is falsy. */
  predicate Truthy(s: string) {
    s != []
  }

  /** `o || fallback` for an optional string: absent and empty both give the fallback. */
  function OrElse(o: Option<string>, fallback: string): (r: string)
    ensures r == fallback <== (o == None || o == Some(""))
    ensures r != fallback ==> o == Some(r)
  {
    if o.Some? && o.value != "" then o.value else fallback
  }

  function TrimStart(s: string): (r: string)
    ensures |r| <= |s| && r == s[|s| - |r|..]
    ensures IsBlank(s[..|s| - |r|])
    ensures r == [] || !IsSpace(r[0])
  {
    if |s| > 0 && IsSpace(s[0]) then
      var r := TrimStart(s[1..]);
      var k := |s| - |r|;
      assert s[k..] == s[1..][k - 1..];
      assert forall i :: 1 <= i < k ==> s[i] == s[1..][..k - 1][i - 1];
      r
    else
      s
  }

  function TrimEnd(s: string): (r: string)
    ensures |r| <= |s| && r == s[..|r|]
    ensures IsBlank(s[|r|..])
    ensures r == [] || !IsSpace(r[|r| - 1])
  {
    if |s| > 0 && IsSpace(s[|s| - 1]) then
      var p := s[..|s| - 1];
      var r := TrimEnd(p);
      assert forall i :: |r| <= i < |s| - 1 ==> s[i] == p[|r|..][i - |r|];
      r
    else
      s
  }

  /** `s.trim()`: the longest middle slice of `s` that neither starts nor ends with white space. */
  function Trim(s: string): (r: string)
    ensures IsTrimmed(r)
    ensures r == [] <==> IsBlank(s)
    ensures |r| <= |s|
  {
    var t := TrimStart(s);
    var r := TrimEnd(t);
    assert r == [] ==> IsBlank(s) by {
      if r == [] {
        assert IsBlank(t[|r|..]);
        assert t == [];
        assert s[..|s|] == s;
      }
    }
    assert r != [] ==> !IsBlank(s) by {
      if r != [] {
        assert r[0] == t[0] == s[|s| - |t|];
      }
    }
    r
  }

  /** `trimStart` stops at the first character that is not white space. */
  lemma TrimStartUnique(s: string, k: nat)
    requires k <= |s| && IsBlank(s[..k]) && (k == |s| || !IsSpace(s[k]))
    ensures TrimStart(s) == s[k..]
  {
    var r := TrimStart(s);
    var j := |s| - |r|;
    if j < k {
      BlankAt(s, k, j);
    } else if j > k {
      BlankAt(s, j, k);
    }
  }

  /** Every character of a blank prefix is white space. */
  lemma BlankAt(s: string, k: nat, i: nat)
    requires i < k <= |s| && IsBlank(s[..k])
    ensures IsSpace(s[i])
  {
    assert s[i] == s[..k][i];
  }

  /** `trimEnd` stops after the last character that is not white space. */
  lemma TrimEndUnique(t: string, m: nat)
    requires m <= |t| && IsBlank(t[m..]) && (m == 0 || !IsSpace(t[m - 1]))
    ensures TrimEnd(t) == t[..m]
  {
    var r := TrimEnd(t);
    if |r| > m {
      BlankFrom(t, m, |r| - 1);
    }
  }

  /** Every character of a blank suffix is white space. */
  lemma BlankFrom(t: string, m: nat, i: nat)
    requires m <= i < |t| && IsBlank(t[m..])
    ensures IsSpace(t[i])
  {
    assert t[i] == t[m..][i - m];
  }

  /**
   * `trim` of a string made of a blank start, a trimmed middle and a blank
   * end is that middle. Every string splits this way, so this fixes what
   * `trim` returns.
   */
  lemma TrimOfPadded(s: string, k: nat, m: nat)
    requires k <= m <= |s| && IsBlank(s[..k]) && IsTrimmed(s[k..m]) && IsBlank(s[m..])
    ensures Trim(s) == s[k..m]
  {
    if k == m {
      BlankHalves(s, k);
    } else {
      TrimmedEnds(s, k, m);
      TrimStartUnique(s, k);
      SuffixSlices(s, k, m);
      TrimEndUnique(s[k..], m - k);
    }
  }

  /** Every string splits into a blank start, a trimmed middle and a blank end: the one `trim` finds. */
  lemma TrimIsPadded(s: string)
    ensures exists k: nat, m: nat :: k <= m <= |s| && IsBlank(s[..k]) && IsTrimmed(s[k..m]) && IsBlank(s[m..])
  {
    var t := TrimStart(s);
    var r := TrimEnd(t);
    var k := |s| - |t|;
    var m := k + |r|;
    Slices(s, k, m);
    assert t == s[k..] && r == t[..m - k];
    assert s[m..] == t[|r|..];
    assert r == Trim(s);
    assert k <= m <= |s| && IsBlank(s[..k]) && IsTrimmed(s[k..m]) && IsBlank(s[m..]);
  }

  lemma Slices(s: string, k: nat, m: nat)
    requires k <= m <= |s|
    ensures s[k..][..m - k] == s[k..m] && s[k..][m - k..] == s[m..]
  {
  }

  /** A blank start followed by a blank rest is blank. */
  lemma BlankHalves(s: string, k: nat)
    requires k <= |s| && IsBlank(s[..k]) && IsBlank(s[k..])
    ensures IsBlank(s) && s[k..k] == []
  {
    forall i | 0 <= i < |s| ensures IsSpace(s[i]) {
      if i < k {
        assert s[i] == s[..k][i];
      } else {
        assert s[i] == s[k..][i - k];
      }
    }
  }

  /** A non-empty trimmed slice starts and ends with characters that are not white space. */
  lemma TrimmedEnds(s: string, k: nat, m: nat)
    requires k < m <= |s| && IsTrimmed(s[k..m])
    ensures !IsSpace(s[k]) && !IsSpace(s[m - 1])
  {
    assert s[k] == s[k..m][0] && s[m - 1] == s[k..m][m - 1 - k];
  }

  /** The front and the rest of the suffix of `s` from `k`, cut at `m`. */
  lemma SuffixSlices(s: string, k: nat, m: nat)
    requires k < m <= |s|
    ensures s[k..][..m - k] == s[k..m] && s[k..][m - k..] == s[m..] && s[k..][m - k - 1] == s[m - 1]
  {
  }

  /** Trimming leaves an already trimmed string unchanged. */
  lemma TrimOfTrimmed(s: string)
    requires IsTrimmed(s)
    ensures Trim(s) == s
  {
    assert TrimStart(s) == s;
    assert TrimEnd(s) == s;
  }

  /** Leading white space does not survive a trim. */
  lemma {:induction false} TrimAfterSpace(c: char, s: string)
    requires IsSpace(c)
    ensures Trim([c] + s) == Trim(s)
  {
    assert ([c] + s)[1..] == s;
  }

  /** `parts.join(sep)`. */
  function JoinWith(parts: seq<string>, sep: string): string {
    if |parts| == 0 then ""
    else if |parts| == 1 then parts[0]
    else parts[0] + sep + JoinWith(parts[1..], sep)
  }

  /** `s.split(',')`: the pieces between commas, an empty string giving one empty piece. */
  function Split(s: string): (parts: seq<string>)
    ensures |parts| >= 1
    ensures forall i :: 0 <= i < |parts| ==> ',' !in parts[i]
    ensures JoinWith(parts, ",") == s
  {
    if |s| == 0 then [""]
    else
      var rest := Split(s[1..]);
      if s[0] == ',' then
        assert JoinWith([""] + rest, ",") == "" + "," + JoinWith(rest, ",");
        [""] + rest
      else
        var parts := [[s[0]] + rest[0]] + rest[1..];
        assert ',' !in [s[0]] + rest[0] by {
          assert forall k :: 0 <= k < |rest[0]| ==> ([s[0]] + rest[0])[k + 1] == rest[0][k];
        }
        assert JoinWith(parts, ",") == [s[0]] + JoinWith(rest, ",") by {
          if |rest| == 1 {
          } else {
            assert parts[1..] == rest[1..];
          }
        }
        parts
  }

  /** A string without commas splits into itself. */
  lemma {:induction false} SplitNoComma(s: string)
    requires ',' !in s
    ensures Split(s) == [s]
  {
    if |s| > 0 {
      assert ',' !in s[1..] by {
        assert forall k :: 0 <= k < |s| - 1 ==> s[1..][k] == s[k + 1];
      }
      SplitNoComma(s[1..]);
      assert [s[0]] + s[1..] == s;
    }
  }

  /** The first comma of `a + "," + b` ends the first piece when `a` has none. */
  lemma SplitAtComma(a: string, b: string)
    requires ',' !in a
    ensures Split(a + "," + b) == [a] + Split(b)
  {
    SplitAppend(a, b);
    SplitNoComma(a);
  }

  /** Splitting a comma join of comma-free pieces gives the pieces back. */
  lemma {:induction false} SplitJoin(parts: seq<string>)
    requires |parts| >= 1
    requires forall i :: 0 <= i < |parts| ==> ',' !in parts[i]
    ensures Split(JoinWith(parts, ",")) == parts
  {
    if |parts| == 1 {
      SplitNoComma(parts[0]);
    } else {
      SplitJoin(parts[1..]);
      SplitAtComma(parts[0], JoinWith(parts[1..], ","));
      assert [parts[0]] + parts[1..] == parts;
    }
  }

  /** Every piece trimmed, in order. */
  function TrimAll(parts: seq<string>): (r: seq<string>)
    ensures |r| == |parts|
    ensures forall i :: 0 <= i < |parts| ==> r[i] == Trim(parts[i])
  {
    seq(|parts|, i requires 0 <= i < |parts| => Trim(parts[i]))
  }

  /** `filter(t => t)`: the non-empty pieces, in order. */
  function RemoveEmpty(parts: seq<string>): (r: seq<string>)
    ensures forall t :: t in r <==> t in parts && t != ""
    ensures (forall i :: 0 <= i < |parts| ==> parts[i] != "") ==> r == parts
  {
    if forall i :: 0 <= i < |parts| ==> parts[i] != "" then
      FilterAllKept(parts, Truthy);
      Filter(parts, Truthy)
    else Filter(parts, Truthy)
  }

  /**
   * `s.split(',').map(t => t.trim()).filter(t => t)`: the tag and image-URL
   * list parser of the review and guide forms.
   */
  function ParseCommaList(s: string): (r: seq<string>)
    ensures forall t :: t in r ==> t != "" && IsTrimmed(t) && ',' !in t
  {
    var pieces := Split(s);
    var trimmed := TrimAll(pieces);
    forall i | 0 <= i < |trimmed| ensures ',' !in trimmed[i] {
      TrimCommaFree(pieces[i]);
    }
    RemoveEmpty(trimmed)
  }

  /** A piece without commas parses to its trimmed self, or to nothing when it is blank. */
  lemma ParseCommaPiece(s: string)
    requires ',' !in s
    ensures ParseCommaList(s) == if IsBlank(s) then [] else [Trim(s)]
  {
    SplitNoComma(s);
    TrimAllOne(s);
    RemoveEmptyOne(Trim(s));
  }

  lemma TrimAllOne(s: string)
    ensures TrimAll([s]) == [Trim(s)]
  {
  }

  lemma RemoveEmptyOne(t: string)
    ensures RemoveEmpty([t]) == if t == "" then [] else [t]
  {
    assert [t][1..] == [];
  }

  /** A comma ends one part of the list and starts the next: the entries of both parts, in order. */
  lemma ParseCommaListAppend(a: string, b: string)
    ensures ParseCommaList(a + "," + b) == ParseCommaList(a) + ParseCommaList(b)
  {
    SplitAppend(a, b);
    TrimAllAppend(Split(a), Split(b));
    RemoveEmptyAppend(TrimAll(Split(a)), TrimAll(Split(b)));
  }

  lemma TrimAllAppend(x: seq<string>, y: seq<string>)
    ensures TrimAll(x + y) == TrimAll(x) + TrimAll(y)
  {
  }

  lemma RemoveEmptyAppend(x: seq<string>, y: seq<string>)
    ensures RemoveEmpty(x + y) == RemoveEmpty(x) + RemoveEmpty(y)
  {
    FilterAppend(x, y, Truthy);
  }

  /** Splitting at a comma splits each side: `(a + "," + b).split(',')` is `a.split(',')` then `b.split(',')`. */
  lemma {:induction false} SplitAppend(a: string, b: string)
    ensures Split(a + "," + b) == Split(a) + Split(b)
  {
    var s := a + "," + b;
    if |a| == 0 {
      assert s == [','] + b;
      assert s[1..] == b;
    } else {
      assert s[0] == a[0] && s[1..] == a[1..] + "," + b;
      SplitAppend(a[1..], b);
    }
  }

  /** Trimming a piece without commas leaves none. */
  lemma TrimCommaFree(s: string)
    requires ',' !in s
    ensures ',' !in Trim(s)
  {
    TrimKeepsChars(s);
  }

  /** A trimmed string keeps only characters of the original. */
  lemma TrimKeepsChars(s: string)
    ensures forall k :: 0 <= k < |Trim(s)| ==> Trim(s)[k] in s
  {
    var t := TrimStart(s);
    var r := TrimEnd(t);
    var n := |s| - |t|;
    forall k | 0 <= k < |r| ensures r[k] in s {
      assert r[k] == t[..|r|][k] == t[k];
      assert t[k] == s[n..][k] == s[n + k];
    }
  }

  /** A list element as the comma list parser leaves it. */
  predicate IsListEntry(t: string) {
    t != "" && IsTrimmed(t) && ',' !in t
  }

  /** `list.join(', ')`. */
  function JoinList(list: seq<string>): string {
    JoinWith(list, ", ")
  }

  /** The pieces a comma split of `JoinList(list)` yields: each entry after the first keeps its space. */
  function Spaced(list: seq<string>): (r: seq<string>)
    requires |list| >= 1
    ensures |r| == |list| && r[0] == list[0]
    ensures forall i :: 1 <= i < |list| ==> r[i] == " " + list[i]
  {
    [list[0]] + seq(|list| - 1, i requires 0 <= i < |list| - 1 => " " + list[i + 1])
  }

  lemma {:induction false} JoinListSpaced(list: seq<string>)
    requires |list| >= 1
    ensures JoinList(list) == JoinWith(Spaced(list), ",")
  {
    var sp := Spaced(list);
    if |list| == 1 {
      assert JoinWith(sp, ",") == sp[0];
    } else {
      var tail := Spaced(list[1..]);
      calc {
        JoinList(list);
        { JoinStep(list, ", "); }
        list[0] + ", " + JoinList(list[1..]);
        { JoinListSpaced(list[1..]); }
        list[0] + ", " + JoinWith(tail, ",");
        { CommaSpace(list[0], JoinWith(tail, ",")); }
        list[0] + "," + (" " + JoinWith(tail, ","));
        { JoinSpaceFirst(tail); SpacedTail(list); }
        list[0] + "," + JoinWith(sp[1..], ",");
        { JoinStep(sp, ","); }
        JoinWith(sp, ",");
      }
    }
  }

  /** One step of a join of two or more parts. */
  lemma JoinStep(parts: seq<string>, sep: string)
    requires |parts| >= 2
    ensures JoinWith(parts, sep) == parts[0] + sep + JoinWith(parts[1..], sep)
  {
  }

  lemma CommaSpace(a: string, b: string)
    ensures a + ", " + b == a + "," + (" " + b)
  {
    assert ", " == "," + " ";
  }

  /** Dropping the first spaced piece leaves the spaced tail with its space restored. */
  lemma SpacedTail(list: seq<string>)
    requires |list| >= 2
    ensures Spaced(list)[1..] == [" " + Spaced(list[1..])[0]] + Spaced(list[1..])[1..]
  {
  }

  /** Prefixing the first piece of a join prefixes the joined string. */
  lemma JoinSpaceFirst(parts: seq<string>)
    requires |parts| >= 1
    ensures JoinWith([" " + parts[0]] + parts[1..], ",") == " " + JoinWith(parts, ",")
  {
    var q := [" " + parts[0]] + parts[1..];
    if |parts| == 1 {
      assert JoinWith(q, ",") == q[0];
    } else {
      assert q[0] == " " + parts[0] && q[1..] == parts[1..];
      calc {
        JoinWith(q, ",");
        { JoinStep(q, ","); }
        (" " + parts[0]) + "," + JoinWith(parts[1..], ",");
        { CommaSpace(" " + parts[0], JoinWith(parts[1..], ",")); Assoc3(" ", parts[0], ",", JoinWith(parts[1..], ",")); }
        " " + (parts[0] + "," + JoinWith(parts[1..], ","));
        { JoinStep(parts, ","); }
        " " + JoinWith(parts, ",");
      }
    }
  }

  lemma Assoc3(a: string, b: string, c: string, d: string)
    ensures (a + b) + c + d == a + (b + c + d)
  {
  }

  /**
   * Joining a list with ", " and parsing it back gives the same list, provided
   * every entry is non-empty, trimmed and free of commas.
   */
  lemma ParseJoinRoundTrip(list: seq<string>)
    requires forall i :: 0 <= i < |list| ==> IsListEntry(list[i])
    ensures ParseCommaList(JoinList(list)) == list
  {
    if |list| == 0 {
      assert Split("") == [""];
      assert TrimAll([""]) == [""];
    } else {
      var sp := Spaced(list);
      JoinListSpaced(list);
      SpacedCommaFree(list);
      SplitJoin(sp);
      TrimAllSpaced(list);
    }
  }

  lemma SpacedCommaFree(list: seq<string>)
    requires |list| >= 1
    requires forall i :: 0 <= i < |list| ==> ',' !in list[i]
    ensures forall i :: 0 <= i < |list| ==> ',' !in Spaced(list)[i]
  {
    forall i | 1 <= i < |list| ensures ',' !in Spaced(list)[i] {
      assert Spaced(list)[i] == [' '] + list[i];
    }
  }

  /** Trimming the spaced pieces recovers the entries. */
  lemma TrimAllSpaced(list: seq<string>)
    requires |list| >= 1
    requires forall i :: 0 <= i < |list| ==> IsListEntry(list[i])
    ensures TrimAll(Spaced(list)) == list
  {
    var sp := Spaced(list);
    var trimmed := TrimAll(sp);
    forall i | 0 <= i < |list| ensures trimmed[i] == list[i] {
      if i > 0 {
        assert sp[i] == [' '] + list[i];
        TrimAfterSpace(' ', list[i]);
      }
      TrimOfTrimmed(list[i]);
    }
  }

  /** JavaScript `a < b` on strings: lexicographic order of characters, a proper prefix first. */
  predicate Less(a: string, b: string) {
    if |a| == 0 then |b| > 0
    else if |b| == 0 then false
    else if a[0] != b[0] then a[0] < b[0]
    else Less(a[1..], b[1..])
  }

  lemma {:induction false} LessIrreflexive(a: string)
    ensures !Less(a, a)
  {
    if |a| > 0 {
      LessIrreflexive(a[1..]);
    }
  }

  /** Any two different strings are ordered one way or the other. */
  lemma {:induction false} LessTotal(a: string, b: string)
    ensures a == b || Less(a, b) || Less(b, a)
  {
    if |a| > 0 && |b| > 0 && a[0] == b[0] {
      LessTotal(a[1..], b[1..]);
      if a[1..] == b[1..] {
        assert a == [a[0]] + a[1..] && b == [b[0]] + b[1..];
      }
    }
  }

  lemma {:induction false} LessAsymmetric(a: string, b: string)
    requires Less(a, b)
    ensures !Less(b, a)
  {
    if |a| > 0 && |b| > 0 && a[0] == b[0] {
      LessAsymmetric(a[1..], b[1..]);
    }
  }

  /** ASCII `toLowerCase` of one character. */
  function LowerChar(c: char): char {
    if 'A' <= c <= 'Z' then (c as int + 32) as char else c
  }

  /** ASCII `toLowerCase`. */
  function Lower(s: string): (r: string)
    ensures |r| == |s|
  {
    seq(|s|, i requires 0 <= i < |s| => LowerChar(s[i]))
  }

  /** `s.includes(q)`: `q` occurs in `s` at some position. */
  predicate Contains(s: string, q: string) {
    exists i :: 0 <= i <= |s| - |q| && OccursAt(s, q, i)
  }

  predicate OccursAt(s: string, q: string, i: int)
    requires 0 <= i <= |s| - |q|
  {
    s[i..i + |q|] == q
  }

  /** Every string contains the empty string, so an empty search keeps everything. */
  lemma ContainsEmpty(s: string)
    ensures Contains(s, "")
  {
    assert OccursAt(s, "", 0);
  }

  /** Decimal digits of a natural number, as a template literal prints it. */
  function DecimalString(n: nat): (r: string)
    ensures |r| >= 1
    ensures forall i :: 0 <= i < |r| ==> '0' <= r[i] <= '9'
  {
    var d := ['0' + ((n % 10) as char)];
    if n < 10 then d else DecimalString(n / 10) + d
  }
}
