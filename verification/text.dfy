/**
 * The string primitives the pages rely on: ASCII `toLowerCase` / `toUpperCase`,
 * `String.prototype.includes`, and the decimal rendering of a count.
 */
module Text {

  /** `toLowerCase` on one character; only the ASCII capitals change. */
  function LowerChar(c: char): char {
    if 'A' <= c <= 'Z' then (c as int + 32) as char else c
  }

  /** `toUpperCase` on one character; only the ASCII small letters change. */
  function UpperChar(c: char): char {
    if 'a' <= c <= 'z' then (c as int - 32) as char else c
  }

  predicate IsSmallLetter(c: char) {
    'a' <= c <= 'z'
  }

  predicate IsCapital(c: char) {
    'A' <= c <= 'Z'
  }

  /** `s.toLowerCase()` over ASCII text. */
  function Lower(s: string): (r: string)
    ensures |r| == |s|
    ensures forall i :: 0 <= i < |s| ==> r[i] == LowerChar(s[i])
    ensures forall i :: 0 <= i < |r| ==> !IsCapital(r[i])
  {
    seq(|s|, i requires 0 <= i < |s| => LowerChar(s[i]))
  }

  /** `s.toUpperCase()` over ASCII text. */
  function Upper(s: string): (r: string)
    ensures |r| == |s|
    ensures forall i :: 0 <= i < |s| ==> r[i] == UpperChar(s[i])
    ensures forall i :: 0 <= i < |r| ==> !IsSmallLetter(r[i])
  {
    seq(|s|, i requires 0 <= i < |s| => UpperChar(s[i]))
  }

  /** Lower-casing an upper-cased string gives the same as lower-casing the original. */
  lemma LowerOfUpper(s: string)
    ensures Lower(Upper(s)) == Lower(s)
  {
    var a, b := Lower(Upper(s)), Lower(s);
    assert |a| == |b|;
    forall i | 0 <= i < |a|
      ensures a[i] == b[i]
    {
      assert a[i] == LowerChar(UpperChar(s[i]));
    }
  }

  /** Two strings without small letters that lower-case alike are equal. */
  lemma {:induction false} LowerInjectiveOnUpperCase(u: string, v: string)
    requires forall i :: 0 <= i < |u| ==> !IsSmallLetter(u[i])
    requires forall i :: 0 <= i < |v| ==> !IsSmallLetter(v[i])
    requires Lower(u) == Lower(v)
    ensures u == v
  {
    assert |u| == |Lower(u)| == |Lower(v)| == |v|;
    forall i | 0 <= i < |u|
      ensures u[i] == v[i]
    {
      assert Lower(u)[i] == Lower(v)[i];
      assert LowerChar(u[i]) == LowerChar(v[i]);
    }
  }

  /** `s.startsWith(p)`. */
  predicate StartsWith(s: string, p: string) {
    |p| <= |s| && s[..|p|] == p
  }

  /** `s.includes(q)`: q occurs in s at some offset (the empty string occurs everywhere). */
  function Includes(s: string, q: string): (found: bool)
    decreases |s|
  {
    StartsWith(s, q) || (|s| > 0 && Includes(s[1..], q))
  }

  /** q occurs in s starting at offset i. */
  predicate OccursAt(s: string, q: string, i: int) {
    0 <= i && i + |q| <= |s| && s[i..i + |q|] == q
  }

  /** `Includes` is exactly "there is an offset at which q occurs". */
  lemma {:induction false} IncludesSpec(s: string, q: string)
    ensures Includes(s, q) <==> exists i :: OccursAt(s, q, i)
    decreases |s|
  {
    if Includes(s, q) {
      if StartsWith(s, q) {
        assert OccursAt(s, q, 0);
      } else {
        IncludesSpec(s[1..], q);
        var i :| OccursAt(s[1..], q, i);
        assert s[i + 1..i + 1 + |q|] == s[1..][i..i + |q|];
        assert OccursAt(s, q, i + 1);
      }
    } else {
      if |s| > 0 {
        IncludesSpec(s[1..], q);
      }
      forall i | OccursAt(s, q, i)
        ensures false
      {
        if i > 0 {
          assert s[1..][i - 1..i - 1 + |q|] == s[i..i + |q|];
          assert OccursAt(s[1..], q, i - 1);
        }
      }
    }
  }

  /** A one-character query is included exactly when that character occurs. */
  lemma CharQuery(s: string, c: char)
    ensures Includes(s, [c]) <==> c in s
  {
    IncludesSpec(s, [c]);
    if c in s {
      var i :| 0 <= i < |s| && s[i] == c;
      assert s[i..i + 1] == [c];
      assert OccursAt(s, [c], i);
    }
    if Includes(s, [c]) {
      var i :| OccursAt(s, [c], i);
      assert s[i] == s[i..i + 1][0];
    }
  }

  /** The case-insensitive substring test every search box uses:
      `field.toLowerCase().includes(query.toLowerCase())`. */
  predicate Matches(field: string, query: string) {
    Includes(Lower(field), Lower(query))
  }

  /** A search over a fixed list of fields, joined with `||`. */
  predicate SearchHit(fields: seq<string>, query: string) {
    exists i :: 0 <= i < |fields| && Matches(fields[i], query)
  }

  /** The query is not trimmed: the empty query hits every non-empty field list. */
  lemma EmptyQueryHits(fields: seq<string>)
    requires |fields| > 0
    ensures SearchHit(fields, "")
  {
    assert Matches(fields[0], "");
  }

  /** A single blank query hits only records with a blank in some searched field. */
  lemma BlankQueryNeedsBlank(fields: seq<string>)
    ensures SearchHit(fields, " ") <==> exists i :: 0 <= i < |fields| && ' ' in fields[i]
  {
    assert Lower(" ") == [' '];
    forall i | 0 <= i < |fields|
      ensures Matches(fields[i], " ") <==> ' ' in fields[i]
    {
      CharQuery(Lower(fields[i]), ' ');
      assert ' ' in Lower(fields[i]) <==> ' ' in fields[i] by {
        if ' ' in fields[i] {
          var k :| 0 <= k < |fields[i]| && fields[i][k] == ' ';
          assert Lower(fields[i])[k] == ' ';
        }
        if ' ' in Lower(fields[i]) {
          var k :| 0 <= k < |Lower(fields[i])| && Lower(fields[i])[k] == ' ';
          assert LowerChar(fields[i][k]) == ' ';
        }
      }
    }
  }

  /** Lower-casing twice is lower-casing once. */
  lemma LowerTwice(s: string)
    ensures Lower(Lower(s)) == Lower(s)
  {
    var a, b := Lower(Lower(s)), Lower(s);
    forall i | 0 <= i < |a|
      ensures a[i] == b[i]
    {
    }
  }

  /** A match ignores letter case on both sides: upper- or lower-casing the
      query or the field never changes the outcome. */
  lemma MatchesIgnoresCase(field: string, query: string)
    ensures Matches(field, Upper(query)) <==> Matches(field, query)
    ensures Matches(field, Lower(query)) <==> Matches(field, query)
    ensures Matches(Upper(field), query) <==> Matches(field, query)
    ensures Matches(Lower(field), query) <==> Matches(field, query)
  {
    LowerOfUpper(query);
    LowerTwice(query);
    LowerOfUpper(field);
    LowerTwice(field);
  }

  /** Every search box ignores the letter case of the query. */
  lemma SearchIgnoresQueryCase(fields: seq<string>, query: string)
    ensures SearchHit(fields, Upper(query)) <==> SearchHit(fields, query)
    ensures SearchHit(fields, Lower(query)) <==> SearchHit(fields, query)
  {
    forall i | 0 <= i < |fields|
      ensures Matches(fields[i], Upper(query)) <==> Matches(fields[i], query)
      ensures Matches(fields[i], Lower(query)) <==> Matches(fields[i], query)
    {
      MatchesIgnoresCase(fields[i], query);
    }
  }

  function DigitChar(d: nat): (c: char)
    requires d < 10
    ensures '0' <= c <= '9'
  {
    ('0' as int + d) as char
  }

  function DigitValue(c: char): (d: nat)
    requires '0' <= c <= '9'
    ensures d < 10
  {
    c as int - '0' as int
  }

  predicate AllDigits(s: string) {
    forall i :: 0 <= i < |s| ==> '0' <= s[i] <= '9'
  }

  /** The decimal text of a count, as a template literal renders a number. */
  function ShowNat(n: nat): (r: string)
    ensures |r| >= 1 && AllDigits(r)
    ensures r[0] == '0' ==> n == 0
    decreases n
  {
    if n < 10 then [DigitChar(n)] else ShowNat(n / 10) + [DigitChar(n % 10)]
  }

  /** Reads a string of digits back as a number. */
  function ReadNat(s: string): nat
    requires AllDigits(s)
  {
    if |s| == 0 then 0 else ReadNat(s[..|s| - 1]) * 10 + DigitValue(s[|s| - 1])
  }

  /** The decimal rendering loses nothing: reading it back gives the count. */
  lemma {:induction false} ReadShowNat(n: nat)
    ensures ReadNat(ShowNat(n)) == n
    decreases n
  {
    if n >= 10 {
      var s := ShowNat(n);
      assert s[..|s| - 1] == ShowNat(n / 10);
      ReadShowNat(n / 10);
    }
  }
}
