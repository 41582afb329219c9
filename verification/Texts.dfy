/**
 The little string arithmetic the identifiers of the system rest on: decimal
 numerals (plain and zero padded), the search for a word inside a text, and the order of texts.
*/
module Texts {
  import opened Sequences

  ghost predicate Numeral(s: string) {
    forall i :: 0 <= i < |s| ==> '0' <= s[i] <= '9'
  }

  function Decimal(n: nat): (s: string)
    ensures s != [] && Numeral(s)
  {
    var digit := [('0' as int + n % 10) as char];
    if n < 10 then digit else Decimal(n / 10) + digit
  }

  function Zeros(count: nat): (s: string)
    ensures |s| == count && Numeral(s)
  {
    seq(count, _ => '0')
  }

  /** The number padded on the left with zeros up to the given width. */
  function Padded(n: nat, width: nat): (s: string)
    ensures Numeral(s)
  {
    var digits := Decimal(n);
    if |digits| < width then Zeros(width - |digits|) + digits else digits
  }

  ghost function Value(s: string): nat
    requires Numeral(s)
  {
    if s == [] then 0
    else Value(s[..|s| - 1]) * 10 + (s[|s| - 1] as int - '0' as int)
  }

  lemma {:induction false} DecimalValue(n: nat)
    ensures Value(Decimal(n)) == n
  {
    var s := Decimal(n);
    if n < 10 {
      assert s[..|s| - 1] == [];
    } else {
      assert s[..|s| - 1] == Decimal(n / 10);
      DecimalValue(n / 10);
    }
  }

  lemma {:induction false} LeadingZeros(count: nat, s: string)
    requires Numeral(s)
    ensures Value(Zeros(count) + s) == Value(s)
    decreases |s|, count
  {
    var t := Zeros(count) + s;
    if s != [] {
      assert t[..|t| - 1] == Zeros(count) + s[..|s| - 1];
      LeadingZeros(count, s[..|s| - 1]);
    } else if count > 0 {
      assert t[..|t| - 1] == Zeros(count - 1) + s;
      LeadingZeros(count - 1, s);
    }
  }

  lemma DecimalInjective(m: nat, n: nat)
    ensures Decimal(m) == Decimal(n) ==> m == n
  {
    DecimalValue(m);
    DecimalValue(n);
  }

  lemma PaddedInjective(m: nat, n: nat, width: nat)
    ensures Padded(m, width) == Padded(n, width) ==> m == n
  {
    forall k: nat ensures Value(Padded(k, width)) == k {
      DecimalValue(k);
      var digits := Decimal(k);
      if |digits| < width {
        LeadingZeros(width - |digits|, digits);
      }
    }
    assert Value(Padded(m, width)) == m;
    assert Value(Padded(n, width)) == n;
  }

  /** Two dash-free prefixes that start the same text before a dash are equal. */
  lemma PrefixBeforeDash(a: string, b: string, x: string, y: string)
    requires '-' !in a && '-' !in b
    requires a + "-" + x == b + "-" + y
    ensures a == b
  {
    var t, u := a + "-" + x, b + "-" + y;
    assert t[|a|] == '-' && u[|b|] == '-';
    assert forall i :: 0 <= i < |a| ==> t[i] == a[i] && a[i] in a;
    assert forall i :: 0 <= i < |b| ==> u[i] == b[i] && b[i] in b;
    assert |a| == |b|;
    assert a == t[..|a|] == u[..|b|] == b;
  }

  predicate OccursAt(word: string, text: string, i: nat) {
    i + |word| <= |text| && text[i..i + |word|] == word
  }

  predicate Occurs(word: string, text: string) {
    exists i: nat | i <= |text| :: OccursAt(word, text, i)
  }

  lemma OccursLeft(word: string, a: string, b: string)
    requires Occurs(word, a)
    ensures Occurs(word, a + "-" + b)
  {
    var t := a + "-" + b;
    var i: nat :| i <= |a| && OccursAt(word, a, i);
    assert t[i..i + |word|] == a[i..i + |word|];
    assert OccursAt(word, t, i);
  }

  lemma OccursRight(word: string, a: string, b: string)
    requires Occurs(word, b)
    ensures Occurs(word, a + "-" + b)
  {
    var t := a + "-" + b;
    var k: nat :| k <= |b| && OccursAt(word, b, k);
    var i := |a| + 1 + k;
    assert t[i..i + |word|] == b[k..k + |word|];
    assert OccursAt(word, t, i);
  }

  /** An occurrence of a dash-free word stops before the dash or starts after it. */
  lemma OccurrenceAvoidsDash(word: string, a: string, b: string, i: nat)
    requires '-' !in word && word != [] && OccursAt(word, a + "-" + b, i)
    ensures i + |word| <= |a| || |a| < i
  {
    var t := a + "-" + b;
    assert t[|a|] == '-';
    forall k | i <= k < i + |word| ensures t[k] in word {
      assert t[k] == t[i..i + |word|][k - i];
    }
  }

  lemma OccursOnOneSide(word: string, a: string, b: string)
    requires '-' !in word && word != [] && Occurs(word, a + "-" + b)
    ensures Occurs(word, a) || Occurs(word, b)
  {
    var t, n := a + "-" + b, |word|;
    var i: nat :| i <= |t| && OccursAt(word, t, i);
    OccurrenceAvoidsDash(word, a, b, i);
    if i + n <= |a| {
      assert a[i..i + n] == t[i..i + n];
      assert OccursAt(word, a, i);
    } else {
      var k := i - |a| - 1;
      assert b[k..k + n] == t[i..i + n];
      assert OccursAt(word, b, k);
    }
  }

  /** A dash-free word crosses no dash: it lies on one side of it. */
  lemma OccursAcrossDash(word: string, a: string, b: string)
    requires '-' !in word && word != []
    ensures Occurs(word, a + "-" + b) <==> Occurs(word, a) || Occurs(word, b)
  {
    hide Occurs;
    if Occurs(word, a) {
      OccursLeft(word, a, b);
    }
    if Occurs(word, b) {
      OccursRight(word, a, b);
    }
    if Occurs(word, a + "-" + b) {
      OccursOnOneSide(word, a, b);
    }
  }

  /** Lexicographic order by character, as strings compare in the source. */
  predicate TextLess(a: string, b: string) {
    b != [] && (a == [] || a[0] < b[0] || (a[0] == b[0] && TextLess(a[1..], b[1..])))
  }

  lemma {:induction false} TextLessIsTotal(a: string, b: string)
    ensures a == b || TextLess(a, b) || TextLess(b, a)
    ensures !(TextLess(a, b) && TextLess(b, a)) && !TextLess(a, a)
  {
    if a != [] && b != [] {
      TextLessIsTotal(a[1..], b[1..]);
      assert a == [a[0]] + a[1..] && b == [b[0]] + b[1..];
    }
    if a != [] {
      TextLessIsTotal(a[1..], a[1..]);
    }
  }

  lemma {:induction false} TextLessIsTransitive(a: string, b: string, c: string)
    requires TextLess(a, b) && TextLess(b, c)
    ensures TextLess(a, c)
  {
    if a != [] && a[0] == b[0] == c[0] {
      TextLessIsTransitive(a[1..], b[1..], c[1..]);
    }
  }

  /** A smaller text is a shorter beginning of the other, or has the smaller character where they first differ. */
  lemma {:induction false} TextLessMeans(a: string, b: string)
    ensures TextLess(a, b) <==>
              exists k :: 0 <= k <= |a| && k < |b| && a[..k] == b[..k] && (k == |a| || a[k] < b[k])
  {
    if a != [] && b != [] && a[0] == b[0] {
      TextLessMeans(a[1..], b[1..]);
      if TextLess(a, b) {
        var k :| 0 <= k <= |a[1..]| && k < |b[1..]| && a[1..][..k] == b[1..][..k] && (k == |a[1..]| || a[1..][k] < b[1..][k]);
        assert a[..k + 1] == [a[0]] + a[1..][..k] && b[..k + 1] == [b[0]] + b[1..][..k];
      }
      if k :| 0 <= k <= |a| && k < |b| && a[..k] == b[..k] && (k == |a| || a[k] < b[k]) {
        assert k > 0;
        assert a[1..][..k - 1] == a[..k][1..] && b[1..][..k - 1] == b[..k][1..];
      }
    } else {
      assert a[..0] == b[..0];
      forall k | 0 < k <= |a| && k < |b| ensures a[..k] != b[..k] {
        assert a[..k][0] == a[0] && b[..k][0] == b[0];
      }
    }
  }

  ghost predicate Ascending(s: seq<string>) {
    forall i, j :: 0 <= i < j < |s| ==> TextLess(s[i], s[j])
  }

  lemma AscendingIsDistinct(s: seq<string>)
    requires Ascending(s)
    ensures Distinct(s)
  {
    forall i, j | 0 <= i < j < |s| ensures s[i] != s[j] {
      TextLessIsTotal(s[i], s[j]);
    }
  }

  /** The sequence with one more text, behind all smaller ones. */
  function Inserted(s: seq<string>, x: string): (r: seq<string>)
    ensures forall y :: y in r <==> y in s || y == x
    ensures Ascending(s) && x !in s ==> Ascending(r)
  {
    if s == [] then [x]
    else
      TextLessIsTotal(x, s[0]);
      if TextLess(x, s[0]) then InFront(s, x); [x] + s
      else
        assert s == [s[0]] + s[1..];
        var rest := Inserted(s[1..], x);
        assert forall i :: 0 <= i < |rest| ==> rest[i] in rest;
        [s[0]] + rest
  }

  lemma InFront(s: seq<string>, x: string)
    requires s != [] && TextLess(x, s[0])
    ensures Ascending(s) ==> Ascending([x] + s)
  {
    if Ascending(s) {
      forall j | 0 < j < |s| ensures TextLess(x, s[j]) {
        TextLessIsTransitive(x, s[0], s[j]);
      }
    }
  }

  /** The same texts in ascending order. */
  function SortedTexts(s: seq<string>): (r: seq<string>)
    ensures forall y :: y in r <==> y in s
    ensures Distinct(s) ==> Ascending(r)
  {
    if s == [] then []
    else
      var n := |s| - 1;
      assert s == s[..n] + [s[n]];
      Inserted(SortedTexts(s[..n]), s[n])
  }
}
