/**
 * String operations the app performs with JavaScript built-ins:
 * `split` on a one-character separator, `includes`, and writing a
 * non-negative integer in decimal inside a template literal.
 */
module Text {

  /** `s.split(sep)`: the pieces between the separators, in order; never empty. */
  function Split(s: string, sep: char): (pieces: seq<string>)
    ensures |pieces| >= 1
    decreases |s|
  {
    if |s| == 0 then [""]
    else
      var rest := Split(s[1..], sep);
      if s[0] == sep then [""] + rest
      else [[s[0]] + rest[0]] + rest[1..]
  }

  /** Every piece followed by one `sep`, concatenated in order. */
  function Terminated(pieces: seq<string>, sep: char): string
    decreases |pieces|
  {
    if |pieces| == 0 then "" else pieces[0] + [sep] + Terminated(pieces[1..], sep)
  }

  /** The parts concatenated in order. */
  function Concat(parts: seq<string>): string
    decreases |parts|
  {
    if |parts| == 0 then "" else Concat(parts[..|parts| - 1]) + parts[|parts| - 1]
  }

  /** How often `c` occurs in `s`. */
  function Occurrences(s: string, c: char): nat
    decreases |s|
  {
    if |s| == 0 then 0 else (if s[0] == c then 1 else 0) + Occurrences(s[1..], c)
  }

  /** `s.includes(sub)`. */
  predicate Contains(s: string, sub: string)
    ensures Contains(s, sub) ==> |sub| <= |s|
    decreases |s|
  {
    sub <= s || (|s| > 0 && Contains(s[1..], sub))
  }

  /** `${n}` for a non-negative integer below 10^21 (JavaScript writes larger ones in exponent form): its decimal digits, most significant first. */
  function Decimal(n: nat): (digits: string)
    ensures |digits| >= 1
    ensures forall i :: 0 <= i < |digits| ==> '0' <= digits[i] <= '9'
    decreases n
  {
    if n < 10 then [Digit(n)] else Decimal(n / 10) + [Digit(n % 10)]
  }

  function Digit(d: nat): char
    requires d < 10
  {
    "0123456789"[d]
  }

  /** The number a string of decimal digits denotes. */
  function DecimalValue(s: string): nat
    requires forall i :: 0 <= i < |s| ==> '0' <= s[i] <= '9'
    decreases |s|
  {
    if |s| == 0 then 0
    else DecimalValue(s[..|s| - 1]) * 10 + ((s[|s| - 1] as int) - ('0' as int))
  }

  // ---------------------------------------------------------------------
  // Lemmas

  /** Joining the pieces of `split` back with the separator, each followed by one, gives `s` and a trailing separator. */
  lemma {:induction false} SplitTerminated(s: string, sep: char)
    ensures Terminated(Split(s, sep), sep) == s + [sep]
    decreases |s|
  {
    if |s| > 0 {
      var rest := Split(s[1..], sep);
      SplitTerminated(s[1..], sep);
      if s[0] == sep {
        assert ([""] + rest)[1..] == rest;
      } else {
        var p := [[s[0]] + rest[0]] + rest[1..];
        assert p[1..] == rest[1..];
        assert Terminated(rest, sep) == rest[0] + [sep] + Terminated(rest[1..], sep);
        calc {
          Terminated(p, sep);
          [s[0]] + rest[0] + [sep] + Terminated(rest[1..], sep);
          [s[0]] + (s[1..] + [sep]);
        }
        assert [s[0]] + s[1..] == s;
      }
    }
  }

  /** No piece of `split` contains the separator. */
  lemma {:induction false} SplitPiecesFree(s: string, sep: char)
    ensures forall i :: 0 <= i < |Split(s, sep)| ==> sep !in Split(s, sep)[i]
    decreases |s|
  {
    if |s| > 0 {
      SplitPiecesFree(s[1..], sep);
      var rest := Split(s[1..], sep);
      if s[0] != sep {
        var p := Split(s, sep);
        assert p[0] == [s[0]] + rest[0];
        forall i | 1 <= i < |p| ensures sep !in p[i] {
          assert p[i] == rest[i];
        }
      }
    }
  }

  /** A string without the separator splits into itself alone. */
  lemma {:induction false} SplitWithoutSeparator(a: string, sep: char)
    requires sep !in a
    ensures Split(a, sep) == [a]
    decreases |a|
  {
    if |a| > 0 {
      SplitWithoutSeparator(a[1..], sep);
      assert [a[0]] + a[1..] == a;
    }
  }

  /** Splitting at the first separator: what precedes it is the first piece, the rest is split on. */
  lemma {:induction false} SplitAtFirst(a: string, b: string, sep: char)
    requires sep !in a
    ensures Split(a + [sep] + b, sep) == [a] + Split(b, sep)
    decreases |a|
  {
    var s := a + [sep] + b;
    if |a| == 0 {
      assert s[1..] == b;
    } else {
      assert s[1..] == a[1..] + [sep] + b;
      SplitAtFirst(a[1..], b, sep);
      assert [a[0]] + a[1..] == a;
    }
  }

  /** Appending one more piece appends it, and a separator, to the terminated join. */
  lemma {:induction false} TerminatedSnoc(pieces: seq<string>, last: string, sep: char)
    ensures Terminated(pieces + [last], sep) == Terminated(pieces, sep) + last + [sep]
    decreases |pieces|
  {
    if |pieces| > 0 {
      assert (pieces + [last])[1..] == pieces[1..] + [last];
      TerminatedSnoc(pieces[1..], last, sep);
    }
  }

  lemma {:induction false} OccurrencesAppend(a: string, b: string, c: char)
    ensures Occurrences(a + b, c) == Occurrences(a, c) + Occurrences(b, c)
    decreases |a|
  {
    if |a| > 0 {
      assert (a + b)[0] == a[0] && (a + b)[1..] == a[1..] + b;
      OccurrencesAppend(a[1..], b, c);
    } else {
      assert a + b == b;
    }
  }

  lemma {:induction false} OccurrencesAbsent(a: string, c: char)
    requires c !in a
    ensures Occurrences(a, c) == 0
    decreases |a|
  {
    if |a| > 0 {
      OccurrencesAbsent(a[1..], c);
    }
  }

  /** `includes` holds exactly when `sub` occurs at some position of `s`. */
  lemma {:induction false} ContainsAt(s: string, sub: string)
    ensures Contains(s, sub) <==> exists i :: 0 <= i <= |s| - |sub| && IsAt(s, sub, i)
    decreases |s|
  {
    if sub <= s {
      assert IsAt(s, sub, 0);
    } else if |s| == 0 {
    } else {
      ContainsAt(s[1..], sub);
      if Contains(s[1..], sub) {
        var i :| 0 <= i <= |s| - 1 - |sub| && IsAt(s[1..], sub, i);
        assert s[1..][i..i + |sub|] == s[i + 1..i + 1 + |sub|];
        assert IsAt(s, sub, i + 1);
      }
      if exists i :: 0 <= i <= |s| - |sub| && IsAt(s, sub, i) {
        var i :| 0 <= i <= |s| - |sub| && IsAt(s, sub, i);
        assert i != 0;
        assert s[1..][i - 1..i - 1 + |sub|] == s[i..i + |sub|];
        assert IsAt(s[1..], sub, i - 1);
      }
    }
  }

  /** `sub` occupies `s` from position `i`. */
  predicate IsAt(s: string, sub: string, i: int)
    requires 0 <= i <= |s| - |sub|
  {
    s[i..i + |sub|] == sub
  }

  /** Reading the digits back gives the number: `?q=${id}` denotes `id`. */
  lemma {:induction false} DecimalRoundTrip(n: nat)
    ensures DecimalValue(Decimal(n)) == n
    decreases n
  {
    if n >= 10 {
      DecimalRoundTrip(n / 10);
      var d := Decimal(n);
      assert d[..|d| - 1] == Decimal(n / 10);
    }
  }
}
