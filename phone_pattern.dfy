/** The phone-number check of the GraphQL mutations
    (alx_backend_graphql_crm/crm/schema.py): `re.match` of the pattern
    `^(\+\d{10,15}|\d{3}-\d{3}-\d{4})$`.

    The pattern is written out as data for a small matcher with the semantics of a
    regular expression made of character classes with repetition counts and one
    alternation; what it accepts is then characterised by a plain predicate. */
module PhonePattern {
  import opened Text

  datatype CharClass = Digit | Literal(c: char)

  predicate InClass(c: char, k: CharClass) {
    match k
    case Digit => IsDigit(c)
    case Literal(d) => c == d
  }

  predicate AllIn(s: string, k: CharClass) {
    forall i :: 0 <= i < |s| ==> InClass(s[i], k)
  }

  /** `k{min,min+extra}`. */
  datatype Piece = Piece(cls: CharClass, min: nat, extra: nat)

  /** The whole of `s` is matched by the pieces one after the other. */
  predicate MatchesSeq(ps: seq<Piece>, s: string)
    decreases |ps|
  {
    if ps == [] then s == []
    else exists n :: ps[0].min <= n <= ps[0].min + ps[0].extra && n <= |s|
                     && AllIn(s[..n], ps[0].cls) && MatchesSeq(ps[1..], s[n..])
  }

  /** The whole of `s` is matched by one of the alternatives. */
  predicate FullMatch(alternatives: seq<seq<Piece>>, s: string) {
    exists i :: 0 <= i < |alternatives| && MatchesSeq(alternatives[i], s)
  }

  /** `\+\d{10,15}` and `\d{3}-\d{3}-\d{4}`. */
  const International: seq<Piece> := [Piece(Literal('+'), 1, 0), Piece(Digit, 10, 5)]
  const Dashed: seq<Piece> :=
    [Piece(Digit, 3, 0), Piece(Literal('-'), 1, 0), Piece(Digit, 3, 0), Piece(Literal('-'), 1, 0), Piece(Digit, 4, 0)]
  const PhoneRegex: seq<seq<Piece>> := [International, Dashed]

  /** The two accepted shapes, stated directly. */
  predicate IsInternational(s: string) {
    11 <= |s| <= 16 && s[0] == '+' && AllDigits(s[1..])
  }

  predicate IsDashed(s: string) {
    |s| == 12 && s[3] == '-' && s[7] == '-' && AllDigits(s[..3]) && AllDigits(s[4..7]) && AllDigits(s[8..])
  }

  predicate IsValidPhone(s: string) {
    IsInternational(s) || IsDashed(s)
  }

  /** A piece with a fixed count consumes exactly that many characters. */
  lemma MatchFixed(k: CharClass, m: nat, rest: seq<Piece>, s: string)
    ensures MatchesSeq([Piece(k, m, 0)] + rest, s)
        <==> m <= |s| && AllIn(s[..m], k) && MatchesSeq(rest, s[m..])
  {
    var ps := [Piece(k, m, 0)] + rest;
    assert ps[0] == Piece(k, m, 0) && ps[1..] == rest;
  }

  /** A final piece matches exactly the strings of a length in its range made of its class. */
  lemma MatchLast(k: CharClass, m: nat, e: nat, s: string)
    ensures MatchesSeq([Piece(k, m, e)], s) <==> m <= |s| <= m + e && AllIn(s, k)
  {
    var ps := [Piece(k, m, e)];
    assert ps[1..] == [];
    if m <= |s| <= m + e && AllIn(s, k) {
      assert s[..|s|] == s && s[|s|..] == [];
      assert AllIn(s[..|s|], ps[0].cls) && MatchesSeq(ps[1..], s[|s|..]);
    }
    if MatchesSeq(ps, s) {
      var n :| m <= n <= m + e && n <= |s| && AllIn(s[..n], k) && MatchesSeq(ps[1..], s[n..]);
      assert n == |s|;
      assert s[..n] == s;
    }
  }

  lemma InternationalMatch(s: string)
    ensures MatchesSeq(International, s) <==> IsInternational(s)
  {
    MatchFixed(Literal('+'), 1, [Piece(Digit, 10, 5)], s);
    if |s| >= 1 {
      MatchLast(Digit, 10, 5, s[1..]);
      assert AllIn(s[..1], Literal('+')) <==> s[0] == '+' by {
        assert s[..1][0] == s[0];
      }
      assert AllIn(s[1..], Digit) <==> AllDigits(s[1..]);
    }
  }

  lemma DigitsIn(s: string)
    ensures AllIn(s, Digit) <==> AllDigits(s)
  {
  }

  lemma LiteralIn(s: string, c: char)
    requires |s| == 1
    ensures AllIn(s, Literal(c)) <==> s[0] == c
  {
  }

  /** `\d{4}` at the end. */
  lemma LastFourDigits(s: string)
    ensures MatchesSeq([Piece(Digit, 4, 0)], s) <==> |s| == 4 && AllDigits(s)
  {
    MatchLast(Digit, 4, 0, s);
    DigitsIn(s);
  }

  /** `-\d{4}` at the end. */
  lemma DashFour(s: string)
    ensures MatchesSeq([Piece(Literal('-'), 1, 0), Piece(Digit, 4, 0)], s)
        <==> |s| == 5 && s[0] == '-' && AllDigits(s[1..])
  {
    assert [Piece(Literal('-'), 1, 0), Piece(Digit, 4, 0)] == [Piece(Literal('-'), 1, 0)] + [Piece(Digit, 4, 0)];
    MatchFixed(Literal('-'), 1, [Piece(Digit, 4, 0)], s);
    if |s| >= 1 {
      LiteralIn(s[..1], '-');
      LastFourDigits(s[1..]);
    }
  }

  /** `\d{3}-\d{4}` at the end. */
  lemma ThreeDashFour(s: string)
    ensures MatchesSeq([Piece(Digit, 3, 0), Piece(Literal('-'), 1, 0), Piece(Digit, 4, 0)], s)
        <==> |s| == 8 && AllDigits(s[..3]) && s[3] == '-' && AllDigits(s[4..])
  {
    var tail := [Piece(Literal('-'), 1, 0), Piece(Digit, 4, 0)];
    assert [Piece(Digit, 3, 0), Piece(Literal('-'), 1, 0), Piece(Digit, 4, 0)] == [Piece(Digit, 3, 0)] + tail;
    MatchFixed(Digit, 3, tail, s);
    if |s| >= 3 {
      DigitsIn(s[..3]);
      DashFour(s[3..]);
      if |s| >= 4 {
        assert s[3..][1..] == s[4..];
      }
    }
  }

  /** `-\d{3}-\d{4}` at the end. */
  lemma DashThreeDashFour(s: string)
    ensures MatchesSeq(Dashed[1..], s)
        <==> |s| == 9 && s[0] == '-' && AllDigits(s[1..4]) && s[4] == '-' && AllDigits(s[5..])
  {
    var tail := [Piece(Digit, 3, 0), Piece(Literal('-'), 1, 0), Piece(Digit, 4, 0)];
    assert Dashed[1..] == [Piece(Literal('-'), 1, 0)] + tail;
    MatchFixed(Literal('-'), 1, tail, s);
    if |s| >= 1 {
      LiteralIn(s[..1], '-');
      ThreeDashFour(s[1..]);
      if |s| == 9 {
        assert s[1..][..3] == s[1..4] && s[1..][4..] == s[5..];
      }
    }
  }

  lemma DashedMatch(s: string)
    ensures MatchesSeq(Dashed, s) <==> IsDashed(s)
  {
    assert Dashed == [Piece(Digit, 3, 0)] + Dashed[1..];
    MatchFixed(Digit, 3, Dashed[1..], s);
    if |s| >= 3 {
      DigitsIn(s[..3]);
      DashThreeDashFour(s[3..]);
      if |s| == 12 {
        assert s[3..][1..4] == s[4..7] && s[3..][5..] == s[8..];
      }
    }
  }

  /** The pattern, matched as a whole, accepts exactly the two shapes. */
  lemma PhoneRegexMeaning(s: string)
    ensures FullMatch(PhoneRegex, s) <==> IsValidPhone(s)
  {
    InternationalMatch(s);
    DashedMatch(s);
    assert PhoneRegex[0] == International && PhoneRegex[1] == Dashed;
  }

  /** `re.match` with the pattern as written: `$` also matches just before a final
      newline, so a valid number followed by "\n" is accepted. */
  predicate PhoneAcceptedAsWritten(s: string) {
    FullMatch(PhoneRegex, s) || (|s| >= 1 && s[|s| - 1] == '\n' && FullMatch(PhoneRegex, s[..|s| - 1]))
  }

  /** The check as intended: the whole string is one of the two shapes. */
  predicate PhoneAccepted(s: string) {
    FullMatch(PhoneRegex, s)
  }

  lemma PhoneAcceptedMeaning(s: string)
    ensures PhoneAccepted(s) <==> IsValidPhone(s)
  {
    PhoneRegexMeaning(s);
  }

  /** The pattern as written lets through a number with a trailing newline, which
      is then stored as the customer's phone. */
  lemma TrailingNewlineAccepted()
    ensures PhoneAcceptedAsWritten("555-123-4567\n")
    ensures !PhoneAccepted("555-123-4567\n")
  {
    var s := "555-123-4567\n";
    assert s[..|s| - 1] == "555-123-4567";
    PhoneRegexMeaning(s[..|s| - 1]);
    PhoneRegexMeaning(s);
  }

  /** Apart from that final newline the two readings agree. */
  lemma AsWrittenDiffersOnlyByNewline(s: string)
    ensures PhoneAcceptedAsWritten(s)
        <==> IsValidPhone(s) || (|s| >= 1 && s[|s| - 1] == '\n' && IsValidPhone(s[..|s| - 1]))
  {
    PhoneRegexMeaning(s);
    if |s| >= 1 {
      PhoneRegexMeaning(s[..|s| - 1]);
    }
  }

  lemma ExampleInternationalAccepted()
    ensures PhoneAccepted("+12345678901")
  {
    var s := "+12345678901";
    assert s[1..] == "12345678901";
    assert AllDigits(s[1..]);
    PhoneRegexMeaning(s);
  }

  lemma ExampleDashedAccepted()
    ensures PhoneAccepted("555-123-4567")
  {
    var s := "555-123-4567";
    assert s[..3] == "555" && s[4..7] == "123" && s[8..] == "4567";
    assert AllDigits(s[..3]) && AllDigits(s[4..7]) && AllDigits(s[8..]);
    PhoneRegexMeaning(s);
  }

  lemma ExamplePhonesRejected()
    ensures !PhoneAccepted("+123456789") && !PhoneAccepted("5551234567") && !PhoneAccepted("555 123 4567")
  {
    PhoneRegexMeaning("+123456789");
    PhoneRegexMeaning("5551234567");
    PhoneRegexMeaning("555 123 4567");
  }
}
