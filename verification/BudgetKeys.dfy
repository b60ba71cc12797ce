/** The string forms the reservation service stores in Redis: claim keys, expiry members and decimal amounts. */
module BudgetKeys {
  import opened Basics

  /** Unicode's white space, as strings.TrimSpace sees it. */
  predicate IsSpace(c: char) {
    || c == ' ' || c == '\t' || c == '\n' || c == '\r' || 0x2000 <= c as int <= 0x200a
    || c as int in {0x0b, 0x0c, 0x85, 0xa0, 0x1680, 0x2028, 0x2029, 0x202f, 0x205f, 0x3000}
  }

  function TrimLeft(s: string): string {
    if s != [] && IsSpace(s[0]) then TrimLeft(s[1..]) else s
  }

  function TrimRight(s: string): string {
    if s != [] && IsSpace(s[|s| - 1]) then TrimRight(s[..|s| - 1]) else s
  }

  function TrimSpace(s: string): string {
    TrimRight(TrimLeft(s))
  }

  datatype ClaimKey = Key(text: string) | MissingIdempotencyKey | MissingSessionId

  /** The key under which a session's idempotency key is remembered. */
  function IdemKey(session: string, idempotencyKey: string): ClaimKey {
    if TrimSpace(idempotencyKey) == "" then MissingIdempotencyKey
    else if TrimSpace(session) == "" then MissingSessionId
    else Key("idem:" + TrimSpace(session) + ":" + TrimSpace(idempotencyKey))
  }

  /** `longer` is `shorter`, a colon and some text, which the second idempotency key continues after another colon. */
  predicate Shifted(shorter: string, shorterKey: string, longer: string, longerKey: string) {
    && |shorter| < |longer| && longer[..|shorter|] == shorter && longer[|shorter|] == ':'
    && shorterKey == longer[|shorter| + 1..] + ":" + longerKey
  }

  lemma SplitShifted(s: string, k: string, t: string, l: string)
    requires |s| < |t| && s + ":" + k == t + ":" + l
    ensures Shifted(s, k, t, l)
  {
    var text := s + ":" + k;
    assert text[..|t|] == t;
    assert text[|s|] == ':';
    assert t[..|s|] == text[..|s|] == s;
    assert text[|s| + 1..] == k;
    assert (t + ":" + l)[|s| + 1..] == t[|s| + 1..] + ":" + l;
  }

  lemma JoinShifted(s: string, k: string, t: string, l: string)
    requires Shifted(s, k, t, l)
    ensures s + ":" + k == t + ":" + l
  {
    assert t == s + ":" + t[|s| + 1..];
  }

  /** Two calls share a claim exactly if their trimmed sessions and keys agree, or one session is the other with a colon
      and text appended and the keys make up for it. */
  lemma IdemKeyIff(s1: string, k1: string, s2: string, k2: string)
    requires IdemKey(s1, k1).Key? && IdemKey(s2, k2).Key?
    ensures var (t1, u1, t2, u2) := (TrimSpace(s1), TrimSpace(k1), TrimSpace(s2), TrimSpace(k2));
            IdemKey(s1, k1) == IdemKey(s2, k2) <==> (t1 == t2 && u1 == u2) || Shifted(t1, u1, t2, u2) || Shifted(t2, u2, t1, u1)
  {
    var t1, u1, t2, u2 := TrimSpace(s1), TrimSpace(k1), TrimSpace(s2), TrimSpace(k2);
    assert IdemKey(s1, k1).text == "idem:" + (t1 + ":" + u1) && IdemKey(s2, k2).text == "idem:" + (t2 + ":" + u2);
    if IdemKey(s1, k1) == IdemKey(s2, k2) {
      assert t1 + ":" + u1 == IdemKey(s1, k1).text[5..];
      assert t2 + ":" + u2 == IdemKey(s2, k2).text[5..];
      if |t1| < |t2| {
        SplitShifted(t1, u1, t2, u2);
      } else if |t2| < |t1| {
        SplitShifted(t2, u2, t1, u1);
      } else {
        assert t1 == (t1 + ":" + u1)[..|t1|] == t2;
        assert u1 == (t1 + ":" + u1)[|t1| + 1..] == u2;
      }
    } else {
      if Shifted(t1, u1, t2, u2) {
        JoinShifted(t1, u1, t2, u2);
      }
      if Shifted(t2, u2, t1, u1) {
        JoinShifted(t2, u2, t1, u1);
      }
    }
  }

  // ---------- Which sessions can share a claim ----------

  lemma {:induction false} TrimLeftShape(s: string)
    ensures TrimLeft(s) != "" ==> !IsSpace(TrimLeft(s)[0])
    ensures s != "" && !IsSpace(s[0]) ==> TrimLeft(s) == s
  {
    if s != "" && IsSpace(s[0]) {
      TrimLeftShape(s[1..]);
    }
  }

  lemma {:induction false} TrimRightShape(s: string)
    ensures TrimRight(s) <= s
    ensures TrimRight(s) != "" ==> !IsSpace(TrimRight(s)[|TrimRight(s)| - 1])
    ensures s != "" && !IsSpace(s[|s| - 1]) ==> TrimRight(s) == s
  {
    if s != "" && IsSpace(s[|s| - 1]) {
      TrimRightShape(s[..|s| - 1]);
    }
  }

  predicate Trimmed(s: string) {
    s != "" && !IsSpace(s[0]) && !IsSpace(s[|s| - 1])
  }

  lemma TrimSpaceIff(s: string)
    ensures TrimSpace(s) != "" ==> Trimmed(TrimSpace(s))
    ensures Trimmed(s) ==> TrimSpace(s) == s
  {
    TrimLeftShape(s);
    TrimRightShape(TrimLeft(s));
    TrimRightShape(s);
  }

  predicate AllBlank(s: string) {
    forall c | c in s :: IsSpace(c)
  }

  lemma {:induction false} TrimLeftCuts(s: string)
    ensures |TrimLeft(s)| <= |s|
    ensures var cut := |s| - |TrimLeft(s)|; s == s[..cut] + TrimLeft(s) && AllBlank(s[..cut])
  {
    if s != "" && IsSpace(s[0]) {
      TrimLeftCuts(s[1..]);
      var cut := |s| - |TrimLeft(s)|;
      assert s[..cut] == [s[0]] + s[1..][..cut - 1];
    }
  }

  lemma {:induction false} TrimRightCuts(s: string)
    ensures TrimRight(s) <= s && AllBlank(s[|TrimRight(s)|..])
  {
    if s != "" && IsSpace(s[|s| - 1]) {
      var shorter := s[..|s| - 1];
      TrimRightCuts(shorter);
      assert s[|TrimRight(s)|..] == shorter[|TrimRight(s)|..] + [s[|s| - 1]];
    }
  }

  predicate CutsTo(s: string, before: string, text: string, after: string) {
    s == before + text + after && AllBlank(before) && AllBlank(after)
  }

  /** Trimming takes away blanks at both ends and nothing else, and leaves none there. */
  lemma TrimSpaceCuts(s: string)
    ensures exists before, after :: CutsTo(s, before, TrimSpace(s), after)
    ensures TrimSpace(s) == "" || Trimmed(TrimSpace(s))
  {
    hide TrimLeft, TrimRight, AllBlank, Trimmed;
    TrimLeftCuts(s);
    TrimRightCuts(TrimLeft(s));
    TrimSpaceIff(s);
    var before, after := s[..|s| - |TrimLeft(s)|], TrimLeft(s)[|TrimSpace(s)|..];
    assert TrimLeft(s) == TrimSpace(s) + after;
    assert CutsTo(s, before, TrimSpace(s), after);
  }

  /** `longer` is `shorter` with a colon and then nothing or text that does not begin with a blank. */
  predicate ColonExtends(shorter: string, longer: string) {
    && |shorter| < |longer| && longer[..|shorter|] == shorter && longer[|shorter|] == ':'
    && (|longer| == |shorter| + 1 || !IsSpace(longer[|shorter| + 1]))
  }

  predicate SharesClaim(s1: string, k1: string, s2: string, k2: string) {
    IdemKey(s1, k1).Key? && IdemKey(s1, k1) == IdemKey(s2, k2)
  }

  lemma ExtensionShares(s1: string, s2: string) returns (k1: string, k2: string)
    requires TrimSpace(s1) != "" && TrimSpace(s2) != "" && ColonExtends(TrimSpace(s1), TrimSpace(s2))
    ensures SharesClaim(s1, k1, s2, k2)
  {
    var t1, t2 := TrimSpace(s1), TrimSpace(s2);
    k1, k2 := t2[|t1| + 1..] + ":" + "k", "k";
    assert Trimmed(k1) && Trimmed(k2);
    TrimSpaceIff(k1);
    TrimSpaceIff(k2);
    assert Shifted(t1, k1, t2, k2);
    IdemKeyIff(s1, k1, s2, k2);
  }

  lemma SharedMeansExtension(s1: string, k1: string, s2: string, k2: string)
    requires SharesClaim(s1, k1, s2, k2) && |TrimSpace(s1)| < |TrimSpace(s2)|
    ensures ColonExtends(TrimSpace(s1), TrimSpace(s2))
  {
    var t1, u1, t2, u2 := TrimSpace(s1), TrimSpace(k1), TrimSpace(s2), TrimSpace(k2);
    IdemKeyIff(s1, k1, s2, k2);
    TrimSpaceIff(k1);
    assert Shifted(t1, u1, t2, u2);
    if |t2| > |t1| + 1 {
      assert u1[0] == t2[|t1| + 1];
    }
  }

  /** Two different sessions can share a claim, under some idempotency keys, exactly if one extends the other by a colon. */
  lemma SessionsCanShareIff(s1: string, s2: string)
    requires TrimSpace(s1) != "" && TrimSpace(s2) != "" && TrimSpace(s1) != TrimSpace(s2)
    ensures (exists k1, k2 :: SharesClaim(s1, k1, s2, k2))
       <==> ColonExtends(TrimSpace(s1), TrimSpace(s2)) || ColonExtends(TrimSpace(s2), TrimSpace(s1))
  {
    if ColonExtends(TrimSpace(s1), TrimSpace(s2)) {
      var k1, k2 := ExtensionShares(s1, s2);
    } else if ColonExtends(TrimSpace(s2), TrimSpace(s1)) {
      var k2, k1 := ExtensionShares(s2, s1);
      assert SharesClaim(s1, k1, s2, k2);
    }
    if k1, k2 :| SharesClaim(s1, k1, s2, k2) {
      IdemKeyIff(s1, k1, s2, k2);
      if |TrimSpace(s1)| < |TrimSpace(s2)| {
        SharedMeansExtension(s1, k1, s2, k2);
      } else {
        assert SharesClaim(s2, k2, s1, k1) && |TrimSpace(s2)| < |TrimSpace(s1)|;
        SharedMeansExtension(s2, k2, s1, k1);
      }
    }
  }

  /** With a colon in a session id, two sessions can share a claim. */
  lemma ColonSessionsCollide()
    ensures IdemKey("a:b", "c") == IdemKey("a", "b:c") == Key("idem:a:b:c")
  {
    assert TrimSpace("a:b") == "a:b" && TrimSpace("b:c") == "b:c" && TrimSpace("a") == "a" && TrimSpace("c") == "c";
    assert "idem:" + "a:b" + ":" + "c" == "idem:a:b:c" == "idem:" + "a" + ":" + "b:c";
  }

  // ---------- Letter case ----------

  function LowerChar(c: char): char {
    if 'A' <= c <= 'Z' then c - 'A' + 'a' else c
  }

  function Lower(s: string): (r: string)
    ensures |r| == |s|
  {
    seq(|s|, i requires 0 <= i < |s| => LowerChar(s[i]))
  }

  predicate SameLetter(c: char, d: char) {
    c == d || ('A' <= c <= 'Z' && d == c - 'A' + 'a') || ('A' <= d <= 'Z' && c == d - 'A' + 'a')
  }

  /** Two texts fold to the same exactly if they have the same letters up to case. */
  lemma LowerIff(a: string, b: string)
    ensures Lower(a) == Lower(b) <==> |a| == |b| && forall i | 0 <= i < |a| :: SameLetter(a[i], b[i])
  {
    if Lower(a) == Lower(b) {
      forall i | 0 <= i < |a| ensures SameLetter(a[i], b[i]) {
        assert Lower(a)[i] == Lower(b)[i];
      }
    }
  }

  function UpperChar(c: char): char {
    if 'a' <= c <= 'z' then c - 'a' + 'A' else c
  }

  function Upper(s: string): string {
    seq(|s|, i requires 0 <= i < |s| => UpperChar(s[i]))
  }

  // ---------- Expiry members ----------

  function ExpiryMember(reservationId: string, session: string, amountAtomic: string): string {
    reservationId + "|" + session + "|" + amountAtomic
  }

  /** Splits at the first bar. */
  function CutAtBar(s: string): Option<(string, string)> {
    if s == "" then None
    else if s[0] == '|' then Some(("", s[1..]))
    else
      match CutAtBar(s[1..])
      case None => None
      case Some((head, tail)) => Some(([s[0]] + head, tail))
  }

  /** strings.SplitN(member, "|", 3), when it yields three parts. */
  function ParseExpiryMember(member: string): Option<(string, string, string)> {
    match CutAtBar(member)
    case None => None
    case Some((reservationId, rest)) =>
      match CutAtBar(rest)
      case None => None
      case Some((session, amountAtomic)) => Some((reservationId, session, amountAtomic))
  }

  lemma {:induction false} CutAtBarIff(s: string, head: string, tail: string)
    ensures CutAtBar(s) == Some((head, tail)) <==> s == head + "|" + tail && '|' !in head
  {
    if s != "" && s[0] != '|' {
      if head != "" {
        CutAtBarIff(s[1..], head[1..], tail);
        assert s == [s[0]] + s[1..] && head == [head[0]] + head[1..];
        assert head[0] == s[0] && s[1..] == head[1..] + "|" + tail ==> s == head + "|" + tail;
        assert s == head + "|" + tail ==> s[1..] == head[1..] + "|" + tail;
      }
    } else if s != "" {
      assert s == "" + "|" + s[1..];
      if head != "" && s == head + "|" + tail {
        assert s[0] == head[0] && head[0] in head;
      }
      if s == head + "|" + tail && head == "" {
        assert tail == s[1..];
      }
    }
  }

  /** A member reads back as what was written exactly when reservation id and session contain no bar. */
  lemma ExpiryMemberRoundTripIff(reservationId: string, session: string, amountAtomic: string)
    ensures ParseExpiryMember(ExpiryMember(reservationId, session, amountAtomic)) == Some((reservationId, session, amountAtomic))
       <==> '|' !in reservationId && '|' !in session
  {
    var member, rest := ExpiryMember(reservationId, session, amountAtomic), session + "|" + amountAtomic;
    assert member == reservationId + "|" + rest;
    CutAtBarIff(member, reservationId, rest);
    CutAtBarIff(rest, session, amountAtomic);
    if ParseExpiryMember(member) == Some((reservationId, session, amountAtomic)) {
      var (head, tail) := CutAtBar(member).value;
      CutAtBarIff(member, head, tail);
    }
  }

  // ---------- Decimal amounts ----------

  function DigitChar(d: nat): char
    requires d < 10
  {
    '0' + d as char
  }

  /** big.Int.String of a non-negative integer. */
  function FormatDecimal(n: nat): (s: string)
    ensures s != ""
  {
    if n < 10 then [DigitChar(n)] else FormatDecimal(n / 10) + [DigitChar(n % 10)]
  }

  function ParseDigits(s: string): Option<nat> {
    if s == "" then Some(0) else
    var last := s[|s| - 1];
    if !('0' <= last <= '9') then None
    else
      match ParseDigits(s[..|s| - 1])
      case None => None
      case Some(high) => Some(high * 10 + (last as int - '0' as int))
  }

  /** big.Int.SetString(s, 10): an optional sign and at least one digit. */
  function ParseDecimal(s: string): Option<int> {
    if s == "" then None
    else
      var signed := s[0] == '-' || s[0] == '+';
      var digits := if signed then s[1..] else s;
      if digits == "" then None
      else
        match ParseDigits(digits)
        case None => None
        case Some(n) => Some(if s[0] == '-' then 0 - n else n as int)
  }

  lemma {:induction false} ParseFormattedDigits(n: nat)
    ensures ParseDigits(FormatDecimal(n)) == Some(n) && '0' <= FormatDecimal(n)[0] <= '9'
  {
    if n < 10 {
      assert FormatDecimal(n)[..0] == "";
    } else {
      ParseFormattedDigits(n / 10);
      assert FormatDecimal(n)[..|FormatDecimal(n)| - 1] == FormatDecimal(n / 10);
    }
  }

  /** An aggregate that is written as a decimal string reads back as the same number. */
  lemma DecimalRoundTrip(n: nat)
    ensures ParseDecimal(FormatDecimal(n)) == Some(n)
  {
    ParseFormattedDigits(n);
  }

  predicate AllZeros(s: string) {
    forall c | c in s :: c == '0'
  }

  lemma ParseOneMore(init: string, d: nat)
    requires d < 10 && ParseDigits(init).Some?
    ensures ParseDigits(init + [DigitChar(d)]) == Some(ParseDigits(init).value * 10 + d)
  {
    assert (init + [DigitChar(d)])[..|init|] == init;
  }

  lemma {:induction false} ZerosParse(zeros: string)
    requires AllZeros(zeros)
    ensures ParseDigits(zeros) == Some(0)
  {
    if zeros != "" {
      var fewer := zeros[..|zeros| - 1];
      assert zeros[|zeros| - 1] in zeros && forall c | c in fewer :: c in zeros;
      ZerosParse(fewer);
    }
  }

  lemma {:induction false} ParsePadded(zeros: string, n: nat)
    requires AllZeros(zeros)
    ensures ParseDigits(zeros + FormatDecimal(n)) == Some(n)
  {
    hide ParseDigits, AllZeros;
    if n < 10 {
      ZerosParse(zeros);
      ParseOneMore(zeros, n);
    } else {
      ParsePadded(zeros, n / 10);
      ParseOneMore(zeros + FormatDecimal(n / 10), n % 10);
      assert zeros + FormatDecimal(n) == (zeros + FormatDecimal(n / 10)) + [DigitChar(n % 10)];
    }
  }

  /** Text that reads as a number is the number's decimal form behind zeros. */
  lemma {:induction false} DigitsArePadded(s: string) returns (zeros: string)
    requires s != "" && ParseDigits(s).Some?
    ensures AllZeros(zeros) && s == zeros + FormatDecimal(ParseDigits(s).value)
  {
    var init, last := s[..|s| - 1], s[|s| - 1];
    if init == "" {
      zeros := "";
    } else {
      zeros := DigitsArePadded(init);
      var high := ParseDigits(init).value;
      assert s == init + [last];
      if high == 0 {
        assert init == zeros + "0";
        zeros := zeros + "0";
      } else {
        var n := ParseDigits(s).value;
        assert n / 10 == high && n % 10 == last as int - '0' as int;
        assert FormatDecimal(n) == FormatDecimal(high) + [last];
      }
    }
  }

  predicate Denotes(s: string, sign: string, zeros: string, n: int) {
    && sign in ["", "+", "-"] && AllZeros(zeros) && (if sign == "-" then n <= 0 else n >= 0)
    && s == sign + (zeros + FormatDecimal(if n < 0 then 0 - n else n))
  }

  /** A string reads as a number exactly if it is the number's decimal form behind an optional sign and zeros. */
  lemma ParseDecimalIff(s: string, n: int)
    ensures ParseDecimal(s) == Some(n) <==> exists sign, zeros :: Denotes(s, sign, zeros, n)
  {
    if ParseDecimal(s) == Some(n) {
      var sign := if s[0] == '-' || s[0] == '+' then [s[0]] else "";
      var digits := s[|sign|..];
      var zeros := DigitsArePadded(digits);
      assert s == sign + digits;
      assert Denotes(s, sign, zeros, n);
    }
    if sign, zeros :| Denotes(s, sign, zeros, n) {
      DenotedReads(s, sign, zeros, n);
    }
  }

  lemma DenotedReads(s: string, sign: string, zeros: string, n: int)
    requires Denotes(s, sign, zeros, n)
    ensures ParseDecimal(s) == Some(n)
  {
    hide FormatDecimal, ParseDigits;
    var value := if n < 0 then 0 - n else n;
    ParsePadded(zeros, value);
    ParseFormattedDigits(value);
    var digits := zeros + FormatDecimal(value);
    assert digits[0] == if zeros == "" then FormatDecimal(value)[0] else zeros[0];
    assert zeros != "" ==> zeros[0] in zeros;
    assert s[|sign|..] == digits;
  }
}
