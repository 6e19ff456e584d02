/**
  The phone validator of the order form: the anchored pattern

      ^ \+? \d{1,4}? [-.\s]? \(? \d{1,3}? \)? [-.\s]? \d{1,4} [-.\s]? \d{1,4} [-.\s]? \d{1,9} $

  written as a list of twelve quantified character classes. A string is
  accepted when it splits into twelve consecutive chunks, the j-th chunk
  made of characters of the j-th class and of a length within the j-th
  bounds. With both anchors present and no groups, backtracking search finds
  a match exactly when such a split exists, so the lazy `{1,4}?` and
  `{1,3}?` change which split is found, not whether one is.
 */
module PhoneRegex {

  datatype CharClass = PlusSign | Digit | Separator | OpenParen | CloseParen

  /** One quantified atom `cls{min,max}`; a trailing `?` is `{0,1}`. */
  datatype Piece = Piece(cls: CharClass, min: nat, max: nat)

  /** `\d`: the ASCII digits only. */
  predicate IsDigit(c: char) {
    '0' <= c <= '9'
  }

  /** `\s`: the WhiteSpace and LineTerminator code points of ECMAScript. */
  predicate IsJsWhitespace(c: char) {
    var n := c as int;
    || n == 0x09 || n == 0x0A || n == 0x0B || n == 0x0C || n == 0x0D
    || n == 0x20 || n == 0xA0 || n == 0x1680 || (0x2000 <= n <= 0x200A)
    || n == 0x2028 || n == 0x2029 || n == 0x202F || n == 0x205F
    || n == 0x3000 || n == 0xFEFF
  }

  predicate InClass(c: char, cls: CharClass) {
    match cls
    case PlusSign => c == '+'
    case Digit => IsDigit(c)
    case Separator => c == '-' || c == '.' || IsJsWhitespace(c)
    case OpenParen => c == '('
    case CloseParen => c == ')'
  }

  predicate AllIn(s: string, cls: CharClass) {
    forall i :: 0 <= i < |s| ==> InClass(s[i], cls)
  }

  const PhonePattern: seq<Piece> := [
    Piece(PlusSign, 0, 1),    // \+?
    Piece(Digit, 1, 4),       // \d{1,4}?
    Piece(Separator, 0, 1),   // [-.\s]?
    Piece(OpenParen, 0, 1),   // \(?
    Piece(Digit, 1, 3),       // \d{1,3}?
    Piece(CloseParen, 0, 1),  // \)?
    Piece(Separator, 0, 1),   // [-.\s]?
    Piece(Digit, 1, 4),       // \d{1,4}
    Piece(Separator, 0, 1),   // [-.\s]?
    Piece(Digit, 1, 4),       // \d{1,4}
    Piece(Separator, 0, 1),   // [-.\s]?
    Piece(Digit, 1, 9)        // \d{1,9}
  ]

  /** `s` splits into one chunk per piece, in order, with nothing left over. */
  predicate Matches(ps: seq<Piece>, s: string)
    decreases |ps|
  {
    if ps == [] then s == []
    else exists k: nat :: ps[0].min <= k <= ps[0].max && k <= |s| && AllIn(s[..k], ps[0].cls) && Matches(ps[1..], s[k..])
  }

  /** `isValidPhone(str)`. */
  predicate IsValidPhone(s: string) {
    Matches(PhonePattern, s)
  }

  // ------------------------------------------------------- digit counting

  function DigitCount(s: string): nat {
    if s == [] then 0 else (if IsDigit(s[0]) then 1 else 0) + DigitCount(s[1..])
  }

  /** The fewest digits the digit pieces demand. */
  function MinDigits(ps: seq<Piece>): nat {
    if ps == [] then 0 else (if ps[0].cls == Digit then ps[0].min else 0) + MinDigits(ps[1..])
  }

  /** The most digits the digit pieces admit. */
  function MaxDigits(ps: seq<Piece>): nat {
    if ps == [] then 0 else (if ps[0].cls == Digit then ps[0].max else 0) + MaxDigits(ps[1..])
  }

  lemma {:induction false} DigitCountConcat(a: string, b: string)
    ensures DigitCount(a + b) == DigitCount(a) + DigitCount(b)
  {
    if a == [] {
      assert a + b == b;
    } else {
      assert (a + b)[1..] == a[1..] + b;
      DigitCountConcat(a[1..], b);
    }
  }

  /** A chunk of one class holds only digits or no digit at all. */
  lemma {:induction false} DigitCountOfChunk(t: string, cls: CharClass)
    requires AllIn(t, cls)
    ensures DigitCount(t) == if cls == Digit then |t| else 0
  {
    if t != [] {
      assert AllIn(t[1..], cls) by {
        forall i | 0 <= i < |t[1..]| ensures InClass(t[1..][i], cls) {
          assert t[1..][i] == t[i + 1];
        }
      }
      DigitCountOfChunk(t[1..], cls);
    }
  }

  /** A match has between `MinDigits` and `MaxDigits` digits. */
  lemma {:induction false} DigitBounds(ps: seq<Piece>, s: string)
    requires Matches(ps, s)
    ensures MinDigits(ps) <= DigitCount(s) <= MaxDigits(ps)
  {
    if ps != [] {
      var k: nat :| ps[0].min <= k <= ps[0].max && k <= |s| && AllIn(s[..k], ps[0].cls) && Matches(ps[1..], s[k..]);
      assert s == s[..k] + s[k..];
      DigitCountConcat(s[..k], s[k..]);
      DigitCountOfChunk(s[..k], ps[0].cls);
      DigitBounds(ps[1..], s[k..]);
    }
  }

  /** One step of `MinDigits` and `MaxDigits` on the suffix of `ps` from `j`. */
  lemma DigitsStep(ps: seq<Piece>, j: nat)
    requires j < |ps|
    ensures MinDigits(ps[j..]) == (if ps[j].cls == Digit then ps[j].min else 0) + MinDigits(ps[j + 1..])
    ensures MaxDigits(ps[j..]) == (if ps[j].cls == Digit then ps[j].max else 0) + MaxDigits(ps[j + 1..])
  {
    assert ps[j..][1..] == ps[j + 1..];
  }

  /** The digit pieces of the pattern, read off one by one: the other pieces
      are not digit pieces. */
  predicate DigitLayout(ps: seq<Piece>) {
    && |ps| == 12
    && ps[0].cls != Digit && ps[2].cls != Digit && ps[3].cls != Digit && ps[5].cls != Digit
    && ps[6].cls != Digit && ps[8].cls != Digit && ps[10].cls != Digit
    && ps[1] == Piece(Digit, 1, 4) && ps[4] == Piece(Digit, 1, 3) && ps[7] == Piece(Digit, 1, 4)
    && ps[9] == Piece(Digit, 1, 4) && ps[11] == Piece(Digit, 1, 9)
  }

  lemma LayoutDigits(ps: seq<Piece>)
    requires DigitLayout(ps)
    ensures MinDigits(ps) == 5 && MaxDigits(ps) == 24
    ensures MinDigits(ps[1..]) == 5 && MaxDigits(ps[1..]) == 24
  {
    assert ps[12..] == [];
    DigitsStep(ps, 11); DigitsStep(ps, 10); DigitsStep(ps, 9); DigitsStep(ps, 8);
    DigitsStep(ps, 7); DigitsStep(ps, 6); DigitsStep(ps, 5); DigitsStep(ps, 4);
    DigitsStep(ps, 3); DigitsStep(ps, 2); DigitsStep(ps, 1); DigitsStep(ps, 0);
    assert ps[0..] == ps;
  }

  lemma PatternDigitBounds()
    ensures MinDigits(PhonePattern) == 5 && MaxDigits(PhonePattern) == 24
    ensures MinDigits(PhonePattern[1..]) == 5 && MaxDigits(PhonePattern[1..]) == 24
  {
    assert DigitLayout(PhonePattern);
    LayoutDigits(PhonePattern);
  }

  /** Every accepted phone has 5 to 24 digits. */
  lemma PhoneDigitBounds(s: string)
    requires IsValidPhone(s)
    ensures 5 <= DigitCount(s) <= 24
  {
    DigitBounds(PhonePattern, s);
    PatternDigitBounds();
  }

  lemma EmptyPhoneRejected()
    ensures !IsValidPhone("")
  {
    if IsValidPhone("") {
      PhoneDigitBounds("");
    }
  }

  // ----------------------------------------------------- last character

  /** When the last piece is a digit piece that needs a digit, a match ends in a digit. */
  lemma {:induction false} EndsInDigit(ps: seq<Piece>, s: string)
    requires ps != [] && ps[|ps| - 1].cls == Digit && ps[|ps| - 1].min >= 1
    requires Matches(ps, s)
    ensures |s| > 0 && IsDigit(s[|s| - 1])
  {
    var k: nat :| ps[0].min <= k <= ps[0].max && k <= |s| && AllIn(s[..k], ps[0].cls) && Matches(ps[1..], s[k..]);
    if |ps| == 1 {
      assert s[k..] == [];
      assert s[..k][k - 1] == s[|s| - 1];
    } else {
      assert ps[1..][|ps[1..]| - 1] == ps[|ps| - 1];
      EndsInDigit(ps[1..], s[k..]);
      assert s[k..][|s[k..]| - 1] == s[|s| - 1];
    }
  }

  /** Every accepted phone ends with a digit. */
  lemma PhoneEndsInDigit(s: string)
    requires IsValidPhone(s)
    ensures |s| > 0 && IsDigit(s[|s| - 1])
  {
    EndsInDigit(PhonePattern, s);
  }

  // ------------------------------------------------------ character set

  /** The characters any piece of the pattern admits. */
  predicate PhoneChar(c: char) {
    IsDigit(c) || c == '+' || c == '-' || c == '.' || c == '(' || c == ')' || IsJsWhitespace(c)
  }

  /** A match uses only characters of the classes of its pieces. */
  lemma {:induction false} MatchChars(ps: seq<Piece>, s: string)
    requires Matches(ps, s)
    ensures forall i :: 0 <= i < |s| ==> PhoneChar(s[i])
  {
    if ps != [] {
      var k: nat :| ps[0].min <= k <= ps[0].max && k <= |s| && AllIn(s[..k], ps[0].cls) && Matches(ps[1..], s[k..]);
      MatchChars(ps[1..], s[k..]);
      forall i | 0 <= i < |s| ensures PhoneChar(s[i]) {
        if i < k {
          assert InClass(s[..k][i], ps[0].cls);
        } else {
          assert s[k..][i - k] == s[i];
        }
      }
    }
  }

  /** A match of pieces none of which is `\+` contains no `+`. */
  lemma {:induction false} MatchNoPlus(ps: seq<Piece>, s: string)
    requires Matches(ps, s)
    requires forall j :: 0 <= j < |ps| ==> ps[j].cls != PlusSign
    ensures forall i :: 0 <= i < |s| ==> s[i] != '+'
  {
    if ps != [] {
      var k: nat :| ps[0].min <= k <= ps[0].max && k <= |s| && AllIn(s[..k], ps[0].cls) && Matches(ps[1..], s[k..]);
      MatchNoPlus(ps[1..], s[k..]);
      forall i | 0 <= i < |s| ensures s[i] != '+' {
        if i < k {
          assert InClass(s[..k][i], ps[0].cls);
        } else {
          assert s[k..][i - k] == s[i];
        }
      }
    }
  }

  /** After an optional leading `\+?`, a `+` can occur nowhere else. */
  lemma PlusOnlyFirst(ps: seq<Piece>, s: string)
    requires Matches(ps, s) && ps != [] && ps[0].max <= 1
    requires forall j :: 1 <= j < |ps| ==> ps[j].cls != PlusSign
    ensures forall i :: 0 < i < |s| ==> s[i] != '+'
  {
    var k: nat :| ps[0].min <= k <= ps[0].max && k <= |s| && AllIn(s[..k], ps[0].cls) && Matches(ps[1..], s[k..]);
    assert forall j :: 0 <= j < |ps[1..]| ==> ps[1..][j] == ps[j + 1];
    MatchNoPlus(ps[1..], s[k..]);
    forall i | 0 < i < |s| ensures s[i] != '+' {
      assert s[k..][i - k] == s[i];
    }
  }

  /** Only the first piece of the pattern is `\+?`, and it takes at most one character. */
  lemma PatternPlusFirst()
    ensures PhonePattern != [] && PhonePattern[0].max <= 1
    ensures forall j :: 1 <= j < |PhonePattern| ==> PhonePattern[j].cls != PlusSign
  {
  }

  /** Every accepted phone is made of digits, `+ - . ( )` and whitespace,
      and a `+` can only be its first character. */
  lemma PhoneCharacters(s: string)
    requires IsValidPhone(s)
    ensures forall i :: 0 <= i < |s| ==> PhoneChar(s[i])
    ensures forall i :: 0 < i < |s| ==> s[i] != '+'
  {
    MatchChars(PhonePattern, s);
    PatternPlusFirst();
    PlusOnlyFirst(PhonePattern, s);
  }

  /** A phone with a letter anywhere is rejected. */
  lemma LetterRejected(s: string, i: nat)
    requires i < |s| && ('a' <= s[i] <= 'z' || 'A' <= s[i] <= 'Z')
    ensures !IsValidPhone(s)
  {
    assert !PhoneChar(s[i]);
    if IsValidPhone(s) {
      PhoneCharacters(s);
    }
  }

  lemma LettersRejected()
    ensures !IsValidPhone("abc")
  {
    LetterRejected("abc", 0);
  }

  // ------------------------------------------------------ plain digit runs

  /** Bounds that can be met, and optional non-digit pieces. */
  predicate WellFormed(ps: seq<Piece>) {
    forall j :: 0 <= j < |ps| ==> ps[j].min <= ps[j].max && (ps[j].cls != Digit ==> ps[j].min == 0)
  }

  lemma {:induction false} MinBelowMax(ps: seq<Piece>)
    requires WellFormed(ps)
    ensures MinDigits(ps) <= MaxDigits(ps)
  {
    if ps != [] {
      assert WellFormed(ps[1..]) by {
        forall j | 0 <= j < |ps[1..]| ensures ps[1..][j] == ps[j + 1] { }
      }
      MinBelowMax(ps[1..]);
    }
  }

  /** A run of digits of any length between `MinDigits` and `MaxDigits` matches. */
  lemma {:induction false} DigitRunMatches(ps: seq<Piece>, s: string)
    requires WellFormed(ps) && AllIn(s, Digit)
    requires MinDigits(ps) <= |s| <= MaxDigits(ps)
    ensures Matches(ps, s)
  {
    if ps != [] {
      var p, rest := ps[0], ps[1..];
      assert WellFormed(rest) by {
        forall j | 0 <= j < |rest| ensures rest[j] == ps[j + 1] { }
      }
      MinBelowMax(rest);
      var k: nat;
      if p.cls == Digit {
        k := if p.min >= |s| - MaxDigits(rest) then p.min else |s| - MaxDigits(rest);
      } else {
        k := 0;
      }
      assert AllIn(s[k..], Digit) by {
        forall i | 0 <= i < |s[k..]| ensures s[k..][i] == s[k + i] { }
      }
      DigitRunMatches(rest, s[k..]);
      assert AllIn(s[..k], p.cls);
      assert p.min <= k <= p.max && k <= |s| && AllIn(s[..k], p.cls) && Matches(rest, s[k..]);
    }
  }

  lemma PatternWellFormed()
    ensures WellFormed(PhonePattern) && WellFormed(PhonePattern[1..])
  {
  }

  /** Every string of 5 to 24 digits and nothing else is accepted. */
  lemma DigitRunAccepted(s: string)
    requires AllIn(s, Digit) && 5 <= |s| <= 24
    ensures IsValidPhone(s)
  {
    PatternWellFormed();
    PatternDigitBounds();
    DigitRunMatches(PhonePattern, s);
  }

  /** A first chunk for the first piece and a match of the rest make a match. */
  lemma MatchesWith(ps: seq<Piece>, s: string, k: nat)
    requires ps != [] && ps[0].min <= k <= ps[0].max && k <= |s|
    requires AllIn(s[..k], ps[0].cls) && Matches(ps[1..], s[k..])
    ensures Matches(ps, s)
  {
  }

  /** A `+` for a leading `\+?` piece, then a digit run for the rest. */
  lemma PlusThenDigitRunMatches(ps: seq<Piece>, s: string)
    requires ps != [] && ps[0].cls == PlusSign && ps[0].min <= 1 <= ps[0].max
    requires WellFormed(ps[1..]) && MinDigits(ps[1..]) <= |s| - 1 <= MaxDigits(ps[1..])
    requires |s| > 0 && s[0] == '+' && AllIn(s[1..], Digit)
    ensures Matches(ps, s)
  {
    DigitRunMatches(ps[1..], s[1..]);
    assert AllIn(s[..1], PlusSign);
    MatchesWith(ps, s, 1);
  }

  /** So is a `+` followed by such a run, as in an international number. */
  lemma PlusDigitRunAccepted(s: string)
    requires |s| > 0 && s[0] == '+' && AllIn(s[1..], Digit) && 6 <= |s| <= 25
    ensures IsValidPhone(s)
  {
    PatternWellFormed();
    PatternDigitBounds();
    PlusThenDigitRunMatches(PhonePattern, s);
  }

  lemma PhoneExamples()
    ensures IsValidPhone("+5491123456789")
    ensures IsValidPhone("5491123456789")
  {
    PlusDigitRunAccepted("+5491123456789");
    DigitRunAccepted("5491123456789");
  }

  /** A chunk of a piece's class whose length is within the piece's bounds. */
  predicate Fits(p: Piece, t: string) {
    p.min <= |t| <= p.max && AllIn(t, p.cls)
  }

  function Concat(cs: seq<string>): string {
    if cs == [] then "" else cs[0] + Concat(cs[1..])
  }

  /** One fitting chunk per piece, concatenated, is a match. */
  lemma {:induction false} ChunksMatch(ps: seq<Piece>, cs: seq<string>)
    requires |cs| == |ps| && forall j :: 0 <= j < |ps| ==> Fits(ps[j], cs[j])
    ensures Matches(ps, Concat(cs))
  {
    if ps != [] {
      var t := Concat(cs);
      assert forall j :: 0 <= j < |ps[1..]| ==> ps[1..][j] == ps[j + 1] && cs[1..][j] == cs[j + 1];
      ChunksMatch(ps[1..], cs[1..]);
      assert t[..|cs[0]|] == cs[0];
      assert t[|cs[0]|..] == Concat(cs[1..]);
      MatchesWith(ps, t, |cs[0]|);
    }
  }

  /** "123-456-7890", split as "1", "23", "-", "456", "-", "78", "90". */
  const DashedChunks: seq<string> := ["", "1", "", "", "23", "", "-", "456", "-", "78", "", "90"]

  lemma DashedChunksFit()
    ensures |DashedChunks| == |PhonePattern|
    ensures forall j :: 0 <= j < 12 ==> Fits(PhonePattern[j], DashedChunks[j])
  {
  }

  /** One step of `Concat` on the suffix of `cs` from `j`. */
  lemma ConcatStep(cs: seq<string>, j: nat)
    requires j < |cs|
    ensures Concat(cs[j..]) == cs[j] + Concat(cs[j + 1..])
  {
    assert cs[j..][1..] == cs[j + 1..];
  }

  predicate DashedLayout(cs: seq<string>) {
    && |cs| == 12
    && cs[0] == "" && cs[2] == "" && cs[3] == "" && cs[5] == "" && cs[10] == ""
    && cs[1] == "1" && cs[4] == "23" && cs[6] == "-" && cs[7] == "456" && cs[8] == "-"
    && cs[9] == "78" && cs[11] == "90"
  }

  lemma DashedJoin(cs: seq<string>)
    requires DashedLayout(cs)
    ensures Concat(cs) == "123-456-7890"
  {
    assert cs[12..] == [];
    ConcatStep(cs, 11); ConcatStep(cs, 10);
    assert Concat(cs[10..]) == "90";
    ConcatStep(cs, 9);
    assert Concat(cs[9..]) == "7890";
    ConcatStep(cs, 8);
    assert Concat(cs[8..]) == "-7890";
    ConcatStep(cs, 7);
    assert Concat(cs[7..]) == "456-7890";
    ConcatStep(cs, 6);
    assert Concat(cs[6..]) == "-456-7890";
    ConcatStep(cs, 5); ConcatStep(cs, 4);
    assert Concat(cs[4..]) == "23-456-7890";
    ConcatStep(cs, 3); ConcatStep(cs, 2);
    assert Concat(cs[2..]) == "23-456-7890";
    ConcatStep(cs, 1); ConcatStep(cs, 0);
    assert cs[0..] == cs;
  }

  lemma DashedChunksJoin()
    ensures Concat(DashedChunks) == "123-456-7890"
  {
    assert DashedLayout(DashedChunks);
    DashedJoin(DashedChunks);
  }

  lemma DashedPhoneAccepted()
    ensures IsValidPhone("123-456-7890")
  {
    DashedChunksFit();
    ChunksMatch(PhonePattern, DashedChunks);
    DashedChunksJoin();
  }
}
