/** Client-side formatting and validation of phone and vehicle numbers
    (registration.js). A JavaScript string is modelled as a sequence of
    Unicode scalar values; every character the patterns care about lies in
    the Basic Multilingual Plane, where the two views agree. */
module Registration {
  import opened Wrappers

  function Min(a: int, b: int): int {
    if a <= b then a else b
  }

  /** What `\d` and `[0-9]` match in a pattern without the `u` flag: an
      ASCII decimal digit. */
  predicate IsDigit(c: char) {
    '0' <= c <= '9'
  }

  predicate AllDigits(s: string) {
    forall i | 0 <= i < |s| :: IsDigit(s[i])
  }

  /** What `\s` matches and `String.prototype.trim` removes: the ECMAScript
      WhiteSpace and LineTerminator code points. */
  predicate IsWhitespace(c: char) {
    || c == '\t' || c == '\n' || c == '\U{000B}' || c == '\U{000C}' || c == '\r'
    || c == ' ' || c == '\U{00A0}' || c == '\U{1680}'
    || ('\U{2000}' <= c <= '\U{200A}')
    || c == '\U{2028}' || c == '\U{2029}' || c == '\U{202F}' || c == '\U{205F}'
    || c == '\U{3000}' || c == '\U{FEFF}'
  }

  predicate NotWhitespace(c: char) {
    !IsWhitespace(c)
  }

  /** `[가-힣]`: a precomposed Hangul syllable, U+AC00 through U+D7A3. */
  predicate IsHangulSyllable(c: char) {
    '\U{AC00}' <= c <= '\U{D7A3}'
  }

  // ---------------------------------------------------------------------
  // Deleting every character of a class: `s.replace(/[^...]/g, '')`
  // ---------------------------------------------------------------------

  /** The characters of `s` that satisfy `keep`, in their original order. */
  function Keep(s: string, keep: char -> bool): (t: string)
    ensures |t| <= |s|
    ensures forall i | 0 <= i < |t| :: keep(t[i])
  {
    if s == [] then []
    else (if keep(s[0]) then [s[0]] else []) + Keep(s[1..], keep)
  }

  lemma {:induction false} KeepConcat(a: string, b: string, keep: char -> bool)
    ensures Keep(a + b, keep) == Keep(a, keep) + Keep(b, keep)
  {
    if a == [] {
      assert a + b == b;
    } else {
      assert (a + b)[0] == a[0];
      assert (a + b)[1..] == a[1..] + b;
      KeepConcat(a[1..], b, keep);
    }
  }

  /** Deleting a class that does not occur changes nothing. */
  lemma {:induction false} KeepAll(s: string, keep: char -> bool)
    requires forall i | 0 <= i < |s| :: keep(s[i])
    ensures Keep(s, keep) == s
  {
    if s != [] {
      KeepAll(s[1..], keep);
    }
  }

  /** Deleting a class twice is deleting it once. */
  lemma KeepIdempotent(s: string, keep: char -> bool)
    ensures Keep(Keep(s, keep), keep) == Keep(s, keep)
  {
    KeepAll(Keep(s, keep), keep);
  }

  /** `input.replace(/[^0-9]/g, '')` (registration.js:23). */
  function Digits(s: string): (d: string)
    ensures AllDigits(d)
  {
    Keep(s, IsDigit)
  }

  /** `input.replace(/\s/g, '')` (registration.js:41). */
  function StripWhitespace(s: string): (t: string)
    ensures forall i | 0 <= i < |t| :: !IsWhitespace(t[i])
  {
    Keep(s, NotWhitespace)
  }

  // ---------------------------------------------------------------------
  // formatPhoneNumber
  // ---------------------------------------------------------------------

  /** The dashes of `r` are exactly at the positions in `at`. */
  predicate DashesExactlyAt(r: string, at: set<int>) {
    && (forall i | i in at :: 0 <= i < |r|)
    && (forall i | 0 <= i < |r| :: r[i] == '-' <==> i in at)
  }

  /** Live formatting of the phone field: keep the digits, put a dash after
      the third, and once there are more than seven put a second dash after
      the seventh and drop every digit past the eleventh. */
  function FormatPhoneNumber(input: string): (r: string)
    ensures forall i | 0 <= i < |r| :: IsDigit(r[i]) || r[i] == '-'
    ensures |Digits(input)| <= 3 ==> r == Digits(input)
    ensures 3 < |Digits(input)| <= 7 ==>
              |r| == |Digits(input)| + 1 && DashesExactlyAt(r, {3})
    ensures 7 < |Digits(input)| ==>
              |r| == Min(|Digits(input)|, 11) + 2 && |r| <= 13 && DashesExactlyAt(r, {3, 8})
  {
    var value := Digits(input);
    if 3 < |value| <= 7 then
      value[..3] + "-" + value[3..]
    else if |value| > 7 then
      value[..3] + "-" + value[3..7] + "-" + value[7..Min(|value|, 11)]
    else
      value
  }

  /** A dash between two pieces disappears when the digits are taken. */
  lemma DigitsAroundDash(a: string, b: string)
    requires AllDigits(b)
    ensures Digits(a + "-" + b) == Digits(a) + b
  {
    assert Keep("-", IsDigit) == [];
    KeepConcat(a + "-", b, IsDigit);
    KeepConcat(a, "-", IsDigit);
    KeepAll(b, IsDigit);
  }

  /** The digits of the formatted text are the input's digits, in order,
      cut to the first eleven. */
  lemma FormatKeepsDigits(input: string)
    ensures var d := Digits(input);
            Digits(FormatPhoneNumber(input)) == d[..Min(|d|, 11)]
  {
    var d := Digits(input);
    var r := FormatPhoneNumber(input);
    if 3 < |d| <= 7 {
      assert r == d[..3] + "-" + d[3..];
      DigitsAroundDash(d[..3], d[3..]);
      KeepAll(d[..3], IsDigit);
      assert d[..3] + d[3..] == d;
    } else if |d| > 7 {
      var m := Min(|d|, 11);
      var head := d[..3] + "-" + d[3..7];
      assert r == head + "-" + d[7..m];
      DigitsAroundDash(head, d[7..m]);
      DigitsAroundDash(d[..3], d[3..7]);
      KeepAll(d[..3], IsDigit);
      assert Digits(head) == d[..3] + d[3..7];
      assert d[..3] + d[3..7] + d[7..m] == d[..m];
    } else {
      KeepAll(d, IsDigit);
    }
  }

  /** Formatting already formatted text changes nothing, so the live
      formatter is stable as the user types. */
  lemma FormatIdempotent(input: string)
    ensures FormatPhoneNumber(FormatPhoneNumber(input)) == FormatPhoneNumber(input)
  {
    var d := Digits(input);
    var r := FormatPhoneNumber(input);
    FormatKeepsDigits(input);
    var t := Digits(r);
    var m := Min(|d|, 11);
    assert t == d[..m];
    if |d| > 7 {
      assert |t| == m && Min(|t|, 11) == m;
      assert t[..3] == d[..3];
      assert t[3..7] == d[3..7];
      assert t[7..m] == d[7..m];
      assert FormatPhoneNumber(r) == t[..3] + "-" + t[3..7] + "-" + t[7..m];
    } else {
      assert t == d;
    }
  }

  // ---------------------------------------------------------------------
  // validatePhone: /^010-\d{3,4}-\d{4}$/
  // ---------------------------------------------------------------------

  /** `patterns.phone.test(input)`, reading the pattern left to right:
      the literal `010-`, a three- or four-digit run, `-`, four digits,
      end of input. */
  predicate ValidatePhone(s: string) {
    && (|s| == 12 || |s| == 13)
    && s[..4] == "010-"
    && AllDigits(s[4..|s| - 5])
    && s[|s| - 5] == '-'
    && AllDigits(s[|s| - 4..])
  }

  /** The accepted strings are exactly `010-` + three or four digits + `-`
      + four digits. */
  lemma ValidatePhoneExactly(s: string)
    ensures ValidatePhone(s) <==>
            exists mid: string, tail: string | AllDigits(mid) && AllDigits(tail) ::
              (|mid| == 3 || |mid| == 4) && |tail| == 4 && s == "010-" + mid + "-" + tail
  {
    if ValidatePhone(s) {
      var mid, tail := s[4..|s| - 5], s[|s| - 4..];
      assert s == "010-" + mid + "-" + tail;
    }
    if exists mid: string, tail: string | AllDigits(mid) && AllDigits(tail) ::
         (|mid| == 3 || |mid| == 4) && |tail| == 4 && s == "010-" + mid + "-" + tail {
      var mid: string, tail: string :| AllDigits(mid) && AllDigits(tail) &&
        (|mid| == 3 || |mid| == 4) && |tail| == 4 && s == "010-" + mid + "-" + tail;
      var pre := "010-" + mid;
      assert |pre| == 4 + |mid| && |s| == |pre| + 5;
      assert s[..|pre|] == pre && s[|pre|] == '-' && s[|pre| + 1..] == tail;
      assert s[..4] == pre[..4] == "010-";
      assert s[4..|s| - 5] == pre[4..] == mid;
    }
  }

  /** The formatter and the validator together: formatted text passes the
      validator exactly when the input has at least eleven digits starting
      with 010. Ten digits are laid out 3-4-3, which the validator refuses,
      so the 3-digit middle group it allows can never come out of the
      formatter. */
  lemma FormatThenValidate(input: string)
    ensures var d := Digits(input);
            ValidatePhone(FormatPhoneNumber(input)) <==> |d| >= 11 && d[..3] == "010"
  {
    var d := Digits(input);
    var r := FormatPhoneNumber(input);
    if |d| > 7 {
      var m := Min(|d|, 11);
      assert r[..3] == d[..3];
      assert r[4..8] == d[3..7];
      assert r[9..] == d[7..m];
      if |d| >= 11 && d[..3] == "010" {
        assert r[..4] == "010-";
      }
      if ValidatePhone(r) {
        assert r[|r| - 5] == '-';
        assert d[..3] == r[..4][..3];
      }
    }
  }

  /** A ten-digit input comes out as a 3-4-3 string that the validator
      refuses. */
  lemma TenDigitsRejected(input: string)
    requires |Digits(input)| == 10
    ensures var r := FormatPhoneNumber(input);
            |r| == 12 && DashesExactlyAt(r, {3, 8}) && !ValidatePhone(r)
  {
    FormatThenValidate(input);
  }

  /** An eleven-digit input starting with 010 comes out as text the
      validator accepts. */
  lemma ElevenDigitsAccepted(input: string)
    requires |Digits(input)| == 11 && Digits(input)[..3] == "010"
    ensures ValidatePhone(FormatPhoneNumber(input))
  {
    FormatThenValidate(input);
  }

  // ---------------------------------------------------------------------
  // validateVehicle: strip whitespace, then /^\d{3}[가-힣]\d{4}$/
  // ---------------------------------------------------------------------

  /** `patterns.vehicle.test(t)`: three digits, one Hangul syllable, four
      digits, nothing else. */
  predicate MatchesVehiclePattern(t: string) {
    && |t| == 8
    && AllDigits(t[..3])
    && IsHangulSyllable(t[3])
    && AllDigits(t[4..])
  }

  predicate ValidateVehicle(input: string) {
    MatchesVehiclePattern(StripWhitespace(input))
  }

  /** Whitespace anywhere in the input does not affect the verdict. */
  lemma ValidateVehicleIgnoresWhitespace(input: string)
    ensures ValidateVehicle(StripWhitespace(input)) == ValidateVehicle(input)
  {
    KeepIdempotent(input, NotWhitespace);
  }

  /** Inserting a run of whitespace at any point leaves the verdict as it was. */
  lemma ValidateVehicleInsertWhitespace(a: string, gap: string, b: string)
    requires forall i | 0 <= i < |gap| :: IsWhitespace(gap[i])
    ensures ValidateVehicle(a + gap + b) == ValidateVehicle(a + b)
  {
    KeepConcat(a + gap, b, NotWhitespace);
    KeepConcat(a, gap, NotWhitespace);
    KeepConcat(a, b, NotWhitespace);
    KeepNone(gap, NotWhitespace);
    assert Keep(a + gap, NotWhitespace) == Keep(a, NotWhitespace);
    assert StripWhitespace(a + gap + b) == StripWhitespace(a + b);
  }

  /** Deleting a class from a string made only of it leaves nothing. */
  lemma {:induction false} KeepNone(s: string, keep: char -> bool)
    requires forall i | 0 <= i < |s| :: !keep(s[i])
    ensures Keep(s, keep) == []
  {
    if s != [] {
      KeepNone(s[1..], keep);
    }
  }

  /** After whitespace is removed, the accepted strings are exactly three
      digits, one syllable in U+AC00..U+D7A3, then four digits. */
  lemma ValidateVehicleExactly(input: string)
    ensures ValidateVehicle(input) <==>
            exists lead: string, h: char, tail: string
              | AllDigits(lead) && IsHangulSyllable(h) && AllDigits(tail) ::
              |lead| == 3 && |tail| == 4 && StripWhitespace(input) == lead + [h] + tail
  {
    var t := StripWhitespace(input);
    if ValidateVehicle(input) {
      assert t == t[..3] + [t[3]] + t[4..];
    }
    if exists lead: string, h: char, tail: string
         | AllDigits(lead) && IsHangulSyllable(h) && AllDigits(tail) ::
         |lead| == 3 && |tail| == 4 && t == lead + [h] + tail {
      var lead: string, h: char, tail: string :| AllDigits(lead) && IsHangulSyllable(h) &&
        AllDigits(tail) && |lead| == 3 && |tail| == 4 && t == lead + [h] + tail;
      assert t[..3] == lead;
      assert t[4..] == tail;
    }
  }

  /** The example in the pattern's comment, `123가1234`, passes. */
  lemma VehicleExampleAccepted()
    ensures ValidateVehicle("123\U{AC00}1234")
  {
    NoWhitespaceUnchanged("123\U{AC00}1234");
  }

  /** A space between the groups does not matter. */
  lemma VehicleExampleSpaced()
    ensures ValidateVehicle("123 \U{AC00}1234")
  {
    assert "123 \U{AC00}1234" == "123" + " " + "\U{AC00}1234";
    ValidateVehicleInsertWhitespace("123", " ", "\U{AC00}1234");
    assert "123" + "\U{AC00}1234" == "123\U{AC00}1234";
    VehicleExampleAccepted();
  }

  /** Two or four leading digits, or a Latin letter in place of the
      syllable, fail. */
  lemma VehicleExamplesRejected()
    ensures !ValidateVehicle("12\U{AC00}1234")
    ensures !ValidateVehicle("1234\U{AC00}1234")
    ensures !ValidateVehicle("123A1234")
  {
    NoWhitespaceUnchanged("12\U{AC00}1234");
    NoWhitespaceUnchanged("1234\U{AC00}1234");
    NoWhitespaceUnchanged("123A1234");
  }

  lemma NoWhitespaceUnchanged(s: string)
    requires forall i | 0 <= i < |s| :: !IsWhitespace(s[i])
    ensures StripWhitespace(s) == s
  {
    KeepAll(s, NotWhitespace);
  }

  // ---------------------------------------------------------------------
  // The vehicle register button (registration.js:100-107)
  // ---------------------------------------------------------------------

  function TrimStart(s: string): (t: string)
    ensures |t| <= |s| && t == s[|s| - |t|..]
    ensures t == [] || !IsWhitespace(t[0])
    ensures forall k | 0 <= k < |s| - |t| :: IsWhitespace(s[k])
  {
    if s != [] && IsWhitespace(s[0]) then TrimStart(s[1..]) else s
  }

  function TrimEnd(s: string): (t: string)
    ensures |t| <= |s| && t == s[..|t|]
    ensures t == [] || !IsWhitespace(t[|t| - 1])
    ensures forall k | |t| <= k < |s| :: IsWhitespace(s[k])
  {
    if s != [] && IsWhitespace(s[|s| - 1]) then TrimEnd(s[..|s| - 1]) else s
  }

  /** `t` occurs in `s` starting at index `i`, and everything of `s`
      before and after that occurrence is whitespace. */
  predicate TrimmedAt(t: string, s: string, i: int)
  {
    && 0 <= i <= |s| - |t| && s[i..i + |t|] == t
    && (forall k | 0 <= k < i :: IsWhitespace(s[k]))
    && (forall k | i + |t| <= k < |s| :: IsWhitespace(s[k]))
  }

  /** `String.prototype.trim`: only whitespace before and after the
      returned piece of `s` is removed. */
  function Trim(s: string): (t: string)
    ensures t == [] || (!IsWhitespace(t[0]) && !IsWhitespace(t[|t| - 1]))
    ensures exists i :: TrimmedAt(t, s, i)
  {
    var u := TrimStart(s);
    var t := TrimEnd(u);
    TrimEndsAreWhitespace(s, u, t);
    t
  }

  /** The pieces `TrimStart` and then `TrimEnd` cut off are whitespace. */
  lemma TrimEndsAreWhitespace(s: string, u: string, t: string)
    requires |u| <= |s| && u == s[|s| - |u|..]
    requires forall k | 0 <= k < |s| - |u| :: IsWhitespace(s[k])
    requires |t| <= |u| && t == u[..|t|]
    requires forall k | |t| <= k < |u| :: IsWhitespace(u[k])
    ensures TrimmedAt(t, s, |s| - |u|)
  {
    var i := |s| - |u|;
    assert s[i..i + |t|] == t;
    forall k | i + |t| <= k < |s|
      ensures IsWhitespace(s[k])
    {
      assert s[k] == u[k - i];
    }
  }

  lemma {:induction false} StripTrimStart(s: string)
    ensures StripWhitespace(TrimStart(s)) == StripWhitespace(s)
  {
    if s != [] && IsWhitespace(s[0]) {
      StripTrimStart(s[1..]);
      assert s == [s[0]] + s[1..];
      KeepConcat([s[0]], s[1..], NotWhitespace);
    }
  }

  lemma {:induction false} StripTrimEnd(s: string)
    ensures StripWhitespace(TrimEnd(s)) == StripWhitespace(s)
  {
    if s != [] && IsWhitespace(s[|s| - 1]) {
      var init := s[..|s| - 1];
      StripTrimEnd(init);
      assert s == init + [s[|s| - 1]];
      KeepConcat(init, [s[|s| - 1]], NotWhitespace);
    }
  }

  /** Trimming before the strip is absorbed by the strip. */
  lemma StripAfterTrim(s: string)
    ensures StripWhitespace(Trim(s)) == StripWhitespace(s)
  {
    StripTrimEnd(TrimStart(s));
    StripTrimStart(s);
  }

  /** What a click on the vehicle register button submits as
      `{ vehicleNumber: val }`: the input trimmed and stripped of all
      whitespace, or None when the format alert stops the submission. */
  function VehicleSubmission(input: string): (r: Option<string>)
    ensures r.Some? <==> ValidateVehicle(input)
    ensures r.Some? ==> MatchesVehiclePattern(r.value)
    ensures r.Some? ==> r.value == StripWhitespace(input)
  {
    var val := StripWhitespace(Trim(input));
    StripAfterTrim(input);
    KeepIdempotent(input, NotWhitespace);
    if ValidateVehicle(val) then Some(val) else None
  }
}
