/**
 * `parse_callback_data`: split the callback string on ':' and, when there are
 * exactly two parts, read the second one as an `i64` feed id.
 *
 * `str::split(':')` and `i64::from_str` belong to Rust's standard library; they
 * are modelled here as `Split` and `ParseI64`, each with a reference definition
 * (`Join`, `Magnitude`) that the lemmas connect it to.
 */
module CallbackData {
  import opened Types

  /** Number of ':' characters in `s`. */
  function ColonCount(s: string): nat
  {
    if s == [] then 0 else (if s[0] == ':' then 1 else 0) + ColonCount(s[1..])
  }

  /** Rust's `s.split(':')`, collected: the pieces between the separators, empty ones included. */
  function Split(s: string): (parts: seq<string>)
    ensures |parts| == ColonCount(s) + 1
    ensures forall i :: 0 <= i < |parts| ==> ':' !in parts[i]
  {
    if s == [] then [""]
    else
      var rest := Split(s[1..]);
      if s[0] == ':' then [""] + rest
      else [[s[0]] + rest[0]] + rest[1..]
  }

  /** The pieces glued back together with ':' between them. */
  function Join(parts: seq<string>): string
    requires |parts| >= 1
  {
    if |parts| == 1 then parts[0] else parts[0] + ":" + Join(parts[1..])
  }

  /** Splitting loses nothing: the pieces glue back into the original string. */
  lemma {:induction false} JoinSplit(s: string)
    ensures Join(Split(s)) == s
  {
    if s != [] {
      var rest := Split(s[1..]);
      JoinSplit(s[1..]);
      if s[0] == ':' {
        assert Split(s) == [""] + rest;
        assert ([""] + rest)[1..] == rest;
      } else {
        var parts := [[s[0]] + rest[0]] + rest[1..];
        assert Split(s) == parts;
        if |rest| == 1 {
          assert Join(parts) == [s[0]] + rest[0] == [s[0]] + Join(rest);
        } else {
          assert parts[1..] == rest[1..];
          assert Join(rest) == rest[0] + ":" + Join(rest[1..]);
        }
        assert s == [s[0]] + s[1..];
      }
    }
  }

  /** A piece without ':' followed by ':' starts a new piece. */
  lemma {:induction false} SplitPrefix(p: string, t: string)
    requires ':' !in p
    ensures Split(p + ":" + t) == [p] + Split(t)
  {
    if p == [] {
      assert p + ":" + t == [':'] + t;
      assert ([':'] + t)[1..] == t;
    } else {
      var s := p + ":" + t;
      assert s[0] == p[0] && s[1..] == p[1..] + ":" + t;
      SplitPrefix(p[1..], t);
      assert [p[0]] + p[1..] == p;
    }
  }

  /** A string without ':' is a single piece. */
  lemma {:induction false} SplitNoColon(s: string)
    requires ':' !in s
    ensures Split(s) == [s]
  {
    if s != [] {
      SplitNoColon(s[1..]);
      assert [s[0]] + s[1..] == s;
    }
  }

  /** Splitting undoes joining pieces that contain no ':'. */
  lemma {:induction false} SplitJoin(parts: seq<string>)
    requires |parts| >= 1
    requires forall i :: 0 <= i < |parts| ==> ':' !in parts[i]
    ensures Split(Join(parts)) == parts
  {
    if |parts| == 1 {
      SplitNoColon(parts[0]);
    } else {
      SplitJoin(parts[1..]);
      SplitPrefix(parts[0], Join(parts[1..]));
      assert [parts[0]] + parts[1..] == parts;
    }
  }

  // ---------------------------------------------------------------------------
  // i64::from_str
  // ---------------------------------------------------------------------------

  /** Rust's `IntErrorKind` values that `i64::from_str` can produce. */
  datatype IntErrorKind = Empty | InvalidDigit | PosOverflow | NegOverflow

  predicate IsDigit(c: char) { '0' <= c <= '9' }

  function DigitValue(c: char): nat
    requires IsDigit(c)
  {
    (c as int - '0' as int) as nat
  }

  predicate AllDigits(s: string)
  {
    forall i :: 0 <= i < |s| ==> IsDigit(s[i])
  }

  /** Largest magnitude an `i64` of the given sign can hold. */
  function Limit(negative: bool): nat
  {
    if negative then 0x8000_0000_0000_0000 else 0x7FFF_FFFF_FFFF_FFFF
  }

  /** `acc` followed by the decimal digits `ds`, read most significant first. */
  function Horner(acc: nat, ds: string): nat
    requires AllDigits(ds)
    decreases |ds|
  {
    if ds == [] then acc else Horner(acc * 10 + DigitValue(ds[0]), ds[1..])
  }

  /** The number a non-empty string of decimal digits denotes. */
  function Magnitude(ds: string): nat
    requires AllDigits(ds)
  {
    Horner(0, ds)
  }

  /**
   * The digit loop of `from_str_radix`: digits are consumed left to right,
   * so the first problem met decides the error (a non-digit, or the running
   * value leaving the `i64` range).
   */
  function Accumulate(ds: string, acc: nat, negative: bool): (r: Result<nat, IntErrorKind>)
    requires acc <= Limit(negative)
    ensures r.Ok? ==> acc <= r.value <= Limit(negative)
    ensures r.Err? ==> r.error == InvalidDigit || r.error == (if negative then NegOverflow else PosOverflow)
  {
    if ds == [] then Ok(acc)
    else if !IsDigit(ds[0]) then Err(InvalidDigit)
    else
      var next := acc * 10 + DigitValue(ds[0]);
      if next > Limit(negative) then Err(if negative then NegOverflow else PosOverflow)
      else Accumulate(ds[1..], next, negative)
  }

  /** True when `s` starts with a sign character. */
  predicate Signed(s: string) { |s| > 0 && (s[0] == '+' || s[0] == '-') }

  /** The digits of `s` once an optional leading sign is dropped. */
  function Body(s: string): string
  {
    if Signed(s) then s[1..] else s
  }

  /** Rust's `s.parse::<i64>()`. */
  function ParseI64(s: string): (r: Result<I64, IntErrorKind>)
    ensures r == Err(Empty) <==> s == []
  {
    if s == [] then Err(Empty)
    else if Signed(s) && |s| == 1 then Err(InvalidDigit)
    else
      var negative := s[0] == '-';
      match Accumulate(Body(s), 0, negative)
      case Ok(m) => Ok(if negative then -(m as int) else m)
      case Err(k) => Err(k)
  }

  /** Why `parse_callback_data` failed. */
  datatype CallbackError =
    | InvalidFormat                      // "Invalid callback data format"
    | InvalidNumber(kind: IntErrorKind)  // the `?` on `parts[1].parse::<i64>()`

  /** `parse_callback_data`: the feed id after the only ':' of the callback data. */
  function ParseCallbackData(data: string): (r: Result<I64, CallbackError>)
    ensures r == Err(InvalidFormat) <==> ColonCount(data) != 1
  {
    var parts := Split(data);
    if |parts| == 2 then
      match ParseI64(parts[1])
      case Ok(id) => Ok(id)
      case Err(kind) => Err(InvalidNumber(kind))
    else Err(InvalidFormat)
  }

  // ---------------------------------------------------------------------------
  // What ParseI64 accepts, stated on the whole string
  // ---------------------------------------------------------------------------

  lemma {:induction false} HornerGrows(acc: nat, ds: string)
    requires AllDigits(ds)
    ensures Horner(acc, ds) >= acc
    decreases |ds|
  {
    if ds != [] {
      HornerGrows(acc * 10 + DigitValue(ds[0]), ds[1..]);
    }
  }

  /** On digits, the checked loop agrees with the unbounded value and a final range check. */
  lemma {:induction false} AccumulateDigits(ds: string, acc: nat, negative: bool)
    requires acc <= Limit(negative)
    requires AllDigits(ds)
    ensures Accumulate(ds, acc, negative) ==
      if Horner(acc, ds) <= Limit(negative) then Ok(Horner(acc, ds))
      else Err(if negative then NegOverflow else PosOverflow)
  {
    if ds != [] {
      var next := acc * 10 + DigitValue(ds[0]);
      if next > Limit(negative) {
        HornerGrows(next, ds[1..]);
      } else {
        AccumulateDigits(ds[1..], next, negative);
      }
    }
  }

  /** A non-digit anywhere makes the loop fail. */
  lemma {:induction false} AccumulateNonDigit(ds: string, acc: nat, negative: bool)
    requires acc <= Limit(negative)
    requires !AllDigits(ds)
    ensures Accumulate(ds, acc, negative).Err?
  {
    if IsDigit(ds[0]) {
      var next := acc * 10 + DigitValue(ds[0]);
      if next <= Limit(negative) {
        assert !AllDigits(ds[1..]) by {
          var i :| 0 <= i < |ds| && !IsDigit(ds[i]);
          assert i > 0 && ds[1..][i - 1] == ds[i];
        }
        AccumulateNonDigit(ds[1..], next, negative);
      }
    }
  }

  /** The text `i64::from_str` accepts: an optional sign, then at least one digit. */
  predicate WellFormedI64(s: string)
  {
    |Body(s)| > 0 && AllDigits(Body(s))
  }

  /** The signed value of a well-formed numeral. */
  function SignedValue(s: string): int
    requires WellFormedI64(s)
  {
    if s[0] == '-' then -(Magnitude(Body(s)) as int) else Magnitude(Body(s))
  }

  /**
   * `ParseI64` succeeds exactly on well-formed numerals whose value fits in an
   * `i64`, and then yields that value; everything else (empty text, a lone sign,
   * a non-digit, an out-of-range value) is an error.
   */
  lemma ParseI64Iff(s: string)
    ensures ParseI64(s).Ok? <==> WellFormedI64(s) && I64_MIN <= SignedValue(s) <= I64_MAX
    ensures ParseI64(s).Ok? ==> ParseI64(s).value == SignedValue(s)
  {
    if s != [] && !(Signed(s) && |s| == 1) {
      var negative := s[0] == '-';
      if AllDigits(Body(s)) {
        AccumulateDigits(Body(s), 0, negative);
      } else {
        AccumulateNonDigit(Body(s), 0, negative);
      }
    }
  }

  // ---------------------------------------------------------------------------
  // Decimal rendering of an i64 (Rust's `Display`), used for the round trip
  // ---------------------------------------------------------------------------

  function DigitChar(d: nat): (c: char)
    requires d < 10
    ensures IsDigit(c) && DigitValue(c) == d
  {
    ('0' as int + d) as char
  }

  /** The decimal digits of `n`, without leading zeros. */
  function NatDigits(n: nat): (ds: string)
    ensures |ds| > 0 && AllDigits(ds)
  {
    if n < 10 then [DigitChar(n)] else NatDigits(n / 10) + [DigitChar(n % 10)]
  }

  /** `n.to_string()` for an `i64`: a '-' for negatives, then the digits of the magnitude. */
  function Decimal(n: I64): (s: string)
    ensures ':' !in s
  {
    if n < 0 then "-" + NatDigits(-(n as int)) else NatDigits(n)
  }

  lemma {:induction false} HornerSnoc(acc: nat, ds: string, c: char)
    requires AllDigits(ds) && IsDigit(c)
    ensures AllDigits(ds + [c])
    ensures Horner(acc, ds + [c]) == Horner(acc, ds) * 10 + DigitValue(c)
    decreases |ds|
  {
    if ds != [] {
      assert (ds + [c])[1..] == ds[1..] + [c];
      HornerSnoc(acc * 10 + DigitValue(ds[0]), ds[1..], c);
    }
  }

  /** Reading back the digits of `n` gives `n`. */
  lemma {:induction false} MagnitudeNatDigits(n: nat)
    ensures Magnitude(NatDigits(n)) == n
  {
    if n >= 10 {
      var c := DigitChar(n % 10);
      MagnitudeNatDigits(n / 10);
      HornerSnoc(0, NatDigits(n / 10), c);
      assert NatDigits(n) == NatDigits(n / 10) + [c];
      assert Magnitude(NatDigits(n)) == (n / 10) * 10 + n % 10;
    } else {
      assert NatDigits(n) == [DigitChar(n)];
      assert Horner(0, [DigitChar(n)]) == Horner(n, []);
    }
  }

  /** `ParseI64` inverts `Decimal` on the whole `i64` range. */
  lemma ParseDecimal(n: I64)
    ensures ParseI64(Decimal(n)) == Ok(n)
  {
    var s := Decimal(n);
    var m: nat := if n < 0 then -(n as int) else n;
    var ds := NatDigits(m);
    MagnitudeNatDigits(m);
    if n < 0 {
      assert s[0] == '-' && Body(s) == ds;
    } else {
      assert !Signed(s) && Body(s) == ds;
    }
    ParseI64Iff(s);
  }

  // ---------------------------------------------------------------------------
  // Properties of parse_callback_data
  // ---------------------------------------------------------------------------

  /**
   * With exactly one ':', the result is the `i64` parse of the text after it
   * (an invalid number is an error, never a value); the text before it is ignored.
   */
  lemma {:induction false} ParseAfterColon(prefix: string, idText: string)
    requires ':' !in prefix && ':' !in idText
    ensures ParseCallbackData(prefix + ":" + idText) ==
      match ParseI64(idText)
      case Ok(id) => Ok(id)
      case Err(kind) => Err(InvalidNumber(kind))
  {
    SplitPrefix(prefix, idText);
    SplitNoColon(idText);
  }

  /** Two prefixes without ':' give the same result for the same id text. */
  lemma PrefixIrrelevant(p: string, q: string, idText: string)
    requires ':' !in p && ':' !in q && ':' !in idText
    ensures ParseCallbackData(p + ":" + idText) == ParseCallbackData(q + ":" + idText)
  {
    ParseAfterColon(p, idText);
    ParseAfterColon(q, idText);
  }

  /** Round trip: a colon-free prefix, ':' and the decimal feed id parse back to that id. */
  lemma RoundTrip(prefix: string, id: I64)
    requires ':' !in prefix
    ensures ParseCallbackData(prefix + ":" + Decimal(id)) == Ok(id)
  {
    ParseAfterColon(prefix, Decimal(id));
    ParseDecimal(id);
  }

  /** Every success: one ':' and a well-formed in-range numeral after it, whose value is returned. */
  lemma ParseCallbackDataOk(data: string)
    requires ParseCallbackData(data).Ok?
    ensures ColonCount(data) == 1
    ensures WellFormedI64(Split(data)[1])
    ensures ParseCallbackData(data).value == SignedValue(Split(data)[1])
  {
    ParseI64Iff(Split(data)[1]);
  }
}
