/**
 Scanning into an integer destination: straight assignment when source and destination are of the
 same kind, and otherwise by way of the decimal text.
 */
module IntScan {
  import opened Wrappers
  import opened Decimal

  /** The kinds of integers; Int and Uint are as wide as the machine's words, of 64 bits. */
  datatype Kind = Int | Int8 | Int16 | Int32 | Int64 | Uint | Uint8 | Uint16 | Uint32 | Uint64

  predicate Signed(k: Kind) {
    k.Int? || k.Int8? || k.Int16? || k.Int32? || k.Int64?
  }

  /** 2 to the number of bits. */
  function Modulus(k: Kind): (m: nat)
    ensures m > 0 && m % 2 == 0
  {
    match k
    case Int8 => 0x100
    case Uint8 => 0x100
    case Int16 => 0x1_0000
    case Uint16 => 0x1_0000
    case Int32 => 0x1_0000_0000
    case Uint32 => 0x1_0000_0000
    case _ => 0x1_0000_0000_0000_0000
  }

  /** The values a kind holds. */
  predicate Fits(k: Kind, v: int) {
    if Signed(k) then -(Modulus(k) / 2) <= v < Modulus(k) / 2 else 0 <= v < Modulus(k)
  }

  /** The kinds in figures; Int and Uint are those of a machine of 64 bits. */
  lemma KindRanges(v: int)
    ensures Fits(Int8, v) <==> -128 <= v <= 127
    ensures Fits(Int16, v) <==> -32_768 <= v <= 32_767
    ensures Fits(Int32, v) <==> -2_147_483_648 <= v <= 2_147_483_647
    ensures Fits(Int64, v) <==> -9_223_372_036_854_775_808 <= v <= 9_223_372_036_854_775_807
    ensures Fits(Int, v) <==> Fits(Int64, v)
    ensures Fits(Uint8, v) <==> 0 <= v <= 255
    ensures Fits(Uint16, v) <==> 0 <= v <= 65_535
    ensures Fits(Uint32, v) <==> 0 <= v <= 4_294_967_295
    ensures Fits(Uint64, v) <==> 0 <= v <= 18_446_744_073_709_551_615
    ensures Fits(Uint, v) <==> Fits(Uint64, v)
  {
  }

  datatype Src = NullSrc | IntSrc(kind: Kind, v: int) | TextSrc(s: string)

  datatype ScanError = Unsupported | Syntax | OutOfRange

  // --- text ------------------------------------------------------------------------------

  /** asString of an integer. */
  function FormatInt(v: int): string {
    if v < 0 then "-" + FormatNat(-v) else FormatNat(v)
  }

  /** Reading digits from the left: the first character that is no digit or no longer fits decides. */
  function ParseFrom(s: string, acc: nat, max: nat): Result<nat, ScanError> {
    if s == "" then Ok(acc)
    else if !IsDigit(s[0]) then Fail(Syntax)
    else
      var n := acc * 10 + DigitVal(s[0]);
      if n > max then Fail(OutOfRange) else ParseFrom(s[1..], n, max)
  }

  function ParseUint(s: string, k: Kind): Result<int, ScanError> {
    if s == "" then Fail(Syntax)
    else match ParseFrom(s, 0, Modulus(k) - 1)
      case Ok(n) => Ok(n)
      case Fail(e) => Fail(e)
  }

  predicate HasSign(s: string) {
    s != "" && (s[0] == '+' || s[0] == '-')
  }

  /** A sign, then digits, whose number is compared with half the modulus. */
  function ParseInt(s: string, k: Kind): Result<int, ScanError> {
    var neg := HasSign(s) && s[0] == '-';
    match ParseUint(if HasSign(s) then s[1..] else s, k)
    case Fail(e) => Fail(e)
    case Ok(un) =>
      if !neg && un >= Modulus(k) / 2 then Fail(OutOfRange)
      else if neg && un > Modulus(k) / 2 then Fail(OutOfRange)
      else Ok(if neg then -un else un)
  }

  function Parse(s: string, k: Kind): Result<int, ScanError> {
    if Signed(k) then ParseInt(s, k) else ParseUint(s, k)
  }

  /** asString */
  function AsString(src: Src): string
    requires !src.NullSrc?
  {
    match src
    case IntSrc(_, v) => FormatInt(v)
    case TextSrc(s) => s
  }

  /** convertAssignRows for an integer destination of kind k. */
  function Scan(src: Src, k: Kind): Result<int, ScanError> {
    if src.IntSrc? && src.kind == k then Ok(src.v)
    else if src.NullSrc? then Fail(Unsupported)
    else Parse(AsString(src), k)
  }

  // --- what text means -------------------------------------------------------------------

  /** The number a text stands for, if it is digits with an optional sign, where one is allowed. */
  function Meaning(s: string, sign: bool): Option<int> {
    var signed := sign && s != "" && s[0] in {'+', '-'};
    var digits := if signed then s[1..] else s;
    if digits == "" || !AllDigits(digits) then None
    else
      var n: int := Value(digits);
      Some(if signed && s[0] == '-' then -n else n)
  }

  /** Appending digits only makes the number larger. */
  lemma {:induction false} ValueAppend(a: string, b: string)
    requires AllDigits(a) && AllDigits(b)
    ensures AllDigits(a + b) && Value(a + b) >= Value(a)
  {
    if b == "" {
      assert a + b == a;
    } else {
      var c := b[..|b| - 1];
      ValueAppend(a, c);
      assert (a + b)[..|a + b| - 1] == a + c;
    }
  }

  /** The scan from the left agrees with the number as a whole. */
  lemma {:induction false} ParseFromValue(done: string, s: string, max: nat)
    requires AllDigits(done) && Value(done) <= max
    ensures ParseFrom(s, Value(done), max).Ok? <==> AllDigits(s) && Value(done + s) <= max
    ensures ParseFrom(s, Value(done), max).Ok? ==> ParseFrom(s, Value(done), max).value == Value(done + s)
    ensures AllDigits(s) && ParseFrom(s, Value(done), max).Fail? ==> ParseFrom(s, Value(done), max).error == OutOfRange
    decreases |s|
  {
    if s == "" {
      assert done + s == done;
    } else if IsDigit(s[0]) {
      var one := done + [s[0]];
      assert one[..|one| - 1] == done;
      assert one + s[1..] == done + s;
      assert AllDigits(s) <==> AllDigits(s[1..]);
      if Value(one) > max {
        if AllDigits(s) {
          ValueAppend(one, s[1..]);
        }
      } else {
        ParseFromValue(one, s[1..], max);
      }
    }
  }

  lemma ParseUintIff(s: string, k: Kind)
    ensures ParseUint(s, k).Ok? <==> Meaning(s, false).Some? && Meaning(s, false).value < Modulus(k)
    ensures ParseUint(s, k).Ok? ==> ParseUint(s, k).value == Meaning(s, false).value
    ensures Meaning(s, false).Some? && ParseUint(s, k).Fail? ==> ParseUint(s, k).error == OutOfRange
  {
    ParseFromValue("", s, Modulus(k) - 1);
    assert "" + s == s;
  }

  /**
   Text into any kind: the scan succeeds exactly if the text is a decimal number (with a sign only
   for a signed kind) that fits, and then stores that number.
   */
  lemma ParseIff(s: string, k: Kind)
    ensures var m := Meaning(s, Signed(k));
      && (Parse(s, k).Ok? <==> m.Some? && Fits(k, m.value))
      && (Parse(s, k).Ok? ==> Parse(s, k).value == m.value)
      && (m.Some? && Parse(s, k).Fail? ==> Parse(s, k).error == OutOfRange)
  {
    hide ParseUint, AllDigits, Value;
    ParseUintIff(s, k);
    if HasSign(s) {
      ParseUintIff(s[1..], k);
    }
  }

  /** The digits a text begins with, behind its sign where one is allowed. */
  function LeadingDigits(s: string, sign: bool): (r: string)
    ensures AllDigits(r)
  {
    TakeDigits(if sign && s != "" && s[0] in {'+', '-'} then s[1..] else s)
  }

  lemma ParseUintSyntax(s: string, k: Kind)
    ensures ParseUint(s, k) == Fail(Syntax) <==>
              (s == "" || !AllDigits(s)) && Value(TakeDigits(s)) < Modulus(k)
  {
    if s != "" {
      ParseFromSyntax("", s, Modulus(k) - 1);
      assert "" + TakeDigits(s) == TakeDigits(s);
    }
  }

  lemma TakesDigit(done: string, s: string)
    requires s != "" && IsDigit(s[0])
    ensures done + TakeDigits(s) == (done + [s[0]]) + TakeDigits(s[1..])
    ensures AllDigits(s) <==> AllDigits(s[1..])
  {
    assert TakeDigits(s) == [s[0]] + TakeDigits(s[1..]);
    assert forall i :: 0 < i < |s| ==> s[i] == s[1..][i - 1];
  }

  lemma OneMoreDigit(done: string, c: char)
    requires AllDigits(done) && IsDigit(c)
    ensures AllDigits(done + [c]) && Value(done + [c]) == Value(done) * 10 + DigitVal(c)
  {
    assert (done + [c])[..|done|] == done;
  }

  lemma {:induction false} ParseFromSyntax(done: string, s: string, max: nat)
    requires AllDigits(done) && Value(done) <= max
    ensures AllDigits(done + TakeDigits(s))
    ensures ParseFrom(s, Value(done), max) == Fail(Syntax) <==>
              !AllDigits(s) && Value(done + TakeDigits(s)) <= max
    decreases |s|
  {
    hide TakeDigits, Value;
    if s == "" || !IsDigit(s[0]) {
      assert done + TakeDigits(s) == done;
    } else {
      hide AllDigits;
      var one := done + [s[0]];
      OneMoreDigit(done, s[0]);
      TakesDigit(done, s);
      if Value(one) > max {
        ValueAppend(one, TakeDigits(s[1..]));
      } else {
        ParseFromSyntax(one, s[1..], max);
      }
    }
  }

  /**
   Which error: text that is no number is a syntax error, unless the digits it begins with are
   already too many for the kind's unsigned range.
   */
  lemma SyntaxIff(s: string, k: Kind)
    ensures Parse(s, k) == Fail(Syntax) <==>
              Meaning(s, Signed(k)) == None && Value(LeadingDigits(s, Signed(k))) < Modulus(k)
  {
    hide ParseUint, Value, AllDigits;
    ParseUintSyntax(s, k);
    if HasSign(s) {
      ParseUintSyntax(s[1..], k);
    }
  }

  /** Printing gives a text that means the number, if signs are allowed or not needed. */
  lemma FormatMeans(v: int, sign: bool)
    ensures sign || v >= 0 ==> Meaning(FormatInt(v), sign) == Some(v)
    ensures v < 0 ==> FormatInt(v)[0] == '-'
  {
    if v < 0 {
      ValueOfFormat(-v);
      assert FormatInt(v)[1..] == FormatNat(-v);
    } else {
      ValueOfFormat(v);
      assert IsDigit(FormatNat(v)[0]);
    }
  }

  /**
   Any integer into any integer kind: the scan succeeds exactly if the value fits and then stores
   that value; a negative value into an unsigned kind is a syntax error, anything else out of range.
   */
  lemma ScanIntIff(kind: Kind, v: int, k: Kind)
    requires Fits(kind, v)
    ensures var r := Scan(IntSrc(kind, v), k);
      && (Fits(k, v) ==> r == Ok(v))
      && (!Fits(k, v) ==> r == Fail(if v < 0 && !Signed(k) then Syntax else OutOfRange))
  {
    FormatMeans(v, Signed(k));
    ParseIff(FormatInt(v), k);
  }

  /** The decimal path agrees with straight assignment wherever both could be taken. */
  lemma PathsAgree(kind: Kind, v: int)
    requires Fits(kind, v)
    ensures Parse(AsString(IntSrc(kind, v)), kind) == Scan(IntSrc(kind, v), kind)
  {
    FormatMeans(v, Signed(kind));
    ParseIff(FormatInt(v), kind);
  }

  /** Through a text column and back: every value of a kind survives. */
  lemma TextRoundTrip(kind: Kind, v: int)
    requires Fits(kind, v)
    ensures Scan(TextSrc(AsString(IntSrc(kind, v))), kind) == Ok(v)
  {
    PathsAgree(kind, v);
  }

  /** A destination that a pointer leads to. */
  class Cell {
    const kind: Kind
    var value: int

    constructor (kind: Kind)
      ensures this.kind == kind && value == 0
    {
      this.kind := kind;
      value := 0;
    }

    ghost predicate Valid()
      reads this
    {
      Fits(kind, value)
    }
  }

  predicate SrcOk(src: Src) {
    src.IntSrc? ==> Fits(src.kind, src.v)
  }

  /** Writes through the pointer on success only, and never a value that does not fit. */
  method ConvertAssign(dest: Cell, src: Src) returns (err: Option<ScanError>)
    requires dest.Valid() && SrcOk(src)
    modifies dest
    ensures dest.Valid()
    ensures match Scan(src, dest.kind)
            case Ok(v) => err == None && dest.value == v
            case Fail(e) => err == Some(e) && dest.value == old(dest.value)
    ensures err.Some? ==> dest.value == old(dest.value)
    ensures match src
            case NullSrc => err == Some(Unsupported)
            case IntSrc(_, v) => (err == None <==> Fits(dest.kind, v)) && (err == None ==> dest.value == v)
            case TextSrc(s) =>
              var m := Meaning(s, Signed(dest.kind));
              (err == None <==> m.Some? && Fits(dest.kind, m.value)) && (err == None ==> Some(dest.value) == m)
  {
    if src.IntSrc? {
      ScanIntIff(src.kind, src.v, dest.kind);
    }
    if src.IntSrc? && src.kind == dest.kind {
      dest.value := src.v;
      return None;
    }
    if src.NullSrc? {
      return Some(Unsupported);
    }
    var s := AsString(src);
    ParseIff(s, dest.kind);
    if Signed(dest.kind) {
      var i64 := ParseInt(s, dest.kind);
      if i64.Fail? {
        return Some(i64.error);
      }
      dest.value := i64.value;
    } else {
      var u64 := ParseUint(s, dest.kind);
      if u64.Fail? {
        return Some(u64.error);
      }
      dest.value := u64.value;
    }
    err := None;
  }
}
