/** parseOrder: an order line is read by five successive extractions from a
    string stream, `orderId symbol side price quantity`. Each extraction skips
    whitespace and reads one field; once one fails, the stream is bad and the
    extractions after it read nothing. */
module Parsing {
  import opened Orders

  datatype Option<T> = None | Some(value: T)

  function ValueOr<T>(x: Option<T>, unset: T): T
  {
    if x.Some? then x.value else unset
  }

  /** Whitespace as std::isspace sees it in the "C" locale. */
  predicate IsSpace(c: char)
  {
    c == ' ' || c == '\t' || c == '\n' || c == '\U{B}' || c == '\U{C}' || c == '\r'
  }

  /** A non-empty run of non-whitespace characters. */
  predicate IsWord(w: string)
  {
    |w| > 0 && forall i :: 0 <= i < |w| ==> !IsSpace(w[i])
  }

  predicate IsDigit(c: char)
  {
    '0' <= c <= '9'
  }

  predicate AllDigits(s: string)
  {
    forall i :: 0 <= i < |s| ==> IsDigit(s[i])
  }

  /** Length of the longest whitespace-free prefix. */
  function WordLength(s: string): (n: nat)
    ensures n <= |s|
    ensures forall i :: 0 <= i < n ==> !IsSpace(s[i])
    ensures n < |s| ==> IsSpace(s[n])
  {
    if s == [] || IsSpace(s[0]) then 0 else 1 + WordLength(s[1..])
  }

  /** Length of the longest prefix of decimal digits. */
  function DigitRun(s: string): (n: nat)
    ensures n <= |s|
  {
    if s == [] || !IsDigit(s[0]) then 0 else 1 + DigitRun(s[1..])
  }

  /** The input with its leading whitespace skipped. */
  function SkipSpace(s: string): (t: string)
    ensures |t| <= |s|
    ensures t == [] || !IsSpace(t[0])
  {
    if s != [] && IsSpace(s[0]) then SkipSpace(s[1..]) else s
  }

  /** The whitespace-separated tokens of `s`, in order. */
  function Tokens(s: string): (ts: seq<string>)
    ensures forall i :: 0 <= i < |ts| ==> IsWord(ts[i])
    decreases |s|
  {
    if s == [] then []
    else if IsSpace(s[0]) then Tokens(s[1..])
    else
      var n := WordLength(s);
      [s[..n]] + Tokens(s[n..])
  }

  /** The value of a decimal digit; 0 for any other character. */
  function DigitValue(c: char): nat
  {
    if IsDigit(c) then c as int - '0' as int else 0
  }

  /** The value of a string of decimal digits. */
  function DigitsValue(s: string): nat
  {
    if s == [] then 0 else 10 * DigitsValue(s[..|s| - 1]) + DigitValue(s[|s| - 1])
  }

  /** The value of the digits after a decimal point: 0.d1d2... */
  function Fraction(f: string): real
  {
    if f == [] then 0.0 else (DigitValue(f[0]) as real + Fraction(f[1..])) / 10.0
  }

  /** Length of an optional leading sign. */
  function SignLength(s: string): nat
  {
    if s != [] && (s[0] == '-' || s[0] == '+') then 1 else 0
  }

  predicate Negative(s: string)
  {
    s != [] && s[0] == '-'
  }

  /** What is left to read, and whether no extraction has failed yet. */
  datatype Stream = Stream(rest: string, good: bool)

  /** The stream after an extraction, and the value written to the field;
      None when the field is left as it was. */
  datatype Read<T> = Read(stream: Stream, value: Option<T>)

  /** `>> std::string`: skip whitespace and read up to the next whitespace.
      At the end of the input nothing is read and the stream fails. */
  function ReadWord(st: Stream): (r: Read<string>)
    ensures r.value.Some? ==> IsWord(r.value.value)
    ensures r.value.Some? <==> r.stream.good
  {
    if !st.good then Read(st, None)
    else
      var t := SkipSpace(st.rest);
      if t == [] then Read(Stream(t, false), None)
      else
        var n := WordLength(t);
        Read(Stream(t[n..], true), Some(t[..n]))
  }

  /** An integer read from the front of a string: how many characters it takes and its value. */
  datatype IntegerScan = NoInteger | Integer(length: nat, value: int)

  /** A decimal read from the front of a string: how many characters it takes and its value. */
  datatype DecimalScan = NoDecimal | Decimal(length: nat, value: real)

  /** The longest run of decimal digits, if there is one. */
  function UnsignedInteger(u: string): (r: IntegerScan)
    ensures r.Integer? ==> 0 < r.length <= |u|
  {
    var n := DigitRun(u);
    if n == 0 then NoInteger else Integer(n, DigitsValue(u[..n]))
  }

  /** Digits, optionally followed by a point and more digits, with at least one digit in all. */
  function UnsignedDecimal(u: string): (r: DecimalScan)
    ensures r.Decimal? ==> 0 < r.length <= |u|
  {
    var w := DigitRun(u);
    if w < |u| && u[w] == '.' then PointDecimal(u[..w], u[w + 1..])
    else if w == 0 then NoDecimal
    else Decimal(w, DigitsValue(u[..w]) as real)
  }

  /** The number whose integer digits are `whole` (possibly none), once a point
      has been seen and `after` follows it: the point and the digits after it
      belong to the number, which needs at least one digit in all. */
  function PointDecimal(whole: string, after: string): (r: DecimalScan)
    ensures r.Decimal? ==> 0 < r.length <= |whole| + 1 + |after|
  {
    var f := DigitRun(after);
    if |whole| + f == 0 then NoDecimal
    else Decimal(|whole| + 1 + f, DigitsValue(whole) as real + Fraction(after[..f]))
  }

  /** `>> int`: skip whitespace, then read an optional sign and the longest run
      of decimal digits. Without digits the stream fails and the field is set
      to 0; at the end of the input nothing is read and the stream fails. */
  function ReadInt(st: Stream): (r: Read<int>)
    ensures r.stream.good ==> r.value.Some?
  {
    if !st.good then Read(st, None)
    else
      var t := SkipSpace(st.rest);
      if t == [] then Read(Stream(t, false), None)
      else
        var k := SignLength(t);
        var number := UnsignedInteger(t[k..]);
        if number.NoInteger? then Read(Stream(t, false), Some(0))
        else Read(Stream(t[k + number.length..], true), Some(if Negative(t) then -number.value else number.value))
  }

  /** `>> double` as libstdc++'s num_get reads it, for fixed notation: skip
      whitespace, then read an optional sign, digits, and an optional point
      followed by digits. Without any digit the stream fails and the field is
      set to 0; at the end of the input nothing is read and the stream fails. */
  function ReadDouble(st: Stream): (r: Read<real>)
    ensures r.stream.good ==> r.value.Some?
  {
    if !st.good then Read(st, None)
    else
      var t := SkipSpace(st.rest);
      if t == [] then Read(Stream(t, false), None)
      else
        var k := SignLength(t);
        var number := UnsignedDecimal(t[k..]);
        if number.NoDecimal? then Read(Stream(t, false), Some(0.0))
        else Read(Stream(t[k + number.length..], true), Some(if Negative(t) then -number.value else number.value))
  }

  /** parseOrder. Each field the stream does not write keeps the value of the
      default-initialised Order: the empty string for the three string fields,
      and for the price and the quantity whatever is passed as `unsetPrice` and
      `unsetQuantity`, standing for the indeterminate value they start with. */
  function ParseOrder(data: string, unsetPrice: real, unsetQuantity: int): (o: Order)
    ensures o.orderId == "" || IsWord(o.orderId)
    ensures o.symbol == "" || IsWord(o.symbol)
    ensures o.side == "" || IsWord(o.side)
  {
    var orderId := ReadWord(Stream(data, true));
    var symbol := ReadWord(orderId.stream);
    var side := ReadWord(symbol.stream);
    var price := ReadDouble(side.stream);
    var quantity := ReadInt(price.stream);
    Order(ValueOr(orderId.value, ""), ValueOr(symbol.value, ""), ValueOr(side.value, ""),
          ValueOr(price.value, unsetPrice), ValueOr(quantity.value, unsetQuantity))
  }

  lemma {:induction false} TokensSkipSpace(s: string)
    ensures Tokens(SkipSpace(s)) == Tokens(s)
  {
    if s != [] && IsSpace(s[0]) {
      TokensSkipSpace(s[1..]);
    }
  }

  /** A string extraction from a good stream reads exactly the next token, and
      fails exactly when no token is left. */
  lemma ReadWordReadsToken(st: Stream)
    requires st.good
    ensures var r := ReadWord(st);
            && (Tokens(st.rest) == [] <==> !r.stream.good)
            && (Tokens(st.rest) != [] ==>
                  r.value == Some(Tokens(st.rest)[0]) && Tokens(r.stream.rest) == Tokens(st.rest)[1..])
  {
    TokensSkipSpace(st.rest);
  }

  /** The field at a position, or the empty string when there are fewer tokens. */
  function Field(ts: seq<string>, i: nat): string
  {
    if i < |ts| then ts[i] else ""
  }

  /** The three string fields of a parsed order are the first three tokens of
      the line, each empty when the line is shorter; a line of fewer than four
      tokens leaves the price and the quantity unset. */
  lemma ParseOrderFields(data: string, unsetPrice: real, unsetQuantity: int)
    ensures var o := ParseOrder(data, unsetPrice, unsetQuantity);
            var ts := Tokens(data);
            && o.orderId == Field(ts, 0) && o.symbol == Field(ts, 1) && o.side == Field(ts, 2)
            && (|ts| < 4 ==> o.price == unsetPrice && o.quantity == unsetQuantity)
  {
    var ts := Tokens(data);
    var orderId := ReadWord(Stream(data, true));
    ReadWordReadsToken(Stream(data, true));
    if ts != [] {
      var symbol := ReadWord(orderId.stream);
      ReadWordReadsToken(orderId.stream);
      if |ts| > 1 {
        var side := ReadWord(symbol.stream);
        ReadWordReadsToken(symbol.stream);
        if |ts| == 3 {
          TokensSkipSpace(side.stream.rest);
        }
      }
    }
  }

  lemma {:induction false} DigitRunOf(a: string, rest: string)
    requires AllDigits(a)
    requires rest == [] || !IsDigit(rest[0])
    ensures DigitRun(a + rest) == |a| && (a + rest)[..|a|] == a && (a + rest)[|a|..] == rest
  {
    if a != [] {
      assert (a + rest)[1..] == a[1..] + rest;
      DigitRunOf(a[1..], rest);
    }
  }

  lemma WordLengthOf(w: string, rest: string)
    requires IsWord(w)
    requires rest == [] || IsSpace(rest[0])
    ensures WordLength(w + rest) == |w| && (w + rest)[..|w|] == w && (w + rest)[|w|..] == rest
  {
    var s := w + rest;
    assert forall i :: 0 <= i < |w| ==> s[i] == w[i];
    if rest != [] {
      assert s[|w|] == rest[0];
    }
  }

  /** Reading a word that is followed by whitespace. */
  lemma ReadWordAt(s: string, w: string, rest: string)
    requires IsWord(w) && SkipSpace(s) == w + rest
    requires rest == [] || IsSpace(rest[0])
    ensures ReadWord(Stream(s, true)) == Read(Stream(rest, true), Some(w))
  {
    WordLengthOf(w, rest);
  }

  function DigitChar(d: nat): (c: char)
    requires d < 10
    ensures IsDigit(c) && c as int - '0' as int == d
  {
    ('0' as int + d) as char
  }

  /** Decimal notation of a natural number, as std::to_string writes it. */
  function NatToString(n: nat): (s: string)
    ensures |s| > 0 && IsDigit(s[0])
  {
    if n < 10 then [DigitChar(n)] else NatToString(n / 10) + [DigitChar(n % 10)]
  }

  lemma {:induction false} NatToStringDigits(n: nat)
    ensures AllDigits(NatToString(n))
  {
    if n >= 10 {
      NatToStringDigits(n / 10);
    }
  }

  /** Decimal notation of an integer, with '-' for a negative one. */
  function IntToString(n: int): (s: string)
    ensures |s| > 0 && (IsDigit(s[0]) <==> n >= 0) && !IsSpace(s[0])
  {
    if n < 0 then "-" + NatToString(-n) else NatToString(n)
  }

  /** Decimal notation is read back as the number it writes. */
  lemma {:induction false} NatToStringValue(n: nat)
    ensures DigitsValue(NatToString(n)) == n
  {
    if n >= 10 {
      var s := NatToString(n);
      assert s[..|s| - 1] == NatToString(n / 10);
      NatToStringValue(n / 10);
    }
  }

  lemma UnsignedIntegerAt(digits: string, rest: string)
    requires |digits| > 0 && AllDigits(digits)
    requires rest == [] || !IsDigit(rest[0])
    ensures UnsignedInteger(digits + rest) == Integer(|digits|, DigitsValue(digits))
  {
    DigitRunOf(digits, rest);
  }

  lemma UnsignedDecimalAt(digits: string, frac: string, rest: string)
    requires |digits| > 0 && AllDigits(digits) && AllDigits(frac)
    requires rest == [] || !IsDigit(rest[0])
    ensures UnsignedDecimal(digits + ("." + (frac + rest)))
            == Decimal(|digits| + 1 + |frac|, DigitsValue(digits) as real + Fraction(frac))
  {
    var after := "." + (frac + rest);
    assert after[0] == '.' && after[1..] == frac + rest;
    UnsignedDecimalSplit(digits, after);
    DigitRunOf(frac, rest);
    PointDecimalOf(digits, frac, rest);
  }

  lemma UnsignedDecimalSplit(digits: string, after: string)
    requires |digits| > 0 && AllDigits(digits) && after != [] && after[0] == '.'
    ensures UnsignedDecimal(digits + after) == PointDecimal(digits, after[1..])
  {
    var u := digits + after;
    DigitRunOf(digits, after);
    assert u[..|digits|] == digits && u[|digits|] == '.' && u[|digits| + 1..] == after[1..];
  }

  lemma PointDecimalOf(digits: string, frac: string, rest: string)
    requires |digits| > 0 && DigitRun(frac + rest) == |frac|
    ensures PointDecimal(digits, frac + rest) == Decimal(|digits| + 1 + |frac|, DigitsValue(digits) as real + Fraction(frac))
  {
    assert (frac + rest)[..|frac|] == frac;
  }

  lemma ScannedInt(st: Stream, t: string, n: IntegerScan)
    requires st.good && SkipSpace(st.rest) == t && t != []
    requires n.Integer? && UnsignedInteger(t[SignLength(t)..]) == n
    ensures ReadInt(st) == Read(Stream(t[SignLength(t) + n.length..], true), Some(if Negative(t) then -n.value else n.value))
  {
  }

  lemma ScannedDecimal(st: Stream, t: string, n: DecimalScan)
    requires st.good && SkipSpace(st.rest) == t && t != []
    requires n.Decimal? && UnsignedDecimal(t[SignLength(t)..]) == n
    ensures ReadDouble(st) == Read(Stream(t[SignLength(t) + n.length..], true), Some(if Negative(t) then -n.value else n.value))
  {
  }

  /** An integer written in decimal and followed by a non-digit is read back
      as itself, and the stream stops right after it. */
  lemma ReadIntAt(s: string, n: int, rest: string)
    requires SkipSpace(s) == IntToString(n) + rest
    requires rest == [] || !IsDigit(rest[0])
    ensures ReadInt(Stream(s, true)) == Read(Stream(rest, true), Some(n))
  {
    var magnitude: nat := if n < 0 then -n else n;
    var digits := NatToString(magnitude);
    SignSplit(n, rest);
    NatToStringDigits(magnitude);
    NatToStringValue(magnitude);
    UnsignedIntegerAt(digits, rest);
    ScannedInt(Stream(s, true), IntToString(n) + rest, Integer(|digits|, magnitude));
  }

  /** Where the sign of a written integer ends and its digits begin. */
  lemma SignSplit(n: int, rest: string)
    ensures var magnitude: nat := if n < 0 then -n else n;
            var digits, t, k := NatToString(magnitude), IntToString(n) + rest, if n < 0 then 1 else 0;
            && t != [] && SignLength(t) == k && (Negative(t) <==> n < 0)
            && t[k..] == digits + rest && t[k + |digits|..] == rest
  {
    var magnitude: nat := if n < 0 then -n else n;
    var digits, t := NatToString(magnitude), IntToString(n) + rest;
    if n < 0 {
      AppendAssoc("-", digits, rest);
      assert t[1..] == digits + rest;
    } else {
      assert t[0] == digits[0];
    }
  }

  /** A price written in fixed notation, digits, a point and digits (as
      std::to_string writes a non-negative double), and followed by neither a
      digit nor an exponent mark is read back as its exact value. */
  lemma ReadDoubleAt(s: string, whole: nat, frac: string, rest: string)
    requires AllDigits(frac)
    requires SkipSpace(s) == NatToString(whole) + "." + frac + rest
    requires rest == [] || (!IsDigit(rest[0]) && rest[0] !in "eE")
    ensures ReadDouble(Stream(s, true)) == Read(Stream(rest, true), Some(whole as real + Fraction(frac)))
  {
    var digits := NatToString(whole);
    AppendAssoc4(digits, ".", frac, rest);
    NatToStringDigits(whole);
    NatToStringValue(whole);
    UnsignedDecimalAt(digits, frac, rest);
    PointSplit(digits, frac, rest);
    ScannedUnsignedDecimal(s, digits + ("." + (frac + rest)), Decimal(|digits| + 1 + |frac|, whole as real + Fraction(frac)));
  }

  lemma AppendAssoc4(a: string, b: string, c: string, d: string)
    ensures a + b + c + d == a + (b + (c + d))
  {
    AppendAssoc(a, b, c);
    AppendAssoc(a, b + c, d);
    AppendAssoc(b, c, d);
  }

  /** Where a number in fixed notation starts and ends in the input. */
  lemma PointSplit(digits: string, frac: string, rest: string)
    requires |digits| > 0
    ensures var u := digits + ("." + (frac + rest));
            u[0] == digits[0] && u[|digits| + 1 + |frac|..] == rest
  {
    var u := digits + ("." + (frac + rest));
    assert u[|digits| + 1..] == frac + rest;
  }

  lemma ScannedUnsignedDecimal(s: string, t: string, n: DecimalScan)
    requires SkipSpace(s) == t && t != [] && IsDigit(t[0])
    requires n.Decimal? && UnsignedDecimal(t) == n
    ensures ReadDouble(Stream(s, true)) == Read(Stream(t[n.length..], true), Some(n.value))
  {
    assert SignLength(t) == 0 && !Negative(t) && t[0..] == t;
    ScannedDecimal(Stream(s, true), t, n);
  }

  lemma SkipOneSpace(x: string)
    requires x == [] || !IsSpace(x[0])
    ensures SkipSpace(" " + x) == x
  {
    assert (" " + x)[1..] == x;
  }

  /** The order line a client sends: the five fields separated by single
      spaces and ended by a newline. */
  function OrderLine(orderId: string, symbol: string, side: string, price: string, quantity: string): (line: string)
    ensures |line| == |orderId| + |symbol| + |side| + |price| + |quantity| + 5
    ensures line[|line| - 1] == '\n'
  {
    orderId + (" " + (symbol + (" " + (side + (" " + (price + (" " + (quantity + "\n"))))))))
  }

  /** A word followed by whitespace is the first token. */
  lemma TokensWord(w: string, rest: string)
    requires IsWord(w)
    requires rest == [] || IsSpace(rest[0])
    ensures Tokens(w + rest) == [w] + Tokens(rest)
  {
    WordLengthOf(w, rest);
    assert (w + rest)[0] == w[0];
  }

  /** A space, then a word followed by whitespace: the word is the first token. */
  lemma TokensSpaceWord(w: string, rest: string)
    requires IsWord(w)
    requires rest == [] || IsSpace(rest[0])
    ensures Tokens(" " + (w + rest)) == [w] + Tokens(rest)
  {
    assert (" " + (w + rest))[1..] == w + rest;
    TokensWord(w, rest);
  }

  /** The tokens of the line's tail from the space before the side. */
  lemma OrderLineTail(side: string, price: string, quantity: string)
    requires IsWord(side) && IsWord(price) && IsWord(quantity)
    ensures Tokens(" " + (side + (" " + (price + (" " + (quantity + "\n")))))) == [side, price, quantity]
  {
    var r5 := "\n";
    var r4 := " " + (quantity + r5);
    var r3 := " " + (price + r4);
    assert Tokens(r5) == [] by {
      assert r5[1..] == [];
    }
    TokensSpaceWord(quantity, r5);
    TokensSpaceWord(price, r4);
    TokensSpaceWord(side, r3);
  }

  /** When the five fields are words, the tokens of the order line are exactly
      the five fields, in order. */
  lemma OrderLineTokens(orderId: string, symbol: string, side: string, price: string, quantity: string)
    requires IsWord(orderId) && IsWord(symbol) && IsWord(side) && IsWord(price) && IsWord(quantity)
    ensures Tokens(OrderLine(orderId, symbol, side, price, quantity)) == [orderId, symbol, side, price, quantity]
  {
    var r2 := " " + (side + (" " + (price + (" " + (quantity + "\n")))));
    var r1 := " " + (symbol + r2);
    OrderLineTail(side, price, quantity);
    TokensSpaceWord(symbol, r2);
    TokensWord(orderId, r1);
  }

  /** The three words at the front of a line are read as the order's
      identifier, symbol and side; price and quantity come from what follows. */
  lemma ParseOrderWords(orderId: string, symbol: string, side: string, r: string,
                        unsetPrice: real, unsetQuantity: int)
    requires IsWord(orderId) && IsWord(symbol) && IsWord(side)
    requires r == [] || IsSpace(r[0])
    ensures var price := ReadDouble(Stream(r, true));
            ParseOrder(orderId + (" " + (symbol + (" " + (side + r)))), unsetPrice, unsetQuantity)
            == Order(orderId, symbol, side, ValueOr(price.value, unsetPrice), ValueOr(ReadInt(price.stream).value, unsetQuantity))
  {
    var r2 := " " + (side + r);
    var r1 := " " + (symbol + r2);
    var line := orderId + r1;
    assert ReadWord(Stream(line, true)) == Read(Stream(r1, true), Some(orderId)) by {
      assert line[0] == orderId[0];
      ReadWordAt(line, orderId, r1);
    }
    assert ReadWord(Stream(r1, true)) == Read(Stream(r2, true), Some(symbol)) by {
      assert (symbol + r2)[0] == symbol[0];
      SkipOneSpace(symbol + r2);
      ReadWordAt(r1, symbol, r2);
    }
    assert ReadWord(Stream(r2, true)) == Read(Stream(r, true), Some(side)) by {
      assert (side + r)[0] == side[0];
      SkipOneSpace(side + r);
      ReadWordAt(r2, side, r);
    }
  }

  /** Round trip with the client's format: an order line whose price is in
      std::to_string's fixed notation is parsed back into exactly that order,
      whatever the unset fields would have held. */
  lemma ParseOrderLine(orderId: string, symbol: string, side: string, whole: nat, frac: string,
                       quantity: int, unsetPrice: real, unsetQuantity: int)
    requires IsWord(orderId) && IsWord(symbol) && IsWord(side) && AllDigits(frac)
    ensures ParseOrder(OrderLine(orderId, symbol, side, NatToString(whole) + "." + frac, IntToString(quantity)),
                       unsetPrice, unsetQuantity)
            == Order(orderId, symbol, side, whole as real + Fraction(frac), quantity)
  {
    var p, q := NatToString(whole) + "." + frac, IntToString(quantity);
    var r4 := " " + (q + "\n");
    var r3 := " " + (p + r4);
    ParseOrderWords(orderId, symbol, side, r3, unsetPrice, unsetQuantity);
    assert ReadDouble(Stream(r3, true)) == Read(Stream(r4, true), Some(whole as real + Fraction(frac))) by {
      assert (p + r4)[0] == NatToString(whole)[0];
      SkipOneSpace(p + r4);
      ReadDoubleAt(r3, whole, frac, r4);
    }
    assert ReadInt(Stream(r4, true)) == Read(Stream("\n", true), Some(quantity)) by {
      assert (q + "\n")[0] == q[0];
      SkipOneSpace(q + "\n");
      ReadIntAt(r4, quantity, "\n");
    }
  }

  /** A price that does not start like a number (no digit, sign or point):
      the stream fails, the price is set to 0 and the quantity after it is not
      read, so it keeps whatever it held. */
  lemma MalformedPrice(orderId: string, symbol: string, side: string, price: string, quantity: string,
                       unsetPrice: real, unsetQuantity: int)
    requires IsWord(orderId) && IsWord(symbol) && IsWord(side) && IsWord(price)
    requires !IsDigit(price[0]) && price[0] !in "+-."
    ensures ParseOrder(OrderLine(orderId, symbol, side, price, quantity), unsetPrice, unsetQuantity)
            == Order(orderId, symbol, side, 0.0, unsetQuantity)
  {
    var r4 := " " + (quantity + "\n");
    var t := price + r4;
    ParseOrderWords(orderId, symbol, side, " " + t, unsetPrice, unsetQuantity);
    assert ReadDouble(Stream(" " + t, true)) == Read(Stream(t, false), Some(0.0)) by {
      assert t[0] == price[0];
      SkipOneSpace(t);
      assert SignLength(t) == 0 && t[0..] == t;
      assert DigitRun(t) == 0;
    }
  }

  /** The numbers are read from the stream, not split at whitespace: a
      negative quantity written straight after the price is still read, its
      minus sign ending the price. */
  lemma AdjacentNumbers(orderId: string, symbol: string, side: string, whole: nat, frac: string,
                        quantity: int, unsetPrice: real, unsetQuantity: int)
    requires IsWord(orderId) && IsWord(symbol) && IsWord(side) && AllDigits(frac) && quantity < 0
    ensures ParseOrder(orderId + (" " + (symbol + (" " + (side + (" " + (NatToString(whole) + "." + frac + IntToString(quantity))))))),
                       unsetPrice, unsetQuantity)
            == Order(orderId, symbol, side, whole as real + Fraction(frac), quantity)
  {
    var p, q := NatToString(whole) + "." + frac, IntToString(quantity);
    var r3 := " " + (p + q);
    ParseOrderWords(orderId, symbol, side, r3, unsetPrice, unsetQuantity);
    assert ReadDouble(Stream(r3, true)) == Read(Stream(q, true), Some(whole as real + Fraction(frac))) by {
      assert (p + q)[0] == NatToString(whole)[0];
      SkipOneSpace(p + q);
      assert q[0] == '-';
      ReadDoubleAt(r3, whole, frac, q);
    }
    assert ReadInt(Stream(q, true)) == Read(Stream([], true), Some(quantity)) by {
      assert q[0] == '-' && q + [] == q;
      ReadIntAt(q, quantity, []);
    }
  }
}
