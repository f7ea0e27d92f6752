/** Decoded JSON values as the Python code sees them (dicts, lists, strings, ints,
    booleans and None), the exceptions the modelled code raises, and the few
    Python built-ins the core relies on: `d[key]`, `d.get(key)`, truthiness,
    `str(int)` and `int(str)`. */
module Json {

  datatype Option<T> = None | Some(value: T)

  /** The Python exceptions the modelled code can raise. */
  datatype Error =
    | KeyError(key: string)  // `record[key]` on a dict without that key
    | TypeError              // subscripting, iterating or hashing a value that does not allow it
    | ValueError             // strptime or int() rejecting a string; a date or time built from nothing
    | IndexError             // a list index past the end
    | OverflowError          // date arithmetic leaving 0001-01-01 .. 9999-12-31
    | AttributeError         // calling a string method on a value that is not a string

  datatype Result<T> = Ok(value: T) | Err(error: Error) {
    predicate IsFailure() { Err? }
    function PropagateFailure<U>(): Result<U> requires Err? { Err(error) }
    function Extract(): T requires Ok? { value }
  }

  /** The values of outcomes that all succeeded. */
  function Values<T>(os: seq<Result<T>>): (vs: seq<T>)
    requires forall i | 0 <= i < |os| :: os[i].Ok?
    ensures |vs| == |os| && forall i | 0 <= i < |os| :: vs[i] == os[i].value
  {
    seq(|os|, i requires 0 <= i < |os| => os[i].value)
  }

  /** The outcomes of a loop that stops at its first failure. */
  function Collect<T>(os: seq<Result<T>>): Result<seq<T>> {
    if os == [] then Ok([])
    else
      var before :- Collect(os[..|os| - 1]);
      var last :- os[|os| - 1];
      Ok(before + [last])
  }

  /** A loop of outcomes succeeds when every step does, with the steps' values in
      order, and otherwise fails with the first failure. */
  lemma {:induction false} CollectOutcome<T>(os: seq<Result<T>>)
    ensures Collect(os).Ok? <==> forall i | 0 <= i < |os| :: os[i].Ok?
    ensures Collect(os).Ok? ==> Collect(os).value == Values(os)
    ensures Collect(os).Err? ==> exists i | 0 <= i < |os| ::
      os[i].Err? && Collect(os).error == os[i].error && forall k | 0 <= k < i :: os[k].Ok?
  {
    if os != [] {
      var n := |os| - 1;
      CollectOutcome(os[..n]);
      assert forall i | 0 <= i < n :: os[..n][i] == os[i];
      if Collect(os[..n]).Err? {
        var i :| 0 <= i < n && os[..n][i].Err? && Collect(os[..n]).error == os[..n][i].error
          && forall k | 0 <= k < i :: os[..n][k].Ok?;
        assert os[i].Err? && forall k | 0 <= k < i :: os[k].Ok?;
      } else if os[n].Err? {
        assert forall k | 0 <= k < n :: os[k].Ok?;
      }
    }
  }

  /** A failure at step `i` after `i` successful steps is the loop's failure. */
  lemma {:induction false} CollectStopsAt<T>(os: seq<Result<T>>, i: nat)
    requires i < |os| && os[i].Err? && forall k | 0 <= k < i :: os[k].Ok?
    ensures Collect(os) == Err(os[i].error)
  {
    var n := |os| - 1;
    if i < n {
      assert os[..n][i] == os[i] && forall k | 0 <= k < i :: os[..n][k] == os[k];
      CollectStopsAt(os[..n], i);
    } else {
      CollectOutcome(os[..n]);
      assert forall k | 0 <= k < n :: os[..n][k] == os[k];
    }
  }


  /** One more step of a loop that has not failed yet: a failure ends the loop
      with that failure, a value is appended. */
  lemma CollectStep<T>(os: seq<Result<T>>, i: nat, o: Result<T>)
    requires i < |os| && os[i] == o && Collect(os[..i]).Ok?
    ensures o.Err? ==> Collect(os) == Err(o.error)
    ensures o.Ok? ==> Collect(os[..i + 1]) == Ok(Collect(os[..i]).value + [o.value])
  {
    assert os[..i + 1][..i] == os[..i];
    if o.Err? {
      CollectOutcome(os[..i]);
      assert forall k | 0 <= k < i :: os[..i][k] == os[k];
      CollectStopsAt(os, i);
    }
  }

  /** A decoded JSON value; `Null` is Python's None. Objects are unordered here. */
  datatype Json =
    | Null
    | Bool(b: bool)
    | Int(i: int)
    | Str(s: string)
    | List(items: seq<Json>)
    | Object(fields: map<string, Json>)

  /** Python truthiness: None, False, 0 and empty containers are falsy. */
  predicate Truthy(j: Json) {
    match j
    case Null => false
    case Bool(b) => b
    case Int(i) => i != 0
    case Str(s) => s != []
    case List(xs) => xs != []
    case Object(m) => m != map[]
  }

  /** `record[key]`: a KeyError when a dict lacks the key, a TypeError when the
      value is not a dict at all. */
  function Lookup(record: Json, key: string): Result<Json> {
    if !record.Object? then Err(TypeError)
    else if key in record.fields then Ok(record.fields[key])
    else Err(KeyError(key))
  }

  /** `record[key]` succeeds: the record is a dict holding the key. */
  predicate Has(record: Json, key: string) {
    record.Object? && key in record.fields
  }

  /** `record.get(key)`: the value, or None when the key is absent. Only ever
      applied to a record that an earlier `record[...]` showed to be a dict. */
  function Get(record: Json, key: string): Json {
    if record.Object? && key in record.fields then record.fields[key] else Null
  }

  lemma GetAbsentIsNone(record: Json, key: string)
    requires record.Object?
    ensures key !in record.fields ==> Get(record, key) == Null
    ensures key in record.fields ==> Get(record, key) == record.fields[key]
  {
  }

  /** `[Parse(x) for x in value]`: iterating a list gives its elements, a string
      its one-character strings and a dict its keys; None, booleans and numbers are
      not iterable. Every parser used with it starts by subscripting its record, so
      a key of a non-empty dict fails with a TypeError whatever the key order. */
  function ParseAll<T>(value: Json, parse: Json -> Result<T>): Result<seq<T>> {
    match value
    case List(xs) => ParseEach(xs, parse)
    case Str(s) => ParseEach(seq(|s|, i requires 0 <= i < |s| => Str([s[i]])), parse)
    case Object(m) => if m == map[] then Ok([]) else Err(TypeError)
    case _ => Err(TypeError)
  }

  /** A list comprehension over parsers: the first failure propagates. */
  function ParseEach<T>(xs: seq<Json>, parse: Json -> Result<T>): (r: Result<seq<T>>)
    ensures r.Ok? <==> forall i | 0 <= i < |xs| :: parse(xs[i]).Ok?
    ensures r.Ok? ==> |r.value| == |xs| && forall i | 0 <= i < |xs| :: r.value[i] == parse(xs[i]).value
  {
    if xs == [] then Ok([])
    else
      var x :- parse(xs[0]);
      var rest :- ParseEach(xs[1..], parse);
      assert forall i | 1 <= i < |xs| :: xs[i] == xs[1..][i - 1];
      Ok([x] + rest)
  }

  // ---------------------------------------------------------------------------
  // Decimal digits

  predicate IsDigit(c: char) { '0' <= c <= '9' }

  function DigitValue(c: char): nat
    requires IsDigit(c)
  {
    c as int - '0' as int
  }

  function DigitChar(d: nat): char
    requires d < 10
  {
    ('0' as int + d) as char
  }

  predicate AllDigits(s: string) {
    forall i | 0 <= i < |s| :: IsDigit(s[i])
  }

  /** The value of a string of decimal digits. */
  function DigitsValue(s: string): nat
    requires AllDigits(s)
  {
    if s == [] then 0 else 10 * DigitsValue(s[..|s| - 1]) + DigitValue(s[|s| - 1])
  }

  /** `str(n)` for a natural number: its decimal digits without leading zeros. */
  function NatToString(n: nat): (s: string)
    ensures |s| >= 1 && AllDigits(s)
  {
    if n < 10 then [DigitChar(n)] else NatToString(n / 10) + [DigitChar(n % 10)]
  }

  /** `str(i)` for an int. */
  function IntToString(i: int): string {
    if i < 0 then "-" + NatToString(-i) else NatToString(i)
  }

  lemma DigitCharValue(d: nat)
    requires d < 10
    ensures IsDigit(DigitChar(d)) && DigitValue(DigitChar(d)) == d
  {
  }

  lemma DigitsValueAppend(s: string, c: char)
    requires AllDigits(s) && IsDigit(c)
    ensures AllDigits(s + [c]) && DigitsValue(s + [c]) == 10 * DigitsValue(s) + DigitValue(c)
  {
    assert (s + [c])[..|s|] == s;
  }

  /** "%02d": two digits, zero-padded. */
  function Digits2(n: nat): (s: string)
    requires n < 100
    ensures |s| == 2 && AllDigits(s) && DigitsValue(s) == n
  {
    DigitCharValue(n / 10);
    DigitCharValue(n % 10);
    DigitsValueAppend([], DigitChar(n / 10));
    DigitsValueAppend([DigitChar(n / 10)], DigitChar(n % 10));
    [DigitChar(n / 10), DigitChar(n % 10)]
  }

  /** "%04d": four digits, zero-padded. */
  function Digits4(n: nat): (s: string)
    requires n < 10000
    ensures |s| == 4 && AllDigits(s) && DigitsValue(s) == n
  {
    var a, b, c, d := DigitChar(n / 1000), DigitChar(n / 100 % 10), DigitChar(n / 10 % 10), DigitChar(n % 10);
    DigitCharValue(n / 1000);
    DigitCharValue(n / 100 % 10);
    DigitCharValue(n / 10 % 10);
    DigitCharValue(n % 10);
    DigitsValueAppend([], a);
    DigitsValueAppend([a], b);
    DigitsValueAppend([a, b], c);
    DigitsValueAppend([a, b, c], d);
    assert [a] + [b] == [a, b] && [a, b] + [c] == [a, b, c] && [a, b, c] + [d] == [a, b, c, d];
    assert n / 100 / 10 == n / 1000 && n / 10 / 10 == n / 100;
    assert DigitsValue([a, b]) == n / 100;
    assert DigitsValue([a, b, c]) == n / 10;
    [a, b, c, d]
  }

  lemma {:induction false} NatToStringValue(n: nat)
    ensures DigitsValue(NatToString(n)) == n
  {
    if n >= 10 {
      NatToStringValue(n / 10);
      var s := NatToString(n);
      assert s[..|s| - 1] == NatToString(n / 10);
    }
  }

  /** `str(int(s))` gives back a digit string without a leading zero. */
  lemma {:induction false} DigitsRoundTrip(s: string)
    requires |s| >= 1 && AllDigits(s) && s[0] != '0'
    ensures NatToString(DigitsValue(s)) == s
  {
    var last := s[|s| - 1];
    var front := s[..|s| - 1];
    if |s| == 1 {
      assert front == [];
      assert s == [last];
    } else {
      DigitsRoundTrip(front);
      assert DigitsValue(front) != 0 by {
        assert NatToString(0) == ['0'];
      }
      var v := DigitsValue(s);
      assert v == 10 * DigitsValue(front) + DigitValue(last);
      assert v / 10 == DigitsValue(front) && v % 10 == DigitValue(last);
      assert s == front + [last];
    }
  }

  /** `str(n).zfill(4)` of a number below 10000 is its four-digit form. */
  lemma ZeroFilledIsDigits4(n: nat)
    requires n < 10000
    ensures PadLeft(NatToString(n), 4) == Digits4(n)
  {
    if n < 10 {
      OneDecimalDigit(n);
    } else if n < 100 {
      TwoDecimalDigits(n);
    } else if n < 1000 {
      ThreeDecimalDigits(n);
    } else {
      FourDecimalDigits(n);
    }
    PadToFour(NatToString(n), Digits4(n));
  }

  /** Zero-filling the last digits of a four-digit string that has only zeros
      before them gives the string back. */
  lemma PadToFour(s: string, d: string)
    requires |d| == 4 && |s| <= 4 && s == d[4 - |s|..] && forall i | 0 <= i < 4 - |s| :: d[i] == '0'
    ensures PadLeft(s, 4) == d
  {
    var r := PadLeft(s, 4);
    assert forall i | 0 <= i < 4 :: r[i] == d[i];
  }

  lemma OneDecimalDigit(n: nat)
    requires n < 10
    ensures |NatToString(n)| == 1 && NatToString(n) == Digits4(n)[3..]
    ensures Digits4(n)[0] == Digits4(n)[1] == Digits4(n)[2] == '0'
  {
    assert n / 1000 == 0 && n / 100 == 0 && n / 10 == 0 && n % 10 == n;
  }

  lemma TwoDecimalDigits(n: nat)
    requires 10 <= n < 100
    ensures |NatToString(n)| == 2 && NatToString(n) == Digits4(n)[2..]
    ensures Digits4(n)[0] == Digits4(n)[1] == '0'
  {
    assert NatToString(n / 10) == [DigitChar(n / 10)];
    assert n / 1000 == 0 && n / 100 == 0 && n / 10 % 10 == n / 10;
  }

  lemma ThreeDecimalDigits(n: nat)
    requires 100 <= n < 1000
    ensures |NatToString(n)| == 3 && NatToString(n) == Digits4(n)[1..]
    ensures Digits4(n)[0] == '0'
  {
    assert n / 10 / 10 == n / 100 && n / 100 < 10 && n / 100 % 10 == n / 100 && n / 1000 == 0;
    assert NatToString(n / 100) == [DigitChar(n / 100)];
    assert NatToString(n / 10) == [DigitChar(n / 100), DigitChar(n / 10 % 10)];
  }

  lemma FourDecimalDigits(n: nat)
    requires 1000 <= n < 10000
    ensures |NatToString(n)| == 4 && NatToString(n) == Digits4(n)[0..]
  {
    assert n / 100 / 10 == n / 1000 && n / 10 / 10 == n / 100 && n / 1000 < 10;
    assert NatToString(n / 1000) == [DigitChar(n / 1000)];
    assert NatToString(n / 100) == [DigitChar(n / 1000), DigitChar(n / 100 % 10)];
    assert NatToString(n / 10) == [DigitChar(n / 1000), DigitChar(n / 100 % 10), DigitChar(n / 10 % 10)];
  }

  /** `s.zfill(width)` for a string without a sign: '0's on the left up to `width`. */
  function PadLeft(s: string, width: nat): (r: string)
    ensures |r| == if |s| < width then width else |s|
    ensures r[|r| - |s|..] == s
    ensures forall i | 0 <= i < |r| - |s| :: r[i] == '0'
  {
    if |s| < width then seq(width - |s|, _ => '0') + s else s
  }

  /** `int(s)` for the strings the model accepts: an optional sign and at least one
      ASCII digit. */
  function ParseInt(s: string): (r: Result<int>)
    ensures r.Ok? && s != [] && s[0] != '-' && s[0] != '+' ==> r.value >= 0
  {
    if s != [] && (s[0] == '-' || s[0] == '+') then
      if |s| >= 2 && AllDigits(s[1..]) then
        var v: int := DigitsValue(s[1..]);
        Ok(if s[0] == '-' then -v else v)
      else Err(ValueError)
    else if s != [] && AllDigits(s) then Ok(DigitsValue(s))
    else Err(ValueError)
  }

  /** `int(value)` for a decoded JSON value: ints are kept, booleans are 0 and 1,
      strings are parsed, anything else is a TypeError. */
  function PyInt(value: Json): Result<int> {
    match value
    case Int(i) => Ok(i)
    case Bool(b) => Ok(if b then 1 else 0)
    case Str(s) => ParseInt(s)
    case _ => Err(TypeError)
  }

  /** `int(str(i))` gives back `i`. */
  lemma {:induction false} IntStringRoundTrip(i: int)
    ensures ParseInt(IntToString(i)) == Ok(i)
  {
    var n: nat := if i < 0 then -i else i;
    NatToStringValue(n);
    if i < 0 {
      assert IntToString(i)[1..] == NatToString(n);
    } else {
      assert IntToString(i) == NatToString(n);
      assert NatToString(n)[0] != '-' && NatToString(n)[0] != '+';
    }
  }
}
