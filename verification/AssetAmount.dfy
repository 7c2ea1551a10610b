/** Amounts of an asset as typed and shown by the command-line tool: `<asset>:<amount>` or
    `<amount> <asset>`. */
module AssetAmount {
  datatype AmountOfAsset = AmountOfAsset(asset: string, amount: nat)

  datatype ParseError = NeedsValuePair | InvalidAmount

  datatype Parsed = Ok(value: AmountOfAsset) | Err(error: ParseError)

  const LIMIT: nat := 0x1_0000_0000_0000_0000

  // ---------- Numbers ----------

  predicate IsDigit(c: char) { '0' <= c <= '9' }

  function Digit(n: nat): char
    requires n < 10
  {
    '0' + n as char
  }

  function ShowNat(n: nat): string {
    if n < 10 then [Digit(n)] else ShowNat(n / 10) + [Digit(n % 10)]
  }

  predicate AllDigits(s: string) { forall i | 0 <= i < |s| :: IsDigit(s[i]) }

  function Value(s: string): nat
    requires AllDigits(s)
  {
    if s == [] then 0 else 10 * Value(s[..|s| - 1]) + (s[|s| - 1] - '0') as nat
  }

  datatype Number = Valid(n: nat) | Invalid

  /** A 64-bit number: an optional plus sign and at least one digit. */
  function ParseU64(s: string): Number {
    var digits := if s != [] && s[0] == '+' then s[1..] else s;
    if digits == [] || !AllDigits(digits) || Value(digits) >= LIMIT then Invalid else Valid(Value(digits))
  }

  lemma {:induction false} ShowNatDigits(n: nat)
    ensures ShowNat(n) != [] && AllDigits(ShowNat(n)) && Value(ShowNat(n)) == n
  {
    if n < 10 {
      assert [Digit(n)][..0] == [];
    } else {
      ShowNatDigits(n / 10);
      var s := ShowNat(n / 10) + [Digit(n % 10)];
      assert s[..|s| - 1] == ShowNat(n / 10);
    }
  }

  /** No leading zeros. */
  lemma {:induction false} ShownShortest(n: nat)
    ensures n == 0 ==> ShowNat(n) == ['0']
    ensures n > 0 ==> ShowNat(n) != [] && ShowNat(n)[0] != '0'
  {
    if n >= 10 {
      ShownShortest(n / 10);
    }
  }

  lemma NumberRoundTrip(n: nat)
    ensures ParseU64(ShowNat(n)) == if n < LIMIT then Valid(n) else Invalid
  {
    ShowNatDigits(n);
    assert ShowNat(n)[0] in ShowNat(n);
  }

  // ---------- Splitting ----------

  function Split(s: string, sep: char): seq<string> {
    if s == [] then [[]]
    else
      var rest := Split(s[1..], sep);
      if s[0] == sep then [[]] + rest
      else if rest == [] then [[s[0]]]
      else [[s[0]] + rest[0]] + rest[1..]
  }

  lemma {:induction false} SplitParts(s: string, sep: char)
    ensures |Split(s, sep)| >= 1 && forall p | p in Split(s, sep) :: sep !in p
    ensures |Split(s, sep)| == 1 <==> sep !in s
    ensures forall p, c | p in Split(s, sep) && c in p :: c in s
    decreases |s|
  {
    if s != [] {
      SplitParts(s[1..], sep);
    }
  }

  /** The part before the first separator, and the rest. */
  lemma {:induction false} SplitFirst(a: string, sep: char, b: string)
    requires sep !in a
    ensures Split(a + [sep] + b, sep) == [a] + Split(b, sep)
    decreases |a|
  {
    var s := a + [sep] + b;
    if a == [] {
      assert s[1..] == b;
    } else {
      assert s[1..] == a[1..] + [sep] + b;
      SplitFirst(a[1..], sep, b);
      assert [s[0]] + a[1..] == a;
    }
  }

  lemma {:induction false} SplitWhole(s: string, sep: char)
    requires sep !in s
    ensures Split(s, sep) == [s]
    decreases |s|
  {
    if s != [] {
      SplitWhole(s[1..], sep);
      assert [s[0]] + s[1..] == s;
    }
  }

  // ---------- Parsing and printing ----------

  function Finish(asset: string, amount: string): Parsed {
    match ParseU64(amount)
    case Valid(n) => Ok(AmountOfAsset(asset, n))
    case Invalid => Err(InvalidAmount)
  }

  function Parse(s: string): Parsed {
    if ':' in s then
      var parts := Split(s, ':');
      if |parts| != 2 then Err(NeedsValuePair) else Finish(parts[0], parts[1])
    else if ' ' in s then
      var parts := Split(s, ' ');
      if |parts| != 2 then Err(NeedsValuePair) else Finish(parts[1], parts[0])
    else Err(NeedsValuePair)
  }

  function ShowColon(v: AmountOfAsset): string { v.asset + [':'] + ShowNat(v.amount) }

  function ShowSpace(v: AmountOfAsset): string { ShowNat(v.amount) + [' '] + v.asset }

  lemma ShownAmountIsPlain(n: nat)
    ensures ':' !in ShowNat(n) && ' ' !in ShowNat(n)
  {
    ShowNatDigits(n);
  }

  /** An asset with no colon comes before the only colon. */
  lemma ParseColon(asset: string, n: nat)
    requires ':' !in asset && n < LIMIT
    ensures Parse(asset + [':'] + ShowNat(n)) == Ok(AmountOfAsset(asset, n))
  {
    ShownAmountIsPlain(n);
    SplitFirst(asset, ':', ShowNat(n));
    SplitWhole(ShowNat(n), ':');
    NumberRoundTrip(n);
  }

  lemma {:induction false} ParsedAssetHasNoColon(s: string)
    requires Parse(s).Ok?
    ensures ':' !in Parse(s).value.asset && Parse(s).value.amount < LIMIT
  {
    SplitParts(s, ':');
    SplitParts(s, ' ');
  }

  /** The colon form reads back exactly if the asset has no colon. */
  lemma ColonRoundTrip(v: AmountOfAsset)
    requires v.amount < LIMIT
    ensures Parse(ShowColon(v)) == Ok(v) <==> ':' !in v.asset
  {
    if ':' !in v.asset {
      ParseColon(v.asset, v.amount);
    } else if Parse(ShowColon(v)).Ok? {
      ParsedAssetHasNoColon(ShowColon(v));
    }
  }

  /** The space form reads back exactly if the asset has neither a colon nor a space. */
  lemma SpaceRoundTrip(v: AmountOfAsset)
    requires v.amount < LIMIT
    ensures Parse(ShowSpace(v)) == Ok(v) <==> ':' !in v.asset && ' ' !in v.asset
  {
    var s := ShowSpace(v);
    ShownAmountIsPlain(v.amount);
    if ':' in v.asset {
      if Parse(s).Ok? {
        ParsedAssetHasNoColon(s);
      }
    } else {
      assert ':' !in s;
      assert s[|ShowNat(v.amount)|] == ' ';
      SplitFirst(ShowNat(v.amount), ' ', v.asset);
      SplitParts(v.asset, ' ');
      if ' ' !in v.asset {
        SplitWhole(v.asset, ' ');
        NumberRoundTrip(v.amount);
      }
    }
  }

  /** Whatever was parsed, in either form, reads back from its colon form. */
  lemma ParsedReadsBack(s: string)
    requires Parse(s).Ok?
    ensures Parse(ShowColon(Parse(s).value)) == Parse(s)
  {
    ParsedAssetHasNoColon(s);
    ColonRoundTrip(Parse(s).value);
  }

  // ---------- What is refused ----------

  function Count(s: string, c: char): nat {
    if s == [] then 0 else (if s[0] == c then 1 else 0) + Count(s[1..], c)
  }

  lemma {:induction false} SplitCount(s: string, sep: char)
    ensures |Split(s, sep)| == Count(s, sep) + 1
    decreases |s|
  {
    if s != [] {
      SplitCount(s[1..], sep);
    }
  }

  lemma {:induction false} CountsIn(s: string, c: char)
    ensures Count(s, c) > 0 <==> c in s
    decreases |s|
  {
    if s != [] {
      CountsIn(s[1..], c);
    }
  }

  /** A pair is needed, and is there exactly if the text has one colon, or no colon and one space. */
  lemma PairNeeded(s: string)
    ensures Parse(s) == Err(NeedsValuePair) <==> !(Count(s, ':') == 1 || (Count(s, ':') == 0 && Count(s, ' ') == 1))
  {
    SplitCount(s, ':');
    SplitCount(s, ' ');
    CountsIn(s, ':');
    CountsIn(s, ' ');
  }

  /** With the amount behind the colon, or before the space. */
  lemma PairIsRead(asset: string, amount: string)
    requires ':' !in asset && ':' !in amount
    ensures Parse(asset + [':'] + amount) ==
            if ParseU64(amount).Valid? then Ok(AmountOfAsset(asset, ParseU64(amount).n)) else Err(InvalidAmount)
    ensures ' ' !in asset && ' ' !in amount ==>
              Parse(amount + [' '] + asset) == Parse(asset + [':'] + amount)
  {
    SplitFirst(asset, ':', amount);
    SplitWhole(amount, ':');
    if ' ' !in asset && ' ' !in amount {
      var s := amount + [' '] + asset;
      assert ':' !in s && s[|amount|] == ' ';
      SplitFirst(amount, ' ', asset);
      SplitWhole(asset, ' ');
    }
  }

  /** A plus sign and leading zeros do not matter; a lone sign, nothing, or any other character in
      it is no number. */
  lemma NumbersRead(n: nat, s: string, k: nat)
    ensures n < LIMIT ==> ParseU64(['+'] + ShowNat(n)) == Valid(n) && ParseU64(['0'] + ShowNat(n)) == Valid(n)
    ensures ParseU64([]) == Invalid && ParseU64(['+']) == Invalid
    ensures k < |s| && !IsDigit(s[k]) && !(k == 0 && s[k] == '+') ==> ParseU64(s) == Invalid
  {
    ShowNatDigits(n);
    var digits := ShowNat(n);
    assert (['+'] + digits)[1..] == digits;
    ZeroInFront(digits);
    if k < |s| && s[0] == '+' {
      assert k > 0 ==> s[1..][k - 1] == s[k];
    }
  }

  lemma {:induction false} ZeroInFront(s: string)
    requires AllDigits(s)
    ensures AllDigits(['0'] + s) && Value(['0'] + s) == Value(s)
    decreases |s|
  {
    var t := ['0'] + s;
    if s == [] {
      assert t[..|t| - 1] == [];
    } else {
      ZeroInFront(s[..|s| - 1]);
      assert t[..|t| - 1] == ['0'] + s[..|s| - 1];
    }
  }
}
