/** The run's settings: the values the command line supplies, the key/value
    store the application keeps them in (`set`, `get`, `enabled`), and the
    configuration check that stops the program before any request is made
    (briarbush.js, lines 33-40 and 108-158).
 */
module Settings {
  import JsStrings
  import Results

  /** The JavaScript values a setting can hold. Numbers are integers here:
      the number settings this model reads are the ad ids, and a fractional
      value such as the `--interval` hours is outside it. */
  datatype JsValue =
    | Undefined
    | Null
    | Bool(b: bool)
    | Num(n: int)
    | Str(s: string)
    | Arr(items: seq<JsValue>)
    | Obj(fields: map<string, JsValue>)

  /** JavaScript truthiness (`Boolean(v)`, `if (v)`): `undefined`, `null`,
      `false`, `0` and `""` are falsy; arrays and objects are always truthy. */
  predicate Truthy(v: JsValue) {
    match v
    case Undefined => false
    case Null => false
    case Bool(b) => b
    case Num(n) => n != 0
    case Str(s) => s != ""
    case Arr(_) => true
    case Obj(_) => true
  }

  /** Reading a property `v[name]`: `None` stands for the TypeError thrown
      when `v` is `undefined` or `null`; a missing property reads as `undefined`. */
  function Property(v: JsValue, name: string): Results.Option<JsValue> {
    match v
    case Undefined => Results.None
    case Null => Results.None
    case Obj(fields) => Results.Some(if name in fields then fields[name] else Undefined)
    case _ => Results.Some(Undefined)
  }

  /** The application's settings object. */
  type Store = map<string, JsValue>

  /** `app.get(key)`, that is `app.set(key)` with one argument: the stored value,
      `undefined` for a key never set. */
  function Get(store: Store, key: string): JsValue {
    if key in store then store[key] else Undefined
  }

  /** `app.set(key, value)`: afterwards `key` reads as `value` and every
      other key reads as before. */
  function Set(store: Store, key: string, value: JsValue): (r: Store)
    ensures Get(r, key) == value
    ensures forall k :: k != key ==> Get(r, k) == Get(store, k)
    ensures r.Keys == store.Keys + {key}
  {
    store[key := value]
  }

  /** `app.enabled(key)`: the truthiness of the stored value. */
  function Enabled(store: Store, key: string): bool {
    Truthy(Get(store, key))
  }

  /** Setting a key decides whether that key is enabled, and only that key. */
  lemma EnabledAfterSet(store: Store, key: string, value: JsValue, other: string)
    ensures Enabled(Set(store, key, value), key) <==> Truthy(value)
    ensures other != key ==> (Enabled(Set(store, key, value), other) <==> Enabled(store, other))
  {
  }

  /** What `configCheck` does with the settings. */
  datatype ConfigOutcome =
      /** All three checks passed; the program goes on. */
    | Passed
      /** `adList` is falsy: warns "No Ads To Process", exits with status 0. */
    | NoAds
      /** `email.to` is falsy: warns "No Email Address Supplied", exits with status 0. */
    | NoEmailAddress
      /** `dealer` is falsy: warns "No Dealer Info Supplied", exits with status 0. */
    | NoDealer
      /** `email` itself is `undefined` or `null`: reading `.to` throws. */
    | EmailUnreadable

  /** The process exit status an outcome leads to; `None` when the program continues.
      An uncaught exception ends a Node.js process with status 1. */
  function ExitStatus(o: ConfigOutcome): Results.Option<int> {
    match o
    case Passed => Results.None
    case EmailUnreadable => Results.Some(1)
    case _ => Results.Some(0)
  }

  /** `app.configCheck()`: the ad list, then `email.to`, then the dealer; the
      first one missing decides the outcome. */
  function ConfigCheck(store: Store): (r: ConfigOutcome)
    ensures r == NoAds <==> !Truthy(Get(store, "adList"))
    ensures r == EmailUnreadable <==>
      Truthy(Get(store, "adList")) && Property(Get(store, "email"), "to").None?
    ensures r == NoEmailAddress <==>
      && Truthy(Get(store, "adList"))
      && Property(Get(store, "email"), "to").Some?
      && !Truthy(Property(Get(store, "email"), "to").value)
    ensures r == Passed <==>
      && Truthy(Get(store, "adList"))
      && Property(Get(store, "email"), "to").Some?
      && Truthy(Property(Get(store, "email"), "to").value)
      && Truthy(Get(store, "dealer"))
  {
    if !Truthy(Get(store, "adList")) then NoAds
    else
      match Property(Get(store, "email"), "to")
      case None => EmailUnreadable
      case Some(to) =>
        if !Truthy(to) then NoEmailAddress
        else if !Truthy(Get(store, "dealer")) then NoDealer
        else Passed
  }

  /** The check reads three settings and nothing else: setting any other key
      cannot change its outcome. */
  lemma ConfigCheckIgnoresOtherSettings(store: Store, key: string, value: JsValue)
    requires key != "adList" && key != "email" && key != "dealer"
    ensures ConfigCheck(Set(store, key, value)) == ConfigCheck(store)
  {
  }

  /** A missing item never leads to a failing exit status: the warnings all exit with 0. */
  lemma MissingItemExitsCleanly(store: Store)
    requires ConfigCheck(store) != Passed
    requires Get(store, "email").Obj?
    ensures ExitStatus(ConfigCheck(store)) == Results.Some(0)
  {
  }

  /** `parseEmailList`: the `--email-to` value split on commas. */
  function ParseEmailList(val: string): (r: seq<string>)
    ensures |r| == JsStrings.CountChar(val, ',') + 1
    ensures forall i :: 0 <= i < |r| ==> ',' !in r[i]
    ensures JsStrings.Join(r, ',') == val
  {
    JsStrings.JoinSplit(val, ',');
    JsStrings.Split(val, ',')
  }

  /** Joining addresses with commas and parsing the result gives the addresses back. */
  lemma EmailListRoundTrip(addresses: seq<string>)
    requires |addresses| >= 1
    requires forall i :: 0 <= i < |addresses| ==> ',' !in addresses[i]
    ensures ParseEmailList(JsStrings.Join(addresses, ',')) == addresses
  {
    JsStrings.SplitJoin(addresses, ',');
  }

  predicate IsDigit(c: char) {
    '0' <= c <= '9'
  }

  predicate AllDigits(s: string) {
    forall i :: 0 <= i < |s| ==> IsDigit(s[i])
  }

  /** `Number(s)` for a string of decimal digits; `Number("")` is 0. */
  function DecimalValue(s: string): nat
    requires AllDigits(s)
    decreases |s|
  {
    if s == [] then 0
    else DecimalValue(s[..|s| - 1]) * 10 + (s[|s| - 1] as int - '0' as int)
  }

  /** The decimal numeral of `n`, without leading zeros. */
  function DecimalString(n: nat): (r: string)
    ensures |r| >= 1 && AllDigits(r)
    decreases n
  {
    (if n < 10 then [] else DecimalString(n / 10)) + ['0' + (n % 10) as char]
  }

  /** Reading back a written numeral gives the number. */
  lemma {:induction false} DecimalRoundTrip(n: nat)
    ensures DecimalValue(DecimalString(n)) == n
    decreases n
  {
    var s := DecimalString(n);
    assert s[..|s| - 1] == (if n < 10 then [] else DecimalString(n / 10));
    assert n == (n / 10) * 10 + n % 10;
    if n >= 10 {
      DecimalRoundTrip(n / 10);
    }
  }

  /** The command-line `--ads` value in its usual form: decimal digits and commas only. */
  predicate IsAdsArgument(val: string) {
    forall i :: 0 <= i < |val| ==> val[i] == ',' || IsDigit(val[i])
  }

  /** 2^53: every integer up to this one is a double. */
  const TwoTo53: nat := 0x20000000000000
  const TwoTo52: nat := 0x10000000000000
  /** 2^1024, where a binary64 exponent runs out. */
  const TwoTo1024: nat := 0x10000000000000000000000000000000000000000000000000000000000000000000000000000000000000000000000000000000000000000000000000000000000000000000000000000000000000000000000000000000000000000000000000000000000000000000000000000000000000000000000000000000000000000

  /** `u` is 2^k for some k. */
  predicate IsPowerOfTwo(u: nat)
    decreases u
  {
    u == 1 || (u >= 2 && u % 2 == 0 && IsPowerOfTwo(u / 2))
  }

  /** Of two different powers of two the larger is at least twice the smaller. */
  lemma {:induction false} PowersOfTwoApart(u: nat, v: nat)
    requires IsPowerOfTwo(u) && IsPowerOfTwo(v) && u < v
    ensures 2 * u <= v
    decreases u
  {
    if u != 1 {
      PowersOfTwoApart(u / 2, v / 2);
    }
  }

  /** The gap between consecutive doubles around `n`: 1 below 2^53, and
      doubling with every binade above, so that `n` lies between 2^52 and
      2^53 gaps (a 53-bit significand). */
  function Ulp(n: nat): (u: nat)
    ensures u >= 1 && IsPowerOfTwo(u)
    ensures n < TwoTo53 ==> u == 1
    ensures n >= TwoTo53 ==> TwoTo52 * u <= n < TwoTo53 * u
    decreases n
  {
    if n < TwoTo53 then 1 else 2 * Ulp(n / 2)
  }

  /** Above 2^53 the gap is the only power of two that puts `n` between 2^52
      and 2^53 gaps: the conditions `Ulp` satisfies determine it. */
  lemma UlpUnique(n: nat, u: nat)
    requires n >= TwoTo53 && IsPowerOfTwo(u) && TwoTo52 * u <= n < TwoTo53 * u
    ensures u == Ulp(n)
  {
    var w := Ulp(n);
    if u < w {
      PowersOfTwoApart(u, w);
    } else if w < u {
      PowersOfTwoApart(w, u);
    }
  }

  /** The double nearest to `n`, ties going to the even significand, as the
      conversion of a decimal numeral to a Number rounds (section 7.1.4.1 of
      ECMA-262 and section 4.3.1 of IEEE 754-2008), before the exponent
      range is taken into account. */
  function RoundToDouble(n: nat): (r: nat)
    ensures r % Ulp(n) == 0
    ensures n <= r ==> 2 * (r - n) <= Ulp(n)
    ensures r <= n ==> 2 * (n - r) <= Ulp(n)
    ensures 2 * (r - n) == Ulp(n) || 2 * (n - r) == Ulp(n) ==> (r / Ulp(n)) % 2 == 0
    ensures n <= TwoTo53 ==> r == n
  {
    var u := Ulp(n);
    var up := 2 * (n % u) > u || (2 * (n % u) == u && (n / u) % 2 == 1);
    NearestMultiple(n, u, up);
    ExactBelowTwoTo53(n);
    if up then (n / u + 1) * u else (n / u) * u
  }

  /** Rounding `n` down or up to a multiple of `u`, going up exactly when the
      remainder is past half of `u`, or half of it with an odd quotient,
      lands on the nearest multiple, and on an even one in a tie. */
  lemma NearestMultiple(n: nat, u: nat, up: bool)
    requires u >= 1
    requires up <==> 2 * (n % u) > u || (2 * (n % u) == u && (n / u) % 2 == 1)
    ensures var r := if up then (n / u + 1) * u else (n / u) * u;
      && r % u == 0
      && (n <= r ==> 2 * (r - n) <= u)
      && (r <= n ==> 2 * (n - r) <= u)
      && (2 * (r - n) == u || 2 * (n - r) == u ==> (r / u) % 2 == 0)
      && (n % u == 0 ==> r == n)
  {
    var q, m := n / u, n % u;
    MultipleOf(q, u);
    MultipleOf(q + 1, u);
    assert n == q * u + m;
    assert (q + 1) * u == q * u + u;
  }

  /** Numerals up to 2^53 need no rounding. */
  lemma ExactBelowTwoTo53(n: nat)
    ensures n <= TwoTo53 ==> n % Ulp(n) == 0
  {
    if n == TwoTo53 {
      assert Ulp(n) == 2;
    }
  }

  /** `k * u` divides by `u` exactly, with quotient `k`. */
  lemma MultipleOf(k: nat, u: nat)
    requires u >= 1
    ensures (k * u) % u == 0 && (k * u) / u == k
  {
    var q, m := (k * u) / u, (k * u) % u;
    assert (k - q) * u == m;
    if k - q >= 1 {
      AtLeastOnce(k - q, u);
    } else if k - q <= -1 {
      AtLeastOnce(q - k, u);
    }
  }

  lemma AtLeastOnce(d: int, u: int)
    requires d >= 1 && u >= 1
    ensures d * u >= u
  {
    assert d * u == (d - 1) * u + u;
  }

  /** What `Number` makes of one piece: the double a decimal numeral rounds
      to, `Infinity` for a numeral too large for any double, or, for any
      other text (signs, spaces, hexadecimal, exponents, `NaN`), the piece
      itself, whose number is not computed here. */
  datatype AdId = Decimal(n: nat) | Infinite | NotDecimal(text: string)

  function ToNumber(piece: string): (r: AdId)
    ensures r.NotDecimal? <==> !AllDigits(piece)
    ensures r.NotDecimal? ==> r.text == piece
    ensures r.Infinite? <==> AllDigits(piece) && RoundToDouble(DecimalValue(piece)) >= TwoTo1024
    ensures r.Decimal? ==> AllDigits(piece) && r.n == RoundToDouble(DecimalValue(piece)) < TwoTo1024
    ensures AllDigits(piece) && DecimalValue(piece) <= TwoTo53 ==> r == Decimal(DecimalValue(piece))
  {
    if AllDigits(piece) then
      var v := RoundToDouble(DecimalValue(piece));
      if v >= TwoTo1024 then Infinite else Decimal(v)
    else NotDecimal(piece)
  }

  /** `parseAdsList`: the `--ads` value split on commas, each piece converted
      with `Number`. There is one id per comma-separated piece, in order. */
  function ParseAdsList(val: string): (r: seq<AdId>)
    ensures |r| == JsStrings.CountChar(val, ',') + 1
    ensures forall i :: 0 <= i < |r| ==> r[i] == ToNumber(JsStrings.Split(val, ',')[i])
  {
    var pieces := JsStrings.Split(val, ',');
    seq(|pieces|, i requires 0 <= i < |pieces| => ToNumber(pieces[i]))
  }

  /** In the usual form every piece is a decimal numeral, so every id is a
      number (possibly rounded, or `Infinity`), never unconverted text. */
  lemma AdsArgumentIsDecimal(val: string)
    requires IsAdsArgument(val)
    ensures forall i :: 0 <= i < |ParseAdsList(val)| ==> !ParseAdsList(val)[i].NotDecimal?
  {
    PiecesAreDigits(val);
  }

  /** Every piece of a split ads argument is a digit string. */
  lemma {:induction false} PiecesAreDigits(val: string)
    requires IsAdsArgument(val)
    ensures forall i :: 0 <= i < |JsStrings.Split(val, ',')| ==> AllDigits(JsStrings.Split(val, ',')[i])
    decreases |val|
  {
    if val != [] {
      assert IsAdsArgument(val[1..]) by {
        forall i | 0 <= i < |val[1..]| ensures val[1..][i] == ',' || IsDigit(val[1..][i]) {
          assert val[1..][i] == val[i + 1];
        }
      }
      PiecesAreDigits(val[1..]);
      var rest := JsStrings.Split(val[1..], ',');
      if val[0] != ',' {
        var first := [val[0]] + rest[0];
        assert AllDigits(first) by {
          forall i | 0 <= i < |first| ensures IsDigit(first[i]) {
            if i > 0 { assert first[i] == rest[0][i - 1]; }
          }
        }
      }
    }
  }

  /** The `--ads` argument that lists `ids` in decimal, separated by commas:
      it has the usual form and splits back into the numerals. */
  function AdsArgument(ids: seq<nat>): (val: string)
    requires |ids| >= 1
    ensures IsAdsArgument(val)
    ensures JsStrings.Split(val, ',') == seq(|ids|, i requires 0 <= i < |ids| => DecimalString(ids[i]))
  {
    var numerals := seq(|ids|, i requires 0 <= i < |ids| => DecimalString(ids[i]));
    forall i | 0 <= i < |numerals| ensures ',' !in numerals[i] {
      assert AllDigits(numerals[i]);
      assert forall j :: 0 <= j < |numerals[i]| ==> numerals[i][j] != ',';
    }
    JoinOfDigitsIsAdsArgument(numerals);
    JsStrings.SplitJoin(numerals, ',');
    JsStrings.Join(numerals, ',')
  }

  /** Ad ids up to 2^53 written in decimal and joined with commas parse back
      to the same ids. */
  lemma AdsListRoundTrip(ids: seq<nat>)
    requires |ids| >= 1
    requires forall i :: 0 <= i < |ids| ==> ids[i] <= TwoTo53
    ensures ParseAdsList(AdsArgument(ids)) == seq(|ids|, i requires 0 <= i < |ids| => Decimal(ids[i]))
  {
    var r := ParseAdsList(AdsArgument(ids));
    forall i | 0 <= i < |ids| ensures r[i] == Decimal(ids[i]) {
      DecimalRoundTrip(ids[i]);
    }
  }

  /** One past 2^53 is the first id `Number` changes: it reads back as 2^53,
      a different ad. */
  lemma LargeIdIsRounded()
    ensures ParseAdsList(AdsArgument([TwoTo53 + 1])) == [Decimal(TwoTo53)]
  {
    DecimalRoundTrip(TwoTo53 + 1);
    assert Ulp(TwoTo53 + 1) == 2;
  }

  /** The reading the ids need, since each one names an ad in a request
      path: the exact value of a decimal numeral. It differs from `Number`
      only on numerals above 2^53. */
  function ExactNumber(piece: string): (r: AdId)
    ensures r.NotDecimal? <==> !AllDigits(piece)
    ensures r.NotDecimal? ==> r.text == piece
    ensures r != ToNumber(piece) ==> r.Decimal? && r.n > TwoTo53
  {
    if AllDigits(piece) then Decimal(DecimalValue(piece)) else NotDecimal(piece)
  }

  /** `parseAdsList` with each piece read exactly. */
  function ParseAdIdsExact(val: string): (r: seq<AdId>)
    ensures |r| == JsStrings.CountChar(val, ',') + 1
    ensures forall i :: 0 <= i < |r| ==> r[i] == ExactNumber(JsStrings.Split(val, ',')[i])
  {
    var pieces := JsStrings.Split(val, ',');
    seq(|pieces|, i requires 0 <= i < |pieces| => ExactNumber(pieces[i]))
  }

  /** Every list of ad ids written in decimal parses back to the same ids. */
  lemma ExactAdsListRoundTrip(ids: seq<nat>)
    requires |ids| >= 1
    ensures ParseAdIdsExact(AdsArgument(ids)) == seq(|ids|, i requires 0 <= i < |ids| => Decimal(ids[i]))
  {
    var r := ParseAdIdsExact(AdsArgument(ids));
    forall i | 0 <= i < |ids| ensures r[i] == Decimal(ids[i]) {
      DecimalRoundTrip(ids[i]);
    }
  }

  /** The two readings agree on an argument whose numerals are all at most 2^53. */
  lemma ReadingsAgreeUpToTwoTo53(val: string)
    requires forall i :: 0 <= i < |JsStrings.Split(val, ',')| ==>
      var piece := JsStrings.Split(val, ',')[i]; AllDigits(piece) ==> DecimalValue(piece) <= TwoTo53
    ensures ParseAdsList(val) == ParseAdIdsExact(val)
  {
  }

  lemma {:induction false} JoinOfDigitsIsAdsArgument(pieces: seq<string>)
    requires forall i :: 0 <= i < |pieces| ==> AllDigits(pieces[i])
    ensures IsAdsArgument(JsStrings.Join(pieces, ','))
    decreases |pieces|
  {
    if |pieces| > 1 {
      JoinOfDigitsIsAdsArgument(pieces[1..]);
      var rest := JsStrings.Join(pieces[1..], ',');
      var s := pieces[0] + [','] + rest;
      forall i | 0 <= i < |s| ensures s[i] == ',' || IsDigit(s[i]) {
        if i < |pieces[0]| {
          assert s[i] == pieces[0][i];
        } else if i > |pieces[0]| {
          assert s[i] == rest[i - |pieces[0]| - 1];
        }
      }
    } else if |pieces| == 1 {
      assert AllDigits(pieces[0]);
    }
  }
}
