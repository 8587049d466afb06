/** Scoped IPv6 hosts such as `fe80::1%3` as host names and back (scoped_host.rs). */
module ScopedHost {
  import opened Wrappers
  import opened Text

  const SUFFIX: string := ".scoped.localsend.internal"
  const U32_LIMIT: nat := 0x1_0000_0000

  /** An IPv6 address as a 128-bit number. */
  type Address = a: nat | a < 0x1_0000_0000_0000_0000_0000_0000_0000_0000

  /** The standard library's printer and parser of IPv6 addresses. */
  datatype AddressCodec = AddressCodec(format: Address -> string, parse: string -> Option<Address>)

  predicate IsHexDigit(c: char) {
    '0' <= c <= '9' || 'a' <= c <= 'f'
  }

  /**
   * Printed addresses parse back and consist of hex digits and colons, or also
   * of dots for IPv4-mapped ones (sections 4 and 5 of RFC 5952).
   */
  ghost predicate Sound(codec: AddressCodec) {
    forall a: Address :: codec.parse(codec.format(a)) == Some(a)
      && forall c :: c in codec.format(a) ==> IsHexDigit(c) || c == ':' || c == '.'
  }

  // Decimal numbers

  function PrintNat(n: nat): string {
    if n < 10 then [('0' as int + n) as char] else PrintNat(n / 10) + [('0' as int + n % 10) as char]
  }

  predicate IsDigit(c: char) {
    '0' <= c <= '9'
  }

  predicate AllDigits(s: string) {
    forall i :: 0 <= i < |s| ==> IsDigit(s[i])
  }

  function DigitsValue(s: string): nat
    requires AllDigits(s)
  {
    if s == "" then 0 else 10 * DigitsValue(s[..|s| - 1]) + (s[|s| - 1] as int - '0' as int)
  }

  /** `str::parse::<u32>`: an optional plus sign, digits, and no overflow. */
  function ParseU32(s: string): Option<nat> {
    var digits := if s != "" && s[0] == '+' then s[1..] else s;
    if digits != "" && AllDigits(digits) && DigitsValue(digits) < U32_LIMIT then Some(DigitsValue(digits)) else None
  }

  lemma {:induction false} PrintedDigits(n: nat)
    ensures var s := PrintNat(n); s != "" && AllDigits(s) && DigitsValue(s) == n
    decreases n
  {
    if n >= 10 {
      PrintedDigits(n / 10);
      var s := PrintNat(n);
      assert s[..|s| - 1] == PrintNat(n / 10);
    } else {
      var s := PrintNat(n);
      assert s[..|s| - 1] == "";
    }
  }

  /** Every u32 survives printing and parsing. */
  lemma {:induction false} ParsePrinted(n: nat)
    requires n < U32_LIMIT
    ensures ParseU32(PrintNat(n)) == Some(n)
  {
    PrintedDigits(n);
    assert IsDigit(PrintNat(n)[0]);
  }

  function Zeros(k: nat): string {
    seq(k, i requires 0 <= i < k => '0')
  }

  lemma {:induction false} LeadingZeros(k: nat, digits: string)
    requires AllDigits(digits)
    ensures AllDigits(Zeros(k) + digits) && DigitsValue(Zeros(k) + digits) == DigitsValue(digits)
    decreases k + |digits|
  {
    var s := Zeros(k) + digits;
    assert AllDigits(s);
    if digits != "" {
      var n := |digits| - 1;
      assert s[..|s| - 1] == Zeros(k) + digits[..n];
      LeadingZeros(k, digits[..n]);
    } else if k > 0 {
      assert s[..|s| - 1] == Zeros(k - 1) + digits;
      LeadingZeros(k - 1, digits);
    }
  }

  /** A string of digits is leading zeros and the number printed. */
  lemma {:induction false} DigitsForm(s: string) returns (k: nat)
    requires s != "" && AllDigits(s)
    ensures s == Zeros(k) + PrintNat(DigitsValue(s))
    decreases |s|
  {
    var init, d := s[..|s| - 1], s[|s| - 1] as int - '0' as int;
    assert s == init + [s[|s| - 1]];
    if init == "" {
      k := 0;
      assert DigitsValue(s) == d;
    } else {
      k := DigitsForm(init);
      if DigitsValue(init) == 0 {
        assert init == Zeros(k) + "0";
        k := k + 1;
        assert init == Zeros(k);
      }
    }
  }

  /** An optional plus sign, leading zeros and the number printed. */
  predicate Spells(s: string, plus: bool, k: nat, n: nat) {
    s == (if plus then "+" else "") + (Zeros(k) + PrintNat(n))
  }

  ghost predicate IsSpelling(s: string, n: nat) {
    exists plus, k :: Spells(s, plus, k, n)
  }

  lemma {:induction false} SpelledParses(s: string, plus: bool, k: nat, n: nat)
    requires Spells(s, plus, k, n) && n < U32_LIMIT
    ensures ParseU32(s) == Some(n)
  {
    var digits := Zeros(k) + PrintNat(n);
    PrintedDigits(n);
    LeadingZeros(k, PrintNat(n));
    hide PrintNat, Zeros, DigitsValue;
    assert IsDigit(digits[0]);
    if plus {
      assert s[0] == '+' && s[1..] == digits;
    } else {
      assert s == digits;
    }
  }

  /** A string is read as a 32-bit number exactly if it spells it; everything else, like a zone name, is no number. */
  lemma {:induction false} ParseU32Iff(s: string, n: nat)
    ensures ParseU32(s) == Some(n) <==> n < U32_LIMIT && IsSpelling(s, n)
  {
    if ParseU32(s) == Some(n) {
      var plus := s[0] == '+';
      var digits := if plus then s[1..] else s;
      var k := DigitsForm(digits);
      hide PrintNat, Zeros, DigitsValue;
      assert s == (if plus then "+" else "") + digits;
      assert Spells(s, plus, k, n);
    } else if n < U32_LIMIT && IsSpelling(s, n) {
      var plus, k :| Spells(s, plus, k, n);
      SpelledParses(s, plus, k, n);
    }
  }

  // The codec

  /** The address and scope a host stands for. */
  function Scoped(codec: AddressCodec, host: string): Option<(Address, nat)> {
    match SplitOnce(host, '%')
    case None => None
    case Some((address, scope)) =>
      match (codec.parse(address), ParseU32(scope))
      case (Some(a), Some(n)) => Some((a, n))
      case _ => None
  }

  function HostName(codec: AddressCodec, address: Address, scope: nat): string {
    Replace(codec.format(address), ':', '-') + "s" + PrintNat(scope) + SUFFIX
  }

  function Encode(codec: AddressCodec, host: string): Option<string> {
    match Scoped(codec, host)
    case None => None
    case Some((address, scope)) =>
      if '.' in codec.format(address) then None else Some(HostName(codec, address, scope))
  }

  function StripSuffix(name: string, suffix: string): Option<string> {
    if |name| >= |suffix| && name[|name| - |suffix|..] == suffix then Some(name[..|name| - |suffix|]) else None
  }

  function Decode(codec: AddressCodec, name: string): Option<(Address, nat)> {
    match StripSuffix(name, SUFFIX)
    case None => None
    case Some(encoded) =>
      match SplitOnce(encoded, 's')
      case None => None
      case Some((address, scope)) =>
        match (codec.parse(Replace(address, '-', ':')), ParseU32(scope))
        case (Some(a), Some(n)) => Some((a, n))
        case _ => None
  }

  /** The host is an address, a percent sign and a spelled scope. */
  ghost predicate Names(codec: AddressCodec, host: string, text: string, address: Address, scope: nat) {
    && '%' !in text && codec.parse(text) == Some(address) && scope < U32_LIMIT
    && text + "%" <= host && IsSpelling(host[|text| + 1..], scope)
  }

  lemma {:induction false} ScopedIff(codec: AddressCodec, host: string, address: Address, scope: nat)
    ensures Scoped(codec, host) == Some((address, scope)) <==> exists text :: Names(codec, host, text, address, scope)
  {
    hide ParseU32, IsSpelling, SplitOnce;
    forall s: string ensures ParseU32(s) == Some(scope) <==> scope < U32_LIMIT && IsSpelling(s, scope) {
      ParseU32Iff(s, scope);
    }
    if Scoped(codec, host) == Some((address, scope)) {
      var (text, zone) := SplitOnce(host, '%').value;
      assert host[|text| + 1..] == zone;
      assert Names(codec, host, text, address, scope);
    }
    if text :| Names(codec, host, text, address, scope) {
      var zone := host[|text| + 1..];
      assert host == text + ['%'] + zone;
      SplitOnceIsUnique(text, '%', zone);
    }
  }

  /** The name has dashes for colons, the letter s, the scope and the suffix. */
  predicate IsNameOf(codec: AddressCodec, name: string, address: Address, scope: nat) {
    var printed := codec.format(address);
    && '.' !in printed && |printed| <= |name|
    && (forall i :: 0 <= i < |printed| ==> name[i] == if printed[i] == ':' then '-' else printed[i])
    && name[|printed|..] == "s" + PrintNat(scope) + ".scoped.localsend.internal"
  }

  /** A host is encoded exactly if it names an address and a scope, and the address is not IPv4-mapped. */
  lemma {:induction false} EncodeIff(codec: AddressCodec, host: string, name: string)
    ensures Encode(codec, host) == Some(name) <==>
      exists text, address: Address, scope: nat ::
        Names(codec, host, text, address, scope) && IsNameOf(codec, name, address, scope)
  {
    hide Names, IsNameOf, Scoped;
    if Encode(codec, host) == Some(name) {
      var (address, scope) := Scoped(codec, host).value;
      ScopedIff(codec, host, address, scope);
      var text :| Names(codec, host, text, address, scope);
      NameOfIff(codec, name, address, scope);
    }
    if text, address: Address, scope: nat :|
      Names(codec, host, text, address, scope) && IsNameOf(codec, name, address, scope)
    {
      ScopedIff(codec, host, address, scope);
      NameOfIff(codec, name, address, scope);
    }
  }

  lemma {:induction false} NameOfIff(codec: AddressCodec, name: string, address: Address, scope: nat)
    ensures IsNameOf(codec, name, address, scope) <==>
      '.' !in codec.format(address) && name == HostName(codec, address, scope)
  {
    hide PrintNat;
    var printed, rest := codec.format(address), "s" + PrintNat(scope) + SUFFIX;
    assert HostName(codec, address, scope) == Replace(printed, ':', '-') + rest;
    if IsNameOf(codec, name, address, scope) {
      assert name[..|printed|] == Replace(printed, ':', '-');
      assert name == name[..|printed|] + name[|printed|..];
    }
  }

  lemma {:induction false} ReplaceTwice(s: string, from: char, to: char)
    requires to !in s
    ensures Replace(Replace(s, from, to), to, from) == s
  {
    forall i | 0 <= i < |s| ensures Replace(Replace(s, from, to), to, from)[i] == s[i] {
      assert s[i] in s;
    }
  }

  lemma {:induction false} StripAdded(s: string, suffix: string)
    ensures StripSuffix(s + suffix, suffix) == Some(s)
  {
  }

  /** A synthetic name decodes to the address and scope it was made from. */
  lemma {:induction false} DecodeHostName(codec: AddressCodec, address: Address, scope: nat)
    requires Sound(codec) && scope < U32_LIMIT
    ensures Decode(codec, HostName(codec, address, scope)) == Some((address, scope))
  {
    hide PrintNat, ParseU32, StripSuffix, SplitOnce, Replace;
    var printed := codec.format(address);
    var dashed := Replace(printed, ':', '-');
    assert codec.parse(printed) == Some(address);
    assert forall c :: c in printed ==> c != '-' && c != 's';
    NoNewLetter(printed, ':', '-', 's');
    StripAdded(dashed + "s" + PrintNat(scope), SUFFIX);
    SplitOnceIsUnique(dashed, 's', PrintNat(scope));
    ReplaceTwice(printed, ':', '-');
    ParsePrinted(scope);
  }

  lemma {:induction false} NoNewLetter(s: string, from: char, to: char, c: char)
    requires c !in s && c != to
    ensures c !in Replace(s, from, to)
  {
    forall i | 0 <= i < |s| ensures Replace(s, from, to)[i] != c {
      assert s[i] in s;
    }
  }

  lemma {:induction false} ScopeIsU32(codec: AddressCodec, host: string)
    ensures Scoped(codec, host).Some? ==> Scoped(codec, host).value.1 < U32_LIMIT
  {
  }

  /** Whatever can be encoded decodes to what it stands for, so encoding never confuses two hosts. */
  lemma {:induction false} DecodeReversesEncode(codec: AddressCodec, host: string)
    requires Sound(codec) && Encode(codec, host).Some?
    ensures Decode(codec, Encode(codec, host).value) == Scoped(codec, host) && Scoped(codec, host).Some?
  {
    hide Decode, HostName;
    ScopeIsU32(codec, host);
    var (address, scope) := Scoped(codec, host).value;
    DecodeHostName(codec, address, scope);
  }

  lemma {:induction false} EncodeIsInjective(codec: AddressCodec, a: string, b: string)
    requires Sound(codec) && Encode(codec, a).Some? && Encode(codec, a) == Encode(codec, b)
    ensures Scoped(codec, a) == Scoped(codec, b)
  {
    DecodeReversesEncode(codec, a);
    DecodeReversesEncode(codec, b);
  }

  /** Every address that is not IPv4-mapped can be encoded with every scope, and comes back. */
  lemma {:induction false} EveryScopedAddressRoundTrips(codec: AddressCodec, address: Address, scope: nat)
    requires Sound(codec) && scope < U32_LIMIT && '.' !in codec.format(address)
    ensures var name := Encode(codec, codec.format(address) + "%" + PrintNat(scope));
      name.Some? && Decode(codec, name.value) == Some((address, scope))
  {
    hide PrintNat, ParseU32, SplitOnce, Decode, HostName;
    assert codec.parse(codec.format(address)) == Some(address);
    assert '%' !in codec.format(address);
    SplitOnceIsUnique(codec.format(address), '%', PrintNat(scope));
    ParsePrinted(scope);
    DecodeHostName(codec, address, scope);
  }

  /** The name is an address with dashes, the letter s, a spelled scope and the suffix. */
  ghost predicate Encodes(codec: AddressCodec, name: string, text: string, zone: string, address: Address, scope: nat) {
    && 's' !in text && name == text + "s" + zone + ".scoped.localsend.internal"
    && scope < U32_LIMIT && IsSpelling(zone, scope)
    && codec.parse(Replace(text, '-', ':')) == Some(address)
  }

  /** A name is decoded exactly if it has this form; every other host name is left alone. */
  lemma {:induction false} DecodeIff(codec: AddressCodec, name: string, address: Address, scope: nat)
    ensures Decode(codec, name) == Some((address, scope)) <==>
      exists text, zone :: Encodes(codec, name, text, zone, address, scope)
  {
    hide ParseU32, IsSpelling, SplitOnce, Replace;
    forall s: string ensures ParseU32(s) == Some(scope) <==> scope < U32_LIMIT && IsSpelling(s, scope) {
      ParseU32Iff(s, scope);
    }
    if Decode(codec, name) == Some((address, scope)) {
      var encoded := StripSuffix(name, SUFFIX).value;
      var (text, zone) := SplitOnce(encoded, 's').value;
      assert name == encoded + SUFFIX && encoded == text + "s" + zone;
      assert Encodes(codec, name, text, zone, address, scope);
    }
    if text, zone :| Encodes(codec, name, text, zone, address, scope) {
      StripAdded(text + "s" + zone, SUFFIX);
      SplitOnceIsUnique(text, 's', zone);
    }
  }
}
