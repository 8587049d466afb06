/** Making file names from peers legal on the target file system (filename.rs). */
module FileNames {
  import opened Wrappers
  import opened Text

  datatype Rules = Windows | Hfs | Fat | Posix | Universal

  datatype Options = Options(replacement: string, placeholder: string)

  const DEFAULTS: Options := Options("_", "untitled")

  const MAX_LEN: nat := 255

  const RESERVED_NAMES: seq<string> := [
    "con", "prn", "aux", "nul", "com1", "com2", "com3", "com4", "com5", "com6", "com7", "com8",
    "com9", "lpt1", "lpt2", "lpt3", "lpt4", "lpt5", "lpt6", "lpt7", "lpt8", "lpt9"]

  predicate IsControl(c: char) {
    c as int < 0x20 || 0x7f <= c as int < 0xa0
  }

  predicate IllegalOnWindows(c: char) {
    c == '<' || c == '>' || c == ':' || c == '"' || c == '/' || c == '\\' || c == '|' || c == '?' || c == '*'
  }

  predicate IllegalOnHfs(c: char) {
    c == '/' || c == ':'
  }

  predicate IsIllegal(rules: Rules, c: char) {
    || IsControl(c)
    || match rules
       case Windows => IllegalOnWindows(c)
       case Fat => IllegalOnWindows(c)
       case Hfs => IllegalOnHfs(c)
       case Posix => c == '/'
       case Universal => IllegalOnWindows(c) || IllegalOnHfs(c)
  }

  predicate WindowsLike(rules: Rules) {
    rules.Windows? || rules.Universal?
  }

  predicate IsRelative(name: string) {
    name == "." || name == ".."
  }

  /** The part before the first dot. */
  function Stem(name: string): string {
    if name == [] || name[0] == '.' then [] else [name[0]] + Stem(name[1..])
  }

  function FindReserved(stem: string, names: seq<string>): Option<string> {
    if names == [] then None
    else if EqIgnoreAsciiCase(stem, names[0]) then Some(names[0])
    else FindReserved(stem, names[1..])
  }

  /** The reserved device name the stem of `name` is, if any. */
  function ReservedPrefix(name: string): Option<string> {
    FindReserved(Stem(name), RESERVED_NAMES)
  }

  predicate EndsWithRun(name: string) {
    name != [] && (name[|name| - 1] == '.' || name[|name| - 1] == ' ')
  }

  /** Whether `name` is legal under `rules`. */
  predicate IsValid(name: string, rules: Rules) {
    && name != [] && ByteLength(name) <= MAX_LEN && !IsRelative(name)
    && (forall c :: c in name ==> !IsIllegal(rules, c))
    && (WindowsLike(rules) ==> !EndsWithRun(name) && ReservedPrefix(name).None?)
  }

  // Steps

  function ReplaceIllegal(name: string, rules: Rules, replacement: string): string {
    if name == [] then []
    else
      var last := name[|name| - 1];
      ReplaceIllegal(name[..|name| - 1], rules, replacement) + if IsIllegal(rules, last) then replacement else [last]
  }

  function TrimRun(name: string): string {
    if EndsWithRun(name) then TrimRun(name[..|name| - 1]) else name
  }

  /** A trailing run of dots and spaces becomes one replacement. */
  function CollapseRun(name: string, replacement: string): string {
    if EndsWithRun(name) then TrimRun(name) + replacement else name
  }

  function ReplaceReserved(name: string, replacement: string): string {
    match ReservedPrefix(name)
    case Some(reserved) => replacement + name[Min(|reserved|, |name|)..]
    case None => name
  }

  function Min(a: nat, b: nat): nat {
    if a < b then a else b
  }

  /** The longest prefix of at most `max` bytes. */
  function Truncate(name: string, max: nat): string {
    if ByteLength(name) <= max then name else Truncate(name[..|name| - 1], max)
  }

  function Legalized(name: string, rules: Rules, replacement: string): string {
    var replaced := ReplaceIllegal(name, rules, replacement);
    if WindowsLike(rules) then
      var renamed := ReplaceReserved(CollapseRun(replaced, replacement), replacement);
      // The cut can expose a new trailing run.
      Truncate(CollapseRun(Truncate(renamed, MAX_LEN), replacement), MAX_LEN)
    else Truncate(replaced, MAX_LEN)
  }

  function SanitizeWith(name: string, rules: Rules, options: Options): string {
    var legal := Legalized(name, rules, options.replacement);
    if legal == [] || IsRelative(legal) then Truncate(options.placeholder, MAX_LEN) else legal
  }

  function Sanitize(name: string, rules: Rules): string {
    SanitizeWith(name, rules, DEFAULTS)
  }

  // The loops of the source

  /** The prefix of `name` that ends at byte `end`, if a character ends there. */
  predicate IsCharBoundary(name: string, end: nat) {
    exists k :: 0 <= k <= |name| && ByteLength(name[..k]) == end
  }

  lemma {:induction false} TruncateIsLongestPrefix(name: string, max: nat)
    ensures Truncate(name, max) <= name && ByteLength(Truncate(name, max)) <= max
    ensures forall k :: |Truncate(name, max)| < k <= |name| ==> ByteLength(name[..k]) > max
    decreases |name|
  {
    if ByteLength(name) > max {
      var shorter := name[..|name| - 1];
      TruncateIsLongestPrefix(shorter, max);
      forall k | |Truncate(name, max)| < k <= |name| ensures ByteLength(name[..k]) > max {
        if k == |name| {
          assert name[..k] == name;
        } else {
          assert shorter[..k] == name[..k];
        }
      }
    }
  }

  lemma {:induction false} PrefixIsShorter(name: string, j: nat, k: nat)
    requires j < k <= |name|
    ensures ByteLength(name[..j]) < ByteLength(name[..k])
    decreases k
  {
    assert name[..k][..k - 1] == name[..k - 1];
    if j < k - 1 {
      PrefixIsShorter(name, j, k - 1);
    }
  }

  /** truncate_bytes: walks back from `max` to a character boundary. */
  method TruncateBytes(name: string, max: nat) returns (cut: string)
    ensures cut == Truncate(name, max)
    ensures cut <= name && ByteLength(cut) <= max
  {
    TruncateIsLongestPrefix(name, max);
    if ByteLength(name) <= max {
      return name;
    }
    var end := max;
    ghost var kept := Truncate(name, max);
    assert name[..|kept|] == kept;
    while !IsCharBoundary(name, end)
      invariant ByteLength(kept) <= end <= max
      decreases end
    {
      end := end - 1;
    }
    var k :| 0 <= k <= |name| && ByteLength(name[..k]) == end;
    if k < |kept| {
      PrefixIsShorter(name, k, |kept|);
    }
    cut := name[..k];
  }

  method CollapseTrailingRun(name: string, replacement: string) returns (result: string)
    ensures result == CollapseRun(name, replacement)
  {
    var trimmed := |name|;
    assert name[..trimmed] == name;
    while trimmed > 0 && (name[trimmed - 1] == '.' || name[trimmed - 1] == ' ')
      invariant 0 <= trimmed <= |name|
      invariant TrimRun(name) == TrimRun(name[..trimmed])
      invariant trimmed < |name| ==> EndsWithRun(name)
    {
      assert name[..trimmed][..trimmed - 1] == name[..trimmed - 1];
      trimmed := trimmed - 1;
    }
    assert name[..trimmed] == TrimRun(name);
    result := name;
    if trimmed != |name| {
      result := name[..trimmed] + replacement;
    }
  }

  method SanitizeName(name: string, rules: Rules, options: Options) returns (result: string)
    ensures result == SanitizeWith(name, rules, options)
  {
    hide ReservedPrefix, Truncate, CollapseRun, IsIllegal, ByteLength;
    result := "";
    for i := 0 to |name|
      invariant result == ReplaceIllegal(name[..i], rules, options.replacement)
    {
      assert name[..i + 1][..i] == name[..i];
      if IsIllegal(rules, name[i]) {
        result := result + options.replacement;
      } else {
        result := result + [name[i]];
      }
    }
    assert name[..|name|] == name;
    if WindowsLike(rules) {
      result := CollapseTrailingRun(result, options.replacement);
      var reserved := ReservedPrefix(result);
      if reserved.Some? {
        result := options.replacement + result[Min(|reserved.value|, |result|)..];
      }
    }
    result := TruncateBytes(result, MAX_LEN);
    if WindowsLike(rules) {
      result := CollapseTrailingRun(result, options.replacement);
      result := TruncateBytes(result, MAX_LEN);
    }
    if result == "" || IsRelative(result) {
      result := TruncateBytes(options.placeholder, MAX_LEN);
    }
  }

  // Reserved names

  predicate IsAsciiWord(c: char) {
    'a' <= c <= 'z' || '0' <= c <= '9'
  }

  predicate ShortWord(name: string) {
    3 <= |name| <= 4 && forall c :: c in name ==> IsAsciiWord(c)
  }

  lemma ReservedAreShort(i: nat)
    requires i < |RESERVED_NAMES|
    ensures ShortWord(RESERVED_NAMES[i])
  {
  }

  lemma {:induction false} FoundReserved(stem: string, names: seq<string>)
    requires FindReserved(stem, names).Some?
    ensures exists i ::
      0 <= i < |names| && names[i] == FindReserved(stem, names).value && EqIgnoreAsciiCase(stem, names[i])
    decreases |names|
  {
    if EqIgnoreAsciiCase(stem, names[0]) {
    } else {
      FoundReserved(stem, names[1..]);
      var rest := names[1..];
      var i :| 0 <= i < |rest| && rest[i] == FindReserved(stem, rest).value && EqIgnoreAsciiCase(stem, rest[i]);
      assert names[i + 1] == rest[i];
    }
  }

  /** A reserved stem is three or four letters or digits. */
  lemma {:induction false} ReservedStem(name: string)
    requires ReservedPrefix(name).Some?
    ensures |ReservedPrefix(name).value| == |Stem(name)| && 3 <= |Stem(name)| <= 4
    ensures forall c :: c in Stem(name) ==> IsAsciiWord(ToLower(c)) && c != '_'
  {
    var stem := Stem(name);
    FoundReserved(stem, RESERVED_NAMES);
    var reserved := ReservedPrefix(name).value;
    var i :| 0 <= i < |RESERVED_NAMES| && RESERVED_NAMES[i] == reserved && EqIgnoreAsciiCase(stem, RESERVED_NAMES[i]);
    ReservedAreShort(i);
    forall c | c in stem ensures IsAsciiWord(ToLower(c)) && c != '_' {
      var k :| 0 <= k < |stem| && stem[k] == c;
      assert RESERVED_NAMES[i][k] in RESERVED_NAMES[i];
      assert ToLower(RESERVED_NAMES[i][k]) == RESERVED_NAMES[i][k];
    }
  }

  lemma {:induction false} StemIsPrefix(name: string)
    ensures Stem(name) <= name && '.' !in Stem(name)
    ensures |Stem(name)| < |name| ==> name[|Stem(name)|] == '.'
    decreases |name|
  {
    if name != [] && name[0] != '.' {
      StemIsPrefix(name[1..]);
    }
  }

  lemma {:induction false} StemConcat(a: string, b: string)
    ensures Stem(a + b) == if '.' in a then Stem(a) else a + Stem(b)
    decreases |a|
  {
    if a == [] {
      assert a + b == b;
    } else {
      assert (a + b)[1..] == a[1..] + b;
      StemConcat(a[1..], b);
      assert a == [a[0]] + a[1..];
    }
  }

  lemma {:induction false} DotlessStem(name: string)
    requires '.' !in name
    ensures Stem(name) == name
    decreases |name|
  {
    if name != [] {
      DotlessStem(name[1..]);
    }
  }

  /** A name whose stem has an underscore, or that is longer than four characters and has no dot, is not reserved. */
  lemma {:induction false} NotReserved(name: string)
    requires '_' in Stem(name) || |Stem(name)| > 4
    ensures ReservedPrefix(name).None?
  {
    if ReservedPrefix(name).Some? {
      ReservedStem(name);
    }
  }

  // What each step guarantees

  predicate Legal(rules: Rules, name: string) {
    forall c :: c in name ==> !IsIllegal(rules, c)
  }

  lemma UnderscoreIsLegal(rules: Rules)
    ensures !IsIllegal(rules, '_')
  {
  }

  lemma {:induction false} ReplacedIsLegal(name: string, rules: Rules)
    ensures Legal(rules, ReplaceIllegal(name, rules, "_"))
    ensures Legal(rules, name) ==> ReplaceIllegal(name, rules, "_") == name
    decreases |name|
  {
    hide IsIllegal;
    if name != [] {
      var before, last := name[..|name| - 1], name[|name| - 1];
      assert name == before + [last];
      ReplacedIsLegal(before, rules);
      UnderscoreIsLegal(rules);
    }
  }

  lemma {:induction false} TrimmedIsPrefix(name: string)
    ensures TrimRun(name) <= name && !EndsWithRun(TrimRun(name))
    ensures EndsWithRun(name) ==> |TrimRun(name)| < |name|
    decreases |name|
  {
    if EndsWithRun(name) {
      TrimmedIsPrefix(name[..|name| - 1]);
    }
  }

  /** Replacing the end of a name by an underscore cannot make its stem reserved. */
  lemma {:induction false} UnderscoreKeepsStem(start: string, end: string)
    requires ReservedPrefix(start + end).None?
    ensures ReservedPrefix(start + "_").None?
  {
    hide FindReserved;
    StemConcat(start, end);
    StemConcat(start, "_");
    if '.' !in start {
      assert Stem("_") == "_";
      NotReserved(start + "_");
    }
  }

  lemma {:induction false} CollapsedIsLegal(name: string, rules: Rules)
    requires Legal(rules, name)
    ensures var result := CollapseRun(name, "_");
      && Legal(rules, result) && !EndsWithRun(result)
      && ByteLength(result) <= ByteLength(name) && (result == [] <==> name == [])
      && (ReservedPrefix(name).None? ==> ReservedPrefix(result).None?)
  {
    hide ReservedPrefix, ByteLength, IsIllegal;
    UnderscoreIsLegal(rules);
    TrimmedIsPrefix(name);
    if EndsWithRun(name) {
      var trimmed := TrimRun(name);
      var run := name[|trimmed|..];
      assert name == trimmed + run;
      ByteLengthConcat(trimmed, run);
      ByteLengthBounds(run);
      ByteLengthConcat(trimmed, "_");
      UnderscoreLength();
      if ReservedPrefix(name).None? {
        UnderscoreKeepsStem(trimmed, run);
      }
    }
  }

  lemma UnderscoreLength()
    ensures ByteLength("_") == 1
  {
    assert "_"[..0] == "";
  }

  lemma RenamedIsLegal(name: string, rules: Rules)
    requires Legal(rules, name) && !EndsWithRun(name)
    ensures var result := ReplaceReserved(name, "_");
      && Legal(rules, result) && !EndsWithRun(result)
      && ReservedPrefix(result).None? && (result == [] <==> name == [])
  {
    hide FindReserved;
    if ReservedPrefix(name).Some? {
      ReservedStem(name);
      StemIsPrefix(name);
      var rest := name[|Stem(name)|..];
      assert ReplaceReserved(name, "_") == "_" + rest;
      StemConcat("_", rest);
      NotReserved("_" + rest);
    }
  }

  /** Cutting a long name cannot uncover a reserved stem. */
  lemma {:induction false} TruncatedIsLegal(name: string, rules: Rules)
    requires Legal(rules, name)
    ensures var result := Truncate(name, MAX_LEN);
      && Legal(rules, result) && ByteLength(result) <= MAX_LEN && (result == [] <==> name == [])
      && (ReservedPrefix(name).None? ==> ReservedPrefix(result).None?)
  {
    hide FindReserved;
    TruncateIsLongestPrefix(name, MAX_LEN);
    var result := Truncate(name, MAX_LEN);
    if ByteLength(name) > MAX_LEN {
      var rest := name[|result|..];
      assert name == result + rest;
      assert result != name && result <= name;
      assert |result| == |name| ==> result == name;
      var k := |result| + 1;
      assert name[..k][..k - 1] == result;
      ByteLengthBounds(result);
      assert |result| > 4;
      StemConcat(result, rest);
      if '.' !in result {
        DotlessStem(result);
        NotReserved(result);
      }
    }
  }

  lemma {:induction false} LongWordIsValid(name: string, rules: Rules)
    requires 4 < |name| <= 63 && forall c :: c in name ==> 'a' <= c <= 'z'
    ensures IsValid(name, rules) && Truncate(name, MAX_LEN) == name
  {
    hide ReservedPrefix, ByteLength, Truncate, Stem;
    ByteLengthBounds(name);
    ShortUncut(name);
    assert name[|name| - 1] in name;
    DotlessStem(name);
    NotReserved(name);
  }

  lemma PlaceholderIsValid(rules: Rules)
    ensures IsValid(DEFAULTS.placeholder, rules) && Truncate(DEFAULTS.placeholder, MAX_LEN) == DEFAULTS.placeholder
  {
    hide IsValid, Truncate;
    LongWordIsValid(DEFAULTS.placeholder, rules);
  }

  lemma LegalizedIsLegal(name: string, rules: Rules)
    ensures var result := Legalized(name, rules, "_");
      && Legal(rules, result) && ByteLength(result) <= MAX_LEN
      && (WindowsLike(rules) ==> !EndsWithRun(result) && ReservedPrefix(result).None?)
  {
    hide FindReserved, CollapseRun, ReplaceReserved, Truncate, ReplaceIllegal, IsIllegal, ReservedPrefix, EndsWithRun;
    hide Legal;
    var replaced := ReplaceIllegal(name, rules, "_");
    ReplacedIsLegal(name, rules);
    if WindowsLike(rules) {
      var collapsed := CollapseRun(replaced, "_");
      CollapsedIsLegal(replaced, rules);
      RenamedIsLegal(collapsed, rules);
      var cut := Truncate(ReplaceReserved(collapsed, "_"), MAX_LEN);
      TruncatedIsLegal(ReplaceReserved(collapsed, "_"), rules);
      CollapsedIsLegal(cut, rules);
      ShortUncut(CollapseRun(cut, "_"));
    } else {
      TruncatedIsLegal(replaced, rules);
    }
  }

  lemma {:induction false} ShortUncut(name: string)
    requires ByteLength(name) <= MAX_LEN
    ensures Truncate(name, MAX_LEN) == name
  {
  }

  // Theorems

  /** Every string is made into a valid name, under every rule set. */
  lemma SanitizedIsValid(name: string, rules: Rules)
    ensures IsValid(Sanitize(name, rules), rules)
  {
    hide FindReserved, IsIllegal, ReservedPrefix, EndsWithRun, Legalized, ByteLength, Truncate;
    LegalizedIsLegal(name, rules);
    PlaceholderIsValid(rules);
  }

  lemma ValidUnchanged(name: string, rules: Rules)
    requires IsValid(name, rules)
    ensures Sanitize(name, rules) == name
  {
    hide FindReserved, IsIllegal, ReservedPrefix, EndsWithRun, ByteLength, TrimRun, ReplaceIllegal;
    ReplacedIsLegal(name, rules);
    ShortUncut(name);
  }

  /** A name is valid exactly if sanitizing leaves it alone, and sanitizing twice changes nothing more. */
  lemma ValidIffUnchanged(name: string, rules: Rules)
    ensures IsValid(name, rules) <==> Sanitize(name, rules) == name
    ensures Sanitize(Sanitize(name, rules), rules) == Sanitize(name, rules)
  {
    hide IsValid, Sanitize;
    SanitizedIsValid(name, rules);
    ValidUnchanged(Sanitize(name, rules), rules);
    if IsValid(name, rules) {
      ValidUnchanged(name, rules);
    }
  }

  // What becomes of a name

  const FORBIDDEN: string := "<>:\"/\\|?*"

  /** The characters no name keeps: control characters, and those the file system gives a meaning. */
  lemma IllegalIff(rules: Rules, c: char)
    ensures IsIllegal(rules, c) <==>
      || c as int < 0x20 || 0x7f <= c as int < 0xa0
      || (rules.Posix? && c == '/')
      || (rules.Hfs? && (c == '/' || c == ':'))
      || ((rules.Windows? || rules.Fat? || rules.Universal?) && c in FORBIDDEN)
  {
  }

  predicate SameWord(a: string, b: string) {
    |a| == |b| && forall i :: 0 <= i < |a| ==> SameLetter(a[i], b[i])
  }

  /** The console, printer, auxiliary and null devices, and nine serial and nine parallel ports. */
  predicate IsDevice(word: string) {
    || SameWord(word, "con") || SameWord(word, "prn") || SameWord(word, "aux") || SameWord(word, "nul")
    || (|word| == 4 && (SameWord(word[..3], "com") || SameWord(word[..3], "lpt")) && '1' <= word[3] <= '9')
  }

  lemma WordIff(a: string, b: string)
    ensures EqIgnoreAsciiCase(a, b) <==> SameWord(a, b)
  {
    forall c, d ensures ToLower(c) == ToLower(d) <==> SameLetter(c, d) {
      FoldedLetters(c, d);
    }
    hide ToLower, SameLetter;
  }

  lemma {:induction false} FindReservedIff(stem: string, names: seq<string>)
    ensures FindReserved(stem, names).Some? <==> exists i :: 0 <= i < |names| && SameWord(stem, names[i])
    decreases |names|
  {
    hide SameWord;
    if names != [] {
      WordIff(stem, names[0]);
      FindReservedIff(stem, names[1..]);
      forall i | 0 <= i < |names| - 1 ensures names[1..][i] == names[i + 1] {
      }
      if i :| 0 <= i < |names| && SameWord(stem, names[i]) {
        assert i > 0 ==> names[1..][i - 1] == names[i];
      }
      if i :| 0 <= i < |names| - 1 && SameWord(stem, names[1..][i]) {
        assert SameWord(stem, names[i + 1]);
      }
    }
  }

  /** A numbered port is its family and a digit. */
  lemma PortWord(word: string, port: string)
    requires |port| == 4 && '1' <= port[3] <= '9'
    ensures SameWord(word, port) <==> |word| == 4 && SameWord(word[..3], port[..3]) && word[3] == port[3]
  {
  }

  lemma PortNames(i: nat)
    requires 4 <= i < 22
    ensures RESERVED_NAMES[i][..3] == (if i < 13 then "com" else "lpt")
    ensures |RESERVED_NAMES[i]| == 4 && RESERVED_NAMES[i][3] == ('1' as int + (i - 4) % 9) as char
  {
  }

  lemma {:induction false} DeviceIff(word: string)
    ensures IsDevice(word) <==> exists i :: 0 <= i < |RESERVED_NAMES| && SameWord(word, RESERVED_NAMES[i])
  {
    hide SameWord;
    forall i: nat | 4 <= i < 22
      ensures SameWord(word, RESERVED_NAMES[i]) <==>
        |word| == 4 && SameWord(word[..3], if i < 13 then "com" else "lpt")
        && word[3] == ('1' as int + (i - 4) % 9) as char
    {
      PortNames(i);
      PortWord(word, RESERVED_NAMES[i]);
    }
    assert RESERVED_NAMES[0] == "con" && RESERVED_NAMES[1] == "prn" && RESERVED_NAMES[2] == "aux";
    assert RESERVED_NAMES[3] == "nul";
    if |word| == 4 && '1' <= word[3] <= '9' {
      var d := word[3] as int - '1' as int;
      assert SameWord(word[..3], "com") ==> SameWord(word, RESERVED_NAMES[4 + d]);
      assert SameWord(word[..3], "lpt") ==> SameWord(word, RESERVED_NAMES[13 + d]);
    }
  }

  /** A name is reserved exactly if its part before the first dot is a device, in whatever case. */
  lemma {:induction false} ReservedIff(name: string)
    ensures ReservedPrefix(name).Some? <==> IsDevice(Stem(name))
  {
    FindReservedIff(Stem(name), RESERVED_NAMES);
    DeviceIff(Stem(name));
  }

  function Concat(pieces: seq<string>): string {
    if pieces == [] then "" else Concat(pieces[..|pieces| - 1]) + pieces[|pieces| - 1]
  }

  predicate Pieces(name: string, rules: Rules, replacement: string, pieces: seq<string>) {
    && |pieces| == |name|
    && forall i :: 0 <= i < |name| ==> pieces[i] == if IsIllegal(rules, name[i]) then replacement else [name[i]]
  }

  /** Every illegal character is replaced, every other one kept, in order. */
  ghost predicate MaskedTo(name: string, rules: Rules, replacement: string, masked: string) {
    exists pieces :: Pieces(name, rules, replacement, pieces) && masked == Concat(pieces)
  }

  /** The dots and spaces from `k` to the end become one replacement. */
  predicate CollapsesAt(name: string, k: nat, replacement: string, result: string) {
    && k <= |name|
    && (forall i :: k <= i < |name| ==> name[i] == '.' || name[i] == ' ')
    && (k > 0 ==> name[k - 1] != '.' && name[k - 1] != ' ')
    && result == if k == |name| then name else name[..k] + replacement
  }

  ghost predicate CollapsedTo(name: string, replacement: string, result: string) {
    exists k: nat :: CollapsesAt(name, k, replacement, result)
  }

  /** The part before the first dot, at `k`, is replaced if it is a device. All else stays. */
  predicate RenamesAt(name: string, k: nat, replacement: string, result: string) {
    && k <= |name| && '.' !in name[..k] && (k < |name| ==> name[k] == '.')
    && result == if IsDevice(name[..k]) then replacement + name[k..] else name
  }

  ghost predicate RenamedTo(name: string, replacement: string, result: string) {
    exists k: nat :: RenamesAt(name, k, replacement, result)
  }

  /** The longest prefix that fits. */
  predicate CutsTo(name: string, result: string) {
    && result <= name && ByteLength(result) <= 255
    && (result != name ==> ByteLength(name[..|result| + 1]) > 255)
  }

  lemma {:induction false} ConcatNext(pieces: seq<string>, piece: string)
    ensures Concat(pieces + [piece]) == Concat(pieces) + piece
  {
    assert (pieces + [piece])[..|pieces|] == pieces;
  }

  lemma {:induction false} NoPieces()
    ensures Concat([]) == ""
  {
  }

  lemma {:induction false} ReplacedPieces(name: string, rules: Rules, replacement: string) returns (pieces: seq<string>)
    ensures Pieces(name, rules, replacement, pieces) && ReplaceIllegal(name, rules, replacement) == Concat(pieces)
    decreases |name|
  {
    hide IsIllegal, Concat;
    if name == "" {
      pieces := [];
      NoPieces();
    } else {
      var last := name[|name| - 1];
      var piece := if IsIllegal(rules, last) then replacement else [last];
      var before := ReplacedPieces(name[..|name| - 1], rules, replacement);
      ConcatNext(before, piece);
      pieces := before + [piece];
    }
  }

  lemma {:induction false} ReplacedIsMasked(name: string, rules: Rules, replacement: string)
    ensures MaskedTo(name, rules, replacement, ReplaceIllegal(name, rules, replacement))
  {
    var pieces := ReplacedPieces(name, rules, replacement);
    hide Pieces;
  }

  lemma {:induction false} ConcatOfLetters(pieces: seq<string>, masked: string)
    requires |pieces| == |masked| && forall i :: 0 <= i < |pieces| ==> pieces[i] == [masked[i]]
    ensures Concat(pieces) == masked
    decreases |pieces|
  {
    if pieces != [] {
      var n := |pieces| - 1;
      ConcatOfLetters(pieces[..n], masked[..n]);
      assert masked == masked[..n] + [masked[n]];
    }
  }

  /** With one replacement character every legal character stays in its place. */
  lemma {:induction false} LegalStaysInPlace(name: string, rules: Rules, replacement: char, masked: string)
    requires MaskedTo(name, rules, [replacement], masked)
    ensures |masked| == |name|
    ensures forall i :: 0 <= i < |name| ==>
      masked[i] == if IsIllegal(rules, name[i]) then replacement else name[i]
  {
    hide IsIllegal;
    var pieces :| Pieces(name, rules, [replacement], pieces) && masked == Concat(pieces);
    var letters :=
      seq(|name|, i requires 0 <= i < |name| => if IsIllegal(rules, name[i]) then replacement else name[i]);
    ConcatOfLetters(pieces, letters);
  }

  lemma {:induction false} TrimmedCollapses(name: string, replacement: string)
    ensures TrimRun(name) <= name
    ensures CollapsesAt(name, |TrimRun(name)|, replacement, CollapseRun(name, replacement))
    decreases |name|
  {
    if EndsWithRun(name) {
      var shorter := name[..|name| - 1];
      TrimmedCollapses(shorter, replacement);
      TrimmedIsPrefix(name);
      assert TrimRun(name) == TrimRun(shorter);
      assert forall i :: 0 <= i < |shorter| ==> shorter[i] == name[i];
    }
  }

  lemma {:induction false} RunIsCollapsed(name: string, replacement: string)
    ensures CollapsedTo(name, replacement, CollapseRun(name, replacement))
  {
    TrimmedCollapses(name, replacement);
    hide CollapsesAt, CollapseRun;
  }

  lemma {:induction false} ReservedIsRenamed(name: string, replacement: string)
    ensures RenamedTo(name, replacement, ReplaceReserved(name, replacement))
  {
    StemIsPrefix(name);
    ReservedIff(name);
    assert name[..|Stem(name)|] == Stem(name);
    hide FindReserved, IsDevice;
    if ReservedPrefix(name).Some? {
      ReservedStem(name);
    }
    assert RenamesAt(name, |Stem(name)|, replacement, ReplaceReserved(name, replacement));
  }

  lemma {:induction false} TruncateCuts(name: string)
    ensures CutsTo(name, Truncate(name, MAX_LEN))
  {
    TruncateIsLongestPrefix(name, MAX_LEN);
    hide Truncate, ByteLength;
    var cut := Truncate(name, MAX_LEN);
    assert cut != name ==> |cut| < |name| by {
      if |cut| == |name| {
        assert cut == name[..|cut|] == name;
      }
    }
  }

  /** With Windows rules the run is collapsed and a device renamed before the cut, and an exposed run once more. */
  ghost predicate WindowsForm(masked: string, replacement: string, collapsed: string, renamed: string, cut: string,
                              again: string, last: string) {
    && CollapsedTo(masked, replacement, collapsed) && RenamedTo(collapsed, replacement, renamed)
    && CutsTo(renamed, cut) && CollapsedTo(cut, replacement, again) && CutsTo(again, last)
  }

  /** What becomes of any name, under any rules, with any replacement and placeholder. */
  lemma {:induction false} SanitizedForm(name: string, rules: Rules, options: Options)
    returns (masked: string, collapsed: string, renamed: string, cut: string, again: string, last: string)
    ensures MaskedTo(name, rules, options.replacement, masked)
    ensures if rules.Windows? || rules.Universal?
      then WindowsForm(masked, options.replacement, collapsed, renamed, cut, again, last)
      else CutsTo(masked, last)
    ensures var result := SanitizeWith(name, rules, options);
      if last == "" || last == "." || last == ".." then CutsTo(options.placeholder, result) else result == last
  {
    masked := ReplaceIllegal(name, rules, options.replacement);
    collapsed := CollapseRun(masked, options.replacement);
    renamed := ReplaceReserved(collapsed, options.replacement);
    cut := Truncate(renamed, MAX_LEN);
    again := CollapseRun(cut, options.replacement);
    last := Truncate(if rules.Windows? || rules.Universal? then again else masked, MAX_LEN);
    SanitizeSteps(name, rules, options);
    hide *;
    ReplacedIsMasked(name, rules, options.replacement);
    TruncateCuts(if rules.Windows? || rules.Universal? then again else masked);
    TruncateCuts(options.placeholder);
    FormOfWindows(masked, options.replacement);
  }

  lemma {:induction false} FormOfWindows(masked: string, replacement: string)
    ensures var collapsed := CollapseRun(masked, replacement);
      var renamed := ReplaceReserved(collapsed, replacement);
      var cut := Truncate(renamed, MAX_LEN);
      var again := CollapseRun(cut, replacement);
      WindowsForm(masked, replacement, collapsed, renamed, cut, again, Truncate(again, MAX_LEN))
  {
    var collapsed := CollapseRun(masked, replacement);
    var renamed := ReplaceReserved(collapsed, replacement);
    var cut := Truncate(renamed, MAX_LEN);
    var again := CollapseRun(cut, replacement);
    hide CollapseRun, ReplaceReserved, Truncate, CollapsedTo, RenamedTo, CutsTo;
    RunIsCollapsed(masked, replacement);
    ReservedIsRenamed(collapsed, replacement);
    TruncateCuts(renamed);
    RunIsCollapsed(cut, replacement);
    TruncateCuts(again);
  }

  lemma {:induction false} SanitizeSteps(name: string, rules: Rules, options: Options)
    ensures var masked := ReplaceIllegal(name, rules, options.replacement);
      var renamed := ReplaceReserved(CollapseRun(masked, options.replacement), options.replacement);
      var again := CollapseRun(Truncate(renamed, MAX_LEN), options.replacement);
      var last := Truncate(if rules.Windows? || rules.Universal? then again else masked, MAX_LEN);
      SanitizeWith(name, rules, options) ==
      if last == "" || last == "." || last == ".." then Truncate(options.placeholder, MAX_LEN) else last
  {
    hide ReplaceIllegal, CollapseRun, ReplaceReserved, Truncate;
  }

  /** A device with whatever follows its first dot keeps what follows. */
  lemma {:induction false} DeviceIsReplaced(device: string, rest: string, rules: Rules)
    requires (rules.Windows? || rules.Universal?) && IsDevice(device) && '.' !in device
    requires forall c :: c in rest ==> !IsIllegal(rules, c)
    requires rest == "" || (rest[0] == '.' && rest[|rest| - 1] != '.' && rest[|rest| - 1] != ' ')
    requires ByteLength("_" + rest) <= MAX_LEN && forall c :: c in device ==> !IsIllegal(rules, c) && c != ' '
    ensures Sanitize(device + rest, rules) == "_" + rest
  {
    DeviceRenamed(device, rest);
    NoRun(device, rest);
    hide *;
    DeviceSteps(device + rest, "_" + rest, rules);
  }

  lemma {:induction false} DeviceRenamed(device: string, rest: string)
    requires IsDevice(device) && '.' !in device && (rest == "" || rest[0] == '.')
    ensures ReplaceReserved(device + rest, "_") == "_" + rest
  {
    var name := device + rest;
    StemConcat(device, rest);
    assert Stem(rest) == "" && device + "" == device;
    ReservedIff(name);
    hide FindReserved, IsDevice, Stem;
    ReservedStem(name);
    assert name[|device|..] == rest;
  }

  lemma {:induction false} NoRun(device: string, rest: string)
    requires IsDevice(device) && (forall c :: c in device ==> c != '.' && c != ' ')
    requires rest == "" || (rest[|rest| - 1] != '.' && rest[|rest| - 1] != ' ')
    ensures !EndsWithRun(device + rest) && !EndsWithRun("_" + rest)
  {
    assert |device| > 0 && device[|device| - 1] in device;
    hide IsDevice;
  }

  lemma {:induction false} DeviceSteps(name: string, renamed: string, rules: Rules)
    requires WindowsLike(rules) && !EndsWithRun(name) && !EndsWithRun(renamed) && renamed != ""
    requires Legal(rules, name) && ReplaceReserved(name, "_") == renamed && ByteLength(renamed) <= MAX_LEN
    ensures Sanitize(name, rules) == renamed
  {
    hide FindReserved, IsIllegal, ByteLength, ReplaceIllegal, Stem, TrimRun, Truncate, Legal, ReplaceReserved;
    ReplacedIsLegal(name, rules);
    ShortUncut(renamed);
  }

  // Paths

  const SEPARATORS: set<char> := {'/', '\\'}

  predicate Usable(segment: string) {
    segment != "" && !IsRelative(segment)
  }

  /** How many characters of `path` come before its last segment. */
  function LastSegmentStart(path: string): (start: nat)
    ensures start <= |path|
    ensures forall c :: c in path[start..] ==> c !in SEPARATORS
    ensures start > 0 ==> path[start - 1] in SEPARATORS
  {
    if path == [] || path[|path| - 1] in SEPARATORS then |path|
    else
      var start := LastSegmentStart(path[..|path| - 1]);
      assert path[start..] == path[..|path| - 1][start..] + [path[|path| - 1]];
      start
  }

  /** The search of sanitize_path, from the end of the path. */
  function LastUsable(path: string): string {
    var start := LastSegmentStart(path);
    if Usable(path[start..]) then path[start..]
    else if start == 0 then ""
    else LastUsable(path[..start - 1])
  }

  function SanitizePath(path: string, rules: Rules): string {
    Sanitize(LastUsable(path), rules)
  }

  /** The last usable one of the segments, searched in a list. */
  function LastUsableOf(segments: seq<string>): string {
    if segments == [] then ""
    else if Usable(segments[|segments| - 1]) then segments[|segments| - 1]
    else LastUsableOf(segments[..|segments| - 1])
  }

  /** Searching backwards finds the last usable segment of the path. */
  lemma {:induction false} LastUsableIsLastSegment(path: string)
    ensures LastUsable(path) == LastUsableOf(Split(path, SEPARATORS))
    decreases |path|
  {
    hide Split;
    var start := LastSegmentStart(path);
    var segment := path[start..];
    SplitWithout(segment, SEPARATORS);
    if start == 0 {
      assert path == segment;
      assert [segment][..0] == [];
    } else {
      var before := path[..start - 1];
      assert path == before + [path[start - 1]] + segment;
      SplitAtSeparator(before, path[start - 1], segment, SEPARATORS);
      LastUsableIsLastSegment(before);
      var segments := Split(before, SEPARATORS);
      assert (segments + [segment])[..|segments|] == segments;
    }
  }

  lemma {:induction false} LastUsableHasNoSeparators(path: string)
    ensures forall c :: c in LastUsable(path) ==> c !in SEPARATORS
    ensures LastUsable(path) != "" ==> Usable(LastUsable(path))
    decreases |path|
  {
    var start := LastSegmentStart(path);
    if !Usable(path[start..]) && start > 0 {
      LastUsableHasNoSeparators(path[..start - 1]);
    }
  }

  lemma {:induction false} ReplacedHasNoBackslash(name: string, rules: Rules)
    requires '\\' !in name
    ensures '\\' !in ReplaceIllegal(name, rules, "_")
    decreases |name|
  {
    if name != [] {
      ReplacedHasNoBackslash(name[..|name| - 1], rules);
    }
  }

  lemma SanitizedHasNoBackslash(name: string, rules: Rules)
    requires '\\' !in name
    ensures '\\' !in Sanitize(name, rules)
  {
    SanitizedIsValid(name, rules);
    hide FindReserved, ByteLength, Truncate, ReplaceIllegal;
    PlaceholderIsValid(rules);
    if rules.Hfs? || rules.Posix? {
      ReplacedHasNoBackslash(name, rules);
      TruncateIsLongestPrefix(ReplaceIllegal(name, rules, "_"), MAX_LEN);
    } else {
      assert IsIllegal(rules, '\\');
    }
  }

  lemma {:induction false} NameIsItsLastSegment(name: string, rules: Rules)
    requires IsValid(name, rules) && '\\' !in name
    ensures LastUsable(name) == name
  {
    hide FindReserved, ByteLength;
    assert IsIllegal(rules, '/');
    assert name[0..] == name;
  }

  /**
   * A path becomes a valid name without separators; it stays as it is exactly
   * if it is such a name already.
   */
  lemma PathBecomesName(path: string, rules: Rules)
    ensures IsValid(SanitizePath(path, rules), rules) && '\\' !in SanitizePath(path, rules)
    ensures SanitizePath(path, rules) == path <==> IsValid(path, rules) && '\\' !in path
  {
    hide IsValid, Sanitize;
    SanitizedIsValid(LastUsable(path), rules);
    LastUsableHasNoSeparators(path);
    SanitizedHasNoBackslash(LastUsable(path), rules);
    if IsValid(path, rules) && '\\' !in path {
      NameIsItsLastSegment(path, rules);
      ValidUnchanged(path, rules);
    }
  }
}
