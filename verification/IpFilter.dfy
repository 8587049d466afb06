/** Wildcard filters on interface addresses (interface.rs). */
module IpFilter {
  import opened Wrappers
  import opened Text

  const STAR: set<char> := {'*'}

  /** The characters before the first dot, all of them if there is none. */
  function DotFreeLength(s: string): (n: nat)
    ensures n <= |s| && '.' !in s[..n]
    ensures n < |s| ==> s[n] == '.'
  {
    if s == "" || s[0] == '.' then 0 else 1 + DotFreeLength(s[1..])
  }

  /** matches_ip_filter: every `*` takes at least one character and never a dot. */
  predicate Matches(pattern: string, address: string)
    decreases |pattern|, 0
  {
    match SplitOnce(pattern, '*')
    case None => pattern == address
    case Some((prefix, rest)) => prefix <= address && MatchesAfterStar(rest, address[|prefix|..])
  }

  predicate MatchesAfterStar(rest: string, remainder: string)
    decreases |rest|, 1
  {
    exists n :: 1 <= n <= DotFreeLength(remainder) && Matches(rest, remainder[n..])
  }

  // Meaning as a substitution

  predicate Filler(s: string) {
    s != "" && '.' !in s
  }

  /** The pieces of a pattern with a filler between each two of them. */
  function Fill(pieces: seq<string>, fillers: seq<string>): string
    requires |pieces| == |fillers| + 1
  {
    if fillers == [] then pieces[0] else pieces[0] + fillers[0] + Fill(pieces[1..], fillers[1..])
  }

  predicate FillsTo(pieces: seq<string>, fillers: seq<string>, address: string) {
    && |pieces| == |fillers| + 1
    && (forall i :: 0 <= i < |fillers| ==> Filler(fillers[i]))
    && Fill(pieces, fillers) == address
  }

  ghost predicate Denotes(pattern: string, address: string) {
    exists fillers :: FillsTo(Split(pattern, STAR), fillers, address)
  }

  lemma {:induction false} PiecesAfterStar(pattern: string)
    ensures match SplitOnce(pattern, '*')
      case None => Split(pattern, STAR) == [pattern]
      case Some((prefix, rest)) => Split(pattern, STAR) == [prefix] + Split(rest, STAR)
  {
    match SplitOnce(pattern, '*') {
      case None => SplitWithout(pattern, STAR);
      case Some((prefix, rest)) =>
        SplitAtSeparator(prefix, '*', rest, STAR);
        SplitWithout(prefix, STAR);
    }
  }

  lemma {:induction false} DotFreePrefix(s: string, n: nat)
    requires n <= |s|
    ensures '.' !in s[..n] <==> n <= DotFreeLength(s)
  {
    var free := DotFreeLength(s);
    if n <= free {
      assert forall i :: 0 <= i < n ==> s[..n][i] == s[..free][i];
    } else {
      assert s[..n][free] == '.';
    }
  }

  lemma {:induction false} FillOneMore(prefix: string, pieces: seq<string>, filler: string, fillers: seq<string>,
                                       tail: string)
    requires Filler(filler) && FillsTo(pieces, fillers, tail)
    ensures FillsTo([prefix] + pieces, [filler] + fillers, prefix + filler + tail)
  {
    assert ([prefix] + pieces)[1..] == pieces && ([filler] + fillers)[1..] == fillers;
  }

  lemma {:induction false} FillNone(piece: string)
    ensures FillsTo([piece], [], piece)
  {
  }

  /** What a star takes from the remaining address. */
  lemma {:induction false} StarTakes(rest: string, remainder: string) returns (filler: string, tail: string)
    requires MatchesAfterStar(rest, remainder)
    ensures Filler(filler) && remainder == filler + tail && Matches(rest, tail)
  {
    var n :| 1 <= n <= DotFreeLength(remainder) && Matches(rest, remainder[n..]);
    hide Matches;
    DotFreePrefix(remainder, n);
    filler, tail := remainder[..n], remainder[n..];
  }

  lemma {:induction false} Rejoin(prefix: string, filler: string, tail: string, address: string)
    requires prefix <= address && address[|prefix|..] == filler + tail
    ensures prefix + filler + tail == address
  {
    assert prefix + filler + tail == prefix + (filler + tail);
  }

  lemma {:induction false} MatchesGivesFillers(pattern: string, address: string) returns (fillers: seq<string>)
    requires Matches(pattern, address)
    ensures FillsTo(Split(pattern, STAR), fillers, address)
    decreases |pattern|
  {
    PiecesAfterStar(pattern);
    if SplitOnce(pattern, '*').None? {
      fillers := [];
      FillNone(pattern);
    } else {
      var (prefix, rest) := SplitOnce(pattern, '*').value;
      var remainder := address[|prefix|..];
      assert prefix <= address && MatchesAfterStar(rest, remainder);
      hide Matches, MatchesAfterStar, FillsTo, Split, SplitOnce, Filler;
      var filler, tail := StarTakes(rest, remainder);
      var others := MatchesGivesFillers(rest, tail);
      FillOneMore(prefix, Split(rest, STAR), filler, others, tail);
      Rejoin(prefix, filler, tail, address);
      fillers := [filler] + others;
    }
  }

  lemma {:induction false} FillersGiveMatch(pattern: string, fillers: seq<string>, address: string)
    requires FillsTo(Split(pattern, STAR), fillers, address)
    ensures Matches(pattern, address)
    decreases |pattern|
  {
    PiecesAfterStar(pattern);
    var pieces := Split(pattern, STAR);
    match SplitOnce(pattern, '*') {
      case None =>
      case Some((prefix, rest)) =>
        var filler, others := fillers[0], fillers[1..];
        assert pieces[1..] == Split(rest, STAR);
        var tail := Fill(pieces[1..], others);
        FillersGiveMatch(rest, others, tail);
        var remainder := address[|prefix|..];
        assert address == prefix + (filler + tail);
        assert remainder == filler + tail;
        assert remainder[..|filler|] == filler && remainder[|filler|..] == tail;
        DotFreePrefix(remainder, |filler|);
    }
  }

  /** A pattern accepts exactly the addresses it becomes when every `*` is replaced by a non-empty dot-free string. */
  lemma {:induction false} MatchesIffDenotes(pattern: string, address: string)
    ensures Matches(pattern, address) <==> Denotes(pattern, address)
  {
    if Matches(pattern, address) {
      var fillers := MatchesGivesFillers(pattern, address);
    }
    if Denotes(pattern, address) {
      var fillers :| FillsTo(Split(pattern, STAR), fillers, address);
      FillersGiveMatch(pattern, fillers, address);
    }
  }

  // Matching character by character

  /** One character at a time; a `*` that has taken a character may end there or take another one. */
  predicate Scans(pattern: string, address: string)
    decreases |pattern| + |address|
  {
    if pattern == "" then address == ""
    else if address == "" then false
    else if pattern[0] == '*' then
      address[0] != '.' && (Scans(pattern[1..], address[1..]) || Scans(pattern, address[1..]))
    else address[0] == pattern[0] && Scans(pattern[1..], address[1..])
  }

  lemma {:induction false} ScansLiteral(prefix: string, rest: string, address: string)
    requires '*' !in prefix
    ensures Scans(prefix + rest, address) <==> prefix <= address && Scans(rest, address[|prefix|..])
    decreases |prefix|
  {
    if prefix == "" {
      assert prefix + rest == rest;
    } else {
      assert (prefix + rest)[1..] == prefix[1..] + rest;
      if address != "" {
        ScansLiteral(prefix[1..], rest, address[1..]);
      }
    }
  }

  lemma {:induction false} ScansStar(rest: string, address: string)
    ensures Scans("*" + rest, address) <==>
      exists n :: 1 <= n <= DotFreeLength(address) && Scans(rest, address[n..])
    decreases |address|
  {
    var pattern := "*" + rest;
    assert pattern[1..] == rest;
    if address != "" && address[0] != '.' {
      ScansStar(rest, address[1..]);
      if Scans(rest, address[1..]) {
        assert 1 <= DotFreeLength(address);
      }
      if n :| 1 <= n <= DotFreeLength(address[1..]) && Scans(rest, address[1..][n..]) {
        assert address[1..][n..] == address[n + 1..];
        assert 1 <= n + 1 <= DotFreeLength(address) && Scans(rest, address[n + 1..]);
      }
      if n :| 1 <= n <= DotFreeLength(address) && Scans(rest, address[n..]) {
        if n > 1 {
          assert address[1..][n - 1..] == address[n..];
        }
      }
    }
  }

  /** The recursive matcher and the character-by-character one accept the same addresses. */
  lemma {:induction false} MatchesIffScans(pattern: string, address: string)
    ensures Matches(pattern, address) <==> Scans(pattern, address)
    decreases |pattern|
  {
    match SplitOnce(pattern, '*') {
      case None =>
        assert pattern + "" == pattern;
        ScansLiteral(pattern, "", address);
        assert pattern <= address && address[|pattern|..] == "" ==> pattern == address;
      case Some((prefix, rest)) =>
        assert pattern == prefix + ("*" + rest);
        ScansLiteral(prefix, "*" + rest, address);
        if prefix <= address {
          var remainder := address[|prefix|..];
          ScansStar(rest, remainder);
          forall n | 1 <= n <= DotFreeLength(remainder)
            ensures Matches(rest, remainder[n..]) <==> Scans(rest, remainder[n..])
          {
            MatchesIffScans(rest, remainder[n..]);
          }
        }
    }
  }

  // Filters

  datatype InterfaceFilter = InterfaceFilter(whitelist: Option<seq<string>>, blacklist: Option<seq<string>>)

  predicate AnyAddressMatches(addresses: seq<string>, patterns: seq<string>) {
    exists i :: 0 <= i < |addresses| && exists j :: 0 <= j < |patterns| && Matches(patterns[j], addresses[i])
  }

  predicate IsIgnored(filter: InterfaceFilter, addresses: seq<string>) {
    if filter.whitelist.Some? && !AnyAddressMatches(addresses, filter.whitelist.value) then true
    else filter.blacklist.Some? && AnyAddressMatches(addresses, filter.blacklist.value)
  }

  /** An address the list names when its stars are filled in. */
  ghost predicate Named(addresses: seq<string>, patterns: seq<string>) {
    exists address, pattern :: address in addresses && pattern in patterns && Denotes(pattern, address)
  }

  /** An interface is used exactly if a given whitelist names it and no blacklist does: the blacklist wins. */
  lemma {:induction false} UsedIff(filter: InterfaceFilter, addresses: seq<string>)
    ensures !IsIgnored(filter, addresses) <==>
      && (filter.whitelist.Some? ==> Named(addresses, filter.whitelist.value))
      && !(filter.blacklist.Some? && Named(addresses, filter.blacklist.value))
  {
    forall patterns ensures AnyAddressMatches(addresses, patterns) <==> Named(addresses, patterns) {
      NamedIffMatches(addresses, patterns);
    }
  }

  lemma {:induction false} NamedIffMatches(addresses: seq<string>, patterns: seq<string>)
    ensures AnyAddressMatches(addresses, patterns) <==> Named(addresses, patterns)
  {
    hide Matches, Denotes;
    forall i, j | 0 <= i < |addresses| && 0 <= j < |patterns|
      ensures Matches(patterns[j], addresses[i]) <==> Denotes(patterns[j], addresses[i])
    {
      MatchesIffDenotes(patterns[j], addresses[i]);
    }
  }
}
