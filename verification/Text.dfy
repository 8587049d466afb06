/** Bytes, flattening of chunk lists, ASCII case folding, UTF-8 lengths and splitting. */
module Text {
  import opened Wrappers

  newtype Byte = x: int | 0 <= x < 256

  type Bytes = seq<Byte>

  /** The concatenation of the chunks. */
  function Flatten(chunks: seq<Bytes>): Bytes {
    if chunks == [] then [] else Flatten(chunks[..|chunks| - 1]) + chunks[|chunks| - 1]
  }

  lemma {:induction false} FlattenAppend(chunks: seq<Bytes>, chunk: Bytes)
    ensures Flatten(chunks + [chunk]) == Flatten(chunks) + chunk
  {
    assert (chunks + [chunk])[..|chunks|] == chunks;
  }

  lemma FlattenNone()
    ensures Flatten([]) == []
  {
  }

  lemma FlattenOne(chunk: Bytes)
    ensures Flatten([chunk]) == chunk
  {
    assert [chunk][..0] == [];
  }

  lemma {:induction false} FlattenConcat(a: seq<Bytes>, b: seq<Bytes>)
    ensures Flatten(a + b) == Flatten(a) + Flatten(b)
    decreases |b|
  {
    if b == [] {
      FlattenNone();
      hide Flatten;
      assert a + b == a;
    } else {
      hide Flatten;
      var init, last := b[..|b| - 1], b[|b| - 1];
      FlattenConcat(a, init);
      FlattenAppend(init, last);
      FlattenAppend(a + init, last);
      assert b == init + [last] && a + b == (a + init) + [last];
      assert (Flatten(a) + Flatten(init)) + last == Flatten(a) + (Flatten(init) + last);
    }
  }

  lemma {:induction false} FlattenHead(chunks: seq<Bytes>)
    requires chunks != []
    ensures Flatten(chunks) == chunks[0] + Flatten(chunks[1..])
  {
    FlattenConcat([chunks[0]], chunks[1..]);
    assert [chunks[0]] + chunks[1..] == chunks;
    assert Flatten([chunks[0]]) == chunks[0];
  }

  function ToLower(c: char): char {
    if 'A' <= c <= 'Z' then c - 'A' + 'a' else c
  }

  /** `str::eq_ignore_ascii_case`. */
  predicate EqIgnoreAsciiCase(a: string, b: string) {
    |a| == |b| && forall i :: 0 <= i < |a| ==> ToLower(a[i]) == ToLower(b[i])
  }

  /** One letter for the other case of it, or the same character. */
  predicate SameLetter(a: char, b: char) {
    || a == b
    || ('A' <= a <= 'Z' && b as int == a as int + 32)
    || ('A' <= b <= 'Z' && a as int == b as int + 32)
  }

  lemma FoldedLetters(a: char, b: char)
    ensures ToLower(a) == ToLower(b) <==> SameLetter(a, b)
  {
  }

  function Utf8Length(c: char): nat {
    if c as int < 0x80 then 1 else if c as int < 0x800 then 2 else if c as int < 0x10000 then 3 else 4
  }

  /** `str::len`: the number of bytes of the UTF-8 encoding. */
  function ByteLength(s: string): nat {
    if s == [] then 0 else ByteLength(s[..|s| - 1]) + Utf8Length(s[|s| - 1])
  }

  lemma {:induction false} ByteLengthConcat(a: string, b: string)
    ensures ByteLength(a + b) == ByteLength(a) + ByteLength(b)
    decreases |b|
  {
    if b == [] {
      assert a + b == a;
    } else {
      ByteLengthConcat(a, b[..|b| - 1]);
      assert (a + b)[..|a + b| - 1] == a + b[..|b| - 1];
    }
  }

  lemma {:induction false} ByteLengthBounds(s: string)
    ensures |s| <= ByteLength(s) <= 4 * |s|
    decreases |s|
  {
    if s != [] {
      ByteLengthBounds(s[..|s| - 1]);
    }
  }

  /** The parts of a string that starts with `c` and goes on with `parts`. */
  function Prepend(c: char, parts: seq<string>, separators: set<char>): (r: seq<string>)
    requires parts != []
    ensures r != []
  {
    if c in separators then [[]] + parts else [[c] + parts[0]] + parts[1..]
  }

  /** `str::split` on any of the separators. */
  function Split(s: string, separators: set<char>): (parts: seq<string>)
    ensures parts != []
  {
    if s == [] then [[]] else Prepend(s[0], Split(s[1..], separators), separators)
  }

  lemma {:induction false} SplitHasNoSeparators(s: string, separators: set<char>)
    ensures forall i :: 0 <= i < |Split(s, separators)| ==>
      forall c :: c in Split(s, separators)[i] ==> c !in separators && c in s
    decreases |s|
  {
    if s != [] {
      SplitHasNoSeparators(s[1..], separators);
    }
  }

  lemma {:induction false} SplitWithout(s: string, separators: set<char>)
    requires forall c :: c in s ==> c !in separators
    ensures Split(s, separators) == [s]
    decreases |s|
  {
    if s != [] {
      SplitWithout(s[1..], separators);
      assert [s[0]] + s[1..] == s;
    }
  }

  lemma PrependConcat(c: char, a: seq<string>, b: seq<string>, separators: set<char>)
    requires a != []
    ensures Prepend(c, a + b, separators) == Prepend(c, a, separators) + b
  {
  }

  /** Splitting at one separator splits both sides on their own. */
  lemma {:induction false} SplitAtSeparator(a: string, separator: char, b: string, separators: set<char>)
    requires separator in separators
    ensures Split(a + [separator] + b, separators) == Split(a, separators) + Split(b, separators)
    decreases |a|
  {
    var whole := a + [separator] + b;
    if a == [] {
      assert whole[1..] == b;
    } else {
      hide Prepend;
      SplitAtSeparator(a[1..], separator, b, separators);
      assert whole[1..] == a[1..] + [separator] + b;
      assert whole[0] == a[0];
      PrependConcat(a[0], Split(a[1..], separators), Split(b, separators), separators);
    }
  }

  /** `str::split_once`: cuts at the first separator. */
  function SplitOnce(s: string, separator: char): (r: Option<(string, string)>)
    ensures r.None? ==> separator !in s
    ensures r.Some? ==> s == r.value.0 + [separator] + r.value.1 && separator !in r.value.0
  {
    if s == "" then None
    else if s[0] == separator then Some(("", s[1..]))
    else
      match SplitOnce(s[1..], separator)
      case None => None
      case Some((first, rest)) => Some(([s[0]] + first, rest))
  }

  lemma {:induction false} SplitOnceIsUnique(first: string, separator: char, rest: string)
    requires separator !in first
    ensures SplitOnce(first + [separator] + rest, separator) == Some((first, rest))
    decreases |first|
  {
    var s := first + [separator] + rest;
    if first == "" {
      assert s[1..] == rest;
    } else {
      SplitOnceIsUnique(first[1..], separator, rest);
      assert s[1..] == first[1..] + [separator] + rest;
      assert [first[0]] + first[1..] == first;
    }
  }

  /** `str::replace` of one character by another. */
  function Replace(s: string, from: char, to: char): (r: string)
    ensures |r| == |s| && forall i :: 0 <= i < |s| ==> r[i] == if s[i] == from then to else s[i]
  {
    seq(|s|, i requires 0 <= i < |s| => if s[i] == from then to else s[i])
  }
}
