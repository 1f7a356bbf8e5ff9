/** The recursive text splitter: `_split_text` of `scripts/ingest_kra_docs.py`. */
module Splitter {

  // ------------------------------------------------ strings

  /** Python's `str.isspace` for one character, as `strip` uses it. */
  predicate IsSpace(c: char)
  {
    var n := c as int;
    || 0x09 <= n <= 0x0D || 0x1C <= n <= 0x20 || n == 0x85 || n == 0xA0 || n == 0x1680 || 0x2000 <= n <= 0x200A
    || n == 0x2028 || n == 0x2029 || n == 0x202F || n == 0x205F || n == 0x3000
  }

  predicate StartsAt(whole: string, part: string, i: int)
  {
    0 <= i && i + |part| <= |whole| && whole[i..i + |part|] == part
  }

  /** `part in whole`. */
  predicate Occurs(part: string, whole: string)
  {
    exists i :: 0 <= i <= |whole| && StartsAt(whole, part, i)
  }

  function LeftStrip(s: string): string
  {
    if s != "" && IsSpace(s[0]) then LeftStrip(s[1..]) else s
  }

  function RightStrip(s: string): string
  {
    if s != "" && IsSpace(s[|s| - 1]) then RightStrip(s[..|s| - 1]) else s
  }

  /** `s.strip()`. */
  function Strip(s: string): string
  {
    RightStrip(LeftStrip(s))
  }

  /** Nothing to strip at either end. */
  predicate Trimmed(s: string)
  {
    s != "" ==> !IsSpace(s[0]) && !IsSpace(s[|s| - 1])
  }

  /** The first place at or after `i` where `sep` starts, or the length when there is none. */
  function Find(text: string, sep: string, i: nat): (at: nat)
    requires i <= |text|
    ensures i <= at <= |text|
    ensures at < |text| ==> StartsAt(text, sep, at)
    decreases |text| - i
  {
    if i == |text| || StartsAt(text, sep, i) then i else Find(text, sep, i + 1)
  }

  lemma {:induction false} FindIsFirst(text: string, sep: string, i: nat, k: nat)
    requires i <= |text| && i <= k < Find(text, sep, i)
    ensures !StartsAt(text, sep, k)
    decreases |text| - i
  {
    if k > i { FindIsFirst(text, sep, i + 1, k); }
  }

  /** `text.split(sep)`. */
  function Split(text: string, sep: string): (parts: seq<string>)
    requires sep != ""
    ensures parts != []
    decreases |text|
  {
    var at := Find(text, sep, 0);
    if at < |text| then [text[..at]] + Split(text[at + |sep|..], sep) else [text]
  }

  /** `sep.join(parts)`. */
  function Join(parts: seq<string>, sep: string): string
  {
    if parts == [] then "" else if |parts| == 1 then parts[0] else parts[0] + sep + Join(parts[1..], sep)
  }

  function Chars(text: string): seq<string>
  {
    seq(|text|, i requires 0 <= i < |text| => [text[i]])
  }

  lemma {:induction false} JoinSplit(text: string, sep: string)
    requires sep != ""
    ensures Join(Split(text, sep), sep) == text
    decreases |text|
  {
    var at := Find(text, sep, 0);
    if at < |text| {
      var rest := text[at + |sep|..];
      JoinSplit(rest, sep);
      var parts := Split(text, sep);
      assert parts[1..] == Split(rest, sep);
      assert text == text[..at] + sep + rest;
    }
  }

  lemma NotBefore(text: string, sep: string, at: nat)
    requires sep != "" && at == Find(text, sep, 0)
    ensures !Occurs(sep, text[..at])
  {
    forall i | 0 <= i <= at ensures !StartsAt(text[..at], sep, i) {
      if i + |sep| <= at {
        FindIsFirst(text, sep, 0, i);
        assert text[..at][i..i + |sep|] == text[i..i + |sep|];
      }
    }
  }

  lemma {:induction false} SplitMore(text: string, sep: string, at: nat)
    requires sep != "" && at + |sep| <= |text| && at == Find(text, sep, 0)
    ensures Split(text, sep) == [text[..at]] + Split(text[at + |sep|..], sep)
  {
  }

  lemma {:induction false} SplitLast(text: string, sep: string)
    requires sep != "" && Find(text, sep, 0) == |text|
    ensures Split(text, sep) == [text]
  {
  }

  ghost predicate AllLack(parts: seq<string>, sep: string)
  {
    forall i :: 0 <= i < |parts| ==> !Occurs(sep, parts[i])
  }

  lemma OneMoreLacks(first: string, rest: seq<string>, sep: string)
    requires !Occurs(sep, first) && AllLack(rest, sep)
    ensures AllLack([first] + rest, sep)
  {
  }

  /** No part still holds the separator. */
  lemma {:induction false} PartsLackSeparator(text: string, sep: string)
    requires sep != ""
    ensures AllLack(Split(text, sep), sep)
    decreases |text|
  {
    var at := Find(text, sep, 0);
    NotBefore(text, sep, at);
    if at == |text| {
      SplitLast(text, sep);
      assert text[..at] == text;
    } else {
      assert StartsAt(text, sep, at);
      SplitMore(text, sep, at);
      var rest := text[at + |sep|..];
      PartsLackSeparator(rest, sep);
      OneMoreLacks(text[..at], Split(rest, sep), sep);
    }
  }

  // ------------------------------------------------ occurrences

  lemma OccursIn(part: string, before: string, after: string)
    ensures Occurs(part, before + part + after)
  {
    assert StartsAt(before + part + after, part, |before|);
  }

  lemma OccursThrough(a: string, b: string, c: string)
    requires Occurs(a, b) && Occurs(b, c)
    ensures Occurs(a, c)
  {
    var i :| 0 <= i <= |b| && StartsAt(b, a, i);
    var j :| 0 <= j <= |c| && StartsAt(c, b, j);
    forall k | 0 <= k < |a| ensures c[j + i..j + i + |a|][k] == a[k] {
      assert b[i..i + |a|][k] == b[i + k] && c[j..j + |b|][i + k] == c[j + i + k];
    }
    assert StartsAt(c, a, j + i);
  }

  lemma {:induction false} OccursInJoin(parts: seq<string>, sep: string, part: string)
    requires part in parts
    ensures Occurs(part, Join(parts, sep))
  {
    var whole := Join(parts, sep);
    if part == parts[0] {
      if |parts| == 1 {
        OccursIn(part, "", "");
        assert "" + part + "" == whole;
      } else {
        OccursIn(part, "", sep + Join(parts[1..], sep));
        assert "" + part + (sep + Join(parts[1..], sep)) == whole;
      }
    } else {
      assert part in parts[1..];
      var rest := Join(parts[1..], sep);
      OccursInJoin(parts[1..], sep, part);
      OccursIn(rest, parts[0] + sep, "");
      assert (parts[0] + sep) + rest + "" == whole;
      OccursThrough(part, rest, whole);
    }
  }

  lemma {:induction false} LeftStripIsSuffix(s: string)
    ensures Occurs(LeftStrip(s), s) && (LeftStrip(s) != "" ==> !IsSpace(LeftStrip(s)[0]))
  {
    if s != "" && IsSpace(s[0]) {
      LeftStripIsSuffix(s[1..]);
      OccursIn(s[1..], s[..1], "");
      assert s[..1] + s[1..] + "" == s;
      OccursThrough(LeftStrip(s), s[1..], s);
    } else {
      assert StartsAt(s, s, 0);
    }
  }

  lemma {:induction false} RightStripIsPrefix(s: string)
    ensures Occurs(RightStrip(s), s) && RightStrip(s) <= s
    ensures RightStrip(s) != "" ==> !IsSpace(RightStrip(s)[|RightStrip(s)| - 1])
  {
    if s != "" && IsSpace(s[|s| - 1]) {
      RightStripIsPrefix(s[..|s| - 1]);
    }
    assert StartsAt(s, RightStrip(s), 0);
  }

  lemma StripTrims(s: string)
    ensures Trimmed(Strip(s)) && Occurs(Strip(s), s)
  {
    LeftStripIsSuffix(s);
    RightStripIsPrefix(LeftStrip(s));
    OccursThrough(Strip(s), LeftStrip(s), s);
  }

  lemma {:induction false} OccursInLeftStrip(part: string, s: string)
    requires part != "" && !IsSpace(part[0]) && Occurs(part, s)
    ensures Occurs(part, LeftStrip(s))
  {
    if s != "" && IsSpace(s[0]) {
      var i :| 0 <= i <= |s| && StartsAt(s, part, i);
      assert s[i] == part[0];
      assert s[1..][i - 1..i - 1 + |part|] == s[i..i + |part|];
      assert StartsAt(s[1..], part, i - 1);
      OccursInLeftStrip(part, s[1..]);
    }
  }

  lemma {:induction false} OccursInRightStrip(part: string, s: string)
    requires part != "" && !IsSpace(part[|part| - 1]) && Occurs(part, s)
    ensures Occurs(part, RightStrip(s))
  {
    if s != "" && IsSpace(s[|s| - 1]) {
      var i :| 0 <= i <= |s| && StartsAt(s, part, i);
      assert s[i + |part| - 1] == part[|part| - 1];
      assert s[..|s| - 1][i..i + |part|] == s[i..i + |part|];
      assert StartsAt(s[..|s| - 1], part, i);
      OccursInRightStrip(part, s[..|s| - 1]);
    }
  }

  /** Stripping a chunk never cuts into a trimmed text inside it. */
  lemma OccursInStrip(part: string, s: string)
    requires part != "" && Trimmed(part) && Occurs(part, s)
    ensures Occurs(part, Strip(s)) && Strip(s) != ""
  {
    OccursInLeftStrip(part, s);
    OccursInRightStrip(part, LeftStrip(s));
  }

  // ------------------------------------------------ what a text is made of

  /** A fragment small enough to keep whole, or a separator between fragments. */
  datatype Piece = Leaf(text: string) | Gap(separator: string)

  function TextOf(piece: Piece): string
  {
    match piece case Leaf(text) => text case Gap(separator) => separator
  }

  function Concat(pieces: seq<Piece>): string
  {
    if pieces == [] then "" else TextOf(pieces[0]) + Concat(pieces[1..])
  }

  /** The first separator that is empty or occurs in the text; the length when none does. */
  function Choose(text: string, separators: seq<string>): (k: nat)
    ensures k <= |separators|
    ensures k < |separators| ==> separators[k] == "" || Occurs(separators[k], text)
    ensures forall j :: 0 <= j < k ==> separators[j] != "" && !Occurs(separators[j], text)
  {
    if separators == [] || separators[0] == "" || Occurs(separators[0], text) then 0 else 1 + Choose(text, separators[1..])
  }

  function SeparatorFor(text: string, separators: seq<string>): string
  {
    var k := Choose(text, separators); if k < |separators| then separators[k] else ""
  }

  /** The separators left for the next level: all of them when none was found. */
  function Remaining(text: string, separators: seq<string>): seq<string>
  {
    var k := Choose(text, separators); if k < |separators| then separators[k + 1..] else separators
  }

  function Fragments(text: string, separator: string): seq<string>
  {
    if separator != "" then Split(text, separator) else Chars(text)
  }

  /** The text taken apart level by level, down to fragments that fit. */
  function Pieces(text: string, separators: seq<string>, size: nat): seq<Piece>
    decreases |separators|, 0, 0
  {
    var separator := SeparatorFor(text, separators);
    if separator == "" then seq(|text|, i requires 0 <= i < |text| => Leaf([text[i]]))
    else PiecesOf(Split(text, separator), separator, Remaining(text, separators), size)
  }

  function PiecesOf(parts: seq<string>, separator: string, remaining: seq<string>, size: nat): seq<Piece>
    decreases |remaining|, 1, |parts|
  {
    if parts == [] then []
    else
      PieceOf(parts[0], remaining, size)
      + if |parts| == 1 then [] else [Gap(separator)] + PiecesOf(parts[1..], separator, remaining, size)
  }

  function PieceOf(part: string, remaining: seq<string>, size: nat): seq<Piece>
    decreases |remaining|, 0, 1
  {
    if |part| > size then Pieces(part, remaining, size) else [Leaf(part)]
  }

  lemma Associates(a: string, b: string, c: string)
    ensures (a + b) + c == a + (b + c)
  {
  }

  lemma {:induction false} ConcatAppend(a: seq<Piece>, b: seq<Piece>)
    ensures Concat(a + b) == Concat(a) + Concat(b)
  {
    if a == [] {
      assert a + b == b;
    } else {
      ConcatAppend(a[1..], b);
      assert (a + b)[1..] == a[1..] + b && (a + b)[0] == a[0];
      Associates(TextOf(a[0]), Concat(a[1..]), Concat(b));
    }
  }

  lemma {:induction false} ConcatChars(text: string, pieces: seq<Piece>)
    requires |pieces| == |text| && forall i :: 0 <= i < |text| ==> pieces[i] == Leaf([text[i]])
    ensures Concat(pieces) == text
  {
    if text != "" {
      ConcatChars(text[1..], pieces[1..]);
      assert text == [text[0]] + text[1..];
    }
  }

  /** Taking a text apart loses nothing: its pieces, in order, are the text. */
  lemma {:induction false} PiecesAreText(text: string, separators: seq<string>, size: nat)
    ensures Concat(Pieces(text, separators, size)) == text
    decreases |separators|, 0, 0
  {
    var separator := SeparatorFor(text, separators);
    if separator == "" {
      ConcatChars(text, Pieces(text, separators, size));
    } else {
      PartsAreJoin(Split(text, separator), separator, Remaining(text, separators), size);
      JoinSplit(text, separator);
    }
  }

  lemma ConcatOne(piece: Piece)
    ensures Concat([piece]) == TextOf(piece)
  {
    assert Concat([piece]) == TextOf(piece) + Concat([]);
  }

  lemma {:induction false} PartsAreJoin(parts: seq<string>, separator: string, remaining: seq<string>, size: nat)
    ensures Concat(PiecesOf(parts, separator, remaining, size)) == Join(parts, separator)
    decreases |remaining|, 1, |parts|
  {
    if parts != [] {
      var first := PieceOf(parts[0], remaining, size);
      PartIsText(parts[0], remaining, size);
      if |parts| > 1 {
        var rest := PiecesOf(parts[1..], separator, remaining, size);
        PartsAreJoin(parts[1..], separator, remaining, size);
        ConcatAppend([Gap(separator)], rest);
        ConcatOne(Gap(separator));
        ConcatAppend(first, [Gap(separator)] + rest);
      } else {
        assert first + [] == first;
      }
    }
  }

  lemma {:induction false} PartIsText(part: string, remaining: seq<string>, size: nat)
    ensures Concat(PieceOf(part, remaining, size)) == part
    decreases |remaining|, 0, 1
  {
    if |part| > size {
      PiecesAreText(part, remaining, size);
    } else {
      ConcatOne(Leaf(part));
    }
  }

  /** The gaps are separators of the list. */
  lemma {:induction false} GapsAreSeparators(text: string, separators: seq<string>, size: nat, gap: string)
    requires Gap(gap) in Pieces(text, separators, size)
    ensures gap in separators
    decreases |separators|, 0, 0
  {
    var separator := SeparatorFor(text, separators);
    if separator != "" {
      GapsInParts(Split(text, separator), separator, Remaining(text, separators), size, gap);
    }
  }

  lemma {:induction false} GapsInParts(parts: seq<string>, separator: string, remaining: seq<string>, size: nat, gap: string)
    requires Gap(gap) in PiecesOf(parts, separator, remaining, size)
    ensures gap == separator || gap in remaining
    decreases |remaining|, 1, |parts|
  {
    if Gap(gap) in PieceOf(parts[0], remaining, size) {
      GapsAreSeparators(parts[0], remaining, size, gap);
    } else if gap != separator {
      GapsInParts(parts[1..], separator, remaining, size, gap);
    }
  }

  /** A leaf of the parts is a leaf of one of them. */
  lemma {:induction false} LeafOfParts(parts: seq<string>, separator: string, remaining: seq<string>, size: nat, leaf: string) returns (i: nat)
    requires Leaf(leaf) in PiecesOf(parts, separator, remaining, size)
    ensures i < |parts| && Leaf(leaf) in PieceOf(parts[i], remaining, size)
    decreases |parts|
  {
    if Leaf(leaf) in PieceOf(parts[0], remaining, size) {
      i := 0;
    } else {
      var j := LeafOfParts(parts[1..], separator, remaining, size, leaf);
      i := j + 1;
    }
  }

  lemma {:induction false} PartsHold(parts: seq<string>, separator: string, remaining: seq<string>, size: nat, i: nat, leaf: string)
    requires i < |parts| && Leaf(leaf) in PieceOf(parts[i], remaining, size)
    ensures Leaf(leaf) in PiecesOf(parts, separator, remaining, size)
    decreases |parts|
  {
    if i > 0 { PartsHold(parts[1..], separator, remaining, size, i - 1, leaf); }
  }

  /** The leaves of a text are those of its fragments. */
  lemma LeavesOfFragments(text: string, separators: seq<string>, size: nat, leaf: string)
    requires size >= 1
    ensures var fragments := Fragments(text, SeparatorFor(text, separators));
            Leaf(leaf) in Pieces(text, separators, size) <==>
            exists i :: 0 <= i < |fragments| && Leaf(leaf) in PieceOf(fragments[i], Remaining(text, separators), size)
  {
    var separator := SeparatorFor(text, separators);
    var fragments, remaining := Fragments(text, separator), Remaining(text, separators);
    if separator != "" {
      if Leaf(leaf) in Pieces(text, separators, size) {
        var i := LeafOfParts(fragments, separator, remaining, size, leaf);
      }
      if i :| 0 <= i < |fragments| && Leaf(leaf) in PieceOf(fragments[i], remaining, size) {
        PartsHold(fragments, separator, remaining, size, i, leaf);
      }
    } else {
      assert forall i :: 0 <= i < |fragments| ==> PieceOf(fragments[i], remaining, size) == [Pieces(text, separators, size)[i]];
      if Leaf(leaf) in Pieces(text, separators, size) {
        var i :| 0 <= i < |fragments| && Pieces(text, separators, size)[i] == Leaf(leaf);
        assert Leaf(leaf) in PieceOf(fragments[i], remaining, size);
      }
    }
  }

  // ------------------------------------------------ the splitter

  function TotalLength(parts: seq<string>): nat
  {
    if parts == [] then 0 else |parts[0]| + TotalLength(parts[1..])
  }

  /** Where the tail that fits the limit starts, going back from `i` with `length` kept so far. */
  function TailStart(current: seq<string>, i: nat, length: nat, pad: nat, limit: int): (start: nat)
    requires i <= |current|
    ensures start <= i
    decreases i
  {
    if i == 0 || length + |current[i - 1]| + pad > limit then i
    else TailStart(current, i - 1, length + |current[i - 1]|, pad, limit)
  }

  function Carried(current: seq<string>, pad: nat, limit: int): seq<string>
  {
    current[TailStart(current, |current|, 0, pad, limit)..]
  }

  /** The longest tail of `current` within the limit, every part counted with the pad that is left for one. */
  ghost predicate IsOverlap(kept: seq<string>, current: seq<string>, pad: nat, limit: int)
  {
    && |kept| <= |current| && kept == current[|current| - |kept|..]
    && (kept != [] ==> TotalLength(kept) + pad <= limit)
    && (|kept| < |current| ==> TotalLength(kept) + |current[|current| - |kept| - 1]| + pad > limit)
  }

  /** The overlap carried over. */
  method Carry(current: seq<string>, pad: nat, limit: int) returns (kept: seq<string>, length: nat)
    ensures IsOverlap(kept, current, pad, limit) && length == TotalLength(kept)
    ensures kept == Carried(current, pad, limit)
  {
    kept, length := [], 0;
    var i := |current|;
    while i > 0
      invariant 0 <= i <= |current| && kept == current[i..] && length == TotalLength(kept)
      invariant kept != [] ==> length + pad <= limit
      invariant TailStart(current, |current|, 0, pad, limit) == TailStart(current, i, length, pad, limit)
    {
      var part := current[i - 1];
      if length + |part| + pad > limit { return; }
      kept := [part] + kept;
      length := length + |part|;
      i := i - 1;
    }
  }

  /** The text stands, whole, inside some chunk. */
  predicate Covered(text: string, chunks: seq<string>)
  {
    exists i :: 0 <= i < |chunks| && Occurs(text, chunks[i])
  }

  /** A fragment that is in some chunk already, or will be with the one being built. */
  ghost predicate Safe(leaf: string, chunks: seq<string>, current: seq<string>)
  {
    Strip(leaf) == "" || Covered(Strip(leaf), chunks) || leaf in current
  }

  lemma CoveredStays(text: string, chunks: seq<string>, more: seq<string>)
    ensures Covered(text, chunks) || Covered(text, more) ==> Covered(text, chunks + more)
  {
    if Covered(text, chunks) {
      var i :| 0 <= i < |chunks| && Occurs(text, chunks[i]);
      assert Occurs(text, (chunks + more)[i]);
    }
    if Covered(text, more) {
      var i :| 0 <= i < |more| && Occurs(text, more[i]);
      assert Occurs(text, (chunks + more)[|chunks| + i]);
    }
  }

  /** Writing out the current chunk makes everything in it safe for good. */
  lemma FlushIsSafe(leaf: string, chunks: seq<string>, current: seq<string>, separator: string)
    requires Safe(leaf, chunks, current)
    ensures Strip(leaf) == "" || Covered(Strip(leaf), chunks + [Join(current, separator)])
  {
    var chunk := Join(current, separator);
    if leaf in current {
      OccursInJoin(current, separator, leaf);
      StripTrims(leaf);
      OccursThrough(Strip(leaf), leaf, chunk);
      assert Occurs(Strip(leaf), [chunk][0]);
    }
    CoveredStays(Strip(leaf), chunks, [chunk]);
  }

  /** A chunk is the stripped join of leaves, by one of the separators. */
  ghost predicate Built(chunk: string, pieces: seq<Piece>, separators: seq<string>)
  {
    exists parts, separator :: BuiltFrom(chunk, pieces, separators, parts, separator)
  }

  ghost predicate BuiltFrom(chunk: string, pieces: seq<Piece>, separators: seq<string>, parts: seq<string>, separator: string)
  {
    chunk == Strip(Join(parts, separator)) && (separator == "" || separator in separators)
    && forall part :: part in parts ==> Leaf(part) in pieces
  }

  lemma {:induction false} TrimmedStays(s: string)
    requires Trimmed(s)
    ensures Strip(s) == s
  {
  }

  function Cleaned(chunks: seq<string>): seq<string>
  {
    if chunks == [] then []
    else
      var last := Strip(chunks[|chunks| - 1]);
      Cleaned(chunks[..|chunks| - 1]) + if last != "" then [last] else []
  }

  lemma {:induction false} CleanedAreTrimmed(chunks: seq<string>, i: nat)
    requires i < |Cleaned(chunks)|
    ensures Cleaned(chunks)[i] != "" && Trimmed(Cleaned(chunks)[i])
    ensures exists k :: 0 <= k < |chunks| && Cleaned(chunks)[i] == Strip(chunks[k])
  {
    var init := chunks[..|chunks| - 1];
    StripTrims(chunks[|chunks| - 1]);
    if i < |Cleaned(init)| {
      CleanedAreTrimmed(init, i);
      var k :| 0 <= k < |init| && Cleaned(init)[i] == Strip(init[k]);
      assert chunks[k] == init[k];
    }
  }

  lemma {:induction false} CleanedHolds(chunks: seq<string>, k: nat)
    requires k < |chunks| && Strip(chunks[k]) != ""
    ensures Strip(chunks[k]) in Cleaned(chunks)
  {
    if k < |chunks| - 1 { CleanedHolds(chunks[..|chunks| - 1], k); }
  }

  /** Stripping the chunks and dropping blank ones loses no trimmed text. */
  lemma CleanedCovers(chunks: seq<string>, text: string)
    requires text != "" && Trimmed(text) && Covered(text, chunks)
    ensures Covered(text, Cleaned(chunks))
  {
    var k :| 0 <= k < |chunks| && Occurs(text, chunks[k]);
    OccursInStrip(text, chunks[k]);
    CleanedHolds(chunks, k);
    var i :| 0 <= i < |Cleaned(chunks)| && Cleaned(chunks)[i] == Strip(chunks[k]);
    assert Occurs(text, Cleaned(chunks)[i]);
  }

  /** `[c.strip() for c in chunks if c.strip()]`. */
  method Clean(chunks: seq<string>) returns (cleaned: seq<string>)
    ensures cleaned == Cleaned(chunks)
  {
    cleaned := [];
    for k := 0 to |chunks|
      invariant cleaned == Cleaned(chunks[..k])
    {
      assert chunks[..k + 1][..k] == chunks[..k];
      if Strip(chunks[k]) != "" { cleaned := cleaned + [Strip(chunks[k])]; }
    }
    assert chunks[..|chunks|] == chunks;
  }

  ghost predicate OverlapFrom(current: seq<string>, start: nat, pad: nat, limit: int)
    requires start <= |current|
  {
    var length := TotalLength(current[start..]);
    && (start < |current| ==> length + pad <= limit)
    && (start > 0 ==> length + |current[start - 1]| + pad > limit)
  }

  lemma OneMoreKept(current: seq<string>, i: nat)
    requires 0 < i <= |current|
    ensures TotalLength(current[i - 1..]) == |current[i - 1]| + TotalLength(current[i..])
  {
    var tail := current[i - 1..];
    assert tail[0] == current[i - 1] && tail[1..] == current[i..];
  }

  lemma {:induction false} TailFits(current: seq<string>, i: nat, length: nat, pad: nat, limit: int)
    requires i <= |current| && length == TotalLength(current[i..]) && (i < |current| ==> length + pad <= limit)
    ensures OverlapFrom(current, TailStart(current, i, length, pad, limit), pad, limit)
    decreases i
  {
    if i > 0 && length + |current[i - 1]| + pad <= limit {
      OneMoreKept(current, i);
      TailFits(current, i - 1, length + |current[i - 1]|, pad, limit);
    }
  }

  // ------------------------------------------------ the chunks, as a function

  /** Chunks written, the chunk being built, and its length as the loop counts it. */
  datatype Work = Work(written: seq<string>, current: seq<string>, length: nat)

  function Flushed(w: Work, separator: string, pad: nat, overlap: int): Work
  {
    if w.current == [] then w
    else
      var kept := Carried(w.current, pad, overlap);
      Work(w.written + [Join(w.current, separator)], kept, TotalLength(kept))
  }

  /** One turn of the loop; `sub` are the chunks of the fragment when it is too long. */
  function Turn(w: Work, split: string, sub: seq<string>, separator: string, size: nat, overlap: int): Work
  {
    if |split| > size then
      var flushed := Flushed(w, separator, 0, overlap);
      flushed.(written := flushed.written + sub)
    else
      var ready := if w.length + |split| + |separator| > size then Flushed(w, separator, |separator|, overlap) else w;
      Work(ready.written, ready.current + [split], ready.length + |split| + |separator|)
  }

  function Turns(splits: seq<string>, subs: seq<seq<string>>, separator: string, size: nat, overlap: int): Work
    requires |subs| == |splits|
  {
    if splits == [] then Work([], [], 0)
    else
      var n := |splits| - 1;
      Turn(Turns(splits[..n], subs[..n], separator, size, overlap), splits[n], subs[n], separator, size, overlap)
  }

  function Finished(w: Work, separator: string): seq<string>
  {
    if w.current == [] then w.written else w.written + [Join(w.current, separator)]
  }

  /** The chunks of each fragment that is too long; single characters never are. */
  function Subs(text: string, separators: seq<string>, size: nat, overlap: int): (subs: seq<seq<string>>)
    ensures |subs| == |Fragments(text, SeparatorFor(text, separators))|
    decreases |separators|, 0
  {
    var splits := Fragments(text, SeparatorFor(text, separators));
    if SeparatorFor(text, separators) == "" then seq(|splits|, i => [])
    else
      seq(|splits|, i requires 0 <= i < |splits| =>
        if |splits[i]| > size then Chunks(splits[i], Remaining(text, separators), size, overlap) else [])
  }

  function Chunks(text: string, separators: seq<string>, size: nat, overlap: int): seq<string>
    decreases |separators|, 1
  {
    var separator := SeparatorFor(text, separators);
    Cleaned(Finished(Turns(Fragments(text, separator), Subs(text, separators, size, overlap), separator, size, overlap), separator))
  }

  lemma {:induction false} CarriedIsOverlap(current: seq<string>, pad: nat, limit: int)
    ensures IsOverlap(Carried(current, pad, limit), current, pad, limit)
  {
    assert current[|current|..] == [];
    TailFits(current, |current|, 0, pad, limit);
    var start := TailStart(current, |current|, 0, pad, limit);
    assert |current| - |current[start..]| == start;
  }

  /** A fragment that fits joins the current chunk while the chunk stays within the size as it is counted. */
  lemma {:induction false} TurnJoins(w: Work, split: string, sub: seq<string>, separator: string, size: nat, overlap: int)
    requires |split| <= size && (w.current == [] || w.length + |split| + |separator| <= size)
    ensures Turn(w, split, sub, separator, size, overlap) == Work(w.written, w.current + [split], w.length + |split| + |separator|)
  {
  }

  /** Otherwise the current chunk is written and the next one begins with the overlap of it. */
  lemma {:induction false} TurnFlushes(w: Work, split: string, sub: seq<string>, separator: string, size: nat, overlap: int)
    requires |split| <= size && w.current != [] && w.length + |split| + |separator| > size
    ensures var kept := Carried(w.current, |separator|, overlap);
            Turn(w, split, sub, separator, size, overlap) ==
            Work(w.written + [Join(w.current, separator)], kept + [split], TotalLength(kept) + |split| + |separator|)
  {
  }

  /** For a fragment that is too long the current chunk is written, its overlap kept, and the fragment's own chunks follow. */
  lemma {:induction false} TurnRecurses(w: Work, split: string, sub: seq<string>, separator: string, size: nat, overlap: int)
    requires |split| > size
    ensures w.current == [] ==> Turn(w, split, sub, separator, size, overlap) == w.(written := w.written + sub)
    ensures var kept := Carried(w.current, 0, overlap);
            w.current != [] ==>
              Turn(w, split, sub, separator, size, overlap) == Work(w.written + [Join(w.current, separator)] + sub, kept, TotalLength(kept))
  {
  }

  // ------------------------------------------------ how consecutive chunks overlap

  /** The fragments that are not taken apart further, in order. */
  function Fitting(splits: seq<string>, size: nat): seq<string>
  {
    if splits == [] then []
    else
      var n := |splits| - 1;
      Fitting(splits[..n], size) + Kept(splits[n], size)
  }

  function Kept(split: string, size: nat): seq<string>
  {
    if |split| <= size then [split] else []
  }

  /** What the overlap sets aside for a separator when `split` comes up: nothing before a fragment that is too long. */
  function Pad(split: string, separator: string, size: nat): nat
  {
    if |split| > size then 0 else |separator|
  }

  /** The chunk at `place`, of the fitting fragments from `from` up to `until`, written when the fragment `cause` came up. */
  datatype Window = Window(from: nat, until: nat, cause: nat, place: nat)

  ghost predicate IsWindow(x: Window, fitting: seq<string>, written: seq<string>, separator: string)
  {
    && x.from < x.until <= |fitting| && x.place < |written|
    && written[x.place] == Join(fitting[x.from..x.until], separator)
  }

  /** A window ends where the loop stood when its cause came up. */
  ghost predicate Caused(x: Window, splits: seq<string>, size: nat)
  {
    x.cause < |splits| && x.until == |Fitting(splits[..x.cause], size)|
  }

  /** What starts at `start` begins with the overlap of the window. */
  ghost predicate Follows(x: Window, start: nat, fitting: seq<string>, pad: nat, overlap: int)
  {
    && x.from <= start <= x.until <= |fitting|
    && IsOverlap(fitting[start..x.until], fitting[x.from..x.until], pad, overlap)
  }

  ghost predicate AfterWindow(x: Window, start: nat, splits: seq<string>, fitting: seq<string>, separator: string, size: nat, overlap: int)
  {
    Caused(x, splits, size) && Follows(x, start, fitting, Pad(splits[x.cause], separator, size), overlap)
  }

  /** Where what comes after a window starts: the next window, or the chunk being built. */
  function StartAfter(windows: seq<Window>, start: nat, k: nat): nat
  {
    if k + 1 < |windows| then windows[k + 1].from else start
  }

  ghost predicate Linked(windows: seq<Window>, start: nat, splits: seq<string>, fitting: seq<string>, separator: string, size: nat, overlap: int)
  {
    && (if windows == [] then start == 0 else windows[0].from == 0)
    && forall k {:trigger StartAfter(windows, start, k)} :: 0 <= k < |windows| ==> AfterWindow(windows[k], StartAfter(windows, start, k), splits, fitting, separator, size, overlap)
  }

  /** Every window is a chunk written, later ones at later places. */
  ghost predicate Windows(windows: seq<Window>, fitting: seq<string>, written: seq<string>, separator: string)
  {
    && (forall k :: 0 <= k < |windows| ==> IsWindow(windows[k], fitting, written, separator))
    && (forall j, k :: 0 <= j < k < |windows| ==> windows[j].place < windows[k].place)
  }

  ghost predicate ByWindow(windows: seq<Window>, p: nat)
  {
    exists k :: 0 <= k < |windows| && windows[k].place == p
  }

  ghost predicate FromLong(chunk: string, splits: seq<string>, subs: seq<seq<string>>, size: nat)
    requires |subs| == |splits|
  {
    exists i :: 0 <= i < |splits| && |splits[i]| > size && chunk in subs[i]
  }

  /** Every chunk written is a window or comes from a fragment that was too long. */
  ghost predicate Accounted(windows: seq<Window>, splits: seq<string>, subs: seq<seq<string>>, written: seq<string>, size: nat)
    requires |subs| == |splits|
  {
    forall p: nat :: p < |written| ==> ByWindow(windows, p) || FromLong(written[p], splits, subs, size)
  }

  /**
   The chunks that the loop joins are windows over the fitting fragments, without
   a gap: the first starts with the first fragment, each next one with the
   overlap of the one before, and so does the chunk being built.
   */
  ghost predicate Slides(windows: seq<Window>, start: nat, splits: seq<string>, subs: seq<seq<string>>, written: seq<string>, current: seq<string>,
      separator: string, size: nat, overlap: int)
    requires |subs| == |splits|
  {
    var fitting := Fitting(splits, size);
    && start <= |fitting| && current == fitting[start..]
    && Windows(windows, fitting, written, separator)
    && Linked(windows, start, splits, fitting, separator, size, overlap)
    && Accounted(windows, splits, subs, written, size)
  }

  lemma {:induction false} FittingOneMore(splits: seq<string>, split: string, size: nat)
    ensures Fitting(splits + [split], size) == Fitting(splits, size) + Kept(split, size)
  {
    assert (splits + [split])[..|splits|] == splits;
  }

  lemma {:induction false} SamePrefix(s: seq<string>, t: seq<string>, i: nat, j: nat)
    requires i <= j <= |s|
    ensures (s + t)[i..j] == s[i..j]
  {
  }

  lemma {:induction false} WindowsStay(windows: seq<Window>, fitting: seq<string>, t: seq<string>, written: seq<string>, more: seq<string>, separator: string)
    requires Windows(windows, fitting, written, separator)
    ensures Windows(windows, fitting + t, written + more, separator)
  {
    forall k | 0 <= k < |windows| ensures IsWindow(windows[k], fitting + t, written + more, separator) {
      assert IsWindow(windows[k], fitting, written, separator);
      SamePrefix(fitting, t, windows[k].from, windows[k].until);
    }
  }

  lemma {:induction false} AfterWindowStays(x: Window, start: nat, splits: seq<string>, split: string, fitting: seq<string>, t: seq<string>,
      separator: string, size: nat, overlap: int)
    requires AfterWindow(x, start, splits, fitting, separator, size, overlap)
    ensures AfterWindow(x, start, splits + [split], fitting + t, separator, size, overlap)
  {
    assert (splits + [split])[..x.cause] == splits[..x.cause];
    SamePrefix(fitting, t, x.from, x.until);
    SamePrefix(fitting, t, start, x.until);
  }

  lemma {:induction false} LinksStay(windows: seq<Window>, start: nat, splits: seq<string>, split: string, fitting: seq<string>, t: seq<string>,
      separator: string, size: nat, overlap: int)
    requires Linked(windows, start, splits, fitting, separator, size, overlap)
    ensures Linked(windows, start, splits + [split], fitting + t, separator, size, overlap)
  {
    forall k | 0 <= k < |windows|
      ensures AfterWindow(windows[k], StartAfter(windows, start, k), splits + [split], fitting + t, separator, size, overlap)
    {
      AfterWindowStays(windows[k], StartAfter(windows, start, k), splits, split, fitting, t, separator, size, overlap);
    }
  }

  lemma {:induction false} ChunkAccounted(windows: seq<Window>, added: seq<Window>, splits: seq<string>, subs: seq<seq<string>>, chunk: string, p: nat,
      split: string, sub: seq<string>, size: nat)
    requires |subs| == |splits|
    requires ByWindow(windows, p) || FromLong(chunk, splits, subs, size) || (|added| == 1 && added[0].place == p) || (|split| > size && chunk in sub)
    ensures ByWindow(windows + added, p) || FromLong(chunk, splits + [split], subs + [sub], size)
  {
    if ByWindow(windows, p) {
      var k :| 0 <= k < |windows| && windows[k].place == p;
      assert (windows + added)[k].place == p;
    } else if FromLong(chunk, splits, subs, size) {
      var i :| 0 <= i < |splits| && |splits[i]| > size && chunk in subs[i];
      assert |(splits + [split])[i]| > size && chunk in (subs + [sub])[i];
    } else if |added| == 1 && added[0].place == p {
      assert (windows + added)[|windows|].place == p;
    } else {
      assert |(splits + [split])[|splits|]| > size && chunk in (subs + [sub])[|splits|];
    }
  }

  lemma {:induction false} AccountedMore(windows: seq<Window>, added: seq<Window>, splits: seq<string>, subs: seq<seq<string>>, written: seq<string>,
      split: string, sub: seq<string>, more: seq<string>, size: nat)
    requires |subs| == |splits| && Accounted(windows, splits, subs, written, size)
    requires forall p :: 0 <= p < |more| ==> (p == 0 && |added| == 1 && added[0].place == |written|) || (|split| > size && more[p] in sub)
    ensures Accounted(windows + added, splits + [split], subs + [sub], written + more, size)
  {
    forall p: nat | p < |written + more|
      ensures ByWindow(windows + added, p) || FromLong((written + more)[p], splits + [split], subs + [sub], size)
    {
      if p >= |written| { assert (written + more)[p] == more[p - |written|]; }
      ChunkAccounted(windows, added, splits, subs, (written + more)[p], p, split, sub, size);
    }
  }

  /** No flush: the windows are those there were. */
  lemma {:induction false} JoiningSlides(windows: seq<Window>, start: nat, splits: seq<string>, subs: seq<seq<string>>, written: seq<string>, current: seq<string>,
      split: string, sub: seq<string>, more: seq<string>, separator: string, size: nat, overlap: int)
    requires |subs| == |splits| && Slides(windows, start, splits, subs, written, current, separator, size, overlap)
    requires more == if |split| > size then sub else []
    ensures Slides(windows, start, splits + [split], subs + [sub], written + more, current + Kept(split, size), separator, size, overlap)
  {
    var fitting, t := Fitting(splits, size), Kept(split, size);
    FittingOneMore(splits, split, size);
    WindowsStay(windows, fitting, t, written, more, separator);
    LinksStay(windows, start, splits, split, fitting, t, separator, size, overlap);
    AccountedMore(windows, [], splits, subs, written, split, sub, more, size);
    assert windows + [] == windows;
    assert (fitting + t)[start..] == current + t;
  }

  /** A flush makes a window of the chunk that was being built. */
  lemma {:induction false} NewestWindow(x: Window, fitting: seq<string>, current: seq<string>, written: seq<string>, separator: string)
    requires x.from <= |fitting| == x.until && current == fitting[x.from..] != [] && x.place == |written|
    ensures IsWindow(x, fitting, written + [Join(current, separator)], separator)
  {
    assert fitting[x.from..x.until] == current;
  }

  /** And the next one starts with its overlap. */
  lemma {:induction false} OverlapFollows(x: Window, start: nat, fitting: seq<string>, current: seq<string>, kept: seq<string>, pad: nat, overlap: int)
    requires x.from <= |fitting| == x.until && current == fitting[x.from..]
    requires IsOverlap(kept, current, pad, overlap) && start + |kept| == |fitting|
    ensures Follows(x, start, fitting, pad, overlap) && fitting[start..] == kept
  {
    assert fitting[x.from..x.until] == current;
    assert kept == current[|current| - |kept|..] == fitting[start..] == fitting[start..x.until];
  }

  lemma {:induction false} WindowsOneMore(windows: seq<Window>, x: Window, fitting: seq<string>, written: seq<string>, chunk: string, separator: string)
    requires Windows(windows, fitting, written, separator) && x.place == |written| && IsWindow(x, fitting, written + [chunk], separator)
    ensures Windows(windows + [x], fitting, written + [chunk], separator)
  {
    WindowsStay(windows, fitting, [], written, [chunk], separator);
    assert fitting + [] == fitting;
    forall j | 0 <= j < |windows| ensures windows[j].place < x.place {
      assert IsWindow(windows[j], fitting, written, separator);
    }
  }

  lemma {:induction false} LinkedOneMore(windows: seq<Window>, x: Window, start: nat, splits: seq<string>, fitting: seq<string>,
      separator: string, size: nat, overlap: int)
    requires Linked(windows, x.from, splits, fitting, separator, size, overlap)
    requires AfterWindow(x, start, splits, fitting, separator, size, overlap)
    ensures Linked(windows + [x], start, splits, fitting, separator, size, overlap)
  {
    var all := windows + [x];
    forall k | 0 <= k < |all| ensures AfterWindow(all[k], StartAfter(all, start, k), splits, fitting, separator, size, overlap) {
      if k < |windows| {
        assert StartAfter(all, start, k) == StartAfter(windows, x.from, k);
        assert AfterWindow(windows[k], StartAfter(windows, x.from, k), splits, fitting, separator, size, overlap);
      }
    }
  }

  /** The windows, once the current chunk is written. */
  lemma {:induction false} FlushWindows(windows: seq<Window>, x: Window, fitting: seq<string>, t: seq<string>, current: seq<string>, written: seq<string>, separator: string)
    requires Windows(windows, fitting, written, separator)
    requires x.from <= |fitting| == x.until && current == fitting[x.from..] != [] && x.place == |written|
    ensures Windows(windows + [x], fitting + t, written + [Join(current, separator)], separator)
  {
    var after := written + [Join(current, separator)];
    NewestWindow(x, fitting, current, written, separator);
    WindowsOneMore(windows, x, fitting, written, Join(current, separator), separator);
    WindowsStay(windows + [x], fitting, t, after, [], separator);
    assert after + [] == after;
  }

  lemma {:induction false} NewestAfter(x: Window, start: nat, splits: seq<string>, split: string, fitting: seq<string>, t: seq<string>, current: seq<string>,
      kept: seq<string>, separator: string, size: nat, overlap: int)
    requires fitting == Fitting(splits, size) && x.from <= |fitting| == x.until && x.cause == |splits| && current == fitting[x.from..]
    requires IsOverlap(kept, current, Pad(split, separator, size), overlap) && start + |kept| == |fitting|
    ensures AfterWindow(x, start, splits + [split], fitting + t, separator, size, overlap)
  {
    OverlapFollows(x, start, fitting, current, kept, Pad(split, separator, size), overlap);
    SamePrefix(fitting, t, x.from, x.until);
    SamePrefix(fitting, t, start, x.until);
    assert (splits + [split])[..|splits|] == splits && (splits + [split])[|splits|] == split;
  }

  lemma {:induction false} FlushHolds(from: nat, start: nat, fitting: seq<string>, t: seq<string>, current: seq<string>, kept: seq<string>, pad: nat, overlap: int)
    requires from <= |fitting| && current == fitting[from..] && IsOverlap(kept, current, pad, overlap) && start + |kept| == |fitting|
    ensures start <= |fitting + t| && kept + t == (fitting + t)[start..]
  {
    assert kept == fitting[start..];
  }

  /** A flush: the current chunk becomes the newest window. */
  lemma {:induction false} FlushingSlides(windows: seq<Window>, x: Window, start: nat, splits: seq<string>, subs: seq<seq<string>>, written: seq<string>,
      current: seq<string>, kept: seq<string>, split: string, sub: seq<string>, more: seq<string>, separator: string, size: nat, overlap: int)
    requires |subs| == |splits| && Slides(windows, x.from, splits, subs, written, current, separator, size, overlap) && current != []
    requires more == if |split| > size then sub else []
    requires kept == Carried(current, Pad(split, separator, size), overlap) && start + |kept| == |Fitting(splits, size)|
    requires x == Window(x.from, |Fitting(splits, size)|, |splits|, |written|)
    ensures Slides(windows + [x], start, splits + [split], subs + [sub], written + ([Join(current, separator)] + more), kept + Kept(split, size),
                   separator, size, overlap)
  {
    var fitting, t, chunk := Fitting(splits, size), Kept(split, size), [Join(current, separator)];
    FittingOneMore(splits, split, size);
    FlushWindows(windows, x, fitting, t, current, written, separator);
    CarriedIsOverlap(current, Pad(split, separator, size), overlap);
    NewestAfter(x, start, splits, split, fitting, t, current, kept, separator, size, overlap);
    LinksStay(windows, x.from, splits, split, fitting, t, separator, size, overlap);
    LinkedOneMore(windows, x, start, splits + [split], fitting + t, separator, size, overlap);
    FlushHolds(x.from, start, fitting, t, current, kept, Pad(split, separator, size), overlap);
    WindowsGrow(windows + [x], fitting + t, written, chunk, more, separator);
    AccountedMore(windows, [x], splits, subs, written, split, sub, chunk + more, size);
  }

  lemma {:induction false} WindowsGrow(windows: seq<Window>, fitting: seq<string>, written: seq<string>, chunk: seq<string>, more: seq<string>, separator: string)
    requires Windows(windows, fitting, written + chunk, separator)
    ensures Windows(windows, fitting, written + (chunk + more), separator)
  {
    WindowsStay(windows, fitting, [], written + chunk, more, separator);
    assert fitting + [] == fitting && written + chunk + more == written + (chunk + more);
  }

  ghost predicate Closes(w: Work, split: string, separator: string, size: nat)
  {
    w.current != [] && (|split| > size || w.length + |split| + |separator| > size)
  }

  lemma {:induction false} TurnWrites(w: Work, split: string, sub: seq<string>, separator: string, size: nat, overlap: int)
    ensures var turned, more := Turn(w, split, sub, separator, size, overlap), if |split| > size then sub else [];
            if Closes(w, split, separator, size) then
              && turned.written == w.written + ([Join(w.current, separator)] + more)
              && turned.current == Carried(w.current, Pad(split, separator, size), overlap) + Kept(split, size)
            else
              turned.written == w.written + more && turned.current == w.current + Kept(split, size)
  {
    if |split| > size { TurnRecurses(w, split, sub, separator, size, overlap); }
    else if Closes(w, split, separator, size) { TurnFlushes(w, split, sub, separator, size, overlap); }
    else { TurnJoins(w, split, sub, separator, size, overlap); }
  }

  lemma {:induction false} TurnSlides(windows: seq<Window>, start: nat, splits: seq<string>, subs: seq<seq<string>>, w: Work, split: string, sub: seq<string>,
      separator: string, size: nat, overlap: int) returns (windows': seq<Window>, start': nat)
    requires |subs| == |splits| && Slides(windows, start, splits, subs, w.written, w.current, separator, size, overlap)
    ensures var turned := Turn(w, split, sub, separator, size, overlap);
            Slides(windows', start', splits + [split], subs + [sub], turned.written, turned.current, separator, size, overlap)
  {
    var more := if |split| > size then sub else [];
    TurnWrites(w, split, sub, separator, size, overlap);
    if Closes(w, split, separator, size) {
      var kept := Carried(w.current, Pad(split, separator, size), overlap);
      var x := Window(start, |Fitting(splits, size)|, |splits|, |w.written|);
      CarriedIsOverlap(w.current, Pad(split, separator, size), overlap);
      windows', start' := windows + [x], |Fitting(splits, size)| - |kept|;
      FlushingSlides(windows, x, start', splits, subs, w.written, w.current, kept, split, sub, more, separator, size, overlap);
    } else {
      JoiningSlides(windows, start, splits, subs, w.written, w.current, split, sub, more, separator, size, overlap);
      windows', start' := windows, start;
    }
  }

  /** Over every run of the loop, with the chunks of its long fragments in `subs`. */
  lemma {:induction false} ChunksSlide(splits: seq<string>, subs: seq<seq<string>>, separator: string, size: nat, overlap: int)
    returns (windows: seq<Window>, start: nat)
    requires |subs| == |splits|
    ensures var w := Turns(splits, subs, separator, size, overlap);
            Slides(windows, start, splits, subs, w.written, w.current, separator, size, overlap)
    decreases |splits|
  {
    if splits == [] { return [], 0; }
    var n := |splits| - 1;
    var init, initSubs := splits[..n], subs[..n];
    var w := Turns(init, initSubs, separator, size, overlap);
    assert splits == init + [splits[n]] && subs == initSubs + [subs[n]];
    windows, start := ChunksSlide(init, initSubs, separator, size, overlap);
    windows, start := TurnSlides(windows, start, init, initSubs, w, splits[n], subs[n], separator, size, overlap);
  }

  lemma SubOf(text: string, separators: seq<string>, size: nat, overlap: int, i: nat)
    requires size >= 1 && i < |Fragments(text, SeparatorFor(text, separators))|
    ensures var split := Fragments(text, SeparatorFor(text, separators))[i];
            |split| > size ==> Subs(text, separators, size, overlap)[i] == Chunks(split, Remaining(text, separators), size, overlap)
  {
  }

  lemma TurnsOneMore(splits: seq<string>, subs: seq<seq<string>>, i: nat, separator: string, size: nat, overlap: int)
    requires |subs| == |splits| && i < |splits|
    ensures Turns(splits[..i + 1], subs[..i + 1], separator, size, overlap) ==
            Turn(Turns(splits[..i], subs[..i], separator, size, overlap), splits[i], subs[i], separator, size, overlap)
  {
    assert splits[..i + 1][..i] == splits[..i] && subs[..i + 1][..i] == subs[..i];
  }

  /** After the first `n` fragments: what they hold is safe, and nothing else has been written. */
  ghost predicate Progress(fragments: seq<string>, n: nat, separators: seq<string>, remaining: seq<string>, size: nat,
      pieces: seq<Piece>, chunks: seq<string>, current: seq<string>)
    requires n <= |fragments|
  {
    && (forall i, leaf :: 0 <= i < n && Leaf(leaf) in PieceOf(fragments[i], remaining, size) ==> Safe(leaf, chunks, current))
    && (forall k :: 0 <= k < |chunks| ==> Built(Strip(chunks[k]), pieces, separators))
    && (forall part :: part in current ==> Leaf(part) in pieces)
  }

  lemma FlushKeeps(fragments: seq<string>, n: nat, separators: seq<string>, remaining: seq<string>, size: nat,
      pieces: seq<Piece>, chunks: seq<string>, current: seq<string>, separator: string, kept: seq<string>)
    requires n <= |fragments| && Progress(fragments, n, separators, remaining, size, pieces, chunks, current)
    requires separator == "" || separator in separators
    requires |kept| <= |current| && kept == current[|current| - |kept|..]
    ensures Progress(fragments, n, separators, remaining, size, pieces, chunks + [Join(current, separator)], kept)
  {
    var after := chunks + [Join(current, separator)];
    forall i, leaf | 0 <= i < n && Leaf(leaf) in PieceOf(fragments[i], remaining, size) ensures Safe(leaf, after, kept) {
      FlushIsSafe(leaf, chunks, current, separator);
    }
    forall k | 0 <= k < |after| ensures Built(Strip(after[k]), pieces, separators) {
      if k == |chunks| { assert BuiltFrom(Strip(after[k]), pieces, separators, current, separator); }
    }
  }

  lemma KeepKeeps(fragments: seq<string>, n: nat, separators: seq<string>, remaining: seq<string>, size: nat,
      pieces: seq<Piece>, chunks: seq<string>, current: seq<string>)
    requires n < |fragments| && Progress(fragments, n, separators, remaining, size, pieces, chunks, current)
    requires |fragments[n]| <= size && Leaf(fragments[n]) in pieces
    ensures Progress(fragments, n + 1, separators, remaining, size, pieces, chunks, current + [fragments[n]])
  {
    var more := current + [fragments[n]];
    forall i, leaf | 0 <= i < n + 1 && Leaf(leaf) in PieceOf(fragments[i], remaining, size) ensures Safe(leaf, chunks, more) {
      if i < n {
        assert Safe(leaf, chunks, current);
      } else {
        assert more[|current|] == leaf;
      }
    }
  }

  /** What a recursive call promises about its chunks. */
  ghost predicate SplitsInto(text: string, separators: seq<string>, size: nat, chunks: seq<string>)
  {
    var pieces := Pieces(text, separators, size);
    && (forall leaf :: Leaf(leaf) in pieces && Strip(leaf) != "" ==> Covered(Strip(leaf), chunks))
    && (forall k :: 0 <= k < |chunks| ==> chunks[k] != "" && Trimmed(chunks[k]) && Built(chunks[k], pieces, separators))
  }

  lemma BuiltWider(chunk: string, pieces: seq<Piece>, separators: seq<string>, wider: seq<Piece>, more: seq<string>)
    requires Built(chunk, pieces, separators)
    requires forall leaf :: Leaf(leaf) in pieces ==> Leaf(leaf) in wider
    requires forall separator :: separator in separators ==> separator in more
    ensures Built(chunk, wider, more)
  {
    var parts, separator :| BuiltFrom(chunk, pieces, separators, parts, separator);
    assert BuiltFrom(chunk, wider, more, parts, separator);
  }

  lemma RecurseKeeps(fragments: seq<string>, n: nat, separators: seq<string>, remaining: seq<string>, size: nat,
      pieces: seq<Piece>, chunks: seq<string>, current: seq<string>, sub: seq<string>)
    requires n < |fragments| && Progress(fragments, n, separators, remaining, size, pieces, chunks, current)
    requires |fragments[n]| > size && SplitsInto(fragments[n], remaining, size, sub)
    requires forall leaf :: Leaf(leaf) in Pieces(fragments[n], remaining, size) ==> Leaf(leaf) in pieces
    requires forall separator :: separator in remaining ==> separator in separators
    ensures Progress(fragments, n + 1, separators, remaining, size, pieces, chunks + sub, current)
  {
    var after := chunks + sub;
    forall i, leaf | 0 <= i < n + 1 && Leaf(leaf) in PieceOf(fragments[i], remaining, size) ensures Safe(leaf, after, current) {
      CoveredStays(Strip(leaf), chunks, sub);
      if i < n { assert Safe(leaf, chunks, current); }
    }
    forall k | 0 <= k < |after| ensures Built(Strip(after[k]), pieces, separators) {
      if k >= |chunks| {
        var chunk := sub[k - |chunks|];
        TrimmedStays(chunk);
        BuiltWider(chunk, Pieces(fragments[n], remaining, size), remaining, pieces, separators);
      }
    }
  }

  lemma CleanSplits(text: string, separators: seq<string>, size: nat, fragments: seq<string>, remaining: seq<string>, chunks: seq<string>)
    requires size >= 1 && fragments == Fragments(text, SeparatorFor(text, separators)) && remaining == Remaining(text, separators)
    requires Progress(fragments, |fragments|, separators, remaining, size, Pieces(text, separators, size), chunks, [])
    ensures SplitsInto(text, separators, size, Cleaned(chunks))
  {
    forall leaf | Leaf(leaf) in Pieces(text, separators, size) && Strip(leaf) != "" ensures Covered(Strip(leaf), Cleaned(chunks)) {
      LeavesOfFragments(text, separators, size, leaf);
      var i :| 0 <= i < |fragments| && Leaf(leaf) in PieceOf(fragments[i], remaining, size);
      assert Safe(leaf, chunks, []);
      StripTrims(leaf);
      CleanedCovers(chunks, Strip(leaf));
    }
    forall k | 0 <= k < |Cleaned(chunks)|
      ensures Cleaned(chunks)[k] != "" && Trimmed(Cleaned(chunks)[k]) && Built(Cleaned(chunks)[k], Pieces(text, separators, size), separators)
    {
      CleanedAreTrimmed(chunks, k);
    }
  }

  lemma FragmentLeaves(text: string, separators: seq<string>, size: nat, i: nat)
    requires size >= 1 && i < |Fragments(text, SeparatorFor(text, separators))|
    ensures var part := Fragments(text, SeparatorFor(text, separators))[i];
            forall leaf :: Leaf(leaf) in PieceOf(part, Remaining(text, separators), size) ==> Leaf(leaf) in Pieces(text, separators, size)
  {
    var part := Fragments(text, SeparatorFor(text, separators))[i];
    forall leaf | Leaf(leaf) in PieceOf(part, Remaining(text, separators), size) ensures Leaf(leaf) in Pieces(text, separators, size) {
      LeavesOfFragments(text, separators, size, leaf);
    }
  }

  lemma FlushedKeeps(fragments: seq<string>, n: nat, separators: seq<string>, remaining: seq<string>, size: nat,
      pieces: seq<Piece>, w: Work, separator: string, pad: nat, overlap: int)
    requires n <= |fragments| && Progress(fragments, n, separators, remaining, size, pieces, w.written, w.current)
    requires separator == "" || separator in separators
    ensures var flushed := Flushed(w, separator, pad, overlap);
            Progress(fragments, n, separators, remaining, size, pieces, flushed.written, flushed.current)
  {
    if w.current != [] {
      FlushKeeps(fragments, n, separators, remaining, size, pieces, w.written, w.current, separator, Carried(w.current, pad, overlap));
    }
  }

  lemma TurnKeeps(fragments: seq<string>, n: nat, separators: seq<string>, remaining: seq<string>, size: nat,
      pieces: seq<Piece>, w: Work, sub: seq<string>, separator: string, overlap: int)
    requires n < |fragments| && Progress(fragments, n, separators, remaining, size, pieces, w.written, w.current)
    requires separator == "" || separator in separators
    requires forall leaf :: Leaf(leaf) in PieceOf(fragments[n], remaining, size) ==> Leaf(leaf) in pieces
    requires forall sep :: sep in remaining ==> sep in separators
    requires |fragments[n]| > size ==> SplitsInto(fragments[n], remaining, size, sub)
    ensures var after := Turn(w, fragments[n], sub, separator, size, overlap);
            Progress(fragments, n + 1, separators, remaining, size, pieces, after.written, after.current)
  {
    if |fragments[n]| > size {
      FlushedKeeps(fragments, n, separators, remaining, size, pieces, w, separator, 0, overlap);
      var flushed := Flushed(w, separator, 0, overlap);
      RecurseKeeps(fragments, n, separators, remaining, size, pieces, flushed.written, flushed.current, sub);
    } else {
      FlushedKeeps(fragments, n, separators, remaining, size, pieces, w, separator, |separator|, overlap);
      var ready := if w.length + |fragments[n]| + |separator| > size then Flushed(w, separator, |separator|, overlap) else w;
      assert Leaf(fragments[n]) in PieceOf(fragments[n], remaining, size);
      KeepKeeps(fragments, n, separators, remaining, size, pieces, ready.written, ready.current);
    }
  }

  lemma {:induction false} TurnsKeep(text: string, separators: seq<string>, size: nat, overlap: int, n: nat)
    requires size >= 1 && n <= |Fragments(text, SeparatorFor(text, separators))|
    ensures var separator, remaining := SeparatorFor(text, separators), Remaining(text, separators);
            var splits, subs := Fragments(text, separator), Subs(text, separators, size, overlap);
            var w := Turns(splits[..n], subs[..n], separator, size, overlap);
            Progress(splits, n, separators, remaining, size, Pieces(text, separators, size), w.written, w.current)
    decreases |separators|, 0, n
  {
    var separator, remaining := SeparatorFor(text, separators), Remaining(text, separators);
    var splits, subs := Fragments(text, separator), Subs(text, separators, size, overlap);
    if n > 0 {
      var w := Turns(splits[..n - 1], subs[..n - 1], separator, size, overlap);
      TurnsKeep(text, separators, size, overlap, n - 1);
      TurnsOneMore(splits, subs, n - 1, separator, size, overlap);
      FragmentLeaves(text, separators, size, n - 1);
      SubOf(text, separators, size, overlap, n - 1);
      if separator != "" && |splits[n - 1]| > size { ChunksSplit(splits[n - 1], remaining, size, overlap); }
      TurnKeeps(splits, n - 1, separators, remaining, size, Pieces(text, separators, size), w, subs[n - 1], separator, overlap);
    }
  }

  /** Every leaf of the text stands, stripped, inside some chunk, and every chunk is a non-blank stripped join of leaves. */
  lemma {:induction false} ChunksSplit(text: string, separators: seq<string>, size: nat, overlap: int)
    requires size >= 1
    ensures SplitsInto(text, separators, size, Chunks(text, separators, size, overlap))
    decreases |separators|, 1
  {
    var separator, remaining := SeparatorFor(text, separators), Remaining(text, separators);
    var splits, subs := Fragments(text, separator), Subs(text, separators, size, overlap);
    var n := |splits|;
    TurnsKeep(text, separators, size, overlap, n);
    assert splits[..n] == splits && subs[..n] == subs;
    var w := Turns(splits, subs, separator, size, overlap);
    if w.current != [] {
      FlushKeeps(splits, n, separators, remaining, size, Pieces(text, separators, size), w.written, w.current, separator, []);
    }
    CleanSplits(text, separators, size, splits, remaining, Finished(w, separator));
  }

  /** The two places where the loop writes the current chunk out and carries its overlap over. */
  method Flush(written: seq<string>, current: seq<string>, length: nat, separator: string, pad: nat, overlap: int)
    returns (written': seq<string>, current': seq<string>, length': nat)
    ensures Work(written', current', length') == Flushed(Work(written, current, length), separator, pad, overlap)
    ensures current == [] ==> written' == written && current' == [] && length' == length
    ensures current != [] ==>
              written' == written + [Join(current, separator)] && IsOverlap(current', current, pad, overlap) && length' == TotalLength(current')
  {
    written', current', length' := written, current, length;
    if current != [] {
      written' := written + [Join(current, separator)];
      current', length' := Carry(current, pad, overlap);
    }
  }

  /**
   `_split_text`.  It ends for every list of separators, since a level without a
   separator only has single characters; what its chunks are worth is said by the
   lemmas about `Chunks`.
   */
  method SplitText(text: string, separators: seq<string>, size: nat, overlap: int) returns (chunks: seq<string>)
    requires size >= 1
    ensures chunks == Chunks(text, separators, size, overlap)
    ensures SplitsInto(text, separators, size, chunks)
    ensures overlap < 0 ==> Fit(chunks, size)
    decreases |separators|
  {
    var separator, remaining := SeparatorFor(text, separators), Remaining(text, separators);
    var splits := Fragments(text, separator);
    ghost var subs := Subs(text, separators, size, overlap);
    var current: seq<string> := [];
    var written: seq<string> := [];
    var currentLength: nat := 0;
    for i := 0 to |splits|
      invariant Work(written, current, currentLength) == Turns(splits[..i], subs[..i], separator, size, overlap)
    {
      var split := splits[i];
      SubOf(text, separators, size, overlap, i);
      TurnsOneMore(splits, subs, i, separator, size, overlap);
      if |split| > size {
        written, current, currentLength := Flush(written, current, currentLength, separator, 0, overlap);
        var sub := SplitText(split, remaining, size, overlap);
        written := written + sub;
      } else {
        if currentLength + |split| + |separator| > size {
          written, current, currentLength := Flush(written, current, currentLength, separator, |separator|, overlap);
        }
        current := current + [split];
        currentLength := currentLength + |split| + |separator|;
      }
    }
    assert splits[..|splits|] == splits && subs[..|subs|] == subs;
    if current != [] { written := written + [Join(current, separator)]; }
    chunks := Clean(written);
    ChunksSplit(text, separators, size, overlap);
    if overlap < 0 { ChunksFit(text, separators, size, overlap); }
  }

  /** Leaves fit the chunk size. */
  lemma {:induction false} LeavesFit(text: string, separators: seq<string>, size: nat, leaf: string)
    requires size >= 1 && Leaf(leaf) in Pieces(text, separators, size)
    ensures |leaf| <= size
    decreases |separators|, 0
  {
    var separator := SeparatorFor(text, separators);
    if separator != "" {
      var i := LeafOfParts(Split(text, separator), separator, Remaining(text, separators), size, leaf);
      var part := Split(text, separator)[i];
      if |part| > size { LeavesFit(part, Remaining(text, separators), size, leaf); }
    }
  }

  /**
   The splitter loses nothing but separators and blanks.  The text is a run of
   pieces; each is a separator of the list, or a fragment no longer than a chunk
   that is blank or stands, stripped, inside some chunk.
   */
  lemma OnlySeparatorsAreLost(text: string, separators: seq<string>, size: nat, chunks: seq<string>, i: nat)
    requires size >= 1 && SplitsInto(text, separators, size, chunks) && i < |Pieces(text, separators, size)|
    ensures Concat(Pieces(text, separators, size)) == text
    ensures match Pieces(text, separators, size)[i]
            case Gap(separator) => separator in separators
            case Leaf(leaf) => |leaf| <= size && (Strip(leaf) == "" || Covered(Strip(leaf), chunks))
  {
    PiecesAreText(text, separators, size);
    match Pieces(text, separators, size)[i]
    case Gap(separator) => GapsAreSeparators(text, separators, size, separator);
    case Leaf(leaf) => LeavesFit(text, separators, size, leaf);
  }

  // ------------------------------------------------ how long a chunk can be

  ghost predicate Fit(chunks: seq<string>, size: nat)
  {
    forall k :: 0 <= k < |chunks| ==> |chunks[k]| <= size
  }

  lemma {:induction false} JoinOneMore(parts: seq<string>, separator: string, part: string)
    requires parts != []
    ensures Join(parts + [part], separator) == Join(parts, separator) + separator + part
  {
    var all := parts + [part];
    if |parts| == 1 {
      assert all[1..] == [part];
    } else {
      JoinOneMore(parts[1..], separator, part);
      assert all[1..] == parts[1..] + [part];
    }
  }

  lemma {:induction false} StripShortens(s: string)
    ensures |Strip(s)| <= |s|
  {
    StripTrims(s);
  }

  /** Without overlap the loop counts the length it is building. */
  ghost predicate WorkFits(w: Work, separator: string, size: nat)
  {
    && Fit(w.written, size)
    && (w.current == [] ==> w.length == 0)
    && (w.current != [] ==> |Join(w.current, separator)| + |separator| == w.length && |Join(w.current, separator)| <= size)
  }

  lemma TurnFits(w: Work, split: string, sub: seq<string>, separator: string, size: nat, overlap: int)
    requires overlap < 0 && WorkFits(w, separator, size) && Fit(sub, size)
    ensures WorkFits(Turn(w, split, sub, separator, size, overlap), separator, size)
  {
    if |split| <= size {
      if w.current != [] { JoinOneMore(w.current, separator, split); }
      assert [] + [split] == [split];
    }
  }

  lemma {:induction false} TurnsFit(splits: seq<string>, subs: seq<seq<string>>, separator: string, size: nat, overlap: int)
    requires |subs| == |splits| && overlap < 0 && forall i :: 0 <= i < |subs| ==> Fit(subs[i], size)
    ensures WorkFits(Turns(splits, subs, separator, size, overlap), separator, size)
  {
    if splits != [] {
      var n := |splits| - 1;
      TurnsFit(splits[..n], subs[..n], separator, size, overlap);
      TurnFits(Turns(splits[..n], subs[..n], separator, size, overlap), splits[n], subs[n], separator, size, overlap);
    }
  }

  lemma {:induction false} CleanedFits(chunks: seq<string>, size: nat)
    requires Fit(chunks, size)
    ensures Fit(Cleaned(chunks), size)
  {
    if chunks != [] {
      CleanedFits(chunks[..|chunks| - 1], size);
      StripShortens(chunks[|chunks| - 1]);
    }
  }

  /** With a negative overlap no chunk is longer than the chunk size, whatever the text and the separators. */
  lemma {:induction false} ChunksFit(text: string, separators: seq<string>, size: nat, overlap: int)
    requires overlap < 0
    ensures Fit(Chunks(text, separators, size, overlap), size)
    decreases |separators|
  {
    var separator := SeparatorFor(text, separators);
    var splits, subs := Fragments(text, separator), Subs(text, separators, size, overlap);
    forall i | 0 <= i < |subs| ensures Fit(subs[i], size) {
      if separator != "" && |splits[i]| > size { ChunksFit(splits[i], Remaining(text, separators), size, overlap); }
    }
    TurnsFit(splits, subs, separator, size, overlap);
    CleanedFits(Finished(Turns(splits, subs, separator, size, overlap), separator), size);
  }

  /** `_SEPARATORS`. */
  const SEPARATORS := ["\n\n\n", "\n\n", "\n", ". ", "? ", "! ", " ", ""]

  /** A run of one letter. */
  function Word(letter: char, n: nat): string
  {
    seq(n, i => letter)
  }

  /** Two empty sentences, one too long for a chunk, and one that just fits beside the two as the loop counts. */
  function LongText(size: nat): string
    requires size >= 4
  {
    ". " + (". " + (Word('x', size + 1) + ". " + Word('y', size - 2)))
  }

  lemma StartsWithFirst(text: string, sep: string, i: int)
    requires sep != ""
    ensures StartsAt(text, sep, i) ==> 0 <= i < |text| && text[i] == sep[0]
  {
    if StartsAt(text, sep, i) { assert text[i..i + |sep|][0] == text[i]; }
  }

  lemma FindAfter(head: string, sep: string, rest: string)
    requires sep != "" && sep[0] !in head
    ensures Find(head + sep + rest, sep, 0) == |head|
  {
    var text := head + sep + rest;
    assert StartsAt(text, sep, |head|);
    var at := Find(text, sep, 0);
    if |head| < at { FindIsFirst(text, sep, 0, |head|); }
    StartsWithFirst(text, sep, at);
    assert forall k :: 0 <= k < |head| ==> text[k] == head[k];
  }

  lemma SplitAfter(head: string, sep: string, rest: string)
    requires sep != "" && sep[0] !in head
    ensures Split(head + sep + rest, sep) == [head] + Split(rest, sep)
  {
    var text := head + sep + rest;
    FindAfter(head, sep, rest);
    assert text[..|head|] == head && text[|head| + |sep|..] == rest;
  }

  lemma SplitNone(text: string, sep: string)
    requires sep != "" && sep[0] !in text
    ensures Split(text, sep) == [text]
  {
    StartsWithFirst(text, sep, Find(text, sep, 0));
  }

  lemma NotIn(text: string, sep: string)
    requires sep != "" && sep[0] !in text
    ensures !Occurs(sep, text)
  {
    forall i | 0 <= i <= |text| ensures !StartsAt(text, sep, i) {
      StartsWithFirst(text, sep, i);
    }
  }

  lemma {:induction false} ChooseIs(text: string, separators: seq<string>, k: nat)
    requires k < |separators| && (separators[k] == "" || Occurs(separators[k], text))
    requires forall j :: 0 <= j < k ==> separators[j] != "" && !Occurs(separators[j], text)
    ensures Choose(text, separators) == k
  {
    if k > 0 {
      assert separators[0] != "" && !Occurs(separators[0], text);
      forall j | 0 <= j < k - 1 ensures separators[1..][j] != "" && !Occurs(separators[1..][j], text) {
        assert separators[1..][j] == separators[j + 1];
      }
      ChooseIs(text, separators[1..], k - 1);
    }
  }

  lemma SentencesFirst(text: string)
    requires '\n' !in text && Occurs(". ", text)
    ensures SeparatorFor(text, SEPARATORS) == ". "
  {
    forall j | 0 <= j < 3 ensures SEPARATORS[j] != "" && !Occurs(SEPARATORS[j], text) {
      NotIn(text, SEPARATORS[j]);
    }
    ChooseIs(text, SEPARATORS, 3);
  }

  lemma {:induction false} SplitEmptyFirst(rest: string)
    ensures Split(". " + rest, ". ") == [""] + Split(rest, ". ")
  {
    assert "" + ". " + rest == ". " + rest;
    SplitAfter("", ". ", rest);
  }

  lemma {:induction false} FourSentences(x: string, y: string)
    requires '.' !in x && '.' !in y
    ensures Split(". " + (". " + (x + ". " + y)), ". ") == ["", "", x, y]
  {
    SplitNone(y, ". ");
    SplitAfter(x, ". ", y);
    SplitEmptyFirst(x + ". " + y);
    SplitEmptyFirst(". " + (x + ". " + y));
    assert [x] + [y] == [x, y] && [""] + [x, y] == ["", x, y] && [""] + ["", x, y] == ["", "", x, y];
  }

  lemma OneLine(x: string, y: string)
    requires '\n' !in x && '\n' !in y
    ensures var text := ". " + (". " + (x + ". " + y)); '\n' !in text && Occurs(". ", text)
  {
    var rest := ". " + (x + ". " + y);
    OccursIn(". ", "", rest);
    assert "" + ". " + rest == ". " + rest;
  }

  lemma LongTextSplits(size: nat)
    requires size >= 4
    ensures SeparatorFor(LongText(size), SEPARATORS) == ". "
    ensures Split(LongText(size), ". ") == ["", "", Word('x', size + 1), Word('y', size - 2)]
  {
    OneLine(Word('x', size + 1), Word('y', size - 2));
    SentencesFirst(LongText(size));
    FourSentences(Word('x', size + 1), Word('y', size - 2));
  }

  /** Two empty sentences are taken up and counted with their separators. */
  lemma TurnsOnEmpty(sub: seq<string>, size: nat, overlap: int)
    requires size >= 4
    ensures Turn(Work([], [], 0), "", sub, ". ", size, overlap) == Work([], [""], 2)
    ensures Turn(Work([], [""], 2), "", sub, ". ", size, overlap) == Work([], ["", ""], 4)
  {
    assert [""] + [""] == ["", ""];
  }

  /** Before a sentence that is too long both are written and carried over, no longer counted. */
  lemma TurnOnLong(x: string, sub: seq<string>, size: nat, overlap: int)
    requires |x| > size && overlap >= 0
    ensures var w := Turn(Work([], ["", ""], 4), x, sub, ". ", size, overlap); w.current == ["", ""] && w.length == 0
  {
    assert TailStart(["", ""], 2, 0, 0, overlap) == TailStart(["", ""], 1, 0, 0, overlap) == 0;
    assert Carried(["", ""], 0, overlap) == ["", ""];
    assert TotalLength(["", ""]) == TotalLength([""]) == 0;
  }

  lemma TurnOnFitting(w: Work, y: string, sub: seq<string>, size: nat, overlap: int)
    requires w.current == ["", ""] && w.length == 0 && |y| + 2 == size
    ensures Turn(w, y, sub, ". ", size, overlap).current == ["", "", y]
  {
    assert ["", ""] + [y] == ["", "", y];
  }

  lemma AfterTwoEmpty(splits: seq<string>, subs: seq<seq<string>>, size: nat, overlap: int)
    requires size >= 4 && |subs| == |splits| >= 2 && splits[0] == "" && splits[1] == ""
    ensures Turns(splits[..2], subs[..2], ". ", size, overlap) == Work([], ["", ""], 4)
  {
    TurnsOneMore(splits, subs, 0, ". ", size, overlap);
    TurnsOnEmpty(subs[0], size, overlap);
    TurnsOneMore(splits, subs, 1, ". ", size, overlap);
    TurnsOnEmpty(subs[1], size, overlap);
  }

  lemma AfterLong(splits: seq<string>, subs: seq<seq<string>>, size: nat, overlap: int)
    requires size >= 4 && overlap >= 0 && |subs| == |splits| >= 3 && splits[0] == "" && splits[1] == "" && |splits[2]| > size
    ensures var w := Turns(splits[..3], subs[..3], ". ", size, overlap); w.current == ["", ""] && w.length == 0
  {
    AfterTwoEmpty(splits, subs, size, overlap);
    TurnsOneMore(splits, subs, 2, ". ", size, overlap);
    TurnOnLong(splits[2], subs[2], size, overlap);
  }

  lemma LongTextWork(splits: seq<string>, subs: seq<seq<string>>, size: nat, overlap: int)
    requires size >= 4 && overlap >= 0 && |subs| == |splits| == 4
    requires splits[0] == "" && splits[1] == "" && |splits[2]| > size && |splits[3]| + 2 == size
    ensures Turns(splits, subs, ". ", size, overlap).current == ["", "", splits[3]]
  {
    AfterLong(splits, subs, size, overlap);
    TurnsOneMore(splits, subs, 3, ". ", size, overlap);
    assert splits[..3 + 1] == splits && subs[..3 + 1] == subs;
    TurnOnFitting(Turns(splits[..3], subs[..3], ". ", size, overlap), splits[3], subs[3], size, overlap);
  }

  lemma {:induction false} CleanedLast(chunks: seq<string>)
    requires chunks != [] && Strip(chunks[|chunks| - 1]) != ""
    ensures Cleaned(chunks) != [] && Cleaned(chunks)[|Cleaned(chunks)| - 1] == Strip(chunks[|chunks| - 1])
  {
  }

  lemma ThreeJoined(y: string)
    requires y != "" && !IsSpace(y[|y| - 1])
    ensures Strip(Join(["", "", y], ". ")) == Join(["", "", y], ". ") && |Join(["", "", y], ". ")| == |y| + 4
  {
    var chunk := Join(["", "", y], ". ");
    assert ["", "", y][1..] == ["", y] && ["", y][1..] == [y];
    assert Join(["", y], ". ") == "" + ". " + Join([y], ". ") == ". " + y;
    assert chunk == "" + ". " + Join(["", y], ". ") == ". " + (". " + y);
    TrimmedStays(chunk);
  }

  /** With any overlap that is not negative, that text gets a chunk two characters too long. */
  lemma OverlapBreaksBound(size: nat, overlap: int)
    requires size >= 4 && overlap >= 0
    ensures var chunks := Chunks(LongText(size), SEPARATORS, size, overlap);
            chunks != [] && |chunks[|chunks| - 1]| == size + 2
  {
    var x, y := Word('x', size + 1), Word('y', size - 2);
    LongTextSplits(size);
    var subs := Subs(LongText(size), SEPARATORS, size, overlap);
    LongTextWork(["", "", x, y], subs, size, overlap);
    ThreeJoined(y);
    CleanedLast(Finished(Turns(["", "", x, y], subs, ". ", size, overlap), ". "));
  }

  /**
   The documented bound on chunk length, with the shipped separators and any chunk size
   from 4 on: it holds of every text exactly when the overlap is negative.
   */
  lemma BoundHoldsExactly(size: nat, overlap: int)
    requires size >= 4
    ensures (forall text :: Fit(Chunks(text, SEPARATORS, size, overlap), size)) <==> overlap < 0
  {
    if overlap < 0 {
      forall text ensures Fit(Chunks(text, SEPARATORS, size, overlap), size) {
        ChunksFit(text, SEPARATORS, size, overlap);
      }
    } else {
      OverlapBreaksBound(size, overlap);
      assert !Fit(Chunks(LongText(size), SEPARATORS, size, overlap), size);
    }
  }

  /** So the default settings do not meet it. */
  lemma DefaultsBreakBound()
    ensures exists text :: !Fit(Chunks(text, SEPARATORS, 800, 120), 800)
  {
    BoundHoldsExactly(800, 120);
  }
}
