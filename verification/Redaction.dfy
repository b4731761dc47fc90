/** What redaction means, independently of the order in which values were registered. */
module Redaction {
  import opened Sequences
  import opened LineWriter

  type Text = seq<byte>

  /** "[REDACTED]" */
  const MASK: Text := [91, 82, 69, 68, 65, 67, 84, 69, 68, 93]
  const MAX_RECORD_BYTES: nat := 16 * 1024
  const MAX_VALUE_BYTES: nat := 1024 * 1024
  const MAX_TOTAL_BYTES: nat := 1024 * 1024
  const MAX_PATTERNS: nat := 4096

  // ---------- leftmost-longest replacement ----------

  /** The longest pattern of at most `n` bytes that the text starts with, by its length; 0
      when there is none. */
  function MatchUpTo(patterns: set<Text>, s: Text, n: nat): (len: nat)
    requires n <= |s|
    ensures len <= n
    ensures len > 0 ==> s[..len] in patterns
    ensures forall p :: p in patterns && p <= s && |p| <= n ==> |p| <= len
  {
    assert forall p :: p <= s && |p| == n ==> p == s[..n];
    if n == 0 then 0 else if s[..n] in patterns then n else MatchUpTo(patterns, s, n - 1)
  }

  function MatchLength(patterns: set<Text>, s: Text): (len: nat)
    ensures len <= |s|
    ensures len > 0 ==> s[..len] in patterns
    ensures forall p :: p in patterns && p <= s ==> |p| <= len
  {
    MatchUpTo(patterns, s, |s|)
  }

  function Replace(patterns: set<Text>, s: Text): (out: Text)
    decreases |s|
  {
    if s == [] then [] else Head(patterns, s) + Replace(patterns, s[Step(patterns, s)..])
  }

  /** What the text starts with once replaced. */
  function Head(patterns: set<Text>, s: Text): (out: Text)
    requires s != []
  {
    if MatchLength(patterns, s) == 0 then [s[0]] else MASK
  }

  /** How far that takes the text. */
  function Step(patterns: set<Text>, s: Text): (n: nat)
    requires s != []
    ensures 0 < n <= |s|
  {
    if MatchLength(patterns, s) == 0 then 1 else MatchLength(patterns, s)
  }

  /** How a text was cut: bytes that were copied and patterns that were masked. */
  datatype Piece = Copied(b: byte) | Masked(pattern: Text)

  function Source(piece: Piece): (s: Text) {
    if piece.Copied? then [piece.b] else piece.pattern
  }

  function Shown(piece: Piece): (s: Text) {
    if piece.Copied? then [piece.b] else MASK
  }

  function Sources(pieces: seq<Piece>): (s: Text) {
    if pieces == [] then [] else Source(pieces[0]) + Sources(pieces[1..])
  }

  function Rendered(pieces: seq<Piece>): (s: Text) {
    if pieces == [] then [] else Shown(pieces[0]) + Rendered(pieces[1..])
  }

  /** A copied byte starts no pattern, and a masked pattern is the longest at its place. */
  ghost predicate FitsAt(patterns: set<Text>, piece: Piece, rest: Text) {
    match piece
    case Copied(b) => forall p :: p in patterns && p != [] ==> !(p <= [b] + rest)
    case Masked(p) => p in patterns && p != [] && forall q :: q in patterns && q <= p + rest ==> |q| <= |p|
  }

  ghost predicate LeftmostLongest(patterns: set<Text>, pieces: seq<Piece>) {
    forall i :: 0 <= i < |pieces| ==> FitsAt(patterns, pieces[i], Sources(pieces[i + 1..]))
  }

  /** The replacement is the rendering of a leftmost-longest cut of the text. */
  lemma {:induction false} ReplaceIsLeftmostLongest(patterns: set<Text>, s: Text) returns (pieces: seq<Piece>)
    ensures Sources(pieces) == s && Rendered(pieces) == Replace(patterns, s)
    ensures LeftmostLongest(patterns, pieces)
    decreases |s|
  {
    if s == [] {
      pieces := [];
      return;
    }
    var piece, rest := FirstPiece(patterns, s);
    var tail := ReplaceIsLeftmostLongest(patterns, rest);
    PrependPiece(patterns, piece, tail);
    pieces := [piece] + tail;
  }

  lemma FirstPiece(patterns: set<Text>, s: Text) returns (piece: Piece, rest: Text)
    requires s != []
    ensures s == Source(piece) + rest && |rest| < |s|
    ensures FitsAt(patterns, piece, rest)
    ensures Replace(patterns, s) == Shown(piece) + Replace(patterns, rest)
  {
    var n := MatchLength(patterns, s);
    if n == 0 {
      piece, rest := Copied(s[0]), s[1..];
    } else {
      piece, rest := Masked(s[..n]), s[n..];
    }
    assert s == Source(piece) + rest;
  }

  lemma PrependPiece(patterns: set<Text>, piece: Piece, tail: seq<Piece>)
    requires LeftmostLongest(patterns, tail) && FitsAt(patterns, piece, Sources(tail))
    ensures
      var pieces := [piece] + tail;
      && LeftmostLongest(patterns, pieces)
      && Sources(pieces) == Source(piece) + Sources(tail) && Rendered(pieces) == Shown(piece) + Rendered(tail)
  {
    var pieces := [piece] + tail;
    assert pieces[1..] == tail;
    forall i | 0 <= i < |pieces| ensures FitsAt(patterns, pieces[i], Sources(pieces[i + 1..])) {
      if i > 0 {
        assert pieces[i] == tail[i - 1] && pieces[i + 1..] == tail[i..];
      }
    }
  }

  /** There is only one such cut, so the rendering is determined by the set of patterns. */
  lemma {:induction false} LeftmostLongestUnique(patterns: set<Text>, a: seq<Piece>, b: seq<Piece>)
    requires LeftmostLongest(patterns, a) && LeftmostLongest(patterns, b) && Sources(a) == Sources(b)
    ensures a == b
    decreases |a|
  {
    SourcesNonEmpty(patterns, a);
    SourcesNonEmpty(patterns, b);
    if a != [] {
      SameFirst(patterns, a, b);
      LeftmostLongestTail(patterns, a);
      LeftmostLongestTail(patterns, b);
      LeftmostLongestUnique(patterns, a[1..], b[1..]);
      SameCut(a, b);
    }
  }

  lemma SameCut(a: seq<Piece>, b: seq<Piece>)
    requires a != [] && b != [] && a[0] == b[0] && a[1..] == b[1..]
    ensures a == b
  {
    assert a == [a[0]] + a[1..] && b == [b[0]] + b[1..];
  }

  lemma SameFirst(patterns: set<Text>, a: seq<Piece>, b: seq<Piece>)
    requires a != [] && b != [] && Sources(a) == Sources(b)
    requires LeftmostLongest(patterns, a) && LeftmostLongest(patterns, b)
    ensures a[0] == b[0] && Sources(a[1..]) == Sources(b[1..])
  {
    var r, t := Sources(a[1..]), Sources(b[1..]);
    assert FitsAt(patterns, a[0], r) && FitsAt(patterns, b[0], t);
    SamePiece(patterns, a[0], b[0], r, t);
    Cancel(Source(a[0]), r, t);
  }

  lemma Cancel(p: Text, r: Text, t: Text)
    requires p + r == p + t
    ensures r == t
  {
    assert r == (p + r)[|p|..] && t == (p + t)[|p|..];
  }

  lemma LeftmostLongestTail(patterns: set<Text>, a: seq<Piece>)
    requires a != [] && LeftmostLongest(patterns, a)
    ensures LeftmostLongest(patterns, a[1..])
  {
    forall i | 0 <= i < |a[1..]| ensures FitsAt(patterns, a[1..][i], Sources(a[1..][i + 1..])) {
      assert a[1..][i] == a[i + 1] && a[1..][i + 1..] == a[i + 2..];
    }
  }

  lemma SourcesNonEmpty(patterns: set<Text>, a: seq<Piece>)
    requires LeftmostLongest(patterns, a)
    ensures Sources(a) == [] <==> a == []
  {
    if a != [] {
      assert FitsAt(patterns, a[0], Sources(a[1..]));
    }
  }

  lemma SamePiece(patterns: set<Text>, x: Piece, y: Piece, r: Text, t: Text)
    requires FitsAt(patterns, x, r) && FitsAt(patterns, y, t) && Source(x) + r == Source(y) + t
    ensures x == y
  {
    var s := Source(x) + r;
    assert s == Source(y) + t;
    assert Source(x) == s[..|Source(x)|] && Source(y) == s[..|Source(y)|];
    if x.Masked? && y.Masked? {
      assert x.pattern <= s && y.pattern <= s;
    }
  }

  // ---------- the variants of registered values ----------

  predicate Separator(b: byte) {
    b == 10 || b == 13
  }

  function RunLength(s: Text): (n: nat)
    ensures n <= |s|
    ensures forall i :: 0 <= i < n ==> !Separator(s[i])
    ensures n < |s| ==> Separator(s[n])
  {
    if s == [] || Separator(s[0]) then 0 else 1 + RunLength(s[1..])
  }

  /** The pieces of a value between line breaks. */
  function Fields(s: Text): (fields: seq<Text>)
    ensures forall i :: 0 <= i < |fields| ==> fields[i] != []
    decreases |s|
  {
    if s == [] then []
    else if Separator(s[0]) then Fields(s[1..])
    else [s[..RunLength(s)]] + Fields(s[RunLength(s)..])
  }

  datatype Escapes = Escapes(query: Text -> Text, json: Text -> Text)

  predicate Accepted(value: Text) {
    0 < |value| <= MAX_VALUE_BYTES
  }

  /** Variants that are masked everywhere. */
  function FullOf(e: Escapes, value: Text): (variants: set<Text>)
    ensures [] !in variants
  {
    if Accepted(value) then {value, e.query(value), e.json(value)} - {[]} else {}
  }

  /** Variants that are masked only in raw lines, which have lost their line breaks. */
  function FragmentsOf(value: Text): (variants: set<Text>)
    ensures [] !in variants
  {
    if Accepted(value) then set f | f in Fields(value) else {}
  }

  /** What a list of registrations amounts to. */
  datatype Registered = Registered(full: set<Text>, fragments: set<Text>, oversize: bool)

  function Add(e: Escapes, r: Registered, value: Text): Registered {
    Registered(r.full + FullOf(e, value), r.fragments + FragmentsOf(value), r.oversize || |value| > MAX_VALUE_BYTES)
  }

  function Register(e: Escapes, values: seq<Text>): Registered {
    if values == [] then Registered({}, {}, false)
    else Add(e, Register(e, values[..|values| - 1]), values[|values| - 1])
  }

  /** Every registered value contributes its variants. */
  lemma {:induction false} RegisterHas(e: Escapes, values: seq<Text>, i: nat)
    requires i < |values|
    ensures FullOf(e, values[i]) <= Register(e, values).full
    ensures FragmentsOf(values[i]) <= Register(e, values).fragments
    ensures |values[i]| > MAX_VALUE_BYTES ==> Register(e, values).oversize
    decreases |values|
  {
    if i < |values| - 1 {
      RegisterHas(e, values[..|values| - 1], i);
    }
  }

  predicate Below(a: Registered, b: Registered) {
    a.full <= b.full && a.fragments <= b.fragments && (a.oversize ==> b.oversize)
  }

  lemma {:induction false} RegisterWithin(e: Escapes, a: seq<Text>, b: seq<Text>)
    requires forall v :: v in a ==> v in b
    ensures Below(Register(e, a), Register(e, b))
    decreases |a|
  {
    if a != [] {
      var front, last := a[..|a| - 1], a[|a| - 1];
      assert last in a;
      var j :| 0 <= j < |b| && b[j] == last;
      RegisterHas(e, b, j);
      RegisterWithin(e, front, b);
    }
  }

  /** The order of registrations and their repetition do not matter. */
  lemma RegisterSameValues(e: Escapes, a: seq<Text>, b: seq<Text>)
    requires forall v :: v in a <==> v in b
    ensures Register(e, a) == Register(e, b)
  {
    RegisterWithin(e, a, b);
    RegisterWithin(e, b, a);
  }

  // ---------- limits ----------

  function Total(list: seq<Text>): (n: nat) {
    if list == [] then 0 else |list[0]| + Total(list[1..])
  }

  predicate OverLimits(list: seq<Text>) {
    |list| > MAX_PATTERNS || Total(list) > MAX_TOTAL_BYTES
  }

  /** The distinct variants are too many or too long in total. */
  ghost predicate Exceeds(variants: set<Text>) {
    exists list: seq<Text> :: NoDuplicates(list) && (forall i :: 0 <= i < |list| ==> list[i] in variants) && OverLimits(list)
  }

  function Without(list: seq<Text>, i: nat): (rest: seq<Text>)
    requires i < |list|
  {
    list[..i] + list[i + 1..]
  }

  lemma {:induction false} TotalWithout(list: seq<Text>, i: nat)
    requires i < |list|
    ensures Total(list) == |list[i]| + Total(Without(list, i))
  {
    if i == 0 {
      assert Without(list, i) == list[1..];
    } else {
      TotalWithout(list[1..], i - 1);
      assert Without(list, i)[1..] == Without(list[1..], i - 1);
      assert Without(list, i)[0] == list[0];
    }
  }

  /** A duplicate-free list within another is no longer than it, in count or in total. */
  lemma {:induction false} WithinLimits(a: seq<Text>, b: seq<Text>)
    requires NoDuplicates(a) && forall i :: 0 <= i < |a| ==> a[i] in b
    ensures |a| <= |b| && Total(a) <= Total(b)
    decreases |a|
  {
    if a != [] {
      var k :| 0 <= k < |b| && b[k] == a[0];
      var rest := Without(b, k);
      forall i | 0 <= i < |a[1..]| ensures a[1..][i] in rest {
        var j :| 0 <= j < |b| && b[j] == a[i + 1];
        assert j != k;
        assert rest[if j < k then j else j - 1] == b[j];
      }
      WithinLimits(a[1..], rest);
      TotalWithout(b, k);
    }
  }

  lemma ExceedsGrows(small: set<Text>, large: set<Text>)
    requires small <= large && Exceeds(small)
    ensures Exceeds(large)
  {
    var list :| NoDuplicates(list) && (forall i :: 0 <= i < |list| ==> list[i] in small) && OverLimits(list);
    assert forall i :: 0 <= i < |list| ==> list[i] in large;
  }

  // ---------- the result ----------

  ghost predicate Overflows(r: Registered) {
    r.oversize || Exceeds(r.full + r.fragments)
  }

  /** What a message becomes: it depends on the set of registered values only. */
  ghost function Redacted(r: Registered, message: Text, rawLine: bool): (out: Text)
    ensures |out| <= MAX_RECORD_BYTES
  {
    if Overflows(r) || |message| > MAX_LINE_BYTES then MASK
    else
      var out := Replace(if rawLine then r.full + r.fragments else r.full, message);
      if |out| > MAX_RECORD_BYTES then MASK else out
  }

  /** Redaction is the same for every registration order. */
  lemma OrderIndependent(e: Escapes, a: seq<Text>, b: seq<Text>, message: Text, rawLine: bool)
    requires forall v :: v in a <==> v in b
    ensures Redacted(Register(e, a), message, rawLine) == Redacted(Register(e, b), message, rawLine)
  {
    RegisterSameValues(e, a, b);
  }

  // ---------- in terms of the registered values ----------

  /** A maximal stretch of the value without line breaks. */
  predicate IsField(value: Text, a: nat, b: nat) {
    && a < b <= |value| && (forall i :: a <= i < b ==> value[i] != 10 && value[i] != 13)
    && (a > 0 ==> value[a - 1] == 10 || value[a - 1] == 13)
    && (b < |value| ==> value[b] == 10 || value[b] == 13)
  }

  ghost predicate HasField(value: Text, f: Text) {
    exists a: nat, b: nat :: IsField(value, a, b) && f == value[a..b]
  }

  lemma FieldBehind(s: Text, n: nat, f: Text)
    requires 0 < n <= |s| && HasField(s[n..], f)
    requires n == |s| || Separator(s[n - 1]) || Separator(s[n])
    ensures HasField(s, f)
  {
    var a: nat, b: nat :| IsField(s[n..], a, b) && f == s[n..][a..b];
    assert s[n..][a..b] == s[n + a..n + b];
    assert forall i :: 0 <= i < |s| - n ==> s[n..][i] == s[n + i];
    forall i | n + a <= i < n + b ensures s[i] != 10 && s[i] != 13 {
      assert s[i] == s[n..][i - n];
    }
    assert a > 0 ==> s[n + a - 1] == s[n..][a - 1];
    assert IsField(s, n + a, n + b);
  }

  lemma FieldAhead(s: Text, a: nat, b: nat, n: nat)
    requires IsField(s, a, b) && n <= a
    ensures HasField(s[n..], s[a..b])
  {
    assert s[n..][a - n..b - n] == s[a..b];
    assert IsField(s[n..], a - n, b - n);
  }

  /** The pieces of a value are exactly its maximal stretches without line breaks. */
  lemma {:induction false} FieldsAre(value: Text, f: Text)
    ensures f in Fields(value) <==> exists a: nat, b: nat :: IsField(value, a, b) && f == value[a..b]
    decreases |value|
  {
    assert HasField(value, f) <==> exists a: nat, b: nat :: IsField(value, a, b) && f == value[a..b];
    if value != [] {
      var n := if Separator(value[0]) then 1 else RunLength(value);
      FieldsAre(value[n..], f);
      assert HasField(value[n..], f) <==> f in Fields(value[n..]);
      if HasField(value[n..], f) {
        FieldBehind(value, n, f);
      }
      if !Separator(value[0]) {
        assert IsField(value, 0, n);
      }
      FieldsFrom(value, n, f);
    }
  }

  /** A field of the value is its first run, or one of what follows. */
  lemma FieldsFrom(value: Text, n: nat, f: Text)
    requires value != [] && n == if Separator(value[0]) then 1 else RunLength(value)
    ensures HasField(value, f) ==> (!Separator(value[0]) && f == value[..n]) || HasField(value[n..], f)
  {
    if HasField(value, f) {
      var a: nat, b: nat :| IsField(value, a, b) && f == value[a..b];
      if a < n {
        FirstField(value, a, b, n);
      } else {
        FieldAhead(value, a, b, n);
      }
    }
  }

  lemma FirstField(value: Text, a: nat, b: nat, n: nat)
    requires IsField(value, a, b) && a < n && n == if Separator(value[0]) then 1 else RunLength(value)
    ensures !Separator(value[0]) && a == 0 && b == n
  {
    assert !Separator(value[a]);
    if a > 0 {
      assert Separator(value[a - 1]);
    }
    assert b < n ==> !Separator(value[b]);
    assert n < |value| ==> Separator(value[n]);
  }

  /** What a registered value contributes: itself and its escaped forms, if it is neither
      empty nor longer than 1 MiB. */
  predicate Contributes(e: Escapes, value: Text, p: Text) {
    0 < |value| <= 1048576 && p != [] && (p == value || p == e.query(value) || p == e.json(value))
  }

  /** And, for raw lines only, its pieces between line breaks. */
  ghost predicate ContributesPiece(value: Text, p: Text) {
    0 < |value| <= 1048576 && exists a: nat, b: nat :: IsField(value, a, b) && p == value[a..b]
  }

  lemma AddIs(e: Escapes, r: Registered, value: Text, p: Text)
    ensures p in Add(e, r, value).full <==> p in r.full || Contributes(e, value, p)
    ensures p in Add(e, r, value).fragments <==> p in r.fragments || ContributesPiece(value, p)
  {
    FieldsAre(value, p);
  }

  /** What a list of registrations amounts to, value by value. */
  lemma {:induction false} RegisterIs(e: Escapes, values: seq<Text>, p: Text)
    ensures p in Register(e, values).full <==> exists i :: 0 <= i < |values| && Contributes(e, values[i], p)
    ensures p in Register(e, values).fragments <==> exists i :: 0 <= i < |values| && ContributesPiece(values[i], p)
    ensures Register(e, values).oversize <==> exists i :: 0 <= i < |values| && |values[i]| > 1048576
    decreases |values|
  {
    if values != [] {
      var n := |values| - 1;
      var front := values[..n];
      RegisterIs(e, front, p);
      AddIs(e, Register(e, front), values[n], p);
      assert forall i :: 0 <= i < n ==> front[i] == values[i];
      RegisterLast(e, values, p);
    }
  }

  lemma RegisterLast(e: Escapes, values: seq<Text>, p: Text)
    requires values != []
    ensures var front, last := values[..|values| - 1], values[|values| - 1];
            && ((exists i :: 0 <= i < |values| && Contributes(e, values[i], p)) <==> (exists i :: 0 <= i < |front| && Contributes(e, front[i], p)) || Contributes(e, last, p))
            && ((exists i :: 0 <= i < |values| && ContributesPiece(values[i], p)) <==> (exists i :: 0 <= i < |front| && ContributesPiece(front[i], p)) || ContributesPiece(last, p))
            && ((exists i :: 0 <= i < |values| && |values[i]| > 1048576) <==> (exists i :: 0 <= i < |front| && |front[i]| > 1048576) || |last| > 1048576)
  {
    var front, last := values[..|values| - 1], values[|values| - 1];
    forall i | 0 <= i < |front| ensures front[i] == values[i] {
    }
    if i :| 0 <= i < |values| && Contributes(e, values[i], p) {
      assert i < |front| ==> Contributes(e, front[i], p);
    }
    if i :| 0 <= i < |front| && Contributes(e, front[i], p) {
      assert Contributes(e, values[i], p);
    }
    if i :| 0 <= i < |values| && ContributesPiece(values[i], p) {
      assert i < |front| ==> ContributesPiece(front[i], p);
    }
    if i :| 0 <= i < |front| && ContributesPiece(front[i], p) {
      assert ContributesPiece(values[i], p);
    }
    if i :| 0 <= i < |front| && |front[i]| > 1048576 {
      assert |values[i]| > 1048576;
    }
    if i :| 0 <= i < |values| && |values[i]| > 1048576 {
      assert i < |front| ==> |front[i]| > 1048576;
    }
  }

  /** Some value contributes the text, be it for raw lines only. */
  ghost predicate IsVariant(e: Escapes, values: seq<Text>, p: Text) {
    exists i :: 0 <= i < |values| && (Contributes(e, values[i], p) || ContributesPiece(values[i], p))
  }

  lemma VariantsAre(e: Escapes, values: seq<Text>, p: Text)
    ensures p in Register(e, values).full + Register(e, values).fragments <==> IsVariant(e, values, p)
  {
    RegisterIs(e, values, p);
    if i :| 0 <= i < |values| && (Contributes(e, values[i], p) || ContributesPiece(values[i], p)) {
      assert IsVariant(e, values, p);
    }
  }

  /** Everything is masked exactly when some value is longer than 1 MiB, or distinct variants
      of the values are more than 4096 or longer than 1 MiB together. */
  lemma OverflowIs(e: Escapes, values: seq<Text>)
    ensures Overflows(Register(e, values)) <==>
              || (exists i :: 0 <= i < |values| && |values[i]| > 1048576)
              || (exists list: seq<Text> :: NoDuplicates(list) && (forall p :: p in list ==> IsVariant(e, values, p)) && (|list| > 4096 || Total(list) > 1048576))
  {
    var r := Register(e, values);
    RegisterIs(e, values, []);
    forall p ensures p in r.full + r.fragments <==> IsVariant(e, values, p) {
      VariantsAre(e, values, p);
    }
    ExceedsIs(e, values, r.full + r.fragments);
  }

  lemma ExceedsIs(e: Escapes, values: seq<Text>, variants: set<Text>)
    requires forall p :: p in variants <==> IsVariant(e, values, p)
    ensures Exceeds(variants) <==>
              exists list: seq<Text> :: NoDuplicates(list) && (forall p :: p in list ==> IsVariant(e, values, p)) && (|list| > 4096 || Total(list) > 1048576)
  {
    if list: seq<Text> :| NoDuplicates(list) && (forall p :: p in list ==> IsVariant(e, values, p)) && (|list| > 4096 || Total(list) > 1048576) {
      assert forall i :: 0 <= i < |list| ==> list[i] in list;
      assert OverLimits(list);
    }
    if Exceeds(variants) {
      var list: seq<Text> :| NoDuplicates(list) && (forall i :: 0 <= i < |list| ==> list[i] in variants) && OverLimits(list);
      assert forall p :: p in list ==> p in variants;
    }
  }

  /** No copied byte starts what the value contributes. */
  ghost predicate NothingLeft(e: Escapes, value: Text, rest: Text, rawLine: bool) {
    forall p :: Contributes(e, value, p) || (rawLine && ContributesPiece(value, p)) ==> !(p <= rest)
  }

  /** The text was registered, as a value, an escaped form, or, in a raw line, a piece. */
  ghost predicate FromValues(e: Escapes, values: seq<Text>, p: Text, rawLine: bool) {
    exists i :: 0 <= i < |values| && (Contributes(e, values[i], p) || (rawLine && ContributesPiece(values[i], p)))
  }

  /** Below the limits, the message is cut into copied bytes and masked texts so that no
      copied byte starts a registered value or one of its escaped forms, nor, in a raw line,
      a piece of it between line breaks; and nothing else is masked. The result is that cut
      with "[REDACTED]" for each masked text, or altogether if it is longer than 16 KiB. */
  lemma ValuesAreMasked(e: Escapes, values: seq<Text>, message: Text, rawLine: bool) returns (pieces: seq<Piece>)
    requires !Overflows(Register(e, values)) && |message| <= 65536
    ensures Sources(pieces) == message
    ensures forall i, j :: 0 <= i < |pieces| && 0 <= j < |values| && pieces[i].Copied? ==> NothingLeft(e, values[j], [pieces[i].b] + Sources(pieces[i + 1..]), rawLine)
    ensures forall i :: 0 <= i < |pieces| && pieces[i].Masked? ==> FromValues(e, values, pieces[i].pattern, rawLine)
    ensures forall i :: 0 <= i < |pieces| ==> Shown(pieces[i]) == if pieces[i].Copied? then [pieces[i].b] else [91, 82, 69, 68, 65, 67, 84, 69, 68, 93]
    ensures Redacted(Register(e, values), message, rawLine) ==
            if |Rendered(pieces)| <= 16384 then Rendered(pieces) else [91, 82, 69, 68, 65, 67, 84, 69, 68, 93]
  {
    var r := Register(e, values);
    var patterns := if rawLine then r.full + r.fragments else r.full;
    pieces := ReplaceIsLeftmostLongest(patterns, message);
    forall i, j | 0 <= i < |pieces| && 0 <= j < |values| && pieces[i].Copied?
      ensures NothingLeft(e, values[j], [pieces[i].b] + Sources(pieces[i + 1..]), rawLine)
    {
      assert FitsAt(patterns, pieces[i], Sources(pieces[i + 1..]));
      forall p | Contributes(e, values[j], p) || (rawLine && ContributesPiece(values[j], p)) ensures p in patterns && p != [] {
        RegisterIs(e, values, p);
      }
    }
    forall i | 0 <= i < |pieces| && pieces[i].Masked? ensures FromValues(e, values, pieces[i].pattern, rawLine) {
      assert FitsAt(patterns, pieces[i], Sources(pieces[i + 1..]));
      RegisterIs(e, values, pieces[i].pattern);
    }
  }

  /** Beyond the limits, or for a message of more than 64 KiB, everything is masked. */
  lemma EverythingIsMasked(r: Registered, message: Text, rawLine: bool)
    requires Overflows(r) || |message| > 65536
    ensures Redacted(r, message, rawLine) == [91, 82, 69, 68, 65, 67, 84, 69, 68, 93]
  {
  }
}
