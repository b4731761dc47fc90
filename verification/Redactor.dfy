/** The redactor: bounded credential patterns, kept sorted by length and compiled into two
    replacers, one for structured events and one for raw lines. */
module Redactor {
  import opened Options
  import opened Sequences
  import opened LineWriter
  import opened Redaction

  datatype Pattern = Pattern(value: Text, rawOnly: bool)

  function Values(ps: seq<Pattern>): (values: seq<Text>)
    ensures |values| == |ps| && forall i :: 0 <= i < |ps| ==> values[i] == ps[i].value
  {
    seq(|ps|, i requires 0 <= i < |ps| => ps[i].value)
  }

  function Variants(r: Registered): set<Text> {
    r.full + r.fragments
  }

  /** One more variant, masked everywhere or in raw lines only. */
  function Extend(r: Registered, p: Pattern): Registered {
    if p.rawOnly then r.(fragments := r.fragments + {p.value}) else r.(full := r.full + {p.value})
  }

  // ---------- what the pattern list says ----------

  /** The list holds distinct variants only, and stays within the limits. */
  ghost predicate Bounded(ps: seq<Pattern>, r: Registered) {
    && NoDuplicates(Values(ps))
    && (forall i :: 0 <= i < |ps| ==> ps[i].value in Variants(r))
    && !OverLimits(Values(ps))
  }

  /** The list holds every variant, marked as raw-only exactly when it is only a fragment. */
  ghost predicate Exact(ps: seq<Pattern>, r: Registered) {
    && (forall v :: v in Variants(r) ==> v in Values(ps))
    && (forall i :: 0 <= i < |ps| ==> (ps[i].rawOnly <==> ps[i].value !in r.full))
  }

  ghost predicate Tracks(ps: seq<Pattern>, overflow: bool, r: Registered) {
    && Bounded(ps, r)
    && (overflow <==> Overflows(r))
    && (!overflow ==> Exact(ps, r))
  }

  lemma ExactWithinLimits(ps: seq<Pattern>, r: Registered)
    requires Bounded(ps, r) && Exact(ps, r)
    ensures !Exceeds(Variants(r))
  {
    if Exceeds(Variants(r)) {
      var list :| NoDuplicates(list) && (forall i :: 0 <= i < |list| ==> list[i] in Variants(r)) && OverLimits(list);
      WithinLimits(list, Values(ps));
      assert false;
    }
  }

  lemma OverflowGrows(r: Registered, s: Registered)
    requires Variants(r) <= Variants(s) && (r.oversize ==> s.oversize) && Overflows(r)
    ensures Overflows(s)
  {
    if !r.oversize {
      ExceedsGrows(Variants(r), Variants(s));
    }
  }

  lemma BoundedGrows(ps: seq<Pattern>, r: Registered, s: Registered)
    requires Bounded(ps, r) && Variants(r) <= Variants(s)
    ensures Bounded(ps, s)
  {
  }

  lemma {:induction false} TotalSnoc(list: seq<Text>, v: Text)
    ensures Total(list + [v]) == Total(list) + |v|
  {
    if list == [] {
      assert list + [v] == [v];
    } else {
      assert (list + [v])[1..] == list[1..] + [v];
      TotalSnoc(list[1..], v);
    }
  }

  lemma ValuesSnoc(ps: seq<Pattern>, p: Pattern)
    ensures Values(ps + [p]) == Values(ps) + [p.value]
  {
  }

  /** The variant is known already; it is raw-only from now on if it always was. */
  lemma FoundKeeps(ps: seq<Pattern>, overflow: bool, r: Registered, p: Pattern, k: nat)
    requires Tracks(ps, overflow, r) && k < |ps| && ps[k].value == p.value
    ensures Tracks(ps[k := Pattern(p.value, ps[k].rawOnly && p.rawOnly)], overflow, Extend(r, p))
    ensures Values(ps[k := Pattern(p.value, ps[k].rawOnly && p.rawOnly)]) == Values(ps)
  {
    var qs := ps[k := Pattern(p.value, ps[k].rawOnly && p.rawOnly)];
    var s := Extend(r, p);
    assert Values(qs) == Values(ps);
    assert Variants(s) == Variants(r);
    if !overflow {
      forall i | 0 <= i < |qs| ensures qs[i].rawOnly <==> qs[i].value !in s.full {
        assert i != k ==> Values(ps)[i] != Values(ps)[k];
      }
    }
  }

  lemma AppendKeeps(ps: seq<Pattern>, overflow: bool, r: Registered, p: Pattern)
    requires Tracks(ps, overflow, r) && p.value !in Values(ps)
    requires !OverLimits(Values(ps + [p]))
    ensures Tracks(ps + [p], overflow, Extend(r, p))
  {
    var s, qs := Extend(r, p), ps + [p];
    ValuesSnoc(ps, p);
    BoundedGrows(ps, r, s);
    assert Bounded(qs, s);
    if overflow {
      OverflowGrows(r, s);
    } else {
      ExactSnoc(ps, r, p);
      ExactWithinLimits(qs, s);
    }
  }

  lemma ExactSnoc(ps: seq<Pattern>, r: Registered, p: Pattern)
    requires Bounded(ps, r) && Exact(ps, r) && p.value !in Values(ps)
    ensures Exact(ps + [p], Extend(r, p))
  {
    var s, qs := Extend(r, p), ps + [p];
    ValuesSnoc(ps, p);
    assert p.value !in r.full && p.value !in r.fragments;
    forall i | 0 <= i < |qs| ensures qs[i].rawOnly <==> qs[i].value !in s.full {
      if i < |ps| {
        assert qs[i] == ps[i] && Values(ps)[i] != p.value;
      }
    }
  }

  lemma CapHit(ps: seq<Pattern>, r: Registered, p: Pattern)
    requires Bounded(ps, r) && p.value !in Values(ps)
    requires OverLimits(Values(ps + [p]))
    ensures Exceeds(Variants(Extend(r, p)))
  {
    ValuesSnoc(ps, p);
    var list := Values(ps + [p]);
    assert NoDuplicates(list);
    assert forall i :: 0 <= i < |list| ==> list[i] in Variants(Extend(r, p));
  }

  // ---------- sorting ----------

  predicate SortedByLength(ps: seq<Pattern>) {
    forall i, j :: 0 <= i < j < |ps| ==> |ps[i].value| >= |ps[j].value|
  }

  /** The same patterns in some order. */
  predicate SamePatterns(ps: seq<Pattern>, qs: seq<Pattern>) {
    && (forall p :: p in ps ==> p in qs)
    && (forall p :: p in qs ==> p in ps)
    && NoDuplicates(Values(qs))
  }

  function Insert(p: Pattern, ps: seq<Pattern>): (qs: seq<Pattern>)
    ensures forall q :: q in qs <==> q == p || q in ps
    ensures SortedByLength(ps) ==> SortedByLength(qs)
  {
    if ps == [] || |p.value| >= |ps[0].value| then [p] + ps
    else
      assert ps == [ps[0]] + ps[1..];
      var rest := Insert(p, ps[1..]);
      assert forall i :: 0 <= i < |rest| ==> rest[i] in rest;
      [ps[0]] + rest
  }

  lemma ConsDistinct(p: Pattern, ps: seq<Pattern>)
    requires NoDuplicates(Values(ps)) && p.value !in Values(ps)
    ensures NoDuplicates(Values([p] + ps))
  {
    assert Values([p] + ps) == [p.value] + Values(ps);
  }

  lemma InsertValues(p: Pattern, ps: seq<Pattern>, v: Text)
    requires v != p.value && v !in Values(ps)
    ensures v !in Values(Insert(p, ps))
  {
    var qs := Insert(p, ps);
    forall i | 0 <= i < |qs| ensures Values(qs)[i] != v {
      assert qs[i] in qs;
      if qs[i] != p {
        var j :| 0 <= j < |ps| && ps[j] == qs[i];
        assert Values(ps)[j] == qs[i].value;
      }
    }
  }

  lemma {:induction false} InsertDistinct(p: Pattern, ps: seq<Pattern>)
    requires NoDuplicates(Values(ps)) && p.value !in Values(ps)
    ensures NoDuplicates(Values(Insert(p, ps)))
    decreases |ps|
  {
    if ps == [] || |p.value| >= |ps[0].value| {
      ConsDistinct(p, ps);
    } else {
      var first, rest := ps[0], ps[1..];
      assert Values(rest) == Values(ps)[1..];
      assert Values(ps)[0] == first.value;
      InsertDistinct(p, rest);
      InsertValues(p, rest, first.value);
      ConsDistinct(first, Insert(p, rest));
    }
  }

  function Sorted(ps: seq<Pattern>): (qs: seq<Pattern>)
    ensures SortedByLength(qs) && forall q :: q in qs <==> q in ps
  {
    if ps == [] then []
    else
      assert ps == [ps[0]] + ps[1..];
      Insert(ps[0], Sorted(ps[1..]))
  }

  lemma {:induction false} SortedDistinct(ps: seq<Pattern>)
    requires NoDuplicates(Values(ps))
    ensures NoDuplicates(Values(Sorted(ps)))
  {
    if ps != [] {
      var rest := ps[1..];
      assert Values(rest) == Values(ps)[1..];
      SortedDistinct(rest);
      forall i | 0 <= i < |Sorted(rest)| ensures Sorted(rest)[i].value != ps[0].value {
        assert Sorted(rest)[i] in rest;
        var j :| 0 <= j < |rest| && rest[j] == Sorted(rest)[i];
        assert Values(ps)[j + 1] != Values(ps)[0];
      }
      InsertDistinct(ps[0], Sorted(rest));
    }
  }

  /** Sorting by length, in any order among equals. */
  method SortByLength(ps: seq<Pattern>) returns (qs: seq<Pattern>)
    requires NoDuplicates(Values(ps))
    ensures SortedByLength(qs) && SamePatterns(ps, qs)
  {
    SortedDistinct(ps);
    assert SamePatterns(ps, Sorted(ps));
    qs :| SortedByLength(qs) && SamePatterns(ps, qs);
  }

  lemma SamePatternsKeep(ps: seq<Pattern>, qs: seq<Pattern>, overflow: bool, r: Registered)
    requires Tracks(ps, overflow, r) && SamePatterns(ps, qs)
    ensures Tracks(qs, overflow, r) && Total(Values(qs)) == Total(Values(ps)) && |qs| == |ps|
  {
    ValuesWithin(ps, qs);
    ValuesWithin(qs, ps);
    WithinLimits(Values(qs), Values(ps));
    WithinLimits(Values(ps), Values(qs));
    forall i | 0 <= i < |qs| ensures qs[i] in ps {
      assert qs[i] in qs;
    }
  }

  lemma ValuesWithin(ps: seq<Pattern>, qs: seq<Pattern>)
    requires forall p :: p in ps ==> p in qs
    ensures forall i :: 0 <= i < |ps| ==> Values(ps)[i] in Values(qs)
  {
    forall i | 0 <= i < |ps| ensures Values(ps)[i] in Values(qs) {
      assert ps[i] in qs;
      var j :| 0 <= j < |qs| && qs[j] == ps[i];
      assert Values(qs)[j] == ps[i].value;
    }
  }

  // ---------- replacers ----------

  /** A replacer tries its strings in order; these are the given ones, longest first. */
  ghost predicate ReplacerFor(list: seq<Text>, patterns: set<Text>) {
    && (forall v :: v in list <==> v in patterns)
    && (forall i, j :: 0 <= i < j < |list| ==> |list[i]| >= |list[j]|)
    && [] !in patterns
  }

  /** The first string in order that matches is the longest one that matches. */
  method FirstMatch(list: seq<Text>, ghost patterns: set<Text>, s: Text) returns (n: nat)
    requires ReplacerFor(list, patterns)
    ensures n == MatchLength(patterns, s)
  {
    for i := 0 to |list|
      invariant forall k :: 0 <= k < i ==> !(list[k] <= s)
    {
      if list[i] <= s {
        FirstIsLongest(list, patterns, s, i);
        return |list[i]|;
      }
    }
    NoneMatches(list, patterns, s);
    return 0;
  }

  lemma FirstIsLongest(list: seq<Text>, patterns: set<Text>, s: Text, i: nat)
    requires ReplacerFor(list, patterns) && i < |list| && list[i] <= s
    requires forall k :: 0 <= k < i ==> !(list[k] <= s)
    ensures MatchLength(patterns, s) == |list[i]|
  {
    var n := MatchLength(patterns, s);
    assert list[i] in patterns && list[i] != [];
    var j :| 0 <= j < |list| && list[j] == s[..n];
    assert list[j] <= s;
  }

  lemma NoneMatches(list: seq<Text>, patterns: set<Text>, s: Text)
    requires ReplacerFor(list, patterns)
    requires forall k :: 0 <= k < |list| ==> !(list[k] <= s)
    ensures MatchLength(patterns, s) == 0
  {
  }

  /** Replacement into the bounded buffer: it fails exactly when the whole output would be
      longer than a record may be. */
  method WriteReplaced(list: seq<Text>, ghost patterns: set<Text>, message: Text) returns (out: Text, ok: bool)
    requires ReplacerFor(list, patterns)
    ensures ok <==> |Replace(patterns, message)| <= MAX_RECORD_BYTES
    ensures ok ==> out == Replace(patterns, message)
  {
    out := [];
    var rest := message;
    while rest != []
      invariant |out| <= MAX_RECORD_BYTES
      invariant Replace(patterns, message) == out + Replace(patterns, rest)
      decreases |rest|
    {
      var n := FirstMatch(list, patterns, rest);
      var piece := if n == 0 then [rest[0]] else MASK;
      ReplaceStep(patterns, Replace(patterns, message), out, rest);
      if |piece| > MAX_RECORD_BYTES - |out| {
        return out, false;
      }
      out := out + piece;
      rest := rest[if n == 0 then 1 else n..];
    }
    return out, true;
  }

  lemma ReplaceStep(patterns: set<Text>, whole: Text, out: Text, rest: Text)
    requires rest != [] && whole == out + Replace(patterns, rest)
    ensures whole == (out + Head(patterns, rest)) + Replace(patterns, rest[Step(patterns, rest)..])
  {
    Regroup(out, Head(patterns, rest), Replace(patterns, rest[Step(patterns, rest)..]));
  }

  predicate Selected(p: Pattern, rawLine: bool) {
    rawLine || !p.rawOnly
  }

  /** The strings at the given places of the pattern list, which are the selected ones. */
  predicate Picked(ps: seq<Pattern>, rawLine: bool, places: seq<nat>, list: seq<Text>) {
    && |places| == |list|
    && (forall a :: 0 <= a < |places| ==> places[a] < |ps| && Selected(ps[places[a]], rawLine) && list[a] == ps[places[a]].value)
    && (forall a, b :: 0 <= a < b < |places| ==> places[a] < places[b])
  }

  method Pairs(ps: seq<Pattern>, ghost r: Registered, rawLine: bool) returns (list: seq<Text>)
    requires Bounded(ps, r) && Exact(ps, r) && SortedByLength(ps) && [] !in Variants(r)
    ensures ReplacerFor(list, if rawLine then Variants(r) else r.full)
  {
    list := [];
    ghost var places: seq<nat> := [];
    for i := 0 to |ps|
      invariant Picked(ps, rawLine, places, list)
      invariant forall a :: 0 <= a < |places| ==> places[a] < i
      invariant forall k :: 0 <= k < i && Selected(ps[k], rawLine) ==> ps[k].value in list
    {
      if rawLine || !ps[i].rawOnly {
        PickOneMore(ps, rawLine, places, list, i);
        list, places := list + [ps[i].value], places + [i];
      }
    }
    PickedIsReplacer(ps, r, rawLine, places, list);
  }

  lemma PickOneMore(ps: seq<Pattern>, rawLine: bool, places: seq<nat>, list: seq<Text>, i: nat)
    requires Picked(ps, rawLine, places, list) && i < |ps| && Selected(ps[i], rawLine)
    requires forall a :: 0 <= a < |places| ==> places[a] < i
    ensures Picked(ps, rawLine, places + [i], list + [ps[i].value])
    ensures forall v :: v in list || v == ps[i].value ==> v in list + [ps[i].value]
  {
  }

  lemma PickedIsReplacer(ps: seq<Pattern>, r: Registered, rawLine: bool, places: seq<nat>, list: seq<Text>)
    requires Bounded(ps, r) && Exact(ps, r) && SortedByLength(ps) && [] !in Variants(r)
    requires Picked(ps, rawLine, places, list)
    requires forall k :: 0 <= k < |ps| && Selected(ps[k], rawLine) ==> ps[k].value in list
    ensures ReplacerFor(list, if rawLine then Variants(r) else r.full)
  {
    var patterns := if rawLine then Variants(r) else r.full;
    forall v | v in patterns ensures v in list {
      assert v in Values(ps);
      var k :| 0 <= k < |ps| && Values(ps)[k] == v;
      assert ps[k].value == v && Selected(ps[k], rawLine);
    }
    forall v | v in list ensures v in patterns {
      var a :| 0 <= a < |list| && list[a] == v;
      assert Selected(ps[places[a]], rawLine);
    }
  }

  // ---------- the redactor ----------

  ghost predicate Compiled(list: Option<seq<Text>>, patterns: set<Text>) {
    if list.None? then patterns == {} else ReplacerFor(list.value, patterns)
  }

  class Redactor {
    const escapes: Escapes
    var secrets: seq<Pattern>
    var bytes: nat
    var overflow: bool
    var replacer: Option<seq<Text>>
    var lineReplacer: Option<seq<Text>>
    ghost var registered: Registered

    constructor (escapes: Escapes)
      ensures Valid() && registered == Register(escapes, []) && this.escapes == escapes
    {
      this.escapes := escapes;
      secrets, bytes, overflow := [], 0, false;
      replacer, lineReplacer := None, None;
      registered := Registered({}, {}, false);
      new;
      ExactWithinLimits(secrets, registered);
    }

    /** The overflow flag is set exactly when a value was too long or the distinct variants
        exceed the limits; otherwise the patterns are exactly those variants. */
    ghost predicate Sound()
      reads this
    {
      && Tracks(secrets, overflow, registered)
      && bytes == Total(Values(secrets))
      && [] !in Variants(registered)
    }

    ghost predicate Valid()
      reads this
    {
      && Sound()
      && (!overflow ==> Compiled(replacer, registered.full) && Compiled(lineReplacer, Variants(registered)))
    }

    method Find(value: Text) returns (k: int)
      ensures k == -1 ==> value !in Values(secrets)
      ensures k != -1 ==> 0 <= k < |secrets| && secrets[k].value == value
    {
      for i := 0 to |secrets|
        invariant forall j :: 0 <= j < i ==> secrets[j].value != value
      {
        if secrets[i].value == value {
          return i;
        }
      }
      return -1;
    }

    method AddVariant(p: Pattern) returns (ok: bool)
      requires Sound() && p.value != []
      modifies this`secrets, this`bytes, this`overflow, this`registered
      ensures Sound() && registered == Extend(old(registered), p)
      ensures old(overflow) || !ok ==> overflow
    {
      var k := Find(p.value);
      ghost var r := registered;
      registered := Extend(r, p);
      if k != -1 {
        FoundKeeps(secrets, overflow, r, p, k);
        secrets := secrets[k := Pattern(p.value, secrets[k].rawOnly && p.rawOnly)];
        return true;
      }
      ValuesSnoc(secrets, p);
      TotalSnoc(Values(secrets), p.value);
      if |secrets| >= MAX_PATTERNS || bytes + |p.value| > MAX_TOTAL_BYTES {
        CapHit(secrets, r, p);
        BoundedGrows(secrets, r, registered);
        overflow := true;
        return false;
      }
      AppendKeeps(secrets, overflow, r, p);
      bytes := bytes + |p.value|;
      secrets := secrets + [p];
      return true;
    }

    /** Registers a value: its variants join those registered before, whatever was there
        and in whatever order it came. */
    method Add(value: Text)
      requires Valid()
      modifies this
      ensures Valid() && registered == Redaction.Add(escapes, old(registered), value)
    {
      ghost var goal := Redaction.Add(escapes, registered, value);
      if value == [] {
        assert goal == registered;
        return;
      }
      if |value| > MAX_VALUE_BYTES {
        overflow := true;
        registered := goal;
        return;
      }
      ExtendAllGives(escapes, registered, value);
      var ok := AddVariants(VariantsOf(escapes, value));
      if ok {
        SortSecrets();
        Compile();
      }
    }

    /** Stops at the first variant beyond the limits: from then on everything is masked. */
    method AddVariants(variants: seq<Pattern>) returns (ok: bool)
      requires Sound()
      modifies this`secrets, this`bytes, this`overflow, this`registered
      ensures Sound() && registered == ExtendAll(old(registered), variants)
      ensures !ok ==> overflow
    {
      ghost var start := registered;
      var n := 0;
      while n < |variants|
        invariant 0 <= n <= |variants| && Sound()
        invariant registered == ExtendAll(start, variants[..n])
      {
        ExtendAllStep(start, variants, n);
        ok := AddNonEmpty(variants[n]);
        n := n + 1;
        if !ok {
          ExtendAllGrows(start, variants, n);
          ExtendAllNonEmpty(start, variants);
          Widen(ExtendAll(start, variants));
          return;
        }
      }
      assert variants[..n] == variants;
      return true;
    }

    method AddNonEmpty(p: Pattern) returns (ok: bool)
      requires Sound()
      modifies this`secrets, this`bytes, this`overflow, this`registered
      ensures Sound() && registered == ExtendNonEmpty(old(registered), p)
      ensures !ok ==> overflow
    {
      if p.value == [] {
        return true;
      }
      ok := AddVariant(p);
    }

    /** Once over the limits, further variants change nothing that matters. */
    ghost method Widen(goal: Registered)
      requires Sound() && overflow && Below(registered, goal) && [] !in Variants(goal)
      modifies this`registered
      ensures Sound() && registered == goal
    {
      OverflowGrows(registered, goal);
      BoundedGrows(secrets, registered, goal);
      registered := goal;
    }

    method SortSecrets()
      requires Sound()
      modifies this`secrets
      ensures Sound() && SortedByLength(secrets)
    {
      var sorted := SortByLength(secrets);
      SamePatternsKeep(secrets, sorted, overflow, registered);
      secrets := sorted;
    }

    method Compile()
      requires Sound() && SortedByLength(secrets)
      modifies this`replacer, this`lineReplacer
      ensures Valid()
    {
      // Nothing consults the replacers once everything is masked.
      if overflow {
        return;
      }
      var list := Pairs(secrets, registered, false);
      var lineList := Pairs(secrets, registered, true);
      replacer, lineReplacer := Some(list), Some(lineList);
    }

    /** The result is a function of the set of registered values. */
    method RedactWith(message: Text, rawLine: bool) returns (out: Text)
      requires Valid()
      ensures out == Redacted(registered, message, rawLine)
    {
      if overflow || |message| > MAX_LINE_BYTES {
        return MASK;
      }
      var list := if rawLine then lineReplacer else replacer;
      ghost var patterns := if rawLine then Variants(registered) else registered.full;
      var ok: bool;
      if list.None? {
        NothingToReplace(message);
        out, ok := message, |message| <= MAX_RECORD_BYTES;
      } else {
        out, ok := WriteReplaced(list.value, patterns, message);
      }
      if !ok {
        return MASK;
      }
    }
  }

  /** Two redactors that were given the same values, in any order and with any repetition,
      redact every message alike. */
  method SameInAnyOrder(escapes: Escapes, a: seq<Text>, b: seq<Text>, message: Text, rawLine: bool) returns (x: Text, y: Text)
    requires forall v :: v in a <==> v in b
    ensures x == y && x == Redacted(Register(escapes, a), message, rawLine)
  {
    var first := RegisterAll(escapes, a);
    var second := RegisterAll(escapes, b);
    RegisterSameValues(escapes, a, b);
    x := first.RedactWith(message, rawLine);
    y := second.RedactWith(message, rawLine);
  }

  method RegisterAll(escapes: Escapes, values: seq<Text>) returns (r: Redactor)
    ensures fresh(r) && r.Valid() && r.registered == Register(escapes, values)
  {
    r := new Redactor(escapes);
    for i := 0 to |values|
      invariant fresh(r) && r.Valid() && r.escapes == escapes
      invariant r.registered == Register(escapes, values[..i])
    {
      assert values[..i + 1][..i] == values[..i];
      r.Add(values[i]);
    }
    assert values[..|values|] == values;
  }

  lemma {:induction false} NothingToReplace(s: Text)
    ensures Replace({}, s) == s
    decreases |s|
  {
    if s != [] {
      NothingAtStart(s);
      NothingToReplace(s[1..]);
    }
  }

  lemma NothingAtStart(s: Text)
    requires s != []
    ensures Head({}, s) == [s[0]] && Step({}, s) == 1 && s == [s[0]] + s[1..]
  {
    assert MatchLength({}, s) == 0;
  }

  // ---------- the variants of one value ----------

  function Fragments(fields: seq<Text>): (ps: seq<Pattern>)
    ensures |ps| == |fields| && forall i :: 0 <= i < |ps| ==> ps[i] == Pattern(fields[i], true)
  {
    seq(|fields|, i requires 0 <= i < |fields| => Pattern(fields[i], true))
  }

  function VariantsOf(e: Escapes, value: Text): seq<Pattern> {
    [Pattern(value, false), Pattern(e.query(value), false), Pattern(e.json(value), false)] + Fragments(Fields(value))
  }

  /** The non-empty ones of a list of variants, one after the other. */
  function ExtendAll(r: Registered, ps: seq<Pattern>): Registered {
    if ps == [] then r
    else ExtendNonEmpty(ExtendAll(r, ps[..|ps| - 1]), ps[|ps| - 1])
  }

  function ExtendNonEmpty(r: Registered, p: Pattern): Registered {
    if p.value == [] then r else Extend(r, p)
  }

  lemma ExtendAllStep(r: Registered, ps: seq<Pattern>, n: nat)
    requires n < |ps|
    ensures ExtendAll(r, ps[..n + 1]) == ExtendNonEmpty(ExtendAll(r, ps[..n]), ps[n])
  {
    assert ps[..n + 1][..n] == ps[..n];
  }

  lemma {:induction false} ExtendAllNonEmpty(r: Registered, ps: seq<Pattern>)
    requires [] !in Variants(r)
    ensures [] !in Variants(ExtendAll(r, ps))
    decreases |ps|
  {
    if ps != [] {
      ExtendAllNonEmpty(r, ps[..|ps| - 1]);
    }
  }

  lemma {:induction false} ExtendAllGrows(r: Registered, ps: seq<Pattern>, n: nat)
    requires n <= |ps|
    ensures Below(ExtendAll(r, ps[..n]), ExtendAll(r, ps))
    decreases |ps|
  {
    if n < |ps| {
      ExtendAllGrows(r, ps[..|ps| - 1], n);
      assert ps[..|ps| - 1][..n] == ps[..n];
    } else {
      assert ps[..n] == ps;
    }
  }

  lemma {:induction false} ExtendFragments(r: Registered, fields: seq<Text>)
    requires forall i :: 0 <= i < |fields| ==> fields[i] != []
    ensures ExtendAll(r, Fragments(fields)) == r.(fragments := r.fragments + set f | f in fields)
    decreases |fields|
  {
    if fields != [] {
      var front, last := fields[..|fields| - 1], fields[|fields| - 1];
      assert Fragments(fields)[..|fields| - 1] == Fragments(front);
      ExtendFragments(r, front);
      assert fields == front + [last];
      assert (set f | f in fields) == (set f | f in front) + {last};
    } else {
      assert (set f | f in fields) == {};
    }
  }

  lemma {:induction false} ExtendAllConcat(r: Registered, ps: seq<Pattern>, qs: seq<Pattern>)
    ensures ExtendAll(r, ps + qs) == ExtendAll(ExtendAll(r, ps), qs)
    decreases |qs|
  {
    if qs == [] {
      assert ps + qs == ps;
    } else {
      assert (ps + qs)[..|ps + qs| - 1] == ps + qs[..|qs| - 1];
      ExtendAllConcat(r, ps, qs[..|qs| - 1]);
    }
  }

  /** Working through the variants of a value registers exactly its variants. */
  lemma ExtendAllGives(e: Escapes, r: Registered, value: Text)
    requires Accepted(value)
    ensures ExtendAll(r, VariantsOf(e, value)) == Redaction.Add(e, r, value)
  {
    var a, b, c := Pattern(value, false), Pattern(e.query(value), false), Pattern(e.json(value), false);
    var fragments := Fragments(Fields(value));
    ExtendAllConcat(r, [a, b, c], fragments);
    ExtendFragments(ExtendAll(r, [a, b, c]), Fields(value));
    assert [a, b, c][..2] == [a, b] && [a, b][..1] == [a] && [a][..0] == [];
    assert ExtendAll(r, [a]) == ExtendNonEmpty(r, a);
    assert ExtendAll(r, [a, b]) == ExtendNonEmpty(ExtendAll(r, [a]), b);
    assert ExtendAll(r, [a, b, c]) == ExtendNonEmpty(ExtendAll(r, [a, b]), c);
    assert ExtendAll(r, [a, b, c]).full == r.full + FullOf(e, value);
  }
}
