/** Names and label values that the Kubernetes backend derives from arbitrary identifiers.
    Identifiers are sequences of Unicode characters; a byte that is not valid UTF-8 counts
    as the replacement character. */
module KubernetesNames {
  import opened Sequences

  const MAX_LABEL: nat := 63
  const EXEC_SUFFIX: nat := 8
  const PREFIX: string := "oz-task-"
  const SEPARATOR: string := "-exec-"

  // ---------- characters ----------

  predicate Alphanumeric(c: char) {
    'a' <= c <= 'z' || '0' <= c <= '9'
  }

  /** Lower case as far as the sanitizers can tell: besides the Latin capitals only the
      Kelvin sign and the dotted capital I have an ASCII lower case. */
  function Lower(c: char): (l: char) {
    if 'A' <= c <= 'Z' then c - 'A' + 'a'
    else if c == '\U{212A}' then 'k'
    else if c == '\U{0130}' then 'i'
    else c
  }

  /** Which characters may stand between letters and digits: in a Job name, or in a label
      value. */
  datatype Kind = Name | Label

  predicate Separates(k: Kind, c: char) {
    c == '-' || (k.Label? && (c == '_' || c == '.'))
  }

  function SafeChar(k: Kind, c: char): (d: char)
    ensures Alphanumeric(d) || Separates(k, d)
    ensures Alphanumeric(c) || Separates(k, c) ==> d == c
  {
    if Alphanumeric(Lower(c)) || Separates(k, Lower(c)) then Lower(c) else '-'
  }

  /** Only letters, digits and separators. */
  ghost predicate Safe(k: Kind, s: string) {
    forall c :: c in s ==> Alphanumeric(c) || Separates(k, c)
  }

  /** Moreover it starts and ends with a letter or digit. */
  ghost predicate Clean(k: Kind, s: string) {
    Safe(k, s) && (s != [] ==> Alphanumeric(s[0]) && Alphanumeric(s[|s| - 1]))
  }

  /** A label in the sense of section 2.1 of RFC 1123, within the 63 octets of section
      2.3.4 of RFC 1035. */
  ghost predicate IsLabel(s: string) {
    Clean(Name, s) && 0 < |s| <= MAX_LABEL
  }

  ghost predicate IsLabelValue(s: string) {
    Clean(Label, s) && 0 < |s| <= MAX_LABEL
  }

  // ---------- trimming ----------

  function TrimLeft(k: Kind, s: string): (t: string)
    ensures t == [] || !Separates(k, t[0])
    ensures |t| <= |s| && forall c :: c in t ==> c in s
    ensures s != [] && !Separates(k, s[0]) ==> t == s
  {
    if s != [] && Separates(k, s[0]) then TrimLeft(k, s[1..]) else s
  }

  function TrimRight(k: Kind, s: string): (t: string)
    ensures |t| <= |s| && forall c :: c in t ==> c in s
    ensures t == [] || (!Separates(k, t[|t| - 1]) && t[0] == s[0])
    ensures s != [] && !Separates(k, s[0]) ==> t != []
    ensures s != [] && !Separates(k, s[|s| - 1]) ==> t == s
  {
    if s != [] && Separates(k, s[|s| - 1]) then TrimRight(k, s[..|s| - 1]) else s
  }

  function Trim(k: Kind, s: string): (t: string)
    ensures |t| <= |s|
    ensures Safe(k, s) ==> Clean(k, t)
    ensures Clean(k, s) ==> t == s
  {
    var l := TrimLeft(k, s);
    var t := TrimRight(k, l);
    assert t != [] ==> t[0] in t && t[|t| - 1] in t;
    assert s != [] ==> s[0] in s && s[|s| - 1] in s;
    t
  }

  // ---------- sanitizing ----------

  function SafeChars(k: Kind, s: string): (t: string)
    ensures |t| == |s| && forall i :: 0 <= i < |s| ==> t[i] == SafeChar(k, s[i])
  {
    seq(|s|, i requires 0 <= i < |s| => SafeChar(k, s[i]))
  }

  function Sanitized(k: Kind, s: string): (t: string)
    ensures Clean(k, t)
    ensures Clean(k, s) ==> t == s
  {
    assert Clean(k, s) ==> forall i :: 0 <= i < |s| ==> s[i] in s && SafeChar(k, s[i]) == s[i];
    assert Clean(k, s) ==> SafeChars(k, s) == s;
    Trim(k, SafeChars(k, s))
  }

  lemma SafeCharsSnoc(k: Kind, s: string, i: nat)
    requires i < |s|
    ensures SafeChars(k, s[..i + 1]) == SafeChars(k, s[..i]) + [SafeChar(k, s[i])]
  {
  }

  method SanitizeNameFragment(value: string) returns (r: string)
    ensures r == Sanitized(Name, value)
  {
    var built := "";
    for i := 0 to |value|
      invariant built == SafeChars(Name, value[..i])
    {
      SafeCharsSnoc(Name, value, i);
      var c := Lower(value[i]);
      if 'a' <= c <= 'z' || '0' <= c <= '9' {
        built := built + [c];
      } else {
        built := built + ['-'];
      }
    }
    assert value[..|value|] == value;
    r := Trim(Name, built);
  }

  function LabelValue(value: string): (r: string)
    ensures IsLabelValue(r)
    ensures IsLabelValue(value) ==> r == value
  {
    var s := Sanitized(Label, value);
    if s == "" then Unknown()
    else if |s| > MAX_LABEL then Shortened(s)
    else s
  }

  function Unknown(): (s: string)
    ensures IsLabelValue(s)
  {
    "unknown"
  }

  function Shortened(s: string): (t: string)
    requires Clean(Label, s) && |s| > MAX_LABEL
    ensures IsLabelValue(t)
  {
    var cut := s[..MAX_LABEL];
    var t := TrimRight(Label, cut);
    assert t[|t| - 1] in t && t[|t| - 1] in cut;
    t
  }

  /** Every value becomes a valid label value, and sanitizing twice is sanitizing once, for
      names and for label values. */
  lemma SanitizingIsIdempotent(value: string)
    ensures IsLabelValue(LabelValue(value)) && LabelValue(LabelValue(value)) == LabelValue(value)
    ensures Sanitized(Name, Sanitized(Name, value)) == Sanitized(Name, value)
  {
  }

  method SanitizeLabelValue(value: string) returns (r: string)
    ensures r == LabelValue(value)
  {
    var built := "";
    for i := 0 to |value|
      invariant built == SafeChars(Label, value[..i])
    {
      SafeCharsSnoc(Label, value, i);
      var c := Lower(value[i]);
      if 'a' <= c <= 'z' || '0' <= c <= '9' {
        built := built + [c];
      } else if c == '-' || c == '_' || c == '.' {
        built := built + [c];
      } else {
        built := built + ['-'];
      }
    }
    assert value[..|value|] == value;
    var sanitized := Trim(Label, built);
    if sanitized == "" {
      return "unknown";
    }
    if |sanitized| > MAX_LABEL {
      sanitized := sanitized[..MAX_LABEL];
      sanitized := TrimRight(Label, sanitized);
    }
    return sanitized;
  }

  // ---------- Job names ----------

  lemma SafePart(k: Kind, s: string, t: string)
    requires Safe(k, s) && forall c :: c in t ==> c in s
    ensures Safe(k, t)
  {
  }

  /** The last characters of an identifier; empty when it has no usable ones. */
  function LastFragment(id: string, n: nat): (r: string)
    ensures Clean(Name, r) && |r| <= n
    ensures |Sanitized(Name, id)| <= n ==> r == Sanitized(Name, id)
  {
    Tail(Sanitized(Name, id), n)
  }

  function Tail(s: string, n: nat): (r: string)
    requires Clean(Name, s)
    ensures Clean(Name, r) && |r| <= n
    ensures |s| <= n ==> r == s
  {
    if |s| > n then SafePart(Name, s, s[|s| - n..]); Trim(Name, s[|s| - n..]) else s
  }

  function OrElse(s: string, fallback: string): (r: string)
    requires Clean(Name, s) && Clean(Name, fallback) && fallback != ""
    ensures Clean(Name, r) && r != ""
  {
    if s == "" then fallback else s
  }

  lemma Fallbacks()
    ensures Clean(Name, "exec") && Clean(Name, "run") && Clean(Name, "oz-task")
  {
  }

  function ExecFragment(id: string): (r: string)
    ensures Clean(Name, r) && 0 < |r| <= EXEC_SUFFIX
  {
    Fallbacks();
    OrElse(LastFragment(id, EXEC_SUFFIX), "exec")
  }

  /** The run's part of the name, given the room that is left. */
  function RunFragment(run: string, room: nat): (r: string)
    ensures Clean(Name, r) && r != ""
    ensures room >= 3 ==> |r| <= room
    ensures 0 < |Sanitized(Name, run)| <= room ==> r == Sanitized(Name, run)
    ensures Sanitized(Name, run) == "" ==> r == "run"
  {
    Fallbacks();
    var s := Sanitized(Name, run);
    OrElse(if |s| > room then SafePart(Name, s, s[..room]); Trim(Name, s[..room]) else s, "run")
  }

  /** The room the other parts leave. */
  function Room(exec: string): (n: nat) {
    if |PREFIX| + |SEPARATOR| + |exec| > MAX_LABEL then 0 else MAX_LABEL - |PREFIX| - |SEPARATOR| - |exec|
  }

  function JobRun(run: string, execution: string): (fragment: string)
    ensures Clean(Name, fragment) && fragment != ""
    ensures |fragment| <= Room(ExecFragment(execution))
    ensures 0 < |Sanitized(Name, run)| <= 41 ==> fragment == Sanitized(Name, run)
    ensures Sanitized(Name, run) == "" ==> fragment == "run"
  {
    assert Room(ExecFragment(execution)) >= 41;
    RunFragment(run, Room(ExecFragment(execution)))
  }

  function Assembled(fragment: string, exec: string): (name: string) {
    PREFIX + fragment + SEPARATOR + exec
  }

  function JobName(run: string, execution: string): (name: string) {
    Assembled(JobRun(run, execution), ExecFragment(execution))
  }

  lemma AssembledIsLabel(fragment: string, exec: string)
    requires Clean(Name, fragment) && Clean(Name, exec) && fragment != "" && exec != ""
    requires |PREFIX| + |fragment| + |SEPARATOR| + |exec| <= MAX_LABEL
    ensures IsLabel(Assembled(fragment, exec))
  {
    var name := Assembled(fragment, exec);
    assert forall c :: c in name ==> c in PREFIX || c in fragment || c in SEPARATOR || c in exec;
    assert Safe(Name, PREFIX) && Safe(Name, SEPARATOR);
    assert name[0] == PREFIX[0] && name[|name| - 1] == exec[|exec| - 1];
  }

  /** For all identifiers: the Job name is a valid label, ends in the whole execution
      fragment, and contains any sanitized run identifier of up to 41 characters whole. */
  lemma JobNameValid(run: string, execution: string)
    ensures IsLabel(JobName(run, execution))
    ensures 0 < |Sanitized(Name, run)| <= 41 ==>
              JobName(run, execution) == Assembled(Sanitized(Name, run), ExecFragment(execution))
    ensures Sanitized(Name, run) == "" ==> JobName(run, execution) == Assembled("run", ExecFragment(execution))
    ensures var exec := ExecFragment(execution); JobName(run, execution)[|JobName(run, execution)| - |exec|..] == exec
  {
    AssembledIsLabel(JobRun(run, execution), ExecFragment(execution));
    SplitName(JobRun(run, execution), ExecFragment(execution));
  }

  lemma SplitName(fragment: string, exec: string)
    ensures
      var s := Assembled(fragment, exec);
      && |s| == |PREFIX| + |fragment| + |SEPARATOR| + |exec|
      && s[|s| - |exec|..] == exec && s[|PREFIX|..|s| - |exec| - |SEPARATOR|] == fragment
  {
  }

  method LastIdFragment(id: string, n: nat) returns (r: string)
    ensures r == LastFragment(id, n)
  {
    r := SanitizeNameFragment(id);
    r := Tail(r, n);
  }

  method ExecPart(execution: string) returns (exec: string)
    ensures exec == ExecFragment(execution)
  {
    exec := LastIdFragment(execution, EXEC_SUFFIX);
    if exec == "" {
      exec := "exec";
    }
  }

  method RunPart(run: string, room: nat) returns (fragment: string)
    ensures fragment == RunFragment(run, room)
  {
    fragment := SanitizeNameFragment(run);
    if |fragment| > room {
      fragment := Trim(Name, fragment[..room]);
    }
    if fragment == "" {
      fragment := "run";
    }
  }

  method RoomLeft(exec: string) returns (room: int)
    ensures room == Room(exec)
  {
    room := MAX_LABEL - |PREFIX| - |SEPARATOR| - |exec|;
    if room < 0 {
      room := 0;
    }
  }

  method KubernetesTaskJobName(run: string, execution: string) returns (name: string)
    ensures name == JobName(run, execution)
  {
    var exec := ExecPart(execution);
    var room := RoomLeft(exec);
    var fragment := RunPart(run, room);
    return Assembled(fragment, exec);
  }

  // ---------- when two executions share a name ----------

  /** The longer execution fragment swallows part of the other's name: it begins with the
      separator's own "exec-", or with one character and the whole separator. */
  predicate Overlap(fragment: string, exec: string, fragment': string, exec': string)
    requires exec' != ""
  {
    || (exec' == "exec-" + exec && fragment == fragment' + "-exec")
    || (exec' == [exec'[0]] + SEPARATOR + exec && fragment == fragment' + SEPARATOR + [exec'[0]])
  }

  lemma CancelPrefix(p: string, x: string, y: string)
    requires p + x == p + y
    ensures x == y
  {
    assert x == (p + x)[|p|..] && y == (p + y)[|p|..];
  }

  /** Of two ways to end the same text, the longer one ends in the shorter one. */
  lemma CancelSuffix(a: string, e: string, b: string, e': string, d: nat)
    requires a + e == b + e' && |e'| == |e| + d
    ensures a == b + e'[..d] && e' == e'[..d] + e
  {
    var s := a + e;
    assert |a| == |b| + d;
    assert a == s[..|a|] && e == s[|a|..];
    assert s[..|a|] == b + e'[..d] && s[|a|..] == e'[d..];
  }

  /** What the longer execution fragment begins with, and how the other run's goes on. */
  lemma Shifted(p: string, sep: string, fragment: string, exec: string, fragment': string, exec': string, d: nat)
    requires p + fragment + sep + exec == p + fragment' + sep + exec' && |exec'| == |exec| + d
    ensures exec' == exec'[..d] + exec
    ensures fragment == fragment' + (sep + exec'[..d])[..d]
    ensures sep + exec'[..d] == (sep + exec'[..d])[..d] + sep
  {
    var t := sep + exec'[..d];
    CancelSuffix(p + fragment + sep, exec, p + fragment' + sep, exec', d);
    Regroup(p, fragment, sep);
    Regroup(p + fragment', sep, exec'[..d]);
    Regroup(p, fragment', t);
    CancelPrefix(p, fragment + sep, fragment' + t);
    CancelSuffix(fragment, sep, fragment', t, d);
  }

  /** Where the text after a shift by `d` repeats the separator. */
  lemma Repeats(sep: string, u: string, j: nat)
    requires sep + u == (sep + u)[..|u|] + sep && j < |sep|
    ensures if |u| + j < |sep| then sep[|u| + j] == sep[j] else u[|u| + j - |sep|] == sep[j]
  {
    var t := sep + u;
    assert t[|u| + j] == (t[..|u|] + sep)[|u| + j];
  }

  /** A separator with hyphens only at its ends meets itself only at these distances. */
  lemma SelfOverlapAt(sep: string, u: string)
    requires |sep| == 6 && sep[0] == '-' && (forall j :: 1 <= j < 5 ==> sep[j] != '-')
    requires 0 < |u| <= 7 && u[0] != '-' && sep + u == (sep + u)[..|u|] + sep
    ensures |u| == 5 || |u| == 7
    ensures |u| == 5 ==> u == sep[1..]
    ensures |u| == 7 ==> u == [u[0]] + sep
  {
    Repeats(sep, u, 0);
    var d := |u|;
    assert d == 5 || d == 7;
    forall j | d - 6 <= j < d && 0 <= j ensures u[j] == sep[6 + j - d] {
      Repeats(sep, u, 6 + j - d);
    }
  }

  lemma SelfOverlap(u: string)
    requires 0 < |u| < EXEC_SUFFIX && u[0] != '-' && SEPARATOR + u == (SEPARATOR + u)[..|u|] + SEPARATOR
    ensures u == "exec-" || u == [u[0]] + SEPARATOR
  {
    SelfOverlapAt(SEPARATOR, u);
    assert SEPARATOR[1..] == "exec-";
  }

  lemma LongerOverlaps(fragment: string, exec: string, fragment': string, exec': string)
    requires 0 < |exec| < |exec'| <= EXEC_SUFFIX && exec'[0] != '-'
    requires Assembled(fragment, exec) == Assembled(fragment', exec')
    ensures Overlap(fragment, exec, fragment', exec')
  {
    var d := |exec'| - |exec|;
    Shifted(PREFIX, SEPARATOR, fragment, exec, fragment', exec', d);
    var u := exec'[..d];
    SelfOverlap(u);
    if u == "exec-" {
      assert (SEPARATOR + u)[..d] == "-exec";
    } else {
      assert (SEPARATOR + u)[..d] == SEPARATOR + [exec'[0]];
      assert fragment' + (SEPARATOR + [exec'[0]]) == fragment' + SEPARATOR + [exec'[0]];
    }
  }

  lemma OverlapsShare(fragment: string, exec: string, fragment': string, exec': string)
    requires exec' != "" && Overlap(fragment, exec, fragment', exec')
    ensures Assembled(fragment, exec) == Assembled(fragment', exec')
  {
    if exec' == "exec-" + exec && fragment == fragment' + "-exec" {
      assert "-exec" + SEPARATOR == SEPARATOR + "exec-";
      assert PREFIX + (fragment' + "-exec") + SEPARATOR + exec == PREFIX + fragment' + ("-exec" + SEPARATOR) + exec;
      assert PREFIX + fragment' + (SEPARATOR + "exec-") + exec == PREFIX + fragment' + SEPARATOR + ("exec-" + exec);
    } else {
      var x := [exec'[0]];
      assert PREFIX + (fragment' + SEPARATOR + x) + SEPARATOR + exec == PREFIX + fragment' + SEPARATOR + (x + SEPARATOR + exec);
    }
  }

  lemma SameLengthSame(fragment: string, exec: string, fragment': string, exec': string)
    requires |exec| == |exec'| && Assembled(fragment, exec) == Assembled(fragment', exec')
    ensures fragment == fragment' && exec == exec'
  {
    SplitName(fragment, exec);
    SplitName(fragment', exec');
  }

  /** Exactly when two executions share a Job name: their fragments are the same, or one
      execution fragment overlaps the other's name. That is why cancellation also compares
      the labels of the Job it found. */
  lemma JobNameSeparates(run: string, execution: string, run': string, execution': string)
    ensures
      var f, e, f', e' := JobRun(run, execution), ExecFragment(execution), JobRun(run', execution'), ExecFragment(execution');
      JobName(run, execution) == JobName(run', execution') <==>
        (f == f' && e == e') || Overlap(f, e, f', e') || Overlap(f', e', f, e)
  {
    var f, e, f', e' := JobRun(run, execution), ExecFragment(execution), JobRun(run', execution'), ExecFragment(execution');
    if Assembled(f, e) == Assembled(f', e') {
      if |e| == |e'| {
        SameLengthSame(f, e, f', e');
      } else if |e| < |e'| {
        LongerOverlaps(f, e, f', e');
      } else {
        LongerOverlaps(f', e', f, e);
      }
    } else if Overlap(f, e, f', e') {
      OverlapsShare(f, e, f', e');
    } else if Overlap(f', e', f, e) {
      OverlapsShare(f', e', f, e);
    }
  }

  /** Execution fragments without the letter x, such as all hexadecimal ones, never
      overlap, so their names tell executions apart as far as the fragments do. */
  lemma HexNamesSeparate(run: string, execution: string, run': string, execution': string)
    requires 'x' !in ExecFragment(execution) && 'x' !in ExecFragment(execution')
    ensures JobName(run, execution) == JobName(run', execution') <==>
              JobRun(run, execution) == JobRun(run', execution') && ExecFragment(execution) == ExecFragment(execution')
  {
    JobNameSeparates(run, execution, run', execution');
    NeedsX(JobRun(run, execution), ExecFragment(execution), JobRun(run', execution'), ExecFragment(execution'));
    NeedsX(JobRun(run', execution'), ExecFragment(execution'), JobRun(run, execution), ExecFragment(execution));
  }

  lemma NeedsX(fragment: string, exec: string, fragment': string, exec': string)
    requires exec' != ""
    ensures Overlap(fragment, exec, fragment', exec') ==> 'x' in exec'
  {
    if exec' == "exec-" + exec {
      assert exec'[1] == 'x';
    } else if exec' == [exec'[0]] + SEPARATOR + exec {
      assert exec'[3] == 'x';
    }
  }

  /** A pair of each family. */
  lemma JobNameCollision()
    ensures JobName("a-exec-b", "c") == JobName("a", "b-exec-c") && ExecFragment("c") != ExecFragment("b-exec-c")
    ensures JobName("a-exec", "abc") == JobName("a", "exec-abc") && ExecFragment("abc") != ExecFragment("exec-abc")
  {
    CollisionInside();
    CollisionAtStart();
  }

  lemma CollisionInside()
    ensures JobName("a-exec-b", "c") == JobName("a", "b-exec-c") && ExecFragment("c") != ExecFragment("b-exec-c")
  {
    assert Clean(Name, "a-exec-b") && Clean(Name, "c") && Clean(Name, "a") && Clean(Name, "b-exec-c");
    assert Assembled("a-exec-b", "c") == Assembled("a", "b-exec-c");
  }

  lemma CollisionAtStart()
    ensures JobName("a-exec", "abc") == JobName("a", "exec-abc") && ExecFragment("abc") != ExecFragment("exec-abc")
  {
    assert Clean(Name, "a-exec") && Clean(Name, "abc") && Clean(Name, "a") && Clean(Name, "exec-abc");
    assert Assembled("a-exec", "abc") == Assembled("a", "exec-abc");
  }

  // ---------- character by character ----------

  /** What stands for one character: a capital letter becomes its small one, as do the two
      other characters with an ASCII lower case; a small letter, a digit and what separates
      stay; anything else becomes a hyphen. */
  predicate StandsFor(k: Kind, c: char, d: char) {
    if 'A' <= c <= 'Z' then d as int - 'a' as int == c as int - 'A' as int
    else if c == '\U{212A}' then d == 'k'
    else if c == '\U{0130}' then d == 'i'
    else if 'a' <= c <= 'z' || '0' <= c <= '9' || c == '-' || (k.Label? && (c == '_' || c == '.')) then d == c
    else d == '-'
  }

  /** It can only be trimmed away. */
  predicate Trimmable(k: Kind, c: char) {
    StandsFor(k, c, '-') || (k.Label? && (c == '_' || c == '.'))
  }

  lemma SafeCharIs(k: Kind, c: char)
    ensures StandsFor(k, c, SafeChar(k, c)) && (Trimmable(k, c) <==> Separates(k, SafeChar(k, c)))
  {
  }

  lemma TrimLeftIs(k: Kind, s: string) returns (a: nat)
    ensures a <= |s| && TrimLeft(k, s) == s[a..] && forall i :: 0 <= i < a ==> Separates(k, s[i])
  {
    a := 0;
    if s != [] && Separates(k, s[0]) {
      var rest := TrimLeftIs(k, s[1..]);
      a := rest + 1;
      assert forall i :: 0 < i < a ==> s[i] == s[1..][i - 1];
    }
  }

  lemma TrimRightIs(k: Kind, s: string) returns (b: nat)
    ensures b <= |s| && TrimRight(k, s) == s[..b] && forall i :: b <= i < |s| ==> Separates(k, s[i])
  {
    b := |s|;
    if s != [] && Separates(k, s[|s| - 1]) {
      b := TrimRightIs(k, s[..|s| - 1]);
      assert s[..|s| - 1][..b] == s[..b];
    }
  }

  /** The sanitized value stands, character by character, for a stretch of the original, and
      everything around that stretch could only be trimmed away. */
  lemma SanitizedIs(k: Kind, s: string) returns (a: nat, b: nat)
    ensures a <= b <= |s| && |Sanitized(k, s)| == b - a
    ensures forall i :: a <= i < b ==> StandsFor(k, s[i], Sanitized(k, s)[i - a])
    ensures forall i :: 0 <= i < a || b <= i < |s| ==> Trimmable(k, s[i])
  {
    var t := SafeChars(k, s);
    a := TrimLeftIs(k, t);
    var n := TrimRightIs(k, t[a..]);
    b := a + n;
    assert Sanitized(k, s) == t[a..][..n];
    forall i | 0 <= i < |s| ensures t[i] == SafeChar(k, s[i]) && StandsFor(k, s[i], t[i]) && (Trimmable(k, s[i]) <==> Separates(k, t[i])) {
      SafeCharIs(k, s[i]);
    }
    assert forall i :: b <= i < |s| ==> t[i] == t[a..][i - a];
  }

  /** Capital letters do not matter. */
  lemma CapitalsDoNotMatter(k: Kind, s: string, t: string)
    requires |s| == |t| && forall i :: 0 <= i < |s| ==> s[i] == t[i] || ('A' <= s[i] <= 'Z' && t[i] as int == s[i] as int - 'A' as int + 'a' as int)
    ensures Sanitized(k, s) == Sanitized(k, t)
  {
    forall i | 0 <= i < |s| ensures SafeChar(k, s[i]) == SafeChar(k, t[i]) {
      CapitalIsSmall(k, s[i], t[i]);
    }
    assert SafeChars(k, s) == SafeChars(k, t);
  }

  lemma CapitalIsSmall(k: Kind, c: char, d: char)
    requires c == d || ('A' <= c <= 'Z' && d as int == c as int - 'A' as int + 'a' as int)
    ensures SafeChar(k, c) == SafeChar(k, d)
  {
  }

  /** The end of a text that ends in a letter or digit needs no trimming there. */
  lemma SuffixIsTrimmed(s: string, cut: nat) returns (from: nat)
    requires s != "" && cut < |s| && !Separates(Name, s[|s| - 1])
    ensures cut <= from < |s| && Trim(Name, s[cut..]) == s[from..]
    ensures s[from] != '-' && forall i :: cut <= i < from ==> s[i] == '-'
  {
    var tail := s[cut..];
    var a := TrimLeftIs(Name, tail);
    from := cut + a;
    assert forall i :: cut <= i < |s| ==> s[i] == tail[i - cut];
    assert tail[a..] == s[from..];
    assert a < |tail|;
    LastStays(tail, a);
  }

  lemma LastStays(tail: string, a: nat)
    requires a < |tail| && TrimLeft(Name, tail) == tail[a..] && !Separates(Name, tail[|tail| - 1])
    ensures Trim(Name, tail) == tail[a..] && tail[a] != '-'
  {
    var t := tail[a..];
    assert t[0] == tail[a] && t[|t| - 1] == tail[|tail| - 1];
    NothingAtTheEnd(t);
  }

  lemma NothingAtTheEnd(t: string)
    requires t != "" && !Separates(Name, t[|t| - 1])
    ensures TrimRight(Name, t) == t
  {
  }

  lemma CleanEnds(k: Kind, s: string)
    requires Clean(k, s) && s != ""
    ensures !Separates(k, s[0]) && !Separates(k, s[|s| - 1])
  {
  }

  /** The fragment of an identifier is the longest end of the sanitized identifier, within
      the given length, that does not begin with a hyphen. */
  lemma LastFragmentIs(id: string, n: nat) returns (from: nat)
    ensures
      var s := Sanitized(Name, id);
      && from <= |s| && |s| - from <= n && LastFragment(id, n) == s[from..]
      && (from < |s| ==> s[from] != '-') && forall i :: 0 <= i < from && |s| - n <= i ==> s[i] == '-'
  {
    from := TailIs(Sanitized(Name, id), n);
  }

  lemma TailIs(s: string, n: nat) returns (from: nat)
    requires Clean(Name, s)
    ensures from <= |s| && |s| - from <= n && Tail(s, n) == s[from..]
    ensures (from < |s| ==> s[from] != '-') && forall i :: 0 <= i < from && |s| - n <= i ==> s[i] == '-'
  {
    if n == 0 {
      from := |s|;
      NothingLeftOver(s);
    } else if |s| > n {
      CleanEnds(Name, s);
      from := SuffixIsTrimmed(s, |s| - n);
    } else {
      from := 0;
      WholeTail(s, n);
    }
  }

  lemma WholeTail(s: string, n: nat)
    requires Clean(Name, s) && |s| <= n
    ensures Tail(s, n) == s[0..] && (s != "" ==> s[0] != '-')
  {
    if s != "" {
      CleanEnds(Name, s);
    }
  }

  lemma NothingLeftOver(s: string)
    requires Clean(Name, s)
    ensures Tail(s, 0) == s[|s|..]
  {
  }

  /** The run's part is the longest beginning of the sanitized run, within the room, that
      does not end with a hyphen, or "run" if that is empty. */
  lemma RunFragmentIs(run: string, room: nat) returns (to: nat)
    ensures
      var s := Sanitized(Name, run);
      && to <= |s| && to <= room && RunFragment(run, room) == (if to == 0 then "run" else s[..to])
      && (to > 0 ==> s[to - 1] != '-') && forall i :: to <= i < |s| && i < room ==> s[i] == '-'
  {
    var s := Sanitized(Name, run);
    if |s| > room {
      to := PrefixIsTrimmed(Name, s, room);
    } else {
      to := |s|;
      assert s[..to] == s;
    }
  }

  /** The beginning of a clean text needs no trimming at its beginning. */
  lemma PrefixIsTrimmed(k: Kind, s: string, room: nat) returns (to: nat)
    requires Clean(k, s) && room < |s|
    ensures to <= room && TrimRight(k, s[..room]) == s[..to] && Trim(k, s[..room]) == s[..to]
    ensures (to > 0 ==> !Separates(k, s[to - 1])) && forall i :: to <= i < room ==> Separates(k, s[i])
  {
    var head := s[..room];
    to := TrimRightIs(k, head);
    assert head[..to] == s[..to];
    assert head != "" ==> head[0] == s[0];
    assert TrimLeft(k, head) == head;
    assert forall i :: 0 <= i < room ==> head[i] == s[i];
    assert to > 0 ==> head[..to][to - 1] == s[to - 1];
  }

  /** A label value is the longest beginning of the sanitized value, within 63 characters,
      that does not end with a separator, or "unknown" for a value with nothing usable. */
  lemma LabelValueIs(value: string) returns (to: nat)
    ensures
      var s := Sanitized(Label, value);
      && to <= |s| && to <= 63 && LabelValue(value) == (if s == "" then "unknown" else s[..to])
      && (s != "" ==> to > 0 && s[to - 1] !in "-_.") && forall i :: to <= i < |s| && i < 63 ==> s[i] in "-_."
  {
    var s := Sanitized(Label, value);
    if |s| > MAX_LABEL {
      to := PrefixIsTrimmed(Label, s, MAX_LABEL);
      assert LabelValue(value) == s[..to];
      assert forall i :: to <= i < 63 ==> Separates(Label, s[i]);
    } else {
      to := |s|;
      assert s[..to] == s;
    }
  }

  /** The whole name, spelled out. */
  lemma JobNameIs(run: string, execution: string)
    ensures JobName(run, execution) == "oz-task-" + JobRun(run, execution) + "-exec-" + ExecFragment(execution)
    ensures ExecFragment(execution) == if LastFragment(execution, 8) == "" then "exec" else LastFragment(execution, 8)
    ensures JobRun(run, execution) == RunFragment(run, 63 - 8 - 6 - |ExecFragment(execution)|)
  {
    RoomIs(ExecFragment(execution));
  }

  lemma RoomIs(exec: string)
    requires |exec| <= 8
    ensures Room(exec) == 63 - 8 - 6 - |exec|
  {
  }
}
