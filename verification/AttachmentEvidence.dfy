/** The evidence matching of `readAttachmentReadiness`: which input files and labels are new
    against the baseline, and which expected file each of them vouches for. */
module AttachmentEvidence {
  import opened Common

  /** A file name in normal form with a size: an expected file, or an entry of the file input,
      whose signature is this pair. */
  datatype FileSignature = FileSignature(name: string, size: nat)

  datatype Evidence = InputAt(index: nat) | LabelAt(index: nat)

  // ---------- counting ----------

  function Count<T(==)>(v: T, s: seq<T>): nat {
    if s == [] then 0 else Count(v, s[..|s| - 1]) + if s[|s| - 1] == v then 1 else 0
  }

  /** `occurrence`: the how-manieth of its kind the entry is. */
  function Occurrence<T(==)>(s: seq<T>, i: nat): nat
    requires i < |s|
  {
    Count(s[i], s[..i + 1])
  }

  function NewIndices<T(==)>(s: seq<T>, baseline: seq<T>): set<nat> {
    set i: nat | i < |s| && Occurrence(s, i) > Count(s[i], baseline)
  }

  /** The new entries equal to a given one. */
  function NewOf<T(==)>(s: seq<T>, baseline: seq<T>, v: T): set<nat> {
    set i | i in NewIndices(s, baseline) && i < |s| && s[i] == v
  }

  function Surplus<T(==)>(s: seq<T>, baseline: seq<T>, v: T): nat {
    if Count(v, s) > Count(v, baseline) then Count(v, s) - Count(v, baseline) else 0
  }

  lemma OccurrenceBefore<T>(s: seq<T>, n: nat, i: nat)
    requires i < n <= |s|
    ensures Occurrence(s, i) == Occurrence(s[..n], i)
  {
    assert s[..n][..i + 1] == s[..i + 1];
  }

  lemma NewOfLast<T>(s: seq<T>, baseline: seq<T>, v: T)
    requires s != []
    ensures var n := |s| - 1;
      NewOf(s, baseline, v) == NewOf(s[..n], baseline, v) + if s[n] == v && Count(v, s) > Count(v, baseline) then {n} else {}
  {
    hide Count;
    var n := |s| - 1;
    var rest := NewOf(s[..n], baseline, v);
    assert s[..n + 1] == s;
    forall i: nat | i < |s| && i != n ensures i in NewOf(s, baseline, v) <==> i in rest {
      OccurrenceBefore(s, n, i);
      assert s[..n][i] == s[i];
    }
  }

  /** For every entry, the new indices number exactly what the current list has of it beyond the
      baseline. */
  lemma {:induction false} NewIsSurplus<T>(s: seq<T>, baseline: seq<T>, v: T)
    ensures |NewOf(s, baseline, v)| == Surplus(s, baseline, v)
    decreases |s|
  {
    if s == [] {
      assert NewOf(s, baseline, v) == {};
    } else {
      var n := |s| - 1;
      NewIsSurplus(s[..n], baseline, v);
      NewOfLast(s, baseline, v);
      assert n !in NewOf(s[..n], baseline, v);
    }
  }

  // ---------- matching ----------

  predicate OccursAt(text: string, name: string, k: int) {
    0 <= k <= |text| - |name| && text[k..k + |name|] == name
  }

  predicate Includes(text: string, name: string) {
    exists k: nat :: k <= |text| && OccursAt(text, name, k)
  }

  /** The page as it is read: the entries of the file input, the labels, and their baselines. */
  datatype Page = Page(
    inputs: seq<FileSignature>, labels: seq<string>, baselineInputs: seq<FileSignature>, baselineLabels: seq<string>,
    baselineSupported: bool)

  function NewInputs(p: Page): set<nat> {
    NewIndices(p.inputs, p.baselineInputs)
  }

  function NewLabels(p: Page): set<nat> {
    if p.baselineSupported then NewIndices(p.labels, p.baselineLabels) else {}
  }

  /** The evidence is new and vouches for the file. */
  predicate Vouches(p: Page, e: Evidence, f: FileSignature) {
    match e
    case InputAt(i) => i in NewInputs(p) && i < |p.inputs| && p.inputs[i] == f
    case LabelAt(i) => i in NewLabels(p) && i < |p.labels| && Includes(p.labels[i], f.name)
  }

  /** The first evidence of each kind, from an index on, that is not used yet. */
  function FirstInput(p: Page, used: set<Evidence>, f: FileSignature, i: nat): Option<Evidence>
    decreases |p.inputs| - i
  {
    if i >= |p.inputs| then None
    else if InputAt(i) !in used && Vouches(p, InputAt(i), f) then Some(InputAt(i))
    else FirstInput(p, used, f, i + 1)
  }

  function FirstLabel(p: Page, used: set<Evidence>, f: FileSignature, i: nat): Option<Evidence>
    decreases |p.labels| - i
  {
    if i >= |p.labels| then None
    else if LabelAt(i) !in used && Vouches(p, LabelAt(i), f) then Some(LabelAt(i))
    else FirstLabel(p, used, f, i + 1)
  }

  function Choose(p: Page, used: set<Evidence>, f: FileSignature): Option<Evidence> {
    var input := FirstInput(p, used, f, 0);
    if input.Some? then input else FirstLabel(p, used, f, 0)
  }

  function Used(chosen: seq<Option<Evidence>>): set<Evidence> {
    set i | 0 <= i < |chosen| && chosen[i].Some? :: chosen[i].value
  }

  /** The evidence taken for each expected file, in order; a file is visible when it has some. */
  function Matched(p: Page, expected: seq<FileSignature>): seq<Option<Evidence>> {
    if expected == [] then []
    else
      var before := Matched(p, expected[..|expected| - 1]);
      before + [Choose(p, Used(before), expected[|expected| - 1])]
  }

  predicate AllVisible(p: Page, expected: seq<FileSignature>) {
    forall i | 0 <= i < |Matched(p, expected)| :: Matched(p, expected)[i].Some?
  }

  // ---------- what a match proves ----------

  lemma {:induction false} FirstInputIs(p: Page, used: set<Evidence>, f: FileSignature, i: nat)
    ensures var e := FirstInput(p, used, f, i);
      if e.None? then forall j: nat | i <= j < |p.inputs| && InputAt(j) !in used :: !Vouches(p, InputAt(j), f)
      else e.value.InputAt? && e.value !in used && Vouches(p, e.value, f)
    decreases |p.inputs| - i
  {
    if i < |p.inputs| && !(InputAt(i) !in used && Vouches(p, InputAt(i), f)) {
      FirstInputIs(p, used, f, i + 1);
    }
  }

  lemma {:induction false} FirstLabelIs(p: Page, used: set<Evidence>, f: FileSignature, i: nat)
    ensures var e := FirstLabel(p, used, f, i);
      if e.None? then forall j: nat | i <= j < |p.labels| && LabelAt(j) !in used :: !Vouches(p, LabelAt(j), f)
      else
        && e.value.LabelAt? && e.value !in used && Vouches(p, e.value, f)
        && forall j: nat | i <= j < e.value.index && LabelAt(j) !in used :: !Vouches(p, LabelAt(j), f)
    decreases |p.labels| - i
  {
    if i < |p.labels| && !(LabelAt(i) !in used && Vouches(p, LabelAt(i), f)) {
      FirstLabelIs(p, used, f, i + 1);
    }
  }

  /** Each piece of evidence is new, vouches for its file and is taken once: if every file is
      visible, this is an injection from the expected files into the evidence. */
  lemma {:induction false} MatchedIsInjective(p: Page, expected: seq<FileSignature>)
    ensures var m := Matched(p, expected);
      && |m| == |expected|
      && (forall i | 0 <= i < |m| && m[i].Some? :: Vouches(p, m[i].value, expected[i]))
      && (forall i, j | 0 <= i < j < |m| && m[i].Some? && m[j].Some? :: m[i] != m[j])
    decreases |expected|
  {
    if expected != [] {
      var n := |expected| - 1;
      var before := Matched(p, expected[..n]);
      MatchedIsInjective(p, expected[..n]);
      FirstInputIs(p, Used(before), expected[n], 0);
      FirstLabelIs(p, Used(before), expected[n], 0);
      assert forall i | 0 <= i < n && before[i].Some? :: before[i].value in Used(before);
    }
  }

  /** The inputs of one signature that are taken. */
  function TakenOf(p: Page, used: set<Evidence>, v: FileSignature): set<nat> {
    set i | i in NewOf(p.inputs, p.baselineInputs, v) && InputAt(i) in used
  }

  function Least(a: nat, b: nat): nat {
    if a < b then a else b
  }

  lemma TakenWithin(p: Page, used: set<Evidence>, v: FileSignature)
    ensures |TakenOf(p, used, v)| <= Surplus(p.inputs, p.baselineInputs, v)
    ensures |TakenOf(p, used, v)| == Surplus(p.inputs, p.baselineInputs, v) <==> TakenOf(p, used, v) == NewOf(p.inputs, p.baselineInputs, v)
  {
    NewIsSurplus(p.inputs, p.baselineInputs, v);
    var rest := NewOf(p.inputs, p.baselineInputs, v) - TakenOf(p, used, v);
    assert NewOf(p.inputs, p.baselineInputs, v) == TakenOf(p, used, v) + rest;
    assert rest == {} ==> TakenOf(p, used, v) == NewOf(p.inputs, p.baselineInputs, v);
  }

  lemma NewOfIs(p: Page, i: nat, v: FileSignature)
    ensures i in NewOf(p.inputs, p.baselineInputs, v) <==> Vouches(p, InputAt(i), v)
  {
  }

  lemma TakenGrows(p: Page, used: set<Evidence>, e: Option<Evidence>, f: FileSignature, v: FileSignature)
    requires e.Some? ==> e.value !in used && Vouches(p, e.value, f)
    ensures var more := used + if e.Some? then {e.value} else {};
      |TakenOf(p, more, v)| == |TakenOf(p, used, v)| + if v == f && e.Some? && e.value.InputAt? then 1 else 0
  {
    hide NewIndices, NewOf;
    var more := used + if e.Some? then {e.value} else {};
    if e.Some? && e.value.InputAt? {
      var i := e.value.index;
      NewOfIs(p, i, f);
      NewOfIs(p, i, v);
      assert v != f ==> !Vouches(p, InputAt(i), v);
      assert TakenOf(p, more, v) == TakenOf(p, used, v) + if v == f then {i} else {};
      assert i !in TakenOf(p, used, v);
    } else {
      assert TakenOf(p, more, v) == TakenOf(p, used, v);
    }
  }

  lemma TakesIfLeft(p: Page, used: set<Evidence>, f: FileSignature)
    ensures var e := Choose(p, used, f);
      && (e.Some? && e.value.InputAt? <==> TakenOf(p, used, f) != NewOf(p.inputs, p.baselineInputs, f))
      && (e.Some? ==> e.value !in used && Vouches(p, e.value, f))
  {
    hide FirstInput, FirstLabel, NewIndices, NewOf;
    FirstInputIs(p, used, f, 0);
    FirstLabelIs(p, used, f, 0);
    var e := Choose(p, used, f);
    if e.Some? && e.value.InputAt? {
      NewOfIs(p, e.value.index, f);
      assert e.value.index !in TakenOf(p, used, f);
    } else {
      forall i | i in NewOf(p.inputs, p.baselineInputs, f) ensures i in TakenOf(p, used, f) {
        NewOfIs(p, i, f);
      }
    }
  }

  lemma TakeMore(p: Page, used: set<Evidence>, f: FileSignature, v: FileSignature)
    ensures var e := Choose(p, used, f); var more := used + if e.Some? then {e.value} else {};
      && (e.Some? && e.value.InputAt? <==> TakenOf(p, used, f) != NewOf(p.inputs, p.baselineInputs, f))
      && |TakenOf(p, more, v)| == |TakenOf(p, used, v)| + if v == f && e.Some? && e.value.InputAt? then 1 else 0
  {
    hide Choose, TakenOf, NewOf;
    TakesIfLeft(p, used, f);
    TakenGrows(p, used, Choose(p, used, f), f, v);
  }

  lemma {:induction false} TakenAre(p: Page, expected: seq<FileSignature>, v: FileSignature)
    ensures |TakenOf(p, Used(Matched(p, expected)), v)| == Least(Count(v, expected), Surplus(p.inputs, p.baselineInputs, v))
    decreases |expected|
  {
    if expected == [] {
      assert TakenOf(p, Used(Matched(p, expected)), v) == {};
    } else {
      var n := |expected| - 1;
      var before := Matched(p, expected[..n]);
      var used, f := Used(before), expected[n];
      var e := Choose(p, used, f);
      TakenAre(p, expected[..n], v);
      TakeMore(p, used, f, v);
      TakenWithin(p, used, v);
      UsedOfMore(before, e);
    }
  }

  lemma UsedOfMore(before: seq<Option<Evidence>>, e: Option<Evidence>)
    ensures Used(before + [e]) == Used(before) + if e.Some? then {e.value} else {}
  {
    var m := before + [e];
    assert forall i | 0 <= i < |before| :: m[i] == before[i];
    assert m[|before|] == e;
    forall x | x in Used(before) ensures x in Used(m) {
      var i :| 0 <= i < |before| && before[i] == Some(x);
      assert m[i] == Some(x);
    }
    if e.Some? {
      assert m[|before|] == Some(e.value);
    }
  }

  lemma {:induction false} MatchedPrefix(p: Page, expected: seq<FileSignature>, i: nat)
    requires i < |expected|
    ensures |Matched(p, expected)| == |expected|
    ensures Matched(p, expected)[i] == Choose(p, Used(Matched(p, expected[..i])), expected[i])
    decreases |expected|
  {
    var n := |expected| - 1;
    MatchedIsInjective(p, expected[..n]);
    if i < n {
      MatchedPrefix(p, expected[..n], i);
      assert expected[..n][..i] == expected[..i];
    } else {
      assert expected[..i] == expected[..n];
    }
  }

  /** On the file input the matching is exact: the n-th expected file of a signature is vouched
      for by an input if and only if the page has n more of it than the baseline. */
  lemma InputEvidenceIsExact(p: Page, expected: seq<FileSignature>, i: nat)
    requires i < |expected|
    ensures |Matched(p, expected)| == |expected|
    ensures Matched(p, expected)[i].Some? && Matched(p, expected)[i].value.InputAt?
            <==> Occurrence(expected, i) <= Surplus(p.inputs, p.baselineInputs, expected[i])
  {
    var f := expected[i];
    var used := Used(Matched(p, expected[..i]));
    MatchedPrefix(p, expected, i);
    TakenAre(p, expected[..i], f);
    TakenWithin(p, used, f);
    TakeMore(p, used, f, f);
    assert expected[..i + 1][..i] == expected[..i];
  }

  /** A file is reported missing exactly when the inputs of its signature are used up and every
      label that vouches for it went to an earlier file. */
  lemma MissingExactly(p: Page, expected: seq<FileSignature>, i: nat)
    requires i < |expected|
    ensures |Matched(p, expected)| == |expected|
    ensures Matched(p, expected)[i].None? <==>
              && Occurrence(expected, i) > Surplus(p.inputs, p.baselineInputs, expected[i])
              && forall l: nat | Vouches(p, LabelAt(l), expected[i]) :: exists j: nat :: j < i && Matched(p, expected)[j] == Some(LabelAt(l))
  {
    hide FirstInput, FirstLabel, Surplus, Occurrence, Vouches;
    var m, f := Matched(p, expected), expected[i];
    var used := Used(Matched(p, expected[..i]));
    MatchedPrefix(p, expected, i);
    InputEvidenceIsExact(p, expected, i);
    LabelsFree(p, used, f);
    forall l: nat ensures LabelAt(l) in used <==> exists j: nat :: j < i && m[j] == Some(LabelAt(l)) {
      UsedBefore(p, expected, i, LabelAt(l));
    }
  }

  lemma LabelsFree(p: Page, used: set<Evidence>, f: FileSignature)
    ensures FirstLabel(p, used, f, 0).None? <==> forall l: nat | Vouches(p, LabelAt(l), f) :: LabelAt(l) in used
    ensures FirstInput(p, used, f, 0).Some? ==> FirstInput(p, used, f, 0).value.InputAt?
  {
    FirstInputIs(p, used, f, 0);
    FirstLabelIs(p, used, f, 0);
  }

  lemma {:induction false} MatchedTake(p: Page, expected: seq<FileSignature>, i: nat)
    requires i <= |expected|
    ensures |Matched(p, expected)| == |expected| && Matched(p, expected[..i]) == Matched(p, expected)[..i]
    decreases |expected|
  {
    MatchedIsInjective(p, expected);
    if i == |expected| {
      assert expected[..i] == expected;
    } else {
      var n := |expected| - 1;
      MatchedTake(p, expected[..n], i);
      assert expected[..n][..i] == expected[..i];
    }
  }

  lemma UsedBefore(p: Page, expected: seq<FileSignature>, i: nat, e: Evidence)
    requires i <= |expected|
    ensures |Matched(p, expected)| == |expected|
    ensures e in Used(Matched(p, expected[..i])) <==> exists j: nat :: j < i && Matched(p, expected)[j] == Some(e)
  {
    MatchedTake(p, expected, i);
    var before := Matched(p, expected[..i]);
    if j: nat :| j < i && Matched(p, expected)[j] == Some(e) {
      assert before[j].Some? && before[j].value == e;
    }
    if e in Used(before) {
      var j :| 0 <= j < |before| && before[j].Some? && before[j].value == e;
      assert Matched(p, expected)[j] == Some(e);
    }
  }

  // ---------- when the matching is complete ----------

  /** Every file gets a piece of evidence of its own that vouches for it and is not used yet. */
  ghost predicate Assigns(p: Page, used: set<Evidence>, files: seq<FileSignature>, a: seq<Evidence>) {
    && |a| == |files|
    && (forall i | 0 <= i < |a| :: Vouches(p, a[i], files[i]) && a[i] !in used)
    && (forall i, j | 0 <= i < j < |a| :: a[i] != a[j])
  }

  ghost predicate Assignable(p: Page, files: seq<FileSignature>) {
    exists a :: Assigns(p, {}, files, a)
  }

  /** Among the labels that vouch for a file, those that vouch for another file too come last. */
  predicate SharedLast(p: Page, f: FileSignature, g: FileSignature) {
    forall l, m | 0 <= l < m < |p.labels| ::
      Vouches(p, LabelAt(l), f) && Vouches(p, LabelAt(l), g) && Vouches(p, LabelAt(m), f) ==> Vouches(p, LabelAt(m), g)
  }

  /** Whatever the greedy choice takes, the others can still be served. */
  lemma ChoiceKeepsAssignment(p: Page, used: set<Evidence>, files: seq<FileSignature>, a: seq<Evidence>) returns (rest: seq<Evidence>)
    requires files != [] && Assigns(p, used, files, a)
    requires forall g | g in files :: SharedLast(p, files[0], g)
    ensures var e := Choose(p, used, files[0]); e.Some? && Assigns(p, used + {e.value}, files[1..], rest)
  {
    hide FirstInput, FirstLabel;
    var f := files[0];
    FirstInputIs(p, used, f, 0);
    FirstLabelIs(p, used, f, 0);
    assert Vouches(p, a[0], f) && a[0] !in used;
    var e := Choose(p, used, f).value;
    rest := a[1..];
    if i :| 0 <= i < |rest| && rest[i] == e {
      var g := files[i + 1];
      assert Vouches(p, a[i + 1], g) && a[0] != a[i + 1];
      assert SharedLast(p, f, g);
      assert Vouches(p, a[0], g);
      rest := rest[i := a[0]];
    }
  }

  lemma {:induction false} MatchesAll(p: Page, expected: seq<FileSignature>, k: nat, a: seq<Evidence>)
    requires k <= |expected| && Assigns(p, Used(Matched(p, expected[..k])), expected[k..], a)
    requires forall f, g | f in expected && g in expected :: SharedLast(p, f, g)
    ensures |Matched(p, expected)| == |expected| && forall i | k <= i < |expected| :: Matched(p, expected)[i].Some?
    decreases |expected| - k
  {
    hide Choose, SharedLast, Assigns;
    MatchedTake(p, expected, k);
    if k < |expected| {
      var rest := ChoiceKeepsAssignment(p, Used(Matched(p, expected[..k])), expected[k..], a);
      MatchedPrefix(p, expected, k);
      assert expected[..k + 1][..k] == expected[..k];
      UsedOfMore(Matched(p, expected[..k]), Choose(p, Used(Matched(p, expected[..k])), expected[k]));
      assert expected[k..][1..] == expected[k + 1..];
      MatchesAll(p, expected, k + 1, rest);
    }
  }

  lemma VisibleIsAssignable(p: Page, expected: seq<FileSignature>)
    requires AllVisible(p, expected)
    ensures Assignable(p, expected)
  {
    MatchedIsInjective(p, expected);
    var m := Matched(p, expected);
    var a := seq(|m|, i requires 0 <= i < |m| => m[i].value);
    assert Assigns(p, {}, expected, a);
  }

  /** If shared labels come last for the expected files, every file is reported visible exactly
      when the page can vouch for all of them. */
  lemma OrderedLabelsAreExact(p: Page, expected: seq<FileSignature>)
    requires forall f, g | f in expected && g in expected :: SharedLast(p, f, g)
    ensures AllVisible(p, expected) <==> Assignable(p, expected)
  {
    if AllVisible(p, expected) {
      VisibleIsAssignable(p, expected);
    }
    if Assignable(p, expected) {
      var a :| Assigns(p, {}, expected, a);
      assert expected[..0] == [] && expected[0..] == expected;
      MatchesAll(p, expected, 0, a);
    }
  }

  // ---------- when it is not ----------

  predicate Distinct<T(==)>(q: seq<T>) {
    forall i, j | 0 <= i < j < |q| :: q[i] != q[j]
  }

  lemma {:induction false} Listed<T>(s: set<T>) returns (q: seq<T>)
    ensures Distinct(q) && |q| == |s| && forall x :: x in q <==> x in s
    decreases |s|
  {
    if s == {} {
      q := [];
    } else {
      var x :| x in s;
      q := Listed(s - {x});
      q := q + [x];
    }
  }

  lemma {:induction false} DistinctFit<T>(q: seq<T>, s: set<T>)
    requires Distinct(q) && forall x | x in q :: x in s
    ensures |q| <= |s|
    decreases |q|
  {
    if q != [] {
      var n := |q| - 1;
      assert q[n] in s;
      forall x | x in q[..n] ensures x in s - {q[n]} {
        var i :| 0 <= i < n && q[i] == x;
      }
      DistinctFit(q[..n], s - {q[n]});
    }
  }

  function LabelsOf(p: Page, f: FileSignature, end: nat): set<nat> {
    set l: nat | l < |p.labels| && l < end && Vouches(p, LabelAt(l), f)
  }

  function InputPieces(inputs: set<nat>): set<Evidence> {
    set i | i in inputs :: InputAt(i)
  }

  function LabelPieces(labels: set<nat>): set<Evidence> {
    set l | l in labels :: LabelAt(l)
  }

  function Pieces(inputs: set<nat>, labels: set<nat>): set<Evidence> {
    InputPieces(inputs) + LabelPieces(labels)
  }

  lemma {:induction false} InputPiecesCount(inputs: set<nat>)
    ensures |InputPieces(inputs)| == |inputs|
    decreases inputs
  {
    if i :| i in inputs {
      InputPiecesCount(inputs - {i});
      assert InputPieces(inputs) == InputPieces(inputs - {i}) + {InputAt(i)};
    } else {
      assert InputPieces(inputs) == {};
    }
  }

  lemma {:induction false} LabelPiecesCount(labels: set<nat>)
    ensures |LabelPieces(labels)| == |labels|
    decreases labels
  {
    if l :| l in labels {
      LabelPiecesCount(labels - {l});
      assert LabelPieces(labels) == LabelPieces(labels - {l}) + {LabelAt(l)};
    } else {
      assert LabelPieces(labels) == {};
    }
  }

  lemma PiecesCount(inputs: set<nat>, labels: set<nat>)
    ensures |Pieces(inputs, labels)| == |inputs| + |labels|
  {
    InputPiecesCount(inputs);
    LabelPiecesCount(labels);
    assert InputPieces(inputs) !! LabelPieces(labels);
  }

  function InputsOf(p: Page, f: FileSignature): set<nat> {
    NewOf(p.inputs, p.baselineInputs, f)
  }

  function Repeat(f: FileSignature, n: nat): seq<FileSignature> {
    seq(n, _ => f)
  }

  lemma {:induction false} RepeatCount(f: FileSignature, n: nat)
    ensures Count(f, Repeat(f, n)) == n
  {
    if n > 0 {
      RepeatCount(f, n - 1);
      assert Repeat(f, n)[..n - 1] == Repeat(f, n - 1);
    }
  }

  lemma RepeatedInputs(p: Page, f: FileSignature)
    ensures Used(Matched(p, Repeat(f, |InputsOf(p, f)|))) == Pieces(InputsOf(p, f), {})
  {
    hide NewOf, Choose, Surplus, Vouches;
    var n := |InputsOf(p, f)|;
    var expected := Repeat(f, n);
    var m := Matched(p, expected);
    NewIsSurplus(p.inputs, p.baselineInputs, f);
    RepeatCount(f, n);
    TakenAre(p, expected, f);
    TakenWithin(p, Used(m), f);
    MatchedIsInjective(p, expected);
    forall i | 0 <= i < n ensures m[i].Some? && m[i].value.InputAt? && m[i].value.index in InputsOf(p, f) {
      assert expected[..i + 1] == Repeat(f, i + 1);
      RepeatCount(f, i + 1);
      InputEvidenceIsExact(p, expected, i);
      NewOfIs(p, m[i].value.index, f);
    }
    forall i | i in InputsOf(p, f) ensures InputAt(i) in Used(m) {
      assert i in TakenOf(p, Used(m), f);
    }
  }

  /** Files of one signature take its inputs first and then its labels from the left. */
  lemma {:induction false} RepeatedTakes(p: Page, f: FileSignature, end: nat)
    requires end <= |p.labels|
    ensures Used(Matched(p, Repeat(f, |InputsOf(p, f)| + |LabelsOf(p, f, end)|))) == Pieces(InputsOf(p, f), LabelsOf(p, f, end))
  {
    hide Matched, Used, Pieces, InputsOf, Vouches;
    if end == 0 {
      assert LabelsOf(p, f, end) == {};
      RepeatedInputs(p, f);
    } else {
      var l := end - 1;
      RepeatedTakes(p, f, l);
      if Vouches(p, LabelAt(l), f) {
        assert LabelsOf(p, f, end) == LabelsOf(p, f, l) + {l};
        TakesNextLabel(p, f, l);
      } else {
        assert LabelsOf(p, f, end) == LabelsOf(p, f, l);
      }
    }
  }

  lemma UsedOfOneMore(p: Page, f: FileSignature, n: nat)
    ensures var used := Used(Matched(p, Repeat(f, n))); var e := Choose(p, used, f);
      Used(Matched(p, Repeat(f, n + 1))) == used + if e.Some? then {e.value} else {}
  {
    hide Choose, Used;
    assert Repeat(f, n + 1)[..n] == Repeat(f, n);
    UsedOfMore(Matched(p, Repeat(f, n)), Choose(p, Used(Matched(p, Repeat(f, n))), f));
  }

  lemma NextLabelIs(p: Page, f: FileSignature, l: nat)
    requires l < |p.labels| && Vouches(p, LabelAt(l), f)
    ensures Choose(p, Pieces(InputsOf(p, f), LabelsOf(p, f, l)), f) == Some(LabelAt(l))
  {
    hide FirstInput, FirstLabel, InputsOf, Vouches;
    var used := Pieces(InputsOf(p, f), LabelsOf(p, f, l));
    FirstInputIs(p, used, f, 0);
    FirstLabelIs(p, used, f, 0);
    forall i: nat | Vouches(p, InputAt(i), f) ensures InputAt(i) in used {
      TakenVouches(p, f, l, InputAt(i));
    }
    assert LabelAt(l) !in used;
  }

  lemma TakesNextLabel(p: Page, f: FileSignature, l: nat)
    requires l < |p.labels| && Vouches(p, LabelAt(l), f)
    requires Used(Matched(p, Repeat(f, |InputsOf(p, f)| + |LabelsOf(p, f, l)|))) == Pieces(InputsOf(p, f), LabelsOf(p, f, l))
    ensures Used(Matched(p, Repeat(f, |InputsOf(p, f)| + |LabelsOf(p, f, l)| + 1)))
            == Pieces(InputsOf(p, f), LabelsOf(p, f, l) + {l})
  {
    hide Matched, Used, Choose, InputsOf, Vouches, LabelsOf, Repeat;
    NextLabelIs(p, f, l);
    UsedOfOneMore(p, f, |InputsOf(p, f)| + |LabelsOf(p, f, l)|);
    assert LabelPieces(LabelsOf(p, f, l) + {l}) == LabelPieces(LabelsOf(p, f, l)) + {LabelAt(l)};
  }

  /** The evidence left for `g` once files of signature `f` have taken their labels up to `end`. */
  function LeftFor(p: Page, f: FileSignature, g: FileSignature, end: nat): set<Evidence> {
    Pieces(InputsOf(p, g), LabelsOf(p, g, |p.labels|) - LabelsOf(p, f, end))
  }

  lemma NotAllVisible(p: Page, f: FileSignature, g: FileSignature, l: nat)
    requires l < |p.labels|
    ensures var left := LeftFor(p, f, g, l + 1);
      !AllVisible(p, Repeat(f, |InputsOf(p, f)| + |LabelsOf(p, f, l + 1)|) + Repeat(g, |left| + 1))
  {
    hide InputsOf, Choose, Vouches, LabelsOf, LabelPieces, Matched, Used;
    var left, n := LeftFor(p, f, g, l + 1), |InputsOf(p, f)| + |LabelsOf(p, f, l + 1)|;
    var expected := Repeat(f, n) + Repeat(g, |left| + 1);
    var m := Matched(p, expected);
    MatchedIsInjective(p, expected);
    if AllVisible(p, expected) {
      var q := seq(|left| + 1, i requires 0 <= i < |left| + 1 => m[n + i].value);
      RepeatedTakes(p, f, l + 1);
      assert expected[..n] == Repeat(f, n);
      forall x | x in q ensures x in left {
        var i :| 0 <= i < |q| && q[i] == x;
        assert expected[n + i] == g && Vouches(p, x, g);
        UsedBefore(p, expected, n, x);
        assert x !in Pieces(InputsOf(p, f), LabelsOf(p, f, l + 1));
        LeftHolds(p, f, g, l + 1, x);
      }
      assert Distinct(q) by {
        forall i, j | 0 <= i < j < |q| ensures q[i] != q[j] {
          assert m[n + i] != m[n + j];
        }
      }
      DistinctFit(q, left);
    }
  }

  lemma LeftHolds(p: Page, f: FileSignature, g: FileSignature, end: nat, x: Evidence)
    ensures x in LeftFor(p, f, g, end) <==> Vouches(p, x, g) && (x.LabelAt? ==> x !in LabelPieces(LabelsOf(p, f, end)))
  {
    if x.InputAt? {
      NewOfIs(p, x.index, g);
    }
  }

  lemma StillAssignable(p: Page, f: FileSignature, g: FileSignature, l: nat, m: nat)
    requires l < m < |p.labels|
    requires Vouches(p, LabelAt(l), f) && Vouches(p, LabelAt(l), g) && Vouches(p, LabelAt(m), f) && !Vouches(p, LabelAt(m), g)
    ensures var left := LeftFor(p, f, g, l + 1);
      Assignable(p, Repeat(f, |InputsOf(p, f)| + |LabelsOf(p, f, l + 1)|) + Repeat(g, |left| + 1))
  {
    hide InputsOf, Vouches, Assignable, LabelPieces;
    var taken := Pieces(InputsOf(p, f), LabelsOf(p, f, l + 1));
    var left := LeftFor(p, f, g, l + 1);
    PiecesCount(InputsOf(p, f), LabelsOf(p, f, l + 1));
    var forF := taken - {LabelAt(l)} + {LabelAt(m)};
    var forG := left + {LabelAt(l)};
    SharedIsTaken(p, f, g, l, m);
    Swapped(taken, LabelAt(l), LabelAt(m));
    assert |forG| == |left| + 1;
    assert (forall x | x in forF :: Vouches(p, x, f) && x !in forG) && (forall x | x in forG :: Vouches(p, x, g)) by {
      hide Pieces, LabelsOf, LeftFor;
      forall x | x in forF ensures Vouches(p, x, f) && x !in forG {
        TakenVouches(p, f, l + 1, x);
        LeftHolds(p, f, g, l + 1, x);
        if x.InputAt? {
          OneSignature(p, x, f, g, m);
        }
      }
      forall x | x in forG ensures Vouches(p, x, g) {
        LeftHolds(p, f, g, l + 1, x);
      }
    }
    JoinAssigns(p, f, forF, g, forG);
  }

  lemma Swapped<T>(s: set<T>, x: T, y: T)
    requires x in s && y !in s
    ensures |s - {x} + {y}| == |s|
  {
  }

  lemma SharedIsTaken(p: Page, f: FileSignature, g: FileSignature, l: nat, m: nat)
    requires l < m < |p.labels| && Vouches(p, LabelAt(l), f) && !Vouches(p, LabelAt(m), g)
    ensures var taken := Pieces(InputsOf(p, f), LabelsOf(p, f, l + 1)); var left := LeftFor(p, f, g, l + 1);
      LabelAt(l) in taken && LabelAt(m) !in taken && LabelAt(l) !in left && LabelAt(m) !in left
  {
    hide InputsOf, Vouches;
  }

  lemma TakenVouches(p: Page, f: FileSignature, end: nat, x: Evidence)
    ensures x in Pieces(InputsOf(p, f), LabelsOf(p, f, end)) <==> Vouches(p, x, f) && (x.LabelAt? ==> x in LabelPieces(LabelsOf(p, f, end)))
  {
    if x.InputAt? {
      NewOfIs(p, x.index, f);
    }
  }

  lemma JoinAssigns(p: Page, f: FileSignature, forF: set<Evidence>, g: FileSignature, forG: set<Evidence>)
    requires forF !! forG && (forall x | x in forF :: Vouches(p, x, f)) && (forall x | x in forG :: Vouches(p, x, g))
    ensures Assignable(p, Repeat(f, |forF|) + Repeat(g, |forG|))
  {
    hide Vouches;
    var a := Listed(forF);
    var b := Listed(forG);
    assert forall i | 0 <= i < |a| :: a[i] in forF;
    assert forall i | 0 <= i < |b| :: b[i] in forG;
    assert Assigns(p, {}, Repeat(f, |a|) + Repeat(g, |b|), a + b);
  }

  lemma OneSignature(p: Page, x: Evidence, f: FileSignature, g: FileSignature, m: nat)
    requires x.InputAt? && Vouches(p, x, f) && Vouches(p, LabelAt(m), f) && !Vouches(p, LabelAt(m), g)
    ensures !Vouches(p, x, g)
  {
  }

  lemma Incomplete(p: Page, f: FileSignature, g: FileSignature) returns (expected: seq<FileSignature>)
    requires !SharedLast(p, f, g)
    ensures Within(expected, {f, g}) && Assignable(p, expected) && !AllVisible(p, expected)
  {
    hide Vouches, AllVisible, Assignable, LeftFor, InputsOf, LabelsOf;
    var l, m :| 0 <= l < m < |p.labels|
      && Vouches(p, LabelAt(l), f) && Vouches(p, LabelAt(l), g) && Vouches(p, LabelAt(m), f) && !Vouches(p, LabelAt(m), g);
    expected := Repeat(f, |InputsOf(p, f)| + |LabelsOf(p, f, l + 1)|) + Repeat(g, |LeftFor(p, f, g, l + 1)| + 1);
    NotAllVisible(p, f, g, l);
    StillAssignable(p, f, g, l, m);
  }

  predicate Within(expected: seq<FileSignature>, files: set<FileSignature>) {
    forall f | f in expected :: f in files
  }

  /** The exact condition on a page: whichever of the given files are expected, how often and in
      which order, the report is complete if and only if for every two of them the labels shared
      with the other come last. */
  lemma CompleteIff(p: Page, files: set<FileSignature>)
    ensures (forall expected | Within(expected, files) :: AllVisible(p, expected) <==> Assignable(p, expected))
            <==> forall f, g | f in files && g in files :: SharedLast(p, f, g)
  {
    hide AllVisible, Assignable, SharedLast;
    if forall f, g | f in files && g in files :: SharedLast(p, f, g) {
      forall expected | Within(expected, files) ensures AllVisible(p, expected) <==> Assignable(p, expected) {
        OrderedLabelsAreExact(p, expected);
      }
    } else {
      var f, g :| f in files && g in files && !SharedLast(p, f, g);
      var expected := Incomplete(p, f, g);
      assert Within(expected, files);
    }
  }

  /** On labels it is not: a label that vouches for two files goes to the first of them, although
      another label could have, and the second is reported missing. */
  lemma LabelsMayBeMissed()
    ensures var p := Page([], ["ab", "a"], [], [], true);
      var expected := [FileSignature("a", 1), FileSignature("ab", 1)];
      && !AllVisible(p, expected)
      && Vouches(p, LabelAt(1), expected[0]) && Vouches(p, LabelAt(0), expected[1])
  {
    var p := Page([], ["ab", "a"], [], [], true);
    var a, ab := FileSignature("a", 1), FileSignature("ab", 1);
    var expected := [a, ab];
    assert ["ab", "a"][..1] == ["ab"] && ["ab", "a"][..2] == ["ab", "a"];
    assert Count("ab", ["ab"]) == 1 && Count("a", ["ab", "a"]) == 1;
    assert NewLabels(p) == {0, 1};
    assert OccursAt("ab", "a", 0) && OccursAt("ab", "ab", 0) && OccursAt("a", "a", 0);
    assert !Includes("a", "ab");
    assert expected[..1] == [a] && [a][..0] == [];
    assert Matched(p, []) == [];
    assert Used([]) == {};
    assert Choose(p, {}, a) == Some(LabelAt(0));
    assert Matched(p, [a]) == [Some(LabelAt(0))];
    assert Used([Some(LabelAt(0))]) == {LabelAt(0)} by {
      UsedOfMore([], Some(LabelAt(0)));
    }
    assert FirstLabel(p, {LabelAt(0)}, ab, 2).None?;
    assert FirstLabel(p, {LabelAt(0)}, ab, 1).None?;
    assert Choose(p, {LabelAt(0)}, ab).None?;
    assert Matched(p, expected)[1].None?;
  }

  // ---------- the loops ----------

  method HasSubstring(text: string, name: string) returns (found: bool)
    ensures found <==> Includes(text, name)
  {
    var k := 0;
    while k + |name| <= |text|
      invariant forall j | 0 <= j < k :: !OccursAt(text, name, j)
    {
      if text[k..k + |name|] == name {
        assert OccursAt(text, name, k);
        return true;
      }
      k := k + 1;
    }
    return false;
  }

  /** The indices beyond the baseline. */
  method CollectNew<T(==)>(s: seq<T>, baseline: seq<T>) returns (news: set<nat>)
    ensures news == NewIndices(s, baseline)
  {
    news := {};
    for i := 0 to |s|
      invariant news == set j: nat | j < i && Occurrence(s, j) > Count(s[j], baseline)
    {
      if Occurrence(s, i) > Count(s[i], baseline) {
        news := news + {i};
      }
    }
  }

  method FindInput(p: Page, news: set<nat>, usedInputs: set<nat>, ghost used: set<Evidence>, f: FileSignature) returns (found: Option<nat>)
    requires news == NewInputs(p) && forall i :: i in usedInputs <==> InputAt(i) in used
    ensures FirstInput(p, used, f, 0) == if found.Some? then Some(InputAt(found.value)) else None
  {
    for i := 0 to |p.inputs|
      invariant FirstInput(p, used, f, 0) == FirstInput(p, used, f, i)
    {
      if i !in usedInputs && i in news && p.inputs[i] == f { return Some(i); }
    }
    return None;
  }

  method FindLabel(p: Page, news: set<nat>, usedLabels: set<nat>, ghost used: set<Evidence>, f: FileSignature) returns (found: Option<nat>)
    requires news == NewLabels(p) && forall i :: i in usedLabels <==> LabelAt(i) in used
    ensures FirstLabel(p, used, f, 0) == if found.Some? then Some(LabelAt(found.value)) else None
  {
    for i := 0 to |p.labels|
      invariant FirstLabel(p, used, f, 0) == FirstLabel(p, used, f, i)
    {
      var included := HasSubstring(p.labels[i], f.name);
      if i !in usedLabels && i in news && included { return Some(i); }
    }
    return None;
  }

  /** The body of `readAttachmentReadiness`: which expected files are visible. */
  method VisibleFiles(p: Page, expected: seq<FileSignature>) returns (visible: seq<bool>)
    ensures |visible| == |expected| == |Matched(p, expected)|
    ensures forall i | 0 <= i < |visible| :: visible[i] == Matched(p, expected)[i].Some?
  {
    var newInputs := CollectNew(p.inputs, p.baselineInputs);
    var newLabels: set<nat> := {};
    if p.baselineSupported {
      newLabels := CollectNew(p.labels, p.baselineLabels);
    }
    var usedInputs, usedLabels: set<nat> := {}, {};
    visible := [];
    for n := 0 to |expected|
      invariant |visible| == n == |Matched(p, expected[..n])|
      invariant forall i | 0 <= i < n :: visible[i] == Matched(p, expected[..n])[i].Some?
      invariant forall i :: i in usedInputs <==> InputAt(i) in Used(Matched(p, expected[..n]))
      invariant forall i :: i in usedLabels <==> LabelAt(i) in Used(Matched(p, expected[..n]))
    {
      ghost var before := Matched(p, expected[..n]);
      assert expected[..n + 1][..n] == expected[..n];
      UsedOfMore(before, Choose(p, Used(before), expected[n]));
      FirstInputIs(p, Used(before), expected[n], 0);
      var inputIndex := FindInput(p, newInputs, usedInputs, Used(before), expected[n]);
      if inputIndex.Some? {
        usedInputs := usedInputs + {inputIndex.value};
        visible := visible + [true];
      } else {
        var labelIndex := FindLabel(p, newLabels, usedLabels, Used(before), expected[n]);
        if labelIndex.Some? {
          usedLabels := usedLabels + {labelIndex.value};
        }
        visible := visible + [labelIndex.Some?];
      }
    }
    assert expected[..|expected|] == expected;
  }
}
