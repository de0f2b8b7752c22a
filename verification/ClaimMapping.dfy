/**
 Claim mappings: validating a list when it is configured, layering an endpoint's list over its transfer
 type's, and evaluating the result through a bounded cache of compiled programs. The expression engine
 is a parameter: how it compiles, executes, and turns values into JSON.
 */
module ClaimMapping {
  import opened Wrappers
  import opened Json
  import TokenManager
  import TokenTypes

  const PROGRAM_CACHE_CAPACITY: nat := 512

  /** `source` is the expression, `target` the claim it is bound to. */
  datatype Mapping = Mapping(source: string, target: string, optional: bool)

  datatype Engine<!P, !V> = Engine(
    compile: string -> Result<P, string>,
    execute: P -> Result<V, string>,
    isNull: V -> bool,
    json: V -> Result<Value, string>)

  datatype MapError =
    | Compile(expression: string, message: string)
    | Evaluate(expression: string, claim: string, message: string)
    | Convert(expression: string, claim: string, message: string)

  // ---------------------------------------------------------------- validation

  /** Unicode's White_Space. */
  predicate IsWhite(c: char) {
    var n := c as int;
    || 0x09 <= n <= 0x0d || n == 0x20 || n == 0x85 || n == 0xa0 || n == 0x1680 || 0x2000 <= n <= 0x200a
    || n == 0x2028 || n == 0x2029 || n == 0x202f || n == 0x205f || n == 0x3000
  }

  /** Nothing is left after trimming. */
  predicate Blank(s: string) { forall i :: 0 <= i < |s| ==> IsWhite(s[i]) }

  datatype Complaint =
    | EmptyTarget(index: nat)
    | ReservedTarget(index: nat)
    | DuplicateTarget(index: nat)
    | EmptySource(index: nat)
    | BadSource(index: nat)

  predicate Distinct(ms: seq<Mapping>) { forall i, j :: 0 <= i < j < |ms| ==> ms[i].target != ms[j].target }

  predicate Sound<P(!new), V(!new)>(e: Engine<P, V>, m: Mapping) {
    && !Blank(m.target) && !TokenManager.Reserved(m.target)
    && !Blank(m.source) && e.compile(m.source).Ok?
  }

  /** What a configuration has to be. */
  predicate ValidList<P(!new), V(!new)>(e: Engine<P, V>, ms: seq<Mapping>) {
    Distinct(ms) && forall i :: 0 <= i < |ms| ==> Sound(e, ms[i])
  }

  /** The complaint is about a mapping that has the problem it names. */
  ghost predicate Justified<P(!new), V(!new)>(e: Engine<P, V>, mappings: seq<Mapping>, c: Complaint) {
    && c.index < |mappings|
    && var m := mappings[c.index];
       match c
       case EmptyTarget(_) => Blank(m.target)
       case ReservedTarget(_) => TokenManager.Reserved(m.target)
       case DuplicateTarget(i) => exists j :: 0 <= j < i && mappings[j].target == m.target
       case EmptySource(_) => Blank(m.source)
       case BadSource(_) => e.compile(m.source).Err?
  }

  /** Every problem of a mapping is complained of, of its target only the first that applies. */
  ghost predicate Reported<P(!new), V(!new)>(e: Engine<P, V>, mappings: seq<Mapping>, i: nat, r: seq<Complaint>)
    requires i < |mappings|
  {
    var m := mappings[i];
    && (Blank(m.target) ==> EmptyTarget(i) in r)
    && (!Blank(m.target) && TokenManager.Reserved(m.target) ==> ReservedTarget(i) in r)
    && (!Blank(m.target) && !TokenManager.Reserved(m.target) && (exists j :: 0 <= j < i && mappings[j].target == m.target) ==>
          DuplicateTarget(i) in r)
    && (Blank(m.source) ==> EmptySource(i) in r)
    && (!Blank(m.source) && e.compile(m.source).Err? ==> BadSource(i) in r)
  }

  predicate Earlier(mappings: seq<Mapping>, i: nat, target: string)
    requires i <= |mappings|
  {
    exists j :: 0 <= j < i && mappings[j].target == target
  }

  /** What there is to complain of in one mapping's target, and in its source. */
  function TargetProblems(mappings: seq<Mapping>, i: nat): seq<Complaint>
    requires i < |mappings|
  {
    var t := mappings[i].target;
    if Blank(t) then [EmptyTarget(i)]
    else if TokenManager.Reserved(t) then [ReservedTarget(i)]
    else if Earlier(mappings, i, t) then [DuplicateTarget(i)]
    else []
  }

  function SourceProblems<P(!new), V(!new)>(e: Engine<P, V>, mappings: seq<Mapping>, i: nat): seq<Complaint>
    requires i < |mappings|
  {
    if Blank(mappings[i].source) then [EmptySource(i)] else if e.compile(mappings[i].source).Err? then [BadSource(i)] else []
  }

  function Problems<P(!new), V(!new)>(e: Engine<P, V>, mappings: seq<Mapping>, i: nat): seq<Complaint>
    requires i < |mappings|
  {
    TargetProblems(mappings, i) + SourceProblems(e, mappings, i)
  }

  function Flatten<T>(parts: seq<seq<T>>): seq<T> {
    if parts == [] then [] else Flatten(parts[..|parts| - 1]) + parts[|parts| - 1]
  }

  function AllProblems<P(!new), V(!new)>(e: Engine<P, V>, mappings: seq<Mapping>, n: nat): seq<Complaint>
    requires n <= |mappings|
  {
    Flatten(seq(n, i requires 0 <= i < n => Problems(e, mappings, i)))
  }

  lemma AllProblemsSnoc<P(!new), V(!new)>(e: Engine<P, V>, mappings: seq<Mapping>, n: nat)
    requires n < |mappings|
    ensures AllProblems(e, mappings, n + 1) == AllProblems(e, mappings, n) + Problems(e, mappings, n)
  {
    var parts := seq(n + 1, i requires 0 <= i < n + 1 => Problems(e, mappings, i));
    assert parts[..n] == seq(n, i requires 0 <= i < n => Problems(e, mappings, i));
  }

  lemma {:induction false} FlattenEmpty<T>(parts: seq<seq<T>>)
    ensures |Flatten(parts)| == 0 <==> forall i :: 0 <= i < |parts| ==> |parts[i]| == 0
  {
    if parts != [] {
      FlattenEmpty(parts[..|parts| - 1]);
      assert forall i :: 0 <= i < |parts| - 1 ==> parts[..|parts| - 1][i] == parts[i];
    }
  }

  lemma {:induction false} FlattenHas<T>(parts: seq<seq<T>>, x: T)
    ensures x in Flatten(parts) <==> exists i :: 0 <= i < |parts| && x in parts[i]
  {
    if parts != [] {
      FlattenHas(parts[..|parts| - 1], x);
      assert forall i :: 0 <= i < |parts| - 1 ==> parts[..|parts| - 1][i] == parts[i];
    }
  }

  /** Appends the complaints in order; none are appended exactly when the list is what it has to be. */
  method ValidateClaimMappings<P(!new), V(!new)>(e: Engine<P, V>, mappings: seq<Mapping>, errors: seq<Complaint>)
    returns (r: seq<Complaint>)
    ensures r == errors + AllProblems(e, mappings, |mappings|)
    ensures |r| == |errors| <==> ValidList(e, mappings)
  {
    var seen: set<string> := {};
    var idx := 0;
    r := errors;
    while idx < |mappings|
      invariant idx <= |mappings| && r == errors + AllProblems(e, mappings, idx)
      invariant SeenIs(mappings, idx, seen)
    {
      var ofTarget, now := CheckTarget(mappings, idx, seen);
      var ofSource := CheckSource(e, mappings, idx);
      AllProblemsSnoc(e, mappings, idx);
      SeqAssociates(errors, AllProblems(e, mappings, idx), ofTarget + ofSource);
      r, seen := r + (ofTarget + ofSource), now;
      idx := idx + 1;
    }
    NoComplaintIff(e, mappings);
  }

  /** Nothing is complained of exactly when the targets are distinct, not reserved and not blank, and the
      sources are not blank and compile. */
  lemma NoComplaintIff<P(!new), V(!new)>(e: Engine<P, V>, mappings: seq<Mapping>)
    ensures |AllProblems(e, mappings, |mappings|)| == 0 <==> ValidList(e, mappings)
    ensures |AllProblems(e, mappings, |mappings|)| == 0 <==>
            && (forall i, j :: 0 <= i < j < |mappings| ==> mappings[i].target != mappings[j].target)
            && forall i :: 0 <= i < |mappings| ==>
                 && !Blank(mappings[i].target) && !Blank(mappings[i].source) && e.compile(mappings[i].source).Ok?
                 && mappings[i].target !in {"iss", "sub", "aud", "exp", "iat", "nbf", "jti"}
  {
    NoProblemsIff(e, mappings);
    ValidIs(e, mappings);
  }

  lemma SeqAssociates<T>(a: seq<T>, b: seq<T>, c: seq<T>)
    ensures a + b + c == a + (b + c)
  {
  }

  method CheckTarget(mappings: seq<Mapping>, idx: nat, seen: set<string>) returns (found: seq<Complaint>, now: set<string>)
    requires idx < |mappings| && SeenIs(mappings, idx, seen)
    ensures found == TargetProblems(mappings, idx) && SeenIs(mappings, idx + 1, now)
  {
    SeenMore(mappings, idx, seen);
    var target := mappings[idx].target;
    found, now := [], seen;
    if Blank(target) {
      found := [EmptyTarget(idx)];
    } else if TokenManager.Reserved(target) {
      found := [ReservedTarget(idx)];
    } else if target in seen {
      found := [DuplicateTarget(idx)];
    } else {
      now := seen + {target};
    }
  }

  method CheckSource<P(!new), V(!new)>(e: Engine<P, V>, mappings: seq<Mapping>, idx: nat) returns (found: seq<Complaint>)
    requires idx < |mappings|
    ensures found == SourceProblems(e, mappings, idx)
  {
    var source := mappings[idx].source;
    found := [];
    if Blank(source) {
      found := [EmptySource(idx)];
    } else if e.compile(source).Err? {
      found := [BadSource(idx)];
    }
  }

  /** The targets of the first `n` mappings, but for blank and reserved ones. */
  ghost predicate SeenIs(mappings: seq<Mapping>, n: nat, seen: set<string>)
    requires n <= |mappings|
  {
    forall t :: t in seen <==> Earlier(mappings, n, t) && !Blank(t) && !TokenManager.Reserved(t)
  }

  lemma SeenMore(mappings: seq<Mapping>, n: nat, seen: set<string>)
    requires n < |mappings| && SeenIs(mappings, n, seen)
    ensures var t := mappings[n].target;
            && SeenIs(mappings, n + 1, if Blank(t) || TokenManager.Reserved(t) then seen else seen + {t})
            && (!Blank(t) && !TokenManager.Reserved(t) ==> (t in seen <==> Earlier(mappings, n, t)))
            && (t in seen ==> seen + {t} == seen)
  {
    var t := mappings[n].target;
    forall x ensures Earlier(mappings, n + 1, x) <==> Earlier(mappings, n, x) || x == t {}
  }

  lemma NoProblemsIff<P(!new), V(!new)>(e: Engine<P, V>, mappings: seq<Mapping>)
    ensures |AllProblems(e, mappings, |mappings|)| == 0 <==> ValidList(e, mappings)
  {
    var n := |mappings|;
    var parts := seq(n, i requires 0 <= i < n => Problems(e, mappings, i));
    FlattenEmpty(parts);
    forall i | 0 <= i < n ensures |parts[i]| == 0 <==> Sound(e, mappings[i]) && !Earlier(mappings, i, mappings[i].target) {
      OneIsSound(e, mappings, i);
    }
    assert Distinct(mappings) <==> forall i :: 0 <= i < n ==> !Earlier(mappings, i, mappings[i].target);
  }

  lemma OneIsSound<P(!new), V(!new)>(e: Engine<P, V>, mappings: seq<Mapping>, i: nat)
    requires i < |mappings|
    ensures |Problems(e, mappings, i)| == 0 <==> Sound(e, mappings[i]) && !Earlier(mappings, i, mappings[i].target)
  {
  }

  lemma OneIsReported<P(!new), V(!new)>(e: Engine<P, V>, mappings: seq<Mapping>, i: nat, r: seq<Complaint>)
    requires i < |mappings| && forall c :: c in Problems(e, mappings, i) ==> c in r
    ensures Reported(e, mappings, i, r)
    ensures forall c :: c in Problems(e, mappings, i) ==> Justified(e, mappings, c)
  {
    var m, p := mappings[i], Problems(e, mappings, i);
    assert Blank(m.target) || TokenManager.Reserved(m.target) || Earlier(mappings, i, m.target) ==> p[0] in p;
    assert Blank(m.source) || e.compile(m.source).Err? ==> p[|p| - 1] in p;
  }

  /** Every problem is complained of, and every complaint is about a mapping that has the problem it names. */
  lemma ComplaintsAreProblems<P(!new), V(!new)>(e: Engine<P, V>, mappings: seq<Mapping>)
    ensures forall i :: 0 <= i < |mappings| ==> Reported(e, mappings, i, AllProblems(e, mappings, |mappings|))
    ensures forall c :: c in AllProblems(e, mappings, |mappings|) ==> Justified(e, mappings, c)
  {
    var n, all := |mappings|, AllProblems(e, mappings, |mappings|);
    var parts := seq(n, i requires 0 <= i < n => Problems(e, mappings, i));
    forall i | 0 <= i < n ensures Reported(e, mappings, i, all) {
      forall c | c in Problems(e, mappings, i) ensures c in all {
        FlattenHas(parts, c);
        assert c in parts[i];
      }
      OneIsReported(e, mappings, i, all);
    }
    forall c | c in all ensures Justified(e, mappings, c) {
      FlattenHas(parts, c);
      var i :| 0 <= i < n && c in parts[i];
      OneIsReported(e, mappings, i, parts[i]);
    }
  }

  lemma ValidIs<P(!new), V(!new)>(e: Engine<P, V>, ms: seq<Mapping>)
    ensures ValidList(e, ms) <==>
            && (forall i, j :: 0 <= i < j < |ms| ==> ms[i].target != ms[j].target)
            && forall i :: 0 <= i < |ms| ==>
                 && !Blank(ms[i].target) && !Blank(ms[i].source) && e.compile(ms[i].source).Ok?
                 && ms[i].target !in {"iss", "sub", "aud", "exp", "iat", "nbf", "jti"}
  {
    forall i | 0 <= i < |ms|
      ensures TokenManager.Reserved(ms[i].target) <==> ms[i].target in {"iss", "sub", "aud", "exp", "iat", "nbf", "jti"}
    {
      TokenManager.ReservedName(ms[i].target);
    }
  }

  // ---------------------------------------------------------------- merging

  /** The position of the first mapping to the target, or the length. */
  function FirstAt(ms: seq<Mapping>, target: string): (i: nat)
    ensures i <= |ms| && (i < |ms| ==> ms[i].target == target)
    ensures forall j :: 0 <= j < i ==> ms[j].target != target
  {
    if ms == [] then 0 else if ms[0].target == target then 0 else 1 + FirstAt(ms[1..], target)
  }

  function Overlay(ms: seq<Mapping>, m: Mapping): seq<Mapping> {
    var i := FirstAt(ms, m.target);
    if i < |ms| then ms[i := m] else ms + [m]
  }

  function Merged(root: seq<Mapping>, endpoint: seq<Mapping>): seq<Mapping> {
    if endpoint == [] then root else Overlay(Merged(root, endpoint[..|endpoint| - 1]), endpoint[|endpoint| - 1])
  }

  method MergeClaimMappings(root: seq<Mapping>, endpoint: Option<seq<Mapping>>) returns (merged: seq<Mapping>)
    ensures merged == Merged(root, if endpoint.Some? then endpoint.value else [])
  {
    if endpoint.None? || endpoint.value == [] {
      return root;
    }
    merged := root;
    var n := 0;
    while n < |endpoint.value|
      invariant n <= |endpoint.value| && merged == Merged(root, endpoint.value[..n])
    {
      var mapping := endpoint.value[n];
      assert endpoint.value[..n + 1][..n] == endpoint.value[..n];
      var i := 0;
      while i < |merged| && merged[i].target != mapping.target
        invariant i <= |merged| && forall j :: 0 <= j < i ==> merged[j].target != mapping.target
      {
        i := i + 1;
      }
      if i < |merged| {
        merged := merged[i := mapping];
      } else {
        merged := merged + [mapping];
      }
      n := n + 1;
    }
    assert endpoint.value[..n] == endpoint.value;
  }

  /** The mapping that is to apply to a target: the endpoint's, if it has one, else the root's. */
  function Chosen(root: seq<Mapping>, endpoint: seq<Mapping>, target: string): Option<Mapping> {
    if FirstAt(endpoint, target) < |endpoint| then Some(endpoint[FirstAt(endpoint, target)])
    else if FirstAt(root, target) < |root| then Some(root[FirstAt(root, target)])
    else None
  }

  /** The mappings whose targets the root does not have. */
  function NewOnes(root: seq<Mapping>, endpoint: seq<Mapping>): seq<Mapping> {
    if endpoint == [] then [] else
    var m := endpoint[|endpoint| - 1];
    NewOnes(root, endpoint[..|endpoint| - 1]) + if FirstAt(root, m.target) == |root| then [m] else []
  }

  /** The root's list with each mapping replaced by the endpoint's for the same target. */
  function Replaced(root: seq<Mapping>, endpoint: seq<Mapping>): (r: seq<Mapping>)
    ensures |r| == |root|
  {
    seq(|root|, i requires 0 <= i < |root| =>
      var k := FirstAt(endpoint, root[i].target); if k < |endpoint| then endpoint[k] else root[i])
  }

  lemma {:induction false} FirstAtSnoc(ms: seq<Mapping>, m: Mapping, t: string)
    ensures FirstAt(ms + [m], t) ==
            if FirstAt(ms, t) < |ms| then FirstAt(ms, t) else if m.target == t then |ms| else |ms| + 1
  {
    var i, j := FirstAt(ms, t), FirstAt(ms + [m], t);
    if j < |ms| { assert (ms + [m])[j] == ms[j]; }
    if i < |ms| { assert (ms + [m])[i] == ms[i]; }
    assert (ms + [m])[|ms|] == m;
  }

  lemma {:induction false} NewOnesAreNew(root: seq<Mapping>, endpoint: seq<Mapping>)
    ensures forall m :: m in NewOnes(root, endpoint) ==> m in endpoint && FirstAt(root, m.target) == |root|
  {
    if endpoint != [] {
      NewOnesAreNew(root, endpoint[..|endpoint| - 1]);
    }
  }

  lemma ReplacedSnoc(root: seq<Mapping>, init: seq<Mapping>, m: Mapping)
    requires Distinct(init + [m])
    ensures forall j :: 0 <= j < |root| ==>
              Replaced(root, init)[j].target == root[j].target
              && Replaced(root, init + [m])[j] == if root[j].target == m.target then m else Replaced(root, init)[j]
  {
    assert (init + [m])[|init|] == m && forall j :: 0 <= j < |init| ==> (init + [m])[j] == init[j];
    forall j | 0 <= j < |root|
      ensures Replaced(root, init)[j].target == root[j].target
              && Replaced(root, init + [m])[j] == if root[j].target == m.target then m else Replaced(root, init)[j]
    {
      FirstAtSnoc(init, m, root[j].target);
    }
  }

  lemma {:induction false} NewOnesSnoc(root: seq<Mapping>, init: seq<Mapping>, m: Mapping)
    ensures NewOnes(root, init + [m]) == NewOnes(root, init) + if FirstAt(root, m.target) == |root| then [m] else []
  {
    assert (init + [m])[..|init|] == init;
  }

  lemma FirstAtIs(ms: seq<Mapping>, t: string, i: nat)
    requires i <= |ms| && (i < |ms| ==> ms[i].target == t) && forall j :: 0 <= j < i ==> ms[j].target != t
    ensures FirstAt(ms, t) == i
  {
  }

  /** A mapping to a target the root has replaces it in place. */
  lemma OverlayInPlace(root: seq<Mapping>, r: seq<Mapping>, n: seq<Mapping>, m: Mapping, i: nat)
    requires |r| == |root| && i < |root| && root[i].target == m.target && Distinct(root)
    requires forall j :: 0 <= j < |root| ==> r[j].target == root[j].target
    ensures Overlay(r + n, m) == r[i := m] + n
  {
    assert forall j :: 0 <= j < |r| ==> (r + n)[j] == r[j];
    FirstAtIs(r + n, m.target, i);
  }

  /** A mapping to a new target is appended. */
  lemma OverlayAtEnd(root: seq<Mapping>, r: seq<Mapping>, init: seq<Mapping>, m: Mapping)
    requires |r| == |root| && FirstAt(root, m.target) == |root| && Distinct(init + [m])
    requires forall j :: 0 <= j < |root| ==> r[j].target == root[j].target
    ensures Overlay(r + NewOnes(root, init), m) == r + (NewOnes(root, init) + [m])
  {
    var n := NewOnes(root, init);
    NewOnesAreNew(root, init);
    forall j | 0 <= j < |r + n| ensures (r + n)[j].target != m.target {
      if j >= |r| {
        assert n[j - |r|] in init;
        var k :| 0 <= k < |init| && init[k] == n[j - |r|];
        assert (init + [m])[k] == init[k] && (init + [m])[|init|] == m;
      }
    }
    FirstAtIs(r + n, m.target, |r + n|);
  }

  lemma OnlyAt(root: seq<Mapping>, i: nat, j: nat)
    requires Distinct(root) && i < |root| && j < |root| && root[i].target == root[j].target
    ensures i == j
  {
  }

  /** Exchanging what has the target is exchanging at most one mapping. */
  lemma ExchangedIs(root: seq<Mapping>, r: seq<Mapping>, r': seq<Mapping>, m: Mapping)
    requires Distinct(root) && |r| == |root| && |r'| == |root|
    requires forall j :: 0 <= j < |root| ==> r'[j] == if root[j].target == m.target then m else r[j]
    ensures r' == var i := FirstAt(root, m.target); if i < |root| then r[i := m] else r
  {
    var i := FirstAt(root, m.target);
    if i < |root| {
      forall j | 0 <= j < |root| ensures r'[j] == r[i := m][j] {
        if root[j].target == m.target { OnlyAt(root, i, j); }
      }
    } else {
      forall j | 0 <= j < |root| ensures r'[j] == r[j] {}
    }
  }

  lemma OverlayShape(root: seq<Mapping>, init: seq<Mapping>, m: Mapping)
    requires Distinct(root) && Distinct(init + [m])
    ensures Overlay(Replaced(root, init) + NewOnes(root, init), m) == Replaced(root, init + [m]) + NewOnes(root, init + [m])
  {
    ReplacedSnoc(root, init, m);
    ExchangedIs(root, Replaced(root, init), Replaced(root, init + [m]), m);
    NewOnesSnoc(root, init, m);
    ReplacedTargets(root, init);
    if FirstAt(root, m.target) < |root| {
      OverlayInPlace(root, Replaced(root, init), NewOnes(root, init), m, FirstAt(root, m.target));
    } else {
      OverlayAtEnd(root, Replaced(root, init), init, m);
    }
  }

  lemma ReplacedTargets(root: seq<Mapping>, endpoint: seq<Mapping>)
    ensures forall j :: 0 <= j < |root| ==> Replaced(root, endpoint)[j].target == root[j].target
  {
  }

  /** What merging makes of lists without duplicates: the root's order, with the endpoint's mapping in
      place wherever it has one for the target, then the endpoint's new targets in its order. */
  lemma {:induction false} MergedShape(root: seq<Mapping>, endpoint: seq<Mapping>)
    requires Distinct(root) && Distinct(endpoint)
    ensures Merged(root, endpoint) == Replaced(root, endpoint) + NewOnes(root, endpoint)
  {
    if endpoint == [] {
      assert Replaced(root, []) == root;
    } else {
      var init, m := endpoint[..|endpoint| - 1], endpoint[|endpoint| - 1];
      assert endpoint == init + [m];
      MergedShape(root, init);
      OverlayShape(root, init, m);
    }
  }

  /** The same said of the elements: the root's targets keep their places, and those the endpoint has no
      mapping for keep their mappings. */
  lemma MergedKeepsRoot(root: seq<Mapping>, endpoint: seq<Mapping>, j: nat)
    requires Distinct(root) && Distinct(endpoint) && j < |root|
    ensures var r := Merged(root, endpoint);
            && j < |r| && r[j].target == root[j].target
            && ((forall i :: 0 <= i < |endpoint| ==> endpoint[i].target != root[j].target) ==> r[j] == root[j])
  {
    MergedShape(root, endpoint);
    assert Merged(root, endpoint)[j] == Replaced(root, endpoint)[j];
  }

  /** What comes after is the endpoint's mappings to new targets; and no mapping of the endpoint is lost. */
  lemma MergedHasEndpoint(root: seq<Mapping>, endpoint: seq<Mapping>)
    requires Distinct(root) && Distinct(endpoint)
    ensures var r := Merged(root, endpoint);
            && |r| >= |root|
            && (forall i :: 0 <= i < |endpoint| ==> endpoint[i] in r)
            && (forall j :: |root| <= j < |r| ==> r[j] in endpoint && !Earlier(root, |root|, r[j].target))
  {
    MergedShape(root, endpoint);
    NewOnesAreNew(root, endpoint);
    var r := Merged(root, endpoint);
    forall i | 0 <= i < |endpoint| ensures endpoint[i] in r { EndpointIsMerged(root, endpoint, i); }
    forall j | |root| <= j < |r| ensures r[j] in endpoint && !Earlier(root, |root|, r[j].target) {
      assert r[j] == NewOnes(root, endpoint)[j - |root|];
      assert FirstAt(root, r[j].target) == |root|;
    }
  }

  /** They keep the endpoint's order. */
  lemma MergedNewInOrder(root: seq<Mapping>, endpoint: seq<Mapping>, j: nat, k: nat, a: nat, b: nat)
    requires Distinct(root) && Distinct(endpoint) && |root| <= j < k < |Merged(root, endpoint)|
    requires a < |endpoint| && b < |endpoint|
    requires Merged(root, endpoint)[j] == endpoint[a] && Merged(root, endpoint)[k] == endpoint[b]
    ensures a < b
  {
    MergedShape(root, endpoint);
    NewOnesInOrder(root, endpoint, j - |root|, k - |root|, a, b);
  }

  lemma {:induction false} NewOnesInOrder(root: seq<Mapping>, endpoint: seq<Mapping>, j: nat, k: nat, a: nat, b: nat)
    requires Distinct(endpoint) && j < k < |NewOnes(root, endpoint)| && a < |endpoint| && b < |endpoint|
    requires NewOnes(root, endpoint)[j] == endpoint[a] && NewOnes(root, endpoint)[k] == endpoint[b]
    ensures a < b
  {
    var init := endpoint[..|endpoint| - 1];
    InInit(root, endpoint, j, a);
    if k < |NewOnes(root, init)| {
      InInit(root, endpoint, k, b);
      NewOnesInOrder(root, init, j, k, a, b);
    }
  }

  lemma InInit(root: seq<Mapping>, endpoint: seq<Mapping>, j: nat, a: nat)
    requires Distinct(endpoint) && endpoint != [] && a < |endpoint|
    requires j < |NewOnes(root, endpoint[..|endpoint| - 1])| && NewOnes(root, endpoint)[j] == endpoint[a]
    ensures a < |endpoint| - 1
  {
    var init := endpoint[..|endpoint| - 1];
    NewOnesAreNew(root, init);
    assert NewOnes(root, endpoint)[j] == NewOnes(root, init)[j];
    var k :| 0 <= k < |init| && init[k] == endpoint[a];
    assert endpoint[k] == endpoint[a];
  }

  lemma {:induction false} EndpointIsMerged(root: seq<Mapping>, endpoint: seq<Mapping>, i: nat)
    requires Distinct(endpoint) && i < |endpoint|
    ensures endpoint[i] in Merged(root, endpoint)
  {
    var init, m := endpoint[..|endpoint| - 1], endpoint[|endpoint| - 1];
    var before := Merged(root, init);
    if i < |init| {
      EndpointIsMerged(root, init, i);
      var k :| 0 <= k < |before| && before[k] == init[i];
      assert Overlay(before, m)[k] == before[k];
    } else {
      assert Overlay(before, m)[FirstAt(before, m.target)] == m;
    }
  }

  lemma {:induction false} MergedValid<P(!new), V(!new)>(e: Engine<P, V>, root: seq<Mapping>, endpoint: seq<Mapping>)
    requires ValidList(e, root) && forall i :: 0 <= i < |endpoint| ==> Sound(e, endpoint[i])
    ensures ValidList(e, Merged(root, endpoint))
  {
    if endpoint != [] {
      MergedValid(e, root, endpoint[..|endpoint| - 1]);
    }
  }

  /** In the merged list every target has the mapping that is to apply to it, and no other target occurs. */
  lemma {:induction false} MergedChooses(root: seq<Mapping>, endpoint: seq<Mapping>, t: string)
    requires Distinct(endpoint)
    ensures var r := Merged(root, endpoint);
            Chosen(root, endpoint, t) == if FirstAt(r, t) < |r| then Some(r[FirstAt(r, t)]) else None
  {
    if endpoint != [] {
      var init, m := endpoint[..|endpoint| - 1], endpoint[|endpoint| - 1];
      assert endpoint == init + [m];
      MergedChooses(root, init, t);
      FirstAtSnoc(init, m, t);
      assert forall j :: 0 <= j < |init| ==> init[j] == endpoint[j];
      OverlayChooses(Merged(root, init), m, t);
    }
  }

  lemma OverlayChooses(ms: seq<Mapping>, m: Mapping, t: string)
    ensures var r := Overlay(ms, m);
            (if FirstAt(r, t) < |r| then Some(r[FirstAt(r, t)]) else None) ==
            if m.target == t then Some(m) else if FirstAt(ms, t) < |ms| then Some(ms[FirstAt(ms, t)]) else None
  {
    var i, r := FirstAt(ms, m.target), Overlay(ms, m);
    if i < |ms| {
      assert forall j :: 0 <= j < |ms| ==> r[j].target == ms[j].target;
      assert FirstAt(r, t) == FirstAt(ms, t);
    } else {
      FirstAtSnoc(ms, m, t);
    }
  }

  // ---------------------------------------------------------------- evaluation

  /** What one mapping contributes. */
  datatype Outcome = Skip | Bind(value: Value) | Fail(error: MapError)

  function OutcomeOf<P(!new), V(!new)>(e: Engine<P, V>, m: Mapping): Outcome {
    match e.compile(m.source)
    case Err(message) => if m.optional then Skip else Fail(Compile(m.source, message))
    case Ok(program) =>
      match e.execute(program)
      case Err(message) => if m.optional then Skip else Fail(Evaluate(m.source, m.target, message))
      case Ok(value) =>
        if m.optional && e.isNull(value) then Skip else
        match e.json(value)
        case Err(message) => Fail(Convert(m.source, m.target, message))
        case Ok(json) => Bind(json)
  }

  /** The error is the mapping's own: it names the stage that failed and what that said. A mapping that is
      optional may fail to compile or to execute, but not to convert. */
  predicate Offends<P(!new), V(!new)>(e: Engine<P, V>, m: Mapping, error: MapError) {
    var program := e.compile(m.source);
    match error
    case Compile(source, message) => source == m.source && !m.optional && program == Err(message)
    case Evaluate(source, claim, message) =>
      && source == m.source && claim == m.target && !m.optional
      && program.Ok? && e.execute(program.value) == Err(message)
    case Convert(source, claim, message) =>
      && source == m.source && claim == m.target
      && program.Ok? && e.execute(program.value).Ok?
      && var value := e.execute(program.value).value;
         !(m.optional && e.isNull(value)) && e.json(value) == Err(message)
  }

  lemma FailsIffOffends<P(!new), V(!new)>(e: Engine<P, V>, m: Mapping, error: MapError)
    ensures OutcomeOf(e, m) == Fail(error) <==> Offends(e, m, error)
  {
  }

  /** The claims of a list, evaluated in order without any cache. */
  function Claims<P(!new), V(!new)>(e: Engine<P, V>, ms: seq<Mapping>): Result<map<string, Value>, MapError> {
    if ms == [] then Ok(map[]) else
    match Claims(e, ms[..|ms| - 1])
    case Err(error) => Err(error)
    case Ok(claims) =>
      match OutcomeOf(e, ms[|ms| - 1])
      case Skip => Ok(claims)
      case Bind(value) => Ok(claims[ms[|ms| - 1].target := value])
      case Fail(error) => Err(error)
  }

  class CelClaimMapper<P(!new), V(!new)> {
    const compile: string -> Result<P, string>
    var programs: map<string, P>

    /** The cache holds nothing but compiled programs, and not too many. */
    ghost predicate Valid()
      reads this
    {
      |programs| <= PROGRAM_CACHE_CAPACITY && forall x :: x in programs ==> compile(x) == Ok(programs[x])
    }

    constructor (compile: string -> Result<P, string>)
      ensures Valid() && this.compile == compile && programs == map[]
    {
      this.compile := compile;
      programs := map[];
    }

    /** The cache never shows: the answer is what compiling gives. */
    method ProgramFor(expression: string) returns (r: Result<P, string>)
      requires Valid()
      modifies this
      ensures Valid() && r == compile(expression)
      ensures programs == old(programs) || programs.Keys == old(programs).Keys + {expression}
    {
      if expression in programs {
        return Ok(programs[expression]);
      }
      r := compile(expression);
      if r.Ok? && |programs| < PROGRAM_CACHE_CAPACITY {
        programs := programs[expression := r.value];
      }
    }

    /** `engine` is this mapper's, with the flow as its evaluation context. */
    method MapClaims(engine: Engine<P, V>, mappings: seq<Mapping>) returns (r: Result<map<string, Value>, MapError>)
      requires Valid() && engine.compile == compile
      modifies this
      ensures Valid() && r == Claims(engine, mappings)
      ensures r.Err? ==> exists i :: 0 <= i < |mappings| && Offends(engine, mappings[i], r.error)
                                     && forall j :: 0 <= j < i ==> forall x :: !Offends(engine, mappings[j], x)
      ensures r.Ok? ==> forall i :: 0 <= i < |mappings| ==> forall x :: !Offends(engine, mappings[i], x)
      ensures r.Ok? ==> forall t :: t in r.value ==> exists i :: 0 <= i < |mappings| && mappings[i].target == t
      ensures r.Ok? && Distinct(mappings) ==>
                forall i :: 0 <= i < |mappings| && !mappings[i].optional ==>
                  var m := mappings[i];
                  && engine.compile(m.source).Ok? && engine.execute(engine.compile(m.source).value).Ok?
                  && m.target in r.value
                  && engine.json(engine.execute(engine.compile(m.source).value).value) == Ok(r.value[m.target])
      ensures r.Ok? && Distinct(mappings) ==>
                forall i :: 0 <= i < |mappings| && mappings[i].optional ==>
                  var m := mappings[i];
                  && (m.target !in r.value <==>
                        || engine.compile(m.source).Err? || engine.execute(engine.compile(m.source).value).Err?
                        || engine.isNull(engine.execute(engine.compile(m.source).value).value))
                  && (m.target in r.value ==>
                        engine.json(engine.execute(engine.compile(m.source).value).value) == Ok(r.value[m.target]))
    {
      var claims: map<string, Value> := map[];
      var n := 0;
      while n < |mappings|
        invariant n <= |mappings| && Valid() && Claims(engine, mappings[..n]) == Ok(claims)
      {
        var m := mappings[n];
        assert mappings[..n + 1][..n] == mappings[..n];
        n := n + 1;
        ghost var outcome := OutcomeOf(engine, m);
        var program := ProgramFor(m.source);
        if program.Err? {
          if m.optional { continue; }
          FailureShows(engine, mappings, n);
          return Err(Compile(m.source, program.error));
        }
        var value := engine.execute(program.value);
        if value.Err? {
          if m.optional { continue; }
          FailureShows(engine, mappings, n);
          return Err(Evaluate(m.source, m.target, value.error));
        }
        if m.optional && engine.isNull(value.value) { continue; }
        var json := engine.json(value.value);
        if json.Err? {
          FailureShows(engine, mappings, n);
          return Err(Convert(m.source, m.target, json.error));
        }
        claims := claims[m.target := json.value];
      }
      assert mappings[..n] == mappings;
      MappedClaims(engine, mappings);
      r := Ok(claims);
    }
  }

  lemma {:induction false} FailureStays<P(!new), V(!new)>(e: Engine<P, V>, ms: seq<Mapping>, n: nat)
    requires n <= |ms| && Claims(e, ms[..n]).Err?
    ensures Claims(e, ms) == Claims(e, ms[..n])
    decreases |ms| - n
  {
    if n < |ms| {
      assert ms[..n + 1][..n] == ms[..n];
      FailureStays(e, ms, n + 1);
    } else {
      assert ms[..n] == ms;
    }
  }

  lemma FailureShows<P(!new), V(!new)>(e: Engine<P, V>, ms: seq<Mapping>, n: nat)
    requires n <= |ms| && Claims(e, ms[..n]).Err?
    ensures Claims(e, ms) == Claims(e, ms[..n])
    ensures exists i :: 0 <= i < |ms| && Offends(e, ms[i], Claims(e, ms).error)
                        && forall j :: 0 <= j < i ==> forall x :: !Offends(e, ms[j], x)
  {
    FailureStays(e, ms, n);
    MappedClaims(e, ms);
  }

  /** The first mapping that offends, and how. */
  ghost predicate FirstFailure<P(!new), V(!new)>(e: Engine<P, V>, ms: seq<Mapping>, i: nat, error: MapError) {
    i < |ms| && Offends(e, ms[i], error) && forall j, x :: 0 <= j < i ==> !Offends(e, ms[j], x)
  }

  /** Evaluation fails exactly when some mapping does, with the error of the first. */
  lemma {:induction false} FailsWithFirst<P(!new), V(!new)>(e: Engine<P, V>, ms: seq<Mapping>)
    ensures Claims(e, ms).Err? ==> exists i :: FirstFailure(e, ms, i, Claims(e, ms).error)
    ensures Claims(e, ms).Ok? ==> forall i, x :: 0 <= i < |ms| ==> !Offends(e, ms[i], x)
  {
    if ms != [] {
      var init, m := ms[..|ms| - 1], ms[|ms| - 1];
      FailsWithFirst(e, init);
      assert forall i :: 0 <= i < |init| ==> ms[i] == init[i];
      if Claims(e, init).Err? {
        var i :| FirstFailure(e, init, i, Claims(e, init).error);
        assert FirstFailure(e, ms, i, Claims(e, init).error);
      } else if OutcomeOf(e, m).Fail? {
        FailsIffOffends(e, m, OutcomeOf(e, m).error);
        assert FirstFailure(e, ms, |init|, OutcomeOf(e, m).error);
      } else {
        forall x ensures !Offends(e, m, x) { FailsIffOffends(e, m, x); }
      }
    }
  }

  /** What the claims have for a mapping's target: for a required one the value its expression has; for an
      optional one the same, and nothing exactly when it has no value or null. */
  predicate Contributes<P(!new), V(!new)>(e: Engine<P, V>, m: Mapping, claims: map<string, Value>) {
    && (m.target !in claims <==>
          && m.optional
          && (|| e.compile(m.source).Err? || e.execute(e.compile(m.source).value).Err?
              || e.isNull(e.execute(e.compile(m.source).value).value)))
    && (m.target in claims ==>
          && e.compile(m.source).Ok? && e.execute(e.compile(m.source).value).Ok?
          && e.json(e.execute(e.compile(m.source).value).value) == Ok(claims[m.target]))
  }

  /** Without duplicates the claims are exactly what each mapping contributes. */
  lemma {:induction false} ClaimsAre<P(!new), V(!new)>(e: Engine<P, V>, ms: seq<Mapping>)
    requires Distinct(ms) && Claims(e, ms).Ok?
    ensures forall i :: 0 <= i < |ms| ==> Contributes(e, ms[i], Claims(e, ms).value)
  {
    if ms != [] {
      var init, m := ms[..|ms| - 1], ms[|ms| - 1];
      ClaimsAre(e, init);
      assert forall i :: 0 <= i < |init| ==> ms[i] == init[i];
      forall i | 0 <= i < |init| ensures Contributes(e, ms[i], Claims(e, ms).value) {
        assert Contributes(e, init[i], Claims(e, init).value) && init[i].target != m.target;
      }
      ClaimsAreTargets(e, init);
      assert m.target !in Claims(e, init).value;
    }
  }

  /** No claim is bound that no mapping names. */
  lemma {:induction false} ClaimsAreTargets<P(!new), V(!new)>(e: Engine<P, V>, ms: seq<Mapping>)
    requires Claims(e, ms).Ok?
    ensures forall t :: t in Claims(e, ms).value ==> exists i :: 0 <= i < |ms| && ms[i].target == t
  {
    if ms != [] {
      var init, m := ms[..|ms| - 1], ms[|ms| - 1];
      ClaimsAreTargets(e, init);
      forall t | t in Claims(e, ms).value ensures exists i :: 0 <= i < |ms| && ms[i].target == t {
        if t in Claims(e, init).value {
          var i :| 0 <= i < |init| && init[i].target == t;
          assert ms[i].target == t;
        } else {
          assert ms[|ms| - 1].target == t;
        }
      }
    }
  }

  lemma MappedClaims<P(!new), V(!new)>(e: Engine<P, V>, ms: seq<Mapping>)
    ensures Claims(e, ms).Err? ==> exists i :: 0 <= i < |ms| && Offends(e, ms[i], Claims(e, ms).error)
                                               && forall j :: 0 <= j < i ==> forall x :: !Offends(e, ms[j], x)
    ensures Claims(e, ms).Ok? ==>
              && (forall i :: 0 <= i < |ms| ==> forall x :: !Offends(e, ms[i], x))
              && (forall t :: t in Claims(e, ms).value ==> exists i :: 0 <= i < |ms| && ms[i].target == t)
              && (Distinct(ms) ==> forall i :: 0 <= i < |ms| ==> Contributes(e, ms[i], Claims(e, ms).value))
  {
    FailsWithFirst(e, ms);
    if Claims(e, ms).Ok? {
      ClaimsAreTargets(e, ms);
      if Distinct(ms) { ClaimsAre(e, ms); }
    } else {
      var i :| FirstFailure(e, ms, i, Claims(e, ms).error);
    }
  }

  // ---------------------------------------------------------------- the claims of a token

  const FLOW_CLAIMS: set<string> := {"agreementId", "participantId", "counterPartyId", "datasetId"}

  /** For lists that pass validation: evaluating the merged list gives every target the value of the
      mapping that is to apply to it, never fails to compile, and together with the flow's own claims
      never yields a claim that issuing a token refuses. */
  lemma MergedClaimsAreAllowed<P(!new), V(!new)>(e: Engine<P, V>, root: seq<Mapping>, endpoint: seq<Mapping>,
                                                 flow: TokenTypes.Claims, t: string)
    requires ValidList(e, root) && ValidList(e, endpoint) && flow.Keys <= FLOW_CLAIMS
    ensures var r := Claims(e, Merged(root, endpoint));
            && (r.Ok? ==>
                  && TokenManager.AllowedClaims(flow + r.value)
                  && match Chosen(root, endpoint, t)
                     case None => t !in r.value
                     case Some(m) => m.target == t && Contributes(e, m, r.value))
            && (r.Err? ==> && !r.error.Compile?
                           && exists i :: FirstFailure(e, Merged(root, endpoint), i, r.error))
  {
    var ms := Merged(root, endpoint);
    var r := Claims(e, ms);
    MergedValid(e, root, endpoint);
    FailsWithFirst(e, ms);
    MergedChooses(root, endpoint, t);
    if r.Ok? {
      ClaimsAre(e, ms);
      ClaimsAreTargets(e, ms);
      forall name | name in flow + r.value ensures !TokenManager.Reserved(name) {
        if name in r.value {
          var i :| 0 <= i < |ms| && ms[i].target == name;
          assert Sound(e, ms[i]);
        } else {
          FlowClaimsAllowed(name);
        }
      }
    }
  }

  lemma FlowClaimsAllowed(name: string)
    requires name in FLOW_CLAIMS
    ensures !TokenManager.Reserved(name)
  {
    assert |name| > 3;
    assert forall i :: 0 <= i < |TokenManager.RESERVED_CLAIMS| ==> |TokenManager.RESERVED_CLAIMS[i]| == 3;
  }
}
