/**
 Transit signing keys: the client's listing of a key's versions, the resolver's cache of public keys by
 `kid`, and the `kid` the generator puts into a token. The resolver numbers the listed keys from one,
 the generator names a version; the two agree exactly when the listing holds every version.
 */
module TransitKeys {
  import opened Wrappers
  import opened Decimal

  datatype KeyMetadata = KeyMetadata(keyName: string, keys: seq<string>, currentVersion: nat)

  predicate Sorted(vs: seq<nat>) { forall i, j :: 0 <= i < j < |vs| ==> vs[i] <= vs[j] }

  /** How often a version is named among the given map keys. */
  function Naming(names: set<string>, v: nat): set<string> { set k | k in names && ParseUsize(k) == Some(v) }

  /** The versions parsed from the names, each as often as it is named. */
  ghost predicate ParsedFrom(vs: seq<nat>, names: set<string>) { forall v: nat :: multiset(vs)[v] == |Naming(names, v)| }

  /** The public keys listed for `vs`, in order, converted; versions the map does not hold under their own
      decimal name are skipped, and the first failing conversion ends it. */
  function Listed(keys: map<string, string>, vs: seq<nat>, convert: string -> Result<string, string>)
    : Result<seq<string>, string>
  {
    if vs == [] then Ok([]) else
    match Listed(keys, vs[..|vs| - 1], convert)
    case Err(e) => Err(e)
    case Ok(before) =>
      var name := PrintNat(vs[|vs| - 1]);
      if name !in keys then Ok(before) else
      match convert(keys[name]) case Err(e) => Err(e) case Ok(key) => Ok(before + [key])
  }

  lemma NamingOneMore(names: set<string>, k: string, v: nat)
    requires k !in names
    ensures |Naming(names + {k}, v)| == |Naming(names, v)| + if ParseUsize(k) == Some(v) then 1 else 0
  {
    assert Naming(names + {k}, v) == Naming(names, v) + if ParseUsize(k) == Some(v) then {k} else {};
  }

  lemma ParsedOneMore(vs: seq<nat>, names: set<string>, k: string)
    requires k !in names && ParsedFrom(vs, names)
    ensures ParsedFrom(if ParseUsize(k).Some? then vs + [ParseUsize(k).value] else vs, names + {k})
  {
    forall v: nat { NamingOneMore(names, k, v); }
  }

  method ParseVersions(names: set<string>) returns (vs: seq<nat>)
    ensures ParsedFrom(vs, names)
  {
    vs := [];
    var todo := names;
    while todo != {}
      invariant todo <= names && ParsedFrom(vs, names - todo)
      decreases todo
    {
      var k :| k in todo;
      var parsed := ParseUsize(k);
      ParsedOneMore(vs, names - todo, k);
      assert names - (todo - {k}) == (names - todo) + {k};
      todo := todo - {k};
      if parsed.Some? {
        vs := vs + [parsed.value];
      }
    }
    assert names - todo == names;
  }

  lemma InsertedSorted(r: seq<nat>, i: nat, v: nat)
    requires Sorted(r) && i <= |r| && (forall k :: 0 <= k < i ==> r[k] <= v) && (i < |r| ==> v <= r[i])
    ensures var s := r[..i] + [v] + r[i..];
            Sorted(s) && multiset(s) == multiset(r) + multiset{v}
  {
    assert r == r[..i] + r[i..];
    assert multiset(r) == multiset(r[..i]) + multiset(r[i..]);
  }

  /** `sort_unstable`, by insertion. */
  method Sort(vs: seq<nat>) returns (r: seq<nat>)
    ensures Sorted(r) && multiset(r) == multiset(vs)
  {
    r := [];
    var n := 0;
    while n < |vs|
      invariant n <= |vs| && Sorted(r) && multiset(r) == multiset(vs[..n])
    {
      var i := 0;
      while i < |r| && r[i] <= vs[n]
        invariant i <= |r| && forall k :: 0 <= k < i ==> r[k] <= vs[n]
      {
        i := i + 1;
      }
      assert vs[..n + 1] == vs[..n] + [vs[n]];
      InsertedSorted(r, i, vs[n]);
      r := r[..i] + [vs[n]] + r[i..];
      n := n + 1;
    }
    assert vs[..n] == vs;
  }

  method GetKeyMetadata(keyName: string, keys: map<string, string>, latestVersion: nat, convert: string -> Result<string, string>)
    returns (r: Result<KeyMetadata, string>)
    ensures exists vs :: Sorted(vs) && ParsedFrom(vs, keys.Keys) &&
              r == match Listed(keys, vs, convert)
                   case Ok(listed) => Ok(KeyMetadata(keyName, listed, latestVersion))
                   case Err(e) => Err(e)
  {
    var parsed := ParseVersions(keys.Keys);
    var vs := Sort(parsed);
    assert Sorted(vs) && ParsedFrom(vs, keys.Keys);
    var listed := [];
    var i := 0;
    while i < |vs|
      invariant i <= |vs| && Listed(keys, vs[..i], convert) == Ok(listed)
    {
      assert vs[..i + 1][..i] == vs[..i];
      var name := PrintNat(vs[i]);
      if name in keys {
        var key := convert(keys[name]);
        if key.Err? {
          ListedFails(keys, vs, i + 1, convert);
          return Err(key.error);
        }
        listed := listed + [key.value];
      }
      i := i + 1;
    }
    assert vs[..i] == vs;
    r := Ok(KeyMetadata(keyName, listed, latestVersion));
  }

  lemma {:induction false} ListedFails(keys: map<string, string>, vs: seq<nat>, i: nat, convert: string -> Result<string, string>)
    requires i <= |vs| && Listed(keys, vs[..i], convert).Err?
    ensures Listed(keys, vs, convert) == Listed(keys, vs[..i], convert)
    decreases |vs| - i
  {
    if i < |vs| {
      assert vs[..i + 1][..i] == vs[..i];
      ListedFails(keys, vs, i + 1, convert);
    } else {
      assert vs[..i] == vs;
    }
  }

  /** Listing succeeds exactly when every key the map holds for a version converts, and else fails as the first
      one does that does not. */
  lemma {:induction false} ListedFailsWithFirst(keys: map<string, string>, vs: seq<nat>, convert: string -> Result<string, string>)
    ensures Listed(keys, vs, convert).Ok? <==>
            forall i :: 0 <= i < |vs| && PrintNat(vs[i]) in keys ==> convert(keys[PrintNat(vs[i])]).Ok?
    ensures Listed(keys, vs, convert).Err? ==>
              exists i :: && 0 <= i < |vs| && PrintNat(vs[i]) in keys
                          && convert(keys[PrintNat(vs[i])]) == Err(Listed(keys, vs, convert).error)
                          && forall j :: 0 <= j < i && PrintNat(vs[j]) in keys ==> convert(keys[PrintNat(vs[j])]).Ok?
  {
    if vs != [] {
      var init := vs[..|vs| - 1];
      ListedFailsWithFirst(keys, init, convert);
      assert forall i :: 0 <= i < |init| ==> init[i] == vs[i];
    }
  }

  // ---------------------------------------------------------------- the numbering

  /** Vault's map of a key's versions: decimal names of versions from one to the latest. Old versions may
      have been trimmed. */
  ghost predicate OfVersions(keys: map<string, string>, latest: nat) {
    latest <= USIZE_MAX && forall k :: k in keys ==> NamesVersion(k, latest)
  }

  /** None has been: there are as many as the latest. */
  ghost predicate Complete(keys: map<string, string>, latest: nat) { OfVersions(keys, latest) && |keys.Keys| == latest }

  ghost predicate NamesVersion(k: string, latest: nat) { exists v :: 1 <= v <= latest && k == PrintNat(v) }

  /** The map holds this key for the version. */
  predicate Holds(keys: map<string, string>, v: nat, key: string) { PrintNat(v) in keys && keys[PrintNat(v)] == key }

  /** This is the converted key of the version. */
  predicate ListedFor(keys: map<string, string>, v: nat, convert: string -> Result<string, string>, key: string) {
    PrintNat(v) in keys && convert(keys[PrintNat(v)]) == Ok(key)
  }

  predicate Numbered(keys: map<string, string>, vs: seq<nat>) {
    forall i :: 0 <= i < |vs| ==> vs[i] == i + 1 && PrintNat(vs[i]) in keys
  }

  predicate Increasing(vs: seq<nat>) { forall i, j :: 0 <= i < j < |vs| ==> vs[i] < vs[j] }

  lemma {:induction false} AtLeastIndex(vs: seq<nat>, i: nat)
    requires Increasing(vs) && i < |vs| && vs[0] >= 1
    ensures vs[i] >= i + 1
  {
    if i > 0 { AtLeastIndex(vs, i - 1); }
  }

  lemma {:induction false} AtMostRest(vs: seq<nat>, i: nat)
    requires Increasing(vs) && i < |vs|
    ensures vs[i] + (|vs| - 1 - i) <= vs[|vs| - 1]
    decreases |vs| - i
  {
    if i < |vs| - 1 { AtMostRest(vs, i + 1); }
  }

  /** Increasing versions from one on are numbered by their positions exactly when the last one is as large
      as they are many. */
  lemma NumberedIff(vs: seq<nat>)
    requires Increasing(vs) && vs != [] && vs[0] >= 1
    ensures (forall i :: 0 <= i < |vs| ==> vs[i] == i + 1) <==> vs[|vs| - 1] == |vs|
  {
    if vs[|vs| - 1] == |vs| {
      forall i | 0 <= i < |vs| ensures vs[i] == i + 1 {
        AtLeastIndex(vs, i);
        AtMostRest(vs, i);
      }
    }
  }

  /** The decimal names of the versions. */
  function Names(vs: seq<nat>): set<string> { set i | 0 <= i < |vs| :: PrintNat(vs[i]) }

  lemma {:induction false} NamesSnoc(init: seq<nat>, last: nat)
    ensures Names(init + [last]) == Names(init) + {PrintNat(last)}
  {
    var vs := init + [last];
    forall n | n in Names(init) + {PrintNat(last)} ensures n in Names(vs) {
      if n in Names(init) {
        var i :| 0 <= i < |init| && n == PrintNat(init[i]);
        assert vs[i] == init[i];
      } else {
        assert vs[|init|] == last;
      }
    }
  }

  lemma {:induction false} NamesAreAsMany(vs: seq<nat>)
    requires Increasing(vs)
    ensures |Names(vs)| == |vs|
  {
    if vs != [] {
      var init, last := vs[..|vs| - 1], vs[|vs| - 1];
      NamesAreAsMany(init);
      assert vs == init + [last];
      NamesSnoc(init, last);
      forall i | 0 <= i < |init| ensures PrintNat(init[i]) != PrintNat(last) {
        PrintInjective(init[i], last);
      }
      assert PrintNat(last) !in Names(init);
    }
  }

  lemma NamedOnce(keys: map<string, string>, latest: nat, v: nat)
    requires OfVersions(keys, latest)
    ensures Naming(keys.Keys, v) == if PrintNat(v) in keys && v <= USIZE_MAX then {PrintNat(v)} else {}
    ensures PrintNat(v) in keys ==> 1 <= v <= latest
  {
    forall k | k in keys ensures ParseUsize(k) == Some(v) ==> k == PrintNat(v) {
      var w :| 1 <= w <= latest && k == PrintNat(w);
      ParsePrintUsize(w);
    }
    if v <= USIZE_MAX { ParsePrintUsize(v); }
    if PrintNat(v) in keys {
      var w :| 1 <= w <= latest && PrintNat(v) == PrintNat(w);
      PrintInjective(v, w);
    }
  }

  lemma InVs(vs: seq<nat>, i: nat)
    requires i < |vs|
    ensures multiset(vs)[vs[i]] >= 1
  {
    assert vs[i] in multiset(vs);
  }

  /** The versions are those in the map. */
  predicate Held(keys: map<string, string>, vs: seq<nat>) { forall i :: 0 <= i < |vs| ==> PrintNat(vs[i]) in keys }

  predicate Between(vs: seq<nat>, latest: nat) { forall i :: 0 <= i < |vs| ==> 1 <= vs[i] <= latest }

  lemma ParsedHeld(keys: map<string, string>, latest: nat, vs: seq<nat>)
    requires OfVersions(keys, latest) && ParsedFrom(vs, keys.Keys)
    ensures Held(keys, vs) && Between(vs, latest)
  {
    forall i | 0 <= i < |vs| ensures 1 <= vs[i] <= latest && PrintNat(vs[i]) in keys {
      InVs(vs, i);
      NamedOnce(keys, latest, vs[i]);
    }
  }

  lemma ParsedOnce(keys: map<string, string>, latest: nat, vs: seq<nat>)
    requires OfVersions(keys, latest) && Sorted(vs) && ParsedFrom(vs, keys.Keys)
    ensures Increasing(vs)
  {
    forall i, j | 0 <= i < j < |vs| ensures vs[i] < vs[j] {
      if vs[i] == vs[j] {
        TwiceInMultiset(vs, i, j);
        NamedOnce(keys, latest, vs[i]);
      }
    }
  }

  lemma TwiceInMultiset(vs: seq<nat>, i: nat, j: nat)
    requires i < j < |vs| && vs[i] == vs[j]
    ensures multiset(vs)[vs[i]] >= 2
  {
    assert vs == vs[..i + 1] + vs[i + 1..];
    assert vs[i] == vs[..i + 1][i] && vs[j] == vs[i + 1..][j - i - 1];
    assert vs[i] in multiset(vs[..i + 1]) && vs[j] in multiset(vs[i + 1..]);
    assert multiset(vs) == multiset(vs[..i + 1]) + multiset(vs[i + 1..]);
  }

  lemma NamesAreKeys(keys: map<string, string>, latest: nat, vs: seq<nat>)
    requires OfVersions(keys, latest) && ParsedFrom(vs, keys.Keys) && Held(keys, vs)
    ensures Names(vs) == keys.Keys
  {
    forall k | k in keys ensures k in Names(vs) {
      var v :| 1 <= v <= latest && k == PrintNat(v);
      NamedOnce(keys, latest, v);
      assert multiset(vs)[v] == 1;
      var i :| 0 <= i < |vs| && vs[i] == v;
    }
  }

  /** The parsed and sorted versions of a map: each held version once, in increasing order. */
  lemma ParsedIs(keys: map<string, string>, latest: nat, vs: seq<nat>)
    requires OfVersions(keys, latest) && Sorted(vs) && ParsedFrom(vs, keys.Keys)
    ensures Held(keys, vs) && Between(vs, latest) && Increasing(vs)
    ensures Names(vs) == keys.Keys && |vs| == |keys.Keys| <= latest
  {
    ParsedHeld(keys, latest, vs);
    ParsedOnce(keys, latest, vs);
    NamesAreKeys(keys, latest, vs);
    NamesAreAsMany(vs);
    if vs != [] { AtLeastIndex(vs, |vs| - 1); }
  }

  /** Pigeonhole: of a complete map the i-th parsed and sorted version is i + 1. */
  lemma CompleteIsNumbered(keys: map<string, string>, latest: nat, vs: seq<nat>)
    requires Complete(keys, latest) && Sorted(vs) && ParsedFrom(vs, keys.Keys)
    ensures |vs| == latest && Numbered(keys, vs)
  {
    ParsedIs(keys, latest, vs);
    FullIsNumbered(vs);
  }

  /** As many increasing versions from one on as the bound they keep to. */
  lemma FullIsNumbered(vs: seq<nat>)
    requires Increasing(vs) && Between(vs, |vs|)
    ensures forall i :: 0 <= i < |vs| ==> vs[i] == i + 1
  {
    if vs != [] {
      AtLeastIndex(vs, |vs| - 1);
      NumberedIff(vs);
    }
  }

  /** What a listing is: the i-th key is the converted key of the i-th version. */
  lemma {:induction false} ListedOfHeld(keys: map<string, string>, vs: seq<nat>, convert: string -> Result<string, string>)
    requires Held(keys, vs) && Listed(keys, vs, convert).Ok?
    ensures var l := Listed(keys, vs, convert).value;
            |l| == |vs| && forall i :: 0 <= i < |l| ==> ListedFor(keys, vs[i], convert, l[i])
  {
    if vs != [] {
      ListedOfHeld(keys, vs[..|vs| - 1], convert);
    }
  }

  /** The i-th listed key of a complete map belongs to version i + 1. */
  lemma ListingNamesVersions(keys: map<string, string>, latest: nat, vs: seq<nat>, convert: string -> Result<string, string>)
    requires Complete(keys, latest) && Sorted(vs) && ParsedFrom(vs, keys.Keys) && Listed(keys, vs, convert).Ok?
    ensures var l := Listed(keys, vs, convert).value;
            |l| == latest && forall i :: 0 <= i < |l| ==> ListedFor(keys, i + 1, convert, l[i])
  {
    CompleteIsNumbered(keys, latest, vs);
    ListedOfHeld(keys, vs, convert);
  }

  // ---------------------------------------------------------------- signer and resolver

  function Kid(keyName: string, version: nat): string { keyName + "-" + PrintNat(version) }

  lemma KidInjective(keyName: string, v: nat, w: nat)
    ensures Kid(keyName, v) == Kid(keyName, w) ==> v == w
  {
    if Kid(keyName, v) == Kid(keyName, w) {
      assert (keyName + "-" + PrintNat(v))[|keyName| + 1..] == PrintNat(v);
      assert (keyName + "-" + PrintNat(w))[|keyName| + 1..] == PrintNat(w);
      PrintInjective(v, w);
    }
  }

  /** The version can be read off a `kid`: it is what follows the name and a dash. */
  lemma KidNamesVersion(keyName: string, v: nat)
    requires v <= USIZE_MAX
    ensures var kid := Kid(keyName, v);
            && |kid| > |keyName| && kid[..|keyName|] == keyName && kid[|keyName|] == '-'
            && ParseUsize(kid[|keyName| + 1..]) == Some(v)
  {
    assert Kid(keyName, v)[|keyName| + 1..] == PrintNat(v);
    ParsePrintUsize(v);
  }

  /** The cache after `load_keys` has extended it with the listed keys, numbered from one. */
  function Extended(cache: map<string, string>, keyName: string, listed: seq<string>): map<string, string> {
    if listed == [] then cache else
    Extended(cache, keyName, listed[..|listed| - 1])[Kid(keyName, |listed|) := listed[|listed| - 1]]
  }

  lemma {:induction false} ExtendedHas(cache: map<string, string>, keyName: string, listed: seq<string>)
    ensures var c := Extended(cache, keyName, listed);
            && (forall v :: 1 <= v <= |listed| ==> Kid(keyName, v) in c && c[Kid(keyName, v)] == listed[v - 1])
            && (forall kid :: kid in c && !(kid in cache && c[kid] == cache[kid]) ==>
                  exists v :: 1 <= v <= |listed| && kid == Kid(keyName, v))
            && (forall kid :: kid in cache ==> kid in c)
  {
    if listed != [] {
      ExtendedHas(cache, keyName, listed[..|listed| - 1]);
      forall v | 1 <= v < |listed| ensures Kid(keyName, v) != Kid(keyName, |listed|) {
        KidInjective(keyName, v, |listed|);
      }
    }
  }

  /** Every `kid` that names a version in the map resolves to that version's key. */
  ghost predicate KidsRight(keys: map<string, string>, keyName: string, convert: string -> Result<string, string>,
                            cache: map<string, string>)
  {
    forall v :: PrintNat(v) in keys ==> KidRight(keys, keyName, convert, cache, v)
  }

  predicate KidRight(keys: map<string, string>, keyName: string, convert: string -> Result<string, string>,
                     cache: map<string, string>, v: nat)
  {
    Kid(keyName, v) in cache && ListedFor(keys, v, convert, cache[Kid(keyName, v)])
  }

  /** What `load_keys` makes of a listing: the `kid` of a position resolves to the key of the version at
      that position, whichever that is. */
  lemma KidResolvesToPosition(keys: map<string, string>, latest: nat, vs: seq<nat>, keyName: string,
                              convert: string -> Result<string, string>, i: nat)
    requires OfVersions(keys, latest) && Sorted(vs) && ParsedFrom(vs, keys.Keys) && Listed(keys, vs, convert).Ok?
    requires 1 <= i <= |vs|
    ensures var c := Extended(map[], keyName, Listed(keys, vs, convert).value);
            Kid(keyName, i) in c && ListedFor(keys, vs[i - 1], convert, c[Kid(keyName, i)])
  {
    ParsedHeld(keys, latest, vs);
    ListedOfHeld(keys, vs, convert);
    ExtendedHas(map[], keyName, Listed(keys, vs, convert).value);
  }

  lemma CompleteKidsRight(keys: map<string, string>, latest: nat, vs: seq<nat>, keyName: string,
                          convert: string -> Result<string, string>)
    requires Complete(keys, latest) && Sorted(vs) && ParsedFrom(vs, keys.Keys) && Listed(keys, vs, convert).Ok?
    ensures KidsRight(keys, keyName, convert, Extended(map[], keyName, Listed(keys, vs, convert).value))
  {
    var c := Extended(map[], keyName, Listed(keys, vs, convert).value);
    CompleteIsNumbered(keys, latest, vs);
    forall v: nat | PrintNat(v) in keys ensures KidRight(keys, keyName, convert, c, v) {
      NamedOnce(keys, latest, v);
      KidResolvesToPosition(keys, latest, vs, keyName, convert, v);
      assert vs[v - 1] == v - 1 + 1;
    }
  }

  /** Nothing is loaded for the last version of a trimmed map. */
  lemma TrimmedLacksLatest(keys: map<string, string>, latest: nat, vs: seq<nat>, keyName: string,
                           convert: string -> Result<string, string>)
    requires OfVersions(keys, latest) && |keys.Keys| < latest
    requires Sorted(vs) && ParsedFrom(vs, keys.Keys) && Listed(keys, vs, convert).Ok?
    ensures Kid(keyName, latest) !in Extended(map[], keyName, Listed(keys, vs, convert).value)
  {
    ParsedIs(keys, latest, vs);
    ListedOfHeld(keys, vs, convert);
    ExtendedHas(map[], keyName, Listed(keys, vs, convert).value);
    if Kid(keyName, latest) in Extended(map[], keyName, Listed(keys, vs, convert).value) {
      var v :| 1 <= v <= |vs| && Kid(keyName, latest) == Kid(keyName, v);
      KidInjective(keyName, latest, v);
    }
  }

  /** Exactly when a fresh load resolves every `kid` to the key of the version it names: when no version
      has been trimmed. */
  lemma KidsRightIff(keys: map<string, string>, latest: nat, vs: seq<nat>, keyName: string,
                     convert: string -> Result<string, string>)
    requires OfVersions(keys, latest) && PrintNat(latest) in keys
    requires Sorted(vs) && ParsedFrom(vs, keys.Keys) && Listed(keys, vs, convert).Ok?
    ensures KidsRight(keys, keyName, convert, Extended(map[], keyName, Listed(keys, vs, convert).value)) <==>
            |keys.Keys| == latest
  {
    ParsedIs(keys, latest, vs);
    if |keys.Keys| == latest {
      CompleteKidsRight(keys, latest, vs, keyName, convert);
    } else {
      TrimmedLacksLatest(keys, latest, vs, keyName, convert);
      assert !KidRight(keys, keyName, convert, Extended(map[], keyName, Listed(keys, vs, convert).value), latest);
    }
  }

  /** Such a map: version 1 has been trimmed, and the `kid` of version 2 resolves to the key of version 3. */
  lemma TrimmedKidIsAnothers(two: string, three: string, vs: seq<nat>, keyName: string, convert: string -> Result<string, string>)
    requires var keys := map[PrintNat(2) := two, PrintNat(3) := three];
             Sorted(vs) && ParsedFrom(vs, keys.Keys) && Listed(keys, vs, convert).Ok?
    ensures var c := Extended(map[], keyName, Listed(map[PrintNat(2) := two, PrintNat(3) := three], vs, convert).value);
            Kid(keyName, 2) in c && convert(three) == Ok(c[Kid(keyName, 2)])
  {
    TrimmedToTwo(2, 3, two, three, vs, keyName, convert);
  }

  /** Of two held versions the larger one's key is loaded under 2, whatever the larger one is. */
  lemma TrimmedToTwo(v: nat, w: nat, keyV: string, keyW: string, vs: seq<nat>, keyName: string,
                     convert: string -> Result<string, string>)
    requires 1 <= v < w <= USIZE_MAX
    requires var keys := map[PrintNat(v) := keyV, PrintNat(w) := keyW];
             Sorted(vs) && ParsedFrom(vs, keys.Keys) && Listed(keys, vs, convert).Ok?
    ensures var c := Extended(map[], keyName, Listed(map[PrintNat(v) := keyV, PrintNat(w) := keyW], vs, convert).value);
            Kid(keyName, 2) in c && convert(keyW) == Ok(c[Kid(keyName, 2)])
  {
    var keys := map[PrintNat(v) := keyV, PrintNat(w) := keyW];
    PrintInjective(v, w);
    TwoVersions(keys, v, w, vs);
    KidResolvesToPosition(keys, w, vs, keyName, convert, 2);
  }

  lemma TwoVersions(keys: map<string, string>, v: nat, w: nat, vs: seq<nat>)
    requires 1 <= v < w <= USIZE_MAX && keys.Keys == {PrintNat(v), PrintNat(w)}
    requires Sorted(vs) && ParsedFrom(vs, keys.Keys)
    ensures OfVersions(keys, w) && |vs| == 2 && vs[1] == w
  {
    assert NamesVersion(PrintNat(v), w) && NamesVersion(PrintNat(w), w);
    PrintInjective(v, w);
    ParsedIs(keys, w, vs);
    TwoOfTwo(v, w, vs);
  }

  lemma TwoOfTwo(v: nat, w: nat, vs: seq<nat>)
    requires v < w && Increasing(vs) && |vs| == 2
    requires forall i :: 0 <= i < |vs| ==> PrintNat(vs[i]) in {PrintNat(v), PrintNat(w)}
    ensures vs[1] == w
  {
    forall i | 0 <= i < |vs| ensures vs[i] == v || vs[i] == w {
      PrintInjective(vs[i], v);
      PrintInjective(vs[i], w);
    }
    assert vs[0] < vs[1];
  }

  /** Vault's map of a key that has been rotated but never trimmed. */
  function VaultKeys(versions: seq<string>): map<string, string> {
    if versions == [] then map[] else
    VaultKeys(versions[..|versions| - 1])[PrintNat(|versions|) := versions[|versions| - 1]]
  }

  lemma {:induction false} VaultKeysNames(versions: seq<string>)
    ensures |VaultKeys(versions).Keys| == |versions|
    ensures forall k :: k in VaultKeys(versions) ==> NamesVersion(k, |versions|)
  {
    if versions != [] {
      var init, n := versions[..|versions| - 1], |versions|;
      VaultKeysNames(init);
      assert PrintNat(n) !in VaultKeys(init) by {
        if NamesVersion(PrintNat(n), n - 1) {
          var v :| 1 <= v <= n - 1 && PrintNat(n) == PrintNat(v);
          PrintInjective(v, n);
        }
      }
      assert VaultKeys(versions).Keys == VaultKeys(init).Keys + {PrintNat(n)};
      forall k | k in VaultKeys(versions) ensures NamesVersion(k, n) {
        if k in VaultKeys(init) {
          var v :| 1 <= v <= n - 1 && k == PrintNat(v);
        }
      }
    }
  }

  lemma {:induction false} VaultKeysHas(versions: seq<string>)
    ensures forall i :: 0 <= i < |versions| ==> Holds(VaultKeys(versions), i + 1, versions[i])
  {
    if versions != [] {
      var init, n := versions[..|versions| - 1], |versions|;
      VaultKeysHas(init);
      forall i | 0 <= i < n ensures Holds(VaultKeys(versions), i + 1, versions[i]) {
        if i < n - 1 {
          assert Holds(VaultKeys(init), i + 1, init[i]);
          PrintInjective(i + 1, n);
        }
      }
    }
  }

  /** What `load_keys` gets from the client for such a key: its public keys, converted, in order of their
      versions. */
  lemma ListingIsVersions(versions: seq<string>, vs: seq<nat>, convert: string -> Result<string, string>)
    requires |versions| <= USIZE_MAX && Sorted(vs) && ParsedFrom(vs, VaultKeys(versions).Keys)
    requires Listed(VaultKeys(versions), vs, convert).Ok?
    ensures var l := Listed(VaultKeys(versions), vs, convert).value;
            |l| == |versions| && forall i :: 0 <= i < |l| ==> convert(versions[i]) == Ok(l[i])
  {
    VaultKeysNames(versions);
    VaultKeysHas(versions);
    ListingNamesVersions(VaultKeys(versions), |versions|, vs, convert);
    var l := Listed(VaultKeys(versions), vs, convert).value;
    forall i | 0 <= i < |l| ensures convert(versions[i]) == Ok(l[i]) {
      assert ListedFor(VaultKeys(versions), i + 1, convert, l[i]) && Holds(VaultKeys(versions), i + 1, versions[i]);
    }
  }

  /** The signing key: its name, and how the client converts and the resolver decodes a public key. */
  datatype SigningKey = SigningKey(name: string, convert: string -> Result<string, string>)

  /** Different public keys stay different. */
  ghost predicate Faithful(k: SigningKey) {
    forall a, b :: k.convert(a).Ok? && k.convert(a) == k.convert(b) ==> a == b
  }

  /** A token being signed: the version it names, the version that signed it once that has happened. */
  datatype Signing = Named(version: nat) | Signed(version: nat, signer: nat)

  /** `versions` are the public keys of versions 1, 2, ..: rotation appends, nothing is dropped. `loads`
      are the listings that have been fetched and not yet entered into the cache. */
  datatype System = System(versions: seq<string>, cache: map<string, string>, loads: map<nat, seq<string>>,
                           tokens: map<nat, Signing>)

  datatype Action =
    | Rotate(key: string)
    | Fetch(l: nat, vs: seq<nat>)
    | Extend(l: nat)
    | ReadVersion(t: nat)
    | Sign(t: nat)

  /** What `get_key_metadata` may list now, having sorted the parsed versions `vs`. */
  ghost predicate Lists(k: SigningKey, versions: seq<string>, vs: seq<nat>) {
    Sorted(vs) && ParsedFrom(vs, VaultKeys(versions).Keys) && Listed(VaultKeys(versions), vs, k.convert).Ok?
  }

  ghost predicate Enabled(k: SigningKey, s: System, a: Action) {
    match a
    case Rotate(key) => key !in s.versions && |s.versions| < USIZE_MAX
    case Fetch(l, vs) => l !in s.loads && Lists(k, s.versions, vs)
    case Extend(l) => l in s.loads
    case ReadVersion(t) => t !in s.tokens && |s.versions| > 0
    case Sign(t) => t in s.tokens && s.tokens[t].Named?
  }

  function Step(k: SigningKey, s: System, a: Action): System
    requires Enabled(k, s, a)
  {
    match a
    case Rotate(key) => s.(versions := s.versions + [key])
    case Fetch(l, vs) => s.(loads := s.loads[l := Listed(VaultKeys(s.versions), vs, k.convert).value])
    case Extend(l) => s.(cache := Extended(s.cache, k.name, s.loads[l]), loads := s.loads - {l})
    case ReadVersion(t) => s.(tokens := s.tokens[t := Named(|s.versions|)])
    case Sign(t) => s.(tokens := s.tokens[t := Signed(s.tokens[t].version, |s.versions|)])
  }

  /** `resolve_key`: from the cache, else after loading what is listed now. */
  function Resolve(k: SigningKey, s: System, vs: seq<nat>, kid: string): Option<string>
    requires Listed(VaultKeys(s.versions), vs, k.convert).Ok?
  {
    if kid in s.cache then Some(s.cache[kid]) else
    var c := Extended(s.cache, k.name, Listed(VaultKeys(s.versions), vs, k.convert).value);
    if kid in c then Some(c[kid]) else None
  }

  /** This is the converted key of the version. */
  predicate KeyOf(k: SigningKey, versions: seq<string>, v: nat, key: string) {
    1 <= v <= |versions| && k.convert(versions[v - 1]) == Ok(key)
  }

  ghost predicate CachedRight(k: SigningKey, versions: seq<string>, kid: string, key: string) {
    exists v :: KeyOf(k, versions, v, key) && kid == Kid(k.name, v)
  }

  /** The listing is of some or all of the versions, in their order. */
  ghost predicate LoadRight(k: SigningKey, versions: seq<string>, listed: seq<string>) {
    forall i :: 0 <= i < |listed| ==> KeyOf(k, versions, i + 1, listed[i])
  }

  ghost predicate TokenRight(s: System, t: nat)
    requires t in s.tokens
  {
    && 1 <= s.tokens[t].version <= |s.versions|
    && (s.tokens[t].Signed? ==> s.tokens[t].version <= s.tokens[t].signer <= |s.versions|)
  }

  ghost predicate CacheRight(k: SigningKey, versions: seq<string>, cache: map<string, string>) {
    forall kid :: kid in cache ==> CachedRight(k, versions, kid, cache[kid])
  }

  ghost predicate Inv(k: SigningKey, s: System) {
    && CacheRight(k, s.versions, s.cache)
    && (forall l :: l in s.loads ==> LoadRight(k, s.versions, s.loads[l]))
    && (forall t :: t in s.tokens ==> TokenRight(s, t))
    && (forall i, j :: 0 <= i < j < |s.versions| ==> s.versions[i] != s.versions[j])
    && |s.versions| <= USIZE_MAX
  }

  lemma ListsRight(k: SigningKey, versions: seq<string>, vs: seq<nat>)
    requires |versions| <= USIZE_MAX && Lists(k, versions, vs)
    ensures var l := Listed(VaultKeys(versions), vs, k.convert).value; |l| == |versions| && LoadRight(k, versions, l)
  {
    ListingIsVersions(versions, vs, k.convert);
  }

  lemma ExtendedRight(k: SigningKey, versions: seq<string>, cache: map<string, string>, listed: seq<string>)
    requires CacheRight(k, versions, cache) && LoadRight(k, versions, listed)
    ensures CacheRight(k, versions, Extended(cache, k.name, listed))
  {
    var c := Extended(cache, k.name, listed);
    ExtendedHas(cache, k.name, listed);
    forall kid | kid in c ensures CachedRight(k, versions, kid, c[kid]) {
      if !(kid in cache && c[kid] == cache[kid]) {
        var v :| 1 <= v <= |listed| && kid == Kid(k.name, v);
        assert KeyOf(k, versions, (v - 1) + 1, listed[v - 1]);
        assert KeyOf(k, versions, v, c[kid]);
      }
    }
  }

  lemma RotateInv(k: SigningKey, s: System, key: string)
    requires Inv(k, s) && Enabled(k, s, Rotate(key))
    ensures Inv(k, Step(k, s, Rotate(key)))
  {
    var s' := Step(k, s, Rotate(key));
    assert forall v, x :: KeyOf(k, s.versions, v, x) ==> KeyOf(k, s'.versions, v, x);
    forall kid | kid in s'.cache ensures CachedRight(k, s'.versions, kid, s'.cache[kid]) {
      assert CachedRight(k, s.versions, kid, s.cache[kid]);
      var v :| KeyOf(k, s.versions, v, s.cache[kid]) && kid == Kid(k.name, v);
      assert KeyOf(k, s'.versions, v, s'.cache[kid]);
    }
    forall l | l in s'.loads ensures LoadRight(k, s'.versions, s'.loads[l]) { assert LoadRight(k, s.versions, s.loads[l]); }
    forall t | t in s'.tokens ensures TokenRight(s', t) { assert TokenRight(s, t); }
  }

  lemma StepInv(k: SigningKey, s: System, a: Action)
    requires Inv(k, s) && Enabled(k, s, a)
    ensures Inv(k, Step(k, s, a))
  {
    match a {
      case Rotate(key) => RotateInv(k, s, key);
      case Fetch(l, vs) => ListsRight(k, s.versions, vs);
      case Extend(l) =>
        assert LoadRight(k, s.versions, s.loads[l]);
        ExtendedRight(k, s.versions, s.cache, s.loads[l]);
      case ReadVersion(t) =>
      case Sign(t) => assert TokenRight(s, t);
    }
    if !a.Rotate? {
      var s' := Step(k, s, a);
      forall t | t in s'.tokens ensures TokenRight(s', t) {
        assert t in s.tokens ==> TokenRight(s, t);
      }
    }
  }

  ghost predicate IsRun(k: SigningKey, states: seq<System>, actions: seq<Action>) {
    && |states| == |actions| + 1 && states[0] == System([], map[], map[], map[])
    && forall i :: 0 <= i < |actions| ==> Enabled(k, states[i], actions[i]) && states[i + 1] == Step(k, states[i], actions[i])
  }

  lemma {:induction false} RunInv(k: SigningKey, states: seq<System>, actions: seq<Action>, n: nat)
    requires IsRun(k, states, actions) && n <= |actions|
    ensures Inv(k, states[n])
  {
    if n > 0 {
      RunInv(k, states, actions, n - 1);
      StepInv(k, states[n - 1], actions[n - 1]);
    }
  }

  lemma ResolvesVersion(k: SigningKey, s: System, vs: seq<nat>, v: nat)
    requires Inv(k, s) && Lists(k, s.versions, vs) && 1 <= v <= |s.versions|
    ensures var r := Resolve(k, s, vs, Kid(k.name, v)); r.Some? && KeyOf(k, s.versions, v, r.value)
  {
    var kid, listed := Kid(k.name, v), Listed(VaultKeys(s.versions), vs, k.convert).value;
    ListsRight(k, s.versions, vs);
    if kid in s.cache {
      assert CachedRight(k, s.versions, kid, s.cache[kid]);
      var w :| KeyOf(k, s.versions, w, s.cache[kid]) && kid == Kid(k.name, w);
      KidInjective(k.name, v, w);
    } else {
      ExtendedHas(s.cache, k.name, listed);
      assert KeyOf(k, s.versions, (v - 1) + 1, listed[v - 1]);
    }
  }

  /** Over any run of rotations, listings, cache updates and signings: the `kid` of every token resolves,
      then and ever after, to the public key of the version it names, whether cached or listed now. */
  lemma KidResolvesToNamedVersion(k: SigningKey, states: seq<System>, actions: seq<Action>, n: nat, m: nat, t: nat, vs: seq<nat>)
    requires IsRun(k, states, actions) && n <= m <= |actions| && t in states[n].tokens && Lists(k, states[m].versions, vs)
    ensures var v := states[n].tokens[t].version;
            var r := Resolve(k, states[m], vs, Kid(k.name, v));
            r.Some? && KeyOf(k, states[n].versions, v, r.value)
  {
    RunInv(k, states, actions, n);
    RunInv(k, states, actions, m);
    VersionsGrow(k, states, actions, n, m);
    assert TokenRight(states[n], t);
    ResolvesVersion(k, states[m], vs, states[n].tokens[t].version);
  }

  lemma {:induction false} VersionsGrow(k: SigningKey, states: seq<System>, actions: seq<Action>, n: nat, m: nat)
    requires IsRun(k, states, actions) && n <= m <= |actions|
    ensures |states[n].versions| <= |states[m].versions|
    ensures forall i :: 0 <= i < |states[n].versions| ==> states[m].versions[i] == states[n].versions[i]
  {
    if n < m { VersionsGrow(k, states, actions, n, m - 1); }
  }

  /** A token's signature verifies with the key its `kid` resolves to exactly when the key was not rotated
      between reading the version and signing. */
  lemma SignatureVerifiesIff(k: SigningKey, states: seq<System>, actions: seq<Action>, n: nat, t: nat, vs: seq<nat>)
    requires IsRun(k, states, actions) && n <= |actions| && t in states[n].tokens && states[n].tokens[t].Signed?
    requires Faithful(k) && Lists(k, states[n].versions, vs)
    ensures var s, x := states[n], states[n].tokens[t];
            var r := Resolve(k, s, vs, Kid(k.name, x.version));
            && 1 <= x.version <= x.signer <= |s.versions|
            && r.Some? && (KeyOf(k, s.versions, x.signer, r.value) <==> x.version == x.signer)
  {
    RunInv(k, states, actions, n);
    var s, x := states[n], states[n].tokens[t];
    assert TokenRight(s, t);
    ResolvesVersion(k, s, vs, x.version);
    assert x.version != x.signer ==> s.versions[x.version - 1] != s.versions[x.signer - 1];
  }

  /** A run in which it does not: the key is rotated after its version was read and before signing. */
  lemma RotatedWhileSigning(k: SigningKey, first: string, second: string, t: nat) returns (states: seq<System>)
    requires first != second
    ensures IsRun(k, states, [Rotate(first), ReadVersion(t), Rotate(second), Sign(t)])
    ensures states[4].tokens == map[t := Signed(1, 2)]
  {
    var s0 := System([], map[], map[], map[]);
    var s1 := s0.(versions := [first]);
    var s2 := s1.(tokens := map[t := Named(1)]);
    var s3 := s2.(versions := [first, second]);
    var s4 := s3.(tokens := map[t := Signed(1, 2)]);
    states := [s0, s1, s2, s3, s4];
  }
}
