/** `findKeyDeep` from scripts/extract.js: a pre-order walk of a JSON tree that
    collects every property named `targetKey`, with the dotted path that leads
    to it and the value stored under it. Arrays are walked through their index
    keys "0", "1", ..., as `Object.keys` does. */
module Extract {
  import opened Wrappers
  import opened JsonData
  import opened Digits

  /** Decimal text of an array index, the key `Object.keys` gives it. */
  function IndexKey(n: nat): (s: string)
    ensures |s| >= 1 && (n >= 10 ==> |s| >= 2)
  {
    if n < 10 then [('0' as int + n) as char]
    else IndexKey(n / 10) + [('0' as int + n % 10) as char]
  }

  /** The key of an index is its canonical decimal text: digits, no leading
      zero, and the value they denote is the index. */
  lemma {:induction false} IndexKeyDecimal(n: nat)
    ensures var s := IndexKey(n);
      AllDigits(s) && DigitsValue(s) == n && (|s| > 1 ==> s[0] != '0')
  {
    if n >= 10 {
      var prefix := IndexKey(n / 10);
      var s := IndexKey(n);
      IndexKeyDecimal(n / 10);
      assert s == prefix + [('0' as int + n % 10) as char];
      assert s[..|s| - 1] == prefix;
      assert s[0] == prefix[0];
    }
  }

  /** Distinct indices have distinct keys, so array keys never repeat. */
  lemma IndexKeyInjective(m: nat, n: nat)
    requires IndexKey(m) == IndexKey(n)
    ensures m == n
  {
    IndexKeyDecimal(m);
    IndexKeyDecimal(n);
  }

  /** `Object.keys(obj)` for an object or an array; a primitive has none. */
  function Keys(j: Json): (ks: seq<string>)
    ensures j.JObj? ==> |ks| == |j.fields|
    ensures j.JArr? ==> |ks| == |j.items|
    ensures !j.JObj? && !j.JArr? ==> ks == []
  {
    match j
    case JObj(fs) => seq(|fs|, i requires 0 <= i < |fs| => fs[i].0)
    case JArr(items) => seq(|items|, i requires 0 <= i < |items| => IndexKey(i))
    case _ => []
  }

  /** `obj[key]` for the i-th key of `obj`. */
  function Child(j: Json, i: nat): (c: Json)
    requires i < |Keys(j)|
    ensures c < j
  {
    if j.JObj? then j.fields[i].1 else j.items[i]
  }

  /** The keys are an object's field names in order, and an array's indices in
      decimal; so `Child(j, i)` is the value stored under `Keys(j)[i]`. */
  lemma KeysAreNames(j: Json)
    ensures j.JObj? ==> forall i | 0 <= i < |j.fields| :: Keys(j)[i] == j.fields[i].0 && Child(j, i) == j.fields[i].1
    ensures j.JArr? ==> forall i | 0 <= i < |j.items| :: Keys(j)[i] == IndexKey(i) && Child(j, i) == j.items[i]
  {
  }

  /** One result of the search: the chain of keys from the root, and the value found. */
  datatype Found = Found(segments: seq<string>, value: Json) {
    /** The `path` string of a result: the keys joined by ".". */
    function Path(): string {
      Join(segments)
    }
  }

  function Join(ks: seq<string>): string {
    if ks == [] then ""
    else if |ks| == 1 then ks[0]
    else ks[0] + "." + Join(ks[1..])
  }

  /** Position of the first "." in `s`. */
  function FirstDot(s: string): (i: nat)
    requires '.' in s
    ensures i < |s| && s[i] == '.' && '.' !in s[..i]
  {
    if s[0] == '.' then 0
    else
      var i := 1 + FirstDot(s[1..]);
      assert s[..i] == [s[0]] + s[1..][..i - 1];
      i
  }

  /** `s.split(".")`. */
  function Split(s: string): (r: seq<string>)
    ensures |r| >= 1
    decreases |s|
  {
    if '.' !in s then [s] else [s[..FirstDot(s)]] + Split(s[FirstDot(s) + 1..])
  }

  /** The first dot of `a.b` is the one after `a` when `a` has none. */
  lemma FirstDotAfter(a: string, b: string)
    requires '.' !in a
    ensures '.' in a + "." + b && FirstDot(a + "." + b) == |a|
  {
    var p := a + ".";
    var s := p + b;
    assert s[|a|] == p[|a|] == '.';
    assert s[..|a|] == a;
    assert s[..|a| + 1] == p;
  }

  /** The pieces of `a.b` for a first piece `a` without a dot. */
  lemma SplitFirst(a: string, b: string)
    requires '.' !in a
    ensures Split(a + "." + b) == [a] + Split(b)
  {
    var p := a + ".";
    var s := p + b;
    FirstDotAfter(a, b);
    assert s[..|a|] == a;
    assert s[|a| + 1..] == b;
  }

  /** A path whose keys contain no "." splits back into its keys, so `path`
      names the chain of keys it was joined from. */
  lemma {:induction false} SplitJoin(ks: seq<string>)
    requires |ks| >= 1 && forall i | 0 <= i < |ks| :: '.' !in ks[i]
    ensures Split(Join(ks)) == ks
    decreases |ks|
  {
    if |ks| > 1 {
      SplitFirst(ks[0], Join(ks[1..]));
      SplitJoin(ks[1..]);
      assert ks == [ks[0]] + ks[1..];
    }
  }

  /** `s` is `prefix` followed by at least one more key. */
  ghost predicate Extends(s: seq<string>, prefix: seq<string>) {
    |s| > |prefix| && forall i | 0 <= i < |prefix| :: s[i] == prefix[i]
  }

  /** What `findKeyDeep(j, key, path)` returns: for each key of `j` in order, the
      key itself when it matches, then everything found below it. */
  function DeepMatches(j: Json, key: string, path: seq<string>): (r: seq<Found>)
    ensures forall f | f in r :: Extends(f.segments, path) && f.segments[|f.segments| - 1] == key
    ensures !j.JObj? && !j.JArr? ==> r == []
    decreases j, 2
  {
    EntriesMatches(j, |Keys(j)|, key, path)
  }

  /** The results contributed by the first `n` keys of `j`. */
  function EntriesMatches(j: Json, n: nat, key: string, path: seq<string>): (r: seq<Found>)
    requires n <= |Keys(j)|
    ensures forall f | f in r :: Extends(f.segments, path) && f.segments[|f.segments| - 1] == key
    decreases j, 1, n
  {
    if n == 0 then []
    else EntriesMatches(j, n - 1, key, path) + EntryMatches(j, n - 1, key, path)
  }

  /** The results contributed by the i-th key of `j`. */
  function EntryMatches(j: Json, i: nat, key: string, path: seq<string>): (r: seq<Found>)
    requires i < |Keys(j)|
    ensures forall f | f in r :: Extends(f.segments, path) && f.segments[|path|] == Keys(j)[i] && f.segments[|f.segments| - 1] == key
    decreases j, 0
  {
    var k := Keys(j)[i];
    var below := DeepMatches(Child(j, i), key, path + [k]);
    assert forall f | f in below :: Extends(f.segments, path) && f.segments[|path|] == k by {
      forall f | f in below
        ensures Extends(f.segments, path) && f.segments[|path|] == k
      {
        ExtendsFurther(f.segments, path, k);
      }
    }
    (if k == key then [Found(path + [k], Child(j, i))] else []) + below
  }

  /** A chain that extends `path + [k]` extends `path`, with `k` right after it. */
  lemma ExtendsFurther(s: seq<string>, path: seq<string>, k: string)
    requires Extends(s, path + [k])
    ensures Extends(s, path) && s[|path|] == k
  {
    forall i | 0 <= i < |path|
      ensures s[i] == path[i]
    {
      assert (path + [k])[i] == path[i];
    }
    assert (path + [k])[|path|] == k;
  }

  /** The search itself, as the script runs it: a loop over the keys that
      appends the match and then the recursive results. */
  method FindKeyDeep(obj: Json, targetKey: string, currentPath: seq<string>) returns (results: seq<Found>)
    ensures results == DeepMatches(obj, targetKey, currentPath)
    decreases obj
  {
    if !obj.JObj? && !obj.JArr? {
      return [];
    }
    results := [];
    var keys := Keys(obj);
    for i := 0 to |keys|
      invariant results == EntriesMatches(obj, i, targetKey, currentPath)
    {
      var key := keys[i];
      var nextPath := currentPath + [key];
      var direct := if key == targetKey then [Found(nextPath, Child(obj, i))] else [];
      results := results + direct;
      var below := FindKeyDeep(Child(obj, i), targetKey, nextPath);
      results := results + below;
      assert results == EntriesMatches(obj, i, targetKey, currentPath) + (direct + below);
    }
  }

  // ----- What a path denotes -----

  /** Following the keys of `p` from `j` reaches the value `v`. */
  ghost predicate At(j: Json, p: seq<string>, v: Json)
    decreases |p|
  {
    if p == [] then v == j
    else exists i | 0 <= i < |Keys(j)| :: Keys(j)[i] == p[0] && At(Child(j, i), p[1..], v)
  }

  /** Every result names a real occurrence: its path below `path` leads to its value. */
  lemma {:induction false} DeepMatchesSound(j: Json, key: string, path: seq<string>)
    ensures forall f | f in DeepMatches(j, key, path) :: At(j, f.segments[|path|..], f.value)
    decreases j, 2
  {
    EntriesMatchesSound(j, |Keys(j)|, key, path);
  }

  lemma {:induction false} EntriesMatchesSound(j: Json, n: nat, key: string, path: seq<string>)
    requires n <= |Keys(j)|
    ensures AllAt(j, path, EntriesMatches(j, n, key, path))
    decreases j, 1, n
  {
    if n > 0 {
      EntriesMatchesSound(j, n - 1, key, path);
      EntryMatchesSound(j, n - 1, key, path);
      SoundEntries(j, n, key, path);
    }
  }

  /** Sound results of the entries before the n-th and of the n-th entry make sound results of the first n. */
  lemma SoundEntries(j: Json, n: nat, key: string, path: seq<string>)
    requires 0 < n <= |Keys(j)|
    requires AllAt(j, path, EntriesMatches(j, n - 1, key, path)) && AllAt(j, path, EntryMatches(j, n - 1, key, path))
    ensures AllAt(j, path, EntriesMatches(j, n, key, path))
  {
    var r := EntriesMatches(j, n - 1, key, path);
    var s := EntryMatches(j, n - 1, key, path);
    assert EntriesMatches(j, n, key, path) == r + s;
    AllAtConcat(j, path, r, s);
  }

  /** Every result in `r` lies below `path`, and the rest of its path leads from `j` to its value. */
  ghost predicate AllAt(j: Json, path: seq<string>, r: seq<Found>) {
    forall f | f in r :: |path| <= |f.segments| && At(j, f.segments[|path|..], f.value)
  }

  /** Joining two lists of sound results gives a list of sound results. */

  lemma AllAtConcat(j: Json, path: seq<string>, r: seq<Found>, s: seq<Found>)
    requires AllAt(j, path, r) && AllAt(j, path, s)
    ensures AllAt(j, path, r + s)
  {
    forall f | f in r + s
      ensures |path| <= |f.segments| && At(j, f.segments[|path|..], f.value)
    {
      if f !in r {
        assert f in s;
      }
    }
  }

  lemma {:induction false} EntryMatchesSound(j: Json, i: nat, key: string, path: seq<string>)
    requires i < |Keys(j)|
    ensures AllAt(j, path, EntryMatches(j, i, key, path))
    decreases j, 0
  {
    var k := Keys(j)[i];
    var c := Child(j, i);
    var next := path + [k];
    DeepMatchesSound(c, key, next);
    forall f | f in EntryMatches(j, i, key, path)
      ensures At(j, f.segments[|path|..], f.value)
    {
      var p := f.segments[|path|..];
      assert p[0] == k;
      if f in DeepMatches(c, key, next) {
        assert p[1..] == f.segments[|next|..];
        assert At(c, p[1..], f.value);
      } else {
        assert p[1..] == [];
      }
    }
  }

  /** Every occurrence is reported: a path whose last key is `key` and that leads
      to `v` appears among the results, prefixed by `path`. */
  lemma {:induction false} DeepMatchesComplete(j: Json, key: string, path: seq<string>, p: seq<string>, v: Json)
    requires At(j, p, v) && |p| > 0 && p[|p| - 1] == key
    ensures Found(path + p, v) in DeepMatches(j, key, path)
    decreases j, 1
  {
    var i :| 0 <= i < |Keys(j)| && Keys(j)[i] == p[0] && At(Child(j, i), p[1..], v);
    EntryComplete(j, i, key, path, p, v);
    EntryInEntries(j, |Keys(j)|, i, key, path);
  }

  /** An occurrence under the i-th key is among that key's results. */
  lemma {:induction false} EntryComplete(j: Json, i: nat, key: string, path: seq<string>, p: seq<string>, v: Json)
    requires i < |Keys(j)| && |p| > 0 && Keys(j)[i] == p[0] && p[|p| - 1] == key
    requires At(Child(j, i), p[1..], v)
    ensures Found(path + p, v) in EntryMatches(j, i, key, path)
    decreases j, 0
  {
    var k := Keys(j)[i];
    var c := Child(j, i);
    var next := path + [k];
    var below := DeepMatches(c, key, next);
    assert EntryMatches(j, i, key, path) == (if k == key then [Found(next, c)] else []) + below;
    AppendHead(path, p);
    if |p| == 1 {
      assert p[1..] == [];
      assert v == c;
    } else {
      DeepMatchesComplete(c, key, next, p[1..], v);
    }
  }

  /** Splitting off the first key of `p` and putting it back. */
  lemma AppendHead(path: seq<string>, p: seq<string>)
    requires |p| > 0
    ensures path + [p[0]] + p[1..] == path + p
    ensures |p| == 1 ==> path + [p[0]] == path + p
  {
    assert p == [p[0]] + p[1..];
  }

  lemma {:induction false} EntryInEntries(j: Json, n: nat, i: nat, key: string, path: seq<string>)
    requires i < n <= |Keys(j)|
    ensures forall f | f in EntryMatches(j, i, key, path) :: f in EntriesMatches(j, n, key, path)
  {
    if i < n - 1 {
      EntryInEntries(j, n - 1, i, key, path);
    }
  }

  // ----- How many results -----

  /** Number of properties named `key` anywhere in `j`. */
  function Occurrences(j: Json, key: string): nat
    decreases j, 1
  {
    OccurrencesIn(j, |Keys(j)|, key)
  }

  function OccurrencesIn(j: Json, n: nat, key: string): nat
    requires n <= |Keys(j)|
    decreases j, 0, n
  {
    if n == 0 then 0
    else OccurrencesIn(j, n - 1, key) + (if Keys(j)[n - 1] == key then 1 else 0) + Occurrences(Child(j, n - 1), key)
  }

  /** One result per occurrence of the key as a property name. */
  lemma {:induction false} DeepMatchesCount(j: Json, key: string, path: seq<string>)
    ensures |DeepMatches(j, key, path)| == Occurrences(j, key)
    decreases j, 1
  {
    EntriesMatchesCount(j, |Keys(j)|, key, path);
  }

  lemma {:induction false} EntriesMatchesCount(j: Json, n: nat, key: string, path: seq<string>)
    requires n <= |Keys(j)|
    ensures |EntriesMatches(j, n, key, path)| == OccurrencesIn(j, n, key)
    decreases j, 0, n
  {
    if n > 0 {
      EntriesMatchesCount(j, n - 1, key, path);
      DeepMatchesCount(Child(j, n - 1), key, path + [Keys(j)[n - 1]]);
    }
  }

  // ----- Order: an ancestor is reported before its descendants -----

  /** Object keys are unique at every level (as in any parsed JSON object). */
  ghost predicate WellFormed(j: Json)
    decreases j
  {
    && (j.JObj? ==> forall a, b | 0 <= a < b < |j.fields| :: j.fields[a].0 != j.fields[b].0)
    && forall i | 0 <= i < |Keys(j)| :: WellFormed(Child(j, i))
  }

  ghost predicate StrictPrefix(a: seq<string>, b: seq<string>) {
    |a| < |b| && forall i | 0 <= i < |a| :: a[i] == b[i]
  }

  /** A result whose path is a proper prefix of another's comes first. */
  ghost predicate AncestorsFirst(r: seq<Found>) {
    forall x, y {:trigger StrictPrefix(r[x].segments, r[y].segments)} | 0 <= x < |r| && 0 <= y < |r| && StrictPrefix(r[x].segments, r[y].segments) :: x < y
  }

  lemma DistinctKeys(j: Json, a: nat, b: nat)
    requires WellFormed(j) && a < b < |Keys(j)|
    ensures Keys(j)[a] != Keys(j)[b]
  {
    if j.JArr? && IndexKey(a) == IndexKey(b) {
      IndexKeyInjective(a, b);
    }
  }

  /** No result of `s` is an ancestor of a result of `r`. */
  ghost predicate NoLaterAncestor(r: seq<Found>, s: seq<Found>) {
    forall x, y {:trigger StrictPrefix(s[y].segments, r[x].segments)} | 0 <= x < |r| && 0 <= y < |s| :: !StrictPrefix(s[y].segments, r[x].segments)
  }

  lemma ConcatAncestorsFirst(r: seq<Found>, s: seq<Found>)
    requires AncestorsFirst(r) && AncestorsFirst(s) && NoLaterAncestor(r, s)
    ensures AncestorsFirst(r + s)
  {
    var t := r + s;
    forall x, y | 0 <= x < |t| && 0 <= y < |t| && StrictPrefix(t[x].segments, t[y].segments)
      ensures x < y
    {
      if x >= |r| && y >= |r| {
        assert t[x] == s[x - |r|] && t[y] == s[y - |r|];
      } else if y < |r| {
        assert t[x] == r[x] && t[y] == r[y];
      }
    }
  }

  /** No result of the n-th entry is an ancestor of a result of the entries before it:
      those lie under earlier keys, and keys are distinct. */
  lemma EarlierNotBelowLater(j: Json, n: nat, key: string, path: seq<string>, x: nat, y: nat)
    requires WellFormed(j) && n < |Keys(j)|
    requires x < |EntriesMatches(j, n, key, path)| && y < |EntryMatches(j, n, key, path)|
    ensures !StrictPrefix(EntryMatches(j, n, key, path)[y].segments, EntriesMatches(j, n, key, path)[x].segments)
  {
    var r := EntriesMatches(j, n, key, path);
    var s := EntryMatches(j, n, key, path);
    assert s[y] in s;
    if StrictPrefix(s[y].segments, r[x].segments) {
      assert r[x].segments[|path|] == s[y].segments[|path|];
      BlockOfKey(j, n, key, path, x, n);
      assert false;
    }
  }

  lemma EarlierNotBelowLaterAll(j: Json, n: nat, key: string, path: seq<string>)
    requires WellFormed(j) && n < |Keys(j)|
    ensures NoLaterAncestor(EntriesMatches(j, n, key, path), EntryMatches(j, n, key, path))
  {
    var r := EntriesMatches(j, n, key, path);
    var s := EntryMatches(j, n, key, path);
    forall x, y | 0 <= x < |r| && 0 <= y < |s|
      ensures !StrictPrefix(s[y].segments, r[x].segments)
    {
      EarlierNotBelowLater(j, n, key, path, x, y);
    }
  }

  /** Pre-order: a match is listed before every match found inside its value. */
  lemma {:induction false} DeepMatchesPreOrder(j: Json, key: string, path: seq<string>)
    requires WellFormed(j)
    ensures AncestorsFirst(DeepMatches(j, key, path))
    decreases j, 2
  {
    EntriesMatchesPreOrder(j, |Keys(j)|, key, path);
  }

  lemma {:induction false} EntriesMatchesPreOrder(j: Json, n: nat, key: string, path: seq<string>)
    requires WellFormed(j) && n <= |Keys(j)|
    ensures AncestorsFirst(EntriesMatches(j, n, key, path))
    decreases j, 1, n
  {
    if n > 0 {
      EntriesMatchesPreOrder(j, n - 1, key, path);
      EntryMatchesPreOrder(j, n - 1, key, path);
      ConcatEntries(j, n, key, path);
    }
  }

  /** The entries before the n-th and the n-th entry, each in pre-order, concatenate in pre-order. */
  lemma ConcatEntries(j: Json, n: nat, key: string, path: seq<string>)
    requires WellFormed(j) && 0 < n <= |Keys(j)|
    requires AncestorsFirst(EntriesMatches(j, n - 1, key, path)) && AncestorsFirst(EntryMatches(j, n - 1, key, path))
    ensures AncestorsFirst(EntriesMatches(j, n, key, path))
  {
    var r := EntriesMatches(j, n - 1, key, path);
    var s := EntryMatches(j, n - 1, key, path);
    EarlierNotBelowLaterAll(j, n - 1, key, path);
    ConcatAncestorsFirst(r, s);
    assert EntriesMatches(j, n, key, path) == r + s;
  }

  lemma {:induction false} EntryMatchesPreOrder(j: Json, i: nat, key: string, path: seq<string>)
    requires WellFormed(j) && i < |Keys(j)|
    ensures AncestorsFirst(EntryMatches(j, i, key, path))
    decreases j, 0
  {
    var k := Keys(j)[i];
    var next := path + [k];
    var direct := if k == key then [Found(next, Child(j, i))] else [];
    var below := DeepMatches(Child(j, i), key, next);
    DeepMatchesPreOrder(Child(j, i), key, next);
    assert NoLaterAncestor(direct, below) by {
      forall x, y | 0 <= x < |direct| && 0 <= y < |below|
        ensures !StrictPrefix(below[y].segments, direct[x].segments)
      {
        assert below[y] in below;
      }
    }
    ConcatAncestorsFirst(direct, below);
  }

  // ----- Order: siblings in `Object.keys` order -----

  /** The result `f` lies under the key `k` right below `path`. */
  ghost predicate Under(f: Found, path: seq<string>, k: string) {
    |f.segments| > |path| && f.segments[|path|] == k
  }

  /** Every result under an earlier key of `j` comes before every result under a later one. */
  ghost predicate KeysInOrder(j: Json, path: seq<string>, r: seq<Found>) {
    forall x, y, a, b {:trigger Under(r[x], path, Keys(j)[a]), Under(r[y], path, Keys(j)[b])}
      | 0 <= x < |r| && 0 <= y < |r| && 0 <= a < b < |Keys(j)| && Under(r[x], path, Keys(j)[a]) && Under(r[y], path, Keys(j)[b]) :: x < y
  }

  /** A key names one position of `j`. */
  lemma SameKeySameIndex(j: Json, a: nat, b: nat)
    requires WellFormed(j) && a < |Keys(j)| && b < |Keys(j)| && Keys(j)[a] == Keys(j)[b]
    ensures a == b
  {
    if a < b {
      DistinctKeys(j, a, b);
    } else if b < a {
      DistinctKeys(j, b, a);
    }
  }

  /** The results under the key at position `a` occupy exactly the block that
      the a-th entry appends. */
  lemma {:induction false} BlockOfKey(j: Json, n: nat, key: string, path: seq<string>, x: nat, a: nat)
    requires WellFormed(j) && n <= |Keys(j)| && a < |Keys(j)|
    requires x < |EntriesMatches(j, n, key, path)| && Under(EntriesMatches(j, n, key, path)[x], path, Keys(j)[a])
    ensures a < n && |EntriesMatches(j, a, key, path)| <= x < |EntriesMatches(j, a + 1, key, path)|
    decreases n
  {
    var r := EntriesMatches(j, n - 1, key, path);
    var s := EntryMatches(j, n - 1, key, path);
    assert EntriesMatches(j, n, key, path) == r + s;
    if x < |r| {
      assert (r + s)[x] == r[x];
      BlockOfKey(j, n - 1, key, path, x, a);
    } else {
      assert (r + s)[x] == s[x - |r|] && s[x - |r|] in s;
      SameKeySameIndex(j, a, n - 1);
    }
  }

  /** Later entries only add results. */
  lemma {:induction false} EntriesGrow(j: Json, m: nat, n: nat, key: string, path: seq<string>)
    requires m <= n <= |Keys(j)|
    ensures |EntriesMatches(j, m, key, path)| <= |EntriesMatches(j, n, key, path)|
    decreases n
  {
    if m < n {
      EntriesGrow(j, m, n - 1, key, path);
    }
  }

  /** Two results under keys at positions `a < b`: the first comes first. */
  lemma OrderedPair(j: Json, n: nat, key: string, path: seq<string>, x: nat, y: nat, a: nat, b: nat)
    requires WellFormed(j) && n <= |Keys(j)| && a < b < |Keys(j)|
    requires x < |EntriesMatches(j, n, key, path)| && Under(EntriesMatches(j, n, key, path)[x], path, Keys(j)[a])
    requires y < |EntriesMatches(j, n, key, path)| && Under(EntriesMatches(j, n, key, path)[y], path, Keys(j)[b])
    ensures x < y
  {
    BlockOfKey(j, n, key, path, x, a);
    BlockOfKey(j, n, key, path, y, b);
    EntriesGrow(j, a + 1, b, key, path);
  }

  /** The keys of `j` are visited in `Object.keys` order: all results found under
      one key precede all results found under any later key. */
  lemma DeepMatchesKeysInOrder(j: Json, key: string, path: seq<string>)
    requires WellFormed(j)
    ensures KeysInOrder(j, path, DeepMatches(j, key, path))
  {
    EntriesKeysInOrder(j, |Keys(j)|, key, path);
  }

  lemma EntriesKeysInOrder(j: Json, n: nat, key: string, path: seq<string>)
    requires WellFormed(j) && n <= |Keys(j)|
    ensures KeysInOrder(j, path, EntriesMatches(j, n, key, path))
  {
    var r := EntriesMatches(j, n, key, path);
    forall x, y, a, b {:trigger Under(r[x], path, Keys(j)[a]), Under(r[y], path, Keys(j)[b])}
      | 0 <= x < |r| && 0 <= y < |r| && 0 <= a < b < |Keys(j)| && Under(r[x], path, Keys(j)[a]) && Under(r[y], path, Keys(j)[b])
      ensures x < y
    {
      OrderedPair(j, n, key, path, x, y, a, b);
    }
  }
}
