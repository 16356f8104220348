/**
 * The slice of PHP's value model that the package relies on: nullable values,
 * truthiness, string-keyed arrays (array_merge, array_filter, `$a[$k] = $v`),
 * trim() and a few string helpers.
 */
module Php {

  datatype Option<T> = None | Some(value: T) {
    /** The value, or `default` when absent (PHP's `??`). */
    function GetOr(default: T): T {
      match this
      case Some(v) => v
      case None => default
    }
  }

  /** The result of an operation that may throw. */
  datatype Result<T, E> = Ok(value: T) | Err(error: E)

  /** A line written through Laravel's Log facade. */
  datatype LogEntry = Warning(message: string) | Error(message: string)

  /** A PHP value, as far as configuration arrays and span contexts use them. */
  datatype Value =
    | Null
    | Bool(b: bool)
    | Int(i: int)
    | Str(s: string)
    | List(items: seq<Value>)
    | Map(entries: seq<(string, Value)>)
    | Obj(className: string)

  /** A PHP array whose keys are all strings, in insertion order. */
  type Assoc = seq<(string, Value)>

  /** PHP's `empty()` / `!$v`: the values that convert to false. */
  predicate Falsy(v: Value) {
    match v
    case Null => true
    case Bool(b) => !b
    case Int(i) => i == 0
    case Str(s) => s == "" || s == "0"
    case List(items) => items == []
    case Map(entries) => entries == []
    case Obj(_) => false
  }

  predicate Truthy(v: Value) {
    !Falsy(v)
  }

  /** `$s` used as a boolean (a string is false when it is "" or "0"). */
  predicate FalsyString(s: string) {
    s == "" || s == "0"
  }

  // ---------------------------------------------------------------------------
  // String-keyed arrays

  function Keys(a: Assoc): (ks: seq<string>)
    ensures |ks| == |a|
    ensures forall i :: 0 <= i < |a| ==> ks[i] == a[i].0
  {
    if a == [] then [] else [a[0].0] + Keys(a[1..])
  }

  /** No key occurs twice, as in every PHP array. */
  predicate UniqueKeys(a: Assoc) {
    forall i, j :: 0 <= i < j < |a| ==> a[i].0 != a[j].0
  }

  /** `$a[$k] ?? null` as an option: the entry stored under k. */
  function Lookup(a: Assoc, k: string): (r: Option<Value>)
    ensures r.Some? <==> k in Keys(a)
    ensures r.Some? ==> exists i :: 0 <= i < |a| && a[i] == (k, r.value)
  {
    if a == [] then None
    else if a[0].0 == k then Some(a[0].1)
    else
      var r := Lookup(a[1..], k);
      assert r.Some? ==> exists i :: 0 <= i < |a[1..]| && a[1..][i] == (k, r.value);
      assert Keys(a) == [a[0].0] + Keys(a[1..]);
      r
  }

  /** `$a[$k] = $v`: overwrite in place when k is present, append otherwise. */
  function Put(a: Assoc, k: string, v: Value): Assoc {
    if a == [] then [(k, v)]
    else if a[0].0 == k then [(k, v)] + a[1..]
    else [a[0]] + Put(a[1..], k, v)
  }

  /** array_merge($a, $b) for string keys: later entries override, new keys append. */
  function Merge(a: Assoc, b: Assoc): Assoc
    decreases |b|
  {
    if b == [] then a else Merge(Put(a, b[0].0, b[0].1), b[1..])
  }

  /** array_filter($a): drops every entry whose value is falsy. */
  function Filter(a: Assoc): Assoc {
    if a == [] then []
    else if Truthy(a[0].1) then [a[0]] + Filter(a[1..])
    else Filter(a[1..])
  }

  lemma {:induction false} PutLookup(a: Assoc, k: string, v: Value, j: string)
    ensures Lookup(Put(a, k, v), j) == if j == k then Some(v) else Lookup(a, j)
  {
    if a != [] && a[0].0 != k {
      PutLookup(a[1..], k, v, j);
    }
  }

  /** The entry at index i answers a lookup of its key when no earlier entry has that key. */
  lemma {:induction false} LookupAt(a: Assoc, i: nat, k: string)
    requires i < |a| && a[i].0 == k
    requires forall j :: 0 <= j < i ==> a[j].0 != k
    ensures Lookup(a, k) == Some(a[i].1)
    decreases i
  {
    if i > 0 {
      LookupAt(a[1..], i - 1, k);
    }
  }

  /** Lookups into a short array of distinct keys. */
  lemma LookupSmall(k0: string, v0: Value, k1: string, v1: Value, k2: string, v2: Value)
    requires k0 != k1 && k0 != k2 && k1 != k2
    ensures Lookup([(k0, v0), (k1, v1), (k2, v2)], k0) == Some(v0)
    ensures Lookup([(k0, v0), (k1, v1), (k2, v2)], k1) == Some(v1)
    ensures Lookup([(k0, v0), (k1, v1), (k2, v2)], k2) == Some(v2)
    ensures Lookup([(k0, v0), (k1, v1)], k0) == Some(v0)
    ensures Lookup([(k0, v0), (k1, v1)], k1) == Some(v1)
  {
    var a := [(k0, v0), (k1, v1), (k2, v2)];
    assert a[1..] == [(k1, v1), (k2, v2)] && a[1..][1..] == [(k2, v2)];
    var b := [(k0, v0), (k1, v1)];
    assert b[1..] == [(k1, v1)];
  }

  /** Putting a key the array lacks appends it. */
  lemma {:induction false} PutAbsent(a: Assoc, k: string, v: Value)
    requires k !in Keys(a)
    ensures Put(a, k, v) == a + [(k, v)]
  {
    if a != [] {
      assert Keys(a) == [a[0].0] + Keys(a[1..]);
      PutAbsent(a[1..], k, v);
      assert a == [a[0]] + a[1..];
    }
  }

  lemma LookupCons(k: string, v: Value, rest: Assoc, j: string)
    ensures Lookup([(k, v)] + rest, j) == if j == k then Some(v) else Lookup(rest, j)
  {
    assert ([(k, v)] + rest)[1..] == rest;
  }

  /** Put keeps the existing keys in their order and adds k at the end if it is new. */
  lemma {:induction false} PutKeys(a: Assoc, k: string, v: Value)
    ensures Keys(Put(a, k, v)) == if k in Keys(a) then Keys(a) else Keys(a) + [k]
  {
    if a != [] && a[0].0 != k {
      PutKeys(a[1..], k, v);
      assert Keys(a) == [a[0].0] + Keys(a[1..]);
    }
  }

  lemma {:induction false} PutUnique(a: Assoc, k: string, v: Value)
    requires UniqueKeys(a)
    ensures UniqueKeys(Put(a, k, v))
  {
    PutKeys(a, k, v);
    var p := Put(a, k, v);
    forall i, j | 0 <= i < j < |p| ensures p[i].0 != p[j].0 {
      assert Keys(p)[i] == p[i].0 && Keys(p)[j] == p[j].0;
      if k !in Keys(a) && j == |a| {
        assert Keys(p)[i] == Keys(a)[i];
      } else {
        assert Keys(p)[i] == Keys(a)[i] && Keys(p)[j] == Keys(a)[j];
      }
    }
  }

  /** Merging: a key of b takes b's value; every other key keeps a's. */
  lemma {:induction false} MergeLookup(a: Assoc, b: Assoc, k: string)
    requires UniqueKeys(b)
    ensures Lookup(Merge(a, b), k) == if k in Keys(b) then Lookup(b, k) else Lookup(a, k)
    decreases |b|
  {
    if b != [] {
      var a' := Put(a, b[0].0, b[0].1);
      assert UniqueKeys(b[1..]);
      MergeLookup(a', b[1..], k);
      PutLookup(a, b[0].0, b[0].1, k);
      assert Keys(b) == [b[0].0] + Keys(b[1..]);
      if k == b[0].0 {
        assert k !in Keys(b[1..]) by {
          forall i | 0 <= i < |b[1..]| ensures Keys(b[1..])[i] != k {
            assert b[1..][i] == b[i + 1];
          }
        }
      }
    }
  }

  /** Merging keeps the keys of a first and in their order. */
  lemma {:induction false} MergeKeepsOrder(a: Assoc, b: Assoc)
    ensures |Keys(a)| <= |Keys(Merge(a, b))|
    ensures Keys(Merge(a, b))[..|Keys(a)|] == Keys(a)
    decreases |b|
  {
    if b != [] {
      var a' := Put(a, b[0].0, b[0].1);
      PutKeys(a, b[0].0, b[0].1);
      MergeKeepsOrder(a', b[1..]);
      assert Keys(a')[..|Keys(a)|] == Keys(a);
    }
  }

  lemma {:induction false} MergeUnique(a: Assoc, b: Assoc)
    requires UniqueKeys(a)
    ensures UniqueKeys(Merge(a, b))
    decreases |b|
  {
    if b != [] {
      PutUnique(a, b[0].0, b[0].1);
      MergeUnique(Put(a, b[0].0, b[0].1), b[1..]);
    }
  }

  /** Filtering keeps exactly the entries whose value is truthy. */
  lemma {:induction false} FilterLookup(a: Assoc, k: string)
    requires UniqueKeys(a)
    ensures Lookup(Filter(a), k) == if Lookup(a, k).Some? && Truthy(Lookup(a, k).value) then Lookup(a, k) else None
  {
    if a != [] {
      assert UniqueKeys(a[1..]);
      FilterLookup(a[1..], k);
      if a[0].0 == k {
        assert Lookup(a[1..], k).None? by {
          forall i | 0 <= i < |a[1..]| ensures Keys(a[1..])[i] != k {
            assert a[1..][i] == a[i + 1];
          }
        }
      }
    }
  }

  lemma {:induction false} FilterAllTruthy(a: Assoc)
    ensures forall i :: 0 <= i < |Filter(a)| ==> Truthy(Filter(a)[i].1)
  {
    if a != [] {
      FilterAllTruthy(a[1..]);
    }
  }

  // ---------------------------------------------------------------------------
  // Strings

  /** trim()'s default character list: space, tab, newline, return, NUL, vertical tab. */
  const Whitespace: set<char> := {' ', '\t', '\n', '\r', '\0', '\U{B}'}

  function TrimLeft(s: string, cs: set<char>): (r: string)
    ensures |r| <= |s|
  {
    if s != [] && s[0] in cs then TrimLeft(s[1..], cs) else s
  }

  function TrimRight(s: string, cs: set<char>): (r: string)
    ensures |r| <= |s|
  {
    if s != [] && s[|s| - 1] in cs then TrimRight(s[..|s| - 1], cs) else s
  }

  /** ltrim: drops a prefix made of characters of cs, and stops at the first one that is not. */
  lemma {:induction false} TrimLeftSpec(s: string, cs: set<char>)
    ensures var r := TrimLeft(s, cs);
      |r| <= |s| && r == s[|s| - |r|..]
      && (r != [] ==> r[0] !in cs)
      && (forall i :: 0 <= i < |s| - |r| ==> s[i] in cs)
  {
    if s != [] && s[0] in cs {
      TrimLeftSpec(s[1..], cs);
      var r := TrimLeft(s, cs);
      forall i | 0 <= i < |s| - |r| ensures s[i] in cs {
        if i > 0 {
          assert s[i] == s[1..][i - 1];
        }
      }
    }
  }

  /** rtrim: drops a suffix made of characters of cs, and stops at the last one that is not. */
  lemma {:induction false} TrimRightSpec(s: string, cs: set<char>)
    ensures var r := TrimRight(s, cs);
      |r| <= |s| && r == s[..|r|]
      && (r != [] ==> r[|r| - 1] !in cs)
      && (forall i :: |r| <= i < |s| ==> s[i] in cs)
  {
    if s != [] && s[|s| - 1] in cs {
      var n := |s| - 1;
      TrimRightSpec(s[..n], cs);
      var r := TrimRight(s, cs);
      forall i | |r| <= i < |s| ensures s[i] in cs {
        if i < n {
          assert s[i] == s[..n][i];
        }
      }
    }
  }

  /** trim($s, $cs): strips every leading and trailing character that is in cs. */
  function Trim(s: string, cs: set<char>): string {
    TrimRight(TrimLeft(s, cs), cs)
  }

  /**
   * What trim() promises: the result is the slice s[i..j] of s, where every
   * character before i and from j on is in cs, and neither end of the result is.
   */
  lemma {:induction false} TrimSpec(s: string, cs: set<char>)
    ensures var i := |s| - |TrimLeft(s, cs)|; var j := i + |Trim(s, cs)|;
      j <= |s| && Trim(s, cs) == s[i..j]
      && (forall k :: 0 <= k < i ==> s[k] in cs)
      && (forall k :: j <= k < |s| ==> s[k] in cs)
    ensures Trim(s, cs) != [] ==> Trim(s, cs)[0] !in cs && Trim(s, cs)[|Trim(s, cs)| - 1] !in cs
  {
    var l := TrimLeft(s, cs);
    TrimLeftSpec(s, cs);
    var r := TrimRight(l, cs);
    TrimRightSpec(l, cs);
    var i := |s| - |l|;
    var j := i + |r|;
    assert r == s[i..j] by {
      assert l == s[i..];
      assert r == l[..|r|];
    }
    forall k | j <= k < |s| ensures s[k] in cs {
      assert s[k] == l[k - i];
    }
    if r != [] {
      assert r[0] == l[0];
    }
  }

  /** A string that neither starts nor ends with a character of cs is unchanged by trim. */
  lemma TrimNoop(s: string, cs: set<char>)
    requires s != [] ==> s[0] !in cs && s[|s| - 1] !in cs
    ensures Trim(s, cs) == s
  {
  }

  function StartsWith(s: string, prefix: string): bool {
    |prefix| <= |s| && s[..|prefix|] == prefix
  }

  /** implode($sep, $parts). */
  function Join(sep: string, parts: seq<string>): (r: string)
    ensures parts == [] ==> r == ""
    ensures |parts| == 1 ==> r == parts[0]
  {
    if parts == [] then ""
    else if |parts| == 1 then parts[0]
    else parts[0] + sep + Join(sep, parts[1..])
  }
}
