/** The list edits the reducers share, over any record type with a string key:
    append-if-absent, replace-first, upsert and remove-all. */
module Lists {
  import opened Types

  /** No two entries share a key. */
  ghost predicate UniqueKeys<T>(s: seq<T>, key: T -> string)
  {
    forall i, j :: 0 <= i < j < |s| ==> key(s[i]) != key(s[j])
  }

  /** `s.some(x => key(x) === id)`. */
  ghost predicate HasKey<T>(s: seq<T>, key: T -> string, id: string)
  {
    exists j :: 0 <= j < |s| && key(s[j]) == id
  }

  /** `if (s.findIndex(y => key(y) === key(x)) === -1) s.push(x)`. */
  function AppendIfAbsent<T>(s: seq<T>, key: T -> string, x: T): (r: seq<T>)
    ensures !HasKey(s, key, key(x)) ==> r == s + [x]
    ensures HasKey(s, key, key(x)) ==> r == s
    ensures HasKey(r, key, key(x))
  {
    var k := FirstIndex(s, key, key(x));
    if k == -1 then
      assert (s + [x])[|s|] == x;
      s + [x]
    else
      s
  }

  /** Appending only absent keys keeps keys unique. */
  lemma AppendIfAbsentKeepsUnique<T>(s: seq<T>, key: T -> string, x: T)
    requires UniqueKeys(s, key)
    ensures UniqueKeys(AppendIfAbsent(s, key, x), key)
  {
    var r := AppendIfAbsent(s, key, x);
    if !HasKey(s, key, key(x)) {
      forall i, j | 0 <= i < j < |r| ensures key(r[i]) != key(r[j]) {
        if j == |s| {
          assert r[i] == s[i];
        } else {
          assert r[i] == s[i] && r[j] == s[j];
        }
      }
    }
  }

  /** Adding the same key twice is the same as adding it once. */
  lemma AppendIfAbsentIdempotent<T>(s: seq<T>, key: T -> string, x: T)
    ensures AppendIfAbsent(AppendIfAbsent(s, key, x), key, x) == AppendIfAbsent(s, key, x)
  {
  }

  /** `i = s.findIndex(y => key(y) === key(x)); if (i !== -1) s[i] = x`. */
  function ReplaceFirst<T>(s: seq<T>, key: T -> string, x: T): (r: seq<T>)
    ensures |r| == |s|
    ensures !HasKey(s, key, key(x)) ==> r == s
    ensures HasKey(s, key, key(x)) ==>
      exists k :: 0 <= k < |s| && key(s[k]) == key(x) && (forall j :: 0 <= j < k ==> key(s[j]) != key(x))
                  && r == s[k := x]
  {
    var k := FirstIndex(s, key, key(x));
    if k == -1 then s else s[k := x]
  }

  /** Replacing never changes which keys are present, so it keeps keys unique. */
  lemma ReplaceFirstKeepsKeys<T>(s: seq<T>, key: T -> string, x: T)
    ensures forall j :: 0 <= j < |s| ==> key(ReplaceFirst(s, key, x)[j]) == key(s[j])
    ensures UniqueKeys(s, key) ==> UniqueKeys(ReplaceFirst(s, key, x), key)
  {
    var k := FirstIndex(s, key, key(x));
    var r := ReplaceFirst(s, key, x);
    assert forall j :: 0 <= j < |s| ==> key(r[j]) == key(s[j]);
  }

  /** The save handlers: replace the first entry with the same key, or append. */
  function Upsert<T>(s: seq<T>, key: T -> string, x: T): (r: seq<T>)
    ensures x in r
    ensures |s| <= |r| <= |s| + 1
    ensures HasKey(s, key, key(x)) ==> r == ReplaceFirst(s, key, x)
    ensures !HasKey(s, key, key(x)) ==> r == s + [x]
  {
    var k := FirstIndex(s, key, key(x));
    if k != -1 then
      assert s[k := x][k] == x;
      s[k := x]
    else
      assert (s + [x])[|s|] == x;
      s + [x]
  }

  /** After an upsert, looking the key up finds exactly the saved entry. */
  lemma {:induction false} UpsertThenFind<T>(s: seq<T>, key: T -> string, x: T)
    ensures var r := Upsert(s, key, x);
      var k := FirstIndex(r, key, key(x));
      0 <= k < |r| && r[k] == x
  {
    var r := Upsert(s, key, x);
    var k0 := FirstIndex(s, key, key(x));
    if k0 == -1 {
      assert r[|s|] == x;
      assert forall j :: 0 <= j < |s| ==> key(r[j]) != key(x) by {
        assert forall j :: 0 <= j < |s| ==> r[j] == s[j];
      }
      assert FirstIndex(r, key, key(x)) == |s|;
    } else {
      assert r[k0] == x;
      assert forall j :: 0 <= j < k0 ==> key(r[j]) != key(x) by {
        assert forall j :: 0 <= j < k0 ==> r[j] == s[j];
      }
      assert FirstIndex(r, key, key(x)) == k0;
    }
  }

  /** Saving the same entry twice is the same as saving it once. */
  lemma {:induction false} UpsertIdempotent<T>(s: seq<T>, key: T -> string, x: T)
    ensures Upsert(Upsert(s, key, x), key, x) == Upsert(s, key, x)
  {
    var r := Upsert(s, key, x);
    UpsertThenFind(s, key, x);
    var k := FirstIndex(r, key, key(x));
    assert r[k := x] == r;
  }

  /** An upsert keeps keys unique. */
  lemma UpsertKeepsUnique<T>(s: seq<T>, key: T -> string, x: T)
    requires UniqueKeys(s, key)
    ensures UniqueKeys(Upsert(s, key, x), key)
  {
    if HasKey(s, key, key(x)) {
      ReplaceFirstKeepsKeys(s, key, x);
    } else {
      AppendIfAbsentKeepsUnique(s, key, x);
    }
  }

  /** `s.filter(y => key(y) !== id)`. */
  function RemoveAll<T>(s: seq<T>, key: T -> string, id: string): (r: seq<T>)
    ensures |r| <= |s|
    ensures forall k :: 0 <= k < |r| ==> r[k] in s && key(r[k]) != id
    ensures forall j :: 0 <= j < |s| && key(s[j]) != id ==> s[j] in r
  {
    if |s| == 0 then []
    else
      var rest := RemoveAll(s[1..], key, id);
      assert forall j :: 1 <= j < |s| ==> s[j] == s[1..][j - 1];
      if key(s[0]) != id then [s[0]] + rest else rest
  }

  /** The filter keeps the survivors in their original order: it distributes over concatenation. */
  lemma {:induction false} RemoveAllDistributes<T>(a: seq<T>, b: seq<T>, key: T -> string, id: string)
    ensures RemoveAll(a + b, key, id) == RemoveAll(a, key, id) + RemoveAll(b, key, id)
  {
    if |a| == 0 {
      assert a + b == b;
    } else {
      assert (a + b)[1..] == a[1..] + b;
      RemoveAllDistributes(a[1..], b, key, id);
    }
  }

  /** Removing a key that is absent changes nothing. */
  lemma {:induction false} RemoveAllAbsent<T>(s: seq<T>, key: T -> string, id: string)
    requires !HasKey(s, key, id)
    ensures RemoveAll(s, key, id) == s
  {
    if |s| > 0 {
      assert !HasKey(s[1..], key, id) by {
        assert forall j :: 0 <= j < |s| - 1 ==> s[1..][j] == s[j + 1];
      }
      RemoveAllAbsent(s[1..], key, id);
      assert key(s[0]) != id;
      assert [s[0]] + s[1..] == s;
    }
  }

  /** Removing twice is removing once. */
  lemma RemoveAllIdempotent<T>(s: seq<T>, key: T -> string, id: string)
    ensures RemoveAll(RemoveAll(s, key, id), key, id) == RemoveAll(s, key, id)
  {
    var r := RemoveAll(s, key, id);
    assert !HasKey(r, key, id) by {
      assert forall j :: 0 <= j < |r| ==> r[j] in r;
    }
    RemoveAllAbsent(r, key, id);
  }
}
