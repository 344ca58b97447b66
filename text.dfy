/** The string and list primitives of PHP that the service relies on:
    `trim`, `substr($s, 0, n)`, `array_values(array_unique(..))`,
    `array_values(array_filter(.., fn ($id) => $id !== $x))` and the
    "append unless `in_array`" idiom. */
module Text {

  import opened Wrappers

  /** No element occurs twice. */
  ghost predicate NoDup<T>(s: seq<T>) {
    forall i, j :: 0 <= i < j < |s| ==> s[i] != s[j]
  }

  /** The characters PHP's `trim` strips by default: space, tab, line feed,
      carriage return, NUL and vertical tab. */
  predicate IsBlank(c: char) {
    c == ' ' || c == '\t' || c == '\n' || c == '\r' || c == '\0' || c == '\U{000B}'
  }

  /** A string `trim` leaves as it is. */
  predicate Trimmed(s: string) {
    s == [] || (!IsBlank(s[0]) && !IsBlank(s[|s| - 1]))
  }

  function TrimLeft(s: string): (r: string)
    ensures |r| <= |s| && r == s[|s| - |r|..]
    ensures r == [] || !IsBlank(r[0])
    ensures forall i :: 0 <= i < |s| - |r| ==> IsBlank(s[i])
    ensures s == [] || !IsBlank(s[0]) ==> r == s
  {
    if s != [] && IsBlank(s[0]) then
      var t := s[1..];
      var r := TrimLeft(t);
      assert forall i :: 0 < i < |s| - |r| ==> s[i] == t[i - 1];
      r
    else s
  }

  function TrimRight(s: string): (r: string)
    ensures |r| <= |s| && r == s[..|r|]
    ensures r == [] || !IsBlank(r[|r| - 1])
    ensures forall i :: |r| <= i < |s| ==> IsBlank(s[i])
    ensures s == [] || !IsBlank(s[|s| - 1]) ==> r == s
  {
    if s != [] && IsBlank(s[|s| - 1]) then
      var t := s[..|s| - 1];
      var r := TrimRight(t);
      assert forall i :: |r| <= i < |t| ==> s[i] == t[i];
      r
    else s
  }

  /** PHP's `trim($s)`: the longest infix of `s` that neither starts nor ends
      with a blank; blank-only strings become empty. */
  function Trim(s: string): (r: string)
    ensures Trimmed(r)
    ensures Trimmed(s) ==> r == s
    ensures r == [] <==> forall i :: 0 <= i < |s| ==> IsBlank(s[i])
  {
    var l := TrimLeft(s);
    var r := TrimRight(l);
    assert r != [] ==> !IsBlank(r[0]) by {
      if r != [] { assert r[0] == l[0]; }
    }
    r
  }

  /** What `trim` removes: the result is a piece of the input, and everything
      before and after that piece is blank. */
  lemma TrimContent(s: string)
    ensures var r := Trim(s);
            exists i :: 0 <= i <= |s| && r <= s[i..]
                        && (forall k :: 0 <= k < i ==> IsBlank(s[k]))
                        && (forall k :: i + |r| <= k < |s| ==> IsBlank(s[k]))
  {
    var l := TrimLeft(s);
    var r := TrimRight(l);
    var i := |s| - |l|;
    assert r <= s[i..];
    forall k | i + |r| <= k < |s| ensures IsBlank(s[k]) { assert s[k] == l[k - i]; }
  }

  /** Trimming twice is trimming once. */
  lemma TrimIdempotent(s: string)
    ensures Trim(Trim(s)) == Trim(s)
  {
  }

  /** PHP's `substr($s, 0, n)`: the first `n` characters, or all of them. */
  function Prefix(s: string, n: nat): (r: string)
    ensures |r| == if |s| < n then |s| else n
    ensures r <= s
  {
    if |s| <= n then s else s[..n]
  }

  /** `array_values(array_unique($xs))`: the first occurrence of every element,
      in the order of first occurrence. */
  function Dedup<T(==, !new)>(s: seq<T>): (r: seq<T>)
    ensures NoDup(r)
    ensures forall x :: x in r <==> x in s
    ensures NoDup(s) ==> r == s
    ensures |r| <= |s|
  {
    if s == [] then []
    else
      var p := Dedup(s[..|s| - 1]);
      var x := s[|s| - 1];
      if x in p then p else p + [x]
  }

  /** Extending the input by one element extends the result by it exactly when
      it is new: the first occurrence of each element is kept, in order. */
  lemma {:induction false} DedupSnoc<T(!new)>(s: seq<T>, x: T)
    ensures Dedup(s + [x]) == if x in s then Dedup(s) else Dedup(s) + [x]
  {
    assert (s + [x])[..|s|] == s;
  }

  /** `array_values(array_filter($xs, fn ($id) => $id !== $x))`: `s` with every
      occurrence of `x` dropped, the rest in their order. */
  function Without<T(==, !new)>(s: seq<T>, x: T): (r: seq<T>)
    ensures x !in r
    ensures forall y :: y in r <==> y in s && y != x
    ensures x !in s ==> r == s
    ensures NoDup(s) ==> NoDup(r)
    ensures |r| <= |s|
  {
    if s == [] then []
    else
      var p := Without(s[..|s| - 1], x);
      var y := s[|s| - 1];
      assert NoDup(s) ==> y !in s[..|s| - 1] by {
        if NoDup(s) {
          var init := s[..|s| - 1];
          forall j | 0 <= j < |init| ensures init[j] != y { assert s[j] != s[|s| - 1]; }
        }
      }
      if y == x then p else p + [y]
  }

  /** Dropping `x` from a concatenation drops it from each part. */
  lemma {:induction false} WithoutAppend<T(!new)>(s: seq<T>, t: seq<T>, x: T)
    ensures Without(s + t, x) == Without(s, x) + Without(t, x)
    decreases |t|
  {
    if t == [] {
      assert s + t == s;
    } else {
      var t' := t[..|t| - 1];
      assert (s + t)[..|s + t| - 1] == s + t';
      assert (s + t)[|s + t| - 1] == t[|t| - 1];
      WithoutAppend(s, t', x);
    }
  }

  /** In a list without duplicates, dropping the element at index `i` leaves
      every other element in its order. */
  lemma {:induction false} WithoutRemovesOne<T(!new)>(s: seq<T>, i: nat)
    requires NoDup(s) && i < |s|
    ensures Without(s, s[i]) == s[..i] + s[i + 1..]
  {
    NotInRest(s, i);
    assert s == s[..i] + ([s[i]] + s[i + 1..]);
    WithoutAroundAbsent(s[..i], s[i + 1..], s[i]);
  }

  lemma {:induction false} WithoutAroundAbsent<T(!new)>(pre: seq<T>, post: seq<T>, x: T)
    requires x !in pre && x !in post
    ensures Without(pre + ([x] + post), x) == pre + post
  {
    WithoutAppend(pre, [x] + post, x);
    WithoutAppend([x], post, x);
    WithoutSingleton(x);
    assert Without([x] + post, x) == post by {
      assert Without(post, x) == post;
      assert [] + post == post;
    }
    assert Without(pre, x) == pre;
  }

  /** Dropping `x` from `[x]` leaves nothing. */
  lemma WithoutSingleton<T(!new)>(x: T)
    ensures Without([x], x) == []
  {
    assert [x][..0] == [];
  }

  /** Dropping a just-appended `x` that was not listed gives back the list. */
  lemma {:induction false} WithoutLast<T(!new)>(s: seq<T>, x: T)
    requires x !in s
    ensures Without(s + [x], x) == s
  {
    WithoutAppend(s, [x], x);
    WithoutSingleton(x);
    assert s + [] == s;
  }

  lemma NotInRest<T>(s: seq<T>, i: nat)
    requires NoDup(s) && i < |s|
    ensures s[i] !in s[..i] && s[i] !in s[i + 1..]
  {
    var pre, post := s[..i], s[i + 1..];
    forall j | 0 <= j < |pre| ensures pre[j] != s[i] { assert pre[j] == s[j]; }
    forall j | 0 <= j < |post| ensures post[j] != s[i] { assert post[j] == s[i + 1 + j]; }
  }

  /** `if (!in_array($x, $xs, true)) { $xs[] = $x; }` */
  function AddOnce<T(==, !new)>(s: seq<T>, x: T): (r: seq<T>)
    ensures forall y :: y in r <==> y in s || y == x
    ensures x in s ==> r == s
    ensures x !in s ==> r == s + [x]
    ensures NoDup(s) ==> NoDup(r)
  {
    if x in s then s else s + [x]
  }

  /** Adding twice is adding once. */
  lemma AddOnceIdempotent<T(!new)>(s: seq<T>, x: T)
    ensures AddOnce(AddOnce(s, x), x) == AddOnce(s, x)
  {
  }

  /** The first element of `ids` that `present` rejects, if any: the id the
      service's `validate*Ids` loops throw on. */
  function FirstMissing<K(!new)>(ids: seq<K>, present: set<K>): (r: Option<K>)
    ensures r.None? <==> forall k :: k in ids ==> k in present
    ensures r.Some? ==> exists i :: 0 <= i < |ids| && ids[i] == r.value && r.value !in present
                                    && forall j :: 0 <= j < i ==> ids[j] in present
  {
    if ids == [] then None
    else if ids[0] !in present then Some(ids[0])
    else
      var r := FirstMissing(ids[1..], present);
      assert r.Some? ==> exists i :: 0 <= i < |ids| && ids[i] == r.value && r.value !in present
                                     && forall j :: 0 <= j < i ==> ids[j] in present by {
        if r.Some? {
          var i :| 0 <= i < |ids[1..]| && ids[1..][i] == r.value && r.value !in present
                   && forall j :: 0 <= j < i ==> ids[1..][j] in present;
          assert ids[i + 1] == r.value;
          assert forall j :: 0 <= j < i + 1 ==> ids[j] in present by {
            forall j | 0 <= j < i + 1 ensures ids[j] in present {
              if j > 0 { assert ids[j] == ids[1..][j - 1]; }
            }
          }
        }
      }
      assert forall k :: k in ids ==> k == ids[0] || k in ids[1..];
      r
  }

  /** Extending the list by one element: the first missing id stays the same
      when there was one, and otherwise is the new element when it is missing. */
  lemma {:induction false} FirstMissingSnoc<K(!new)>(ids: seq<K>, x: K, present: set<K>)
    ensures FirstMissing(ids + [x], present)
            == if FirstMissing(ids, present).Some? then FirstMissing(ids, present)
               else if x in present then None else Some(x)
  {
    if ids != [] {
      assert (ids + [x])[0] == ids[0] && (ids + [x])[1..] == ids[1..] + [x];
      FirstMissingSnoc(ids[1..], x, present);
    }
  }

  /** Removing repeated ids does not change which id is missing first, so
      validating the de-duplicated list reports the first missing id of the
      list as supplied. */
  lemma {:induction false} FirstMissingDedup<K(!new)>(ids: seq<K>, present: set<K>)
    ensures FirstMissing(Dedup(ids), present) == FirstMissing(ids, present)
  {
    if ids != [] {
      var s, x := ids[..|ids| - 1], ids[|ids| - 1];
      assert ids == s + [x];
      FirstMissingDedup(s, present);
      DedupSnoc(s, x);
      FirstMissingSnoc(s, x, present);
      if x !in s {
        FirstMissingSnoc(Dedup(s), x, present);
      } else if FirstMissing(s, present).None? {
        assert x in present;
      }
    }
  }
}
