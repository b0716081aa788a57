/** Optional values: Python's `None`. */
module Options {
  datatype Option<+T> = None | Some(value: T)
}

/** String order, comprehensions and the stable sort the services lean on. */
module Lists {
  import opened Options

  /** Python's `<=` on strings: code point by code point, a prefix comes first. */
  predicate TextLe(a: string, b: string)
  {
    a == "" || (b != "" && (a[0] < b[0] || (a[0] == b[0] && TextLe(a[1..], b[1..]))))
  }

  lemma {:induction false} TextLeTotal(a: string, b: string)
    ensures TextLe(a, b) || TextLe(b, a)
    ensures TextLe(a, b) && TextLe(b, a) <==> a == b
  {
    if a != "" && b != "" && a[0] == b[0] {
      TextLeTotal(a[1..], b[1..]);
      assert a == [a[0]] + a[1..] && b == [b[0]] + b[1..];
    }
  }

  lemma {:induction false} TextLeTransitive(a: string, b: string, c: string)
    requires TextLe(a, b) && TextLe(b, c)
    ensures TextLe(a, c)
  {
    if a != "" && a[0] == b[0] && b[0] == c[0] {
      TextLeTransitive(a[1..], b[1..], c[1..]);
    }
  }

  /** `needle in text` for strings. */
  predicate Contains(text: string, needle: string)
  {
    needle <= text || (text != "" && Contains(text[1..], needle))
  }

  /** `text.upper()` and `text.lower()` on ASCII letters. */
  function Upper(text: string): string
  {
    Map(text, (c: char) => if 'a' <= c <= 'z' then (c as int - 32) as char else c)
  }

  function Lower(text: string): string
  {
    Map(text, (c: char) => if 'A' <= c <= 'Z' then (c as int + 32) as char else c)
  }

  /** The same letter, in either case. */
  predicate SameLetter(c: char, capital: char)
  {
    c == capital || ('A' <= capital <= 'Z' && c as int == capital as int + 32)
  }

  predicate Spells(text: string, word: string)
  {
    |text| == |word| && forall i :: 0 <= i < |word| ==> SameLetter(text[i], word[i])
  }

  predicate Capital(word: string)
  {
    forall i :: 0 <= i < |word| ==> 'A' <= word[i] <= 'Z' || word[i] == '_'
  }

  /** Comparing after `upper()` with a capital word, or after `lower()` with the same word in
      small letters, is comparing letter by letter in either case. */
  lemma CaseDoesNotMatter(text: string, word: string)
    requires Capital(word)
    ensures Upper(text) == word <==> Spells(text, word)
    ensures Lower(text) == Lower(word) <==> Spells(text, word)
  {
  }

  /** `[x for x in s if keep(x)]`. */
  function Filter<T>(s: seq<T>, keep: T -> bool): seq<T>
  {
    if s == [] then [] else (if keep(s[0]) then [s[0]] else []) + Filter(s[1..], keep)
  }

  /** `[f(x) for x in s]`. */
  function Map<T, U>(s: seq<T>, f: T -> U): (r: seq<U>)
    ensures |r| == |s|
    ensures forall i :: 0 <= i < |s| ==> r[i] == f(s[i])
  {
    seq(|s|, i requires 0 <= i < |s| => f(s[i]))
  }

  /** `s[:limit]` with `None` for no limit. */
  function Take<T>(s: seq<T>, limit: Option<nat>): seq<T>
  {
    if limit.Some? && limit.value < |s| then s[..limit.value] else s
  }

  lemma {:induction false} FilterAppend<T>(a: seq<T>, b: seq<T>, keep: T -> bool)
    ensures Filter(a + b, keep) == Filter(a, keep) + Filter(b, keep)
  {
    if a == [] {
      assert a + b == b;
    } else {
      FilterAppend(a[1..], b, keep);
      var both := a + b;
      var head := if keep(a[0]) then [a[0]] else [];
      assert both[0] == a[0] && both[1..] == a[1..] + b;
      ConcatAssociates(head, Filter(a[1..], keep), Filter(b, keep));
    }
  }

  lemma ConcatAssociates<T>(a: seq<T>, b: seq<T>, c: seq<T>)
    ensures (a + b) + c == a + (b + c)
  {
  }

  lemma {:induction false} FilterMembers<T>(s: seq<T>, keep: T -> bool)
    ensures forall x :: x in Filter(s, keep) <==> x in s && keep(x)
    ensures |Filter(s, keep)| <= |s|
  {
    if s != [] {
      FilterMembers(s[1..], keep);
      assert s == [s[0]] + s[1..];
    }
  }

  /** A filter keeps as many elements as there are places that hold one to keep. */
  lemma {:induction false} FilterSize<T>(s: seq<T>, keep: T -> bool)
    ensures |Filter(s, keep)| == |Places(s, keep)|
  {
    if s != [] {
      var n := |s| - 1;
      FilterSize(s[..n], keep);
      FilterAppend(s[..n], [s[n]], keep);
      assert s == s[..n] + [s[n]] && [s[n]][1..] == [];
      assert Places(s, keep) == Places(s[..n], keep) + if keep(s[n]) then {n} else {};
    }
  }

  function Places<T>(s: seq<T>, keep: T -> bool): set<int>
  {
    set i | 0 <= i < |s| && keep(s[i])
  }

  lemma {:induction false} FilterSame<T>(s: seq<T>, p: T -> bool, q: T -> bool)
    requires forall x :: x in s ==> p(x) == q(x)
    ensures Filter(s, p) == Filter(s, q)
  {
    if s != [] {
      FilterSame(s[1..], p, q);
    }
  }

  lemma {:induction false} FilterTwice<T>(s: seq<T>, p: T -> bool, q: T -> bool, both: T -> bool)
    requires forall x :: x in s ==> both(x) == (p(x) && q(x))
    ensures Filter(Filter(s, p), q) == Filter(s, both)
  {
    if s != [] {
      FilterTwice(s[1..], p, q, both);
      FilterAppend(if p(s[0]) then [s[0]] else [], Filter(s[1..], p), q);
    }
  }

  /** The order in which two filters apply does not matter. */
  lemma FilterSwap<T>(s: seq<T>, p: T -> bool, q: T -> bool)
    ensures Filter(Filter(s, p), q) == Filter(Filter(s, q), p)
  {
    var both := x => p(x) && q(x);
    FilterTwice(s, p, q, both);
    FilterTwice(s, q, p, both);
  }

  /** One optional criterion more. */
  lemma FilterStage<T>(s: seq<T>, given: bool, p: T -> bool, q: T -> bool, both: T -> bool)
    requires forall x :: x in s ==> both(x) == (p(x) && (given ==> q(x)))
    ensures (if given then Filter(Filter(s, p), q) else Filter(s, p)) == Filter(s, both)
  {
    if given {
      FilterTwice(s, p, q, both);
    } else {
      FilterSame(s, p, both);
    }
  }

  lemma {:induction false} FilterAll<T>(s: seq<T>, keep: T -> bool)
    requires forall x :: x in s ==> keep(x)
    ensures Filter(s, keep) == s
  {
    if s != [] {
      FilterAll(s[1..], keep);
      assert s == [s[0]] + s[1..];
    }
  }

  lemma {:induction false} FilterNone<T>(s: seq<T>, keep: T -> bool)
    requires forall x :: x in s ==> !keep(x)
    ensures Filter(s, keep) == []
  {
    if s != [] {
      FilterNone(s[1..], keep);
    }
  }

  /** `[f(x) for x in s if f(x) is not None]`. */
  function Gather<T, U>(s: seq<T>, f: T -> Option<U>): seq<U>
  {
    if s == [] then [] else (if f(s[0]).Some? then [f(s[0]).value] else []) + Gather(s[1..], f)
  }

  lemma {:induction false} GatherSame<T, U>(s: seq<T>, s': seq<T>, f: T -> Option<U>, f': T -> Option<U>)
    requires |s| == |s'| && forall i :: 0 <= i < |s| ==> f(s[i]) == f'(s'[i])
    ensures Gather(s, f) == Gather(s', f')
  {
    if s != [] {
      GatherSame(s[1..], s'[1..], f, f');
    }
  }

  /** Everything gathered comes from somewhere. */
  lemma {:induction false} GatherSource<T, U>(s: seq<T>, f: T -> Option<U>, u: U) returns (i: nat)
    requires u in Gather(s, f)
    ensures i < |s| && f(s[i]) == Some(u)
  {
    if f(s[0]) == Some(u) {
      i := 0;
    } else {
      var tail := GatherSource(s[1..], f, u);
      i := tail + 1;
    }
  }

  lemma {:induction false} GatherContains<T, U>(s: seq<T>, f: T -> Option<U>, i: nat)
    requires i < |s| && f(s[i]).Some?
    ensures f(s[i]).value in Gather(s, f)
  {
    if i > 0 {
      GatherContains(s[1..], f, i - 1);
    }
  }

  /** Dropping elements that contribute nothing changes nothing. */
  lemma {:induction false} GatherFiltered<T, U>(s: seq<T>, keep: T -> bool, f: T -> Option<U>, f': T -> Option<U>)
    requires forall x :: x in s ==> f'(x) == if keep(x) then f(x) else None
    ensures Gather(Filter(s, keep), f) == Gather(s, f')
  {
    if s != [] {
      GatherFiltered(s[1..], keep, f, f');
      assert Filter(s, keep) == (if keep(s[0]) then [s[0]] else []) + Filter(s[1..], keep);
      if keep(s[0]) {
        assert Filter(s, keep)[0] == s[0] && Filter(s, keep)[1..] == Filter(s[1..], keep);
      } else {
        assert Filter(s, keep) == Filter(s[1..], keep);
      }
    }
  }

  /** Keeping only some of what was gathered. */
  lemma {:induction false} FilterGathered<T, U>(s: seq<T>, f: T -> Option<U>, keep: U -> bool, f': T -> Option<U>)
    requires forall x :: x in s ==> f'(x) == if f(x).Some? && keep(f(x).value) then f(x) else None
    ensures Filter(Gather(s, f), keep) == Gather(s, f')
  {
    if s != [] {
      FilterGathered(s[1..], f, keep, f');
      FilterAppend(if f(s[0]).Some? then [f(s[0]).value] else [], Gather(s[1..], f), keep);
    }
  }

  lemma {:induction false} GatherLength<T, U>(s: seq<T>, f: T -> Option<U>, keep: T -> bool)
    requires forall x :: x in s ==> (keep(x) <==> f(x).Some?)
    ensures |Gather(s, f)| == |Filter(s, keep)|
  {
    if s != [] {
      GatherLength(s[1..], f, keep);
    }
  }

  /** When one element stops contributing, exactly its contribution goes. */
  lemma {:induction false} GatherDrops<T, U>(s: seq<T>, s': seq<T>, f: T -> Option<U>, f': T -> Option<U>, k: nat,
                                             keep: U -> bool)
    requires k < |s| == |s'| && f'(s'[k]).None?
    requires forall i :: 0 <= i < |s| && i != k ==> f(s[i]) == f'(s'[i])
    requires forall i :: 0 <= i < |s| && f(s[i]).Some? ==> (keep(f(s[i]).value) <==> i != k)
    ensures Gather(s', f') == Filter(Gather(s, f), keep)
  {
    var head := if f(s[0]).Some? then [f(s[0]).value] else [];
    FilterAppend(head, Gather(s[1..], f), keep);
    if k == 0 {
      GatherSame(s[1..], s'[1..], f, f');
      forall u | u in Gather(s[1..], f) ensures keep(u) {
        var i := GatherSource(s[1..], f, u);
        assert s[1..][i] == s[i + 1];
      }
      FilterAll(Gather(s[1..], f), keep);
    } else {
      GatherDrops(s[1..], s'[1..], f, f', k - 1, keep);
    }
  }

  // ---- sorting -------------------------------------------------------------

  ghost predicate TotalPreorder<T(!new)>(le: (T, T) -> bool)
  {
    && (forall x, y :: le(x, y) || le(y, x))
    && (forall x, y, z :: le(x, y) && le(y, z) ==> le(x, z))
  }

  ghost predicate Sorted<T>(s: seq<T>, le: (T, T) -> bool)
  {
    forall i, j :: 0 <= i < j < |s| ==> le(s[i], s[j])
  }

  function Insert<T>(x: T, s: seq<T>, le: (T, T) -> bool): seq<T>
  {
    if s == [] || le(x, s[0]) then [x] + s else [s[0]] + Insert(x, s[1..], le)
  }

  /** `sorted(s, key=...)`: the stable sort. A `reverse=True` sort is this one
      with the order turned round, which keeps equal elements in place too. */
  function Sort<T>(s: seq<T>, le: (T, T) -> bool): seq<T>
  {
    if s == [] then [] else Insert(s[0], Sort(s[1..], le), le)
  }

  lemma {:induction false} InsertSorted<T(!new)>(x: T, s: seq<T>, le: (T, T) -> bool)
    requires TotalPreorder(le) && Sorted(s, le)
    ensures Sorted(Insert(x, s, le), le)
    ensures multiset(Insert(x, s, le)) == multiset{x} + multiset(s)
  {
    if s == [] || le(x, s[0]) {
      forall i, j | 0 <= i < j < |s| + 1 ensures le(([x] + s)[i], ([x] + s)[j]) {
        if i == 0 && j > 1 { assert le(x, s[0]) && le(s[0], s[j - 1]); }
      }
    } else {
      InsertSorted(x, s[1..], le);
      var rest := Insert(x, s[1..], le);
      assert s == [s[0]] + s[1..];
      forall j | 0 <= j < |rest| ensures le(s[0], rest[j]) {
        assert rest[j] in multiset(rest);
        assert rest[j] == x || rest[j] in s[1..];
      }
    }
  }

  /** The sort returns the same elements in order. */
  lemma {:induction false} SortSorts<T(!new)>(s: seq<T>, le: (T, T) -> bool)
    requires TotalPreorder(le)
    ensures Sorted(Sort(s, le), le)
    ensures multiset(Sort(s, le)) == multiset(s)
    ensures |Sort(s, le)| == |s|
    ensures forall x :: x in Sort(s, le) <==> x in s
  {
    if s != [] {
      SortSorts(s[1..], le);
      InsertSorted(s[0], Sort(s[1..], le), le);
      assert s == [s[0]] + s[1..];
    }
    assert |multiset(Sort(s, le))| == |multiset(s)|;
    forall x ensures x in Sort(s, le) <==> x in s {
      assert x in Sort(s, le) <==> x in multiset(Sort(s, le));
    }
  }

  /** A list that is in order stays as it is. */
  lemma {:induction false} SortOfSorted<T>(s: seq<T>, le: (T, T) -> bool)
    requires Sorted(s, le)
    ensures Sort(s, le) == s
  {
    if s != [] {
      SortOfSorted(s[1..], le);
      assert s == [s[0]] + s[1..];
      assert |s| > 1 ==> le(s[0], s[1]);
    }
  }

  lemma {:induction false} InsertFilter<T(!new)>(x: T, s: seq<T>, le: (T, T) -> bool, keep: T -> bool)
    requires TotalPreorder(le) && Sorted(s, le)
    ensures Filter(Insert(x, s, le), keep)
         == if keep(x) then Insert(x, Filter(s, keep), le) else Filter(s, keep)
  {
    if s == [] {
    } else if le(x, s[0]) {
      assert ([x] + s)[1..] == s;
      FilterMembers(s, keep);
      if Filter(s, keep) != [] {
        assert Filter(s, keep)[0] in s;
      }
    } else {
      var rest := Insert(x, s[1..], le);
      InsertFilter(x, s[1..], le, keep);
      assert ([s[0]] + rest)[1..] == rest;
      if keep(s[0]) {
        assert ([s[0]] + Filter(s[1..], keep))[1..] == Filter(s[1..], keep);
      } else if keep(x) {
        assert Filter(s, keep) == Filter(s[1..], keep);
      }
    }
  }

  /** Stability: filtering and sorting commute. */
  lemma {:induction false} SortFilter<T(!new)>(s: seq<T>, le: (T, T) -> bool, keep: T -> bool)
    requires TotalPreorder(le)
    ensures Filter(Sort(s, le), keep) == Sort(Filter(s, keep), le)
  {
    if s != [] {
      SortSorts(s[1..], le);
      SortFilter(s[1..], le, keep);
      InsertFilter(s[0], Sort(s[1..], le), le, keep);
      if keep(s[0]) {
        assert Filter(s, keep)[1..] == Filter(s[1..], keep);
      } else {
        assert Filter(s, keep) == Filter(s[1..], keep);
      }
    }
  }

  // ---- lists without repetition ----------------------------------------------

  predicate NoRepeats<T(==)>(s: seq<T>)
  {
    forall i, j :: 0 <= i < j < |s| ==> s[i] != s[j]
  }

  lemma {:induction false} NoRepeatsByCount<T>(s: seq<T>)
    ensures NoRepeats(s) <==> forall x :: multiset(s)[x] <= 1
  {
    if s != [] {
      var rest := s[1..];
      NoRepeatsByCount(rest);
      assert s == [s[0]] + rest;
      assert multiset(s) == multiset{s[0]} + multiset(rest);
      if NoRepeats(s) {
        assert s[0] !in rest;
        forall i, j | 0 <= i < j < |rest| ensures rest[i] != rest[j] {
          assert s[i + 1] != s[j + 1];
        }
      }
      if forall x :: multiset(s)[x] <= 1 {
        forall x ensures multiset(rest)[x] <= 1 {
          assert multiset(s)[x] <= 1;
        }
        assert multiset(s)[s[0]] <= 1;
        assert s[0] !in multiset(rest);
      }
    }
  }

  lemma SortKeepsNoRepeats<T(!new)>(s: seq<T>, le: (T, T) -> bool)
    requires TotalPreorder(le) && NoRepeats(s)
    ensures NoRepeats(Sort(s, le))
  {
    SortSorts(s, le);
    NoRepeatsByCount(s);
    NoRepeatsByCount(Sort(s, le));
  }

  /** Different elements gather different things. */
  lemma {:induction false} GatherNoRepeats<T, U>(s: seq<T>, f: T -> Option<U>)
    requires forall i, j :: 0 <= i < j < |s| && f(s[i]).Some? && f(s[j]).Some? ==> f(s[i]) != f(s[j])
    ensures NoRepeats(Gather(s, f))
  {
    if s != [] {
      var rest := Gather(s[1..], f);
      forall i, j | 0 <= i < j < |s[1..]| && f(s[1..][i]).Some? && f(s[1..][j]).Some?
        ensures f(s[1..][i]) != f(s[1..][j])
      {
        assert s[1..][i] == s[i + 1] && s[1..][j] == s[j + 1];
      }
      GatherNoRepeats(s[1..], f);
      if f(s[0]).Some? && f(s[0]).value in rest {
        var k := GatherSource(s[1..], f, f(s[0]).value);
        assert false;
      }
      forall i, j | 0 <= i < j < |Gather(s, f)| ensures Gather(s, f)[i] != Gather(s, f)[j] {
        if f(s[0]).Some? {
          assert Gather(s, f)[j] == rest[j - 1];
          if i > 0 { assert Gather(s, f)[i] == rest[i - 1]; }
        } else {
          assert Gather(s, f) == rest;
        }
      }
    }
  }

  /** A list without repetition has as many elements as its set. */
  lemma {:induction false} NoRepeatsSize<T>(s: seq<T>)
    ensures |set x | x in s| <= |s|
    ensures NoRepeats(s) ==> |set x | x in s| == |s|
  {
    if s != [] {
      var rest := s[1..];
      NoRepeatsSize(rest);
      assert s == [s[0]] + rest;
      assert (set x | x in s) == {s[0]} + set x | x in rest;
      if NoRepeats(s) {
        forall i, j | 0 <= i < j < |rest| ensures rest[i] != rest[j] {
          assert s[i + 1] != s[j + 1];
        }
        assert s[0] !in rest;
      }
    }
  }
}
