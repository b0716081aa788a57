/** The deduplicating import from JSON files into the append-mode stores. */
module Backfill {
  import opened Options
  import opened Lists

  datatype SectionResult = SectionResult(found: bool, sourceRecords: nat, imported: nat, skipped: nat)

  function Forms<T>(items: seq<T>, canonical: T -> string): set<string>
  {
    set i | 0 <= i < |items| :: canonical(items[i])
  }

  /** The items whose canonical form is not known yet, each form once, in source order. */
  function NewItems<T>(items: seq<T>, canonical: T -> string, known: set<string>): seq<T>
  {
    if items == [] then []
    else if canonical(items[0]) in known then NewItems(items[1..], canonical, known)
    else [items[0]] + NewItems(items[1..], canonical, known + {canonical(items[0])})
  }

  class AppendStore<T> {
    var items: seq<T>

    constructor (initial: seq<T>)
      ensures items == initial
    {
      items := initial;
    }

    method Append(more: seq<T>)
      modifies this
      ensures items == old(items) + more
    {
      items := items + more;
    }
  }

  /** `source` is the parsed file, or nothing when there is no file. */
  method BackfillMany<T>(source: Option<seq<T>>, canonical: T -> string, store: AppendStore<T>)
      returns (result: SectionResult)
    modifies store
    ensures store.items
         == old(store.items)
            + if source.Some? then NewItems(source.value, canonical, Forms(old(store.items), canonical)) else []
    ensures result.found == source.Some?
    ensures result.imported == |store.items| - |old(store.items)|
    ensures result.imported + result.skipped == result.sourceRecords == if source.Some? then |source.value| else 0
  {
    assert store.items + [] == store.items;
    if source.None? {
      return SectionResult(false, 0, 0, 0);
    }
    var items := source.value;
    var existing := Forms(store.items, canonical);
    ghost var known := existing;
    var toImport: seq<T> := [];
    var skipped := 0;
    assert items[0..] == items;
    for i := 0 to |items|
      invariant toImport + NewItems(items[i..], canonical, existing) == NewItems(items, canonical, known)
      invariant |toImport| + skipped == i && store.items == old(store.items)
    {
      assert items[i..][1..] == items[i + 1..];
      var form := canonical(items[i]);
      if form in existing {
        skipped := skipped + 1;
        continue;
      }
      existing := existing + {form};
      ConcatAssociates(toImport, [items[i]], NewItems(items[i + 1..], canonical, existing));
      toImport := toImport + [items[i]];
    }
    assert toImport + [] == toImport && store.items + [] == store.items;
    if toImport != [] {
      store.Append(toImport);
    }
    return SectionResult(true, |items|, |toImport|, skipped);
  }

  /** Item i is the first of its canonical form, and the store did not have the form. */
  predicate IsFirst<T>(items: seq<T>, canonical: T -> string, known: set<string>, i: nat)
    requires i < |items|
  {
    canonical(items[i]) !in known && forall j :: 0 <= j < i ==> canonical(items[j]) != canonical(items[i])
  }

  /** The import takes first occurrences only, in source order: one more source item adds
      itself at the end if it is the first of its form, and nothing otherwise. */
  lemma {:induction false} NewItemsTakeFirsts<T>(items: seq<T>, canonical: T -> string, known: set<string>)
    requires items != []
    ensures var n := |items| - 1;
            NewItems(items, canonical, known) ==
            NewItems(items[..n], canonical, known) + (if IsFirst(items, canonical, known, n) then [items[n]] else [])
  {
    var n := |items| - 1;
    if n == 0 {
      assert items == [items[0]] && items[1..] == [];
    } else {
      var head, rest := items[0], items[1..];
      var known' := if canonical(head) in known then known else known + {canonical(head)};
      NewItemsTakeFirsts(rest, canonical, known');
      assert items[..n][1..] == rest[..n - 1];
      LastInRest(items, canonical, known);
      hide IsFirst;
      if canonical(head) !in known {
        ConcatAssociates([head], NewItems(rest[..n - 1], canonical, known'),
                         if IsFirst(items, canonical, known, n) then [items[n]] else []);
      }
    }
  }

  lemma LastInRest<T>(items: seq<T>, canonical: T -> string, known: set<string>)
    requires |items| > 1
    ensures var known' := if canonical(items[0]) in known then known else known + {canonical(items[0])};
            IsFirst(items, canonical, known, |items| - 1) <==> IsFirst(items[1..], canonical, known', |items| - 2)
  {
  }

  /** Nothing in the source stays unknown, and nothing else appears. */
  lemma {:induction false} EveryFormIsKnownAfter<T>(items: seq<T>, canonical: T -> string, known: set<string>)
    ensures known + Forms(NewItems(items, canonical, known), canonical) == known + Forms(items, canonical)
  {
    if items != [] {
      var head, rest := canonical(items[0]), items[1..];
      FormsHead(items, canonical);
      if head in known {
        EveryFormIsKnownAfter(rest, canonical, known);
      } else {
        EveryFormIsKnownAfter(rest, canonical, known + {head});
        var tail := NewItems(rest, canonical, known + {head});
        FormsHead([items[0]] + tail, canonical);
        assert ([items[0]] + tail)[1..] == tail;
      }
    }
  }

  lemma FormsHead<T>(items: seq<T>, canonical: T -> string)
    requires items != []
    ensures Forms(items, canonical) == {canonical(items[0])} + Forms(items[1..], canonical)
  {
  }

  lemma FormsAppend<T>(a: seq<T>, b: seq<T>, canonical: T -> string)
    ensures Forms(a + b, canonical) == Forms(a, canonical) + Forms(b, canonical)
  {
    forall i | 0 <= i < |a| ensures canonical(a[i]) in Forms(a + b, canonical) {
      assert (a + b)[i] == a[i];
    }
    forall i | 0 <= i < |b| ensures canonical(b[i]) in Forms(a + b, canonical) {
      assert (a + b)[|a| + i] == b[i];
    }
  }

  lemma {:induction false} NothingNew<T>(items: seq<T>, canonical: T -> string, known: set<string>)
    requires Forms(items, canonical) <= known
    ensures NewItems(items, canonical, known) == []
  {
    if items != [] {
      FormsHead(items, canonical);
      NothingNew(items[1..], canonical, known);
    }
  }

  /** A second run over the same source, or over any part of it, imports nothing. */
  lemma SecondRunImportsNothing<T>(stored: seq<T>, source: seq<T>, again: seq<T>, canonical: T -> string)
    requires Forms(again, canonical) <= Forms(source, canonical)
    ensures var after := stored + NewItems(source, canonical, Forms(stored, canonical));
            && NewItems(again, canonical, Forms(after, canonical)) == []
            && Forms(after, canonical) == Forms(stored, canonical) + Forms(source, canonical)
  {
    var fresh' := NewItems(source, canonical, Forms(stored, canonical));
    EveryFormIsKnownAfter(source, canonical, Forms(stored, canonical));
    FormsAppend(stored, fresh', canonical);
    NothingNew(again, canonical, Forms(stored + fresh', canonical));
  }
}
