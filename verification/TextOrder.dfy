/** The order of strings, and sorted lists of names. */
module TextOrder {

  /** Lexicographic order by character code. */
  predicate Before(a: string, b: string) {
    if b == "" then false
    else if a == "" then true
    else if a[0] != b[0] then a[0] < b[0]
    else Before(a[1..], b[1..])
  }

  lemma {:induction false} BeforeIsTotal(a: string, b: string)
    ensures !Before(a, a)
    ensures a != b ==> (Before(a, b) <==> !Before(b, a))
  {
    if a != "" && b != "" {
      assert a == [a[0]] + a[1..] && b == [b[0]] + b[1..];
      BeforeIsTotal(a[1..], b[1..]);
    }
    if a != "" {
      BeforeIsTotal(a[1..], a[1..]);
    }
  }

  lemma {:induction false} BeforeIsTransitive(a: string, b: string, c: string)
    requires Before(a, b) && Before(b, c)
    ensures Before(a, c)
  {
    if a != "" && b != "" && c != "" && a[0] == b[0] == c[0] {
      BeforeIsTransitive(a[1..], b[1..], c[1..]);
    }
  }

  predicate Ascending(names: seq<string>) {
    forall i, j | 0 <= i < j < |names| :: Before(names[i], names[j])
  }

  ghost predicate Lists(names: seq<string>, elements: set<string>) {
    forall x :: x in names <==> x in elements
  }

  function Insert(names: seq<string>, x: string): seq<string> {
    if names == [] then [x]
    else if Before(x, names[0]) then [x] + names
    else [names[0]] + Insert(names[1..], x)
  }

  lemma {:induction false} InsertKeepsAscending(names: seq<string>, x: string)
    requires Ascending(names) && x !in names
    ensures Ascending(Insert(names, x))
    ensures forall y :: y in Insert(names, x) <==> y == x || y in names
  {
    if names != [] {
      assert names == [names[0]] + names[1..];
      if Before(x, names[0]) {
        forall j | 0 < j < |names| ensures Before(x, names[j]) {
          BeforeIsTransitive(x, names[0], names[j]);
        }
      } else {
        InsertKeepsAscending(names[1..], x);
        BeforeIsTotal(x, names[0]);
        var rest := Insert(names[1..], x);
        forall j | 0 <= j < |rest| ensures Before(names[0], rest[j]) {
          assert rest[j] in rest;
        }
      }
    }
  }

  /** A set has only one ascending listing. */
  lemma {:induction false} AscendingIsUnique(a: seq<string>, b: seq<string>, elements: set<string>)
    requires Ascending(a) && Ascending(b) && Lists(a, elements) && Lists(b, elements)
    ensures a == b
  {
    assert forall i | 0 <= i < |a| :: a[i] in b;
    assert forall i | 0 <= i < |b| :: b[i] in a;
    if a != [] && b != [] {
      BeforeIsTotal(a[0], b[0]);
      assert a == [a[0]] + a[1..] && b == [b[0]] + b[1..];
      TailLists(a, elements);
      TailLists(b, elements);
      AscendingIsUnique(a[1..], b[1..], elements - {a[0]});
    }
  }

  lemma TailLists(a: seq<string>, elements: set<string>)
    requires a != [] && Ascending(a) && Lists(a, elements)
    ensures Ascending(a[1..]) && Lists(a[1..], elements - {a[0]})
  {
    forall i | 0 < i < |a| ensures a[i] != a[0] {
      BeforeIsTotal(a[0], a[i]);
    }
  }

  /** The names of a set in ascending order. */
  ghost function Sorted(elements: set<string>): (names: seq<string>)
    ensures Ascending(names) && Lists(names, elements)
  {
    if elements == {} then []
    else
      var x :| x in elements;
      var rest := Sorted(elements - {x});
      InsertKeepsAscending(rest, x);
      Insert(rest, x)
  }

  method SortNames(elements: set<string>) returns (names: seq<string>)
    ensures names == Sorted(elements)
  {
    names := [];
    var rest := elements;
    while rest != {}
      invariant rest <= elements
      invariant Ascending(names) && Lists(names, elements - rest)
      decreases |rest|
    {
      var x :| x in rest;
      InsertKeepsAscending(names, x);
      names := Insert(names, x);
      rest := rest - {x};
    }
    AscendingIsUnique(names, Sorted(elements), elements);
  }
}
