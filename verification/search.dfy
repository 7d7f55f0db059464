/** The client-side search every list screen applies to its fetched items:
    an item passes when the lower-cased term occurs in the lower-cased text of
    at least one of its searchable fields. A required field is passed as `Some`;
    an optional field that is absent (`?.` yields `undefined`) never matches. */
module Search {
  import opened Wrappers
  import opened Text

  /** `field?.toLowerCase().includes(term.toLowerCase())` is truthy. */
  predicate FieldMatches(field: Option<string>, term: string) {
    field.Some? && Includes(Lower(field.value), Lower(term))
  }

  /** The `||` chain over the screen's searchable fields. */
  function AnyFieldMatches(fields: seq<Option<string>>, term: string): (b: bool)
    ensures b <==> exists i :: 0 <= i < |fields| && FieldMatches(fields[i], term)
  {
    if fields == [] then false
    else FieldMatches(fields[0], term) || AnyFieldMatches(fields[1..], term)
  }

  predicate HasPresentField(fields: seq<Option<string>>) {
    exists i :: 0 <= i < |fields| && fields[i].Some?
  }

  /** With the empty term a field matches exactly when it is present. */
  lemma EmptyTermMatchesPresent(fields: seq<Option<string>>)
    ensures AnyFieldMatches(fields, "") <==> HasPresentField(fields)
  {
    forall i | 0 <= i < |fields| && fields[i].Some?
      ensures FieldMatches(fields[i], "")
    {
      IncludesEmpty(Lower(fields[i].value));
    }
  }

  /** `items.filter(...)`: the items whose fields match, in their original order. */
  function Filter<T(!new)>(items: seq<T>, fields: T -> seq<Option<string>>, term: string): (r: seq<T>)
    ensures |r| <= |items|
    ensures forall x :: x in r <==> x in items && AnyFieldMatches(fields(x), term)
  {
    if items == [] then []
    else
      var rest := Filter(items[1..], fields, term);
      assert forall x :: x in items <==> x == items[0] || x in items[1..];
      if AnyFieldMatches(fields(items[0]), term) then [items[0]] + rest else rest
  }

  /** Filtering keeps relative order: it distributes over concatenation. */
  lemma {:induction false} FilterAppend<T(!new)>(a: seq<T>, b: seq<T>, fields: T -> seq<Option<string>>, term: string)
    ensures Filter(a + b, fields, term) == Filter(a, fields, term) + Filter(b, fields, term)
  {
    if a == [] {
      assert a + b == b;
    } else {
      assert (a + b)[1..] == a[1..] + b;
      FilterAppend(a[1..], b, fields, term);
    }
  }

  /** Filtering an already filtered list with the same term changes nothing. */
  lemma {:induction false} FilterIdempotent<T(!new)>(items: seq<T>, fields: T -> seq<Option<string>>, term: string)
    ensures Filter(Filter(items, fields, term), fields, term) == Filter(items, fields, term)
  {
    if items != [] {
      FilterIdempotent(items[1..], fields, term);
      var rest := Filter(items[1..], fields, term);
      if AnyFieldMatches(fields(items[0]), term) {
        assert ([items[0]] + rest)[1..] == rest;
      }
    }
  }

  /** The filter keeps the whole list exactly when every item passes. */
  lemma {:induction false} FilterIdentityIff<T(!new)>(items: seq<T>, fields: T -> seq<Option<string>>, term: string)
    ensures Filter(items, fields, term) == items
        <==> forall i :: 0 <= i < |items| ==> AnyFieldMatches(fields(items[i]), term)
  {
    if items != [] {
      FilterIdentityIff(items[1..], fields, term);
      var rest := Filter(items[1..], fields, term);
      if AnyFieldMatches(fields(items[0]), term) {
        if rest == items[1..] {
          assert Filter(items, fields, term) == items;
        }
        if Filter(items, fields, term) == items {
          assert rest == items[1..];
        }
        assert forall i :: 1 <= i < |items| ==> items[i] == items[1..][i - 1];
      } else {
        assert |Filter(items, fields, term)| < |items|;
      }
    }
  }

  /** With the empty term the filter keeps the whole list exactly when every item
      has at least one searchable field present. */
  lemma EmptyTermKeepsIff<T(!new)>(items: seq<T>, fields: T -> seq<Option<string>>)
    ensures Filter(items, fields, "") == items
        <==> forall i :: 0 <= i < |items| ==> HasPresentField(fields(items[i]))
  {
    FilterIdentityIff(items, fields, "");
    forall i | 0 <= i < |items| {
      EmptyTermMatchesPresent(fields(items[i]));
    }
  }
}
