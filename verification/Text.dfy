/** Python's order on strings, by code point, and sorted sets of strings. */
module Text {
  import opened Order

  predicate Before(a: string, b: string) {
    if a == [] then b != []
    else if b == [] then false
    else a[0] < b[0] || (a[0] == b[0] && Before(a[1..], b[1..]))
  }

  lemma {:induction false} BeforeTotal(a: string, b: string)
    ensures a == b || Before(a, b) || Before(b, a)
    ensures !Before(a, a)
  {
    if a != [] {
      BeforeTotal(a[1..], if b == [] then [] else b[1..]);
      if b != [] && a[0] == b[0] && a[1..] == b[1..] {
        assert a == [a[0]] + a[1..];
        assert b == [b[0]] + b[1..];
      }
    }
  }

  /** After a common beginning the end of the text, or else the smaller code point, comes
      first. */
  lemma {:induction false} BeforeIff(common: string, a: string, b: string)
    requires a == [] || b == [] || a[0] != b[0]
    ensures Before(common + a, common + b) <==> b != [] && (a == [] || a[0] < b[0])
  {
    if common == [] {
      assert common + a == a && common + b == b;
    } else {
      assert (common + a)[1..] == common[1..] + a && (common + b)[1..] == common[1..] + b;
      BeforeIff(common[1..], a, b);
    }
  }

  lemma {:induction false} BeforeTrans(a: string, b: string, c: string)
    requires Before(a, b) && Before(b, c)
    ensures Before(a, c)
  {
    if a != [] && a[0] == b[0] == c[0] {
      BeforeTrans(a[1..], b[1..], c[1..]);
    }
  }

  function CodePoints(): (string, string) -> bool { (a: string, b: string) => Before(a, b) }

  lemma CodePointsTotal()
    ensures StrictTotal(CodePoints())
  {
    hide Before;
    var lt := CodePoints();
    forall a, b ensures !lt(a, a) && (a == b || lt(a, b) || lt(b, a)) { BeforeTotal(a, b); }
    forall a, b, c | lt(a, b) && lt(b, c) ensures lt(a, c) { BeforeTrans(a, b, c); }
  }

  /** sorted(set) */
  function Sorted(s: set<string>): (r: seq<string>)
    ensures |r| == |s|
  {
    CodePointsTotal();
    Sort(CodePoints(), s)
  }

  lemma SortedLists(s: set<string>)
    ensures Increasing(CodePoints(), Sorted(s)) && forall x :: x in Sorted(s) <==> x in s
  {
    CodePointsTotal();
    SortLists(CodePoints(), s);
  }

  /** The parts in order, the separator between neighbours. */
  lemma {:induction false} JoinSnoc(parts: seq<string>, last: string, separator: string)
    ensures Join(parts + [last], separator) == if parts == [] then last else Join(parts, separator) + separator + last
  {
    if |parts| > 1 {
      assert (parts + [last])[1..] == parts[1..] + [last];
      JoinSnoc(parts[1..], last, separator);
    } else if parts != [] {
      assert (parts + [last])[1..] == [last];
    }
  }

  function Join(parts: seq<string>, separator: string): string {
    if parts == [] then "" else if |parts| == 1 then parts[0] else parts[0] + separator + Join(parts[1..], separator)
  }
}
