/** Small value types and list idioms shared by every component. */
module Prelude {

  datatype Option<+T> = None | Some(value: T)

  datatype Result<+T, +E> = Ok(value: T) | Err(error: E)

  /** The position of the first element that satisfies a test, or the length of the list. */
  function FirstIndex<T>(items: seq<T>, test: T -> bool): (i: nat)
    ensures i <= |items|
    ensures i < |items| ==> test(items[i])
    ensures forall j :: 0 <= j < i ==> !test(items[j])
  {
    if items == [] || test(items[0]) then 0 else 1 + FirstIndex(items[1..], test)
  }

  function Map<T, E>(items: seq<T>, entry: T -> E): (r: seq<E>)
    ensures |r| == |items| && forall i :: 0 <= i < |items| ==> r[i] == entry(items[i])
  {
    seq(|items|, i requires 0 <= i < |items| => entry(items[i]))
  }

  /** The elements of a list that satisfy a test, in their original order. */
  function Filter<T>(items: seq<T>, keep: T -> bool): seq<T>
  {
    if items == [] then []
    else (if keep(items[0]) then [items[0]] else []) + Filter(items[1..], keep)
  }

  lemma {:induction false} FilterMembers<T>(items: seq<T>, keep: T -> bool)
    ensures forall x :: x in Filter(items, keep) <==> x in items && keep(x)
  {
    if items != [] {
      FilterMembers(items[1..], keep);
      assert items == [items[0]] + items[1..];
    }
  }

  lemma EmptyIffNone<T>(items: seq<T>, keep: T -> bool)
    ensures Filter(items, keep) == [] <==> forall x | x in items :: !keep(x)
  {
    if Filter(items, keep) != [] { assert Filter(items, keep)[0] in Filter(items, keep); }
  }

  lemma FilterAppend<T>(a: seq<T>, b: seq<T>, keep: T -> bool)
    ensures Filter(a + b, keep) == Filter(a, keep) + Filter(b, keep)
  {
    if a == [] {
      assert a + b == b;
    } else {
      assert (a + b)[1..] == a[1..] + b;
      FilterAppend(a[1..], b, keep);
      Regroup(if keep(a[0]) then [a[0]] else [], Filter(a[1..], keep), Filter(b, keep));
    }
  }

  lemma FilterOne<T>(x: T, keep: T -> bool)
    ensures Filter([x], keep) == if keep(x) then [x] else []
  {
    assert [x][1..] == [];
  }

  /** One more element of a list examined from the front. */
  lemma FilterNext<T>(items: seq<T>, i: nat, keep: T -> bool)
    requires i < |items|
    ensures Filter(items[..i + 1], keep) == Filter(items[..i], keep) + if keep(items[i]) then [items[i]] else []
  {
    assert items[..i + 1] == items[..i] + [items[i]];
    FilterAppend(items[..i], [items[i]], keep);
  }

  /** The identifiers without repetitions, in the order in which they first appear. */
  function FirstAppearances(ids: seq<string>): seq<string>
  {
    if ids == [] then []
    else
      var before, last := FirstAppearances(ids[..|ids| - 1]), ids[|ids| - 1];
      if last in before then before else before + [last]
  }

  /** It lists what is listed, each identifier once. */
  lemma {:induction false} FirstAppearancesAre(ids: seq<string>, id: string)
    ensures id in FirstAppearances(ids) <==> id in ids
    ensures forall i, j :: 0 <= i < j < |FirstAppearances(ids)| ==> FirstAppearances(ids)[i] != FirstAppearances(ids)[j]
  {
    if ids != [] {
      FirstAppearancesAre(ids[..|ids| - 1], id);
      assert ids == ids[..|ids| - 1] + [ids[|ids| - 1]];
    }
  }

  lemma TakeNext<T>(s: seq<T>, i: nat)
    requires i < |s|
    ensures s[..i + 1] == s[..i] + [s[i]]
  {
  }

  lemma Regroup<T>(a: seq<T>, b: seq<T>, c: seq<T>)
    ensures a + (b + c) == (a + b) + c
    ensures b == [] ==> a + c == a + (b + c)
  {
  }

  /** The newest element, the last one listed among equals. */
  function Newest<T>(items: seq<T>, time: T -> int): (r: T)
    requires items != []
    ensures r in items
    ensures forall x | x in items :: time(x) <= time(r)
  {
    var last := items[|items| - 1];
    if |items| == 1 then last
    else
      var best := Newest(items[..|items| - 1], time);
      assert forall x :: x in items ==> x in items[..|items| - 1] || x == last;
      if time(best) <= time(last) then last else best
  }

  lemma NewestOfAppend<T>(items: seq<T>, x: T, time: T -> int)
    requires items != []
    ensures Newest(items + [x], time) == if time(Newest(items, time)) <= time(x) then x else Newest(items, time)
  {
    assert (items + [x])[..|items|] == items;
  }

  /** Appending an element that is not older than anything listed makes it the newest. */
  lemma NewestAppend<T>(items: seq<T>, x: T, time: T -> int)
    requires forall y | y in items :: time(y) <= time(x)
    ensures Newest(items + [x], time) == x
  {
    assert (items + [x])[..|items|] == items;
  }

  predicate IsSpace(c: char)
  {
    c == ' ' || c == '\t' || c == '\n' || c == '\r'
  }

  function Strip(text: string): (r: string)
    ensures |r| <= |text|
  {
    if text == [] then text
    else if IsSpace(text[0]) then Strip(text[1..])
    else if IsSpace(text[|text| - 1]) then Strip(text[..|text| - 1])
    else text
  }

  predicate IsBlank(text: string) { Strip(text) == "" }

  lemma {:induction false} StripTwice(text: string)
    ensures Strip(Strip(text)) == Strip(text)
  {
    if text != [] {
      if IsSpace(text[0]) {
        StripTwice(text[1..]);
      } else if IsSpace(text[|text| - 1]) {
        StripTwice(text[..|text| - 1]);
      }
    }
  }

  /** The order of strings character by character, a proper prefix first. */
  predicate TextLe(a: string, b: string)
  {
    a == [] || (b != [] && (a[0] < b[0] || (a[0] == b[0] && TextLe(a[1..], b[1..]))))
  }

  lemma {:induction false} TextLeTotal(a: string, b: string)
    ensures TextLe(a, b) || TextLe(b, a)
  {
    if a != [] && b != [] { TextLeTotal(a[1..], b[1..]); }
  }

  lemma {:induction false} TextLeTransitive(a: string, b: string, c: string)
    requires TextLe(a, b) && TextLe(b, c)
    ensures TextLe(a, c)
  {
    if a != [] && a[0] == b[0] && b[0] == c[0] { TextLeTransitive(a[1..], b[1..], c[1..]); }
  }

  lemma {:induction false} TextLeAntisymmetric(a: string, b: string)
    requires TextLe(a, b) && TextLe(b, a)
    ensures a == b
  {
    if a != [] {
      TextLeAntisymmetric(a[1..], b[1..]);
      assert a == [a[0]] + a[1..] && b == [b[0]] + b[1..];
    }
  }
}
