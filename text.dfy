/** The java.lang.String and java.util.TreeSet behaviour the protocol relies on:
    String.compareTo, a TreeSet of strings, String.split(",") and the
    comma-join a membership proposal is built with. */
module JavaText {

  /** a.compareTo(b) < 0: lexicographic by character, a proper prefix first. */
  predicate Less(a: string, b: string)
    decreases |a|
  {
    if a == [] then b != []
    else if b == [] then false
    else if a[0] == b[0] then Less(a[1..], b[1..])
    else a[0] < b[0]
  }

  lemma {:induction false} LessIrreflexive(a: string)
    ensures !Less(a, a)
    decreases |a|
  {
    if a != [] {
      LessIrreflexive(a[1..]);
    }
  }

  lemma {:induction false} LessTransitive(a: string, b: string, c: string)
    requires Less(a, b) && Less(b, c)
    ensures Less(a, c)
    decreases |a|
  {
    if a != [] && b != [] && c != [] && a[0] == b[0] && b[0] == c[0] {
      LessTransitive(a[1..], b[1..], c[1..]);
    }
  }

  lemma {:induction false} LessTotal(a: string, b: string)
    ensures a == b || Less(a, b) || Less(b, a)
    decreases |a|
  {
    if a != [] && b != [] && a[0] == b[0] {
      LessTotal(a[1..], b[1..]);
      if a[1..] == b[1..] {
        assert a == [a[0]] + a[1..] && b == [b[0]] + b[1..];
      }
    }
  }

  /** Strictly increasing in compareTo order, hence without duplicates. */
  predicate Ascending(s: seq<string>) {
    forall i, j | 0 <= i < j < |s| :: Less(s[i], s[j])
  }

  function Elements(s: seq<string>): set<string> {
    set x | x in s
  }

  /** TreeSet.add: x joins the ordered set, or the set is unchanged if x is there. */
  function Insert(x: string, s: seq<string>): (r: seq<string>)
    requires Ascending(s)
    ensures Ascending(r)
    ensures Elements(r) == Elements(s) + {x}
    decreases |s|
  {
    if s == [] then [x]
    else if x == s[0] then s
    else if Less(x, s[0]) then
      assert forall j | 0 < j < |s| :: Less(x, s[j]) by {
        forall j | 0 < j < |s| ensures Less(x, s[j]) {
          LessTransitive(x, s[0], s[j]);
        }
      }
      [x] + s
    else
      LessTotal(x, s[0]);
      var t := Insert(x, s[1..]);
      assert Elements(s) == {s[0]} + Elements(s[1..]);
      assert forall y | y in Elements(t) :: Less(s[0], y);
      assert Elements([s[0]] + t) == {s[0]} + Elements(t);
      [s[0]] + t
  }

  /** new TreeSet<String>(list): the elements of the list in compareTo order. */
  function TreeSetOf(list: seq<string>): (r: seq<string>)
    ensures Ascending(r)
    ensures Elements(r) == Elements(list)
  {
    if list == [] then []
    else
      var r := Insert(list[|list| - 1], TreeSetOf(list[..|list| - 1]));
      assert Elements(list) == Elements(list[..|list| - 1]) + {list[|list| - 1]};
      r
  }

  /** The comma-separated fields of s, empty fields included. */
  function Fields(s: string): (r: seq<string>)
    ensures |r| >= 1
  {
    if s == [] then [""]
    else
      var rest := Fields(s[1..]);
      if s[0] == ',' then [""] + rest else [[s[0]] + rest[0]] + rest[1..]
  }

  function DropTrailingEmpty(f: seq<string>): seq<string> {
    if f == [] || f[|f| - 1] != "" then f else DropTrailingEmpty(f[..|f| - 1])
  }

  /** s.split(","): when s holds no comma the result is s alone, otherwise the
      fields with trailing empty strings removed. */
  function Split(s: string): seq<string> {
    if ',' !in s then [s] else DropTrailingEmpty(Fields(s))
  }

  /** The proposal value: the ids in order, separated by ",". */
  function Joined(ids: seq<string>): string
    requires |ids| > 0
  {
    if |ids| == 1 then ids[0] else ids[0] + "," + Joined(ids[1..])
  }

  lemma {:induction false} JoinedSnoc(ids: seq<string>, x: string)
    requires |ids| > 0
    ensures Joined(ids + [x]) == Joined(ids) + "," + x
    decreases |ids|
  {
    if |ids| == 1 {
      assert (ids + [x])[1..] == [x];
    } else {
      assert (ids + [x])[1..] == ids[1..] + [x];
      JoinedSnoc(ids[1..], x);
    }
  }

  predicate CommaFree(s: string) { ',' !in s }

  /** Ids that can be written into a membership record and read back. */
  predicate WellFormedIds(ids: seq<string>) {
    forall i | 0 <= i < |ids| :: ids[i] != "" && CommaFree(ids[i])
  }

  lemma {:induction false} FieldsOfCommaFree(x: string)
    requires CommaFree(x)
    ensures Fields(x) == [x]
    decreases |x|
  {
    if x != [] {
      FieldsOfCommaFree(x[1..]);
      assert [x[0]] + x[1..] == x;
    }
  }

  lemma {:induction false} FieldsAfterComma(x: string, y: string)
    requires CommaFree(x)
    ensures Fields(x + "," + y) == [x] + Fields(y)
    decreases |x|
  {
    if x == [] {
      assert x + "," + y == [','] + y;
      assert (x + "," + y)[1..] == y;
    } else {
      assert (x + "," + y)[1..] == x[1..] + "," + y;
      FieldsAfterComma(x[1..], y);
      assert [x[0]] + x[1..] == x;
    }
  }

  lemma {:induction false} FieldsOfJoined(ids: seq<string>)
    requires |ids| > 0 && WellFormedIds(ids)
    ensures Fields(Joined(ids)) == ids
    decreases |ids|
  {
    if |ids| == 1 {
      FieldsOfCommaFree(ids[0]);
    } else {
      FieldsAfterComma(ids[0], Joined(ids[1..]));
      FieldsOfJoined(ids[1..]);
    }
  }

  lemma {:induction false} JoinedHasComma(ids: seq<string>)
    requires |ids| > 1
    ensures ',' in Joined(ids)
  {
    var j := Joined(ids);
    assert j == ids[0] + "," + Joined(ids[1..]);
    assert j[|ids[0]|] == ',';
  }

  /** Reading a record back gives exactly the ids that were proposed, provided
      each id is non-empty and holds no comma. */
  lemma SplitJoined(ids: seq<string>)
    requires |ids| > 0 && WellFormedIds(ids)
    ensures Split(Joined(ids)) == ids
  {
    if |ids| == 1 {
      assert Joined(ids) == ids[0];
    } else {
      JoinedHasComma(ids);
      FieldsOfJoined(ids);
    }
  }
}
