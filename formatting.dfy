/** Text rendering shared by the review comments: bullet lists, list defaults, signed numbers and truncation. */
module Formatting {
  import opened Wrappers
  import opened Text

  /** `items.map(s => prefix + s)`. */
  function Bullets(items: seq<string>, prefix: string): (lines: seq<string>)
    ensures |lines| == |items|
    ensures forall i :: 0 <= i < |items| ==> lines[i] == prefix + items[i]
  {
    seq(|items|, i requires 0 <= i < |items| => prefix + items[i])
  }

  /** A bullet list joined by newlines, or the single default line when there is nothing to list. */
  function ListOrDefault(items: seq<string>, prefix: string, default: string): string {
    if |items| > 0 then Join(Bullets(items, prefix), "\n") else default
  }

  /**
   * Items and a bullet prefix free of newlines give one line per item,
   * each the prefix and its item; an empty list gives the default alone.
   */
  lemma ListLines(items: seq<string>, prefix: string, default: string)
    requires '\n' !in prefix
    requires forall x :: x in items ==> '\n' !in x
    ensures items == [] ==> ListOrDefault(items, prefix, default) == default
    ensures items != [] ==> Split(ListOrDefault(items, prefix, default), '\n') == Bullets(items, prefix)
  {
    if items != [] {
      var lines := Bullets(items, prefix);
      forall p | p in lines
        ensures '\n' !in p
      {
        var i :| 0 <= i < |lines| && lines[i] == p;
        assert items[i] in items;
      }
      JoinSplit(lines, '\n');
    }
  }

  /** A signed count: "+" before a positive number, the plain rendering otherwise. */
  function Signed(n: int): (s: string)
    ensures s != []
  {
    (if n > 0 then "+" else "") + IntToString(n)
  }

  /** The sign marker is there exactly for positive values, and the number reads back after it. */
  lemma SignedIff(n: int)
    ensures Signed(n)[0] == '+' <==> n > 0
    ensures n > 0 ==> ParseInt(Signed(n)[1..]) == Some(n)
    ensures n <= 0 ==> ParseInt(Signed(n)) == Some(n)
  {
    IntToStringRoundTrip(n);
    if n > 0 {
      assert Signed(n)[1..] == IntToString(n);
      assert IntToString(n)[0] != '+';
    } else if n < 0 {
      assert Signed(n)[0] == '-';
    } else {
      assert Signed(n) == "0";
    }
  }

  /** What `_t` appends to a cut text. */
  const TRUNCATION_MARK: string := "\n\n...[truncated]"

  /** `_t(s, limit)` of the backend-ai comment: None reads as "", a text within the limit is kept, a longer one is cut and marked. */
  function Truncate(s: Option<string>, limit: int): (r: string)
    ensures s.None? ==> r == ""
    ensures s.Some? && |s.value| <= limit ==> r == s.value
    ensures s.Some? && |s.value| > limit ==> SliceTo(s.value, limit) <= r && |r| >= |TRUNCATION_MARK| && r[|r| - |TRUNCATION_MARK|..] == TRUNCATION_MARK
    ensures s.Some? && |s.value| > limit ==> |r| == |SliceTo(s.value, limit)| + |TRUNCATION_MARK|
    ensures limit >= 0 ==> |r| <= limit + |TRUNCATION_MARK|
  {
    if s.None? then ""
    else if |s.value| <= limit then s.value
    else SliceTo(s.value, limit) + TRUNCATION_MARK
  }
}
