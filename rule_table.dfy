/**
 * The shape every deterministic assessor shares: a fixed table of
 * messages, one per rule, and the messages of the rules that fired, in
 * table order.
 */
module RuleTable {
  /** The entries of `table` whose rule fired, in the order of the table. */
  function Fired(table: seq<string>, fired: seq<bool>): (r: seq<string>)
    requires |table| == |fired|
    ensures |r| <= |table|
    decreases |table|
  {
    if table == [] then []
    else (if fired[0] then [table[0]] else []) + Fired(table[1..], fired[1..])
  }

  /** How many rules fired. */
  function Hits(fired: seq<bool>): nat
    decreases |fired|
  {
    if fired == [] then 0 else (if fired[0] then 1 else 0) + Hits(fired[1..])
  }

  /** No message twice. */
  predicate Distinct(s: seq<string>) {
    forall i, j :: 0 <= i < j < |s| ==> s[i] != s[j]
  }

  /** One message per rule that fired. */
  lemma {:induction false} FiredLength(table: seq<string>, fired: seq<bool>)
    requires |table| == |fired|
    ensures |Fired(table, fired)| == Hits(fired)
    decreases |table|
  {
    if table != [] {
      FiredLength(table[1..], fired[1..]);
    }
  }

  /** A message is reported exactly when one of the rules carrying it fired. */
  lemma {:induction false} FiredMembers(table: seq<string>, fired: seq<bool>, x: string)
    requires |table| == |fired|
    ensures x in Fired(table, fired) <==> exists i :: 0 <= i < |table| && fired[i] && table[i] == x
    decreases |table|
  {
    if table != [] {
      FiredMembers(table[1..], fired[1..], x);
      if exists i :: 0 <= i < |table| && fired[i] && table[i] == x {
        var i :| 0 <= i < |table| && fired[i] && table[i] == x;
        if i > 0 {
          assert fired[1..][i - 1] && table[1..][i - 1] == x;
        }
      }
      if exists i :: 0 <= i < |table[1..]| && fired[1..][i] && table[1..][i] == x {
        var i :| 0 <= i < |table[1..]| && fired[1..][i] && table[1..][i] == x;
        assert fired[i + 1] && table[i + 1] == x;
      }
    }
  }

  /** A table without repeated messages reports each message at most once. */
  lemma {:induction false} FiredDistinct(table: seq<string>, fired: seq<bool>)
    requires |table| == |fired|
    requires Distinct(table)
    ensures Distinct(Fired(table, fired))
    decreases |table|
  {
    if table != [] {
      assert Distinct(table[1..]) by {
        forall i, j | 0 <= i < j < |table[1..]|
          ensures table[1..][i] != table[1..][j]
        {
          assert table[1..][i] == table[i + 1] && table[1..][j] == table[j + 1];
        }
      }
      FiredDistinct(table[1..], fired[1..]);
      FiredMembers(table[1..], fired[1..], table[0]);
      var rest := Fired(table[1..], fired[1..]);
      if fired[0] {
        assert table[0] !in rest;
        forall i, j | 0 <= i < j < |[table[0]] + rest|
          ensures ([table[0]] + rest)[i] != ([table[0]] + rest)[j]
        {
          if i == 0 {
            assert ([table[0]] + rest)[j] == rest[j - 1];
          } else {
            assert ([table[0]] + rest)[i] == rest[i - 1] && ([table[0]] + rest)[j] == rest[j - 1];
          }
        }
      } else {
        assert Fired(table, fired) == rest;
      }
    }
  }

  /** Nothing is reported exactly when no rule fired. */
  lemma FiredEmpty(table: seq<string>, fired: seq<bool>)
    requires |table| == |fired|
    ensures Fired(table, fired) == [] <==> forall i :: 0 <= i < |fired| ==> !fired[i]
  {
    FiredLength(table, fired);
    HitsZero(fired);
  }

  lemma {:induction false} HitsZero(fired: seq<bool>)
    ensures Hits(fired) == 0 <==> forall i :: 0 <= i < |fired| ==> !fired[i]
    decreases |fired|
  {
    if fired != [] {
      HitsZero(fired[1..]);
      if forall i :: 0 <= i < |fired[1..]| ==> !fired[1..][i] {
        if !fired[0] {
          forall i | 0 <= i < |fired|
            ensures !fired[i]
          {
            if i > 0 {
              assert !fired[1..][i - 1];
            }
          }
        }
      } else {
        var i :| 0 <= i < |fired[1..]| && fired[1..][i];
        assert fired[i + 1];
      }
    }
  }
}
