/** The keys of a map in the order a sort, or a B-tree, lists them. */
module OrderedKeys {
  import Text

  ghost predicate IsLeast(k: string, s: set<string>) {
    k in s && forall x | x in s :: Text.LexLeq(k, x)
  }

  lemma {:induction false} LeastExists(s: set<string>)
    requires s != {}
    ensures exists k :: IsLeast(k, s)
  {
    var x :| x in s;
    Text.LexTotal(x, x);
    if s == {x} {
      assert IsLeast(x, s);
    } else {
      assert s - {x} != {};
      LeastExists(s - {x});
      var m :| IsLeast(m, s - {x});
      Text.LexTotal(x, m);
      if Text.LexLeq(x, m) {
        forall y | y in s ensures Text.LexLeq(x, y) {
          if y != x { Text.LexTransitive(x, m, y); }
        }
        assert IsLeast(x, s);
      } else {
        assert IsLeast(m, s);
      }
    }
  }

  function Least(s: set<string>): (k: string)
    requires s != {}
    ensures IsLeast(k, s)
  {
    LeastExists(s);
    assert forall a, b | a in s && b in s && (forall x | x in s :: Text.LexLeq(a, x))
        && (forall x | x in s :: Text.LexLeq(b, x)) :: a == b by {
      forall a, b | a in s && b in s && (forall x | x in s :: Text.LexLeq(a, x))
        && (forall x | x in s :: Text.LexLeq(b, x)) ensures a == b {
        Text.LexAntisymmetric(a, b);
      }
    }
    var k :| k in s && forall x | x in s :: Text.LexLeq(k, x);
    k
  }

  /** Each key once, in ascending order. */
  function Ascending(s: set<string>): (r: seq<string>)
    ensures forall k :: k in r <==> k in s
    ensures |r| == |s|
  {
    if s == {} then []
    else
      var k := Least(s);
      [k] + Ascending(s - {k})
  }

  lemma {:induction false} AscendingSorted(s: set<string>)
    ensures forall i, j | 0 <= i < j < |Ascending(s)| ::
      Text.LexLeq(Ascending(s)[i], Ascending(s)[j]) && Ascending(s)[i] != Ascending(s)[j]
  {
    if s != {} {
      var k := Least(s);
      var rest := Ascending(s - {k});
      AscendingSorted(s - {k});
      forall j | 0 <= j < |rest| ensures Text.LexLeq(k, rest[j]) && k != rest[j] {
        assert rest[j] in s - {k};
      }
    }
  }
}
