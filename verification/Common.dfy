/** Optional values and results with an error case, used by every other module. */
module Common {
  datatype Option<+T> = None | Some(value: T)

  datatype Result<+T, +E> = Ok(value: T) | Err(error: E)

  /** The elements of a sequence, as a set. */
  function Elements<T>(items: seq<T>): set<T> {
    set x | x in items
  }

  ghost predicate Distinct<T>(items: seq<T>) {
    forall i, j :: 0 <= i < j < |items| ==> items[i] != items[j]
  }

  /** A sequence without repetitions has as many elements as positions. */
  lemma {:induction false} DistinctCount<T>(items: seq<T>)
    requires Distinct(items)
    ensures |Elements(items)| == |items|
  {
    if |items| == 0 {
      assert Elements(items) == {};
    } else {
      DistinctCount(items[1..]);
      assert Elements(items) == Elements(items[1..]) + {items[0]};
    }
  }

  /** `operator<` on strings: the first difference decides, and a proper prefix is smaller. */
  predicate Less(a: string, b: string) {
    if b == "" then false
    else if a == "" then true
    else if a[0] != b[0] then a[0] < b[0]
    else Less(a[1..], b[1..])
  }

  lemma {:induction false} LessIsTotal(a: string, b: string)
    ensures Less(a, b) || Less(b, a) || a == b
    ensures !(Less(a, b) && Less(b, a)) && !Less(a, a)
  {
    if a != "" && b != "" {
      LessIsTotal(a[1..], b[1..]);
      if a[0] == b[0] && a[1..] == b[1..] {
        assert a == [a[0]] + a[1..] && b == [b[0]] + b[1..];
      }
      LessIsTotal(a[1..], a[1..]);
    } else if a != "" {
      LessIsTotal(a[1..], a[1..]);
    }
  }

  lemma {:induction false} LessIsTransitive(a: string, b: string, c: string)
    requires Less(a, b) && Less(b, c)
    ensures Less(a, c)
  {
    if a != "" && a[0] == b[0] && b[0] == c[0] {
      LessIsTransitive(a[1..], b[1..], c[1..]);
    }
  }

  /** What the order of strings is: a proper prefix comes first, and otherwise the first difference decides. */
  lemma {:induction false} LessMeans(a: string, b: string)
    ensures Less(a, b) <==> (a <= b && a != b) || exists k :: 0 <= k < |a| && k < |b| && a[..k] == b[..k] && a[k] < b[k]
  {
    if a != "" && b != "" {
      var p, q := a[1..], b[1..];
      LessMeans(p, q);
      assert a == [a[0]] + p && b == [b[0]] + q;
      if a[0] == b[0] {
        forall k | 0 <= k < |p| && k < |q| ensures a[..k + 1] == [a[0]] + p[..k] && b[..k + 1] == [b[0]] + q[..k] { }
        if exists k :: 0 <= k < |p| && k < |q| && p[..k] == q[..k] && p[k] < q[k] {
          var k :| 0 <= k < |p| && k < |q| && p[..k] == q[..k] && p[k] < q[k];
          assert a[..k + 1] == b[..k + 1] && a[k + 1] < b[k + 1];
        }
        if exists k :: 0 <= k < |a| && k < |b| && a[..k] == b[..k] && a[k] < b[k] {
          var k :| 0 <= k < |a| && k < |b| && a[..k] == b[..k] && a[k] < b[k];
          assert k > 0 && p[..k - 1] == a[..k][1..] && q[..k - 1] == b[..k][1..] && p[k - 1] < q[k - 1];
        }
      } else {
        assert a[..0] == b[..0];
        forall k | 0 < k < |a| && k < |b| ensures a[..k] != b[..k] {
          assert a[..k][0] == a[0] && b[..k][0] == b[0];
        }
      }
    }
  }

  lemma {:induction false} LeastExists(keys: set<string>) returns (least: string)
    requires keys != {}
    ensures least in keys && forall other :: other in keys ==> other == least || Less(least, other)
    decreases |keys|
  {
    var key :| key in keys;
    if keys == {key} { return key; }
    var rest := keys - {key};
    assert key in keys && rest != {};
    least := LeastExists(rest);
    LessIsTotal(key, least);
    if Less(key, least) {
      forall other | other in rest && other != least ensures Less(key, other) { LessIsTransitive(key, least, other); }
      least := key;
    }
  }

  lemma LessNeverBothWays()
    ensures forall a, b :: Less(a, b) ==> !Less(b, a)
  {
    forall a, b | Less(a, b) ensures !Less(b, a) { LessIsTotal(a, b); }
  }

  lemma LeastIsThere(keys: set<string>)
    requires keys != {}
    ensures exists least :: least in keys && forall other :: other in keys ==> other == least || Less(least, other)
  {
    var least := LeastExists(keys);
  }

  function Least(keys: set<string>): (least: string)
    requires keys != {}
    ensures least in keys && forall other :: other in keys ==> other == least || Less(least, other)
  {
    LeastIsThere(keys);
    LessNeverBothWays();
    var least :| least in keys && forall other :: other in keys ==> other == least || Less(least, other);
    least
  }

  lemma ElementsOfLonger<T>(first: T, rest: seq<T>)
    ensures Elements([first] + rest) == Elements(rest) + {first}
  {
    assert ([first] + rest)[0] == first;
    assert forall i :: 0 <= i < |rest| ==> ([first] + rest)[i + 1] == rest[i];
  }

  /** The keys of a set, smallest first. */
  function InOrder(keys: set<string>): (ordered: seq<string>)
    ensures Elements(ordered) == keys
    ensures forall i, j :: 0 <= i < j < |ordered| ==> Less(ordered[i], ordered[j])
  {
    if keys == {} then []
    else
      var least := Least(keys);
      var rest := InOrder(keys - {least});
      ElementsOfLonger(least, rest);
      assert forall i :: 0 <= i < |rest| ==> rest[i] in Elements(rest);
      [least] + rest
  }
}
