/** The entry list behind `URLSearchParams` (WHATWG URL Standard, section 6.2):
    an ordered list of name-value pairs in which a name may repeat. */
module SearchParams {

  import opened Options

  datatype Entry = Entry(name: string, value: string)

  type Query = seq<Entry>

  /** `a` is obtained from `b` by dropping entries, keeping the rest in order. */
  predicate IsSubsequence(a: Query, b: Query)
    decreases |b|
  {
    if |a| == 0 then true
    else if |b| == 0 then false
    else if a[0] == b[0] then IsSubsequence(a[1..], b[1..])
    else IsSubsequence(a, b[1..])
  }

  /** `get(name)`: the value of the first entry called `name`, if any. */
  function Get(q: Query, name: string): (r: Option<string>)
    ensures r.None? <==> forall i :: 0 <= i < |q| ==> q[i].name != name
    ensures r.Some? ==> exists i :: 0 <= i < |q| && q[i] == Entry(name, r.value)
                                    && forall j :: 0 <= j < i ==> q[j].name != name
  {
    if |q| == 0 then None
    else if q[0].name == name then Some(q[0].value)
    else
      var r := Get(q[1..], name);
      assert r.Some? ==> exists i :: 1 <= i < |q| && q[i] == Entry(name, r.value)
                                    && forall j :: 0 <= j < i ==> q[j].name != name by {
        if r.Some? {
          var k :| 0 <= k < |q[1..]| && q[1..][k] == Entry(name, r.value)
                   && forall j :: 0 <= j < k ==> q[1..][j].name != name;
          assert q[k + 1] == Entry(name, r.value);
          assert forall j :: 0 <= j < k + 1 ==> q[j].name != name by {
            forall j | 0 <= j < k + 1 ensures q[j].name != name {
              if j > 0 { assert q[j] == q[1..][j - 1]; }
            }
          }
        }
      }
      r
  }

  /** The entries whose name is not listed in `names`, in their original order:
      the reference meaning of removing a set of names from a query. */
  function Without(q: Query, names: seq<string>): (r: Query)
    ensures forall i :: 0 <= i < |r| ==> r[i].name !in names
    ensures forall e: Entry :: e in r <==> e in q && e.name !in names
    ensures IsSubsequence(r, q)
  {
    if |q| == 0 then []
    else
      assert q == [q[0]] + q[1..];
      var rest := Without(q[1..], names);
      if q[0].name in names then rest
      else
        assert ([q[0]] + rest)[1..] == rest;
        [q[0]] + rest
  }

  /** Every entry with an unlisted name is kept as many times as it occurs,
      so together with the contract of `Without`, nothing else is dropped. */
  lemma {:induction false} WithoutCounts(q: Query, names: seq<string>)
    ensures forall e: Entry :: e.name !in names ==>
              multiset(Without(q, names))[e] == multiset(q)[e]
  {
    if |q| > 0 {
      WithoutCounts(q[1..], names);
      assert q == [q[0]] + q[1..];
      if q[0].name !in names {
        WithoutKeeps(q[0], q[1..], names);
      }
    }
  }

  /** One step of filtering: an entry whose name is not listed is kept in front. */
  lemma WithoutKeeps(e: Entry, rest: Query, names: seq<string>)
    requires e.name !in names
    ensures Without([e] + rest, names) == [e] + Without(rest, names)
  {
    assert ([e] + rest)[1..] == rest;
  }

  /** `delete(name)`: removes every entry called `name` and keeps all other
      entries in order. */
  function Delete(q: Query, name: string): (r: Query)
    ensures forall e: Entry :: e in r <==> e in q && e.name != name
    ensures forall e: Entry :: e.name != name ==> multiset(r)[e] == multiset(q)[e]
    ensures IsSubsequence(r, q)
  {
    WithoutCounts(q, [name]);
    Without(q, [name])
  }

  /** Calling `delete` once for each of `names`, in order, as a `forEach` does. */
  function DeleteAll(q: Query, names: seq<string>): (r: Query)
    ensures forall e: Entry :: e in r ==> e in q && e.name !in names
    decreases |names|
  {
    if |names| == 0 then q
    else DeleteAll(Delete(q, names[0]), names[1..])
  }

  /** Filtering by `a` and then by `b` is filtering by both at once. */
  lemma {:induction false} WithoutWithout(q: Query, a: seq<string>, b: seq<string>)
    ensures Without(Without(q, a), b) == Without(q, a + b)
  {
    if |q| > 0 {
      WithoutWithout(q[1..], a, b);
    }
  }

  /** The sequence of `delete` calls removes exactly the listed names: the
      outcome does not depend on the order or the repetitions of `names`. */
  lemma {:induction false} DeleteAllIsWithout(q: Query, names: seq<string>)
    ensures DeleteAll(q, names) == Without(q, names)
    decreases |names|
  {
    if |names| > 0 {
      var first := Delete(q, names[0]);
      calc {
        DeleteAll(q, names);
        DeleteAll(first, names[1..]);
        { DeleteAllIsWithout(first, names[1..]); }
        Without(first, names[1..]);
        { assert first == Without(q, [names[0]]); }
        Without(Without(q, [names[0]]), names[1..]);
        { WithoutWithout(q, [names[0]], names[1..]); }
        Without(q, [names[0]] + names[1..]);
        { assert [names[0]] + names[1..] == names; }
        Without(q, names);
      }
    } else {
      WithoutNothing(q);
    }
  }

  /** Filtering by no names keeps the whole query. */
  lemma {:induction false} WithoutNothing(q: Query)
    ensures Without(q, []) == q
  {
    if |q| > 0 {
      WithoutNothing(q[1..]);
      assert q == [q[0]] + q[1..];
    }
  }

  /** Filtering twice by the same names changes nothing more. */
  lemma WithoutIdempotent(q: Query, names: seq<string>)
    ensures Without(Without(q, names), names) == Without(q, names)
  {
    WithoutWithout(q, names, names);
    WithoutSameMembers(q, names + names, names);
  }

  /** Filtering depends only on which names are listed. */
  lemma {:induction false} WithoutSameMembers(q: Query, a: seq<string>, b: seq<string>)
    requires forall n :: n in a <==> n in b
    ensures Without(q, a) == Without(q, b)
  {
    if |q| > 0 {
      WithoutSameMembers(q[1..], a, b);
    }
  }

  /** Removing other names does not change what `get(name)` reads. */
  lemma {:induction false} GetWithout(q: Query, names: seq<string>, name: string)
    requires name !in names
    ensures Get(Without(q, names), name) == Get(q, name)
  {
    if |q| > 0 {
      GetWithout(q[1..], names, name);
      var rest := Without(q[1..], names);
      if q[0].name in names {
        assert Without(q, names) == rest;
        assert q[0].name != name;
      } else {
        assert Without(q, names) == [q[0]] + rest;
        assert ([q[0]] + rest)[1..] == rest;
      }
    }
  }
}
