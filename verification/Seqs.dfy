/** Sequence vocabulary shared by the models: weighted sums, filters, removal. */
module Seqs {

  /** `s` without its element at position `i`. */
  function Remove<T>(s: seq<T>, i: nat): (r: seq<T>)
    requires i < |s|
    ensures |r| == |s| - 1
  {
    s[..i] + s[i + 1..]
  }

  function Map<T, U>(f: T -> U, s: seq<T>): (r: seq<U>)
    ensures |r| == |s|
    ensures forall i :: 0 <= i < |s| ==> r[i] == f(s[i])
  {
    if s == [] then [] else [f(s[0])] + Map(f, s[1..])
  }

  function Filter<T>(s: seq<T>, p: T -> bool): (r: seq<T>)
  {
    if s == [] then []
    else if p(s[0]) then [s[0]] + Filter(s[1..], p)
    else Filter(s[1..], p)
  }

  /** The total weight of the elements of `s`. */
  function Sum<T>(s: seq<T>, w: T -> int): int
  {
    if s == [] then 0 else w(s[0]) + Sum(s[1..], w)
  }

  lemma {:induction false} SumAppend<T>(s: seq<T>, t: seq<T>, w: T -> int)
    ensures Sum(s + t, w) == Sum(s, w) + Sum(t, w)
  {
    if s == [] {
      assert s + t == t;
    } else {
      assert (s + t)[1..] == s[1..] + t;
      SumAppend(s[1..], t, w);
    }
  }

  lemma SumOne<T>(x: T, w: T -> int)
    ensures Sum([x], w) == w(x)
  {
    assert [x][1..] == [];
  }

  lemma {:induction false} SumRemove<T>(s: seq<T>, i: nat, w: T -> int)
    requires i < |s|
    ensures Sum(Remove(s, i), w) == Sum(s, w) - w(s[i])
  {
    var a, b := s[..i], s[i + 1..];
    assert s == a + ([s[i]] + b);
    SumAppend(a, [s[i]] + b, w);
    SumAppend([s[i]], b, w);
    SumOne(s[i], w);
    SumAppend(a, b, w);
  }

  /** Removing one element and appending others, the shape of every delivery. */
  lemma {:induction false} SumReplace<T>(s: seq<T>, i: nat, t: seq<T>, w: T -> int)
    requires i < |s|
    ensures Sum(Remove(s, i) + t, w) == Sum(s, w) - w(s[i]) + Sum(t, w)
  {
    SumAppend(Remove(s, i), t, w);
    SumRemove(s, i, w);
  }

  lemma {:induction false} SumBounds<T>(s: seq<T>, w: T -> int)
    requires forall x :: x in s ==> w(x) >= 0
    ensures Sum(s, w) >= 0
    ensures forall x :: x in s ==> w(x) <= Sum(s, w)
  {
    if s != [] {
      SumBounds(s[1..], w);
      forall x | x in s ensures w(x) <= Sum(s, w) {
        assert x == s[0] || x in s[1..];
      }
    }
  }

  lemma {:induction false} SumZero<T>(s: seq<T>, w: T -> int)
    requires forall x :: x in s ==> w(x) == 0
    ensures Sum(s, w) == 0
  {
    if s != [] {
      SumZero(s[1..], w);
    }
  }

  lemma {:induction false} SumMap<T, U>(f: T -> U, s: seq<T>, w: U -> int, v: T -> int)
    requires forall x :: x in s ==> w(f(x)) == v(x)
    ensures Sum(Map(f, s), w) == Sum(s, v)
  {
    if s != [] {
      assert Map(f, s)[1..] == Map(f, s[1..]);
      SumMap(f, s[1..], w, v);
    }
  }

  lemma {:induction false} FilterAppend<T>(s: seq<T>, t: seq<T>, p: T -> bool)
    ensures Filter(s + t, p) == Filter(s, p) + Filter(t, p)
  {
    if s == [] {
      assert s + t == t;
    } else {
      assert (s + t)[0] == s[0] && (s + t)[1..] == s[1..] + t;
      FilterAppend(s[1..], t, p);
      Regroup([s[0]], Filter(s[1..], p), Filter(t, p));
    }
  }

  lemma {:induction false} FilterMembers<T>(s: seq<T>, p: T -> bool)
    ensures forall x :: x in Filter(s, p) <==> x in s && p(x)
  {
    if s != [] {
      FilterMembers(s[1..], p);
    }
  }

  lemma {:induction false} FilterNone<T>(s: seq<T>, p: T -> bool)
    requires forall x :: x in s ==> !p(x)
    ensures Filter(s, p) == []
  {
    if s != [] {
      FilterNone(s[1..], p);
    }
  }

  lemma Regroup<T>(a: seq<T>, b: seq<T>, c: seq<T>)
    ensures (a + b) + c == a + (b + c)
  {
  }

  // ----- four counts at once -----

  /** What a list of events says about one service call. */
  datatype Counts = Counts(token: int, early: int, job: int, pendCb: int)

  function Plus(a: Counts, b: Counts): Counts {
    Counts(a.token + b.token, a.early + b.early, a.job + b.job, a.pendCb + b.pendCb)
  }

  function Zero(): Counts { Counts(0, 0, 0, 0) }

  function Tally<T>(s: seq<T>, f: T -> Counts): Counts
  {
    if s == [] then Zero() else Plus(f(s[0]), Tally(s[1..], f))
  }

  lemma {:induction false} TallyAppend<T>(s: seq<T>, t: seq<T>, f: T -> Counts)
    ensures Tally(s + t, f) == Plus(Tally(s, f), Tally(t, f))
  {
    if s == [] {
      assert s + t == t;
      PlusLaws(Tally(t, f), Zero(), Zero());
    } else {
      var tail := s[1..] + t;
      assert (s + t)[0] == s[0] && (s + t)[1..] == tail;
      assert Tally(s + t, f) == Plus(f(s[0]), Tally(tail, f));
      TallyAppend(s[1..], t, f);
      PlusLaws(f(s[0]), Tally(s[1..], f), Tally(t, f));
    }
  }

  lemma PlusLaws(a: Counts, b: Counts, c: Counts)
    ensures Plus(a, Plus(b, c)) == Plus(Plus(a, b), c)
    ensures Plus(Zero(), a) == a == Plus(a, Zero())
  {
  }

  lemma TallyOne<T>(x: T, f: T -> Counts)
    ensures Tally([x], f) == f(x)
  {
    assert [x][1..] == [];
  }

  lemma {:induction false} TallyRemove<T>(s: seq<T>, i: nat, f: T -> Counts)
    requires i < |s|
    ensures Tally(s, f) == Plus(Tally(Remove(s, i), f), f(s[i]))
  {
    assert s == s[..i] + ([s[i]] + s[i + 1..]);
    TallyAppend(s[..i], [s[i]] + s[i + 1..], f);
    TallyAppend([s[i]], s[i + 1..], f);
    TallyOne(s[i], f);
    TallyAppend(s[..i], s[i + 1..], f);
  }

  lemma {:induction false} TallyNone<T>(s: seq<T>, f: T -> Counts)
    requires forall x :: x in s ==> f(x) == Zero()
    ensures Tally(s, f) == Zero()
  {
    if s != [] {
      TallyNone(s[1..], f);
    }
  }

  ghost predicate Within(a: Counts, b: Counts) {
    a.token <= b.token && a.early <= b.early && a.job <= b.job && a.pendCb <= b.pendCb
  }

  ghost predicate Ordered(a: Counts) {
    0 <= a.early <= a.token && 0 <= a.job && 0 <= a.pendCb
  }

  lemma {:induction false} TallyMember<T>(s: seq<T>, f: T -> Counts)
    requires forall x :: x in s ==> Ordered(f(x))
    ensures Ordered(Tally(s, f))
    ensures forall x :: x in s ==> Within(f(x), Tally(s, f))
  {
    if s != [] {
      TallyMember(s[1..], f);
      forall x | x in s ensures Within(f(x), Tally(s, f)) {
        assert x == s[0] || x in s[1..];
      }
    }
  }

  lemma {:induction false} TallyNoPendCb<T>(s: seq<T>, f: T -> Counts)
    requires forall x :: x in s ==> f(x).pendCb == 0
    ensures Tally(s, f).pendCb == 0
  {
    if s != [] {
      TallyNoPendCb(s[1..], f);
    }
  }
}
