/**
 * listBoundProjectNames (internal/controller/customer_id_lookup.go:58-83): the projects an account
 * pays for, in an order that does not depend on how the API lists the bindings.
 */
module BoundProjects {
  import opened MetadataNames

  datatype Phase = Unset | Active | OtherPhase
  datatype Binding = Binding(accountName: Bytes, project: Bytes, phase: Phase)

  predicate Counts(b: Binding, account: Bytes) {
    b.accountName == account && !b.phase.OtherPhase? && b.project != []
  }

  /** The projects of the bindings that count, repeats included. */
  function Bound(bindings: seq<Binding>, account: Bytes): multiset<Bytes> {
    if bindings == [] then multiset{} else
    var n := |bindings| - 1;
    Bound(bindings[..n], account) +
    (if Counts(bindings[n], account) then multiset{bindings[n].project} else multiset{})
  }

  /** The unset or active bindings of the account to a project. */
  function Paying(bindings: seq<Binding>, account: Bytes, project: Bytes): set<nat> {
    set i | 0 <= i < |bindings| && bindings[i].project == project &&
            bindings[i].accountName == account && (bindings[i].phase.Unset? || bindings[i].phase.Active?)
  }

  lemma PayingSnoc(bindings: seq<Binding>, account: Bytes, project: Bytes)
    requires bindings != []
    ensures var n := |bindings| - 1;
      && n !in Paying(bindings[..n], account, project)
      && Paying(bindings, account, project) ==
           Paying(bindings[..n], account, project) + (if n in Paying(bindings, account, project) then {n} else {})
  {}

  /** A project with a name is there once for each of these bindings; the empty name never is. */
  lemma {:induction false} BoundCounts(bindings: seq<Binding>, account: Bytes, project: Bytes)
    ensures Bound(bindings, account)[project] == if project == [] then 0 else |Paying(bindings, account, project)|
  {
    if bindings != [] {
      BoundCounts(bindings[..|bindings| - 1], account, project);
      PayingSnoc(bindings, account, project);
    }
  }

  /** Go's string order: bytewise, a prefix first. */
  predicate Leq(a: Bytes, b: Bytes) {
    a == [] || (b != [] && (a[0] < b[0] || (a[0] == b[0] && Leq(a[1..], b[1..]))))
  }

  /** a comes first when it is a prefix of b, or has the smaller byte where they first differ. */
  lemma {:induction false} LeqIff(a: Bytes, b: Bytes)
    ensures Leq(a, b) <==>
              a <= b || exists i :: 0 <= i < |a| && i < |b| && a[..i] == b[..i] && a[i] < b[i]
  {
    if a != [] && b != [] && a[0] == b[0] {
      LeqIff(a[1..], b[1..]);
      assert a == [a[0]] + a[1..] && b == [b[0]] + b[1..];
      if i :| 0 <= i < |a[1..]| && i < |b[1..]| && a[1..][..i] == b[1..][..i] && a[1..][i] < b[1..][i] {
        assert a[..i + 1] == [a[0]] + a[1..][..i] && b[..i + 1] == [b[0]] + b[1..][..i];
        assert a[..i + 1] == b[..i + 1] && a[i + 1] < b[i + 1];
      }
      if i :| 0 <= i < |a| && i < |b| && a[..i] == b[..i] && a[i] < b[i] {
        assert a[1..][..i - 1] == a[..i][1..] && b[1..][..i - 1] == b[..i][1..];
        assert a[1..][i - 1] < b[1..][i - 1];
      }
    } else if a != [] && b != [] && a[0] < b[0] {
      assert a[..0] == b[..0];
    } else if a != [] && b != [] {
      forall i | 0 < i < |a| && i < |b| ensures a[..i] != b[..i] { assert a[..i][0] != b[..i][0]; }
    }
  }

  lemma {:induction false} LeqTotal(a: Bytes, b: Bytes)
    ensures Leq(a, b) || Leq(b, a)
  {
    if a != [] && b != [] { LeqTotal(a[1..], b[1..]); }
  }

  lemma {:induction false} LeqAntisymmetric(a: Bytes, b: Bytes)
    requires Leq(a, b) && Leq(b, a)
    ensures a == b
  {
    if a != [] && b != [] {
      LeqAntisymmetric(a[1..], b[1..]);
      assert a == [a[0]] + a[1..] && b == [b[0]] + b[1..];
    }
  }

  lemma {:induction false} LeqTransitive(a: Bytes, b: Bytes, c: Bytes)
    requires Leq(a, b) && Leq(b, c)
    ensures Leq(a, c)
  {
    if a != [] && b != [] && c != [] && a[0] == b[0] == c[0] { LeqTransitive(a[1..], b[1..], c[1..]); }
  }

  ghost predicate Sorted(s: seq<Bytes>) {
    forall i, j :: 0 <= i < j < |s| ==> Leq(s[i], s[j])
  }

  /** sort.Strings, as an insertion at the right place. */
  method Insert(s: seq<Bytes>, x: Bytes) returns (r: seq<Bytes>)
    requires Sorted(s)
    ensures Sorted(r) && multiset(r) == multiset(s) + multiset{x}
  {
    var i := |s|;
    while i > 0 && !Leq(s[i - 1], x)
      invariant 0 <= i <= |s|
      invariant forall k :: i <= k < |s| ==> Leq(x, s[k])
    {
      LeqTotal(s[i - 1], x);
      i := i - 1;
    }
    r := s[..i] + [x] + s[i..];
    forall k | 0 <= k < i ensures Leq(s[k], x) {
      if k < i - 1 { LeqTransitive(s[k], s[i - 1], x); }
    }
    SortedAround(s[..i], x, s[i..]);
    assert s == s[..i] + s[i..];
  }

  lemma SortedAround(a: seq<Bytes>, x: Bytes, b: seq<Bytes>)
    requires Sorted(a) && Sorted(b) && (forall k :: 0 <= k < |a| ==> Leq(a[k], x))
    requires forall k :: 0 <= k < |b| ==> Leq(x, b[k])
    ensures Sorted(a + [x] + b)
  {
    var s := a + [x] + b;
    forall i, j | 0 <= i < j < |s| ensures Leq(s[i], s[j]) {
      if i < |a| && j > |a| { LeqTransitive(s[i], x, s[j]); }
    }
  }

  method SortStrings(s: seq<Bytes>) returns (r: seq<Bytes>)
    ensures Sorted(r) && multiset(r) == multiset(s)
  {
    r := [];
    var i := 0;
    while i < |s|
      invariant i <= |s| && Sorted(r) && multiset(r) == multiset(s[..i])
    {
      r := Insert(r, s[i]);
      assert s[..i + 1] == s[..i] + [s[i]];
      i := i + 1;
    }
    assert s[..i] == s;
  }

  /** Exactly the projects of the counting bindings, sorted. */
  method ListBoundProjectNames(bindings: seq<Binding>, account: Bytes) returns (names: seq<Bytes>)
    ensures Sorted(names) && multiset(names) == Bound(bindings, account)
    ensures forall p :: multiset(names)[p] == if p == [] then 0 else |Paying(bindings, account, p)|
  {
    var out: seq<Bytes> := [];
    var i := 0;
    while i < |bindings|
      invariant i <= |bindings| && multiset(out) == Bound(bindings[..i], account)
    {
      var b := bindings[i];
      assert bindings[..i + 1][..i] == bindings[..i];
      i := i + 1;
      if b.accountName != account { continue; }
      if b.phase != Unset && b.phase != Active { continue; }
      if b.project == [] { continue; }
      out := out + [b.project];
    }
    assert bindings[..i] == bindings;
    names := SortStrings(out);
    forall p ensures multiset(names)[p] == if p == [] then 0 else |Paying(bindings, account, p)| {
      BoundCounts(bindings, account, p);
    }
  }

  lemma MultisetSize<T>(s: seq<T>, r: seq<T>)
    requires multiset(s) == multiset(r)
    ensures |s| == |r|
  {
    assert |multiset(s)| == |s| && |multiset(r)| == |r|;
  }

  /** The first element of a sorted list is below all others. */
  lemma FirstIsLeast(s: seq<Bytes>, x: Bytes)
    requires Sorted(s) && x in s
    ensures Leq(s[0], x)
  {
    var i :| 0 <= i < |s| && s[i] == x;
    LeqTotal(x, x);
  }

  lemma SameFirst(s: seq<Bytes>, r: seq<Bytes>)
    requires Sorted(s) && Sorted(r) && multiset(s) == multiset(r) && s != [] && r != []
    ensures s[0] == r[0]
  {
    assert s[0] in multiset(r) && r[0] in multiset(s);
    FirstIsLeast(s, r[0]);
    FirstIsLeast(r, s[0]);
    LeqAntisymmetric(s[0], r[0]);
  }

  lemma MultisetTail<T>(s: seq<T>)
    requires s != []
    ensures multiset(s[1..]) == multiset(s) - multiset{s[0]}
  {
    assert s == [s[0]] + s[1..];
  }

  /** A sorted list is determined by its elements. */
  lemma {:induction false} SortedUnique(s: seq<Bytes>, r: seq<Bytes>)
    requires Sorted(s) && Sorted(r) && multiset(s) == multiset(r)
    ensures s == r
  {
    MultisetSize(s, r);
    if s != [] {
      SameFirst(s, r);
      MultisetTail(s);
      MultisetTail(r);
      SortedUnique(s[1..], r[1..]);
      assert s == [s[0]] + s[1..] && r == [r[0]] + r[1..];
    }
  }

  lemma WithoutSnoc(bindings: seq<Binding>, i: nat)
    requires i < |bindings| - 1
    ensures var n, rest := |bindings| - 1, bindings[..i] + bindings[i + 1..];
      rest[..|rest| - 1] == bindings[..n][..i] + bindings[..n][i + 1..] && rest[|rest| - 1] == bindings[n]
  {
    var n, rest := |bindings| - 1, bindings[..i] + bindings[i + 1..];
    assert bindings[..n][..i] == bindings[..i] && bindings[..n][i + 1..] == bindings[i + 1..n];
    assert rest == bindings[..i] + bindings[i + 1..n] + [bindings[n]] by {
      assert bindings[i + 1..] == bindings[i + 1..n] + [bindings[n]];
    }
  }

  lemma TakeOut(bindings: seq<Binding>, others: seq<Binding>) returns (i: nat)
    requires bindings != [] && multiset(bindings) == multiset(others)
    ensures i < |others| && others[i] == bindings[|bindings| - 1]
    ensures multiset(bindings[..|bindings| - 1]) == multiset(others[..i] + others[i + 1..])
  {
    var n := |bindings| - 1;
    var b := bindings[n];
    assert b in multiset(bindings);
    assert b in multiset(others);
    i :| 0 <= i < |others| && others[i] == b;
    assert bindings == bindings[..n] + [b];
    assert others == others[..i] + [b] + others[i + 1..];
    var m, m' := multiset(bindings[..n]), multiset(others[..i] + others[i + 1..]);
    assert multiset(bindings) == m + multiset{b};
    assert multiset(others) == m' + multiset{b};
    assert m == (m + multiset{b}) - multiset{b} && m' == (m' + multiset{b}) - multiset{b};
  }

  lemma {:induction false} BoundWithout(bindings: seq<Binding>, account: Bytes, i: nat)
    requires i < |bindings|
    ensures Bound(bindings, account) == Bound(bindings[..i] + bindings[i + 1..], account) +
              (if Counts(bindings[i], account) then multiset{bindings[i].project} else multiset{})
  {
    var n := |bindings| - 1;
    var rest := bindings[..i] + bindings[i + 1..];
    if i == n {
      assert rest == bindings[..n];
    } else {
      BoundWithout(bindings[..n], account, i);
      WithoutSnoc(bindings, i);
    }
  }

  lemma {:induction false} BoundPermuted(bindings: seq<Binding>, others: seq<Binding>, account: Bytes)
    requires multiset(bindings) == multiset(others)
    ensures Bound(bindings, account) == Bound(others, account)
  {
    MultisetSize(bindings, others);
    if bindings != [] {
      var n := |bindings| - 1;
      var i := TakeOut(bindings, others);
      BoundWithout(others, account, i);
      BoundPermuted(bindings[..n], others[..i] + others[i + 1..], account);
    }
  }

  /** The projects metadata is the same for every order in which the bindings are listed. */
  lemma ProjectsMetadataStable(
      bindings: seq<Binding>, others: seq<Binding>, account: Bytes, names: seq<Bytes>, names': seq<Bytes>)
    requires multiset(bindings) == multiset(others)
    requires Sorted(names) && multiset(names) == Bound(bindings, account)
    requires Sorted(names') && multiset(names') == Bound(others, account)
    ensures names == names' && Render(names) == Render(names')
  {
    BoundPermuted(bindings, others, account);
    SortedUnique(names, names');
  }
}
