/**
 * Granted authorities and the order `SecurityUser` keeps them in: a `TreeSet`
 * built with `AuthorityComparator`.
 *
 * As written, the comparator answers -1 whenever its SECOND argument has a null
 * authority string and 1 when only its first does, so every named authority
 * sorts before every null-authority entry (its comment claims the opposite), no
 * two null-authority entries ever compare equal (not even an entry with itself),
 * and named authorities compare by `String.compareTo`.
 *
 * The tree set is modelled by its in-order sequence. Every reachable sequence is
 * "named authorities strictly ascending, then null-authority entries", so for
 * any new element the comparator answers > 0 on a prefix of the sequence and
 * < 0 on the rest, except for at most one equal element; the tree walk and the
 * linear scan of `Insert` therefore agree on where the element lands or that it
 * is dropped.
 */
module AuthorityOrder {
  import opened Wrappers
  import opened JavaLang

  /**
   * A `GrantedAuthority`: a named one (`SimpleGrantedAuthority`) or a custom one
   * whose `getAuthority()` is null; `id` stands for the identity of such an object.
   */
  datatype Authority = Named(role: string) | Unnamed(id: nat) {
    function GetAuthority(): Option<string> {
      if Named? then Some(role) else None
    }
  }

  /** `AuthorityComparator.compare`, as written. */
  function Compare(g1: Authority, g2: Authority): int {
    if g2.GetAuthority() == None then -1
    else if g1.GetAuthority() == None then 1
    else CompareTo(g1.GetAuthority().value, g2.GetAuthority().value)
  }

  /** `TreeSet.add` on the in-order sequence: keep the first element the comparator calls equal. */
  function Insert(s: seq<Authority>, x: Authority): (r: seq<Authority>)
    ensures |s| <= |r| <= |s| + 1
    decreases |s|
  {
    if s == [] then [x]
    else if Compare(x, s[0]) > 0 then [s[0]] + Insert(s[1..], x)
    else if Compare(x, s[0]) == 0 then s
    else [x] + s
  }

  /** The set the loop of `sortAuthorities` builds: the elements added one by one, in order. */
  function SortedForm(xs: seq<Authority>): seq<Authority>
    decreases |xs|
  {
    if xs == [] then [] else Insert(SortedForm(xs[..|xs| - 1]), xs[|xs| - 1])
  }

  /** The authority strings of the named authorities in `s`. */
  function Roles(s: seq<Authority>): set<string> {
    set a | a in s && a.Named? :: a.role
  }

  /** The null-authority entries of `s`, in order, repeats included. */
  function UnnamedOf(s: seq<Authority>): seq<Authority>
    decreases |s|
  {
    if s == [] then [] else (if s[0].Unnamed? then [s[0]] else []) + UnnamedOf(s[1..])
  }

  function Reverse<T>(s: seq<T>): (r: seq<T>)
    ensures |r| == |s|
    decreases |s|
  {
    if s == [] then [] else Reverse(s[1..]) + [s[0]]
  }

  /**
   * The order the tree set iterates in: each named authority is preceded only by
   * named authorities with smaller strings (so null-authority entries come last
   * and equal strings never appear twice).
   */
  predicate Ordered(s: seq<Authority>) {
    forall i, j :: 0 <= i < j < |s| && s[j].Named? ==> s[i].Named? && CompareTo(s[i].role, s[j].role) < 0
  }

  /** The same order, stated on neighbours only. */
  predicate Precedes(x: Authority, y: Authority) {
    y.Unnamed? || (x.Named? && CompareTo(x.role, y.role) < 0)
  }

  predicate Chained(s: seq<Authority>) {
    forall i :: 0 <= i < |s| - 1 ==> Precedes(s[i], s[i + 1])
  }

  // ---- The comparator as written ----

  /** Every named authority sorts before every null-authority entry, in both argument orders. */
  lemma NamedBeforeUnnamed(x: Authority, y: Authority)
    requires x.Named? && y.Unnamed?
    ensures Compare(x, y) == -1 && Compare(y, x) == 1
  {
  }

  /** A null-authority entry never compares equal to anything, itself included. */
  lemma UnnamedNeverEqual(x: Authority, y: Authority)
    requires x.Unnamed? || y.Unnamed?
    ensures Compare(x, y) != 0
    ensures x.Unnamed? ==> Compare(x, x) == -1
  {
  }

  /** On named authorities the comparator is zero exactly on equal strings and is antisymmetric. */
  lemma CompareNamed(x: Authority, y: Authority)
    requires x.Named? && y.Named?
    ensures Compare(x, y) == 0 <==> x == y
    ensures Compare(x, y) == -Compare(y, x)
  {
    CompareToZero(x.role, y.role);
    CompareToAntisymmetric(x.role, y.role);
  }

  // ---- Insertion ----

  lemma {:induction false} InsertChained(s: seq<Authority>, x: Authority)
    requires Chained(s)
    ensures Chained(Insert(s, x))
    ensures Insert(s, x)[0] == x || (s != [] && Insert(s, x)[0] == s[0])
    decreases |s|
  {
    if s == [] {
    } else if Compare(x, s[0]) > 0 {
      InsertChained(s[1..], x);
      var t := Insert(s[1..], x);
      assert Insert(s, x) == [s[0]] + t;
      if t[0] == x && x.Named? {
        CompareToAntisymmetric(x.role, s[0].role);
      }
      assert Precedes(s[0], t[0]);
    } else if Compare(x, s[0]) == 0 {
    } else {
      assert Precedes(x, s[0]);
    }
  }

  lemma {:induction false} InsertRoles(s: seq<Authority>, x: Authority)
    ensures Roles(Insert(s, x)) == Roles(s) + (if x.Named? then {x.role} else {})
    decreases |s|
  {
    if s == [] {
      RolesCons(x, []);
    } else if Compare(x, s[0]) > 0 {
      InsertRoles(s[1..], x);
      RolesCons(s[0], Insert(s[1..], x));
      RolesCons(s[0], s[1..]);
      assert s == [s[0]] + s[1..];
    } else if Compare(x, s[0]) == 0 {
      CompareToZero(x.role, s[0].role);
    } else {
      RolesCons(x, s);
    }
  }

  lemma {:induction false} InsertUnnamed(s: seq<Authority>, x: Authority)
    ensures UnnamedOf(Insert(s, x)) == (if x.Unnamed? then [x] else []) + UnnamedOf(s)
    decreases |s|
  {
    if s == [] {
      UnnamedCons(x, []);
    } else if Compare(x, s[0]) > 0 {
      assert s[0].Named?;
      assert Insert(s, x) == [s[0]] + Insert(s[1..], x);
      InsertUnnamed(s[1..], x);
      UnnamedCons(s[0], Insert(s[1..], x));
      UnnamedCons(s[0], s[1..]);
      assert s == [s[0]] + s[1..];
    } else if Compare(x, s[0]) == 0 {
      assert x.Named? && Insert(s, x) == s;
    } else {
      assert Insert(s, x) == [x] + s;
      UnnamedCons(x, s);
    }
  }

  // ---- Facts about the helper functions ----

  lemma RolesCons(a: Authority, t: seq<Authority>)
    ensures Roles([a] + t) == (if a.Named? then {a.role} else {}) + Roles(t)
  {
    var l, r := Roles([a] + t), (if a.Named? then {a.role} else {}) + Roles(t);
    forall x | x in l ensures x in r {
      var b :| b in [a] + t && b.Named? && b.role == x;
    }
    forall x | x in r ensures x in l {
      if a.Named? && x == a.role {
        assert a in [a] + t;
      } else {
        var b :| b in t && b.Named? && b.role == x;
        assert b in [a] + t;
      }
    }
  }

  lemma UnnamedCons(a: Authority, t: seq<Authority>)
    ensures UnnamedOf([a] + t) == (if a.Unnamed? then [a] else []) + UnnamedOf(t)
  {
    assert ([a] + t)[0] == a && ([a] + t)[1..] == t;
  }

  lemma {:induction false} UnnamedOfAppend(a: seq<Authority>, b: seq<Authority>)
    ensures UnnamedOf(a + b) == UnnamedOf(a) + UnnamedOf(b)
    decreases |a|
  {
    if a == [] {
      assert a + b == b;
    } else {
      UnnamedOfAppend(a[1..], b);
      assert a + b == [a[0]] + (a[1..] + b);
      UnnamedCons(a[0], a[1..] + b);
      UnnamedCons(a[0], a[1..]);
      assert a == [a[0]] + a[1..];
    }
  }

  lemma {:induction false} UnnamedOfMembers(s: seq<Authority>, a: Authority)
    requires a.Unnamed?
    ensures a in UnnamedOf(s) <==> a in s
    decreases |s|
  {
    if s != [] {
      UnnamedOfMembers(s[1..], a);
      assert s == [s[0]] + s[1..];
    }
  }

  lemma {:induction false} ReverseAppend<T>(a: seq<T>, x: T)
    ensures Reverse(a + [x]) == [x] + Reverse(a)
    decreases |a|
  {
    if a != [] {
      ReverseAppend(a[1..], x);
      assert (a + [x])[1..] == a[1..] + [x];
    }
  }

  lemma {:induction false} ReverseMembers<T>(s: seq<T>, a: T)
    ensures a in Reverse(s) <==> a in s
    decreases |s|
  {
    if s != [] {
      ReverseMembers(s[1..], a);
      assert s == [s[0]] + s[1..];
    }
  }

  lemma {:induction false} ChainedPair(s: seq<Authority>, i: nat, j: nat)
    requires Chained(s) && i < j < |s| && s[j].Named?
    ensures s[i].Named? && CompareTo(s[i].role, s[j].role) < 0
    decreases j - i
  {
    assert Precedes(s[j - 1], s[j]);
    if i < j - 1 {
      ChainedPair(s, i, j - 1);
      CompareToTransitive(s[i].role, s[j - 1].role, s[j].role);
    }
  }

  lemma ChainedOrdered(s: seq<Authority>)
    requires Chained(s)
    ensures Ordered(s)
  {
    forall i, j | 0 <= i < j < |s| && s[j].Named?
      ensures s[i].Named? && CompareTo(s[i].role, s[j].role) < 0
    {
      ChainedPair(s, i, j);
    }
  }

  /** In an ordered sequence no authority string appears twice. */
  lemma OrderedDistinctRoles(s: seq<Authority>, i: nat, j: nat)
    requires Ordered(s) && i < j < |s| && s[j].Named?
    ensures s[i] != s[j]
  {
    CompareToZero(s[i].role, s[j].role);
  }

  // ---- What sortAuthorities builds ----

  lemma {:induction false} SortedFormChained(xs: seq<Authority>)
    ensures Chained(SortedForm(xs))
    decreases |xs|
  {
    if xs != [] {
      SortedFormChained(xs[..|xs| - 1]);
      InsertChained(SortedForm(xs[..|xs| - 1]), xs[|xs| - 1]);
    }
  }

  lemma {:induction false} SortedFormContents(xs: seq<Authority>)
    ensures Roles(SortedForm(xs)) == Roles(xs)
    ensures UnnamedOf(SortedForm(xs)) == Reverse(UnnamedOf(xs))
    ensures |SortedForm(xs)| <= |xs|
    decreases |xs|
  {
    if xs != [] {
      var init, x := xs[..|xs| - 1], xs[|xs| - 1];
      assert xs == init + [x];
      SortedFormContents(init);
      InsertRoles(SortedForm(init), x);
      InsertUnnamed(SortedForm(init), x);
      UnnamedOfAppend(init, [x]);
      ReverseAppend(UnnamedOf(init), x);
      assert UnnamedOf([x]) == if x.Unnamed? then [x] else [];
      if x.Unnamed? {
        ReverseAppend(UnnamedOf(init), x);
      } else {
        assert UnnamedOf(init) + [] == UnnamedOf(init);
      }
    }
  }

  /**
   * The authority set `sortAuthorities` builds: named authorities first, in
   * strictly ascending `compareTo` order without repeats, then the null-authority
   * entries in reverse order of insertion (none of them merged); it holds exactly
   * the input authorities and is no larger than the input.
   */
  lemma SortedFormSpec(xs: seq<Authority>)
    ensures Ordered(SortedForm(xs))
    ensures forall i, j :: 0 <= i < j < |SortedForm(xs)| && SortedForm(xs)[j].Named? ==> SortedForm(xs)[i] != SortedForm(xs)[j]
    ensures Roles(SortedForm(xs)) == Roles(xs)
    ensures UnnamedOf(SortedForm(xs)) == Reverse(UnnamedOf(xs))
    ensures forall a :: a in SortedForm(xs) <==> a in xs
    ensures |SortedForm(xs)| <= |xs|
  {
    var r := SortedForm(xs);
    SortedFormChained(xs);
    ChainedOrdered(r);
    SortedFormContents(xs);
    forall i, j | 0 <= i < j < |r| && r[j].Named?
      ensures r[i] != r[j]
    {
      OrderedDistinctRoles(r, i, j);
    }
    forall a
      ensures a in r <==> a in xs
    {
      if a.Named? {
        assert a in r <==> a.role in Roles(r);
        assert a in xs <==> a.role in Roles(xs);
      } else {
        UnnamedOfMembers(r, a);
        UnnamedOfMembers(xs, a);
        ReverseMembers(UnnamedOf(xs), a);
      }
    }
  }

  /** `{"ROLE_B", "ROLE_A"}` is kept as `["ROLE_A", "ROLE_B"]`. */
  lemma SortedFormExample()
    ensures SortedForm([Named("ROLE_B"), Named("ROLE_A")]) == [Named("ROLE_A"), Named("ROLE_B")]
  {
    var b, a := Named("ROLE_B"), Named("ROLE_A");
    assert [b, a][..1] == [b];
    assert CompareTo("ROLE_A", "ROLE_B") < 0 by {
      assert "ROLE_A"[1..] == "OLE_A" && "ROLE_B"[1..] == "OLE_B";
      assert "OLE_A"[1..] == "LE_A" && "OLE_B"[1..] == "LE_B";
      assert "LE_A"[1..] == "E_A" && "LE_B"[1..] == "E_B";
      assert "E_A"[1..] == "_A" && "E_B"[1..] == "_B";
      assert "_A"[1..] == "A" && "_B"[1..] == "B";
    }
  }

  /**
   * Named authorities come first and a repeated one is dropped, while the
   * null-authority entries follow them in reverse order of insertion.
   */
  lemma SortedFormMixedExample()
    ensures SortedForm([Unnamed(1), Named("B"), Unnamed(2), Named("A"), Named("B")])
         == [Named("A"), Named("B"), Unnamed(2), Unnamed(1)]
  {
    var u1, b, u2, a := Unnamed(1), Named("B"), Unnamed(2), Named("A");
    var xs := [u1, b, u2, a, b];
    assert xs[..1] == [u1] && xs[..2] == [u1, b] && xs[..3] == [u1, b, u2] && xs[..4] == [u1, b, u2, a];
    assert SortedForm([u1]) == [u1];
    assert SortedForm([u1, b]) == [b, u1];
    assert [b, u1][1..] == [u1] && [u1, b, u2][..2] == [u1, b];
    assert Insert([u1], u2) == [u2, u1];
    assert Insert([b, u1], u2) == [b] + Insert([u1], u2);
    assert SortedForm([u1, b, u2]) == [b, u2, u1];
    assert CompareTo("A", "B") < 0 && CompareTo("B", "A") > 0 && CompareTo("B", "B") == 0 by {
      assert "A"[1..] == [] && "B"[1..] == [];
    }
    assert [u1, b, u2, a][..3] == [u1, b, u2];
    assert SortedForm([u1, b, u2, a]) == [a, b, u2, u1];
    assert [a, b, u2, u1][1..] == [b, u2, u1];
    assert Insert([a, b, u2, u1], b) == [a] + Insert([b, u2, u1], b);
  }
}
