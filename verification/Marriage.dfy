/** Hall's theorem: everybody can be given a choice of their own if every group likes enough choices. */
module Marriage {
  import opened Sets

  ghost function Liked<L(!new), R(!new)>(likes: map<L, set<R>>, group: set<L>): set<R> {
    set l, r | l in group && l in likes && r in likes[l] :: r
  }

  ghost predicate Enough<L(!new), R(!new)>(likes: map<L, set<R>>) {
    forall group: set<L> :: group <= likes.Keys ==> |group| <= |Liked(likes, group)|
  }

  ghost predicate Matches<L(!new), R(!new)>(likes: map<L, set<R>>, m: map<L, R>) {
    && m.Keys == likes.Keys && (forall l :: l in m ==> m[l] in likes[l])
    && (forall a, b :: a in m && b in m && a != b ==> m[a] != m[b])
  }

  /** A group that likes no more choices than it has members. */
  ghost predicate Tight<L(!new), R(!new)>(likes: map<L, set<R>>, group: set<L>) {
    group != {} && group < likes.Keys && |Liked(likes, group)| <= |group|
  }

  ghost function Only<L(!new), R(!new)>(likes: map<L, set<R>>, group: set<L>): map<L, set<R>> {
    map l | l in likes && l in group :: likes[l]
  }

  ghost function Without<L(!new), R(!new)>(likes: map<L, set<R>>, group: set<L>, taken: set<R>): map<L, set<R>> {
    map l | l in likes && l !in group :: likes[l] - taken
  }

  lemma LikedWithout<L(!new), R(!new)>(likes: map<L, set<R>>, group: set<L>, taken: set<R>, c: set<L>)
    requires c <= likes.Keys - group
    ensures Liked(Without(likes, group, taken), c) == Liked(likes, c) - taken
  {
    var rest := Without(likes, group, taken);
    forall r | r in Liked(likes, c) - taken ensures r in Liked(rest, c) {
      var l :| l in c && l in likes && r in likes[l];
      assert l in rest && r in rest[l];
    }
  }

  lemma LikedTogether<L(!new), R(!new)>(likes: map<L, set<R>>, a: set<L>, b: set<L>)
    ensures Liked(likes, a + b) == Liked(likes, a) + Liked(likes, b)
  {
  }

  /** A tight group can be served first, among itself. */
  lemma OnlyEnough<L(!new), R(!new)>(likes: map<L, set<R>>, group: set<L>)
    requires Enough(likes) && group <= likes.Keys
    ensures Enough(Only(likes, group))
  {
    var only := Only(likes, group);
    forall c: set<L> | c <= only.Keys ensures |c| <= |Liked(only, c)| {
      assert Liked(only, c) == Liked(likes, c);
    }
  }

  /** What is left then is enough for the others. */
  lemma RestEnough<L(!new), R(!new)>(likes: map<L, set<R>>, group: set<L>)
    requires Enough(likes) && Tight(likes, group)
    ensures Enough(Without(likes, group, Liked(likes, group)))
  {
    var taken := Liked(likes, group);
    var rest := Without(likes, group, taken);
    forall c: set<L> | c <= rest.Keys ensures |c| <= |Liked(rest, c)| {
      LikedTogether(likes, c, group);
      LikedWithout(likes, group, taken, c);
      assert Liked(likes, c + group) == Liked(rest, c) + taken;
      assert |c + group| == |c| + |group|;
      assert |Liked(rest, c) + taken| == |Liked(rest, c)| + |taken|;
    }
  }

  /** Without a tight group, anybody can be given anything they like. */
  lemma OneGivenEnough<L(!new), R(!new)>(likes: map<L, set<R>>, x: L, y: R)
    requires Enough(likes) && x in likes && forall group: set<L> :: !Tight(likes, group)
    ensures Enough(Without(likes, {x}, {y}))
  {
    var rest := Without(likes, {x}, {y});
    forall c: set<L> | c <= rest.Keys ensures |c| <= |Liked(rest, c)| {
      LikedWithout(likes, {x}, {y}, c);
      if c != {} {
        assert x !in c && c < likes.Keys;
        assert !Tight(likes, c);
      }
    }
  }

  lemma Joined<L(!new), R(!new)>(likes: map<L, set<R>>, group: set<L>, m1: map<L, R>, m2: map<L, R>)
    requires group <= likes.Keys && Matches(Only(likes, group), m1) &&
             Matches(Without(likes, group, Liked(likes, group)), m2)
    ensures Matches(likes, m1 + m2)
  {
    var m := m1 + m2;
    assert m.Keys == likes.Keys;
    forall a, b | a in m && b in m && a != b ensures m[a] != m[b] {
      if a in m1 && b in m2 { assert m1[a] in Liked(likes, group); }
      if a in m2 && b in m1 { assert m1[b] in Liked(likes, group); }
    }
  }

  lemma {:induction false} Marry<L(!new), R(!new)>(likes: map<L, set<R>>) returns (m: map<L, R>)
    requires Enough(likes)
    ensures Matches(likes, m)
    decreases |likes.Keys|
  {
    if likes == map[] {
      m := map[];
    } else if group: set<L> :| Tight(likes, group) {
      hide Enough, Matches;
      var only, rest := Only(likes, group), Without(likes, group, Liked(likes, group));
      OnlyEnough(likes, group);
      RestEnough(likes, group);
      assert only.Keys == group && rest.Keys == likes.Keys - group;
      Smaller(group, likes.Keys);
      Fewer(likes.Keys, group);
      var m1 := Marry(only);
      var m2 := Marry(rest);
      Joined(likes, group, m1, m2);
      m := m1 + m2;
    } else {
      var x :| x in likes;
      assert |{x}| <= |Liked(likes, {x})|;
      assert Liked(likes, {x}) == likes[x];
      var y :| y in likes[x];
      OneGivenEnough(likes, x, y);
      var rest := Without(likes, {x}, {y});
      assert rest.Keys == likes.Keys - {x};
      var m1 := Marry(rest);
      m := m1[x := y];
    }
  }

  lemma Fewer<T>(a: set<T>, b: set<T>)
    requires b < a && b != {}
    ensures |b| < |a| && |a - b| < |a|
  {
    Smaller(b, a);
    var x :| x in a && x !in b;
    Smaller(b, a - {x});
    var y :| y in b;
    Smaller(a - b, a - {y});
  }
}
