/** The clustering phase of a face scan (core-service/internal/app/faces_scan.go, `replacePeople`,
    `labelSnapshot`, `carryOverLabel`): the table of people is replaced in several transactions. */
module PeopleGeneration {

  datatype Option<T> = None | Some(value: T)

  const CHUNK := 5000

  /** `C` is a centroid, `L` the name an operator gave. */
  datatype Person<C, L> = Person(name: Option<L>, centroid: C, count: nat)

  /** `faces` maps a face to the person it belongs to; `next` is the next person id, never reused. */
  datatype State<C, L> = State(people: map<nat, Person<C, L>>, faces: map<nat, Option<nat>>, next: nat)

  datatype Cluster<C> = Cluster(centroid: C, members: seq<nat>)

  /** Every reference leads to a person. */
  predicate Valid<C, L>(s: State<C, L>) {
    && (forall id :: id in s.people ==> 0 < id < s.next)
    && RefsIn(s.faces, s.people.Keys)
  }

  // ---- Faces moved to the new generation ----

  /** The last of these groups that holds the face. */
  function Home(groups: seq<seq<nat>>, f: nat): (r: Option<nat>)
    ensures r.Some? ==> r.value < |groups| && f in groups[r.value]
    ensures r.None? ==> forall c :: 0 <= c < |groups| ==> f !in groups[c]
  {
    if groups == [] then None
    else if f in groups[|groups| - 1] then Some(|groups| - 1)
    else Home(groups[..|groups| - 1], f)
  }

  /** Faces of the groups point at the new persons `base`, `base + 1`, ..., the others as before. */
  function Moved(faces: map<nat, Option<nat>>, base: nat, groups: seq<seq<nat>>): map<nat, Option<nat>> {
    map f | f in faces :: if Home(groups, f).Some? then Some(base + Home(groups, f).value) else faces[f]
  }

  function Groups<C>(clusters: seq<Cluster<C>>): (r: seq<seq<nat>>)
    ensures |r| == |clusters| && forall c :: 0 <= c < |r| ==> r[c] == clusters[c].members
  {
    seq(|clusters|, c requires 0 <= c < |clusters| => clusters[c].members)
  }

  /** The updates in the order they are written: a face that is gone is skipped. */
  function WrittenGroup(faces: map<nat, Option<nat>>, person: nat, members: seq<nat>): map<nat, Option<nat>> {
    if members == [] then faces
    else
      var w, f := WrittenGroup(faces, person, members[..|members| - 1]), members[|members| - 1];
      if f in w then w[f := Some(person)] else w
  }

  function Written(faces: map<nat, Option<nat>>, base: nat, groups: seq<seq<nat>>): map<nat, Option<nat>> {
    if groups == [] then faces
    else WrittenGroup(Written(faces, base, groups[..|groups| - 1]), base + |groups| - 1, groups[|groups| - 1])
  }

  lemma {:induction false} WrittenGroupMeans(faces: map<nat, Option<nat>>, person: nat, members: seq<nat>)
    ensures WrittenGroup(faces, person, members) == map f | f in faces :: if f in members then Some(person)
            else faces[f]
  {
    if members != [] {
      WrittenGroupMeans(faces, person, members[..|members| - 1]);
      assert members == members[..|members| - 1] + [members[|members| - 1]];
    }
  }

  /** Written one by one, the updates move every face to its group's person. */
  lemma {:induction false} WrittenIsMoved(faces: map<nat, Option<nat>>, base: nat, groups: seq<seq<nat>>)
    ensures Written(faces, base, groups) == Moved(faces, base, groups)
  {
    if groups != [] {
      var init, last := groups[..|groups| - 1], groups[|groups| - 1];
      WrittenIsMoved(faces, base, init);
      WrittenGroupMeans(Moved(faces, base, init), base + |groups| - 1, last);
    }
  }

  /** Every face points at one of these persons, or at none. */
  predicate RefsIn(faces: map<nat, Option<nat>>, persons: set<nat>) {
    forall f :: f in faces && faces[f].Some? ==> faces[f].value in persons
  }

  lemma {:induction false} WrittenGroupRefs(faces: map<nat, Option<nat>>, person: nat, members: seq<nat>,
                                            persons: set<nat>)
    requires RefsIn(faces, persons) && person in persons
    ensures RefsIn(WrittenGroup(faces, person, members), persons) &&
            WrittenGroup(faces, person, members).Keys == faces.Keys
  {
    if members != [] {
      WrittenGroupRefs(faces, person, members[..|members| - 1], persons);
    }
  }

  // ---- The new generation ----

  function NewPerson<C, L>(cluster: Cluster<C>, name: Option<L>): Person<C, L> {
    Person(name, cluster.centroid, |cluster.members|)
  }

  function Generation<C, L>(base: nat, clusters: seq<Cluster<C>>, labels: seq<Option<L>>): map<nat, Person<C, L>>
    requires |labels| == |clusters|
  {
    if clusters == [] then map[]
    else var n := |clusters| - 1; Generation(base, clusters[..n],
                                             labels[..n])[base + n := NewPerson(clusters[n], labels[n])]
  }

  lemma {:induction false} GenerationMeans<C, L>(base: nat, clusters: seq<Cluster<C>>, labels: seq<Option<L>>)
    requires |labels| == |clusters|
    ensures var g := Generation(base, clusters, labels);
            && |g| == |clusters| && (forall id :: id in g <==> base <= id < base + |clusters|)
            && (forall c :: 0 <= c < |clusters| ==> g[base + c] == NewPerson(clusters[c], labels[c]))
  {
    if clusters != [] {
      var n := |clusters| - 1;
      GenerationMeans(base, clusters[..n], labels[..n]);
      assert base + n !in Generation(base, clusters[..n], labels[..n]);
      forall c | 0 <= c < n ensures Generation(base, clusters, labels)[base + c] == NewPerson(clusters[c], labels[c]) {
        assert Generation(base, clusters[..n], labels[..n])[base + c] == NewPerson(clusters[..n][c], labels[..n][c]);
      }
    }
  }

  /** Person ids start at 1. */
  function Base<C, L>(s: State<C, L>): nat {
    if s.next == 0 then 1 else s.next
  }

  function Regrouped(faces: map<nat, Option<nat>>, base: nat, groups: seq<seq<nat>>): map<nat, Option<nat>> {
    map f | f in faces :: if Home(groups, f).Some? then Some(base + Home(groups, f).value) else None
  }

  /** The state a completed replacement leaves: the new persons only, every clustered face with
      its cluster's person, every other face with none. */
  function Replaced<C, L>(s: State<C, L>, clusters: seq<Cluster<C>>, labels: seq<Option<L>>): State<C, L>
    requires |labels| == |clusters|
  {
    State(Generation(Base(s), clusters, labels), Regrouped(s.faces, Base(s), Groups(clusters)), Base(s) + |clusters|)
  }

  /** The clusters share no face and repeat none. */
  predicate Disjoint<C>(clusters: seq<Cluster<C>>) {
    && (forall c, d, f ::
          0 <= c < |clusters| && 0 <= d < |clusters| && f in clusters[c].members && f in clusters[d].members ==> c == d)
    && (forall c, i, j :: 0 <= c < |clusters| && 0 <= i < j < |clusters[c].members| ==>
          clusters[c].members[i] != clusters[c].members[j])
  }

  lemma {:induction false} DistinctCount(s: seq<nat>, elements: set<nat>)
    requires forall i, j :: 0 <= i < j < |s| ==> s[i] != s[j]
    requires forall f :: f in elements <==> f in s
    ensures |elements| == |s|
  {
    if s == [] {
      assert elements == {};
    } else {
      var init, last := s[..|s| - 1], s[|s| - 1];
      assert s == init + [last];
      DistinctCount(init, elements - {last});
    }
  }

  lemma {:induction false} PersonOf<C, L>(s: State<C, L>, clusters: seq<Cluster<C>>, labels: seq<Option<L>>, c: nat)
    requires |labels| == |clusters| && c < |clusters|
    ensures var t := Replaced(s, clusters, labels);
            && |t.people| == |clusters| && Base(s) + c in t.people
            && t.people[Base(s) + c] == NewPerson(clusters[c], labels[c])
  {
    GenerationMeans(Base(s), clusters, labels);
    assert Generation(Base(s), clusters, labels)[Base(s) + c] == NewPerson(clusters[c], labels[c]);
  }

  /** The faces that point at this person. */
  function Held(faces: map<nat, Option<nat>>, person: nat): set<nat> {
    set f | f in faces && faces[f] == Some(person)
  }

  /** On completion every reference is valid ... */
  lemma {:induction false} ReplacementIsValid<C, L>(s: State<C, L>, clusters: seq<Cluster<C>>, labels: seq<Option<L>>)
    requires |labels| == |clusters|
    ensures Valid(Replaced(s, clusters, labels))
  {
    GenerationMeans(Base(s), clusters, labels);
  }

  /** ... a face points at person c exactly if it belongs to cluster c, every other face at none,
      and the recorded face count is the number of faces held. */
  lemma {:induction false} ReplacementHolds<C, L>(s: State<C, L>, clusters: seq<Cluster<C>>, labels: seq<Option<L>>,
                                                  c: nat)
    requires |labels| == |clusters| && Disjoint(clusters) && c < |clusters|
    requires forall f :: f in clusters[c].members ==> f in s.faces
    ensures var t := Replaced(s, clusters, labels);
            && Base(s) + c in t.people
            && (forall f :: f in t.faces && t.faces[f] == Some(Base(s) + c) <==> f in clusters[c].members)
            && t.people[Base(s) + c].count == |Held(t.faces, Base(s) + c)|
  {
    var t := Replaced(s, clusters, labels);
    var groups := Groups(clusters);
    PersonOf(s, clusters, labels, c);
    forall f: nat ensures f in t.faces && t.faces[f] == Some(Base(s) + c) <==> f in clusters[c].members {
      HomeOf(clusters, c, f);
    }
    DistinctCount(clusters[c].members, Held(t.faces, Base(s) + c));
  }

  lemma {:induction false} HomeOf<C>(clusters: seq<Cluster<C>>, c: nat, f: nat)
    requires Disjoint(clusters) && c < |clusters|
    ensures Home(Groups(clusters), f) == Some(c) <==> f in clusters[c].members
  {
    var home := Home(Groups(clusters), f);
    if f in clusters[c].members && home.Some? {
      assert f in clusters[home.value].members;
    }
  }

  /** Running again from any state with the same faces gives the same result up to the ids. */
  lemma {:induction false} RerunGivesSamePartition<C, L>(s: State<C, L>, t: State<C, L>, clusters: seq<Cluster<C>>,
                                                         labels: seq<Option<L>>, f: nat, c: nat)
    requires |labels| == |clusters| && s.faces.Keys == t.faces.Keys && f in s.faces && c < |clusters|
    ensures var a, b := Replaced(s, clusters, labels), Replaced(t, clusters, labels);
            && (a.faces[f] == Some(Base(s) + c) <==> b.faces[f] == Some(Base(t) + c))
            && (a.faces[f].None? <==> b.faces[f].None?)
            && Base(s) + c in a.people && Base(t) + c in b.people && a.people[Base(s) + c] == b.people[Base(t) + c]
            && |a.people| == |b.people|
  {
    PersonOf(s, clusters, labels, c);
    PersonOf(t, clusters, labels, c);
  }

  // ---- Labels carried over ----

  /** A named person of the previous generation. */
  datatype Named<C, L> = Named(name: L, centroid: C)

  /** Distance of two centroids; none if their dimensions differ. */
  type Distance<!C> = (C, C) -> Option<real>

  predicate Near<C>(distance: Distance<C>, eps: real, a: C, b: C) {
    distance(a, b).Some? && distance(a, b).value <= eps
  }

  /** A distance: none below zero, and zero exactly from itself. */
  ghost predicate Metric<C(!new)>(distance: Distance<C>) {
    && (forall a, b :: distance(a, b).Some? ==> distance(a, b).value >= 0.0)
    && (forall a, b :: distance(a, b) == Some(0.0) <==> a == b)
  }

  /** The position of the closest named centroid within `eps`, the first of equally close ones. */
  function Closest<C, L>(distance: Distance<C>, eps: real, centroid: C, names: seq<Named<C, L>>): (r: Option<nat>)
    ensures r.Some? ==> r.value < |names| && Near(distance, eps, centroid, names[r.value].centroid)
    ensures r.None? ==> forall k :: 0 <= k < |names| ==> !Near(distance, eps, centroid, names[k].centroid)
    ensures r.Some? ==> forall k :: 0 <= k < |names| && Near(distance, eps, centroid, names[k].centroid) ==>
                          var d, e := distance(centroid, names[r.value].centroid).value,
                                      distance(centroid, names[k].centroid).value;
                          d <= e && (k < r.value ==> d < e)
  {
    if names == [] then None
    else
      var best, last := Closest(distance, eps, centroid, names[..|names| - 1]), |names| - 1;
      if Near(distance, eps, centroid, names[last].centroid)
         && (best.None? || distance(centroid, names[last].centroid).value < distance(centroid,
               names[best.value].centroid).value)
      then Some(last) else best
  }

  function CarryOver<C, L>(distance: Distance<C>, eps: real, centroid: C, names: seq<Named<C, L>>): Option<L> {
    var best := Closest(distance, eps, centroid, names);
    if best.Some? then Some(names[best.value].name) else None
  }

  /** `carryOverLabel`. */
  method CarryOverLabel<C, L>(distance: Distance<C>, eps: real, centroid: C, names: seq<Named<C, L>>)
      returns (carried: Option<L>)
    ensures carried == CarryOver(distance, eps, centroid, names)
  {
    carried := None;
    var bestDistance := 0.0;
    for k := 0 to |names|
      invariant var best := Closest(distance, eps, centroid, names[..k]);
                && carried == CarryOver(distance, eps, centroid, names[..k])
                && (best.Some? ==> distance(centroid, names[best.value].centroid) == Some(bestDistance))
    {
      assert names[..k + 1][..k] == names[..k];
      var d := distance(centroid, names[k].centroid);
      if d.Some? && (carried.None? || d.value < bestDistance) && d.value <= eps {
        bestDistance, carried := d.value, Some(names[k].name);
      }
    }
    assert names[..|names|] == names;
  }

  function Labels<C, L>(distance: Distance<C>, eps: real, clusters: seq<Cluster<C>>,
                        names: seq<Named<C, L>>): (r: seq<Option<L>>)
    ensures |r| == |clusters|
  {
    seq(|clusters|, c requires 0 <= c < |clusters| => CarryOver(distance, eps, clusters[c].centroid, names))
  }

  /** The named persons of a new generation, in the order of their ids. */
  function NamesOf<C, L>(clusters: seq<Cluster<C>>, labels: seq<Option<L>>): seq<Named<C, L>>
    requires |labels| == |clusters|
  {
    if clusters == [] then []
    else
      var n := |clusters| - 1;
      NamesOf(clusters[..n], labels[..n]) + if labels[n].Some? then [Named(labels[n].value, clusters[n].centroid)]
      else []
  }

  lemma {:induction false} NamesMean<C, L>(clusters: seq<Cluster<C>>, labels: seq<Option<L>>, name: Named<C, L>)
    requires |labels| == |clusters|
    ensures name in NamesOf(clusters, labels) <==>
              exists c :: 0 <= c < |clusters| && labels[c] == Some(name.name) && clusters[c].centroid == name.centroid
  {
    if clusters != [] {
      var n := |clusters| - 1;
      NamesMean(clusters[..n], labels[..n], name);
      if c :| 0 <= c < |clusters| && labels[c] == Some(name.name) && clusters[c].centroid == name.centroid {
        if c < n {
          assert labels[..n][c] == Some(name.name) && clusters[..n][c].centroid == name.centroid;
        }
      }
    }
  }

  /** A named cluster keeps its name when the names of an interrupted run are added. */
  lemma {:induction false} NamedKeepsName<C(!new), L>(distance: Distance<C>, eps: real, clusters: seq<Cluster<C>>,
                                                      names: seq<Named<C, L>>, c: nat)
    requires Metric(distance) && eps >= 0.0 && c < |clusters| && Labels(distance, eps, clusters, names)[c].Some?
    ensures var labels := Labels(distance, eps, clusters, names);
            CarryOver(distance, eps, clusters[c].centroid, names + NamesOf(clusters, labels)) == labels[c]
  {
    var labels := Labels(distance, eps, clusters, names);
    var added := NamesOf(clusters, labels);
    var centroid := clusters[c].centroid;
    var own := Named(labels[c].value, centroid);
    NamesMean(clusters, labels, own);
    var k :| 0 <= k < |added| && added[k] == own;
    var both := names + added;
    assert both[|names| + k] == own && Near(distance, eps, centroid, own.centroid);
    var best := Closest(distance, eps, centroid, both).value;
    assert distance(centroid, both[best].centroid) == Some(0.0);
    assert both[best].centroid == centroid;
    if best < |names| {
      var first := Closest(distance, eps, centroid, names).value;
      assert names[best] == both[best] && both[first] == names[first];
      assert first == best;
    } else {
      assert both[best] == added[best - |names|] && both[best] in added;
      NamesMean(clusters, labels, both[best]);
      var d :| 0 <= d < |clusters| && labels[d] == Some(both[best].name) && clusters[d].centroid == both[best].centroid;
      assert labels[d] == labels[c];
    }
  }

  /** No unnamed cluster lies near a named one. */
  predicate Apart<C, L>(distance: Distance<C>, eps: real, clusters: seq<Cluster<C>>, labels: seq<Option<L>>)
    requires |labels| == |clusters|
  {
    forall c, d :: 0 <= c < |clusters| && 0 <= d < |clusters| && labels[c].None? && labels[d].Some? ==>
      !Near(distance, eps, clusters[c].centroid, clusters[d].centroid)
  }

  /** A rerun after an interrupted replacement carries over exactly the same labels if and only if
      no cluster without a label lies within the matching distance of a cluster with one. */
  lemma {:induction false} RerunKeepsLabelsExactly<C(!new), L>(distance: Distance<C>, eps: real,
                                                               clusters: seq<Cluster<C>>, names: seq<Named<C, L>>)
    requires Metric(distance) && eps >= 0.0
    ensures var labels := Labels(distance, eps, clusters, names);
            Labels(distance, eps, clusters, names + NamesOf(clusters, labels)) == labels <==>
              Apart(distance, eps, clusters, labels)
  {
    var labels := Labels(distance, eps, clusters, names);
    var added := NamesOf(clusters, labels);
    var again := Labels(distance, eps, clusters, names + added);
    forall c | 0 <= c < |clusters|
      ensures again[c] == labels[c] <==> labels[c].Some? || forall d :: 0 <= d < |clusters| && labels[d].Some? ==>
                !Near(distance, eps, clusters[c].centroid, clusters[d].centroid)
    {
      if labels[c].Some? {
        NamedKeepsName(distance, eps, clusters, names, c);
      } else {
        UnnamedStaysUnnamed(distance, eps, clusters, names, c);
      }
    }
    if again == labels {
      forall c, d | 0 <= c < |clusters| && 0 <= d < |clusters| && labels[c].None? && labels[d].Some?
        ensures !Near(distance, eps, clusters[c].centroid, clusters[d].centroid)
      {
        assert again[c] == labels[c];
      }
    }
  }

  lemma {:induction false} UnnamedStaysUnnamed<C, L>(distance: Distance<C>, eps: real, clusters: seq<Cluster<C>>,
                                                     names: seq<Named<C, L>>, c: nat)
    requires c < |clusters| && Labels(distance, eps, clusters, names)[c].None?
    ensures var labels := Labels(distance, eps, clusters, names);
            CarryOver(distance, eps, clusters[c].centroid, names + NamesOf(clusters, labels)).None? <==>
            forall d :: 0 <= d < |clusters| && labels[d].Some? ==>
              !Near(distance, eps, clusters[c].centroid, clusters[d].centroid)
  {
    var labels := Labels(distance, eps, clusters, names);
    var added := NamesOf(clusters, labels);
    var both, centroid := names + added, clusters[c].centroid;
    if CarryOver(distance, eps, centroid, both).Some? {
      var best := Closest(distance, eps, centroid, both).value;
      assert forall k :: 0 <= k < |names| ==> both[k] == names[k];
      assert best >= |names|;
      assert both[best] == added[best - |names|] && both[best] in added;
      NamesMean(clusters, labels, both[best]);
    } else {
      forall d | 0 <= d < |clusters| && labels[d].Some? ensures !Near(distance, eps, centroid, clusters[d].centroid) {
        var name := Named(labels[d].value, clusters[d].centroid);
        NamesMean(clusters, labels, name);
        var k :| 0 <= k < |added| && added[k] == name;
        assert both[|names| + k] == name;
      }
    }
  }

  /** The names after n interrupted runs: each added its generation. */
  function NamesAfter<C, L>(distance: Distance<C>, eps: real, clusters: seq<Cluster<C>>, names: seq<Named<C, L>>,
                            n: nat): seq<Named<C, L>> {
    if n == 0 then names
    else var before := NamesAfter(distance, eps, clusters, names, n - 1);
         before + NamesOf(clusters, Labels(distance, eps, clusters, before))
  }

  /** Then any number of interrupted runs leaves the labels as an uninterrupted one sets them. */
  lemma {:induction false} RerunsKeepLabels<C(!new), L>(distance: Distance<C>, eps: real, clusters: seq<Cluster<C>>,
                                                        names: seq<Named<C, L>>, n: nat)
    requires Metric(distance) && eps >= 0.0 && Apart(distance, eps, clusters, Labels(distance, eps, clusters, names))
    ensures Labels(distance, eps, clusters, NamesAfter(distance, eps, clusters, names, n)) ==
              Labels(distance, eps, clusters, names)
  {
    var labels := Labels(distance, eps, clusters, names);
    var carry: seq<Named<C, L>> -> seq<Option<L>> := some => Labels(distance, eps, clusters, some);
    forall some | carry(some) == labels ensures carry(some + NamesOf(clusters, labels)) == labels {
      OneRerun(distance, eps, clusters, some, labels);
    }
    Repeated(carry, NamesOf(clusters, labels), labels, names, n);
    SameNames(distance, eps, clusters, names, labels, n);
  }

  /** The same names added n times. */
  function Added<N>(names: seq<N>, more: seq<N>, n: nat): seq<N> {
    if n == 0 then names else Added(names, more, n - 1) + more
  }

  lemma {:induction false} Repeated<N, R>(carry: seq<N> -> R, more: seq<N>, labels: R, names: seq<N>, n: nat)
    requires carry(names) == labels && forall some: seq<N> :: carry(some) == labels ==> carry(some + more) == labels
    ensures forall k: nat :: k <= n ==> carry(Added(names, more, k)) == labels
  {
    if n > 0 {
      Repeated(carry, more, labels, names, n - 1);
      assert carry(Added(names, more, n - 1)) == labels;
    }
  }

  lemma {:induction false} SameNames<C, L>(distance: Distance<C>, eps: real, clusters: seq<Cluster<C>>,
                                           names: seq<Named<C, L>>, labels: seq<Option<L>>, n: nat)
    requires |labels| == |clusters| && forall k: nat :: k <= n ==>
               Labels(distance, eps, clusters, Added(names, NamesOf(clusters, labels), k)) == labels
    ensures NamesAfter(distance, eps, clusters, names, n) == Added(names, NamesOf(clusters, labels), n)
  {
    if n > 0 {
      SameNames(distance, eps, clusters, names, labels, n - 1);
      assert Labels(distance, eps, clusters, Added(names, NamesOf(clusters, labels), n - 1)) == labels;
    }
  }

  lemma {:induction false} OneRerun<C(!new), L>(distance: Distance<C>, eps: real, clusters: seq<Cluster<C>>,
                                                names: seq<Named<C, L>>, labels: seq<Option<L>>)
    requires Metric(distance) && eps >= 0.0 && labels == Labels(distance, eps, clusters, names) &&
             Apart(distance, eps, clusters, labels)
    ensures Labels(distance, eps, clusters, names + NamesOf(clusters, labels)) == labels
  {
    RerunKeepsLabelsExactly(distance, eps, clusters, names);
  }

  // ---- Centroids on a line: a label that spreads ----

  function OnLine(a: real, b: real): Option<real> {
    Some(if a < b then b - a else a - b)
  }

  /** Old person at 0.0 named 7; clusters at 1.0 and 2.0, matching distance 1.0: the second cluster
      stays unnamed in one run and gets the name after an interrupted one. */
  lemma {:induction false} LabelSpreads(one: Cluster<real>, two: Cluster<real>)
    requires one.centroid == 1.0 && two.centroid == 2.0
    ensures var names := [Named(7, 0.0)];
            && Labels(OnLine, 1.0, [one, two], names) == [Some(7), None]
            && Labels(OnLine, 1.0, [one, two], NamesAfter(OnLine, 1.0, [one, two], names, 1)) == [Some(7), Some(7)]
  {
    var names := [Named(7, 0.0)];
    FirstLabels(one, two, names);
    var labels := Labels(OnLine, 1.0, [one, two], names);
    var added := NamesOf([one, two], labels);
    assert NamesAfter(OnLine, 1.0, [one, two], names, 0) == names;
    assert NamesAfter(OnLine, 1.0, [one, two], names, 1) == names + added;
    NamesMean([one, two], labels, Named(7, 1.0));
    forall name | name in added ensures name.name == 7 {
      NamesMean([one, two], labels, name);
    }
    AllNear(2.0, names + added, Named(7, 1.0));
    AllNear(1.0, names + added, Named(7, 1.0));
  }

  lemma {:induction false} FirstLabels(one: Cluster<real>, two: Cluster<real>, names: seq<Named<real, int>>)
    requires one.centroid == 1.0 && two.centroid == 2.0 && names == [Named(7, 0.0)]
    ensures Labels(OnLine, 1.0, [one, two], names) == [Some(7), None]
  {
    assert Near(OnLine, 1.0, 1.0, names[0].centroid) && !Near(OnLine, 1.0, 2.0, names[0].centroid);
  }

  lemma {:induction false} AllNear(centroid: real, names: seq<Named<real, int>>, name: Named<real, int>)
    requires name in names && Near(OnLine, 1.0, centroid, name.centroid) && forall k :: 0 <= k < |names| ==>
               names[k].name == 7
    ensures CarryOver(OnLine, 1.0, centroid, names) == Some(7)
  {
    var k :| 0 <= k < |names| && names[k] == name;
    assert Near(OnLine, 1.0, centroid, names[k].centroid);
  }

  // ---- The replacement as the program runs it ----

  class PeopleTable<C, L> {
    var people: map<nat, Person<C, L>>
    var faces: map<nat, Option<nat>>
    var next: nat

    ghost function Value(): State<C, L>
      reads this
    {
      State(people, faces, next)
    }

    constructor (s: State<C, L>)
      ensures Value() == s
    {
      people, faces, next := s.people, s.faces, s.next;
    }

    /** The rows of the new generation, inserted in one transaction. */
    static method InsertPeople(before: map<nat, Person<C, L>>, base: nat, clusters: seq<Cluster<C>>,
                               labels: seq<Option<L>>) returns (people: map<nat, Person<C, L>>)
      requires |labels| == |clusters|
      ensures people == before + Generation(base, clusters, labels)
    {
      people := before;
      for c := 0 to |clusters|
        invariant people == before + Generation(base, clusters[..c], labels[..c])
      {
        GenerationStep(before, base, clusters, labels, c);
        people := people[base + c := Person(labels[c], clusters[c].centroid, |clusters[c].members|)];
      }
      assert clusters[..|clusters|] == clusters && labels[..|labels|] == labels;
    }

    method Commit(people: map<nat, Person<C, L>>, faces: map<nat, Option<nat>>, next: nat)
      modifies this
      ensures Value() == State(people, faces, next)
    {
      this.people, this.faces, this.next := people, faces, next;
    }

    /** The members of one cluster are re-pointed; after every 5000 faces a transaction ends. */
    method MoveGroup(members: seq<nat>, person: nat, before: map<nat, Option<nat>>, count: nat, commits: nat,
                     dies: nat -> bool)
        returns (died: bool, work: map<nat, Option<nat>>, written: nat, commit: nat)
      requires RefsIn(faces, people.Keys) && RefsIn(before, people.Keys) && person in people &&
               faces.Keys == before.Keys
      modifies this`faces
      ensures RefsIn(faces, people.Keys) && faces.Keys == before.Keys
      ensures if died then exists k: nat :: dies(k)
              else work == WrittenGroup(before, person, members) && RefsIn(work, people.Keys) &&
                   work.Keys == before.Keys
    {
      died, work, written, commit := false, before, count, commits;
      for k := 0 to |members|
        invariant RefsIn(faces, people.Keys) && faces.Keys == before.Keys
        invariant work == WrittenGroup(before, person, members[..k])
      {
        assert members[..k + 1][..k] == members[..k];
        if members[k] in work {
          work := work[members[k] := Some(person)];
        }
        written := written + 1;
        if written % CHUNK == 0 {
          if dies(commit) {
            died := true;
            return;
          }
          WrittenGroupRefs(before, person, members[..k + 1], people.Keys);
          faces := work;
          commit := commit + 1;
        }
      }
      assert members[..|members|] == members;
      WrittenGroupRefs(before, person, members, people.Keys);
    }

    /** All clusters, one after another. */
    method MoveAll(clusters: seq<Cluster<C>>, base: nat, dies: nat -> bool)
        returns (died: bool, work: map<nat, Option<nat>>, commit: nat)
      requires RefsIn(faces, people.Keys) && forall id :: base <= id < base + |clusters| ==> id in people
      modifies this`faces
      ensures RefsIn(faces, people.Keys) && faces.Keys == old(faces).Keys
      ensures if died then exists k: nat :: dies(k) else work == Written(old(faces), base, Groups(clusters))
    {
      died, work, commit := false, faces, 1;
      var written := 0;
      ghost var groups: seq<seq<nat>> := [];
      for c := 0 to |clusters|
        invariant RefsIn(faces, people.Keys) && RefsIn(work, people.Keys) &&
                  faces.Keys == work.Keys == old(faces).Keys && !died
        invariant groups == Groups(clusters)[..c] && work == Written(old(faces), base, groups)
      {
        died, work, written, commit := MoveGroup(clusters[c].members, base + c, work, written, commit, dies);
        if died {
          return;
        }
        assert (groups + [clusters[c].members])[..c] == groups;
        groups := groups + [clusters[c].members];
      }
      assert groups == Groups(clusters);
    }

    /** The last transaction clears what still belongs to the old generation. */
    method ClearGeneration(ghost s: State<C, L>, ghost clusters: seq<Cluster<C>>, ghost labels: seq<Option<L>>,
                           work: map<nat, Option<nat>>, oldMax: nat)
      requires Valid(s) && |labels| == |clusters| && oldMax + 1 == Base(s)
      requires people == s.people + Generation(Base(s), clusters, labels) && next == Base(s) + |clusters|
      requires work == Written(s.faces, Base(s), Groups(clusters))
      modifies this
      ensures Value() == Replaced(s, clusters, labels) && Valid(Value())
    {
      var cleared := ClearOld(work, oldMax);
      var kept := DeleteOld(people, oldMax);
      WrittenIsMoved(s.faces, Base(s), Groups(clusters));
      CompletedFaces(s, Groups(clusters));
      GenerationIsNew(s, clusters, labels);
      ReplacementIsValid(s, clusters, labels);
      Commit(kept, cleared, next);
    }

    /** The first transaction adds the new persons beside the old ones. */
    method InsertGeneration(clusters: seq<Cluster<C>>, labels: seq<Option<L>>, oldMax: nat)
      requires Valid(Value()) && |labels| == |clusters| && oldMax + 1 == Base(Value())
      modifies this
      ensures Valid(Value()) && faces == old(faces) && next == oldMax + 1 + |clusters|
      ensures people == old(people) + Generation(oldMax + 1, clusters, labels)
      ensures forall id :: oldMax + 1 <= id < oldMax + 1 + |clusters| ==> id in people
    {
      var added := InsertPeople(people, oldMax + 1, clusters, labels);
      GenerationMeans(oldMax + 1, clusters, labels);
      Commit(added, faces, oldMax + 1 + |clusters|);
    }

    /** `replacePeople`; the process may die at every commit (`dies`), and whatever state it leaves
        on disk then has valid references only. */
    method ReplacePeople(clusters: seq<Cluster<C>>, labels: seq<Option<L>>, dies: nat -> bool) returns (completed: bool)
      requires Valid(Value()) && |labels| == |clusters|
      modifies this
      ensures Valid(Value()) && faces.Keys == old(faces).Keys
      ensures completed ==> Value() == Replaced(old(Value()), clusters, labels)
      ensures !completed ==> exists n: nat :: dies(n)
    {
      ghost var s := Value();
      var oldMax := if next == 0 then 0 else next - 1;
      if dies(0) {
        return false;
      }
      InsertGeneration(clusters, labels, oldMax);
      var died, work, commit := MoveAll(clusters, oldMax + 1, dies);
      if died || dies(commit) {
        return false;
      }
      ClearGeneration(s, clusters, labels, work, oldMax);
      return true;
    }

    /** Faces that still point at the old generation point at nobody. */
    static method ClearOld(before: map<nat, Option<nat>>, oldMax: nat) returns (faces: map<nat, Option<nat>>)
      ensures faces == Cleared(before, oldMax)
    {
      faces := before;
      var rest := before.Keys;
      while rest != {}
        invariant rest <= before.Keys == faces.Keys
        invariant forall f :: f in faces ==> faces[f] == if f in rest then before[f] else Cleared(before, oldMax)[f]
        decreases |rest|
      {
        var f :| f in rest;
        rest := rest - {f};
        if faces[f].Some? && faces[f].value <= oldMax {
          faces := faces[f := None];
        }
      }
    }

    static method DeleteOld(before: map<nat, Person<C, L>>, oldMax: nat) returns (people: map<nat, Person<C, L>>)
      ensures people == Newer(before, oldMax)
    {
      people := map id | id in before && id > oldMax :: before[id];
    }
  }

  function Newer<C, L>(people: map<nat, Person<C, L>>, oldMax: int): map<nat, Person<C, L>> {
    map id | id in people && id > oldMax :: people[id]
  }

  function Cleared(faces: map<nat, Option<nat>>, oldMax: nat): map<nat, Option<nat>> {
    map f | f in faces :: if faces[f].Some? && faces[f].value <= oldMax then None else faces[f]
  }

  lemma {:induction false} GenerationStep<C, L>(before: map<nat, Person<C, L>>, base: nat, clusters: seq<Cluster<C>>,
                                                labels: seq<Option<L>>, c: nat)
    requires |labels| == |clusters| && c < |clusters|
    ensures before + Generation(base, clusters[..c + 1], labels[..c + 1]) ==
            (before + Generation(base, clusters[..c], labels[..c]))[base + c := NewPerson(clusters[c], labels[c])]
  {
    assert clusters[..c + 1][..c] == clusters[..c] && labels[..c + 1][..c] == labels[..c];
  }

  lemma {:induction false} CompletedFaces<C, L>(s: State<C, L>, groups: seq<seq<nat>>)
    requires Valid(s)
    ensures Cleared(Moved(s.faces, Base(s), groups), Base(s) - 1) == Regrouped(s.faces, Base(s), groups)
  {
    assert forall f :: f in s.faces && s.faces[f].Some? ==> s.faces[f].value < Base(s);
  }

  lemma {:induction false} OnlyNew<C, L>(old_people: map<nat, Person<C, L>>, added: map<nat, Person<C, L>>, base: nat)
    requires (forall id :: id in old_people ==> id < base) && (forall id :: id in added ==> base <= id)
    ensures Newer(old_people + added, base - 1) == added
  {
  }

  lemma {:induction false} GenerationIsNew<C, L>(s: State<C, L>, clusters: seq<Cluster<C>>, labels: seq<Option<L>>)
    requires Valid(s) && |labels| == |clusters|
    ensures Newer(s.people + Generation(Base(s), clusters, labels), Base(s) - 1) ==
              Generation(Base(s), clusters, labels)
  {
    GenerationMeans(Base(s), clusters, labels);
    OnlyNew(s.people, Generation(Base(s), clusters, labels), Base(s));
  }
}
