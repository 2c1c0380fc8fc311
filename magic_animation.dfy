/** The position-based animation of the name-based magic cube
    (animate_magic_cube.py): rebuilding the cube_objects dictionaries from
    the document's object names, finding the cubelets of a slice by their
    current centres, and turning a slice step by step about its centre while
    the tracked corner positions follow.  A document object is identified by
    its Name (unique within a document); a shape is represented by its
    centre, which is what the script reads back from it. */
module MagicAnimation {
  import opened Base
  import opened Vectors
  import opened FaceTables

  const DEFAULT_TOLERANCE: real := 5.0

  // ---------------------------------------------------------------------------
  // Insertion-ordered dictionaries (Python dict semantics)

  datatype ODict<V> = ODict(keys: seq<string>, m: map<string, V>)

  /** The keys list every key of the map once, in insertion order. */
  ghost predicate WF<V>(d: ODict<V>)
  {
    (forall k :: k in d.m <==> k in d.keys) &&
    (forall i, j :: 0 <= i < j < |d.keys| ==> d.keys[i] != d.keys[j])
  }

  function EmptyDict<V>(): (d: ODict<V>)
    ensures WF(d) && d.keys == []
  {
    ODict([], map[])
  }

  /** d[k] = v: a new key goes to the end, an existing key keeps its place. */
  function Put<V>(d: ODict<V>, k: string, v: V): (r: ODict<V>)
    requires WF(d)
    ensures WF(r) && r.m == d.m[k := v]
    ensures r.keys == if k in d.m then d.keys else d.keys + [k]
  {
    if k in d.m then ODict(d.keys, d.m[k := v]) else ODict(d.keys + [k], d.m[k := v])
  }

  /** d.values(), in key order. */
  function Values<V(!new)>(d: ODict<V>): (r: seq<V>)
    requires WF(d)
    ensures |r| == |d.keys|
    ensures forall v :: v in r <==> exists k :: k in d.m && d.m[k] == v
  {
    var r := seq(|d.keys|, i requires 0 <= i < |d.keys| => d.m[d.keys[i]]);
    assert forall k :: k in d.m ==> exists i :: 0 <= i < |d.keys| && d.keys[i] == k && r[i] == d.m[k];
    r
  }

  // ---------------------------------------------------------------------------
  // Object names

  /** A document object: its Name, its Label2 when non-empty (already read
      as x,y,z), and the centre of its shape. */
  datatype DocObject = DocObject(name: string, label2: Option<Vec3>, centre: Vec3)

  datatype Group = Centers | Edges | Corners | InnerLegs

  function Prefix(g: Group): string
  {
    match g
    case Centers => "Center_"
    case Edges => "Edge_"
    case Corners => "Corner_"
    case InnerLegs => "InnerLeg_"
  }

  /** The text before the first '_' (all of it when there is none). */
  function KeyOf(s: string): (k: string)
    ensures |k| <= |s| && k == s[..|k|] && '_' !in k
    ensures |k| < |s| ==> s[|k|] == '_'
  {
    if |s| == 0 || s[0] == '_' then "" else [s[0]] + KeyOf(s[1..])
  }

  datatype NameClass = SpiderName | Member(group: Group, key: string) | Unclassified

  /** The if/elif chain of rebuild_cube_objects; the key is
      name.split("_")[1], the field after the prefix. */
  function ClassifyName(name: string): NameClass
  {
    if name == "Spider" then SpiderName
    else if StartsWith(name, "Center_") then Member(Centers, KeyOf(name[7..]))
    else if StartsWith(name, "Edge_") then Member(Edges, KeyOf(name[5..]))
    else if StartsWith(name, "Corner_") then Member(Corners, KeyOf(name[7..]))
    else if StartsWith(name, "InnerLeg_") then Member(InnerLegs, KeyOf(name[9..]))
    else Unclassified
  }

  /** No name starts with two of the prefixes, and "Spider" starts with none,
      so the chain never shadows a later branch: a name is a member of a
      group exactly when it starts with that group's prefix, and its key is
      the field that follows. */
  lemma ClassifyNameExact(name: string, g: Group, k: string)
    ensures ClassifyName(name) == Member(g, k) <==>
      StartsWith(name, Prefix(g)) && k == KeyOf(name[|Prefix(g)|..])
  {
    PrefixesDiffer(name, "Center_", "Edge_", 0);
    PrefixesDiffer(name, "Center_", "Corner_", 1);
    PrefixesDiffer(name, "Center_", "InnerLeg_", 0);
    PrefixesDiffer(name, "Edge_", "Corner_", 0);
    PrefixesDiffer(name, "Edge_", "InnerLeg_", 0);
    PrefixesDiffer(name, "Corner_", "InnerLeg_", 0);
    if name == "Spider" {
      PrefixesDiffer(name, "Spider", Prefix(g), 0);
    }
  }

  /** Two prefixes that differ at some position never both start a name. */
  lemma PrefixesDiffer(name: string, p: string, q: string, i: nat)
    requires i < |p| && i < |q| && p[i] != q[i]
    ensures !(StartsWith(name, p) && StartsWith(name, q))
  {
  }

  // ---------------------------------------------------------------------------
  // rebuild_cube_objects, first pass: sort the objects by name

  datatype Collected = Collected(spider: Option<string>, centers: ODict<string>, edges: ODict<string>,
                                 corners: ODict<string>, innerLegs: ODict<string>)

  function GroupOf(c: Collected, g: Group): ODict<string>
  {
    match g
    case Centers => c.centers
    case Edges => c.edges
    case Corners => c.corners
    case InnerLegs => c.innerLegs
  }

  ghost predicate CollectedWF(c: Collected)
  {
    WF(c.centers) && WF(c.edges) && WF(c.corners) && WF(c.innerLegs)
  }

  function SetGroup(c: Collected, g: Group, d: ODict<string>): (r: Collected)
    ensures GroupOf(r, g) == d && r.spider == c.spider
    ensures forall h :: h != g ==> GroupOf(r, h) == GroupOf(c, h)
    ensures CollectedWF(c) && WF(d) ==> CollectedWF(r)
  {
    match g
    case Centers => c.(centers := d)
    case Edges => c.(edges := d)
    case Corners => c.(corners := d)
    case InnerLegs => c.(innerLegs := d)
  }

  /** An object of the document as the first pass sees it: the class of
      its name, and the name. */
  datatype Entry = Entry(cls: NameClass, name: string)

  function Entries(doc: seq<DocObject>): (es: seq<Entry>)
    ensures |es| == |doc|
    ensures forall i :: 0 <= i < |doc| ==> es[i].name == doc[i].name
    ensures forall i {:trigger ClassifyName(doc[i].name)} :: 0 <= i < |doc| ==> es[i].cls == ClassifyName(doc[i].name)
  {
    seq(|doc|, i requires 0 <= i < |doc| => Entry(ClassifyName(doc[i].name), doc[i].name))
  }

  /** One object of the first pass. */
  function Absorb(c: Collected, e: Entry): (r: Collected)
    requires CollectedWF(c)
    ensures CollectedWF(r)
  {
    match e.cls
    case SpiderName => c.(spider := Some(e.name))
    case Member(g, k) => SetGroup(c, g, Put(GroupOf(c, g), k, e.name))
    case Unclassified => c
  }

  /** What one object does to one group. */
  lemma AbsorbGroup(c: Collected, e: Entry, g: Group)
    requires CollectedWF(c)
    ensures GroupOf(Absorb(c, e), g) ==
      if e.cls.Member? && e.cls.group == g then Put(GroupOf(c, g), e.cls.key, e.name) else GroupOf(c, g)
  {
  }

  function NoneCollected(): (c: Collected)
    ensures CollectedWF(c)
  {
    Collected(None, EmptyDict(), EmptyDict(), EmptyDict(), EmptyDict())
  }

  /** The first pass over the objects, in document order. */
  function Collect(es: seq<Entry>): (c: Collected)
    ensures CollectedWF(c)
  {
    if |es| == 0 then NoneCollected() else Absorb(Collect(es[..|es| - 1]), es[|es| - 1])
  }

  function CollectAll(doc: seq<DocObject>): (c: Collected)
    ensures CollectedWF(c)
  {
    Collect(Entries(doc))
  }

  /** The entry files its object under key k of group g. */
  predicate Files(e: Entry, g: Group, k: string)
  {
    e.cls.Member? && e.cls.group == g && e.cls.key == k
  }

  /** The group g of the collected objects holds key k exactly when some
      object's name classifies as (g, k). */
  lemma {:induction false} CollectHas(es: seq<Entry>, g: Group, k: string)
    ensures k in GroupOf(Collect(es), g).m <==> SomeFiling(es, g, k)
  {
    if |es| > 0 {
      CollectHas(es[..|es| - 1], g, k);
      CollectHasStep(es, g, k);
      FilingStep(es, g, k);
    } else {
      assert GroupOf(Collect(es), g).m == map[];
    }
  }

  /** The last object adds key k, or the key is there exactly when it was. */
  lemma CollectHasStep(es: seq<Entry>, g: Group, k: string)
    requires |es| > 0
    ensures k in GroupOf(Collect(es), g).m <==> Files(es[|es| - 1], g, k) || k in GroupOf(Collect(es[..|es| - 1]), g).m
  {
    CollectStepKey(es, g, k);
  }

  /** Some object of the list files its object under (g, k). */
  predicate SomeFiling(es: seq<Entry>, g: Group, k: string)
  {
    exists i :: 0 <= i < |es| && Files(es[i], g, k)
  }

  /** Some object files (g, k) exactly when the last one or an earlier one does. */
  lemma FilingStep(es: seq<Entry>, g: Group, k: string)
    requires |es| > 0
    ensures SomeFiling(es, g, k) <==> Files(es[|es| - 1], g, k) || SomeFiling(es[..|es| - 1], g, k)
  {
    var init := es[..|es| - 1];
    if exists i :: 0 <= i < |es| && Files(es[i], g, k) {
      var i :| 0 <= i < |es| && Files(es[i], g, k);
      if i < |es| - 1 {
        assert init[i] == es[i];
      }
    }
    if exists i :: 0 <= i < |init| && Files(init[i], g, k) {
      var i :| 0 <= i < |init| && Files(init[i], g, k);
      assert es[i] == init[i];
    }
  }

  /** What the last object does to key k of group g. */
  lemma CollectStepKey(es: seq<Entry>, g: Group, k: string)
    requires |es| > 0
    ensures var before, after := GroupOf(Collect(es[..|es| - 1]), g), GroupOf(Collect(es), g);
            if Files(es[|es| - 1], g, k) then k in after.m && after.m[k] == es[|es| - 1].name
            else (k in after.m <==> k in before.m) && (k in before.m ==> after.m[k] == before.m[k])
  {
    AbsorbGroup(Collect(es[..|es| - 1]), es[|es| - 1], g);
  }

  /** No object after index j classifies as (g, k). */
  predicate NoLaterFiling(es: seq<Entry>, g: Group, k: string, j: nat)
  {
    forall i :: j < i < |es| ==> !Files(es[i], g, k)
  }

  /** When it holds key k, it holds the LAST object whose name classifies
      as (g, k): a later object with the same key replaces the earlier one. */
  lemma {:induction false} CollectLast(es: seq<Entry>, g: Group, k: string)
    requires k in GroupOf(Collect(es), g).m
    ensures exists j :: (0 <= j < |es| && Files(es[j], g, k) &&
      GroupOf(Collect(es), g).m[k] == es[j].name && NoLaterFiling(es, g, k, j))
  {
    var init := es[..|es| - 1];
    CollectStepKey(es, g, k);
    if Files(es[|es| - 1], g, k) {
      assert NoLaterFiling(es, g, k, |es| - 1);
    } else {
      CollectLast(init, g, k);
      var j :| (0 <= j < |init| && Files(init[j], g, k) && GroupOf(Collect(init), g).m[k] == init[j].name &&
        NoLaterFiling(init, g, k, j));
      NoLaterFilingStep(es, g, k, j);
    }
  }

  /** An object of the prefix that nothing later in the prefix overrides,
      and a last object that does not file (g, k), stay the last filing. */
  lemma NoLaterFilingStep(es: seq<Entry>, g: Group, k: string, j: nat)
    requires j < |es| - 1 && !Files(es[|es| - 1], g, k) && NoLaterFiling(es[..|es| - 1], g, k, j)
    ensures es[j] == es[..|es| - 1][j] && NoLaterFiling(es, g, k, j)
  {
    var init := es[..|es| - 1];
    forall i | j < i < |es| ensures !Files(es[i], g, k) {
      if i < |init| {
        assert es[i] == init[i];
      }
    }
  }

  /** What one object does to the spider entry. */
  lemma AbsorbSpider(c: Collected, e: Entry)
    requires CollectedWF(c)
    ensures Absorb(c, e).spider == if e.cls.SpiderName? then Some(e.name) else c.spider
  {
  }

  /** The spider entry is set exactly when some object is the spider. */
  lemma {:induction false} CollectSpiderHas(es: seq<Entry>)
    ensures Collect(es).spider.Some? <==> exists i :: 0 <= i < |es| && es[i].cls.SpiderName?
  {
    if |es| > 0 {
      var init := es[..|es| - 1];
      var last := es[|es| - 1];
      CollectSpiderHas(init);
      AbsorbSpider(Collect(init), last);
      if last.cls.SpiderName? {
        assert es[|es| - 1].cls.SpiderName?;
      } else if Collect(init).spider.Some? {
        var j :| 0 <= j < |init| && init[j].cls.SpiderName?;
        assert es[j] == init[j];
      } else {
        forall i | 0 <= i < |es| ensures !es[i].cls.SpiderName? {
          if i < |init| {
            assert es[i] == init[i];
          } else {
            assert es[i] == last;
          }
        }
      }
    } else {
      assert Collect(es).spider == None;
    }
  }

  /** When it is set, it is the last object that is the spider. */
  lemma {:induction false} CollectSpiderLast(es: seq<Entry>)
    requires Collect(es).spider.Some?
    ensures exists j :: (0 <= j < |es| && es[j].cls.SpiderName? && Collect(es).spider.value == es[j].name &&
      forall i :: j < i < |es| ==> !es[i].cls.SpiderName?)
  {
    var init := es[..|es| - 1];
    var last := es[|es| - 1];
    AbsorbSpider(Collect(init), last);
    if last.cls.SpiderName? {
      assert Collect(es).spider.value == es[|es| - 1].name;
    } else {
      CollectSpiderLast(init);
      var j :| 0 <= j < |init| && init[j].cls.SpiderName? && Collect(init).spider.value == init[j].name &&
        forall i :: j < i < |init| ==> !init[i].cls.SpiderName?;
      assert es[j] == init[j];
      forall i | j < i < |es| ensures !es[i].cls.SpiderName? {
        if i < |init| {
          assert es[i] == init[i];
        } else {
          assert es[i] == last;
        }
      }
    }
  }

  /** Only the object named "Spider" classifies as the spider. */
  lemma SpiderByName(name: string)
    ensures ClassifyName(name) == SpiderName <==> name == "Spider"
  {
  }

  /** Every document object's shape centre, by Name. */
  function ShapesOf(doc: seq<DocObject>): (m: map<string, Vec3>)
    ensures forall i :: 0 <= i < |doc| ==> doc[i].name in m
  {
    if |doc| == 0 then map[]
    else ShapesOf(doc[..|doc| - 1])[doc[|doc| - 1].name := doc[|doc| - 1].centre]
  }

  /** The objects with a non-empty Label2, by Name. */
  function Label2Of(doc: seq<DocObject>): map<string, Vec3>
  {
    if |doc| == 0 then map[]
    else
      var m := Label2Of(doc[..|doc| - 1]);
      match doc[|doc| - 1].label2
      case None => m
      case Some(p) => m[doc[|doc| - 1].name := p]
  }

  /** Every name the first pass files in a group is the name of a document object. */
  lemma GroupNamesAreObjects(doc: seq<DocObject>, g: Group)
    ensures forall k :: k in GroupOf(CollectAll(doc), g).m ==> GroupOf(CollectAll(doc), g).m[k] in ShapesOf(doc)
    ensures forall o :: o in Values(GroupOf(CollectAll(doc), g)) ==> o in ShapesOf(doc)
  {
    var d := GroupOf(CollectAll(doc), g);
    forall k | k in d.m
      ensures d.m[k] in ShapesOf(doc)
    {
      CollectLast(Entries(doc), g, k);
      var j :| 0 <= j < |doc| && d.m[k] == Entries(doc)[j].name;
      assert Entries(doc)[j].name == doc[j].name;
    }
  }

  lemma RebuildNamesAreObjects(doc: seq<DocObject>)
    ensures var c := CollectAll(doc);
      (forall o :: o in AllCubelets(c.centers, c.edges, c.corners) ==> o in ShapesOf(doc)) &&
      (forall k :: k in c.corners.m ==> c.corners.m[k] in ShapesOf(doc)) &&
      (forall k :: k in c.innerLegs.m ==> c.innerLegs.m[k] in ShapesOf(doc))
  {
    var c := CollectAll(doc);
    GroupNamesAreObjects(doc, Centers);
    GroupNamesAreObjects(doc, Edges);
    GroupNamesAreObjects(doc, Corners);
    GroupNamesAreObjects(doc, InnerLegs);
    assert GroupOf(c, Centers) == c.centers && GroupOf(c, Edges) == c.edges;
    assert GroupOf(c, Corners) == c.corners && GroupOf(c, InnerLegs) == c.innerLegs;
    var a, b, e := Values(c.centers), Values(c.edges), Values(c.corners);
    assert forall o :: o in a + b + e ==> o in a || o in b || o in e;
  }

  // ---------------------------------------------------------------------------
  // rebuild_cube_objects, second pass: attach the inner legs to their corners

  datatype LegInfo = LegInfo(corner: string, cornerObj: string, inner: string, direction: Vec3)

  /** Where a corner's leg points from: its stored Label2 when present,
      otherwise its shape centre.  This unnormalised point is what is
      tracked; only the leg's direction is normalised. */
  function CornerPos(o: string, label2: map<string, Vec3>, shapes: map<string, Vec3>): Vec3
    requires o in shapes
  {
    if o in label2 then label2[o] else shapes[o]
  }

  /** The legs list and tracked corner positions after the inner legs with
      the given keys have been visited in order; `norm` is
      App.Vector.normalize. */
  function LinkLegs(keys: seq<string>, inner: ODict<string>, corners: ODict<string>,
                    label2: map<string, Vec3>, shapes: map<string, Vec3>, norm: Vec3 -> Vec3): (r: (seq<LegInfo>, map<string, Vec3>))
    requires forall k :: k in keys ==> k in inner.m
    requires forall k :: k in corners.m ==> corners.m[k] in shapes
    ensures |r.0| <= |keys|
  {
    if |keys| == 0 then ([], map[])
    else
      var init := keys[..|keys| - 1];
      assert forall k :: k in init ==> k in keys;
      var (legs, cp) := LinkLegs(init, inner, corners, label2, shapes, norm);
      var k := keys[|keys| - 1];
      if k in corners.m then
        var obj := corners.m[k];
        var pos := CornerPos(obj, label2, shapes);
        (legs + [LegInfo(k, obj, inner.m[k], norm(pos))], cp[obj := pos])
      else (legs, cp)
  }

  /** Every leg entry belongs to an inner leg whose corner key exists, joins
      that corner object to that inner leg, points along the normalised
      corner position, and the corner's tracked position is that position
      unnormalised. */
  lemma {:induction false} LinkLegsSound(keys: seq<string>, inner: ODict<string>, corners: ODict<string>,
                                         label2: map<string, Vec3>, shapes: map<string, Vec3>, norm: Vec3 -> Vec3)
    requires forall k :: k in keys ==> k in inner.m
    requires forall k :: k in corners.m ==> corners.m[k] in shapes
    ensures var (legs, cp) := LinkLegs(keys, inner, corners, label2, shapes, norm);
      forall l :: l in legs ==>
        l.corner in keys && l.corner in corners.m && l.cornerObj == corners.m[l.corner] &&
        l.inner == inner.m[l.corner] && l.cornerObj in cp &&
        cp[l.cornerObj] == CornerPos(l.cornerObj, label2, shapes) &&
        l.direction == norm(CornerPos(l.cornerObj, label2, shapes))
  {
    if |keys| > 0 {
      var init := keys[..|keys| - 1];
      assert forall k :: k in init ==> k in keys;
      assert forall k :: k in keys ==> k in init || k == keys[|keys| - 1];
      LinkLegsSound(init, inner, corners, label2, shapes, norm);
      var legs, cp := LinkLegs(init, inner, corners, label2, shapes, norm).0, LinkLegs(init, inner, corners, label2, shapes, norm).1;
      var k := keys[|keys| - 1];
      if k in corners.m {
        var obj := corners.m[k];
        var pos := CornerPos(obj, label2, shapes);
        var x := LegInfo(k, obj, inner.m[k], norm(pos));
        assert LinkLegs(keys, inner, corners, label2, shapes, norm) == (legs + [x], cp[obj := pos]);
        assert forall l :: l in legs + [x] <==> l in legs || l == x;
      } else {
        assert LinkLegs(keys, inner, corners, label2, shapes, norm) == (legs, cp);
      }
    }
  }

  /** Every inner leg whose corner exists gets an entry. */
  lemma {:induction false} LinkLegsComplete(keys: seq<string>, inner: ODict<string>, corners: ODict<string>,
                                         label2: map<string, Vec3>, shapes: map<string, Vec3>, norm: Vec3 -> Vec3)
    requires forall k :: k in keys ==> k in inner.m
    requires forall k :: k in corners.m ==> corners.m[k] in shapes
    ensures forall k :: k in keys && k in corners.m ==>
      exists l :: l in LinkLegs(keys, inner, corners, label2, shapes, norm).0 && l.corner == k
  {
    if |keys| > 0 {
      var init := keys[..|keys| - 1];
      assert forall k :: k in init ==> k in keys;
      assert forall k :: k in keys ==> k in init || k == keys[|keys| - 1];
      LinkLegsComplete(init, inner, corners, label2, shapes, norm);
      var legs, cp := LinkLegs(init, inner, corners, label2, shapes, norm).0, LinkLegs(init, inner, corners, label2, shapes, norm).1;
      var k := keys[|keys| - 1];
      if k in corners.m {
        var obj := corners.m[k];
        var pos := CornerPos(obj, label2, shapes);
        var x := LegInfo(k, obj, inner.m[k], norm(pos));
        assert LinkLegs(keys, inner, corners, label2, shapes, norm) == (legs + [x], cp[obj := pos]);
        assert forall l :: l in legs + [x] <==> l in legs || l == x;
      } else {
        assert LinkLegs(keys, inner, corners, label2, shapes, norm) == (legs, cp);
      }
    }
  }

  /** Every tracked corner is the corner object of some entry (the converse
      is part of LinkLegsSound). */
  lemma {:induction false} LinkLegsTracked(keys: seq<string>, inner: ODict<string>, corners: ODict<string>,
                                         label2: map<string, Vec3>, shapes: map<string, Vec3>, norm: Vec3 -> Vec3)
    requires forall k :: k in keys ==> k in inner.m
    requires forall k :: k in corners.m ==> corners.m[k] in shapes
    ensures forall o :: o in LinkLegs(keys, inner, corners, label2, shapes, norm).1 ==>
      exists l :: l in LinkLegs(keys, inner, corners, label2, shapes, norm).0 && l.cornerObj == o
  {
    if |keys| > 0 {
      var init := keys[..|keys| - 1];
      assert forall k :: k in init ==> k in keys;
      LinkLegsTracked(init, inner, corners, label2, shapes, norm);
      var legs, cp := LinkLegs(init, inner, corners, label2, shapes, norm).0, LinkLegs(init, inner, corners, label2, shapes, norm).1;
      var k := keys[|keys| - 1];
      if k in corners.m {
        var obj := corners.m[k];
        var pos := CornerPos(obj, label2, shapes);
        var x := LegInfo(k, obj, inner.m[k], norm(pos));
        assert LinkLegs(keys, inner, corners, label2, shapes, norm) == (legs + [x], cp[obj := pos]);
        assert forall l :: l in legs ==> l in legs + [x];
        assert x in legs + [x];
      } else {
        assert LinkLegs(keys, inner, corners, label2, shapes, norm) == (legs, cp);
      }
    }
  }

  /** The first pass, as the loop over doc.Objects performs it. */
  method CollectObjects(doc: seq<DocObject>) returns (c: Collected)
    ensures c == CollectAll(doc)
  {
    c := NoneCollected();
    for i := 0 to |doc|
      invariant c == Collect(Entries(doc)[..i])
    {
      assert Entries(doc)[..i + 1][..i] == Entries(doc)[..i];
      c := Absorb(c, Entry(ClassifyName(doc[i].name), doc[i].name));
    }
    assert Entries(doc)[..|doc|] == Entries(doc);
  }

  /** The second pass, as the loop over inner_legs performs it. */
  method LinkInnerLegs(keys: seq<string>, inner: ODict<string>, corners: ODict<string>,
                       label2: map<string, Vec3>, shapes: map<string, Vec3>, norm: Vec3 -> Vec3)
    returns (legs: seq<LegInfo>, cp: map<string, Vec3>)
    requires forall k :: k in keys ==> k in inner.m
    requires forall k :: k in corners.m ==> corners.m[k] in shapes
    ensures (legs, cp) == LinkLegs(keys, inner, corners, label2, shapes, norm)
  {
    legs, cp := [], map[];
    for t := 0 to |keys|
      invariant (legs, cp) == LinkLegs(keys[..t], inner, corners, label2, shapes, norm)
    {
      var k := keys[t];
      assert keys[..t + 1][..t] == keys[..t];
      if k in corners.m {
        var obj := corners.m[k];
        var pos := CornerPos(obj, label2, shapes);
        cp := cp[obj := pos];
        legs := legs + [LegInfo(k, obj, inner.m[k], norm(pos))];
      }
    }
    assert keys[..|keys|] == keys;
  }

  /** The legs the second pass links join objects of the document. */
  lemma RebuildLegsAreObjects(doc: seq<DocObject>, norm: Vec3 -> Vec3)
    ensures var c := CollectAll(doc);
      (forall k :: k in c.corners.m ==> c.corners.m[k] in ShapesOf(doc)) &&
      forall l :: l in LinkLegs(c.innerLegs.keys, c.innerLegs, c.corners, Label2Of(doc), ShapesOf(doc), norm).0 ==>
        l.inner in ShapesOf(doc) && l.cornerObj in ShapesOf(doc)
  {
    var c := CollectAll(doc);
    RebuildNamesAreObjects(doc);
    LinkLegsSound(c.innerLegs.keys, c.innerLegs, c.corners, Label2Of(doc), ShapesOf(doc), norm);
  }

  // ---------------------------------------------------------------------------
  // Finding a slice

  /** The coordinate of a point along axis index 0 (x), 1 (y) or 2 (z). */
  function Coordinate(v: Vec3, axisIndex: int): real
  {
    if axisIndex == 0 then v.x else if axisIndex == 1 then v.y else v.z
  }

  /** get_cubelet_center: a corner (one of the corners dictionary's values)
      is at its tracked position, else at its stored Label2 position, else
      at its shape centre; any other cubelet is at its shape centre. */
  function CubeletCenter(o: string, cornerObjs: seq<string>, tracked: map<string, Vec3>,
                         label2: map<string, Vec3>, shapes: map<string, Vec3>): Vec3
    requires o in shapes
  {
    if o in cornerObjs then
      (if o in tracked then tracked[o] else CornerPos(o, label2, shapes))
    else shapes[o]
  }

  /** The current centre of every object. */
  function Centres(cornerObjs: seq<string>, tracked: map<string, Vec3>,
                   label2: map<string, Vec3>, shapes: map<string, Vec3>): (m: map<string, Vec3>)
    ensures m.Keys == shapes.Keys
  {
    map o | o in shapes :: CubeletCenter(o, cornerObjs, tracked, label2, shapes)
  }

  /** Right after the rebuild the tracked positions agree with what the
      fallbacks would give: a corner is at its Label2 position when it has
      one and at its shape centre otherwise, tracked or not; any other
      cubelet is at its shape centre. */
  lemma {:induction false} RebuiltCentre(keys: seq<string>, inner: ODict<string>, corners: ODict<string>,
                                         label2: map<string, Vec3>, shapes: map<string, Vec3>, norm: Vec3 -> Vec3,
                                         cornerObjs: seq<string>, o: string)
    requires forall k :: k in keys ==> k in inner.m
    requires forall k :: k in corners.m ==> corners.m[k] in shapes
    requires o in shapes
    ensures CubeletCenter(o, cornerObjs, LinkLegs(keys, inner, corners, label2, shapes, norm).1, label2, shapes) ==
            if o in cornerObjs then CornerPos(o, label2, shapes) else shapes[o]
  {
    var cp := LinkLegs(keys, inner, corners, label2, shapes, norm).1;
    if o in cp {
      LinkLegsTracked(keys, inner, corners, label2, shapes, norm);
      LinkLegsSound(keys, inner, corners, label2, shapes, norm);
    }
  }

  predicate InSlice(p: Vec3, axisIndex: int, sliceValue: real, tolerance: real)
  {
    Abs(Coordinate(p, axisIndex) - sliceValue) < tolerance
  }

  /** The cubelets of `xs`, in order, whose centre is within `tolerance` of
      `sliceValue` along the axis. */
  function AtSlice(xs: seq<string>, axisIndex: int, sliceValue: real, tolerance: real,
                   centres: map<string, Vec3>): (r: seq<string>)
    requires forall o :: o in xs ==> o in centres
    ensures |r| <= |xs|
    ensures forall o :: o in r <==> (o in xs && InSlice(centres[o], axisIndex, sliceValue, tolerance))
  {
    if |xs| == 0 then []
    else
      var init := xs[..|xs| - 1];
      assert forall o :: o in xs <==> o in init || o == xs[|xs| - 1];
      var o := xs[|xs| - 1];
      AtSlice(init, axisIndex, sliceValue, tolerance, centres) +
      (if InSlice(centres[o], axisIndex, sliceValue, tolerance) then [o] else [])
  }

  /** Filtering a concatenation filters each part in turn. */
  lemma {:induction false} AtSliceAppend(a: seq<string>, b: seq<string>, axisIndex: int, sliceValue: real,
                                         tolerance: real, centres: map<string, Vec3>)
    requires forall o :: o in a + b ==> o in centres
    ensures forall o :: o in a ==> o in a + b
    ensures forall o :: o in b ==> o in a + b
    ensures AtSlice(a + b, axisIndex, sliceValue, tolerance, centres) ==
      AtSlice(a, axisIndex, sliceValue, tolerance, centres) + AtSlice(b, axisIndex, sliceValue, tolerance, centres)
  {
    if |b| > 0 {
      var b' := b[..|b| - 1];
      assert (a + b)[..|a + b| - 1] == a + b';
      assert forall o :: o in a + b' ==> o in a + b;
      AtSliceAppend(a, b', axisIndex, sliceValue, tolerance, centres);
    } else {
      assert a + b == a;
    }
  }

  /** centers.values() + edges.values() + corners.values(). */
  function AllCubelets(centers: ODict<string>, edges: ODict<string>, corners: ODict<string>): seq<string>
    requires WF(centers) && WF(edges) && WF(corners)
  {
    Values(centers) + Values(edges) + Values(corners)
  }

  /** get_cubelets_at_position lists the matching centres first, then the
      matching edges, then the matching corners. */
  lemma CubeletsAtPositionOrder(centers: seq<string>, edges: seq<string>, corners: seq<string>,
                                axisIndex: int, sliceValue: real, tolerance: real, centres: map<string, Vec3>)
    requires forall o :: o in centers + edges + corners ==> o in centres
    ensures forall o :: o in centers ==> o in centres
    ensures forall o :: o in edges ==> o in centres
    ensures forall o :: o in corners ==> o in centres
    ensures AtSlice(centers + edges + corners, axisIndex, sliceValue, tolerance, centres) ==
      AtSlice(centers, axisIndex, sliceValue, tolerance, centres) +
      AtSlice(edges, axisIndex, sliceValue, tolerance, centres) +
      AtSlice(corners, axisIndex, sliceValue, tolerance, centres)
  {
    AtSliceAppend(centers + edges, corners, axisIndex, sliceValue, tolerance, centres);
    AtSliceAppend(centers, edges, axisIndex, sliceValue, tolerance, centres);
  }

  /** get_legs_for_cubelets: for each cubelet in order, every leg entry whose
      corner object it is, as (inner leg, direction). */
  function LegsFor(cubelets: seq<string>, legs: seq<LegInfo>): (r: seq<(string, Vec3)>)
    ensures forall x :: x in r <==> exists l :: l in legs && l.cornerObj in cubelets && x == (l.inner, l.direction)
  {
    if |cubelets| == 0 then []
    else
      var init := cubelets[..|cubelets| - 1];
      assert forall o :: o in cubelets <==> o in init || o == cubelets[|cubelets| - 1];
      LegsFor(init, legs) + LegsOf(cubelets[|cubelets| - 1], legs)
  }

  function LegsOf(cubelet: string, legs: seq<LegInfo>): (r: seq<(string, Vec3)>)
    ensures forall x :: x in r <==> exists l :: l in legs && l.cornerObj == cubelet && x == (l.inner, l.direction)
  {
    if |legs| == 0 then []
    else
      var init := legs[..|legs| - 1];
      assert forall l :: l in legs <==> l in init || l == legs[|legs| - 1];
      var l := legs[|legs| - 1];
      LegsOf(cubelet, init) + (if l.cornerObj == cubelet then [(l.inner, l.direction)] else [])
  }

  /** The legs come grouped by cubelet, in cubelet order. */
  lemma {:induction false} LegsForAppend(a: seq<string>, b: seq<string>, legs: seq<LegInfo>)
    ensures LegsFor(a + b, legs) == LegsFor(a, legs) + LegsFor(b, legs)
  {
    if |b| > 0 {
      var b' := b[..|b| - 1];
      assert (a + b)[..|a + b| - 1] == a + b';
      LegsForAppend(a, b', legs);
    } else {
      assert a + b == a;
    }
  }

  function Inners(ls: seq<(string, Vec3)>): (r: seq<string>)
    ensures |r| == |ls| && forall i :: 0 <= i < |ls| ==> r[i] == ls[i].0
  {
    seq(|ls|, i requires 0 <= i < |ls| => ls[i].0)
  }

  /** The inner legs to rotate are legs of the table, hence objects. */
  lemma InnersAreObjects(cubelets: seq<string>, legs: seq<LegInfo>, shapes: map<string, Vec3>)
    requires forall l :: l in legs ==> l.inner in shapes
    ensures forall o :: o in Inners(LegsFor(cubelets, legs)) ==> o in shapes
  {
    var ls := LegsFor(cubelets, legs);
    forall o | o in Inners(ls) ensures o in shapes {
      var i :| 0 <= i < |ls| && Inners(ls)[i] == o;
      assert ls[i] in ls;
    }
  }

  // ---------------------------------------------------------------------------
  // Turning a slice

  /** face_config: the axis index, the slice value and the axis vector. */
  function FaceConfigOf(f: FaceName): (int, real, Vec3)
  {
    match f
    case R => (0, CUBELET_SIZE, Vec3(1.0, 0.0, 0.0))
    case L => (0, -CUBELET_SIZE, Vec3(1.0, 0.0, 0.0))
    case U => (1, CUBELET_SIZE, Vec3(0.0, 1.0, 0.0))
    case D => (1, -CUBELET_SIZE, Vec3(0.0, 1.0, 0.0))
    case F => (2, CUBELET_SIZE, Vec3(0.0, 0.0, 1.0))
    case B => (2, -CUBELET_SIZE, Vec3(0.0, 0.0, 1.0))
  }

  function FaceConfig(face: string): (r: Option<(int, real, Vec3)>)
    ensures r.Some? <==> ParseFace(face).Some?
  {
    match ParseFace(face)
    case None => None
    case Some(f) => Some(FaceConfigOf(f))
  }

  /** The rotation centre: slice_value at axis_index, 0 elsewhere. */
  function SliceCentre(axisIndex: int, sliceValue: real): (c: Vec3)
    ensures Coordinate(c, axisIndex) == sliceValue
    ensures forall j :: 0 <= j < 3 && j != axisIndex && 0 <= axisIndex < 3 ==> Coordinate(c, j) == 0.0
  {
    if axisIndex == 0 then Vec3(sliceValue, 0.0, 0.0)
    else if axisIndex == 1 then Vec3(0.0, sliceValue, 0.0)
    else Vec3(0.0, 0.0, sliceValue)
  }

  /** The animation's axis and rotation centre are the face axis and face
      centre of get_face_axis, and its slice is the face's layer. */
  lemma FaceConfigMatchesFaceAxis(f: FaceName)
    ensures FaceConfigOf(f).2 == GetFaceAxis([Letter(f)]).0
    ensures SliceCentre(FaceConfigOf(f).0, FaceConfigOf(f).1) == GetFaceAxis([Letter(f)]).1
    ensures FaceConfigOf(f).1 == FaceLayer(f).1 as real * CUBELET_SIZE
  {
    assert GetFaceAxis([Letter(f)]) == FaceAxisOf(f);
    match f
    case R => case L => case U => case D => case F => case B =>
  }

  /** angle / steps, as Python's true division. */
  function AnglePerStep(angle: real, steps: int): (r: Result<real>)
    ensures r.Err? <==> steps == 0
    ensures r.Err? ==> r.error == ZeroDivisionError
  {
    if steps == 0 then Err(ZeroDivisionError) else Ok(angle / steps as real)
  }

  /** The steps together turn by exactly the requested angle. */
  lemma StepsMakeAngle(angle: real, steps: int)
    requires steps != 0
    ensures AnglePerStep(angle, steps).value * steps as real == angle
  {
  }

  /** rotate_shape_around_axis on a point: translate by -c, rotate, translate back. */
  function RotateAbout(p: Vec3, c: Vec3, r: Mat3): Vec3
  {
    Add(MatVec(r, Sub(p, c)), c)
  }

  /** It is the pivot placement of the world-coordinate cube applied to the point. */
  lemma RotateAboutIsPivot(p: Vec3, c: Vec3, r: Mat3)
    ensures RotateAbout(p, c, r) == Apply(Pivot(r, c), p)
  {
    PivotRotatesAboutCenter(r, c, p);
  }

  /** `n` successive step rotations about the same centre. */
  function Spin(p: Vec3, c: Vec3, r: Mat3, n: nat): Vec3
  {
    if n == 0 then p else RotateAbout(Spin(p, c, r, n - 1), c, r)
  }

  /** The centre is a fixed point of every step, hence of the whole turn. */
  lemma {:induction false} SpinFixesCentre(c: Vec3, r: Mat3, n: nat)
    ensures Spin(c, c, r, n) == c
  {
    if n > 0 {
      SpinFixesCentre(c, r, n - 1);
      assert Sub(c, c) == Zero;
      assert MatVec(r, Zero) == Zero;
    }
  }

  /** Turning by a steps and then by b steps is turning by a + b steps. */
  lemma {:induction false} SpinAdds(p: Vec3, c: Vec3, r: Mat3, a: nat, b: nat)
    ensures Spin(Spin(p, c, r, a), c, r, b) == Spin(p, c, r, a + b)
  {
    if b > 0 {
      SpinAdds(p, c, r, a, b - 1);
    }
  }

  /** `r` turns about coordinate axis `axisIndex` (0, 1 or 2): its row for
      that axis is the unit row. */
  predicate AboutAxis(r: Mat3, axisIndex: int)
  {
    0 <= axisIndex < 3 &&
    (axisIndex == 0 ==> r.r0 == Vec3(1.0, 0.0, 0.0)) &&
    (axisIndex == 1 ==> r.r1 == Vec3(0.0, 1.0, 0.0)) &&
    (axisIndex == 2 ==> r.r2 == Vec3(0.0, 0.0, 1.0))
  }

  /** A rotation about the slice axis (its row for that axis is the unit
      row) keeps a point's coordinate along the axis, so cubelets stay in
      their slice and tracked corners stay on it. */
  lemma {:induction false} SpinKeepsSlice(p: Vec3, c: Vec3, r: Mat3, n: nat, axisIndex: int)
    requires AboutAxis(r, axisIndex)
    ensures Coordinate(Spin(p, c, r, n), axisIndex) == Coordinate(p, axisIndex)
  {
    if n > 0 {
      SpinKeepsSlice(p, c, r, n - 1, axisIndex);
    }
  }

  /** Every point of `m` turned once per occurrence of its name in `xs`. */
  function SpinAll(m: map<string, Vec3>, xs: seq<string>, c: Vec3, r: Mat3): (m': map<string, Vec3>)
    ensures m'.Keys == m.Keys
  {
    map o | o in m :: Spin(m[o], c, r, multiset(xs)[o])
  }

  /** Turning the names of a list one after another, as the loops do. */
  lemma SpinAllSnoc(m: map<string, Vec3>, xs: seq<string>, x: string, c: Vec3, r: Mat3)
    ensures SpinAll(m, xs + [x], c, r) ==
      if x in m then SpinAll(m, xs, c, r)[x := RotateAbout(SpinAll(m, xs, c, r)[x], c, r)] else SpinAll(m, xs, c, r)
  {
    var before, after := SpinAll(m, xs, c, r), SpinAll(m, xs + [x], c, r);
    assert multiset(xs + [x]) == multiset(xs) + multiset{x};
    forall o | o in m
      ensures after[o] == if o == x then RotateAbout(before[o], c, r) else before[o]
    {
      if o == x {
        assert multiset(xs + [x])[o] == multiset(xs)[o] + 1;
      } else {
        assert multiset(xs + [x])[o] == multiset(xs)[o];
      }
    }
  }

  /** Applying the turns of one list and then those of another is applying
      the turns of both. */
  lemma SpinAllAppend(m: map<string, Vec3>, xs: seq<string>, ys: seq<string>, c: Vec3, r: Mat3)
    ensures SpinAll(SpinAll(m, xs, c, r), ys, c, r) == SpinAll(m, xs + ys, c, r)
  {
    assert multiset(xs + ys) == multiset(xs) + multiset(ys);
    forall o | o in m
      ensures SpinAll(SpinAll(m, xs, c, r), ys, c, r)[o] == SpinAll(m, xs + ys, c, r)[o]
    {
      SpinAdds(m[o], c, r, multiset(xs)[o], multiset(ys)[o]);
    }
  }

  /** Each point after `steps` steps, when every step turns each name of
      `xs` once per occurrence. */
  function Turned(m: map<string, Vec3>, xs: seq<string>, c: Vec3, r: Mat3, steps: nat): (m': map<string, Vec3>)
    ensures m'.Keys == m.Keys
  {
    map o | o in m :: Spin(m[o], c, r, steps * multiset(xs)[o])
  }

  /** Every point of `after` that was in `before` has kept its coordinate
      along axis `axisIndex`. */
  predicate SameSlice(before: map<string, Vec3>, after: map<string, Vec3>, axisIndex: int)
  {
    forall o :: o in before && o in after ==> Coordinate(after[o], axisIndex) == Coordinate(before[o], axisIndex)
  }

  /** A whole turn about the slice axis leaves every point's coordinate
      along that axis where it was. */
  lemma TurnedKeepsSlice(m: map<string, Vec3>, xs: seq<string>, c: Vec3, r: Mat3, steps: nat, axisIndex: int)
    requires AboutAxis(r, axisIndex)
    ensures SameSlice(m, Turned(m, xs, c, r, steps), axisIndex)
  {
    forall o | o in m
      ensures Coordinate(Turned(m, xs, c, r, steps)[o], axisIndex) == Coordinate(m[o], axisIndex)
    {
      SpinKeepsSlice(m[o], c, r, steps * multiset(xs)[o], axisIndex);
    }
  }

  /** One more step. */
  lemma TurnedStep(m: map<string, Vec3>, xs: seq<string>, c: Vec3, r: Mat3, n: nat)
    ensures SpinAll(Turned(m, xs, c, r, n), xs, c, r) == Turned(m, xs, c, r, n + 1)
  {
    forall o | o in m
      ensures SpinAll(Turned(m, xs, c, r, n), xs, c, r)[o] == Turned(m, xs, c, r, n + 1)[o]
    {
      SpinMore(m[o], c, r, n, multiset(xs)[o]);
    }
  }

  /** n rounds of a turns each, and one more round, make n + 1 rounds. */
  lemma SpinMore(p: Vec3, c: Vec3, r: Mat3, n: nat, a: nat)
    ensures Spin(Spin(p, c, r, n * a), c, r, a) == Spin(p, c, r, (n + 1) * a)
  {
    SpinAdds(p, c, r, n * a, a);
    assert n * a + a == (n + 1) * a;
  }

  /** A tracked corner that is not itself an inner leg to rotate moves
      exactly as its own shape centre does, so if the two agreed before the
      turn they agree after it. */
  lemma TrackedFollowsShape(shapes: map<string, Vec3>, tracked: map<string, Vec3>, cubelets: seq<string>,
                            inners: seq<string>, c: Vec3, r: Mat3, steps: nat, o: string)
    requires o in shapes && o in tracked && tracked[o] == shapes[o] && o !in inners
    ensures Turned(tracked, cubelets, c, r, steps)[o] == Turned(shapes, cubelets + inners, c, r, steps)[o]
  {
    assert multiset(cubelets + inners) == multiset(cubelets) + multiset(inners);
    assert multiset(inners)[o] == 0;
  }

  // ---------------------------------------------------------------------------
  // The cube_objects dictionary with the document it was built from

  class MagicCube {
    /** Each document object's shape centre, by Name. */
    var shapes: map<string, Vec3>
    /** The non-empty Label2 positions, by Name. */
    const label2: map<string, Vec3>
    var spider: Option<string>
    var centers: ODict<string>
    var edges: ODict<string>
    var corners: ODict<string>
    var legs: seq<LegInfo>
    /** cube_objects['corner_positions']. */
    var tracked: map<string, Vec3>

    ghost predicate Valid()
      reads this
    {
      WF(centers) && WF(edges) && WF(corners) &&
      (forall o :: o in AllCubelets(centers, edges, corners) ==> o in shapes) &&
      (forall l :: l in legs ==> l.inner in shapes && l.cornerObj in shapes)
    }

    /** rebuild_cube_objects over doc.Objects; `norm` is App.Vector.normalize. */
    constructor Rebuild(doc: seq<DocObject>, norm: Vec3 -> Vec3)
      ensures Valid()
      ensures shapes == ShapesOf(doc) && label2 == Label2Of(doc)
      ensures var c := CollectAll(doc);
        spider == c.spider && centers == c.centers && edges == c.edges && corners == c.corners
      ensures var c := CollectAll(doc);
        (legs, tracked) == LinkLegs(c.innerLegs.keys, c.innerLegs, c.corners, Label2Of(doc), ShapesOf(doc), norm)
    {
      var c := CollectObjects(doc);
      var shapeMap := ShapesOf(doc);
      var labels := Label2Of(doc);
      RebuildNamesAreObjects(doc);
      var ls, cp := LinkInnerLegs(c.innerLegs.keys, c.innerLegs, c.corners, labels, shapeMap, norm);
      RebuildLegsAreObjects(doc, norm);
      shapes, label2 := shapeMap, labels;
      spider, centers, edges, corners := c.spider, c.centers, c.edges, c.corners;
      legs, tracked := ls, cp;
    }

    /** The current centre of every object, as get_cubelet_center reads it. */
    function CurrentCentres(): (m: map<string, Vec3>)
      requires Valid()
      reads this
      ensures m.Keys == shapes.Keys
    {
      Centres(Values(corners), tracked, label2, shapes)
    }

    /** get_cubelets_at_position on the current state. */
    function CubeletsAtPosition(axisIndex: int, sliceValue: real, tolerance: real): seq<string>
      requires Valid()
      reads this
    {
      AtSlice(AllCubelets(centers, edges, corners), axisIndex, sliceValue, tolerance, CurrentCentres())
    }

    /** The cubelets a face turn would move now, if the face is known. */
    function Selection(face: string): seq<string>
      requires Valid()
      reads this
    {
      match FaceConfig(face)
      case None => []
      case Some(cfg) => CubeletsAtPosition(cfg.0, cfg.1, DEFAULT_TOLERANCE)
    }

    /** animate_face_rotation(face, angle, steps): `stepRotation` is the
        rotation by angle / steps about the face's axis vector. */
    method AnimateFaceRotation(face: string, angle: real, steps: int, stepRotation: Mat3) returns (err: Option<PyError>)
      requires Valid()
      requires FaceConfig(face).Some? ==> AboutAxis(stepRotation, FaceConfig(face).value.0)
      modifies this`shapes, this`tracked
      ensures Valid()
      ensures err.Some? <==> |old(Selection(face))| > 0 && steps == 0
      ensures err.Some? ==> err.value == ZeroDivisionError
      ensures err.Some? || |old(Selection(face))| == 0 ==> shapes == old(shapes) && tracked == old(tracked)
      ensures err.None? && |old(Selection(face))| > 0 ==>
        var cfg := FaceConfig(face).value;
        var sel := old(Selection(face));
        var n := if steps > 0 then steps else 0;
        var c := SliceCentre(cfg.0, cfg.1);
        shapes == Turned(old(shapes), sel + Inners(LegsFor(sel, legs)), c, stepRotation, n) &&
        tracked == Turned(old(tracked), sel, c, stepRotation, n)
      ensures FaceConfig(face).Some? ==>
        SameSlice(old(shapes), shapes, FaceConfig(face).value.0) && SameSlice(old(tracked), tracked, FaceConfig(face).value.0)
    {
      var cfg := FaceConfig(face);
      if cfg.None? {
        return None;
      }
      var (axisIndex, sliceValue, _) := cfg.value;
      var cubelets := CubeletsAtPosition(axisIndex, sliceValue, DEFAULT_TOLERANCE);
      if |cubelets| == 0 {
        return None;
      }
      var legsToRotate := LegsFor(cubelets, legs);
      var inners := Inners(legsToRotate);
      var center := SliceCentre(axisIndex, sliceValue);
      var anglePerStep := AnglePerStep(angle, steps);
      if anglePerStep.Err? {
        return Some(anglePerStep.error);
      }
      InnersAreObjects(cubelets, legs, shapes);
      RotateSteps(cubelets, inners, center, stepRotation, if steps > 0 then steps else 0, axisIndex);
      err := None;
    }

    /** The step loop of animate_face_rotation. */
    method RotateSteps(cubelets: seq<string>, inners: seq<string>, c: Vec3, r: Mat3, steps: nat, ghost axisIndex: int)
      requires forall o :: o in cubelets ==> o in shapes
      requires forall o :: o in inners ==> o in shapes
      requires AboutAxis(r, axisIndex)
      modifies this`shapes, this`tracked
      ensures shapes == Turned(old(shapes), cubelets + inners, c, r, steps)
      ensures tracked == Turned(old(tracked), cubelets, c, r, steps)
      ensures SameSlice(old(shapes), shapes, axisIndex) && SameSlice(old(tracked), tracked, axisIndex)
    {
      assert Turned(shapes, cubelets + inners, c, r, 0) == shapes;
      assert Turned(tracked, cubelets, c, r, 0) == tracked;
      for step := 0 to steps
        invariant shapes == Turned(old(shapes), cubelets + inners, c, r, step)
        invariant tracked == Turned(old(tracked), cubelets, c, r, step)
      {
        TurnedStep(old(shapes), cubelets + inners, c, r, step);
        TurnedStep(old(tracked), cubelets, c, r, step);
        SpinAllAppend(shapes, cubelets, inners, c, r);
        SpinCubelets(cubelets, c, r);
        SpinInners(inners, c, r);
      }
      TurnedKeepsSlice(old(shapes), cubelets + inners, c, r, steps, axisIndex);
      TurnedKeepsSlice(old(tracked), cubelets, c, r, steps, axisIndex);
    }

    /** One step's turn of the selected cubelets, with their tracked positions. */
    method SpinCubelets(cubelets: seq<string>, c: Vec3, r: Mat3)
      requires forall o :: o in cubelets ==> o in shapes
      modifies this`shapes, this`tracked
      ensures shapes == SpinAll(old(shapes), cubelets, c, r)
      ensures tracked == SpinAll(old(tracked), cubelets, c, r)
    {
      assert SpinAll(shapes, [], c, r) == shapes;
      assert SpinAll(tracked, [], c, r) == tracked;
      for t := 0 to |cubelets|
        invariant shapes == SpinAll(old(shapes), cubelets[..t], c, r)
        invariant tracked == SpinAll(old(tracked), cubelets[..t], c, r)
      {
        var o := cubelets[t];
        assert cubelets[..t + 1] == cubelets[..t] + [o];
        SpinAllSnoc(old(shapes), cubelets[..t], o, c, r);
        SpinAllSnoc(old(tracked), cubelets[..t], o, c, r);
        shapes := shapes[o := RotateAbout(shapes[o], c, r)];
        if o in tracked {
          tracked := tracked[o := RotateAbout(tracked[o], c, r)];
        }
      }
      assert cubelets[..|cubelets|] == cubelets;
    }

    /** One step's turn of the inner legs attached to the selected corners. */
    method SpinInners(inners: seq<string>, c: Vec3, r: Mat3)
      requires forall o :: o in inners ==> o in shapes
      modifies this`shapes
      ensures shapes == SpinAll(old(shapes), inners, c, r)
    {
      assert SpinAll(shapes, [], c, r) == shapes;
      for t := 0 to |inners|
        invariant shapes == SpinAll(old(shapes), inners[..t], c, r)
      {
        var o := inners[t];
        assert inners[..t + 1] == inners[..t] + [o];
        SpinAllSnoc(old(shapes), inners[..t], o, c, r);
        shapes := shapes[o := RotateAbout(shapes[o], c, r)];
      }
      assert inners[..|inners|] == inners;
    }
  }
}
