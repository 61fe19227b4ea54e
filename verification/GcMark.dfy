/** Marking (lgc.c:69-112, 158-327): the tri-colour invariant and the code that keeps it
    while it turns white objects gray and gray objects black. */
module GcMark {
  import opened GcHeap

  ghost predicate Distinct(s: seq<Ref>) {
    forall i, j :: 0 <= i < j < |s| ==> s[i] != s[j]
  }

  predicate OnList(g: Global, r: Ref) {
    r in g.gray || r in g.grayagain || r in g.weak
  }

  /** `gray`, `grayagain` and `weak` hold no object twice. */
  ghost predicate ListsDisjoint(g: Global) {
    && Distinct(g.gray) && Distinct(g.grayagain) && Distinct(g.weak)
    && (forall r :: r in g.gray ==> r !in g.grayagain && r !in g.weak)
    && (forall r :: r in g.grayagain ==> r !in g.weak)
  }

  /** All that a black object must not hold white. The key of an empty table entry counts:
      storing under that key again raises no barrier for the key. */
  ghost predicate Guarded(h: Heap, b: Body) {
    AllMarked(h, Contents(h, b, STRONG)) && forall q :: KeyOf(b, q) ==> NonWhite(h, q)
  }

  /** What the colour of an object obliges it to. */
  ghost predicate ColorRule(g: Global, r: Ref)
    requires r in g.heap
  {
    var b := g.heap[r].body;
    match g.heap[r].color
    case Gray => if Listable(b) then OnList(g, r) else b.Str? || IsOpen(b)
    case Black => !NeverBlack(b) && Guarded(g.heap, b)
    case _ => true
  }

  /** The tri-colour invariant, for every object but those in `ex`, which are being visited. */
  ghost predicate Tri(g: Global, ex: set<Ref>) {
    && ListsDisjoint(g)
    && (forall r :: OnList(g, r) ==> r in g.heap && r !in ex && Listable(g.heap[r].body) && g.heap[r].color == Gray)
    && (forall r :: r in g.weak ==> g.heap[r].body.Table?)
    && (forall r :: r in g.heap && r !in ex ==> ColorRule(g, r))
    && (forall r :: r in g.heap ==> g.heap[r].color != Other(g.white))
    && (forall r :: r in ex ==> NonWhite(g.heap, r))
  }

  /** `b` is closed under strong references. */
  ghost predicate StrongClosed(h: Heap, b: iset<Ref>) {
    forall r, q :: r in h && r in b && StrongEdge(h, r, q) ==> q in b
  }

  /** The invariant of the marking code: `b` bounds what is marked. */
  ghost predicate Ready(g: Global, ex: set<Ref>, b: iset<Ref>) {
    Tri(g, ex) && RefsIn(g.heap) && StrongClosed(g.heap, b) && MarksIn(g.heap, b)
  }

  ghost predicate MarksIn(h: Heap, b: iset<Ref>) {
    forall r :: NonWhite(h, r) ==> r in b
  }

  predicate Recolored(o: Object, o': Object) {
    o' == o.(color := o'.color) && (o'.color == o.color || (IsWhite(o.color) && !IsWhite(o'.color)))
  }

  /** `g'` is `g` after marking some white objects. */
  ghost predicate Marked(g: Global, g': Global) {
    && g' == g.(heap := g'.heap, gray := g'.gray)
    && g'.heap.Keys == g.heap.Keys
    && (forall r :: r in g.heap ==> Recolored(g.heap[r], g'.heap[r]))
    && UpvalsSettle(g.heap, g'.heap)
    && Work(g') <= Work(g)
  }

  /** An upper bound on the traversals still to come. */
  ghost function Work(g: Global): nat {
    |g.gray| + |Whites(g.heap)|
  }

  ghost function Whites(h: Heap): set<Ref> {
    set r | r in h && IsWhite(h[r].color)
  }

  /** Open upvalues marked between `h` and `h'` had their values marked too. */
  ghost predicate UpvalsSettle(h: Heap, h': Heap) {
    forall r :: r in h && r in h' && IsOpen(h[r].body) && IsWhite(h[r].color) && NonWhite(h', r)
      ==> CellMarked(h', h[r].body.cell)
  }

  predicate CellMarked(h: Heap, c: Cell) {
    CellValue(h, c).Obj? ==> NonWhite(h, CellValue(h, c).ref)
  }

  /** Marking has gone on from `g0` to `g`. */
  ghost predicate Marking(g0: Global, g: Global, ex: set<Ref>, b: iset<Ref>) {
    Ready(g, ex, b) && Marked(g0, g)
  }

  function Paint(g: Global, r: Ref, c: Color): Global
    requires r in g.heap
  {
    g.(heap := g.heap[r := g.heap[r].(color := c)])
  }

  // ----- what marking preserves -----

  lemma PaintExtends(g: Global, r: Ref, c: Color)
    requires r in g.heap && !IsWhite(c)
    ensures Extends(g.heap, Paint(g, r, c).heap)
  {}

  lemma MarkedExtends(g: Global, g': Global)
    requires Marked(g, g')
    ensures Extends(g.heap, g'.heap)
  {}

  lemma ExtendsCell(h: Heap, h': Heap, c: Cell)
    requires Extends(h, h')
    ensures CellValue(h', c) == CellValue(h, c)
    ensures CellMarked(h, c) ==> CellMarked(h', c)
  {
    if c.Open? && c.thread in h {
      assert SameBody(h[c.thread].body, h'[c.thread].body);
    }
  }

  lemma MarkedTrans(g: Global, g1: Global, g2: Global)
    requires Marked(g, g1) && Marked(g1, g2)
    ensures Marked(g, g2)
  {
    MarkedExtends(g1, g2);
    forall r | r in g.heap && r in g2.heap && IsOpen(g.heap[r].body) && IsWhite(g.heap[r].color) && NonWhite(g2.heap, r)
      ensures CellMarked(g2.heap, g.heap[r].body.cell)
    {
      ExtendsCell(g1.heap, g2.heap, g.heap[r].body.cell);
    }
  }

  lemma MarkedWhites(g: Global, g': Global)
    requires Marked(g, g')
    ensures Whites(g'.heap) <= Whites(g.heap)
  {
    forall r | r in Whites(g'.heap) ensures r in Whites(g.heap) {
      assert Recolored(g.heap[r], g'.heap[r]);
    }
  }

  lemma ExtendsClosed(h: Heap, h': Heap, b: iset<Ref>)
    requires Extends(h, h') && StrongClosed(h, b)
    ensures StrongClosed(h', b)
  {
    forall r, q | r in h' && r in b && StrongEdge(h', r, q) ensures q in b {
      ExtendsContents(h, h', r, STRONG);
      assert StrongEdge(h, r, q);
    }
  }

  lemma ExtendsRule(g: Global, g': Global, x: Ref)
    requires Extends(g.heap, g'.heap) && x in g.heap && g'.heap[x].color == g.heap[x].color
    requires OnList(g, x) ==> OnList(g', x)
    requires ColorRule(g, x)
    ensures ColorRule(g', x)
  {
    assert SameBody(g.heap[x].body, g'.heap[x].body);
    if g.heap[x].color == Black {
      ExtendsContents(g.heap, g'.heap, x, STRONG);
      forall q | KeyOf(g'.heap[x].body, q) ensures NonWhite(g'.heap, q) {
        ExtendsKeyOf(g.heap[x].body, g'.heap[x].body, q);
      }
    }
  }

  lemma FewerWhites(g: Global, r: Ref, c: Color)
    requires r in g.heap && IsWhite(g.heap[r].color) && !IsWhite(c)
    ensures Whites(Paint(g, r, c).heap) < Whites(g.heap)
    ensures |Whites(Paint(g, r, c).heap)| + 1 == |Whites(g.heap)|
  {
    assert Whites(g.heap) == Whites(Paint(g, r, c).heap) + {r};
  }

  /** `r` is painted and joins the objects being visited. */
  lemma Visit(g: Global, r: Ref, c: Color, ex: set<Ref>, b: iset<Ref>)
    requires Ready(g, ex, b) && r in g.heap && r in b && !IsWhite(c) && !OnList(g, r)
    ensures Ready(Paint(g, r, c), ex + {r}, b)
  {
    var g' := Paint(g, r, c);
    PaintExtends(g, r, c);
    ExtendsRefsIn(g.heap, g'.heap);
    ExtendsClosed(g.heap, g'.heap, b);
    forall x | x in g'.heap && x !in ex + {r} ensures ColorRule(g', x) {
      ExtendsRule(g, g', x);
    }
  }

  /** The visit of `r` ends once its colour rule holds. */
  lemma VisitDone(g: Global, r: Ref, ex: set<Ref>)
    requires Tri(g, ex + {r}) && r in g.heap && ColorRule(g, r)
    ensures Tri(g, ex)
  {}

  /** Marking that starts by making `r` non-white and ends by fixing its colour. */
  lemma MarkedFrom(g0: Global, g1: Global, g2: Global, g3: Global, r: Ref, c1: Color)
    requires r in g0.heap && IsWhite(g0.heap[r].color) && !IsWhite(c1)
    requires g1 == Paint(g0, r, c1) && Marked(g1, g2)
    requires g3 == g2 || g3 == Paint(g2, r, Black)
    requires IsOpen(g0.heap[r].body) ==> CellMarked(g2.heap, g0.heap[r].body.cell)
    ensures Marked(g0, g3)
  {
    RecoloredFrom(g0, g1, g2, g3, r, c1);
    UpvalsFrom(g0, g1, g2, g3, r, c1);
    hide Recolored, UpvalsSettle, Work, CellMarked;
  }

  lemma RecoloredFrom(g0: Global, g1: Global, g2: Global, g3: Global, r: Ref, c1: Color)
    requires r in g0.heap && IsWhite(g0.heap[r].color) && !IsWhite(c1)
    requires g1 == Paint(g0, r, c1) && Marked(g1, g2) && (g3 == g2 || g3 == Paint(g2, r, Black))
    ensures forall x :: x in g0.heap ==> Recolored(g0.heap[x], g3.heap[x])
    ensures Work(g3) <= Work(g0)
  {
    assert Work(g2) <= Work(g1);
    forall x | x in g0.heap ensures Recolored(g0.heap[x], g3.heap[x]) {
      assert Recolored(g1.heap[x], g2.heap[x]);
    }
    assert Recolored(g1.heap[r], g2.heap[r]);
    hide Marked, Recolored;
    FewerWhites(g0, r, c1);
    assert Whites(g3.heap) == Whites(g2.heap);
  }

  lemma UpvalsFrom(g0: Global, g1: Global, g2: Global, g3: Global, r: Ref, c1: Color)
    requires r in g0.heap && IsWhite(g0.heap[r].color) && !IsWhite(c1)
    requires g1 == Paint(g0, r, c1) && Marked(g1, g2)
    requires g3 == g2 || g3 == Paint(g2, r, Black)
    requires IsOpen(g0.heap[r].body) ==> CellMarked(g2.heap, g0.heap[r].body.cell)
    ensures UpvalsSettle(g0.heap, g3.heap)
  {
    PaintExtends(g2, r, Black);
    forall x | x in g0.heap && x in g3.heap && IsOpen(g0.heap[x].body) && IsWhite(g0.heap[x].color) &&
      NonWhite(g3.heap, x)
      ensures CellMarked(g3.heap, g0.heap[x].body.cell)
    {
      if x != r {
        assert g1.heap[x] == g0.heap[x];
        assert Recolored(g1.heap[x], g2.heap[x]);
      }
      assert CellMarked(g2.heap, g0.heap[x].body.cell);
      if g3 != g2 { ExtendsCell(g2.heap, g3.heap, g0.heap[x].body.cell); }
    }
  }

  /** The end of marking an object that never goes on a list. */
  lemma InsideDone(g0: Global, g1: Global, g2: Global, r: Ref, c1: Color, ex: set<Ref>, b: iset<Ref>)
    requires r in g0.heap && r in b && r !in ex && IsWhite(g0.heap[r].color) && !Listable(g0.heap[r].body)
    requires c1 == if g0.heap[r].body.Block? then Black else Gray
    requires g1 == Paint(g0, r, c1) && Marking(g1, g2, ex + {r}, b)
    requires AllMarked(g2.heap, Contents(g1.heap, g0.heap[r].body, STRONG))
    ensures var g3 := if g0.heap[r].body.UpVal? && g0.heap[r].body.cell.Closed? then Paint(g2, r, Black) else g2;
      Marking(g0, g3, ex, b) && NonWhite(g3.heap, r)
  {
    var body := g0.heap[r].body;
    MarkedExtends(g1, g2);
    ExtendsContents(g1.heap, g2.heap, r, STRONG);
    assert Recolored(g1.heap[r], g2.heap[r]);
    if body.UpVal? {
      assert CellMarked(g2.heap, body.cell) by {
        assert CellValue(g2.heap, body.cell) in Contents(g2.heap, body, STRONG);
      }
    }
    var g3 := if body.UpVal? && body.cell.Closed? then Paint(g2, r, Black) else g2;
    MarkedFrom(g0, g1, g2, g3, r, c1);
    if g3 != g2 {
      Visit(g2, r, Black, ex + {r}, b);
      assert ex + {r} + {r} == ex + {r};
      PaintExtends(g2, r, Black);
      ExtendsContents(g2.heap, g3.heap, r, STRONG);
    }
    VisitDone(g3, r, ex);
  }

  // ----- the marking code -----

  /** lgc.c:69-112. Mark a white object. A function, table, thread or prototype goes on the gray list;
      a userdatum turns black at once and its fields are marked; an upvalue has its value marked and
      turns black unless it is open; a string stays gray. */
  method ReallyMarkObject(c: Collector, r: Ref, ghost ex: set<Ref>, ghost b: iset<Ref>)
    requires Ready(c.g, ex, b) && r in c.g.heap && r in b
    requires IsWhite(c.g.heap[r].color)
    modifies c
    ensures Marking(old(c.g), c.g, ex, b) && NonWhite(c.g.heap, r)
    decreases Whites(c.g.heap), 0
  {
    ghost var g0 := c.g;
    var body := c.g.heap[r].body;
    if Listable(body) {
      PushGray(c, r, ex, b);
    } else {
      var color := if body.Block? then Black else Gray;
      Visit(c.g, r, color, ex, b);
      FewerWhites(c.g, r, color);
      c.g := Paint(c.g, r, color);
      ghost var g1 := c.g;
      ContentsIn(g1, r, b);
      MarkValues(c, Contents(c.g.heap, body, STRONG), g1, ex + {r}, b);
      InsideDone(g0, g1, c.g, r, color, ex, b);
      if body.UpVal? && body.cell.Closed? {
        c.g := Paint(c.g, r, Black);
      }
    }
  }

  lemma ContentsIn(g: Global, r: Ref, b: iset<Ref>)
    requires RefsIn(g.heap) && StrongClosed(g.heap, b) && r in g.heap && r in b
    ensures forall v :: v in Children(g.heap, r) && v.Obj? ==> v.ref in g.heap && v.ref in b
  {
    forall v | v in Children(g.heap, r) && v.Obj? ensures v.ref in g.heap && v.ref in b {
      assert StrongEdge(g.heap, r, v.ref);
      ChildrenAreContents(g.heap, r, v);
      assert Edge(g.heap, r, v.ref);
    }
  }

  lemma ChildrenAreContents(h: Heap, r: Ref, v: Value)
    requires r in h && v in Children(h, r)
    ensures v in Contents(h, h[r].body, STRONG)
  {
    if h[r].body.Table? {
      var m := ModeOf(h, h[r].body.metatable);
      NodeValuesGrow(h[r].body.nodes, v, !m.key, !m.val);
    }
  }

  lemma NodeValuesGrow(nodes: seq<Node>, v: Value, key: bool, val: bool)
    ensures v in NodeValues(nodes, key, val) ==> v in NodeValues(nodes, true, true)
  {
    if nodes != [] {
      NodeValuesGrow(nodes[..|nodes| - 1], v, key, val);
    }
  }

  method PushGray(c: Collector, r: Ref, ghost ex: set<Ref>, ghost b: iset<Ref>)
    requires Ready(c.g, ex, b) && r in c.g.heap && r in b
    requires IsWhite(c.g.heap[r].color) && Listable(c.g.heap[r].body)
    modifies c
    ensures Marking(old(c.g), c.g, ex, b) && NonWhite(c.g.heap, r)
  {
    PushGrayReady(c.g, r, ex, b);
    PushGrayMarked(c.g, r);
    hide Ready, Marked, Paint;
    c.g := Paint(c.g, r, Gray).(gray := [r] + c.g.gray);
  }

  lemma PushGrayReady(g: Global, r: Ref, ex: set<Ref>, b: iset<Ref>)
    requires Ready(g, ex, b) && r in g.heap && r in b && IsWhite(g.heap[r].color) && Listable(g.heap[r].body)
    ensures var g' := Paint(g, r, Gray).(gray := [r] + g.gray); Ready(g', ex, b) && NonWhite(g'.heap, r)
  {
    var g1, g' := Paint(g, r, Gray), Paint(g, r, Gray).(gray := [r] + g.gray);
    assert !OnList(g, r) && r !in ex;
    Visit(g, r, Gray, ex, b);
    PaintExtends(g, r, Gray);
    forall x | x in g'.heap && x !in ex ensures ColorRule(g', x) {
      if x != r { ExtendsRule(g, g', x); }
    }
    assert forall x :: OnList(g', x) <==> x == r || OnList(g, x);
    hide ColorRule, StrongClosed, MarksIn, RefsIn;
  }

  lemma PushGrayMarked(g: Global, r: Ref)
    requires r in g.heap && IsWhite(g.heap[r].color) && Listable(g.heap[r].body)
    ensures Marked(g, Paint(g, r, Gray).(gray := [r] + g.gray))
  {
    FewerWhites(g, r, Gray);
    assert Whites(Paint(g, r, Gray).(gray := [r] + g.gray).heap) == Whites(Paint(g, r, Gray).heap);
  }

  /** The macro markvalue (lgc.c:52-53). */
  method MarkValue(c: Collector, v: Value, ghost g0: Global, ghost ex: set<Ref>, ghost b: iset<Ref>)
    requires Marking(g0, c.g, ex, b)
    requires v.Obj? ==> v.ref in c.g.heap && v.ref in b
    modifies c
    ensures Marking(g0, c.g, ex, b) && Marked(old(c.g), c.g)
    ensures v.Obj? ==> NonWhite(c.g.heap, v.ref)
    decreases Whites(c.g.heap), 1
  {
    if v.Obj? && IsWhite(c.g.heap[v.ref].color) {
      ghost var g1 := c.g;
      ReallyMarkObject(c, v.ref, ex, b);
      MarkedTrans(g0, g1, c.g);
    }
  }

  lemma MarkedRefl(g: Global)
    ensures Marked(g, g)
  {}

  lemma NextMarked(h: Heap, h': Heap, vs: seq<Value>, i: nat)
    requires Extends(h, h') && i < |vs| && AllMarked(h, vs[..i]) && (vs[i].Obj? ==> NonWhite(h', vs[i].ref))
    ensures AllMarked(h', vs[..i + 1])
  {
    assert vs[..i + 1] == vs[..i] + [vs[i]];
  }

  /** Mark a run of values in order, as the loops of the traversal functions do. */
  method MarkValues(c: Collector, vs: seq<Value>, ghost g0: Global, ghost ex: set<Ref>, ghost b: iset<Ref>)
    requires Marking(g0, c.g, ex, b)
    requires forall v :: v in vs && v.Obj? ==> v.ref in c.g.heap && v.ref in b
    modifies c
    ensures Marking(g0, c.g, ex, b) && Marked(old(c.g), c.g)
    ensures AllMarked(c.g.heap, vs)
    decreases Whites(c.g.heap), 2
  {
    ghost var g1 := c.g;
    MarkedRefl(g1);
    assert AllMarked(c.g.heap, vs[..0]);
    hide Marking, Marked, AllMarked;
    var i := 0;
    while i < |vs|
      invariant 0 <= i <= |vs| && c.g.heap.Keys == g1.heap.Keys
      invariant Marking(g0, c.g, ex, b) && Marked(g1, c.g)
      invariant AllMarked(c.g.heap, vs[..i])
    {
      ghost var g2 := c.g;
      MarkedWhites(g1, g2);
      MarkValue(c, vs[i], g0, ex, b);
      MarkedTrans(g1, g2, c.g);
      MarkedExtends(g2, c.g);
      NextMarked(g2.heap, c.g.heap, vs, i);
      i := i + 1;
    }
    assert vs[..i] == vs;
  }
}
