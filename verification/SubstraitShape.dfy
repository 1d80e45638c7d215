/** When a rendered plan reads back, and how many columns it then has. */
module SubstraitShape {
  import opened Rows
  import opened Plans
  import opened PlanFacts
  import opened TableIndices
  import opened Names
  import opened SubstraitRender
  import opened SubstraitDecode

  // ---------------------------------------------------------------- what the renderer is given

  /** What holds of a bound plan by construction: indices distinct, a cross product without conditions or maps, maps
  that pick each column once, both sides of a set operation as wide, and a table as wide as its description. */
  predicate WellBound(p: Plan, planned: string -> seq<string>) {
    match p
    case Table(_, name, width) => |planned(name)| == width && NoRepeats(planned(name))
    case Unary(_, child) => WellBound(child, planned)
    case Binary(op, left, right) =>
      && WellBound(left, planned) && WellBound(right, planned)
      && (op.SetOp? ==> |Bindings(left)| == |Bindings(right)|)
      && (op.Join? ==>
            && NoRepeats(op.leftMap) && NoRepeats(op.rightMap)
            && (op.kind == Cross ==> op.conditions == [] && op.leftMap == [] && op.rightMap == []))
    case Cte(_, definition, body) => WellBound(definition, planned) && WellBound(body, planned)
    case _ => true
  }

  /** Every reference is as wide as the definition it names. */
  predicate RefWidths(p: Plan, widths: map<nat, nat>) {
    match p
    case CteRef(_, cte, width) => cte in widths ==> widths[cte] == width
    case Unary(_, child) => RefWidths(child, widths)
    case Binary(_, left, right) => RefWidths(left, widths) && RefWidths(right, widths)
    case Cte(index, definition, body) =>
      RefWidths(definition, widths) && RefWidths(body, widths[index := |Bindings(definition)|])
    case _ => true
  }

  lemma {:induction false} RefWidthsAgree(p: Plan, a: map<nat, nat>, b: map<nat, nat>)
    requires RefWidths(p, a) && forall c :: c in FreeCtes(p) ==> (c in a <==> c in b) && (c in a ==> a[c] == b[c])
    ensures RefWidths(p, b)
  {
    match p
    case Unary(_, child) => RefWidthsAgree(child, a, b);
    case Binary(_, left, right) =>
      RefWidthsAgree(left, a, b);
      RefWidthsAgree(right, a, b);
    case Cte(index, definition, body) =>
      RefWidthsAgree(definition, a, b);
      var width := |Bindings(definition)|;
      RefWidthsAgree(body, a[index := width], b[index := width]);
    case _ =>
  }

  predicate BoundFits(b: Bound) {
    b.Constant? ==> b.n <= INT64_MAX
  }

  /** What the decoder can refuse: a count or an offset past a signed 64-bit integer, and a table whose columns are
  no longer those the plan was bound against. */
  predicate Readable(p: Plan, planned: string -> seq<string>, now: string -> seq<string>) {
    match p
    case Table(_, name, _) => now(name) == planned(name)
    case Unary(op, child) =>
      Readable(child, planned, now) && (op.Limit? ==> BoundFits(op.limit) && BoundFits(op.offset))
    case Binary(_, left, right) => Readable(left, planned, now) && Readable(right, planned, now)
    case Cte(_, definition, body) => Readable(definition, planned, now) && Readable(body, planned, now)
    case _ => true
  }

  /** Every seam the plan reads was staged, under its name and as wide. */
  predicate SeamsStaged(p: Plan, views: map<string, seq<string>>) {
    match p
    case Given(index, width, _) =>
      SeamName(index) in views && |views[SeamName(index)]| == width && NoRepeats(views[SeamName(index)])
    case Unary(_, child) => SeamsStaged(child, views)
    case Binary(_, left, right) => SeamsStaged(left, views) && SeamsStaged(right, views)
    case Cte(_, definition, body) => SeamsStaged(definition, views) && SeamsStaged(body, views)
    case _ => true
  }

  // ---------------------------------------------------------------- names read back

  lemma NamesReadBack(join: JoinKind, kind: SetKind, all: bool)
    ensures JoinKindOf(JoinTypeName(join)) == if join == Cross then None else Some(join)
    ensures SetKindOf(SetOpName(kind, all)) == kind && KeepsRepeats(SetOpName(kind, all)) == all
  {
  }

  // ---------------------------------------------------------------- widths

  lemma RenderedOut(p: Plan, planned: string -> seq<string>)
    requires Render(p, planned).Some? && WellBound(p, planned)
    ensures Render(p, planned).value.out == Bindings(p)
  {
    match p
    case Unary(_, child) => RenderedOut(child, planned);
    case Binary(_, left, right) =>
      RenderedOut(left, planned);
      RenderedOut(right, planned);
    case Cte(_, definition, body) =>
      RenderedOut(definition, planned);
      RenderedOut(body, planned);
    case _ =>
  }

  // ---------------------------------------------------------------- what renders

  predicate BoundRenders(b: Bound) {
    b.Unset? || b.Constant?
  }

  predicate UnaryRenders(op: UnaryOp, scope: seq<Binding>) {
    match op
    case Filter(es) => AllInScope(es, scope)
    case Projection(_, es) => AllInScope(es, scope)
    case Aggregate(_, _, _, groups, measures) =>
      AllInScope(groups, scope)
      && forall j :: 0 <= j < |measures| ==>
           AllInScope(measures[j].args, scope) && AllInScope(measures[j].filter, scope) && |measures[j].filter| <= 1
    case Order(keys) => AllInScope(KeyExprs(keys), scope)
    case Limit(limit, offset) => BoundRenders(limit) && BoundRenders(offset)
    case Distinct => true
  }

  /** A plan with a place in the specification for all it says: no scan or seam in it, every column read one of those
  below, counts and offsets constant or absent, one filter at most to a measure. */
  predicate Renderable(p: Plan) {
    match p
    case Scan(_, _, _, _) => false
    case Seam(_, _) => false
    case Unary(op, child) => Renderable(child) && UnaryRenders(op, Bindings(child))
    case Binary(op, left, right) =>
      && Renderable(left) && Renderable(right)
      && (op.Join? && op.kind != Cross ==> AllInScope(op.conditions, Bindings(left) + Bindings(right)))
    case Cte(_, definition, body) => Renderable(definition) && Renderable(body)
    case _ => true
  }

  /** The columns a join's maps pick are always among those it computes. */
  lemma MapsRender(op: BinaryOp, left: Plan, right: Plan)
    requires op.Join? && MapsInRange(Binary(op, left, right))
    ensures RenderMaps(op, Bindings(left), Bindings(right)).Some?
  {
    JoinPositionsInRange(op, Bindings(left), Bindings(right));
    var emitted := JoinedBindings(op.kind, op.markIndex, Bindings(left), Bindings(right));
    var out := BinaryBindings(op, Bindings(left), Bindings(right));
    forall i | 0 <= i < |out| ensures out[i] in emitted {
    }
  }

  /** A plan renders exactly when it is renderable. */
  lemma {:induction false} RendersExactly(p: Plan, planned: string -> seq<string>)
    requires WellBound(p, planned) && MapsInRange(p)
    ensures Render(p, planned).Some? <==> Renderable(p)
  {
    match p
    case Unary(op, child) =>
      RendersExactly(child, planned);
      if Render(child, planned).Some? {
        RenderedOut(child, planned);
      }
    case Binary(op, left, right) =>
      RendersExactly(left, planned);
      RendersExactly(right, planned);
      if Renderable(left) && Renderable(right) {
        RenderedOut(left, planned);
        RenderedOut(right, planned);
        if op.Join? {
          MapsRender(op, left, right);
        }
      }
    case Cte(_, definition, body) =>
      RendersExactly(definition, planned);
      RendersExactly(body, planned);
    case _ =>
  }

  /** Decoded as it should be: as many columns as the plan emits, and widths only added, for the plan's own. */
  ghost predicate Shaped(d: Decoded, p: Plan, widths: map<nat, nat>) {
    && d.built.width == |Bindings(p)|
    && widths.Keys <= d.widths.Keys <= widths.Keys + IndexSet(p)
    && forall c :: c in widths ==> d.widths[c] == widths[c]
  }

  /** What a plan met on the way down is known to be. */
  ghost predicate Met(c: Catalog, p: Plan, planned: string -> seq<string>, widths: map<nat, nat>) {
    && Render(p, planned).Some? && WellBound(p, planned) && DistinctIndices(p)
    && IndexSet(p) !! widths.Keys && FreeCtes(p) <= widths.Keys && RefWidths(p, widths)
    && SeamsStaged(p, c.views)
  }

  ghost predicate DecodesAs(c: Catalog, p: Plan, planned: string -> seq<string>, widths: map<nat, nat>)
    requires Render(p, planned).Some?
  {
    var d := Decode(c, Render(p, planned).value.rel, widths);
    && (d.Some? <==> Readable(p, planned, c.now))
    && (d.Some? ==> Shaped(d.value, p, widths))
  }

  lemma UnaryShape(c: Catalog, op: UnaryOp, child: Plan, planned: string -> seq<string>, widths: map<nat, nat>)
    requires Met(c, Unary(op, child), planned, widths) && Render(child, planned).Some?
    requires DecodesAs(c, child, planned, widths)
    ensures DecodesAs(c, Unary(op, child), planned, widths)
  {
    RenderedOut(child, planned);
  }

  lemma WidthsLater(p: Plan, widths: map<nat, nat>, d: Decoded, q: Plan)
    requires Shaped(d, q, widths) && IndexSet(q) !! IndexSet(p) && IndexSet(p) !! widths.Keys
    requires FreeCtes(p) <= widths.Keys && RefWidths(p, widths)
    ensures IndexSet(p) !! d.widths.Keys && FreeCtes(p) <= d.widths.Keys && RefWidths(p, d.widths)
  {
    RefWidthsAgree(p, widths, d.widths);
  }

  lemma BothShape(op: BinaryOp, l: seq<Binding>, r: seq<Binding>, left: Built, right: Built)
    requires RenderBinary(op, l + r).Some? && left.width == |l| && right.width == |r|
    ensures var b := DecodeBoth(RenderBinary(op, l + r).value, left, right);
            && b.Some?
            && b.value.width == (if op.SetOp? then |l| else |JoinedBindings(op.kind, op.markIndex, l, r)|)
  {
    if op.Join? {
      NamesReadBack(op.kind, Union, true);
    }
  }

  lemma MappedShape(op: BinaryOp, l: seq<Binding>, r: seq<Binding>, child: Built)
    requires op.Join? && RenderMaps(op, l, r).Some? && child.width == |JoinedBindings(op.kind, op.markIndex, l, r)|
    ensures var b := DecodeOver(ProjectRel([], Some(RenderMaps(op, l, r).value)), child);
            b.Some? && b.value.width == |BinaryBindings(op, l, r)|
  {
    var out := BinaryBindings(op, l, r);
    var places := RenderMaps(op, l, r).value;
    forall i | 0 <= i < |places| ensures places[i] < child.width {
      assert out[i] in JoinedBindings(op.kind, op.markIndex, l, r);
    }
  }

  lemma BinaryShape(c: Catalog, op: BinaryOp, left: Plan, right: Plan, planned: string -> seq<string>,
                    widths: map<nat, nat>)
    requires Met(c, Binary(op, left, right), planned, widths)
    requires Render(left, planned).Some? && Render(right, planned).Some?
    requires DecodesAs(c, left, planned, widths)
    requires var l := Decode(c, Render(left, planned).value.rel, widths);
             l.Some? ==> DecodesAs(c, right, planned, l.value.widths)
    ensures DecodesAs(c, Binary(op, left, right), planned, widths)
  {
    RenderedOut(left, planned);
    RenderedOut(right, planned);
    var lr, rr := Render(left, planned).value, Render(right, planned).value;
    var two := RenderBinary(op, lr.out + rr.out).value;
    var l := Decode(c, lr.rel, widths);
    if l.Some? {
      var r := Decode(c, rr.rel, l.value.widths);
      if r.Some? {
        BothShape(op, lr.out, rr.out, l.value.built, r.value.built);
        var b := DecodeBoth(two, l.value.built, r.value.built).value;
        assert Decode(c, Both(two, lr.rel, rr.rel), widths) == Some(Decoded(b, r.value.widths));
        if HasMaps(op) {
          MappedShape(op, lr.out, rr.out, b);
        }
      }
    }
  }

  lemma CteShape(c: Catalog, index: nat, definition: Plan, body: Plan, planned: string -> seq<string>,
                 widths: map<nat, nat>)
    requires Met(c, Cte(index, definition, body), planned, widths)
    requires Render(definition, planned).Some? && Render(body, planned).Some?
    requires DecodesAs(c, definition, planned, widths)
    requires var d := Decode(c, Render(definition, planned).value.rel, widths);
             d.Some? ==> DecodesAs(c, body, planned, d.value.widths[index := d.value.built.width])
    ensures DecodesAs(c, Cte(index, definition, body), planned, widths)
  {
  }

  /** A rendered plan reads back exactly when its counts and offsets fit and its tables have not changed, with as
  many columns as the plan emits. */
  lemma {:induction false} DecodesExactlyReadable(c: Catalog, p: Plan, planned: string -> seq<string>,
                                                  widths: map<nat, nat>)
    requires Met(c, p, planned, widths)
    ensures DecodesAs(c, p, planned, widths)
  {
    match p
    case Unary(op, child) =>
      DecodesExactlyReadable(c, child, planned, widths);
      UnaryShape(c, op, child, planned, widths);
    case Binary(op, left, right) =>
      DecodesExactlyReadable(c, left, planned, widths);
      var l := Decode(c, Render(left, planned).value.rel, widths);
      if l.Some? {
        WidthsLater(right, widths, l.value, left);
        DecodesExactlyReadable(c, right, planned, l.value.widths);
      }
      BinaryShape(c, op, left, right, planned, widths);
    case Cte(index, definition, body) =>
      DecodesExactlyReadable(c, definition, planned, widths);
      var d := Decode(c, Render(definition, planned).value.rel, widths);
      if d.Some? {
        BodyMet(index, definition, body, widths, d.value);
        DecodesExactlyReadable(c, body, planned, d.value.widths[index := d.value.built.width]);
      }
      CteShape(c, index, definition, body, planned, widths);
    case _ =>
  }

  lemma BodyMet(index: nat, definition: Plan, body: Plan, widths: map<nat, nat>, d: Decoded)
    requires Shaped(d, definition, widths) && DistinctIndices(Cte(index, definition, body))
    requires IndexSet(Cte(index, definition, body)) !! widths.Keys
    requires FreeCtes(Cte(index, definition, body)) <= widths.Keys && RefWidths(Cte(index, definition, body), widths)
    ensures var inside := d.widths[index := d.built.width];
            IndexSet(body) !! inside.Keys && FreeCtes(body) <= inside.Keys && RefWidths(body, inside)
  {
    RefWidthsAgree(body, widths[index := |Bindings(definition)|], d.widths[index := d.built.width]);
  }
}
