/** Function references (src/render/substrait/substrait_render.cpp): on the wire a call carries a number, and a list the
document opens with says which name goes under it.
*/
module SubstraitAnchors {
  import opened Rows
  import opened PlanFacts
  import opened SubstraitRender

  /** An expression as the document holds it. */
  datatype AnchoredExpr =
    | AnchoredField(position: nat)
    | AnchoredLiteral(value: Value)
    | AnchoredCall(anchor: nat, args: seq<AnchoredExpr>)

  function Entered(entries: seq<string>, name: string): seq<string> {
    if name in entries then entries else entries + [name]
  }

  function AnchorOf(entries: seq<string>, name: string): nat {
    IndexOf(entries, name) + 1
  }

  datatype Anchoring = Anchoring(expr: AnchoredExpr, entries: seq<string>)

  datatype AnchoringAll = AnchoringAll(exprs: seq<AnchoredExpr>, entries: seq<string>)

  /** Arguments are written before the call they are given to. */
  function Anchored(e: WireExpr, entries: seq<string>): Anchoring {
    match e
    case Field(position) => Anchoring(AnchoredField(position), entries)
    case Literal(value) => Anchoring(AnchoredLiteral(value), entries)
    case Function(name, args) =>
      var inner := AnchoredAll(args, entries);
      var listed := Entered(inner.entries, name);
      Anchoring(AnchoredCall(AnchorOf(listed, name), inner.exprs), listed)
  }

  function AnchoredAll(es: seq<WireExpr>, entries: seq<string>): AnchoringAll {
    if es == [] then AnchoringAll([], entries)
    else
      var before := AnchoredAll(es[..|es| - 1], entries);
      var last := Anchored(es[|es| - 1], before.entries);
      AnchoringAll(before.exprs + [last.expr], last.entries)
  }

  /** An expression read through the document's list; nothing when a number is not in it. */
  function Named(a: AnchoredExpr, entries: seq<string>): Option<WireExpr> {
    match a
    case AnchoredField(position) => Some(Field(position))
    case AnchoredLiteral(value) => Some(Literal(value))
    case AnchoredCall(anchor, args) =>
      if !(1 <= anchor <= |entries|) then None
      else
        match NamedAll(args, entries)
        case None => None
        case Some(es) => Some(Function(entries[anchor - 1], es))
  }

  function NamedAll(es: seq<AnchoredExpr>, entries: seq<string>): Option<seq<WireExpr>> {
    if es == [] then Some([])
    else
      match (NamedAll(es[..|es| - 1], entries), Named(es[|es| - 1], entries))
      case (Some(before), Some(last)) => Some(before + [last])
      case _ => None
  }

  lemma {:induction false} EntriesGrow(e: WireExpr, entries: seq<string>)
    ensures entries <= Anchored(e, entries).entries
    ensures NoRepeats(entries) ==> NoRepeats(Anchored(e, entries).entries)
    decreases e, 0
  {
    if e.Function? {
      AllEntriesGrow(e.args, entries);
    }
  }

  lemma {:induction false} AllEntriesGrow(es: seq<WireExpr>, entries: seq<string>)
    ensures entries <= AnchoredAll(es, entries).entries
    ensures NoRepeats(entries) ==> NoRepeats(AnchoredAll(es, entries).entries)
    decreases es, 1
  {
    if es != [] {
      AllEntriesGrow(es[..|es| - 1], entries);
      EntriesGrow(es[|es| - 1], AnchoredAll(es[..|es| - 1], entries).entries);
    }
  }

  /** Whatever the document lists after it, an expression read through the finished list names the functions it
  named. */
  lemma {:induction false} AnchorsReadBack(e: WireExpr, entries: seq<string>, later: seq<string>)
    requires Anchored(e, entries).entries <= later
    ensures Named(Anchored(e, entries).expr, later) == Some(e)
    decreases e, 0
  {
    if e.Function? {
      var inner := AnchoredAll(e.args, entries);
      assert inner.entries <= Entered(inner.entries, e.name);
      AllAnchorsReadBack(e.args, entries, later);
      assert e.name in Entered(inner.entries, e.name);
    }
  }

  lemma {:induction false} AllAnchorsReadBack(es: seq<WireExpr>, entries: seq<string>, later: seq<string>)
    requires AnchoredAll(es, entries).entries <= later
    ensures NamedAll(AnchoredAll(es, entries).exprs, later) == Some(es)
    decreases es, 1
  {
    if es != [] {
      var fewer := es[..|es| - 1];
      var before := AnchoredAll(fewer, entries);
      EntriesGrow(es[|es| - 1], before.entries);
      AllAnchorsReadBack(fewer, entries, later);
      AnchorsReadBack(es[|es| - 1], before.entries, later);
      NamedOneMore(before.exprs, Anchored(es[|es| - 1], before.entries).expr, later);
      assert fewer + [es[|es| - 1]] == es;
    }
  }

  lemma NamedOneMore(es: seq<AnchoredExpr>, last: AnchoredExpr, entries: seq<string>)
    requires NamedAll(es, entries).Some? && Named(last, entries).Some?
    ensures NamedAll(es + [last], entries) == Some(NamedAll(es, entries).value + [Named(last, entries).value])
  {
    assert (es + [last])[..|es|] == es;
  }

  /** The table of functions a document opens with: a name is given a number the first time it is called. */
  class FunctionAnchors {
    var anchors: map<string, nat>
    var entries: seq<string>

    ghost predicate Valid()
      reads this
    {
      && (forall name :: name in anchors ==> 1 <= anchors[name] <= |entries| && entries[anchors[name] - 1] == name)
      && (forall i :: 0 <= i < |entries| ==> entries[i] in anchors && anchors[entries[i]] == i + 1)
    }

    constructor ()
      ensures Valid() && entries == []
    {
      anchors, entries := map[], [];
    }

    /** The number a name goes under; numbers already given stay. */
    method FunctionAnchor(name: string) returns (anchor: nat)
      requires Valid()
      modifies this
      ensures Valid() && 1 <= anchor <= |entries| && entries[anchor - 1] == name
      ensures entries == Entered(old(entries), name) && anchor == AnchorOf(entries, name)
    {
      if name in anchors {
        return anchors[name];
      }
      anchor := |entries| + 1;
      entries := entries + [name];
      anchors := anchors[name := anchor];
    }

    /** An expression written out, its functions listed as they are met. */
    method Expr(e: WireExpr) returns (a: AnchoredExpr)
      requires Valid()
      modifies this
      ensures Valid() && Anchoring(a, entries) == Anchored(e, old(entries))
      decreases e
    {
      match e
      case Field(position) => a := AnchoredField(position);
      case Literal(value) => a := AnchoredLiteral(value);
      case Function(name, args) =>
        var written: seq<AnchoredExpr> := [];
        for i := 0 to |args|
          invariant Valid() && AnchoringAll(written, entries) == AnchoredAll(args[..i], old(entries))
        {
          assert args[..i + 1][..i] == args[..i];
          var last := Expr(args[i]);
          written := written + [last];
        }
        assert args[..|args|] == args;
        var anchor := FunctionAnchor(name);
        a := AnchoredCall(anchor, written);
    }
  }
}
