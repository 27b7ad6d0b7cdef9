/**
 * The JSON document tree the log builder fills in, and the two nlohmann operations it uses on it:
 * `doc[k1][k2]...[kn] = v` and `doc[k1]...[kn].push_back(v)`. A missing key or a null value on the
 * way is turned into an object (a null slot pushed onto becomes an array); any other kind of value
 * on the way makes nlohmann throw `type_error`, which is `Err(TypeError)` here.
 */
module JsonDoc {
  import opened Basics

  datatype Json =
    | Null
    | Bool(b: bool)
    | Int(i: int)
    | Float(f: real)
    | Str(s: string)
    | Arr(items: seq<Json>)
    | Obj(fields: map<string, Json>)

  type Path = seq<string>

  datatype Op = Assign(v: Json) | Append(v: Json)

  /** One statement of a builder: an edit at a path, or a read the C++ leaves undefined. */
  datatype Step = Edit(path: Path, op: Op) | Undefined

  datatype LogError = TypeError | UndefinedRead

  /** The value at path `p`, if every key on the way is present in an object. */
  function Get(d: Json, p: Path): Option<Json>
    decreases |p|
  {
    if |p| == 0 then Some(d)
    else if d.Obj? && p[0] in d.fields then Get(d.fields[p[0]], p[1..])
    else None
  }

  /** The elements `push_back` extends: an absent or null slot counts as an empty array. */
  function ItemsOf(slot: Option<Json>): seq<Json>
  {
    if slot.Some? && slot.value.Arr? then slot.value.items else []
  }

  /** What a slot holds after `op`, given what it held before. */
  function AfterOp(slot: Option<Json>, op: Op): Json
  {
    match op
    case Assign(v) => v
    case Append(v) => Arr(ItemsOf(slot) + [v])
  }

  function Leaf(d: Json, op: Op): Result<Json, LogError>
  {
    match op
    case Assign(v) => Ok(v)
    case Append(_) => if d.Null? || d.Arr? then Ok(AfterOp(Some(d), op)) else Err(TypeError)
  }

  /** `op` applied at path `p` of `d`, creating objects for missing keys and null values on the way. */
  function Modify(d: Json, p: Path, op: Op): Result<Json, LogError>
    decreases |p|
  {
    if |p| == 0 then Leaf(d, op)
    else if d.Null? || d.Obj? then
      var fields := if d.Obj? then d.fields else map[];
      var child := if p[0] in fields then fields[p[0]] else Null;
      match Modify(child, p[1..], op)
      case Err(e) => Err(e)
      case Ok(sub) => Ok(Obj(fields[p[0] := sub]))
    else Err(TypeError)
  }

  /** Two paths that part at some key: writing at one never changes the value at the other. */
  ghost predicate Diverge(p: Path, q: Path)
  {
    exists i :: 0 <= i < |p| && i < |q| && p[i] != q[i]
  }

  lemma DivergeAt(p: Path, q: Path, i: nat)
    requires i < |p| && i < |q| && p[i] != q[i]
    ensures Diverge(p, q) && Diverge(q, p)
  {
  }

  /** After a successful edit the slot holds what the operation puts there. */
  lemma {:induction false} GetModifySame(d: Json, p: Path, op: Op)
    requires Modify(d, p, op).Ok?
    ensures Get(Modify(d, p, op).value, p) == Some(AfterOp(Get(d, p), op))
    decreases |p|
  {
    if |p| > 0 {
      var fields := if d.Obj? then d.fields else map[];
      var child := if p[0] in fields then fields[p[0]] else Null;
      GetModifySame(child, p[1..], op);
      assert ItemsOf(Get(child, p[1..])) == ItemsOf(Get(d, p));
    }
  }

  /** An edit leaves every path that parts from its own untouched. */
  lemma {:induction false} GetModifyOther(d: Json, p: Path, op: Op, q: Path)
    requires Modify(d, p, op).Ok? && Diverge(p, q)
    ensures Get(Modify(d, p, op).value, q) == Get(d, q)
    decreases |p|
  {
    var i :| 0 <= i < |p| && i < |q| && p[i] != q[i];
    var fields := if d.Obj? then d.fields else map[];
    var child := if p[0] in fields then fields[p[0]] else Null;
    if p[0] == q[0] {
      DivergeAt(p[1..], q[1..], i - 1);
      GetModifyOther(child, p[1..], op, q[1..]);
    }
  }

  function Apply(d: Json, s: Step): Result<Json, LogError>
  {
    match s
    case Undefined => Err(UndefinedRead)
    case Edit(p, op) => Modify(d, p, op)
  }

  /** The steps applied in order; the first failure stops the run. */
  function Run(d: Json, steps: seq<Step>): Result<Json, LogError>
    decreases |steps|
  {
    if |steps| == 0 then Ok(d)
    else
      match Apply(d, steps[0])
      case Err(e) => Err(e)
      case Ok(d1) => Run(d1, steps[1..])
  }

  /**
   * Two documents built in lockstep, as the log builders do: each statement is applied to the
   * first document and then to the second, and the first failure stops both.
   */
  function RunPair(h: Json, c: Json, hs: seq<Step>, cs: seq<Step>): Result<(Json, Json), LogError>
    requires |hs| == |cs|
    decreases |hs|
  {
    if |hs| == 0 then Ok((h, c))
    else
      match Apply(h, hs[0])
      case Err(e) => Err(e)
      case Ok(h1) =>
        match Apply(c, cs[0])
        case Err(e) => Err(e)
        case Ok(c1) => RunPair(h1, c1, hs[1..], cs[1..])
  }

  /** The lockstep run succeeds exactly when both separate runs do, and then yields their results. */
  lemma {:induction false} RunPairBoth(h: Json, c: Json, hs: seq<Step>, cs: seq<Step>)
    requires |hs| == |cs|
    ensures RunPair(h, c, hs, cs).Ok? <==> Run(h, hs).Ok? && Run(c, cs).Ok?
    ensures RunPair(h, c, hs, cs).Ok? ==> RunPair(h, c, hs, cs).value == (Run(h, hs).value, Run(c, cs).value)
    decreases |hs|
  {
    if |hs| > 0 && Apply(h, hs[0]).Ok? && Apply(c, cs[0]).Ok? {
      RunPairBoth(Apply(h, hs[0]).value, Apply(c, cs[0]).value, hs[1..], cs[1..]);
    }
  }

  /** A lockstep run over two concatenations is the run over the first parts, then the second. */
  lemma {:induction false} RunPairConcat(h: Json, c: Json, a: seq<Step>, b: seq<Step>, a': seq<Step>, b': seq<Step>)
    requires |a| == |a'| && |b| == |b'|
    ensures RunPair(h, c, a + b, a' + b') ==
      match RunPair(h, c, a, a')
      case Err(e) => Err(e)
      case Ok(p) => RunPair(p.0, p.1, b, b')
    decreases |a|
  {
    if |a| == 0 {
      assert a + b == b && a' + b' == b';
    } else {
      assert (a + b)[0] == a[0] && (a' + b')[0] == a'[0];
      assert (a + b)[1..] == a[1..] + b && (a' + b')[1..] == a'[1..] + b';
      if Apply(h, a[0]).Ok? && Apply(c, a'[0]).Ok? {
        RunPairConcat(Apply(h, a[0]).value, Apply(c, a'[0]).value, a[1..], b, a'[1..], b');
      }
    }
  }

  /** Every edit among `steps` writes exactly at `p` or on a path that parts from `p`. */
  ghost predicate AtOrBeside(steps: seq<Step>, p: Path)
  {
    forall s :: s in steps && s.Edit? ==> s.path == p || Diverge(s.path, p)
  }

  /** The operations the edits among `steps` perform at exactly `p`, in order. */
  function OpsAt(steps: seq<Step>, p: Path): seq<Op>
    decreases |steps|
  {
    if |steps| == 0 then []
    else (if steps[0].Edit? && steps[0].path == p then [steps[0].op] else []) + OpsAt(steps[1..], p)
  }

  function AfterOps(slot: Option<Json>, ops: seq<Op>): Option<Json>
    decreases |ops|
  {
    if |ops| == 0 then slot else AfterOps(Some(AfterOp(slot, ops[0])), ops[1..])
  }

  /** What a successful run leaves at `p` is determined by the operations at `p` alone. */
  lemma {:induction false} RunAt(d: Json, steps: seq<Step>, p: Path)
    requires Run(d, steps).Ok? && AtOrBeside(steps, p)
    ensures Get(Run(d, steps).value, p) == AfterOps(Get(d, p), OpsAt(steps, p))
    decreases |steps|
  {
    if |steps| > 0 {
      var s := steps[0];
      var rest := steps[1..];
      assert s in steps;
      assert AtOrBeside(rest, p) by {
        forall t | t in rest && t.Edit? ensures t.path == p || Diverge(t.path, p) {
          assert t in steps;
        }
      }
      var d1 := Apply(d, s).value;
      if s.path == p {
        GetModifySame(d, s.path, s.op);
        RunAt(d1, rest, p);
        var ops := OpsAt(steps, p);
        assert ops == [s.op] + OpsAt(rest, p);
        assert ops[0] == s.op && ops[1..] == OpsAt(rest, p);
      } else {
        GetModifyOther(d, s.path, s.op, p);
        RunAt(d1, rest, p);
        assert OpsAt(steps, p) == OpsAt(rest, p);
      }
    }
  }

  lemma {:induction false} OpsAtConcat(a: seq<Step>, b: seq<Step>, p: Path)
    ensures OpsAt(a + b, p) == OpsAt(a, p) + OpsAt(b, p)
    decreases |a|
  {
    if |a| == 0 {
      assert a + b == b;
    } else {
      assert (a + b)[0] == a[0] && (a + b)[1..] == a[1..] + b;
      OpsAtConcat(a[1..], b, p);
    }
  }

  /** No edit among `steps` writes exactly at `p`. */
  lemma {:induction false} OpsAtNone(steps: seq<Step>, p: Path)
    requires forall s :: s in steps && s.Edit? ==> s.path != p
    ensures OpsAt(steps, p) == []
    decreases |steps|
  {
    if |steps| > 0 {
      assert steps[0] in steps;
      forall s | s in steps[1..] && s.Edit? ensures s.path != p {
        assert s in steps;
      }
      OpsAtNone(steps[1..], p);
    }
  }

  /** A successful run whose edits all part from `q` leaves the value at `q` as it was. */
  lemma RunBeside(d: Json, steps: seq<Step>, q: Path)
    requires Run(d, steps).Ok?
    requires forall s :: s in steps && s.Edit? ==> Diverge(s.path, q)
    ensures Get(Run(d, steps).value, q) == Get(d, q)
  {
    forall s | s in steps && s.Edit? ensures s.path != q {
      var i :| 0 <= i < |s.path| && i < |q| && s.path[i] != q[i];
    }
    OpsAtNone(steps, q);
    RunAt(d, steps, q);
  }

  /** Last assignment wins. */
  lemma {:induction false} AfterOpsLastAssign(slot: Option<Json>, ops: seq<Op>)
    requires |ops| > 0 && ops[|ops| - 1].Assign?
    ensures AfterOps(slot, ops) == Some(ops[|ops| - 1].v)
    decreases |ops|
  {
    if |ops| > 1 {
      AfterOpsLastAssign(Some(AfterOp(slot, ops[0])), ops[1..]);
    }
  }

  function Values(ops: seq<Op>): seq<Json>
    decreases |ops|
  {
    if |ops| == 0 then [] else [ops[0].v] + Values(ops[1..])
  }

  /** Appends accumulate: the slot ends up as its old elements followed by every appended value. */
  lemma {:induction false} AfterOpsAppends(slot: Option<Json>, ops: seq<Op>)
    requires |ops| > 0 && forall i :: 0 <= i < |ops| ==> ops[i].Append?
    ensures AfterOps(slot, ops) == Some(Arr(ItemsOf(slot) + Values(ops)))
    decreases |ops|
  {
    var v := ops[0].v;
    var next := Some(AfterOp(slot, ops[0]));
    var rest := ops[1..];
    assert ItemsOf(next) == ItemsOf(slot) + [v];
    assert Values(ops) == [v] + Values(rest);
    assert AfterOps(slot, ops) == AfterOps(next, rest);
    if |rest| == 0 {
      assert Values(ops) == [v];
    } else {
      AfterOpsAppends(next, rest);
      calc {
        ItemsOf(next) + Values(rest);
        (ItemsOf(slot) + [v]) + Values(rest);
        ItemsOf(slot) + ([v] + Values(rest));
      }
    }
  }

  /** The operations at `p` of steps that all write exactly at `p`: every step's operation, in order. */
  lemma {:induction false} OpsAtAllAt(steps: seq<Step>, p: Path)
    requires forall i :: 0 <= i < |steps| ==> steps[i].Edit? && steps[i].path == p
    ensures OpsAt(steps, p) == seq(|steps|, i requires 0 <= i < |steps| => steps[i].op)
    decreases |steps|
  {
    if |steps| > 0 {
      OpsAtAllAt(steps[1..], p);
    }
  }

  lemma {:induction false} ValuesOf(ops: seq<Op>)
    ensures Values(ops) == seq(|ops|, i requires 0 <= i < |ops| => ops[i].v)
    decreases |ops|
  {
    if |ops| > 0 {
      ValuesOf(ops[1..]);
    }
  }

  /**
   * The last assignment at `p` decides what a successful run leaves there, whatever came before
   * it, when every other edit writes at `p` or beside it.
   */
  lemma RunLastAssign(d: Json, steps: seq<Step>, p: Path, i: nat)
    requires Run(d, steps).Ok? && AtOrBeside(steps, p)
    requires i < |steps| && steps[i].Edit? && steps[i].path == p && steps[i].op.Assign?
    requires forall j :: i < j < |steps| ==> !(steps[j].Edit? && steps[j].path == p)
    ensures Get(Run(d, steps).value, p) == Some(steps[i].op.v)
  {
    var before, later := steps[..i + 1], steps[i + 1..];
    assert steps == before + later;
    forall s | s in later && s.Edit? ensures s.path != p {
      var j :| 0 <= j < |later| && later[j] == s;
      assert steps[i + 1 + j] == s;
    }
    OpsAtNone(later, p);
    assert before == steps[..i] + [steps[i]];
    OpsAtConcat(steps[..i], [steps[i]], p);
    OpsAtConcat(before, later, p);
    var ops := OpsAt(steps, p);
    assert ops == OpsAt(steps[..i], p) + [steps[i].op];
    AfterOpsLastAssign(Get(d, p), ops);
    RunAt(d, steps, p);
  }

  /** A run that reaches an undefined read fails, whatever the edits before it do. */
  lemma {:induction false} RunUndefined(d: Json, steps: seq<Step>)
    requires Undefined in steps
    ensures Run(d, steps).Err?
    decreases |steps|
  {
    if steps[0] != Undefined && Apply(d, steps[0]).Ok? {
      assert Undefined in steps[1..];
      RunUndefined(Apply(d, steps[0]).value, steps[1..]);
    }
  }

  /** A value found under a path is found under each of its prefixes, and then below that prefix. */
  lemma {:induction false} GetPrefix(d: Json, p: Path, q: Path)
    requires Get(d, p + q).Some?
    ensures Get(d, p).Some? && Get(Get(d, p).value, q) == Get(d, p + q)
    decreases |p|
  {
    if |p| == 0 {
      assert p + q == q;
    } else {
      assert (p + q)[0] == p[0] && (p + q)[1..] == p[1..] + q;
      GetPrefix(d.fields[p[0]], p[1..], q);
    }
  }

  /** One `push_back` per value, in order. */
  function AppendAll(vs: seq<Json>): (ops: seq<Op>)
    ensures |ops| == |vs| && forall i :: 0 <= i < |ops| ==> ops[i] == Append(vs[i])
  {
    seq(|vs|, i requires 0 <= i < |vs| => Append(vs[i]))
  }

  /** Pushing values onto a slot leaves its old elements followed by the values, in order. */
  lemma AfterAppendAll(slot: Option<Json>, vs: seq<Json>)
    ensures AfterOps(slot, AppendAll(vs)) == if |vs| == 0 then slot else Some(Arr(ItemsOf(slot) + vs))
  {
    var ops := AppendAll(vs);
    if |vs| > 0 {
      AfterOpsAppends(slot, ops);
      ValuesOf(ops);
      assert Values(ops) == vs;
    }
  }
}
