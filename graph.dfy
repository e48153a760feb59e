/**
 * read_vox_scene's scene-graph pass: every nTRN chunk records a transform
 * (child node, translation, rotation, name) under its node id, every nSHP
 * chunk with at least one model records the model id of its first model,
 * and transforms whose child is a known shape become instances.
 */
module Graph {
  import opened Wrappers
  import opened Bytes
  import opened Text
  import opened Reader

  /** One value of the transforms dict: (child_node_id, translation, rotation, name). */
  datatype Transform = Transform(child: nat, translation: (int, int, int), rotation: int, name: string)

  /** The two dicts the pass fills: transforms (node id -> transform) and shape_nodes (node id -> model id). */
  datatype Graph = Graph(transforms: seq<(nat, Transform)>, shapes: seq<(nat, nat)>)

  /** One entry of VoxScene.instances: (model_id, translation, rotation, name). */
  datatype Instance = Instance(modelId: nat, translation: (int, int, int), rotation: int, name: string)

  // ---------------------------------------------------------------------
  // nTRN

  /** A u32 read that succeeded, as a natural number. */
  function U32Nat(s: seq<byte>, pos: nat): (r: Option<nat>)
    ensures r.Some? <==> pos + 4 <= |s|
    ensures r.Some? ==> r.value < TWO_32 && Some(r.value as int) == U32At(s, pos)
  {
    match U32At(s, pos)
    case None => None
    case Some(n) => Some(n)
  }

  /** The fixed part of an nTRN chunk: node id, node attributes, child id, frame count, and where the frames start. */
  datatype TransformHead = TransformHead(node: nat, attrs: seq<(string, string)>, child: nat, numFrames: nat, framePos: nat)

  /** Node id at 0, node dict at 4, then child id, reserved id, layer id and frame count, four bytes each. */
  function TransformHeadOf(content: seq<byte>): Option<TransformHead> {
    match U32Nat(content, 0)
    case None => None
    case Some(node) =>
      match DictAt(content, 4)
      case None => None
      case Some((attrs, pos)) =>
        match U32Nat(content, pos)
        case None => None
        case Some(child) =>
          match U32Nat(content, pos + 12)
          case None => None
          case Some(numFrames) => Some(TransformHead(node, attrs, child, numFrames, pos + 16))
  }

  /** The first frame's dict: read only when a frame is announced and bytes remain after the header. */
  function FrameOf(content: seq<byte>, h: TransformHead): Option<seq<(string, string)>> {
    if h.numFrames > 0 && h.framePos < |content| then
      match DictAt(content, h.framePos)
      case None => None
      case Some((frame, _)) => Some(frame)
    else Some([])
  }

  /** "_t": three whitespace-separated integers, or (0, 0, 0) when absent or not exactly three words. */
  function TranslationOf(frame: seq<(string, string)>): Result<(int, int, int), ReadError> {
    match Get(frame, "_t")
    case None => Success((0, 0, 0))
    case Some(t) =>
      var parts := Split(t);
      if |parts| != 3 then Success((0, 0, 0))
      else
        match (ParseInt(parts[0]), ParseInt(parts[1]), ParseInt(parts[2]))
        case (Some(x), Some(y), Some(z)) => Success((x, y, z))
        case _ => Failure(BadInt)
  }

  /** "_r": an integer, 0 when absent. */
  function RotationOf(frame: seq<(string, string)>): Result<int, ReadError> {
    match Get(frame, "_r")
    case None => Success(0)
    case Some(r) =>
      match ParseInt(r)
      case None => Failure(BadInt)
      case Some(v) => Success(v)
  }

  /** attrs.get('_name', ''). */
  function NameOf(attrs: seq<(string, string)>): string {
    match Get(attrs, "_name")
    case None => ""
    case Some(n) => n
  }

  /** An nTRN chunk's node id and transform. */
  function TransformOf(content: seq<byte>): Result<(nat, Transform), ReadError> {
    match TransformHeadOf(content)
    case None => Failure(Truncated)
    case Some(h) =>
      match FrameOf(content, h)
      case None => Failure(Truncated)
      case Some(frame) =>
        match TranslationOf(frame)
        case Failure(e) => Failure(e)
        case Success(t) =>
          match RotationOf(frame)
          case Failure(e) => Failure(e)
          case Success(r) => Success((h.node, Transform(h.child, t, r, NameOf(h.attrs))))
  }

  // ---------------------------------------------------------------------
  // nSHP

  /** An nSHP chunk: node id at 0, node dict at 4, model count, then the first model's id if there is one. */
  function ShapeOf(content: seq<byte>): Result<Option<(nat, nat)>, ReadError> {
    match U32Nat(content, 0)
    case None => Failure(Truncated)
    case Some(node) =>
      match DictAt(content, 4)
      case None => Failure(Truncated)
      case Some((_, pos)) =>
        match U32Nat(content, pos)
        case None => Failure(Truncated)
        case Some(numModels) =>
          if numModels == 0 then Success(None)
          else
            match U32Nat(content, pos + 4)
            case None => Failure(Truncated)
            case Some(model) => Success(Some((node, model)))
  }

  // ---------------------------------------------------------------------
  // The pass

  /** One chunk of the graph pass; chunks other than nTRN and nSHP are passed over. */
  function GraphStep(g: Graph, c: RawChunk): Result<Graph, ReadError> {
    if c.id == "nTRN" then
      match TransformOf(c.content)
      case Failure(e) => Failure(e)
      case Success((node, t)) => Success(g.(transforms := Put(g.transforms, node, t)))
    else if c.id == "nSHP" then
      match ShapeOf(c.content)
      case Failure(e) => Failure(e)
      case Success(None) => Success(g)
      case Success(Some((node, model))) => Success(g.(shapes := Put(g.shapes, node, model)))
    else Success(g)
  }

  /** The graph pass from g over the chunks cs, stopping at the first chunk that raises. */
  function GraphFrom(g: Graph, cs: seq<RawChunk>): Result<Graph, ReadError>
    decreases |cs|
  {
    if cs == [] then Success(g)
    else
      match GraphStep(g, cs[0])
      case Failure(e) => Failure(e)
      case Success(g') => GraphFrom(g', cs[1..])
  }

  /** The graph pass over all chunks, from two empty dicts. */
  function GraphOf(cs: seq<RawChunk>): Result<Graph, ReadError> {
    GraphFrom(Graph([], []), cs)
  }

  // ---------------------------------------------------------------------
  // Instances

  /** The instance of one transform: present when its child is a shape whose model exists. */
  function InstanceOf(t: Transform, shapes: seq<(nat, nat)>, numModels: nat): Option<Instance> {
    match Get(shapes, t.child)
    case None => None
    case Some(m) => if m < numModels then Some(Instance(m, t.translation, t.rotation, t.name)) else None
  }

  /** The instances of the transforms, in the dict's order. */
  function Resolved(ts: seq<(nat, Transform)>, shapes: seq<(nat, nat)>, numModels: nat): seq<Instance>
    decreases |ts|
  {
    if ts == [] then []
    else
      var rest := Resolved(ts[1..], shapes, numModels);
      match InstanceOf(ts[0].1, shapes, numModels)
      case None => rest
      case Some(inst) => [inst] + rest
  }

  /** The instance synthesised for model i when nothing resolved. */
  function OriginInstance(i: nat): Instance {
    Instance(i, (0, 0, 0), 0, "Model_" + FormatNat(i))
  }

  /** One origin instance per model, model 0 first. */
  function OriginInstances(n: nat): (r: seq<Instance>)
    ensures |r| == n
  {
    if n == 0 then [] else OriginInstances(n - 1) + [OriginInstance(n - 1)]
  }

  /** The scene's instances: the resolved ones, or one per model at the origin when none resolved. */
  function InstancesOf(g: Graph, numModels: nat): seq<Instance> {
    var resolved := Resolved(g.transforms, g.shapes, numModels);
    if resolved == [] && numModels > 0 then OriginInstances(numModels) else resolved
  }

  // ---------------------------------------------------------------------
  // The pass as the reader runs it

  /** Decoding an nTRN chunk with a cursor: node id, node dict, child id, two skipped ids, frame count, first frame. */
  method ReadTransform(content: seq<byte>) returns (r: Result<(nat, Transform), ReadError>)
    ensures r == TransformOf(content)
  {
    var node := U32Nat(content, 0);
    if node.None? {
      return Failure(Truncated);
    }
    var dict := ParseDict(content, 4);
    if dict.None? {
      return Failure(Truncated);
    }
    var (attrs, pos) := dict.value;
    var child := U32Nat(content, pos);
    if child.None? {
      return Failure(Truncated);
    }
    var numFrames := U32Nat(content, pos + 12);
    if numFrames.None? {
      return Failure(Truncated);
    }
    var h := TransformHead(node.value, attrs, child.value, numFrames.value, pos + 16);
    var frame := ReadFrame(content, h);
    if frame.None? {
      return Failure(Truncated);
    }
    var translation := TranslationOf(frame.value);
    if translation.Failure? {
      return Failure(translation.error);
    }
    var rotation := RotationOf(frame.value);
    if rotation.Failure? {
      return Failure(rotation.error);
    }
    return Success((h.node, Transform(h.child, translation.value, rotation.value, NameOf(attrs))));
  }

  /** frame_attrs: {} unless a frame is announced and bytes remain, then the dict read there. */
  method ReadFrame(content: seq<byte>, h: TransformHead) returns (frame: Option<seq<(string, string)>>)
    ensures frame == FrameOf(content, h)
  {
    frame := Some([]);
    if h.numFrames > 0 && h.framePos < |content| {
      var dict := ParseDict(content, h.framePos);
      if dict.None? {
        return None;
      }
      frame := Some(dict.value.0);
    }
  }

  /** Decoding an nSHP chunk: node id, node dict, model count, and the first model id when the count is positive. */
  method ReadShape(content: seq<byte>) returns (r: Result<Option<(nat, nat)>, ReadError>)
    ensures r == ShapeOf(content)
  {
    var node := U32Nat(content, 0);
    if node.None? {
      return Failure(Truncated);
    }
    var dict := ParseDict(content, 4);
    if dict.None? {
      return Failure(Truncated);
    }
    var pos := dict.value.1;
    var numModels := U32Nat(content, pos);
    if numModels.None? {
      return Failure(Truncated);
    }
    if numModels.value == 0 {
      return Success(None);
    }
    var model := U32Nat(content, pos + 4);
    if model.None? {
      return Failure(Truncated);
    }
    return Success(Some((node.value, model.value)));
  }

  /** The rest of the pass from chunk i on, started from the dicts so far, is the whole pass. */
  predicate PassRemains(chunks: seq<RawChunk>, i: nat, g: Graph)
    requires i <= |chunks|
  {
    GraphFrom(g, chunks[i..]) == GraphOf(chunks)
  }

  lemma PassAdvance(chunks: seq<RawChunk>, i: nat, g: Graph, g': Graph)
    requires i < |chunks| && PassRemains(chunks, i, g) && GraphStep(g, chunks[i]) == Success(g')
    ensures PassRemains(chunks, i + 1, g')
  {
    assert chunks[i..][1..] == chunks[i + 1..];
  }

  lemma PassFails(chunks: seq<RawChunk>, i: nat, g: Graph)
    requires i < |chunks| && PassRemains(chunks, i, g) && GraphStep(g, chunks[i]).Failure?
    ensures GraphOf(chunks) == Failure(GraphStep(g, chunks[i]).error)
  {
  }

  /** read_vox_scene's second loop over the chunks, filling transforms and shape_nodes. */
  method ReadGraph(chunks: seq<RawChunk>) returns (r: Result<Graph, ReadError>)
    ensures r == GraphOf(chunks)
  {
    var g := Graph([], []);
    for i := 0 to |chunks|
      invariant PassRemains(chunks, i, g)
    {
      var next := ReadGraphStep(g, chunks[i]);
      if next.Failure? {
        PassFails(chunks, i, g);
        return Failure(next.error);
      }
      PassAdvance(chunks, i, g, next.value);
      g := next.value;
    }
    assert chunks[|chunks|..] == [];
    return Success(g);
  }

  /** One iteration of the graph loop: record an nTRN's transform or an nSHP's model id. */
  method ReadGraphStep(g: Graph, c: RawChunk) returns (r: Result<Graph, ReadError>)
    ensures r == GraphStep(g, c)
  {
    r := Success(g);
    if c.id == "nTRN" {
      var t := ReadTransform(c.content);
      if t.Failure? {
        return Failure(t.error);
      }
      r := Success(g.(transforms := Put(g.transforms, t.value.0, t.value.1)));
    } else if c.id == "nSHP" {
      var shape := ReadShape(c.content);
      if shape.Failure? {
        return Failure(shape.error);
      }
      if shape.value.Some? {
        r := Success(g.(shapes := Put(g.shapes, shape.value.value.0, shape.value.value.1)));
      }
    }
  }

  /** The instances loop over transforms.items(), then the origin instances when none resolved. */
  method BuildInstances(g: Graph, numModels: nat) returns (instances: seq<Instance>)
    ensures instances == InstancesOf(g, numModels)
  {
    instances := [];
    var ts := g.transforms;
    for i := 0 to |ts|
      invariant instances + Resolved(ts[i..], g.shapes, numModels) == Resolved(ts, g.shapes, numModels)
    {
      assert ts[i..][1..] == ts[i + 1..];
      var t := ts[i].1;
      var model := Get(g.shapes, t.child);
      if model.Some? && model.value < numModels {
        instances := instances + [Instance(model.value, t.translation, t.rotation, t.name)];
      }
    }
    assert ts[|ts|..] == [];
    if instances == [] && numModels > 0 {
      for i := 0 to numModels
        invariant instances == OriginInstances(i)
      {
        instances := instances + [Instance(i, (0, 0, 0), 0, "Model_" + FormatNat(i))];
      }
    }
  }

  // ---------------------------------------------------------------------
  // Properties

  /** str(i) is one word: not empty, no whitespace. */
  lemma FormatIntWord(i: int)
    ensures FormatInt(i) != [] && NoSpace(FormatInt(i))
  {
    var d := FormatNat(if i < 0 then -i else i);
    assert forall k :: 0 <= k < |d| ==> IsDigit(d[k]);
    if i < 0 {
      assert FormatInt(i) == "-" + d;
      forall k | 0 <= k < |FormatInt(i)|
        ensures !IsSpace(FormatInt(i)[k])
      {
        if k > 0 {
          assert FormatInt(i)[k] == d[k - 1];
        }
      }
    }
  }

  /** The words of "x y z" are str(x), str(y), str(z). */
  lemma SplitTriple(x: int, y: int, z: int)
    ensures Split(JoinSpaced([FormatInt(x), FormatInt(y), FormatInt(z)])) == [FormatInt(x), FormatInt(y), FormatInt(z)]
  {
    FormatIntWord(x);
    FormatIntWord(y);
    FormatIntWord(z);
    SplitJoined([FormatInt(x), FormatInt(y), FormatInt(z)]);
  }

  /** A "_t" written as "x y z" (MagicaVoxel's layout) decodes to the translation (x, y, z). */
  lemma TranslationJoined(frame: seq<(string, string)>, x: int, y: int, z: int)
    requires Get(frame, "_t") == Some(JoinSpaced([FormatInt(x), FormatInt(y), FormatInt(z)]))
    ensures TranslationOf(frame) == Success((x, y, z))
  {
    SplitTriple(x, y, z);
    ParseFormat(x);
    ParseFormat(y);
    ParseFormat(z);
  }

  /** A translation other than (0, 0, 0) only comes from a "_t" of exactly three integer words. */
  lemma TranslationFromThreeWords(frame: seq<(string, string)>)
    requires TranslationOf(frame).Success? && TranslationOf(frame).value != (0, 0, 0)
    ensures Get(frame, "_t").Some? && |Split(Get(frame, "_t").value)| == 3
    ensures var parts := Split(Get(frame, "_t").value);
      TranslationOf(frame).value == (ParseInt(parts[0]).value, ParseInt(parts[1]).value, ParseInt(parts[2]).value)
  {
  }

  /** The graph pass fails only by struct.error or an int() that does not parse; never on the magic. */
  lemma {:induction false} GraphFromErrors(g: Graph, cs: seq<RawChunk>)
    ensures GraphFrom(g, cs).Failure? ==> GraphFrom(g, cs).error != NotVox
    decreases |cs|
  {
    if cs != [] && GraphStep(g, cs[0]).Success? {
      GraphFromErrors(GraphStep(g, cs[0]).value, cs[1..]);
    }
  }

  /** After an nTRN chunk, its node id maps to its transform and every other node id is as before. */
  lemma TransformRecorded(g: Graph, c: RawChunk, node: nat, t: Transform, other: nat)
    requires c.id == "nTRN" && TransformOf(c.content) == Success((node, t))
    ensures GraphStep(g, c).Success?
    ensures Get(GraphStep(g, c).value.transforms, node) == Some(t)
    ensures other != node ==> Get(GraphStep(g, c).value.transforms, other) == Get(g.transforms, other)
    ensures GraphStep(g, c).value.shapes == g.shapes
  {
    GetPut(g.transforms, node, t, node);
    GetPut(g.transforms, node, t, other);
  }

  /** The instances resolved from the transforms are exactly the instances of single transforms. */
  lemma {:induction false} ResolvedMembers(ts: seq<(nat, Transform)>, shapes: seq<(nat, nat)>, numModels: nat, inst: Instance)
    ensures inst in Resolved(ts, shapes, numModels) <==> exists j :: 0 <= j < |ts| && InstanceOf(ts[j].1, shapes, numModels) == Some(inst)
    decreases |ts|
  {
    if ts != [] {
      ResolvedMembers(ts[1..], shapes, numModels, inst);
      if exists j :: 0 <= j < |ts| && InstanceOf(ts[j].1, shapes, numModels) == Some(inst) {
        var j :| 0 <= j < |ts| && InstanceOf(ts[j].1, shapes, numModels) == Some(inst);
        if j > 0 {
          assert ts[1..][j - 1] == ts[j];
        }
      }
      if exists j :: 0 <= j < |ts[1..]| && InstanceOf(ts[1..][j].1, shapes, numModels) == Some(inst) {
        var j :| 0 <= j < |ts[1..]| && InstanceOf(ts[1..][j].1, shapes, numModels) == Some(inst);
        assert ts[j + 1] == ts[1..][j];
      }
    }
  }

  /** Origin instance i is model i at the origin, unrotated, named "Model_<i>". */
  lemma {:induction false} OriginInstancesAt(n: nat, i: nat)
    requires i < n
    ensures OriginInstances(n)[i] == Instance(i, (0, 0, 0), 0, "Model_" + FormatNat(i))
  {
    if i < n - 1 {
      OriginInstancesAt(n - 1, i);
    }
  }

  /** Every instance refers to an existing model. */
  lemma InstancesInRange(g: Graph, numModels: nat, inst: Instance)
    requires inst in InstancesOf(g, numModels)
    ensures inst.modelId < numModels
  {
    var resolved := Resolved(g.transforms, g.shapes, numModels);
    if inst in resolved {
      ResolvedMembers(g.transforms, g.shapes, numModels, inst);
    } else {
      var i :| 0 <= i < numModels && OriginInstances(numModels)[i] == inst;
      OriginInstancesAt(numModels, i);
    }
  }

  /** A scene has instances exactly when it has models. */
  lemma InstancesPresent(g: Graph, numModels: nat)
    ensures InstancesOf(g, numModels) != [] <==> numModels > 0
  {
    var resolved := Resolved(g.transforms, g.shapes, numModels);
    if numModels == 0 && resolved != [] {
      ResolvedMembers(g.transforms, g.shapes, numModels, resolved[0]);
    }
  }
}
