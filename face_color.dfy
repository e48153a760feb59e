/**
 * _get_face_color: the colour the exporter gives a voxel whose ray hit a
 * face. The triangulated face is first mapped back to its polygon; the
 * polygon's vertex colours, averaged, win over its material's colour,
 * which wins over the default.
 */
module FaceColor {
  import opened Wrappers
  import opened Voxels

  /**
   * The colour data of one mesh: the triangle-to-polygon map (absent when
   * the mesh was not triangulated), the vertex colours of each polygon,
   * each polygon's material slot, the colour of each material slot, and the
   * default colour.
   */
  datatype ColorData = ColorData(
    triToOrig: Option<map<nat, nat>>,
    vertexColors: map<nat, seq<Rgb>>,
    faceMaterials: seq<int>,
    materialColors: map<int, Rgb>,
    defaultColor: Rgb)

  /** The polygon a triangulated face came from; the face itself when the map does not know it. */
  function OrigFace(face: nat, data: ColorData): nat {
    if data.triToOrig.Some? && face in data.triToOrig.value then data.triToOrig.value[face] else face
  }

  /** The averaged vertex colours of a polygon, when it has any. */
  function VertexColor(orig: nat, data: ColorData): Option<Rgb> {
    if orig in data.vertexColors && data.vertexColors[orig] != [] then Some(Average(data.vertexColors[orig]))
    else None
  }

  /** The colour of a polygon's material, when the polygon has a material slot whose colour is known. */
  function MaterialColor(orig: nat, data: ColorData): Option<Rgb> {
    if orig < |data.faceMaterials| && data.faceMaterials[orig] in data.materialColors then
      Some(data.materialColors[data.faceMaterials[orig]])
    else None
  }

  /** _get_face_color */
  function GetFaceColor(face: nat, data: ColorData): Rgb {
    var orig := OrigFace(face, data);
    if orig in data.vertexColors && data.vertexColors[orig] != [] then
      var colors := data.vertexColors[orig];
      Average(colors)
    else if orig < |data.faceMaterials| && data.faceMaterials[orig] in data.materialColors then
      data.materialColors[data.faceMaterials[orig]]
    else
      data.defaultColor
  }

  /** The first source that has a colour, in the order given. */
  function FirstAvailable(sources: seq<Option<Rgb>>, fallback: Rgb): (r: Rgb)
    ensures r == fallback || exists i :: 0 <= i < |sources| && sources[i] == Some(r)
  {
    if sources == [] then fallback
    else if sources[0].Some? then sources[0].value
    else
      var r := FirstAvailable(sources[1..], fallback);
      assert r != fallback ==> exists i :: 1 <= i < |sources| && sources[i] == Some(r) by {
        if r != fallback {
          var i :| 0 <= i < |sources[1..]| && sources[1..][i] == Some(r);
          assert sources[i + 1] == Some(r);
        }
      }
      r
  }

  /**
   * The face is coloured by the first of its polygon's sources that has a
   * colour: vertex colours, then the material, then the default.
   */
  lemma FaceColorPrecedence(face: nat, data: ColorData)
    ensures var orig := OrigFace(face, data);
      GetFaceColor(face, data) == FirstAvailable([VertexColor(orig, data), MaterialColor(orig, data)], data.defaultColor)
  {
    var orig := OrigFace(face, data);
    var sources := [VertexColor(orig, data), MaterialColor(orig, data)];
    if VertexColor(orig, data).None? {
      assert sources[1..] == [MaterialColor(orig, data)];
      if MaterialColor(orig, data).None? {
        assert sources[1..][1..] == [];
      }
    }
  }

  /**
   * A triangle of a triangulated mesh gets the colour of the polygon it
   * came from.
   */
  lemma FaceColorOfTriangle(face: nat, data: ColorData)
    requires data.triToOrig.Some? && face in data.triToOrig.value
    ensures GetFaceColor(face, data) == GetFaceColor(data.triToOrig.value[face], data.(triToOrig := None))
  {
  }

  /** The colour a face gets is the default, a material's colour, or the average of its polygon's vertex colours. */
  lemma FaceColorSource(face: nat, data: ColorData)
    ensures var r := GetFaceColor(face, data);
      var orig := OrigFace(face, data);
      || r == data.defaultColor
      || r in data.materialColors.Values
      || (orig in data.vertexColors && data.vertexColors[orig] != [] && r == Average(data.vertexColors[orig]))
  {
    var orig := OrigFace(face, data);
    if !(orig in data.vertexColors && data.vertexColors[orig] != []) && MaterialColor(orig, data).Some? {
      assert data.faceMaterials[orig] in data.materialColors;
    }
  }

  /**
   * Each channel of a face's colour lies within any bounds that hold for
   * that channel of its polygon's vertex colours, of every material colour
   * and of the default colour: averaging never leaves the range.
   */
  lemma FaceColorWithin(face: nat, data: ColorData, k: Channel, lo: int, hi: int)
    requires var orig := OrigFace(face, data);
      orig in data.vertexColors ==> ChannelWithin(data.vertexColors[orig], k, lo, hi)
    requires forall m :: m in data.materialColors ==> lo <= Chan(data.materialColors[m], k) <= hi
    requires lo <= Chan(data.defaultColor, k) <= hi
    ensures lo <= Chan(GetFaceColor(face, data), k) <= hi
  {
    var orig := OrigFace(face, data);
    if orig in data.vertexColors && data.vertexColors[orig] != [] {
      AverageWithin(data.vertexColors[orig], k, lo, hi);
    } else if orig < |data.faceMaterials| && data.faceMaterials[orig] in data.materialColors {
      var m := data.faceMaterials[orig];
      assert lo <= Chan(data.materialColors[m], k) <= hi;
    }
  }

  /** A polygon whose vertices all carry one colour is given that colour. */
  lemma FaceColorUniform(face: nat, data: ColorData, c: Rgb)
    requires var orig := OrigFace(face, data);
      && orig in data.vertexColors && data.vertexColors[orig] != []
      && forall i :: 0 <= i < |data.vertexColors[orig]| ==> data.vertexColors[orig][i] == c
    ensures GetFaceColor(face, data) == c
  {
    var cs := data.vertexColors[OrigFace(face, data)];
    AverageWithin(cs, Red, c.r as int, c.r as int);
    AverageWithin(cs, Green, c.g as int, c.g as int);
    AverageWithin(cs, Blue, c.b as int, c.b as int);
  }
}
