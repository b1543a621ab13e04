/**
 * The vertex shader the renderer compiles and the attribute and uniform
 * locations it fetches once the program is linked. The shader declares
 * one texture coordinate attribute per plane, up to three planes.
 */
module Shader {
  import opened Common

  /** The decimal digits of n, as the `%u` conversion prints them. */
  function DecimalDigits(n: nat): (s: string)
    ensures |s| >= 1
    ensures forall i :: 0 <= i < |s| ==> '0' <= s[i] <= '9'
    ensures n < 10 ==> s == [('0' as int + n) as char]
  {
    if n < 10 then [('0' as int + n) as char]
    else DecimalDigits(n / 10) + [('0' as int + n % 10) as char]
  }

  /** The names the shader gives plane i's texture coordinate, as attribute and as varying. */
  function AttributeName(i: nat): string
  {
    "MultiTexCoord" + DecimalDigits(i)
  }

  function VaryingName(i: nat): string
  {
    "TexCoord" + DecimalDigits(i)
  }

  /** One statement of the vertex shader. */
  datatype ShaderLine =
    | Version(glsl: nat)
    | TexCoordVarying(plane: nat)
    | TexCoordAttribute(plane: nat)
    | VertexPositionAttribute
    | MatrixUniform(name: string)
    | MainBegin
    | TexCoordAssignment(plane: nat)
    | PositionAssignment
    | MainEnd

  /** A line of the shader text: its words and a newline. */
  function Line(words: string): (s: string)
    ensures |s| >= 1 && s[|s| - 1] == '\n'
  {
    words + "\n"
  }

  /**
   * The GLSL text of a statement: its words, and the end of its line for
   * every statement but the closing brace of main, which ends the text.
   */
  function Text(line: ShaderLine): (s: string)
    ensures |s| >= 1
    ensures s[|s| - 1] == if line.MainEnd? then '}' else '\n'
  {
    if line.MainEnd? then "}" else Line(Words(line))
  }

  /**
   * The words of a statement up to the end of its line. The position
   * assignment spans two lines of the template.
   */
  function Words(line: ShaderLine): string
  {
    match line
    case Version(glsl) => "#version " + DecimalDigits(glsl)
    case TexCoordVarying(i) => "varying vec2 " + VaryingName(i) + ";"
    case TexCoordAttribute(i) => "attribute vec4 " + AttributeName(i) + ";"
    case VertexPositionAttribute => "attribute vec3 VertexPosition;"
    case MatrixUniform(name) => "uniform mat4 " + name + ";"
    case MainBegin => "void main() {"
    case TexCoordAssignment(i) =>
      " " + VaryingName(i) + " = vec4(TransformMatrix * OrientationMatrix * " + AttributeName(i) + ").st;"
    case PositionAssignment =>
      " gl_Position = ProjectionMatrix * ZoomMatrix * ViewMatrix\n               * vec4(VertexPosition, 1.0);"
    case MainEnd => ""
  }

  /** The source text: the statements' texts one after the other. */
  function SourceText(lines: seq<ShaderLine>): (text: string)
    ensures |text| >= |lines|
  {
    var texts := Texts(lines);
    JoinEnds(texts);
    Join(texts)
  }

  /** The text of each statement, in order. */
  function Texts(lines: seq<ShaderLine>): (texts: seq<string>)
    ensures |texts| == |lines|
    ensures forall k :: 0 <= k < |lines| ==> texts[k] == Text(lines[k])
  {
    if lines == [] then [] else [Text(lines[0])] + Texts(lines[1..])
  }

  /** Strings one after the other. */
  function Join(texts: seq<string>): string
  {
    if texts == [] then "" else texts[0] + Join(texts[1..])
  }

  /** Joined non-empty strings: at least one character each, and the last string's last character at the end. */
  lemma {:induction false} JoinEnds(texts: seq<string>)
    requires forall k :: 0 <= k < |texts| ==> |texts[k]| >= 1
    ensures |Join(texts)| >= |texts|
    ensures texts != [] ==> Join(texts)[|Join(texts)| - 1] == texts[|texts| - 1][|texts[|texts| - 1]| - 1]
  {
    if texts != [] {
      JoinEnds(texts[1..]);
      LastOfConcat(texts[0], Join(texts[1..]));
      if |texts| > 1 {
        assert texts[1..][|texts| - 2] == texts[|texts| - 1];
      }
    }
  }

  /** Joining two runs of strings is joining each and concatenating. */
  lemma {:induction false} JoinConcat(a: seq<string>, b: seq<string>)
    ensures Join(a + b) == Join(a) + Join(b)
  {
    if a == [] {
      assert a + b == b;
    } else {
      assert (a + b)[0] == a[0];
      assert (a + b)[1..] == a[1..] + b;
      JoinConcat(a[1..], b);
    }
  }

  /** The text of two runs of statements is the text of the first followed by that of the second. */
  lemma SourceTextConcat(a: seq<ShaderLine>, b: seq<ShaderLine>)
    ensures SourceText(a + b) == SourceText(a) + SourceText(b)
  {
    assert Texts(a + b) == Texts(a) + Texts(b);
    JoinConcat(Texts(a), Texts(b));
  }

  /** A text ends as its last statement does: with a newline, or with '}' for the closing brace. */
  lemma SourceTextEnds(lines: seq<ShaderLine>)
    requires lines != []
    ensures var text := SourceText(lines);
            text[|text| - 1] == if lines[|lines| - 1].MainEnd? then '}' else '\n'
  {
    JoinEnds(Texts(lines));
  }

  /** The last character of a + b: b's when b is not empty, a's otherwise. */
  lemma LastOfConcat(a: string, b: string)
    requires |a| > 0
    ensures (a + b)[|a + b| - 1] == if |b| == 0 then a[|a| - 1] else b[|b| - 1]
  {
  }

  /**
   * The text asprintf produces from the template starts with the version
   * line and ends with the closing brace of main, with no newline after it.
   */
  lemma VertexShaderText(glslVersion: nat, planeCount: nat)
    ensures var text := SourceText(VertexShader(glslVersion, planeCount));
            && "#version " + DecimalDigits(glslVersion) + "\n" <= text
            && text[|text| - 1] == '}'
  {
    FramedText(VertexShader(glslVersion, planeCount), glslVersion);
  }

  /** The text of statements from a version line to the closing brace of main. */
  lemma FramedText(lines: seq<ShaderLine>, glslVersion: nat)
    requires |lines| >= 1 && lines[0] == Version(glslVersion) && lines[|lines| - 1] == MainEnd
    ensures var text := SourceText(lines);
            && "#version " + DecimalDigits(glslVersion) + "\n" <= text
            && text[|text| - 1] == '}'
  {
    var head := "#version " + DecimalDigits(glslVersion) + "\n";
    var texts := Texts(lines);
    assert texts[0] == head;
    assert SourceText(lines) == head + Join(texts[1..]);
    SourceTextEnds(lines);
  }

  /** The declarations of plane i's texture coordinate. */
  function CoordHeader(i: nat): seq<ShaderLine>
  {
    [TexCoordVarying(i), TexCoordAttribute(i)]
  }

  /**
   * The vertex shader BuildVertexShader compiles for `planeCount` planes.
   * Plane 0's coordinate is always declared and passed on; planes 1 and 2
   * only when the picture has more planes than that.
   */
  function VertexShader(glslVersion: nat, planeCount: nat): (lines: seq<ShaderLine>)
    ensures |lines| >= 2 && lines[0] == Version(glslVersion) && lines[|lines| - 1] == MainEnd
  {
    Declarations(glslVersion, planeCount) + MainFunction(planeCount)
  }

  /** The version line and the declarations, down to the last uniform. */
  function Declarations(glslVersion: nat, planeCount: nat): seq<ShaderLine>
  {
    [Version(glslVersion)] + CoordDeclarations(planeCount) + UNIFORM_DECLARATIONS
  }

  /** The texture coordinate declarations of the planes the shader carries. */
  function CoordDeclarations(planeCount: nat): seq<ShaderLine>
  {
    CoordHeader(0)
    + (if planeCount > 1 then CoordHeader(1) else [])
    + (if planeCount > 2 then CoordHeader(2) else [])
  }

  const UNIFORM_DECLARATIONS: seq<ShaderLine> := [
    VertexPositionAttribute,
    MatrixUniform("TransformMatrix"),
    MatrixUniform("OrientationMatrix"),
    MatrixUniform("ProjectionMatrix"),
    MatrixUniform("ZoomMatrix"),
    MatrixUniform("ViewMatrix")
  ]

  /** The body of main(): pass each plane's coordinate on, then place the vertex. */
  function MainFunction(planeCount: nat): (lines: seq<ShaderLine>)
    ensures forall k :: 0 <= k < |lines| ==> !lines[k].TexCoordAttribute?
  {
    [MainBegin, TexCoordAssignment(0)]
    + (if planeCount > 1 then [TexCoordAssignment(1)] else [])
    + (if planeCount > 2 then [TexCoordAssignment(2)] else [])
    + [PositionAssignment, MainEnd]
  }

  /** Whether the shader carries a texture coordinate for plane i. */
  predicate CarriesPlane(planeCount: nat, i: nat)
  {
    i == 0 || (i < planeCount && i < 3)
  }

  /**
   * Every plane coordinate the shader declares (as attribute or varying)
   * or assigns is one it carries, and every plane it carries is declared
   * both ways and assigned. The shader has 13 fixed statements and three
   * more for each of planes 1 and 2 that is present.
   */
  lemma VertexShaderPlanes(glslVersion: nat, planeCount: nat)
    ensures var lines := VertexShader(glslVersion, planeCount);
            && |lines| == 13 + 3 * (if planeCount <= 1 then 0 else if planeCount == 2 then 1 else 2)
            && (forall k :: 0 <= k < |lines| ==> PlaneOf(lines[k]).Some? ==> CarriesPlane(planeCount, PlaneOf(lines[k]).value))
            && (forall i: nat :: CarriesPlane(planeCount, i) ==>
                  && TexCoordAttribute(i) in lines
                  && TexCoordVarying(i) in lines
                  && TexCoordAssignment(i) in lines)
  {
    var lines := VertexShader(glslVersion, planeCount);
    forall k | 0 <= k < |lines| && PlaneOf(lines[k]).Some?
      ensures CarriesPlane(planeCount, PlaneOf(lines[k]).value)
    {
      ShaderPlaneBound(glslVersion, planeCount, k);
    }
    ShaderPlanesDeclared(glslVersion, planeCount);
  }

  lemma ShaderPlanesDeclared(glslVersion: nat, planeCount: nat)
    ensures var lines := VertexShader(glslVersion, planeCount);
            && |lines| == 13 + 3 * (if planeCount <= 1 then 0 else if planeCount == 2 then 1 else 2)
            && (forall i: nat :: CarriesPlane(planeCount, i) ==>
                  && TexCoordAttribute(i) in lines
                  && TexCoordVarying(i) in lines
                  && TexCoordAssignment(i) in lines)
  {
    var lines := VertexShader(glslVersion, planeCount);
    var extra := if planeCount <= 1 then 0 else if planeCount == 2 then 1 else 2;
    assert lines[1] == TexCoordVarying(0) && lines[2] == TexCoordAttribute(0);
    assert lines[10 + 2 * extra] == TexCoordAssignment(0);
    if extra >= 1 {
      assert lines[3] == TexCoordVarying(1) && lines[4] == TexCoordAttribute(1);
      assert lines[11 + 2 * extra] == TexCoordAssignment(1);
    }
    if extra == 2 {
      assert lines[5] == TexCoordVarying(2) && lines[6] == TexCoordAttribute(2);
      assert lines[12 + 2 * extra] == TexCoordAssignment(2);
    }
  }

  /** The plane a statement is about, if any. */
  function PlaneOf(line: ShaderLine): Option<nat>
  {
    match line
    case TexCoordVarying(i) => Some(i)
    case TexCoordAttribute(i) => Some(i)
    case TexCoordAssignment(i) => Some(i)
    case _ => None
  }

  lemma ShaderPlaneBound(glslVersion: nat, planeCount: nat, k: nat)
    requires k < |VertexShader(glslVersion, planeCount)|
    requires PlaneOf(VertexShader(glslVersion, planeCount)[k]).Some?
    ensures PlaneOf(VertexShader(glslVersion, planeCount)[k]).value
            <= if planeCount <= 1 then 0 else if planeCount == 2 then 1 else 2
  {
  }

  /**
   * The outcome of the steps of opengl_link_program the model does not
   * look into: building each shader, the link status (only consulted when
   * the driver left a log) and the chroma converter's own locations.
   */
  datatype LinkSteps = LinkSteps(vertexShaderBuilt: bool, fragmentShaderBuilt: bool,
                                 hasLinkLog: bool, linkSucceeded: bool, converterLocations: bool)

  /** The uniform and attribute locations of a linked program (renderer->uloc and aloc). */
  datatype Locations = Locations(transformMatrix: int, orientationMatrix: int, projectionMatrix: int,
                                 viewMatrix: int, zoomMatrix: int, vertexPosition: int,
                                 multiTexCoord: seq<int>)

  /** The uniforms fetched after linking, in the order they are fetched. */
  const UNIFORM_NAMES: seq<string> :=
    ["TransformMatrix", "OrientationMatrix", "ProjectionMatrix", "ViewMatrix", "ZoomMatrix"]

  /** The attributes that must be found for a picture of texCount planes. */
  function RequiredAttributes(texCount: nat): seq<string>
  {
    ["VertexPosition", AttributeName(0)]
    + (if texCount > 1 then [AttributeName(1)] else [])
    + (if texCount > 2 then [AttributeName(2)] else [])
  }

  /** Whether linking gets past every check for the given driver answers. */
  predicate LinkSucceeds(texCount: nat, steps: LinkSteps,
                         uniformLocation: string -> int, attribLocation: string -> int)
  {
    && steps.vertexShaderBuilt
    && steps.fragmentShaderBuilt
    && (steps.hasLinkLog ==> steps.linkSucceeded)
    && (forall name :: name in UNIFORM_NAMES ==> uniformLocation(name) != -1)
    && (forall name :: name in RequiredAttributes(texCount) ==> attribLocation(name) != -1)
    && steps.converterLocations
  }

  /**
   * The locations a successful link records: each uniform and the vertex
   * position as the driver reports them, and for each of the three plane
   * slots the driver's location when the shader carries that plane, -1
   * otherwise.
   */
  predicate LocatedBy(loc: Locations, texCount: nat,
                      uniformLocation: string -> int, attribLocation: string -> int)
  {
    && loc.transformMatrix == uniformLocation("TransformMatrix")
    && loc.orientationMatrix == uniformLocation("OrientationMatrix")
    && loc.projectionMatrix == uniformLocation("ProjectionMatrix")
    && loc.viewMatrix == uniformLocation("ViewMatrix")
    && loc.zoomMatrix == uniformLocation("ZoomMatrix")
    && loc.vertexPosition == attribLocation("VertexPosition")
    && |loc.multiTexCoord| == 3
    && (forall i :: 0 <= i < 3 ==>
          loc.multiTexCoord[i]
          == if CarriesPlane(texCount, i) then attribLocation(AttributeName(i)) else -1)
  }

  /**
   * The location fetching of opengl_link_program: every uniform, the
   * vertex position and plane 0's coordinate must be found, planes 1 and 2
   * only when present; a location the driver reports as -1 fails the link
   * with EGENERIC. A plane the shader does not carry gets the location -1.
   */
  method LinkProgram(texCount: nat, steps: LinkSteps,
                     uniformLocation: string -> int, attribLocation: string -> int)
    returns (r: Result<Locations>)
    requires texCount > 0
    ensures r.Ok? <==> LinkSucceeds(texCount, steps, uniformLocation, attribLocation)
    ensures r.Err? ==> r.status == EGeneric
    ensures r.Ok? ==> LocatedBy(r.value, texCount, uniformLocation, attribLocation)
    ensures r.Ok? ==> forall i :: 0 <= i < 3 ==> (r.value.multiTexCoord[i] != -1 <==> CarriesPlane(texCount, i))
  {
    if !steps.vertexShaderBuilt || !steps.fragmentShaderBuilt {
      return Err(EGeneric);
    }
    if steps.hasLinkLog && !steps.linkSucceeded {
      return Err(EGeneric);
    }

    var uniforms: seq<int> := [];
    for k := 0 to |UNIFORM_NAMES|
      invariant |uniforms| == k
      invariant forall m :: 0 <= m < k ==> uniforms[m] == uniformLocation(UNIFORM_NAMES[m]) != -1
    {
      var location := uniformLocation(UNIFORM_NAMES[k]);
      if location == -1 {
        return Err(EGeneric);
      }
      uniforms := uniforms + [location];
    }

    var vertexPosition := attribLocation("VertexPosition");
    if vertexPosition == -1 {
      return Err(EGeneric);
    }
    var coord0 := attribLocation(AttributeName(0));
    if coord0 == -1 {
      return Err(EGeneric);
    }
    var coord1 := -1;
    if texCount > 1 {
      coord1 := attribLocation(AttributeName(1));
      if coord1 == -1 {
        return Err(EGeneric);
      }
    }
    var coord2 := -1;
    if texCount > 2 {
      coord2 := attribLocation(AttributeName(2));
      if coord2 == -1 {
        return Err(EGeneric);
      }
    }
    if !steps.converterLocations {
      return Err(EGeneric);
    }
    return Ok(Locations(uniforms[0], uniforms[1], uniforms[2], uniforms[3], uniforms[4],
                        vertexPosition, [coord0, coord1, coord2]));
  }

  /** The planes whose coordinate attribute the statements declare, in order. */
  function AttributePlanes(lines: seq<ShaderLine>): (planes: seq<nat>)
    ensures forall k :: 0 <= k < |planes| ==> TexCoordAttribute(planes[k]) in lines
    ensures forall k :: 0 <= k < |lines| && lines[k].TexCoordAttribute? ==> lines[k].plane in planes
  {
    if lines == [] then []
    else (if lines[0].TexCoordAttribute? then [lines[0].plane] else []) + AttributePlanes(lines[1..])
  }

  lemma {:induction false} AttributePlanesConcat(a: seq<ShaderLine>, b: seq<ShaderLine>)
    ensures AttributePlanes(a + b) == AttributePlanes(a) + AttributePlanes(b)
  {
    if a == [] {
      assert a + b == b;
    } else {
      assert (a + b)[0] == a[0];
      assert (a + b)[1..] == a[1..] + b;
      AttributePlanesConcat(a[1..], b);
    }
  }

  lemma {:induction false} NoAttributes(lines: seq<ShaderLine>)
    requires forall k :: 0 <= k < |lines| ==> !lines[k].TexCoordAttribute?
    ensures AttributePlanes(lines) == []
  {
    if lines != [] {
      NoAttributes(lines[1..]);
    }
  }

  /**
   * The vertex shader declares the coordinate attributes of planes 0, 1
   * and 2 in that order, each only when the picture has the plane.
   */
  lemma VertexShaderAttributes(glslVersion: nat, planeCount: nat)
    ensures AttributePlanes(VertexShader(glslVersion, planeCount))
            == [0] + (if planeCount > 1 then [1] else []) + (if planeCount > 2 then [2] else [])
  {
    AttributePlanesConcat(Declarations(glslVersion, planeCount), MainFunction(planeCount));
    DeclarationAttributes(glslVersion, planeCount);
    NoAttributes(MainFunction(planeCount));
  }

  lemma DeclarationAttributes(glslVersion: nat, planeCount: nat)
    ensures AttributePlanes(Declarations(glslVersion, planeCount))
            == [0] + (if planeCount > 1 then [1] else []) + (if planeCount > 2 then [2] else [])
  {
    var version := [Version(glslVersion)];
    UniformsDeclareNoAttribute();
    CoordDeclarationAttributes(planeCount);
    AttributePlanesConcat(version, CoordDeclarations(planeCount));
    AttributePlanesConcat(version + CoordDeclarations(planeCount), UNIFORM_DECLARATIONS);
    assert AttributePlanes(version) == [];
  }

  lemma CoordDeclarationAttributes(planeCount: nat)
    ensures AttributePlanes(CoordDeclarations(planeCount))
            == [0] + (if planeCount > 1 then [1] else []) + (if planeCount > 2 then [2] else [])
  {
    CoordHeaderAttributes(0);
    if planeCount <= 1 {
      assert CoordDeclarations(planeCount) == CoordHeader(0);
    } else {
      CoordHeaderAttributes(1);
      AttributePlanesConcat(CoordHeader(0), CoordHeader(1));
      if planeCount == 2 {
        assert CoordDeclarations(planeCount) == CoordHeader(0) + CoordHeader(1);
      } else {
        CoordHeaderAttributes(2);
        AttributePlanesConcat(CoordHeader(0) + CoordHeader(1), CoordHeader(2));
      }
    }
  }

  lemma UniformsDeclareNoAttribute()
    ensures AttributePlanes(UNIFORM_DECLARATIONS) == []
  {
    NoAttributes(UNIFORM_DECLARATIONS);
  }

  lemma CoordHeaderAttributes(i: nat)
    ensures AttributePlanes(CoordHeader(i)) == [i]
  {
    assert CoordHeader(i)[1..] == [TexCoordAttribute(i)];
    assert AttributePlanes([TexCoordAttribute(i)]) == [i] + AttributePlanes([]);
  }

  /**
   * The attributes linking insists on are the vertex position followed by
   * exactly the coordinate attributes the vertex shader for the same plane
   * count declares, in declaration order.
   */
  lemma RequiredAttributesAreDeclared(glslVersion: nat, texCount: nat)
    ensures var planes := AttributePlanes(VertexShader(glslVersion, texCount));
            RequiredAttributes(texCount)
            == ["VertexPosition"] + seq(|planes|, k requires 0 <= k < |planes| => AttributeName(planes[k]))
  {
    VertexShaderAttributes(glslVersion, texCount);
  }
}
